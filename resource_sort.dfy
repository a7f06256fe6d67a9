/** The resource library's view of a resource and the order `useResourceLibrary` sorts resources in
    (lib/hooks/useResourceLibrary.ts): by phase number, then by the resource's own order, a missing
    or zero order counting as 0. `Array.prototype.sort` is stable, so resources with equal keys keep
    the order in which they were collected; the sort is modelled as a stable insertion sort. */
module ResourceSort {
  import opened Wrappers
  import opened Seqs
  import opened CmsTypes

  /** `ResourceWithContext`: a resource with the titles and slugs of its module and phase. */
  datatype ResourceWithContext = ResourceWithContext(
    resource: Resource,
    moduleTitle: string,
    moduleSlug: string,
    phaseTitle: string,
    phaseSlug: string,
    phaseNumber: int)

  /** `a.attributes.order || 0`. */
  function OrderOf(r: ResourceWithContext): int {
    r.resource.order.GetOr(0)
  }

  /** The comparator returns a value `<= 0`: `a` may stay before `b`. */
  predicate SortLeq(a: ResourceWithContext, b: ResourceWithContext) {
    a.phaseNumber < b.phaseNumber || (a.phaseNumber == b.phaseNumber && OrderOf(a) <= OrderOf(b))
  }

  /** The resources whose sort key is `(phaseNumber, order)`. */
  function HasKey(phaseNumber: int, order: int): ResourceWithContext -> bool {
    (r: ResourceWithContext) => r.phaseNumber == phaseNumber && OrderOf(r) == order
  }

  predicate Sorted(s: seq<ResourceWithContext>) {
    forall i, j :: 0 <= i < j < |s| ==> SortLeq(s[i], s[j])
  }

  /** Inserts `x` into a sorted list after every element whose key is not greater than its own. */
  function Insert(s: seq<ResourceWithContext>, x: ResourceWithContext): (r: seq<ResourceWithContext>)
    ensures |r| == |s| + 1
  {
    if s == [] then [x]
    else if SortLeq(s[|s| - 1], x) then s + [x]
    else Insert(s[..|s| - 1], x) + [s[|s| - 1]]
  }

  /** The stable sort of `resources.sort(...)`. */
  function SortResources(s: seq<ResourceWithContext>): (r: seq<ResourceWithContext>)
    ensures |r| == |s|
  {
    if s == [] then [] else Insert(SortResources(s[..|s| - 1]), s[|s| - 1])
  }

  lemma {:induction false} InsertMultiset(s: seq<ResourceWithContext>, x: ResourceWithContext)
    ensures multiset(Insert(s, x)) == multiset(s) + multiset{x}
  {
    if s != [] && !SortLeq(s[|s| - 1], x) {
      InsertMultiset(s[..|s| - 1], x);
      assert s == s[..|s| - 1] + [s[|s| - 1]];
    }
  }

  lemma {:induction false} InsertSorted(s: seq<ResourceWithContext>, x: ResourceWithContext)
    requires Sorted(s)
    ensures Sorted(Insert(s, x))
  {
    if s != [] {
      var init, last := s[..|s| - 1], s[|s| - 1];
      if !SortLeq(last, x) {
        InsertSorted(init, x);
        InsertMultiset(init, x);
        var r := Insert(init, x);
        forall i | 0 <= i < |r| ensures SortLeq(r[i], last) {
          assert r[i] in multiset(r);
          if r[i] != x {
            assert r[i] in init;
          }
        }
      }
    }
  }

  /** The sort returns its input reordered: the same elements, each as often. */
  lemma {:induction false} SortPermutes(s: seq<ResourceWithContext>)
    ensures multiset(SortResources(s)) == multiset(s)
  {
    if s != [] {
      SortPermutes(s[..|s| - 1]);
      InsertMultiset(SortResources(s[..|s| - 1]), s[|s| - 1]);
      assert s == s[..|s| - 1] + [s[|s| - 1]];
    }
  }

  /** The result is in ascending order of phase number, then order. */
  lemma {:induction false} SortSorts(s: seq<ResourceWithContext>)
    ensures Sorted(SortResources(s))
  {
    if s != [] {
      SortSorts(s[..|s| - 1]);
      InsertSorted(SortResources(s[..|s| - 1]), s[|s| - 1]);
    }
  }

  lemma {:induction false} InsertStable(s: seq<ResourceWithContext>, x: ResourceWithContext, phaseNumber: int, order: int)
    ensures Filter(Insert(s, x), HasKey(phaseNumber, order))
         == Filter(s, HasKey(phaseNumber, order)) + (if HasKey(phaseNumber, order)(x) then [x] else [])
  {
    var key := HasKey(phaseNumber, order);
    if s == [] {
      FilterAppend([], x, key);
      assert [] + [x] == [x];
    } else {
      var init, last := s[..|s| - 1], s[|s| - 1];
      if SortLeq(last, x) {
        FilterAppend(s, x, key);
      } else {
        var inserted := Insert(init, x);
        assert Insert(s, x) == inserted + [last];
        InsertStable(init, x, phaseNumber, order);
        FilterAppend(inserted, last, key);
        FilterAppend(init, last, key);
        assert s == init + [last];
        if key(x) {
          assert !key(last);
        }
      }
    }
  }

  /** Stability: among resources with the same key, the sort keeps the collected order. */
  lemma {:induction false} SortStable(s: seq<ResourceWithContext>, phaseNumber: int, order: int)
    ensures Filter(SortResources(s), HasKey(phaseNumber, order)) == Filter(s, HasKey(phaseNumber, order))
  {
    if s != [] {
      var init, last := s[..|s| - 1], s[|s| - 1];
      SortStable(init, phaseNumber, order);
      InsertStable(SortResources(init), last, phaseNumber, order);
      FilterAppend(init, last, HasKey(phaseNumber, order));
      assert s == init + [last];
    }
  }

  /** A list that is already in order is left as it is. */
  lemma {:induction false} SortKeepsSorted(s: seq<ResourceWithContext>)
    requires Sorted(s)
    ensures SortResources(s) == s
  {
    if s != [] {
      var init, last := s[..|s| - 1], s[|s| - 1];
      assert Sorted(init);
      SortKeepsSorted(init);
      if |init| > 0 {
        assert SortLeq(init[|init| - 1], last);
      }
      assert s == init + [last];
    }
  }
}
