/** JavaScript `String.prototype.match` for the regular expressions of the shape
    `(?:a1|a2|…)(c+)` used to pull video ids out of URLs: one of the literal alternatives, tried
    in order, followed by a greedy, non-empty run of the character class `c`, which is captured.
    The match is the leftmost one; at that position the first alternative that can be followed by
    a class character wins. */
module UrlPatterns {
  import opened Wrappers
  import opened Strings

  datatype Pattern = Pattern(alternatives: seq<string>, inClass: char -> bool)

  /** The length of the greedy run of class characters starting at `from`. */
  function RunLength(s: string, from: nat, inClass: char -> bool): (n: nat)
    requires from <= |s|
    ensures from + n <= |s|
    ensures forall k :: from <= k < from + n ==> inClass(s[k])
    ensures from + n < |s| ==> !inClass(s[from + n])
    decreases |s| - from
  {
    if from < |s| && inClass(s[from]) then 1 + RunLength(s, from + 1, inClass) else 0
  }

  /** Alternative `a` matches at `i` when it occurs there and a class character follows it. */
  predicate AlternativeMatchesAt(s: string, i: nat, a: string, inClass: char -> bool) {
    OccursAt(s, a, i) && i + |a| < |s| && inClass(s[i + |a|])
  }

  /** The index of the first alternative, from the `k`-th on, that matches at `i`. */
  function AlternativeAt(s: string, i: nat, p: Pattern, k: nat): (r: Option<nat>)
    ensures r.Some? ==>
      k <= r.value < |p.alternatives| && AlternativeMatchesAt(s, i, p.alternatives[r.value], p.inClass)
    ensures i >= |s| ==> r.None?
    ensures r.Some? ==> forall j :: k <= j < r.value ==> !AlternativeMatchesAt(s, i, p.alternatives[j], p.inClass)
    ensures r.None? ==> forall j :: k <= j < |p.alternatives| ==> !AlternativeMatchesAt(s, i, p.alternatives[j], p.inClass)
    decreases |p.alternatives| - k
  {
    if k >= |p.alternatives| then None
    else if AlternativeMatchesAt(s, i, p.alternatives[k], p.inClass) then Some(k)
    else AlternativeAt(s, i, p, k + 1)
  }

  predicate MatchesAt(s: string, i: nat, p: Pattern) {
    AlternativeAt(s, i, p, 0).Some?
  }

  /** The captured run of a match at `i`. */
  function CaptureAt(s: string, i: nat, p: Pattern): (r: string)
    requires MatchesAt(s, i, p)
    ensures r != [] && forall k :: 0 <= k < |r| ==> p.inClass(r[k])
  {
    var start := i + |p.alternatives[AlternativeAt(s, i, p, 0).value]|;
    s[start..start + RunLength(s, start, p.inClass)]
  }

  /** The leftmost position at or after `from` where the pattern matches. */
  function FirstMatchFrom(s: string, p: Pattern, from: nat): (r: Option<nat>)
    ensures r.Some? ==> from <= r.value && MatchesAt(s, r.value, p)
    ensures r.Some? ==> forall j :: from <= j < r.value ==> !MatchesAt(s, j, p)
    ensures r.None? ==> forall j :: from <= j < |s| ==> !MatchesAt(s, j, p)
    decreases |s| - from
  {
    if from >= |s| then None
    else if MatchesAt(s, from, p) then Some(from)
    else FirstMatchFrom(s, p, from + 1)
  }

  /** `s.match(p)?.[1]`, with `None` for no match. */
  function Capture(s: string, p: Pattern): (r: Option<string>)
    ensures r.Some? ==> r.value != [] && forall k :: 0 <= k < |r.value| ==> p.inClass(r.value[k])
  {
    match FirstMatchFrom(s, p, 0)
    case None => None
    case Some(i) => Some(CaptureAt(s, i, p))
  }

  /** The capture `c` comes from a match at `i` with the `k`-th alternative: the pattern matches
      nowhere to the left of `i`, no earlier alternative is followed by a class character at `i`,
      and `c` is the maximal run of class characters after the alternative. */
  ghost predicate LeftmostCapture(s: string, p: Pattern, i: nat, k: nat, c: string) {
    && (forall j :: 0 <= j < i ==> !MatchesAt(s, j, p))
    && k < |p.alternatives|
    && OccursAt(s, p.alternatives[k], i)
    && (forall k' :: 0 <= k' < k ==> !AlternativeMatchesAt(s, i, p.alternatives[k'], p.inClass))
    && var start := i + |p.alternatives[k]|;
       && start + |c| <= |s|
       && s[start..start + |c|] == c
       && (start + |c| < |s| ==> !p.inClass(s[start + |c|]))
  }

  /** `None` means the pattern matches nowhere. */
  lemma CaptureNone(s: string, p: Pattern)
    ensures Capture(s, p).None? <==> forall i: nat :: !MatchesAt(s, i, p)
  {
    if Capture(s, p).Some? {
      assert MatchesAt(s, FirstMatchFrom(s, p, 0).value, p);
    }
  }

  /** A capture is the leftmost match's run of class characters. */
  lemma CaptureSome(s: string, p: Pattern)
    requires Capture(s, p).Some?
    ensures exists i: nat, k: nat :: LeftmostCapture(s, p, i, k, Capture(s, p).value)
  {
    var i := FirstMatchFrom(s, p, 0).value;
    var k := AlternativeAt(s, i, p, 0).value;
    assert LeftmostCapture(s, p, i, k, Capture(s, p).value);
  }
}
