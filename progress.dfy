/** Module-completion tracking (lib/contexts/ProgressContext.tsx): the list of completed module ids,
    kept in the provider's state and persisted in `localStorage` under one key as a JSON array. */
module Progress {
  import opened Wrappers
  import opened Strings
  import opened Seqs
  import opened BrowserStorage

  const StorageKey: string := "fiftyfifty_progress"

  // ----- JSON arrays of integers -----

  /** The elements of `JSON.stringify(ids)` between the brackets. */
  function EncodeElements(ids: seq<int>): string {
    if ids == [] then ""
    else if |ids| == 1 then IntToString(ids[0])
    else IntToString(ids[0]) + "," + EncodeElements(ids[1..])
  }

  /** `JSON.stringify` of an array of integers: `[1,2,3]`, no white space. */
  function EncodeIds(ids: seq<int>): (r: string)
    ensures |r| >= 2 && r[0] == '[' && r[|r| - 1] == ']'
  {
    "[" + EncodeElements(ids) + "]"
  }

  /** One JSON integer at the start of `s`: an optional minus sign and digits with no leading
      zero. The result holds the value and the number of characters read. */
  function ParseNumber(s: string): (r: Option<(int, nat)>)
    ensures r.Some? ==> 0 < r.value.1 <= |s|
  {
    var negative := s != [] && s[0] == '-';
    var u := if negative then s[1..] else s;
    var k := DigitPrefixLength(u);
    if k == 0 || (k > 1 && u[0] == '0') then None
    else
      var magnitude: int := DigitsValue(u[..k]);
      Some((if negative then -magnitude else magnitude, if negative then k + 1 else k))
  }

  /** The comma-separated integers of a non-empty array body. */
  function DecodeElements(s: string): Option<seq<int>>
    decreases |s|
  {
    match ParseNumber(s)
    case None => None
    case Some((v, k)) =>
      if k == |s| then Some([v])
      else if s[k] != ',' then None
      else
        match DecodeElements(s[k + 1..])
        case None => None
        case Some(vs) => Some([v] + vs)
  }

  /** `JSON.parse` followed by `Array.isArray`, for arrays of integers: `None` when the text is not
      such an array (the source then keeps its current list). */
  function DecodeIds(s: string): Option<seq<int>> {
    if |s| < 2 || s[0] != '[' || s[|s| - 1] != ']' then None
    else if |s| == 2 then Some([])
    else DecodeElements(s[1..|s| - 1])
  }

  lemma ParseNumberOfIntToString(n: int, rest: string)
    requires rest == [] || rest[0] == ','
    ensures ParseNumber(IntToString(n) + rest) == Some((n, |IntToString(n)|))
  {
    var m: nat := if n < 0 then -n else n;
    var digits := NatToString(m);
    NatToStringValue(m);
    DigitPrefixStopsAt(digits, rest);
    var s := IntToString(n) + rest;
    if n < 0 {
      assert s[1..] == digits + rest;
    } else {
      assert s == digits + rest;
    }
    assert (digits + rest)[..|digits|] == digits;
  }

  lemma {:induction false} DecodeEncodeElements(ids: seq<int>)
    requires ids != []
    ensures DecodeElements(EncodeElements(ids)) == Some(ids)
    decreases |ids|
  {
    var head := IntToString(ids[0]);
    if |ids| == 1 {
      ParseNumberOfIntToString(ids[0], "");
      assert head + "" == head;
      assert EncodeElements(ids) == head;
      assert ids == [ids[0]];
    } else {
      var tail := EncodeElements(ids[1..]);
      var s := head + "," + tail;
      ParseNumberOfIntToString(ids[0], "," + tail);
      assert s == head + ("," + tail);
      assert s[|head| + 1..] == tail;
      DecodeEncodeElements(ids[1..]);
      assert [ids[0]] + ids[1..] == ids;
    }
  }

  /** What the provider writes, it reads back. */
  lemma DecodeEncodeIds(ids: seq<int>)
    ensures DecodeIds(EncodeIds(ids)) == Some(ids)
  {
    var s := EncodeIds(ids);
    assert s[1..|s| - 1] == EncodeElements(ids);
    if ids != [] {
      DecodeEncodeElements(ids);
      assert |EncodeElements(ids)| > 0;
    }
  }

  // ----- the list operations -----

  /** `markModuleComplete`'s update: append the id unless it is already there. */
  function WithCompleted(prev: seq<int>, id: int): seq<int> {
    if id in prev then prev else prev + [id]
  }

  /** The condition `id => id !== moduleId`. */
  function Except(moduleId: int): int -> bool {
    id => id != moduleId
  }

  /** `markModuleIncomplete`'s update: drop every occurrence of the id. */
  function WithoutCompleted(prev: seq<int>, id: int): seq<int> {
    Filter(prev, Except(id))
  }

  /** Marking complete: the id is then complete, every other id keeps its state, the order of the
      earlier ids is kept, marking twice is marking once, and a list without repeats keeps none. */
  lemma WithCompletedSpec(prev: seq<int>, id: int)
    ensures var r := WithCompleted(prev, id);
      && id in r
      && (forall x :: x != id ==> (x in r <==> x in prev))
      && r[..|prev|] == prev
      && |r| == |prev| + (if id in prev then 0 else 1)
      && WithCompleted(r, id) == r
      && (NoDuplicates(prev) ==> NoDuplicates(r))
  {
  }

  /** Marking incomplete: the id is then not complete and every other id keeps its state, in order. */
  lemma WithoutCompletedSpec(prev: seq<int>, id: int)
    ensures var r := WithoutCompleted(prev, id);
      && id !in r
      && (forall x :: x != id ==> (x in r <==> x in prev))
      && IsSubsequence(r, prev)
      && (id !in prev ==> r == prev)
  {
    FilterMembers(prev, Except(id));
    FilterIsSubsequence(prev, Except(id));
    if id !in prev {
      FilterKeepsAll(prev, Except(id));
    }
  }

  /** Marking a module that was not complete and then unmarking it restores the list. */
  lemma CompleteThenIncomplete(prev: seq<int>, id: int)
    requires id !in prev
    ensures WithoutCompleted(WithCompleted(prev, id), id) == prev
  {
    FilterAppend(prev, id, Except(id));
    FilterKeepsAll(prev, Except(id));
  }

  // ----- the percentage -----

  /** `getCompletionPercentage`: 0 for no modules, otherwise `Math.round(completed / total * 100)`,
      computed exactly (rounding half up), where the double arithmetic of the source can land just
      below a half (23 of 40 gives 57 there, 58 here). */
  function CompletionPercentage(completed: nat, total: nat): (r: int) {
    if total == 0 then 0 else (200 * completed + total) / (2 * total)
  }

  /** The result is the integer nearest to `100 * completed / total`, halves rounding up. */
  lemma CompletionPercentageRounds(completed: nat, total: nat)
    requires total > 0
    ensures var r := CompletionPercentage(completed, total);
      2 * total * r <= 200 * completed + total < 2 * total * (r + 1)
  {
  }

  /** No more completed modules than modules gives at most 100, all of them exactly 100. */
  lemma CompletionPercentageBounds(completed: nat, total: nat)
    ensures completed <= total ==> 0 <= CompletionPercentage(completed, total) <= 100
    ensures total > 0 ==> CompletionPercentage(total, total) == 100
  {
    if total > 0 {
      var r := CompletionPercentage(completed, total);
      CompletionPercentageRounds(completed, total);
      if completed <= total {
        assert 2 * total * r < 2 * total * 101 by {
          assert 200 * completed <= 200 * total;
        }
        MulCancel(2 * total, r, 101);
      }
      var full := CompletionPercentage(total, total);
      CompletionPercentageRounds(total, total);
      MulCancel(2 * total, full, 101);
      MulCancel(2 * total, 99, full);
    }
  }

  lemma MulCancel(t: int, a: int, b: int)
    requires t > 0 && t * a < t * b
    ensures a < b
  {
    assert t * (b - a) == t * b - t * a > 0;
  }

  lemma CompletionPercentageExamples()
    ensures CompletionPercentage(2, 10) == 20
    ensures CompletionPercentage(1, 3) == 33
    ensures CompletionPercentage(5, 0) == 0
  {
  }

  // ----- the provider -----

  /** The list the load effect leaves: the stored array when the key holds one, otherwise the
      current list (the source ignores a missing, empty, malformed or non-array value). */
  function Restored(stored: Option<string>, current: seq<int>): seq<int> {
    if stored.None? || stored.value == "" then current
    else
      match DecodeIds(stored.value)
      case Some(ids) => ids
      case None => current
  }

  /** A list saved by the provider is restored by the next load. */
  lemma RestoredAfterSave(ids: seq<int>, current: seq<int>)
    ensures Restored(Some(EncodeIds(ids)), current) == ids
  {
    DecodeEncodeIds(ids);
  }

  /** Nothing stored, or something that is not an array of integers, leaves the list unchanged. */
  lemma RestoredIgnoresInvalid(stored: Option<string>, current: seq<int>)
    requires stored.None? || DecodeIds(stored.value).None?
    ensures Restored(stored, current) == current
  {
  }

  /** `ProgressProvider`: the list of completed modules, whether it has been loaded from storage,
      and the storage it persists to. The two effects and the callbacks are separate methods,
      since React runs the effects after the state changes they depend on. */
  class ProgressProvider {
    var completedModules: seq<int>
    var isHydrated: bool
    const storage: LocalStorage

    constructor (storage: LocalStorage)
      ensures completedModules == [] && !isHydrated && this.storage == storage
    {
      completedModules := [];
      isHydrated := false;
      this.storage := storage;
    }

    /** The load effect, run once on mount. */
    method LoadFromStorage()
      modifies this
      ensures completedModules == Restored(storage.GetItem(StorageKey), old(completedModules))
      ensures isHydrated
    {
      var stored := storage.GetItem(StorageKey);
      if stored.Some? && stored.value != "" {
        var parsed := DecodeIds(stored.value);
        if parsed.Some? {
          completedModules := parsed.value;
        }
      }
      isHydrated := true;
    }

    /** The save effect, run whenever the list or the hydration flag changes: nothing before
        hydration, afterwards the JSON of the list under the storage key. */
    method SaveToStorage()
      modifies storage
      ensures isHydrated ==> storage.items == old(storage.items)[StorageKey := EncodeIds(completedModules)]
      ensures !isHydrated ==> storage.items == old(storage.items)
      ensures isHydrated ==> Restored(storage.GetItem(StorageKey), []) == completedModules
    {
      if !isHydrated {
        return;
      }
      storage.SetItem(StorageKey, EncodeIds(completedModules));
      RestoredAfterSave(completedModules, []);
    }

    method MarkModuleComplete(moduleId: int)
      modifies this
      ensures completedModules == WithCompleted(old(completedModules), moduleId)
      ensures isHydrated == old(isHydrated)
      ensures IsModuleComplete(moduleId)
      ensures forall m :: m != moduleId ==> (IsModuleComplete(m) <==> m in old(completedModules))
    {
      WithCompletedSpec(completedModules, moduleId);
      if moduleId in completedModules {
        return;
      }
      completedModules := completedModules + [moduleId];
    }

    method MarkModuleIncomplete(moduleId: int)
      modifies this
      ensures completedModules == WithoutCompleted(old(completedModules), moduleId)
      ensures isHydrated == old(isHydrated)
      ensures !IsModuleComplete(moduleId)
      ensures forall m :: m != moduleId ==> (IsModuleComplete(m) <==> m in old(completedModules))
    {
      WithoutCompletedSpec(completedModules, moduleId);
      completedModules := Filter(completedModules, Except(moduleId));
    }

    /** `isModuleComplete`. */
    predicate IsModuleComplete(moduleId: int)
      reads this
    {
      moduleId in completedModules
    }

    /** `getCompletionPercentage`: 0 without modules, and between 0 and 100 while no more modules
        are complete than there are. */
    function GetCompletionPercentage(totalModules: nat): (r: int)
      reads this
      ensures totalModules == 0 ==> r == 0
      ensures |completedModules| <= totalModules ==> 0 <= r <= 100
    {
      CompletionPercentageBounds(|completedModules|, totalModules);
      CompletionPercentage(|completedModules|, totalModules)
    }

    function GetCompletedCount(): nat
      reads this
    {
      |completedModules|
    }

    /** `resetProgress`: the list is emptied and the stored value removed. */
    method ResetProgress()
      modifies this, storage
      ensures completedModules == [] && isHydrated == old(isHydrated)
      ensures storage.items == old(storage.items) - {StorageKey}
      ensures storage.GetItem(StorageKey).None?
    {
      completedModules := [];
      storage.RemoveItem(StorageKey);
    }
  }
}
