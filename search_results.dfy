/** The search results list (components/SearchResults.tsx): the link of each result, the empty
    state, and how a title or description is cut into highlighted and plain pieces around the
    occurrences of the query. The regular expression `(<escaped query>)` with flags `gi` is
    modelled directly: ASCII case-insensitive, non-overlapping occurrences, left to right. */
module SearchResults {
  import opened Wrappers
  import opened Strings
  import opened Seqs
  import opened Search

  // ----- escapeRegExp -----

  /** The characters of `/[.*+?^${}()|[\]\\]/`. */
  predicate IsSpecial(c: char) {
    c in ".*+?^${}()|[]\\"
  }

  function CountSpecial(s: string): nat {
    if s == [] then 0 else (if IsSpecial(s[0]) then 1 else 0) + CountSpecial(s[1..])
  }

  /** `escapeRegExp`: a backslash before each special character. */
  function EscapeRegExp(s: string): (r: string)
    ensures |r| == |s| + CountSpecial(s)
  {
    if s == [] then ""
    else (if IsSpecial(s[0]) then ['\\', s[0]] else [s[0]]) + EscapeRegExp(s[1..])
  }

  /** Reads an escaped pattern back: a backslash stands for the character after it. */
  function Unescape(s: string): string
    decreases |s|
  {
    if s == [] then ""
    else if s[0] == '\\' && |s| >= 2 then [s[1]] + Unescape(s[2..])
    else [s[0]] + Unescape(s[1..])
  }

  /** Escaping loses nothing: the pattern reads back as the query. */
  lemma {:induction false} UnescapeEscape(s: string)
    ensures Unescape(EscapeRegExp(s)) == s
  {
    if s != [] {
      UnescapeEscape(s[1..]);
      var rest := EscapeRegExp(s[1..]);
      if IsSpecial(s[0]) {
        assert (['\\', s[0]] + rest)[2..] == rest;
      } else {
        assert ([s[0]] + rest)[1..] == rest;
      }
      assert s == [s[0]] + s[1..];
    }
  }

  /** Every special character of the escaped pattern is escaped: it follows a backslash. */
  lemma {:induction false} EscapedSpecialsFollowBackslash(s: string)
    ensures var r := EscapeRegExp(s);
      forall i :: 0 <= i < |r| && IsSpecial(r[i]) && r[i] != '\\' ==> i > 0 && r[i - 1] == '\\'
  {
    if s != [] {
      EscapedSpecialsFollowBackslash(s[1..]);
      var head := if IsSpecial(s[0]) then ['\\', s[0]] else [s[0]];
      var r := EscapeRegExp(s);
      forall i | 0 <= i < |r| && IsSpecial(r[i]) && r[i] != '\\'
        ensures i > 0 && r[i - 1] == '\\'
      {
        if i >= |head| {
          assert r[i] == EscapeRegExp(s[1..])[i - |head|];
        }
      }
    }
  }

  // ----- HighlightedText -----

  /** `q` occurs in `s` at `i`, ignoring ASCII case. */
  predicate MatchesAt(s: string, q: string, i: nat) {
    i + |q| <= |s| && Lower(s[i..i + |q|]) == Lower(q)
  }

  ghost predicate ContainsMatch(s: string, q: string) {
    exists i: nat :: MatchesAt(s, q, i)
  }

  /** The first occurrence of `q` in `s` at or after `from`, ignoring case. */
  function FindMatch(s: string, q: string, from: nat): (r: Option<nat>)
    ensures r.Some? ==> from <= r.value && MatchesAt(s, q, r.value)
    ensures r.Some? ==> forall j :: from <= j < r.value ==> !MatchesAt(s, q, j)
    ensures r.None? ==> forall j: nat :: from <= j ==> !MatchesAt(s, q, j)
    decreases |s| - from
  {
    if from + |q| > |s| then None
    else if MatchesAt(s, q, from) then Some(from)
    else FindMatch(s, q, from + 1)
  }

  /** `text.split(/(q)/gi)` for a non-empty query: the text before the first occurrence, the
      occurrence itself (the captured group), then the split of the rest. */
  function SplitPieces(text: string, q: string): seq<string>
    requires q != ""
    decreases |text|
  {
    match FindMatch(text, q, 0)
    case None => [text]
    case Some(i) => [text[..i], text[i..i + |q|]] + SplitPieces(text[i + |q|..], q)
  }

  /** A piece of highlighted text: `<mark>` or plain `<span>`. */
  datatype Piece = Piece(text: string, marked: bool)

  function Concat(pieces: seq<Piece>): string {
    if pieces == [] then "" else pieces[0].text + Concat(pieces[1..])
  }

  function Mark(q: string): string -> Piece {
    part => Piece(part, Lower(part) == Lower(q))
  }

  /** `HighlightedText`: the text as it is for an empty query; otherwise each piece of the split,
      marked when it equals the query up to case. */
  function HighlightedText(text: string, q: string): seq<Piece> {
    if q == "" then [Piece(text, false)] else Map(SplitPieces(text, q), Mark(q))
  }

  function Join(parts: seq<string>): string {
    if parts == [] then "" else parts[0] + Join(parts[1..])
  }

  lemma {:induction false} SplitRejoins(text: string, q: string)
    requires q != ""
    ensures Join(SplitPieces(text, q)) == text
    decreases |text|
  {
    match FindMatch(text, q, 0)
    case None =>
      assert Join([text]) == text + Join([]);
    case Some(i) =>
      var rest := text[i + |q|..];
      SplitRejoins(rest, q);
      var parts := SplitPieces(text, q);
      assert parts[1..][1..] == SplitPieces(rest, q);
      assert text == text[..i] + text[i..i + |q|] + rest;
  }

  lemma {:induction false} ConcatMap(parts: seq<string>, q: string)
    ensures Concat(Map(parts, Mark(q))) == Join(parts)
  {
    if parts != [] {
      ConcatMap(parts[1..], q);
      assert Map(parts, Mark(q))[1..] == Map(parts[1..], Mark(q));
    }
  }

  /** An occurrence inside a prefix is an occurrence in the whole text. */
  lemma MatchInPrefix(s: string, q: string, i: nat, j: nat)
    requires i <= |s| && MatchesAt(s[..i], q, j)
    ensures MatchesAt(s, q, j)
  {
    assert s[..i][j..j + |q|] == s[j..j + |q|];
  }

  /** The text before the first occurrence holds no occurrence. */
  lemma NoMatchBefore(text: string, q: string, i: nat)
    requires q != "" && i <= |text| && forall j :: 0 <= j < i ==> !MatchesAt(text, q, j)
    ensures !ContainsMatch(text[..i], q)
  {
    forall j: nat ensures !MatchesAt(text[..i], q, j) {
      if MatchesAt(text[..i], q, j) {
        MatchInPrefix(text, q, i, j);
      }
    }
  }

  ghost predicate Alternates(parts: seq<string>, q: string) {
    && |parts| % 2 == 1
    && forall k :: 0 <= k < |parts| ==>
      (k % 2 == 1 ==> Lower(parts[k]) == Lower(q))
      && (k % 2 == 0 ==> !ContainsMatch(parts[k], q))
  }

  /** Putting an occurrence and the plain text before it in front keeps the alternation. */
  lemma AlternatesCons(before: string, occurrence: string, rest: seq<string>, q: string)
    requires !ContainsMatch(before, q) && Lower(occurrence) == Lower(q) && Alternates(rest, q)
    ensures Alternates([before, occurrence] + rest, q)
  {
    var parts := [before, occurrence] + rest;
    forall k | 2 <= k < |parts| ensures parts[k] == rest[k - 2] {}
  }

  /** The pieces alternate: plain text with no occurrence of the query, then an occurrence, and
      so on, ending with plain text. */
  lemma {:induction false} SplitAlternates(text: string, q: string)
    requires q != ""
    ensures Alternates(SplitPieces(text, q), q)
    decreases |text|
  {
    match FindMatch(text, q, 0)
    case None =>
      assert SplitPieces(text, q) == [text];
      assert !ContainsMatch(text, q);
    case Some(i) =>
      var rest := text[i + |q|..];
      SplitAlternates(rest, q);
      NoMatchBefore(text, q, i);
      AlternatesCons(text[..i], text[i..i + |q|], SplitPieces(rest, q), q);
  }

  /** The pieces put back together give the text; a piece is highlighted exactly when it is an
      occurrence of the query, and the plain pieces hold no occurrence of it. */
  lemma HighlightSpec(text: string, q: string)
    ensures Concat(HighlightedText(text, q)) == text
    ensures q == "" ==> HighlightedText(text, q) == [Piece(text, false)]
    ensures q != "" ==> forall k :: 0 <= k < |HighlightedText(text, q)| ==>
      && (HighlightedText(text, q)[k].marked <==> k % 2 == 1)
      && (!HighlightedText(text, q)[k].marked ==> !ContainsMatch(HighlightedText(text, q)[k].text, q))
  {
    if q == "" {
      assert Concat([Piece(text, false)]) == text + Concat([]);
    } else {
      var parts := SplitPieces(text, q);
      SplitRejoins(text, q);
      ConcatMap(parts, q);
      SplitAlternates(text, q);
      forall k | 0 <= k < |parts| && k % 2 == 0
        ensures Lower(parts[k]) != Lower(q)
      {
        if Lower(parts[k]) == Lower(q) {
          assert parts[k][0..|q|] == parts[k];
          assert MatchesAt(parts[k], q, 0);
        }
      }
    }
  }

  // ----- links -----

  /** The value of an optional string inside a template literal: `undefined` when missing. */
  function Interpolate(s: Option<string>): string {
    if s.Some? then s.value else "undefined"
  }

  /** The link of a result: a phase page, or the anchor of the module on its phase's page. */
  function ResultHref(locale: string, r: SearchResult): string {
    if r.item.itemType == PhaseItem then "/" + locale + "/phase/" + r.item.slug
    else "/" + locale + "/phase/" + Interpolate(r.item.phaseSlug) + "#" + r.item.slug
  }

  datatype ResultsView = NoResults(query: string) | Links(hrefs: seq<string>)

  /** `SearchResults`: the empty state, which repeats the query, for no results; otherwise the
      link of each result, in order. */
  function ResultsViewOf(results: seq<SearchResult>, query: string, locale: string): (v: ResultsView)
    ensures v.NoResults? <==> results == []
    ensures v.NoResults? ==> v.query == query
    ensures v.Links? ==> |v.hrefs| == |results|
    ensures v.Links? ==> forall i :: 0 <= i < |results| ==> v.hrefs[i] == ResultHref(locale, results[i])
  {
    if |results| == 0 then NoResults(query) else Links(Map(results, r => ResultHref(locale, r)))
  }

  /** A module result built from the searchable data links to its phase's page, with the module's
      slug as the anchor. */
  lemma ModuleResultHref(locale: string, p: CmsTypes.Phase, m: CmsTypes.Module, score: real)
    ensures ResultHref(locale, SearchResult(ModuleItemOf(p, m), score)) == "/" + locale + "/phase/" + p.slug + "#" + m.slug
    ensures ResultHref(locale, SearchResult(PhaseItemOf(p), score)) == "/" + locale + "/phase/" + p.slug
  {
  }
}
