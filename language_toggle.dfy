/** The language switch (components/ui/language-toggle.tsx): the path the router is sent to when
    the reader switches between English and Arabic. */
module LanguageToggle {
  import opened Wrappers
  import opened Strings
  import opened I18n

  /** `handleLanguageSwitch`: the first occurrence of `/<current>` is removed from the path, wherever
      it is, and `/<opposite>` is put in front. */
  function SwitchedPath(pathname: string, current: Locale): string {
    "/" + Code(Opposite(current)) + ReplaceFirst(pathname, "/" + Code(current), "")
  }

  /** Removing a prefix that the string starts with leaves the rest. */
  lemma ReplaceLeadingOccurrence(s: string, pattern: string)
    requires pattern != [] && StartsWith(s, pattern)
    ensures ReplaceFirst(s, pattern, "") == s[|pattern|..]
  {
    assert OccursAt(s, pattern, 0);
    assert IndexOf(s, pattern) == Some(0);
  }

  /** The new path always starts with the other locale; a path under the current locale moves to
      the same place under the other one; a path that does not name the current locale is kept
      whole behind the new prefix; otherwise the first occurrence, wherever it is, is cut out. */
  lemma SwitchedPathSpec(pathname: string, current: Locale)
    ensures StartsWith(SwitchedPath(pathname, current), "/" + Code(Opposite(current)))
    ensures StartsWith(pathname, "/" + Code(current)) ==>
      SwitchedPath(pathname, current) == "/" + Code(Opposite(current)) + pathname[3..]
    ensures !Contains(pathname, "/" + Code(current)) ==>
      SwitchedPath(pathname, current) == "/" + Code(Opposite(current)) + pathname
    ensures Contains(pathname, "/" + Code(current)) ==> exists i: nat ::
      && OccursAt(pathname, "/" + Code(current), i)
      && (forall j :: 0 <= j < i ==> !OccursAt(pathname, "/" + Code(current), j))
      && SwitchedPath(pathname, current) == "/" + Code(Opposite(current)) + pathname[..i] + pathname[i + 3..]
  {
    var pattern := "/" + Code(current);
    var prefix := "/" + Code(Opposite(current));
    var rest := ReplaceFirst(pathname, pattern, "");
    assert SwitchedPath(pathname, current) == prefix + rest;
    assert (prefix + rest)[..|prefix|] == prefix;
    if StartsWith(pathname, pattern) {
      ReplaceLeadingOccurrence(pathname, pattern);
    }
    if Contains(pathname, pattern) {
      var i := IndexOf(pathname, pattern).value;
      assert pathname[..i] + "" + pathname[i + 3..] == pathname[..i] + pathname[i + 3..];
    }
  }

  /** Switching twice returns to a path under the current locale. */
  lemma SwitchBack(pathname: string, current: Locale)
    requires StartsWith(pathname, "/" + Code(current))
    ensures SwitchedPath(SwitchedPath(pathname, current), Opposite(current)) == pathname
  {
    var there := SwitchedPath(pathname, current);
    ReplaceLeadingOccurrence(pathname, "/" + Code(current));
    assert there == "/" + Code(Opposite(current)) + pathname[3..];
    ReplaceLeadingOccurrence(there, "/" + Code(Opposite(current)));
    OppositeIsInvolution(current);
    assert pathname == pathname[..3] + pathname[3..];
  }

  /** Examples: `/en` and `/en/phase/x` move under `/ar`. */
  lemma SwitchExamples()
    ensures SwitchedPath("/en", En) == "/ar"
    ensures SwitchedPath("/en/phase/x", En) == "/ar/phase/x"
  {
    ReplaceLeadingOccurrence("/en", "/en");
    ReplaceLeadingOccurrence("/en/phase/x", "/en");
    assert "/en/phase/x"[3..] == "/phase/x";
    assert "/" + "ar" + "/phase/x" == "/ar/phase/x";
  }

  /** The cut need not be at the start of the path. */
  lemma SwitchCutsInside()
    ensures SwitchedPath("/x/en", En) == "/ar/x"
  {
    var p := "/x/en";
    assert p[0..3][1] == 'x' && p[1..4][0] == 'x' && p[2..5] == "/en";
    assert !OccursAt(p, "/en", 0) && !OccursAt(p, "/en", 1) && OccursAt(p, "/en", 2);
    assert IndexOf(p, "/en") == Some(2);
    assert ReplaceFirst(p, "/en", "") == "/x";
    assert "/" + "ar" + "/x" == "/ar/x";
  }
}
