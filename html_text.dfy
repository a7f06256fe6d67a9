/** The tag stripping the phase and module cards share: `html.replace(/<[^>]*>/g, '')`, and the
    preview cut `.substring(0, n) + '...'`. */
module HtmlText {
  import opened Wrappers
  import opened Strings

  /** The global replace, scanning left to right: a `<` with a `>` somewhere after it starts a
      tag that runs to the first such `>` and is dropped; a `<` with no `>` after it cannot start
      a match and is kept, like every other character. */
  function StripTags(html: string): (r: string)
    ensures |r| <= |html|
    ensures forall c :: c in r ==> c in html
    decreases |html|
  {
    if html == [] then ""
    else if html[0] == '<' && IndexOf(html, ">").Some? then
      var close := IndexOf(html, ">").value;
      assert forall c :: c in html[close + 1..] ==> c in html;
      StripTags(html[close + 1..])
    else
      assert forall c :: c in html[1..] ==> c in html;
      [html[0]] + StripTags(html[1..])
  }

  /** A `<` followed somewhere later by a `>`. */
  predicate HasTagShape(s: string) {
    exists i, j :: 0 <= i < j < |s| && s[i] == '<' && s[j] == '>'
  }

  lemma NoCloseInside(s: string)
    requires IndexOf(s, ">").None?
    ensures '>' !in s
  {
    if '>' in s {
      var k :| 0 <= k < |s| && s[k] == '>';
      assert OccursAt(s, ">", k);
    }
  }

  /** What is left has no `<` followed anywhere later by a `>`. */
  lemma {:induction false} StrippedHasNoTags(html: string)
    ensures !HasTagShape(StripTags(html))
    decreases |html|
  {
    if html == [] {
    } else if html[0] == '<' && IndexOf(html, ">").Some? {
      StrippedHasNoTags(html[IndexOf(html, ">").value + 1..]);
    } else {
      var rest := StripTags(html[1..]);
      StrippedHasNoTags(html[1..]);
      var r := [html[0]] + rest;
      if html[0] == '<' {
        NoCloseInside(html);
        assert '>' !in html[1..];
        assert '>' !in rest;
      }
      forall i, j | 0 <= i < j < |r| && r[i] == '<'
        ensures r[j] != '>'
      {
        if i > 0 {
          assert r[i] == rest[i - 1] && r[j] == rest[j - 1];
        } else {
          assert r[j] == rest[j - 1];
        }
      }
    }
  }

  /** Text without `<` is left as it is. */
  lemma {:induction false} StripWithoutTags(html: string)
    requires '<' !in html
    ensures StripTags(html) == html
    decreases |html|
  {
    if html != [] {
      assert '<' !in html[1..];
      StripWithoutTags(html[1..]);
    }
  }

  /** `.substring(0, n)` for a non-negative `n`. */
  function Prefix(s: string, n: nat): (r: string)
    ensures |r| == if n <= |s| then n else |s|
  {
    if n <= |s| then s[..n] else s
  }

  /** `stripHtml` of a card: the stripped text cut to `n` characters, and always `...`. */
  function Preview(html: string, n: nat): string {
    Prefix(StripTags(html), n) + "..."
  }

  /** The preview is at most `n + 3` characters, ends with `...` even for a short or empty text,
      shows no tag shape before the dots, and for text without `<` is its first `n` characters. */
  lemma PreviewSpec(html: string, n: nat)
    ensures |Preview(html, n)| <= n + 3
    ensures |Preview(html, n)| >= 3 && Preview(html, n)[|Preview(html, n)| - 3..] == "..."
    ensures !HasTagShape(Preview(html, n)[..|Preview(html, n)| - 3])
    ensures '<' !in html ==> Preview(html, n) == Prefix(html, n) + "..."
  {
    var stripped := StripTags(html);
    var cut := Prefix(stripped, n);
    StrippedHasNoTags(html);
    assert Preview(html, n)[..|Preview(html, n)| - 3] == cut;
    forall i, j | 0 <= i < j < |cut| && cut[i] == '<'
      ensures cut[j] != '>'
    {
      assert cut[i] == stripped[i] && cut[j] == stripped[j];
    }
    if '<' !in html {
      StripWithoutTags(html);
    }
  }

  /** Examples: a tag is dropped, and a `<` with no `>` after it stays. */
  lemma StripExamples()
    ensures StripTags("<b>") == ""
    ensures StripTags("a<") == "a<"
  {
    assert "<b>"[0..1] == "<" && "<b>"[1..2] == "b" && "<b>"[2..3] == ">";
    assert OccursAt("<b>", ">", 2) && !OccursAt("<b>", ">", 0) && !OccursAt("<b>", ">", 1);
    assert IndexOf("<b>", ">") == Some(2);
    assert "<b>"[3..] == "";
    assert "a<"[1..] == "<" && "<"[1..] == "";
    assert IndexOf("<", ">").None?;
  }
}
