/** The shared helper of lib/utils.ts that computes something: `truncate`. */
module Utils {
  /** `text.slice(0, end)`: a negative end counts from the end of the text. */
  function SliceTo(text: string, end: int): (r: string)
    ensures end >= 0 ==> r == text[..if end <= |text| then end else |text|]
    ensures end < 0 ==> r == text[..if |text| + end >= 0 then |text| + end else 0]
  {
    if end >= 0 then (if end <= |text| then text[..end] else text)
    else if |text| + end >= 0 then text[..|text| + end]
    else ""
  }

  /** `truncate`: short enough texts are kept; longer ones are cut and get `...`. */
  function Truncate(text: string, length: int): string {
    if |text| <= length then text else SliceTo(text, length) + "..."
  }

  /** A text no longer than `length` is unchanged; a longer one becomes its first `length`
      characters and `...`, `length + 3` characters in all; either way the result starts with the
      first `min(|text|, length)` characters. */
  lemma TruncateSpec(text: string, length: nat)
    ensures |text| <= length ==> Truncate(text, length) == text
    ensures |text| > length ==> Truncate(text, length) == text[..length] + "..." && |Truncate(text, length)| == length + 3
    ensures var m := if |text| < length then |text| else length;
      |Truncate(text, length)| >= m && Truncate(text, length)[..m] == text[..m]
  {
    if |text| > length {
      assert (text[..length] + "...")[..length] == text[..length];
    }
  }

  /** Truncating again changes nothing, for a non-negative length. */
  lemma TruncateIdempotent(text: string, length: nat)
    ensures Truncate(Truncate(text, length), length) == Truncate(text, length)
  {
    if |text| > length {
      var once := text[..length] + "...";
      assert once[..length] == text[..length];
    }
  }

  /** For a negative length the cut counts from the end, and truncating again cuts further. */
  lemma NegativeLength()
    ensures Truncate("abcdef", -2) == "abcd..."
    ensures Truncate(Truncate("abcdef", -2), -2) == "abcd...."
  {
    assert "abcdef"[..4] == "abcd";
    assert ("abcd" + "...")[..5] == "abcd.";
  }
}
