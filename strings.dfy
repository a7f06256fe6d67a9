/** The string operations of JavaScript that the source relies on, over ASCII:
    `toLowerCase`, `includes`, `indexOf`, `startsWith`, `replace` with a string pattern,
    `Number.prototype.toString` and `parseInt(s, 10)`. */
module Strings {
  import opened Wrappers

  /** `toLowerCase` on one character; only the ASCII letters change. */
  function LowerChar(c: char): char {
    if 'A' <= c <= 'Z' then (c as int + 32) as char else c
  }

  function Lower(s: string): (r: string)
    ensures |r| == |s| && forall i :: 0 <= i < |s| ==> r[i] == LowerChar(s[i])
  {
    seq(|s|, i requires 0 <= i < |s| => LowerChar(s[i]))
  }

  /** Lower-casing twice is lower-casing once. */
  lemma {:induction false} LowerIdempotent(s: string)
    ensures Lower(Lower(s)) == Lower(s)
  {
    var l := Lower(s);
    forall i | 0 <= i < |s| ensures Lower(l)[i] == l[i] {
      assert LowerChar(LowerChar(s[i])) == LowerChar(s[i]);
    }
  }

  /** Lower-casing works character by character, so it distributes over concatenation. */
  lemma LowerDistributes(a: string, b: string)
    ensures Lower(a + b) == Lower(a) + Lower(b)
  {
  }

  predicate StartsWith(s: string, prefix: string) {
    |prefix| <= |s| && s[..|prefix|] == prefix
  }

  /** `q` occurs in `s` starting at index `i`. */
  predicate OccursAt(s: string, q: string, i: nat) {
    i + |q| <= |s| && s[i..i + |q|] == q
  }

  /** `s.includes(q)`. */
  predicate Contains(s: string, q: string) {
    exists i: nat :: i <= |s| && OccursAt(s, q, i)
  }

  /** The first occurrence of `q` in `s` at or after `from`. */
  function FindFrom(s: string, q: string, from: nat): (r: Option<nat>)
    decreases |s| - from
    ensures r.Some? ==> from <= r.value && OccursAt(s, q, r.value)
    ensures r.Some? ==> forall j :: from <= j < r.value ==> !OccursAt(s, q, j)
    ensures r.None? ==> forall j: nat :: from <= j ==> !OccursAt(s, q, j)
  {
    if from + |q| > |s| then None
    else if OccursAt(s, q, from) then Some(from)
    else FindFrom(s, q, from + 1)
  }

  /** `s.indexOf(q)`, with `None` for -1. */
  function IndexOf(s: string, q: string): (r: Option<nat>)
    ensures r.Some? <==> Contains(s, q)
    ensures r.Some? ==> OccursAt(s, q, r.value) && forall j :: 0 <= j < r.value ==> !OccursAt(s, q, j)
  {
    FindFrom(s, q, 0)
  }

  /** `s.replace(pattern, replacement)` with a string pattern: only the first occurrence is replaced. */
  function ReplaceFirst(s: string, pattern: string, replacement: string): string {
    match IndexOf(s, pattern)
    case None => s
    case Some(i) => s[..i] + replacement + s[i + |pattern|..]
  }

  predicate IsDigit(c: char) {
    '0' <= c <= '9'
  }

  predicate AllDigits(s: string) {
    forall i :: 0 <= i < |s| ==> IsDigit(s[i])
  }

  function DigitChar(d: nat): (c: char)
    requires d < 10
    ensures IsDigit(c)
  {
    ('0' as int + d) as char
  }

  function DigitValue(c: char): (d: nat)
    requires IsDigit(c)
    ensures d < 10
  {
    c as int - '0' as int
  }

  /** The decimal value of a string of digits. */
  function DigitsValue(s: string): nat
    requires AllDigits(s)
  {
    if s == [] then 0 else 10 * DigitsValue(s[..|s| - 1]) + DigitValue(s[|s| - 1])
  }

  /** `n.toString()` for a non-negative integer: decimal digits without leading zeros. */
  function NatToString(n: nat): (r: string)
    ensures |r| > 0 && AllDigits(r)
    ensures r[0] == '0' ==> n == 0 && r == "0"
  {
    if n < 10 then [DigitChar(n)] else NatToString(n / 10) + [DigitChar(n % 10)]
  }

  /** `n.toString()` (and `String(n)`) for any integer. */
  function IntToString(n: int): (r: string)
    ensures |r| > 0
  {
    if n < 0 then "-" + NatToString(-n) else NatToString(n)
  }

  lemma {:induction false} NatToStringValue(n: nat)
    ensures DigitsValue(NatToString(n)) == n
  {
    if n >= 10 {
      NatToStringValue(n / 10);
      var s := NatToString(n);
      assert s[..|s| - 1] == NatToString(n / 10);
    }
  }

  /** The white space that `parseInt` skips (ASCII part). */
  predicate IsSpace(c: char) {
    c == ' ' || c == '\t' || c == '\n' || c == '\r' || c == '\U{000B}' || c == '\U{000C}'
  }

  function TrimStart(s: string): (r: string)
    ensures |r| <= |s| && (r != [] ==> !IsSpace(r[0]))
  {
    if s != [] && IsSpace(s[0]) then TrimStart(s[1..]) else s
  }

  /** The length of the longest all-digit prefix of `s`. */
  function DigitPrefixLength(s: string): (k: nat)
    ensures k <= |s| && AllDigits(s[..k]) && (k < |s| ==> !IsDigit(s[k]))
  {
    if s != [] && IsDigit(s[0]) then
      var k := 1 + DigitPrefixLength(s[1..]);
      assert s[..k] == [s[0]] + s[1..][..k - 1];
      k
    else 0
  }

  /** `parseInt(s, 10)`: skip leading white space, read an optional sign and the longest run of
      digits after it; `None` stands for `NaN` (no digit at all). */
  function ParseInt(s: string): Option<int> {
    var t := TrimStart(s);
    var negative := t != [] && t[0] == '-';
    var u := if t != [] && (t[0] == '-' || t[0] == '+') then t[1..] else t;
    var k := DigitPrefixLength(u);
    var magnitude: int := if k == 0 then 0 else DigitsValue(u[..k]);
    if k == 0 then None else Some(if negative then -magnitude else magnitude)
  }

  lemma DigitsAreWholePrefix(s: string)
    requires AllDigits(s)
    ensures DigitPrefixLength(s) == |s|
  {
  }

  /** On a string of digits, with or without a minus sign, `parseInt` reads the whole string. */
  lemma ParseIntOfDigits(digits: string, negative: bool)
    requires digits != [] && AllDigits(digits)
    ensures ParseInt(if negative then "-" + digits else digits)
         == Some(if negative then 0 - DigitsValue(digits) as int else DigitsValue(digits) as int)
  {
    var s := if negative then "-" + digits else digits;
    assert !IsSpace(s[0]);
    assert TrimStart(s) == s;
    var u := if negative then s[1..] else s;
    assert u == digits;
    DigitsAreWholePrefix(digits);
    assert u[..DigitPrefixLength(u)] == digits;
  }

  /** `parseInt` reads back what `toString` writes. */
  lemma {:induction false} ParseIntOfIntToString(n: int)
    ensures ParseInt(IntToString(n)) == Some(n)
  {
    var m: nat := if n < 0 then -n else n;
    NatToStringValue(m);
    ParseIntOfDigits(NatToString(m), n < 0);
  }

  /** The digit run of `digits + rest` ends where `rest` begins, when `rest` does not begin with a digit. */
  lemma {:induction false} DigitPrefixStopsAt(digits: string, rest: string)
    requires AllDigits(digits) && (rest == [] || !IsDigit(rest[0]))
    ensures DigitPrefixLength(digits + rest) == |digits|
  {
    if digits != [] {
      DigitPrefixStopsAt(digits[1..], rest);
      assert (digits + rest)[1..] == digits[1..] + rest;
    } else {
      assert digits + rest == rest;
    }
  }
}
