/**
 * The handful of Python string operations the analyser and the guide use:
 * `str.strip()`, `str.lower()` (on the characters that matter here),
 * `str(int)`, substring search and `url.split('/')[-1]`.
 */
module Strings {

  /** Python's `str.isspace()`: exactly the characters `str.strip()` removes by default. */
  predicate IsSpace(c: char) {
    || ('\t' <= c <= '\r')
    || ('\U{1C}' <= c <= '\U{1F}')
    || c == ' ' || c == '\U{85}' || c == '\U{A0}' || c == '\U{1680}'
    || ('\U{2000}' <= c <= '\U{200A}')
    || c == '\U{2028}' || c == '\U{2029}' || c == '\U{202F}' || c == '\U{205F}' || c == '\U{3000}'
  }

  predicate AllSpace(s: string) {
    All(s, IsSpace)
  }

  /** Every character of `s` is in the class `ws`. */
  predicate All(s: string, ws: char -> bool) {
    forall i :: 0 <= i < |s| ==> ws(s[i])
  }

  /** How many characters of `ws` open `s`. */
  function LeadingCount(s: string, ws: char -> bool): (k: nat)
    ensures k <= |s|
    ensures forall i :: 0 <= i < k ==> ws(s[i])
    ensures k < |s| ==> !ws(s[k])
  {
    if s != [] && ws(s[0]) then 1 + LeadingCount(s[1..], ws) else 0
  }

  /** Where the run of characters of `ws` that closes `s` begins. */
  function TrailingStart(s: string, ws: char -> bool): (k: nat)
    ensures k <= |s|
    ensures forall i :: k <= i < |s| ==> ws(s[i])
    ensures 0 < k ==> !ws(s[k - 1])
  {
    if s != [] && ws(s[|s| - 1]) then TrailingStart(s[..|s| - 1], ws) else |s|
  }

  /**
   * `s.strip(chars)` with `ws` as the character class: the middle of `s`
   * once the characters of `ws` at both ends are gone.
   */
  function StripWith(s: string, ws: char -> bool): (r: string)
    ensures r == [] <==> All(s, ws)
    ensures r != [] ==> !ws(r[0]) && !ws(r[|r| - 1])
    ensures exists i :: 0 <= i <= |s| - |r| && r == s[i..i + |r|]
                        && All(s[..i], ws) && All(s[i + |r|..], ws)
  {
    var i := LeadingCount(s, ws);
    var j := TrailingStart(s, ws);
    if j <= i then
      assert All(s[..0], ws) && All(s[0..], ws);
      []
    else
      var r := s[i..j];
      assert r == s[i..i + |r|] && s[i + |r|..] == s[j..];
      assert All(s[..i], ws) by {
        forall k | 0 <= k < i ensures ws(s[..i][k]) { assert s[..i][k] == s[k]; }
      }
      assert All(s[j..], ws) by {
        forall k | 0 <= k < |s| - j ensures ws(s[j..][k]) { assert s[j..][k] == s[j + k]; }
      }
      r
  }

  /**
   * `s.strip()`: the middle of `s` once the whitespace at both ends is gone.
   * It is empty exactly when `s` is all whitespace, which is what the
   * analyser's `not x.strip()` tests.
   */
  function Strip(s: string): (r: string)
    ensures r == [] <==> AllSpace(s)
    ensures r != [] ==> !IsSpace(r[0]) && !IsSpace(r[|r| - 1])
    ensures exists i :: 0 <= i <= |s| - |r| && r == s[i..i + |r|]
                        && All(s[..i], IsSpace) && All(s[i + |r|..], IsSpace)
  {
    StripWith(s, IsSpace)
  }

  /**
   * Python's lower-casing of one character, for the characters whose lower
   * case is plain ASCII: the letters A to Z and the Kelvin sign (U+212A),
   * whose lower case is `k`. Every other character is left as it is.
   */
  function LowerChar(c: char): char {
    if 'A' <= c <= 'Z' then (c as int + 32) as char
    else if c == '\U{212A}' then 'k'
    else c
  }

  /** `s.lower()`, character by character. */
  function Lower(s: string): (r: string)
    ensures |r| == |s|
    ensures forall i :: 0 <= i < |s| ==> r[i] == LowerChar(s[i])
  {
    if s == [] then [] else [LowerChar(s[0])] + Lower(s[1..])
  }

  /** `sub` occurs in `s` (the CSS `*=` attribute test). */
  predicate Contains(s: string, sub: string) {
    exists i :: 0 <= i <= |s| - |sub| && OccursAt(s, sub, i)
  }

  predicate OccursAt(s: string, sub: string, i: int) {
    0 <= i <= |s| - |sub| && s[i..i + |sub|] == sub
  }

  predicate IsDigit(c: char) {
    '0' <= c <= '9'
  }

  function DigitChar(d: nat): (c: char)
    requires d < 10
    ensures IsDigit(c) && DigitValue(c) == d
  {
    (('0' as int) + d) as char
  }

  function DigitValue(c: char): (d: nat)
    requires IsDigit(c)
    ensures d < 10
  {
    (c as int) - ('0' as int)
  }

  /** The number a string of decimal digits denotes. */
  function DigitsValue(s: string): nat
    requires forall i :: 0 <= i < |s| ==> IsDigit(s[i])
  {
    if s == [] then 0
    else 10 * DigitsValue(s[..|s| - 1]) + DigitValue(s[|s| - 1])
  }

  /** `str(n)` for a natural number: decimal digits, no leading zero. */
  function NatToString(n: nat): (r: string)
    ensures |r| >= 1
    ensures forall i :: 0 <= i < |r| ==> IsDigit(r[i])
    ensures r[0] == '0' ==> n == 0 && r == "0"
  {
    if n < 10 then [DigitChar(n)] else NatToString(n / 10) + [DigitChar(n % 10)]
  }

  /** Reading the decimal text of `n` back gives `n`. */
  lemma {:induction false} NatToStringRoundTrip(n: nat)
    ensures DigitsValue(NatToString(n)) == n
  {
    if n >= 10 {
      var s := NatToString(n);
      assert s[..|s| - 1] == NatToString(n / 10);
      NatToStringRoundTrip(n / 10);
    }
  }

  /** `str(i)` for any integer: a minus sign before the digits of a negative number. */
  function IntToString(i: int): (r: string)
    ensures |r| >= 1
    ensures r[0] == '-' <==> i < 0
  {
    if i < 0 then "-" + NatToString(-i) else NatToString(i)
  }

  /** Reads an optionally signed decimal numeral. */
  function ParseInt(s: string): int
    requires s != [] && s[0] == '-' ==> forall i :: 1 <= i < |s| ==> IsDigit(s[i])
    requires s == [] || s[0] != '-' ==> forall i :: 0 <= i < |s| ==> IsDigit(s[i])
  {
    if s != [] && s[0] == '-' then -(DigitsValue(s[1..]) as int) else DigitsValue(s)
  }

  /** The text `IntToString` produces reads back as the same integer. */
  lemma IntToStringRoundTrip(i: int)
    ensures var s := IntToString(i);
            (s[0] == '-' ==> forall k :: 1 <= k < |s| ==> IsDigit(s[k]))
            && (s[0] != '-' ==> forall k :: 0 <= k < |s| ==> IsDigit(s[k]))
            && ParseInt(s) == i
  {
    if i < 0 {
      NatToStringRoundTrip(-i);
      assert IntToString(i)[1..] == NatToString(-i);
    } else {
      NatToStringRoundTrip(i);
    }
  }

  /**
   * `url.split('/')[-1]`: the part of `url` after its last `/`, or all of
   * `url` when it has no `/`.
   */
  function LastSegment(url: string): (r: string)
    ensures forall i :: 0 <= i < |r| ==> r[i] != '/'
    ensures |r| <= |url| && r == url[|url| - |r|..]
    ensures |r| == |url| || url[|url| - |r| - 1] == '/'
  {
    if url == [] then []
    else if url[|url| - 1] == '/' then []
    else LastSegment(url[..|url| - 1]) + [url[|url| - 1]]
  }
}
