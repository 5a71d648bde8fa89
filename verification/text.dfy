/**
 * The string operations the server and the web client lean on: prefix and
 * suffix tests, Kotlin's `trim` and `isBlank` (whose notion of whitespace
 * differs from the regex class `\s`), ASCII case folding, and decimal
 * digits in both directions.
 */
module Text {

  predicate StartsWith(s: string, prefix: string) {
    |prefix| <= |s| && s[..|prefix|] == prefix
  }

  predicate EndsWith(s: string, suffix: string) {
    |suffix| <= |s| && s[|s| - |suffix|..] == suffix
  }

  /** Kotlin's `removePrefix`: the prefix is dropped only when present. */
  function RemovePrefix(s: string, prefix: string): (r: string)
    ensures StartsWith(s, prefix) ==> prefix + r == s
    ensures !StartsWith(s, prefix) ==> r == s
  {
    if StartsWith(s, prefix) then s[|prefix|..] else s
  }

  // ---------------------------------------------------------------------------
  // Whitespace
  // ---------------------------------------------------------------------------

  /**
   * Kotlin's `Char.isWhitespace`: the controls U+0009 to U+000D and U+001C
   * to U+001F, and every space, line or paragraph separator.
   */
  predicate IsWhitespace(c: char) {
    var n := c as int;
    (9 <= n <= 13) || (28 <= n <= 32) || n == 0xA0 || n == 0x1680 ||
    (0x2000 <= n <= 0x200A) || n == 0x2028 || n == 0x2029 || n == 0x202F ||
    n == 0x205F || n == 0x3000
  }

  /** The regex class `\s` without the Unicode flag: space, tab, newline, VT, FF, CR. */
  predicate IsRegexSpace(c: char) {
    var n := c as int;
    (9 <= n <= 13) || n == 32
  }

  /** Every `\s` character is whitespace to Kotlin, but not the other way round. */
  lemma RegexSpaceIsWhitespace(c: char)
    ensures IsRegexSpace(c) ==> IsWhitespace(c)
    ensures IsWhitespace('\U{00A0}') && !IsRegexSpace('\U{00A0}')
  {
  }

  predicate AllWhitespace(s: string) {
    forall i :: 0 <= i < |s| ==> IsWhitespace(s[i])
  }

  /** Kotlin's `isBlank`: empty or whitespace only. */
  predicate IsBlank(s: string) {
    AllWhitespace(s)
  }

  /** The number of leading whitespace characters. */
  function Lead(s: string): (n: nat)
    ensures n <= |s| && AllWhitespace(s[..n])
    ensures n < |s| ==> !IsWhitespace(s[n])
    decreases |s|
  {
    if |s| > 0 && IsWhitespace(s[0]) then
      var k := Lead(s[1..]);
      assert s[..k + 1] == [s[0]] + s[1..][..k];
      k + 1
    else 0
  }

  /** The number of trailing whitespace characters. */
  function Trail(s: string): (n: nat)
    ensures n <= |s| && AllWhitespace(s[|s| - n..])
    ensures n < |s| ==> !IsWhitespace(s[|s| - n - 1])
    decreases |s|
  {
    if |s| > 0 && IsWhitespace(s[|s| - 1]) then
      var t := s[..|s| - 1];
      var k := Trail(t);
      assert s[|s| - (k + 1)..] == t[|t| - k..] + [s[|s| - 1]];
      k + 1
    else 0
  }

  /**
   * Kotlin's `trim`: the longest slice with no whitespace at either end,
   * obtained by dropping whitespace from both ends.
   */
  function Trim(s: string): (r: string)
    ensures Lead(s) + |r| <= |s| && r == s[Lead(s)..Lead(s) + |r|]
    ensures AllWhitespace(s[Lead(s) + |r|..])
    ensures |r| > 0 ==> !IsWhitespace(r[0]) && !IsWhitespace(r[|r| - 1])
  {
    var a := Lead(s);
    var t := s[a..];
    var b := Trail(t);
    var r := t[..|t| - b];
    assert s[a + |r|..] == t[|t| - b..];
    assert |r| > 0 ==> r[0] == s[a] && r[|r| - 1] == t[|t| - b - 1];
    r
  }

  /** `trim` gives the empty string exactly for blank text. */
  lemma TrimEmptyIffBlank(s: string)
    ensures |Trim(s)| == 0 <==> IsBlank(s)
  {
    var a := Lead(s);
    var r := Trim(s);
    if |r| == 0 {
      assert s == s[..a] + s[a + |r|..];
      WhitespaceConcat(s[..a], s[a + |r|..]);
    } else {
      assert !IsWhitespace(s[a]);
    }
  }

  lemma WhitespaceConcat(x: string, y: string)
    requires AllWhitespace(x) && AllWhitespace(y)
    ensures AllWhitespace(x + y)
  {
    forall i | 0 <= i < |x + y| ensures IsWhitespace((x + y)[i]) {
      if i < |x| { assert (x + y)[i] == x[i]; } else { assert (x + y)[i] == y[i - |x|]; }
    }
  }

  /** Trimming twice is trimming once. */
  lemma TrimIdempotent(s: string)
    ensures Trim(Trim(s)) == Trim(s)
  {
    TrimOfTrimmed(Trim(s));
  }

  /** A string with no whitespace at either end is its own trim. */
  lemma TrimOfTrimmed(r: string)
    requires |r| > 0 ==> !IsWhitespace(r[0]) && !IsWhitespace(r[|r| - 1])
    ensures Trim(r) == r
  {
    assert Lead(r) == 0;
    assert r[0..] == r;
    assert Trail(r) == 0;
  }

  // ---------------------------------------------------------------------------
  // Case folding
  // ---------------------------------------------------------------------------

  function LowerAscii(c: char): (r: char)
    ensures 'A' <= c <= 'Z' ==> 'a' <= r <= 'z' && r as int == c as int + 32
    ensures !('A' <= c <= 'Z') ==> r == c
  {
    if 'A' <= c <= 'Z' then (c as int + 32) as char else c
  }

  /** `equals(other, ignoreCase = true)` with ASCII case mapping. */
  predicate EqualsIgnoreCase(a: string, b: string) {
    |a| == |b| && forall i :: 0 <= i < |a| ==> LowerAscii(a[i]) == LowerAscii(b[i])
  }

  // ---------------------------------------------------------------------------
  // Decimal digits
  // ---------------------------------------------------------------------------

  predicate IsDigit(c: char) {
    '0' <= c <= '9'
  }

  predicate AllDigits(s: string) {
    forall i :: 0 <= i < |s| ==> IsDigit(s[i])
  }

  function DigitValue(c: char): (v: nat)
    requires IsDigit(c)
    ensures v < 10
  {
    c as int - '0' as int
  }

  function DigitChar(v: nat): (c: char)
    requires v < 10
    ensures IsDigit(c) && DigitValue(c) == v
  {
    ('0' as int + v) as char
  }

  /** The number a string of decimal digits denotes. */
  function DigitsValue(s: string): nat
    requires AllDigits(s)
    decreases |s|
  {
    if s == [] then 0 else DigitsValue(s[..|s| - 1]) * 10 + DigitValue(s[|s| - 1])
  }

  /** The decimal spelling of a natural number, without leading zeros. */
  function Decimal(n: nat): (s: string)
    ensures |s| >= 1 && AllDigits(s)
    ensures |s| > 1 ==> s[0] != '0'
    decreases n
  {
    if n < 10 then [DigitChar(n)] else Decimal(n / 10) + [DigitChar(n % 10)]
  }

  /** Reading back a number's decimal spelling gives the number. */
  lemma {:induction false} DecimalRoundTrip(n: nat)
    ensures DigitsValue(Decimal(n)) == n
    decreases n
  {
    if n >= 10 {
      DecimalRoundTrip(n / 10);
      var s := Decimal(n);
      assert s[..|s| - 1] == Decimal(n / 10);
    }
  }

  /** Leading zeros do not change the value: "01" reads as 1. */
  lemma {:induction false} LeadingZeroIgnored(s: string)
    requires AllDigits(s)
    ensures AllDigits("0" + s) && DigitsValue("0" + s) == DigitsValue(s)
    decreases |s|
  {
    if s != [] {
      var t := "0" + s;
      assert t[..|t| - 1] == "0" + s[..|s| - 1];
      LeadingZeroIgnored(s[..|s| - 1]);
    }
  }

  /** A string of k digits denotes less than 10^k. */
  function Pow10(k: nat): (p: nat)
    ensures p >= 1
  {
    if k == 0 then 1 else 10 * Pow10(k - 1)
  }

  lemma {:induction false} DigitsValueBound(s: string)
    requires AllDigits(s)
    ensures DigitsValue(s) < Pow10(|s|)
    decreases |s|
  {
    if s != [] {
      DigitsValueBound(s[..|s| - 1]);
    }
  }
}
