/**
 * The few pieces of the Java library that the interceptors lean on when they
 * read and write header values: Integer.parseInt / Short.parseShort behind
 * NumberUtils.parseInteger / parseShort, Boolean.parseBoolean, and the decimal
 * form that string concatenation gives an int.
 */
module JavaText {
  import opened Wrappers

  const INT_MIN: int := -0x8000_0000
  const INT_MAX: int := 0x7fff_ffff
  const SHORT_MIN: int := -0x8000
  const SHORT_MAX: int := 0x7fff

  /** Java's 32-bit `int` and 16-bit `short`. */
  type Int32 = x: int | INT_MIN <= x <= INT_MAX
  type Int16 = x: int | SHORT_MIN <= x <= SHORT_MAX

  predicate IsDigit(c: char) {
    '0' <= c <= '9'
  }

  predicate AllDigits(s: string) {
    forall i :: 0 <= i < |s| ==> IsDigit(s[i])
  }

  function DigitValue(c: char): nat
    requires IsDigit(c)
  {
    c as int - '0' as int
  }

  function DigitChar(d: nat): (c: char)
    requires d < 10
    ensures IsDigit(c) && DigitValue(c) == d
  {
    ('0' as int + d) as char
  }

  /** The value of a string of decimal digits, most significant first. */
  function DigitsValue(s: string): nat
    requires AllDigits(s)
  {
    if s == [] then 0
    else DigitsValue(s[..|s| - 1]) * 10 + DigitValue(s[|s| - 1])
  }

  /** The shortest decimal digits of `n` (no leading zero, "0" for zero). */
  function NatToDigits(n: nat): (s: string)
    decreases n
  {
    if n < 10 then [DigitChar(n)] else NatToDigits(n / 10) + [DigitChar(n % 10)]
  }

  /** Integer.toString, i.e. what `"" + n` yields for an int. */
  function IntToString(n: int): string {
    if n < 0 then "-" + NatToDigits(-n) else NatToDigits(n)
  }

  /**
   * Integer.parseInt / Short.parseShort: an optional '+' or '-', then at least
   * one decimal digit, and a value inside [lo, hi]; None where Java throws
   * NumberFormatException.
   */
  function ParseDecimal(s: string, lo: int, hi: int): (r: Option<int>)
    ensures r.Some? ==> lo <= r.value <= hi
    ensures r.Some? ==> |s| > 0 && (IsDigit(s[0]) || s[0] == '-' || s[0] == '+')
  {
    if |s| == 0 then None
    else
      var body := if s[0] == '-' || s[0] == '+' then s[1..] else s;
      if |body| == 0 || !AllDigits(body) then None
      else
        var v: int := if s[0] == '-' then -(DigitsValue(body) as int) else DigitsValue(body);
        if lo <= v <= hi then Some(v) else None
  }

  /** NumberUtils.parseInteger(str, default): the default for null or a malformed value. */
  function ParseInteger(header: Option<string>, default: Int32): (r: Int32)
    ensures header.None? ==> r == default
    ensures header.Some? && ParseDecimal(header.value, INT_MIN, INT_MAX).None? ==> r == default
  {
    match header
    case None => default
    case Some(s) =>
      match ParseDecimal(s, INT_MIN, INT_MAX)
      case Some(v) => v
      case None => default
  }

  /** NumberUtils.parseShort(str, default). */
  function ParseShort(header: Option<string>, default: Int16): (r: Int16)
    ensures header.None? ==> r == default
    ensures header.Some? && ParseDecimal(header.value, SHORT_MIN, SHORT_MAX).None? ==> r == default
  {
    match header
    case None => default
    case Some(s) =>
      match ParseDecimal(s, SHORT_MIN, SHORT_MAX)
      case Some(v) => v
      case None => default
  }

  /**
   * String.length: the number of UTF-16 code units, two for a character
   * outside the Basic Multilingual Plane and one for any other.
   */
  function Utf16Length(s: string): (n: nat)
    ensures |s| <= n <= 2 * |s|
  {
    if s == [] then 0
    else Utf16Length(s[..|s| - 1]) + (if s[|s| - 1] as int > 0xFFFF then 2 else 1)
  }

  /** Text without supplementary characters has one UTF-16 unit per character. */
  lemma {:induction false} Utf16LengthBmp(s: string)
    requires forall i :: 0 <= i < |s| ==> s[i] as int <= 0xFFFF
    ensures Utf16Length(s) == |s|
    decreases |s|
  {
    if s != [] {
      Utf16LengthBmp(s[..|s| - 1]);
    }
  }

  /** Text made only of supplementary characters has two UTF-16 units per character. */
  lemma {:induction false} Utf16LengthSupplementary(s: string)
    requires forall i :: 0 <= i < |s| ==> s[i] as int > 0xFFFF
    ensures Utf16Length(s) == 2 * |s|
    decreases |s|
  {
    if s != [] {
      Utf16LengthSupplementary(s[..|s| - 1]);
    }
  }

  function ToLowerAscii(c: char): char {
    if 'A' <= c <= 'Z' then (c as int + 32) as char else c
  }

  /**
   * String.equalsIgnoreCase for ASCII text: same length and the same letters
   * position by position once upper case is folded to lower case.
   */
  predicate EqualsIgnoreCaseAscii(a: string, b: string) {
    |a| == |b| && forall i :: 0 <= i < |a| ==> ToLowerAscii(a[i]) == ToLowerAscii(b[i])
  }

  /**
   * Boolean.parseBoolean: true exactly for a non-null value equal to "true"
   * ignoring case. Java's case folding of non-ASCII letters never yields one
   * of 't', 'r', 'u', 'e', so ASCII folding is exact here.
   */
  function ParseBoolean(header: Option<string>): (r: bool)
    ensures r <==> header.Some? && EqualsIgnoreCaseAscii(header.value, "true")
    ensures header == Some("true") ==> r
    ensures header == Some("false") ==> !r
  {
    match header
    case None => false
    case Some(s) =>
      |s| == 4 && ToLowerAscii(s[0]) == 't' && ToLowerAscii(s[1]) == 'r'
      && ToLowerAscii(s[2]) == 'u' && ToLowerAscii(s[3]) == 'e'
  }

  lemma {:induction false} NatToDigitsWellFormed(n: nat)
    ensures |NatToDigits(n)| > 0
    ensures AllDigits(NatToDigits(n))
    ensures DigitsValue(NatToDigits(n)) == n
    decreases n
  {
    var s := NatToDigits(n);
    if n >= 10 {
      var prefix := NatToDigits(n / 10);
      NatToDigitsWellFormed(n / 10);
      assert s == prefix + [DigitChar(n % 10)];
      assert s[..|s| - 1] == prefix;
    }
  }

  /** Parsing the decimal form of an in-range number gives the number back. */
  lemma {:induction false} ParseIntToString(n: int, lo: int, hi: int)
    requires lo <= n <= hi
    ensures ParseDecimal(IntToString(n), lo, hi) == Some(n)
  {
    var s := IntToString(n);
    if n < 0 {
      NatToDigitsWellFormed(-n);
      assert s[1..] == NatToDigits(-n);
    } else {
      NatToDigitsWellFormed(n);
      assert IsDigit(s[0]);
    }
  }

  /** A value that does not begin with a sign or a digit never parses. */
  lemma NonNumericFallsBack(s: string, default: Int32)
    requires |s| > 0 && !IsDigit(s[0]) && s[0] != '-' && s[0] != '+'
    ensures ParseInteger(Some(s), default) == default
  {
  }
}
