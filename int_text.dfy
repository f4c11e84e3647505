/**
 * Kotlin `Int` and the two text conversions the integer widget relies on:
 * `Int.toString()` and `String.toIntOrNull()` (radix 10), plus `isBlank()`.
 */
module IntText {
  import opened Wrappers

  const MinInt32: int := -0x8000_0000
  const MaxInt32: int := 0x7fff_ffff

  /** Kotlin's 32-bit `Int`. */
  type Int32 = x: int | MinInt32 <= x <= MaxInt32

  predicate IsDigit(c: char)
  {
    '0' <= c <= '9'
  }

  function DigitValue(c: char): nat
    requires IsDigit(c)
  {
    (c as int) - ('0' as int)
  }

  function DigitChar(n: nat): (c: char)
    requires n < 10
    ensures IsDigit(c) && DigitValue(c) == n
  {
    (('0' as int) + n) as char
  }

  /** The value of a string of decimal digits, most significant first. */
  function DigitsValue(s: string): nat
    requires forall k :: 0 <= k < |s| ==> IsDigit(s[k])
  {
    if s == [] then 0 else DigitsValue(s[..|s| - 1]) * 10 + DigitValue(s[|s| - 1])
  }

  /** The decimal digits of a natural number, without leading zeros. */
  function NatToDigits(n: nat): (s: string)
    ensures |s| > 0
    ensures forall k :: 0 <= k < |s| ==> IsDigit(s[k])
  {
    if n < 10 then [DigitChar(n)] else NatToDigits(n / 10) + [DigitChar(n % 10)]
  }

  /** An optional leading sign, then one or more decimal digits. */
  predicate IsIntText(s: string)
  {
    if s != [] && (s[0] == '-' || s[0] == '+') then |s| > 1 && forall k :: 1 <= k < |s| ==> IsDigit(s[k])
    else s != [] && forall k :: 0 <= k < |s| ==> IsDigit(s[k])
  }

  /** The number a signed decimal text denotes. */
  function TextValue(s: string): int
    requires IsIntText(s)
  {
    if s[0] == '-' then -(DigitsValue(s[1..]) as int) else if s[0] == '+' then DigitsValue(s[1..]) else DigitsValue(s)
  }

  /** `Int.toString()`: a minus sign for negative numbers, then the digits. */
  function IntToString(n: int): (s: string)
    ensures IsIntText(s) && s[0] != '+'
    ensures TextValue(s) == n
    ensures s[0] == '-' <==> n < 0
  {
    if n < 0 then
      DigitsRoundTrip(-n);
      var s := "-" + NatToDigits(-n);
      assert s[1..] == NatToDigits(-n);
      s
    else
      DigitsRoundTrip(n);
      NatToDigits(n)
  }

  /** Digits only, at least one; the value, if it fits the bound. */
  function ParseDigits(s: string, bound: nat): (r: Option<nat>)
    ensures r.Some? ==> r.value <= bound
  {
    if s != [] && (forall k :: 0 <= k < |s| ==> IsDigit(s[k])) && DigitsValue(s) <= bound
    then Some(DigitsValue(s))
    else None
  }

  /**
   * `String.toIntOrNull()`: an optional leading `-` or `+`, then one or more
   * decimal digits, and the value must fit in an `Int`; anything else is null.
   */
  function ParseInt(s: string): (r: Option<Int32>)
    ensures r.Some? <==> IsIntText(s) && MinInt32 <= TextValue(s) <= MaxInt32
    ensures r.Some? ==> r.value == TextValue(s)
  {
    if s == [] then None
    else if s[0] == '-' || s[0] == '+' then
      if |s| == 1 then None
      else if s[0] == '-' then
        match ParseDigits(s[1..], -MinInt32)
        case Some(v) => var neg: Int32 := -(v as int); Some(neg)
        case None => None
      else
        match ParseDigits(s[1..], MaxInt32)
        case Some(v) => Some(v)
        case None => None
    else
      match ParseDigits(s, MaxInt32)
      case Some(v) => Some(v)
      case None => None
  }

  lemma {:induction false} DigitsRoundTrip(n: nat)
    ensures DigitsValue(NatToDigits(n)) == n
  {
    if n >= 10 {
      var s := NatToDigits(n);
      DigitsRoundTrip(n / 10);
      assert s[..|s| - 1] == NatToDigits(n / 10);
    }
  }

  /** The digits of a natural number within the bound parse back to it. */
  lemma ParseDigitsOfNat(n: nat, bound: nat)
    requires n <= bound
    ensures ParseDigits(NatToDigits(n), bound) == Some(n)
  {
    DigitsRoundTrip(n);
  }

  /** Rendering an `Int` and parsing the text back gives the same `Int`. */
  lemma ParseIntToString(n: Int32)
    ensures ParseInt(IntToString(n)) == Some(n)
  {
    var s := IntToString(n);
    if n < 0 {
      var digits := NatToDigits(-(n as int));
      assert s == "-" + digits;
      assert s[1..] == digits;
      ParseDigitsOfNat(-(n as int), -MinInt32);
    } else {
      var digits := NatToDigits(n);
      assert s == digits;
      assert IsDigit(s[0]);
      ParseDigitsOfNat(n, MaxInt32);
    }
  }

  /**
   * `Char.isWhitespace()` on the JVM: the ASCII controls tab to carriage
   * return and FS to US, and the Unicode space, line and paragraph separators.
   */
  predicate IsWhitespace(c: char)
  {
    || ('\t' <= c <= '\r')
    || ('\U{1C}' <= c <= '\U{1F}')
    || c == ' ' || c == '\U{A0}' || c == '\U{1680}'
    || ('\U{2000}' <= c <= '\U{200A}')
    || c == '\U{2028}' || c == '\U{2029}' || c == '\U{202F}' || c == '\U{205F}' || c == '\U{3000}'
  }

  /** `CharSequence.isBlank()`: empty, or made of whitespace only. */
  predicate IsBlank(s: string)
  {
    forall k :: 0 <= k < |s| ==> IsWhitespace(s[k])
  }

  /** The text of an `Int` is never blank. */
  lemma IntToStringNotBlank(n: int)
    ensures !IsBlank(IntToString(n))
  {
    var s := IntToString(n);
    assert !IsWhitespace(s[0]);
  }

  /** Blank text never parses as a number. */
  lemma BlankDoesNotParse(s: string)
    requires IsBlank(s)
    ensures ParseInt(s) == None
  {
    if s != [] {
      assert IsWhitespace(s[0]);
      assert !IsDigit(s[0]);
    }
  }
}
