/** The Option type used for Kotlin's nullable values. */
module Wrappers {
  datatype Option<+T> = None | Some(value: T)
}

/**
 * The few pieces of the Kotlin standard library that the launcher core relies on:
 * `String.toInt()`, `Int.toString()`, `String.toBoolean()`, `isNullOrBlank()` and
 * `Char.equals(other, ignoreCase = true)`. Kotlin's `Int` is 32-bit, so parsing
 * fails outside that range, exactly as `toInt()` throws.
 */
module Text {
  import opened Wrappers

  const MinInt32: int := -0x8000_0000
  const MaxInt32: int := 0x7FFF_FFFF

  /** Kotlin's `Int`. */
  type Int32 = x: int | MinInt32 <= x <= MaxInt32

  predicate IsDigit(c: char) { '0' <= c <= '9' }

  predicate AllDigits(s: string) { forall i :: 0 <= i < |s| ==> IsDigit(s[i]) }

  function DigitChar(d: nat): (c: char)
    requires d < 10
    ensures IsDigit(c) && c as int - '0' as int == d
  {
    ('0' as int + d) as char
  }

  /** The value of a run of decimal digits, most significant first. */
  function DigitsValue(s: string): nat
    requires AllDigits(s)
  {
    if s == [] then 0
    else DigitsValue(s[..|s| - 1]) * 10 + (s[|s| - 1] as int - '0' as int)
  }

  /** Decimal digits of `n` without leading zeros (`"0"` for zero). */
  function NatToDigits(n: nat): (s: string)
    ensures |s| > 0 && AllDigits(s)
    ensures n == 0 <==> s == "0"
  {
    if n < 10 then [DigitChar(n)] else NatToDigits(n / 10) + [DigitChar(n % 10)]
  }

  /** `Int.toString()`: a '-' exactly for negative numbers, then the digits of the magnitude. */
  function IntToString(n: int): (s: string)
    ensures |s| > 0 && (s[0] == '-' <==> n < 0)
    ensures AllDigits(Magnitude(s)) && Magnitude(s) != []
    ensures n >= 0 ==> AllDigits(s)
  {
    if n < 0 then "-" + NatToDigits(-n) else NatToDigits(n)
  }

  /** What follows an optional leading '-' or '+'. */
  function Magnitude(s: string): (d: string)
    ensures |d| == |s| || |d| == |s| - 1
  {
    if s != [] && (s[0] == '-' || s[0] == '+') then s[1..] else s
  }

  /**
   * `String.toInt()`: an optional leading '-' or '+', then at least one decimal
   * digit, and the value must fit in 32 bits; anything else is a
   * NumberFormatException, modelled as None.
   */
  function ParseInt(s: string): (r: Option<Int32>)
    ensures r.Some? <==> Magnitude(s) != [] && AllDigits(Magnitude(s))
                         && (if s[0] == '-' then DigitsValue(Magnitude(s)) <= -MinInt32
                             else DigitsValue(Magnitude(s)) <= MaxInt32)
    ensures r.Some? ==> r.value == if s[0] == '-' then -(DigitsValue(Magnitude(s)) as int)
                                   else DigitsValue(Magnitude(s)) as int
  {
    if s == [] then None
    else
      var negative := s[0] == '-';
      var digits := Magnitude(s);
      if digits == [] || !AllDigits(digits) then None
      else
        var v: int := if negative then -(DigitsValue(digits) as int) else DigitsValue(digits);
        if MinInt32 <= v <= MaxInt32 then Some(v) else None
  }

  /** A character after the sign that is not a digit makes the text unparsable. */
  lemma ParseIntRejectsNonDigit(s: string, i: nat)
    requires i < |Magnitude(s)| && !IsDigit(Magnitude(s)[i])
    ensures ParseInt(s) == None
  {
  }

  /** A sign alone, and the empty-slot marker "e", are not numbers. */
  lemma ParseIntRejectsSignsAndMarker()
    ensures ParseInt("") == None && ParseInt("-") == None && ParseInt("+") == None
    ensures ParseInt("e") == None
  {
    assert !IsDigit(Magnitude("e")[0]);
  }

  lemma {:induction false} DigitsValueOfNatToDigits(n: nat)
    ensures DigitsValue(NatToDigits(n)) == n
  {
    if n >= 10 {
      var s := NatToDigits(n);
      assert s[..|s| - 1] == NatToDigits(n / 10);
      DigitsValueOfNatToDigits(n / 10);
    }
  }

  /** Parsing what `toString()` wrote gives the number back. */
  lemma ParseIntToString(n: Int32)
    ensures ParseInt(IntToString(n)) == Some(n)
  {
    var s := IntToString(n);
    if n < 0 {
      var m: nat := -(n as int);
      assert s[1..] == NatToDigits(m);
      DigitsValueOfNatToDigits(m);
    } else {
      DigitsValueOfNatToDigits(n);
    }
  }

  /** A number's text is `"0"` exactly when the number is zero. */
  lemma IntToStringZero(n: Int32)
    ensures IntToString(n) == "0" <==> n == 0
  {
    if IntToString(n) == "0" {
      ParseIntToString(n);
      assert ParseInt("0") == Some(0);
    }
  }

  /** ASCII upper-casing; other characters are left as they are. */
  function UpperAscii(c: char): char
  {
    if 'a' <= c <= 'z' then (c as int - 32) as char else c
  }

  /** ASCII lower-casing; other characters are left as they are. */
  function LowerAscii(c: char): char
  {
    if 'A' <= c <= 'Z' then (c as int + 32) as char else c
  }

  /** `Char.equals(other, ignoreCase = true)`, with ASCII case mapping. */
  predicate CharEqualsIgnoreCase(a: char, b: char)
  {
    a == b
    || UpperAscii(a) == UpperAscii(b)
    || LowerAscii(UpperAscii(a)) == LowerAscii(UpperAscii(b))
  }

  /** `String.toBoolean()`: true exactly for "true" in any letter case. */
  predicate ParseBool(s: string)
    ensures ParseBool(s) <==> |s| == 4 && forall i :: 0 <= i < 4 ==> LowerAscii(s[i]) == "true"[i]
  {
    |s| == 4 && forall i :: 0 <= i < 4 ==> CharEqualsIgnoreCase(s[i], "true"[i])
  }

  /** `Boolean.toString()`. */
  function BoolToString(b: bool): (s: string)
    ensures ParseBool(s) == b
  {
    if b then "true"
    else
      assert !CharEqualsIgnoreCase("false"[0], "true"[0]);
      "false"
  }

  /** `Char.isWhitespace()`: Java whitespace plus the Unicode space separators. */
  predicate IsWhitespace(c: char)
  {
    c == ' ' || ('\t' <= c <= '\r') || ('\U{001C}' <= c <= '\U{001F}')
    || c == '\U{00A0}' || c == '\U{1680}' || ('\U{2000}' <= c <= '\U{200A}')
    || c == '\U{2028}' || c == '\U{2029}' || c == '\U{202F}' || c == '\U{205F}' || c == '\U{3000}'
  }

  /** `CharSequence.isNullOrBlank()` for a non-null text: empty or only whitespace. */
  predicate IsBlank(s: string)
    ensures s == [] ==> IsBlank(s)
    ensures IsBlank(s) ==> forall i :: 0 <= i < |s| ==> !IsDigit(s[i]) && UpperAscii(s[i]) == s[i] == LowerAscii(s[i])
    ensures IsBlank(s) ==> ParseInt(s) == None && !ParseBool(s)
  {
    forall i :: 0 <= i < |s| ==> IsWhitespace(s[i])
  }
}
