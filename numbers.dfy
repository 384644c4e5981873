/**
 * Number <-> text conversions used by the demo classes: `Integer.parseInt`,
 * the plain-decimal part of `Double.parseDouble`, decimal rendering of a
 * count, and `String.format("%.2f", x)`. Amounts are exact `real`s.
 */
module Numbers {
  import opened Wrappers

  const INT_MIN: int := -0x8000_0000
  const INT_MAX: int := 0x7fff_ffff

  /** `Math.min` on amounts. */
  function Min(a: real, b: real): (m: real)
    ensures m <= a && m <= b
    ensures m == a || m == b
  {
    if a <= b then a else b
  }

  /** `Math.max` on amounts. */
  function Max(a: real, b: real): (m: real)
    ensures m >= a && m >= b
    ensures m == a || m == b
  {
    if a >= b then a else b
  }

  predicate IsDigit(c: char)
  {
    '0' <= c <= '9'
  }

  predicate AllDigits(s: string)
  {
    forall i :: 0 <= i < |s| ==> IsDigit(s[i])
  }

  function DigitValue(c: char): (d: nat)
    requires IsDigit(c)
    ensures d < 10
  {
    c as int - '0' as int
  }

  function DigitChar(d: nat): (c: char)
    requires d < 10
    ensures IsDigit(c) && DigitValue(c) == d
  {
    ('0' as int + d) as char
  }

  /** The value of a string of decimal digits, most significant first. */
  function DigitsValue(s: string): (n: nat)
    requires AllDigits(s)
  {
    if s == [] then 0 else DigitsValue(s[..|s| - 1]) * 10 + DigitValue(s[|s| - 1])
  }

  /** Decimal rendering of a count (`String.valueOf(int)` for n >= 0). */
  function NatToString(n: nat): (s: string)
    ensures |s| > 0 && AllDigits(s)
    ensures DigitsValue(s) == n
  {
    if n < 10 then [DigitChar(n)]
    else
      var prefix := NatToString(n / 10);
      var s := prefix + [DigitChar(n % 10)];
      assert s[..|s| - 1] == prefix;
      s
  }

  /**
   * `Integer.parseInt` (ASCII digits): an optional sign, at least one digit,
   * and a value inside the 32-bit range; `None` where Java throws
   * `NumberFormatException`.
   */
  function ParseInt(s: string): (r: Option<int>)
    ensures r.Some? ==> INT_MIN <= r.value <= INT_MAX
    ensures r.Some? ==> |s| > 0 && (AllDigits(s) || ((s[0] == '-' || s[0] == '+') && AllDigits(s[1..])))
  {
    var negative := |s| > 0 && s[0] == '-';
    var digits := if |s| > 0 && (s[0] == '-' || s[0] == '+') then s[1..] else s;
    if digits == [] || !AllDigits(digits) then None
    else
      var v: int := if negative then -(DigitsValue(digits) as int) else DigitsValue(digits);
      if INT_MIN <= v <= INT_MAX then Some(v) else None
  }

  /** A number written with digits parses back to itself. */
  lemma {:induction false} ParseIntOfNatToString(n: nat)
    requires n <= INT_MAX
    ensures ParseInt(NatToString(n)) == Some(n)
  {
    var s := NatToString(n);
    assert s[0] != '-' && s[0] != '+' by { assert IsDigit(s[0]); }
  }

  /** Every unsigned run of digits inside the range parses, to the number it spells; leading zeros are allowed. */
  lemma ParseIntUnsigned(s: string)
    requires |s| > 0 && AllDigits(s) && DigitsValue(s) <= INT_MAX
    ensures ParseInt(s) == Some(DigitsValue(s))
  {
    assert IsDigit(s[0]);
  }

  /** Digits spelling a value past `Integer.MAX_VALUE` do not parse. */
  lemma ParseIntOverflow(s: string)
    requires |s| > 0 && AllDigits(s) && DigitsValue(s) > INT_MAX
    ensures ParseInt(s).None?
  {
    assert IsDigit(s[0]);
  }

  /**
   * A sign followed by digits parses to the signed value while it stays in
   * range; "-2147483648" is in range although "2147483648" is not.
   */
  lemma ParseIntSigned(s: string)
    requires |s| > 1 && (s[0] == '-' || s[0] == '+') && AllDigits(s[1..])
    requires if s[0] == '-' then DigitsValue(s[1..]) <= -INT_MIN else DigitsValue(s[1..]) <= INT_MAX
    ensures ParseInt(s) == Some(if s[0] == '-' then -(DigitsValue(s[1..]) as int) else DigitsValue(s[1..]) as int)
  {
  }

  /** The decimal text of a negative number down to `Integer.MIN_VALUE` parses back to it. */
  lemma ParseIntOfNegatedNatToString(n: nat)
    requires n <= -INT_MIN
    ensures ParseInt("-" + NatToString(n)) == Some(-(n as int))
  {
    var s := "-" + NatToString(n);
    assert s[1..] == NatToString(n);
    ParseIntSigned(s);
  }

  /** Leading zeros, a negative zero and a bare sign. */
  lemma ParseIntEdgeCases()
    ensures ParseInt("007") == Some(7)
    ensures ParseInt("-0") == Some(0)
    ensures ParseInt("-").None? && ParseInt("").None?
  {
    assert "00"[..1] == "0" && "007"[..2] == "00";
    ParseIntUnsigned("007");
    assert "-0"[1..] == "0";
  }

  /** Powers of ten, for the fractional digits of a decimal. */
  function Pow10(k: nat): (p: nat)
    ensures p >= 1
  {
    if k == 0 then 1 else 10 * Pow10(k - 1)
  }

  /** Index of the first '.' in `s`, or `|s|` when there is none. */
  function DotIndex(s: string): (i: nat)
    ensures i <= |s|
    ensures i < |s| ==> s[i] == '.'
    ensures forall j :: 0 <= j < i ==> s[j] != '.'
  {
    if s == [] then 0
    else if s[0] == '.' then 0
    else 1 + DotIndex(s[1..])
  }

  /** The digits after the point, as a fraction: "25" is 25/100. */
  function FractionValue(fraction: string): (v: real)
    requires AllDigits(fraction)
    ensures 0.0 <= v
    ensures fraction == [] ==> v == 0.0
  {
    DigitsValue(fraction) as real / Pow10(|fraction|) as real
  }

  /** "ddd", "ddd.ddd", "ddd." or ".ddd" with at least one digit. */
  function ParseUnsignedDecimal(s: string): (r: Option<real>)
    ensures r.Some? ==> r.value >= 0.0
  {
    var k := DotIndex(s);
    var whole := s[..k];
    var fraction := if k < |s| then s[k + 1..] else [];
    if !AllDigits(whole) || !AllDigits(fraction) || |whole| + |fraction| == 0 then None
    else Some(DigitsValue(whole) as real + FractionValue(fraction))
  }

  /**
   * `Double.parseDouble` on plain decimals: an optional sign and an unsigned
   * decimal; `None` where this model does not accept the text.
   */
  function ParseDecimal(s: string): (r: Option<real>)
    ensures r.Some? ==> |s| > 0
    ensures r.Some? && s[0] == '-' ==> r.value <= 0.0
    ensures r.Some? && s[0] != '-' ==> r.value >= 0.0
  {
    if |s| > 0 && (s[0] == '-' || s[0] == '+') then
      match ParseUnsignedDecimal(s[1..])
      case None => None
      case Some(v) => Some(if s[0] == '-' then -v else v)
    else ParseUnsignedDecimal(s)
  }

  /** Round half up to a whole number of hundredths (`RoundingMode.HALF_UP`). */
  function Cents(x: real): (c: nat)
    requires x >= 0.0
    ensures c as real <= x * 100.0 + 0.5 < c as real + 1.0
  {
    (x * 100.0 + 0.5).Floor
  }

  /** `String.format("%.2f", x)`: sign, whole part, '.', two decimals. */
  function Fmt2(x: real): (s: string)
    ensures |s| >= 4 && s[|s| - 3] == '.'
    ensures AllDigits(s[|s| - 2..])
    ensures x >= 0.0 ==> s[0] != '-'
  {
    var c := Cents(if x < 0.0 then -x else x);
    var whole := NatToString(c / 100);
    var frac := [DigitChar(c % 100 / 10), DigitChar(c % 10)];
    (if x < 0.0 then "-" else "") + whole + "." + frac
  }

  /** A text without a decimal point is scanned to its end. */
  lemma {:induction false} DotIndexWithoutDot(s: string)
    requires AllDigits(s)
    ensures DotIndex(s) == |s|
  {
    if s != [] {
      assert IsDigit(s[0]);
      DotIndexWithoutDot(s[1..]);
    }
  }

  /** A whole number written in digits parses as a double to the same value. */
  lemma ParseDecimalWhole(s: string)
    requires |s| > 0 && AllDigits(s)
    ensures ParseDecimal(s) == Some(DigitsValue(s) as real)
  {
    assert IsDigit(s[0]);
    UnsignedWhole(s);
  }

  /** Digits alone parse, unsigned, to their value. */
  lemma UnsignedWhole(s: string)
    requires |s| > 0 && AllDigits(s)
    ensures ParseUnsignedDecimal(s) == Some(DigitsValue(s) as real)
  {
    DotIndexWithoutDot(s);
    UnsignedNoDot(s);
  }

  /** With no point the whole text is the integer part and the fraction is empty. */
  lemma UnsignedNoDot(s: string)
    requires |s| > 0 && AllDigits(s) && DotIndex(s) == |s|
    ensures ParseUnsignedDecimal(s) == Some(DigitsValue(s) as real)
  {
    var whole := s[..DotIndex(s)];
    assert whole == s;
    var fraction: string := [];
    assert FractionValue(fraction) == 0.0;
    assert ParseUnsignedDecimal(s) == Some(DigitsValue(whole) as real + FractionValue(fraction));
  }
}
