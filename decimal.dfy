/**
 * The two JavaScript number/string conversions the core relies on:
 * `Number.prototype.toString()` on a non-negative integer below 10^21, which
 * JavaScript writes in plain decimal rather than in exponent form (the activation
 * code, controllers/user.controller.ts:76) and `parseInt(s, 10)` (the
 * token-lifetime settings, utils/jwt.ts:14-21).
 */
module Decimal {

  /** A JavaScript number as far as this model needs one: an integer or NaN. */
  datatype Num = Finite(n: int) | NaN

  predicate IsDigit(c: char) { '0' <= c <= '9' }

  predicate AllDigits(s: string) { forall i :: 0 <= i < |s| ==> IsDigit(s[i]) }

  function DigitValue(c: char): (d: nat)
    requires IsDigit(c)
    ensures d < 10
  {
    c as int - '0' as int
  }

  function DigitChar(d: nat): (c: char)
    requires d < 10
    ensures IsDigit(c) && DigitValue(c) == d
  {
    ('0' as int + d) as char
  }

  /**
   * The decimal digits of `n`, most significant first, without leading zeros:
   * what `toString` writes for integers below 10^21 (larger ones it writes in
   * exponent form, which the core never produces).
   */
  function DecimalString(n: nat): (s: string)
    ensures 1 <= |s| && AllDigits(s)
    ensures n > 0 ==> s[0] != '0'
    decreases n
  {
    if n < 10 then [DigitChar(n)] else DecimalString(n / 10) + [DigitChar(n % 10)]
  }

  /** The value of a string of digits, read most significant first. */
  function DigitsValue(p: string): nat
    requires AllDigits(p)
    decreases |p|
  {
    if p == [] then 0 else DigitsValue(p[..|p| - 1]) * 10 + DigitValue(p[|p| - 1])
  }

  /** The characters `parseInt` skips before the number. */
  predicate IsJsSpace(c: char)
  {
    c == ' ' || c == '\t' || c == '\n' || c == '\r' || c == '\U{B}' || c == '\U{C}' ||
    c == '\U{A0}' || c == '\U{FEFF}' || c == '\U{2028}' || c == '\U{2029}'
  }

  function TrimStart(s: string): (t: string)
    ensures |t| <= |s| && t == s[|s| - |t|..]
    ensures t == [] || !IsJsSpace(t[0])
  {
    if s != [] && IsJsSpace(s[0]) then TrimStart(s[1..]) else s
  }

  /** The longest prefix of `s` made of digits. */
  function DigitPrefix(s: string): (p: string)
    ensures p <= s && AllDigits(p)
    ensures |p| < |s| ==> !IsDigit(s[|p|])
    ensures AllDigits(s) ==> p == s
  {
    if s != [] && IsDigit(s[0]) then [s[0]] + DigitPrefix(s[1..]) else []
  }

  /** The number the digits at the start of `body` spell, negated when `negative`; NaN when `body` starts with no digit. */
  function LeadingNumber(body: string, negative: bool): (r: Num)
    ensures body != [] && AllDigits(body) ==> r == Finite(if negative then -(DigitsValue(body) as int) else DigitsValue(body))
    ensures body == [] || !IsDigit(body[0]) ==> r == NaN
  {
    var digits := DigitPrefix(body);
    if digits == [] then NaN
    else if negative then Finite(-(DigitsValue(digits) as int))
    else Finite(DigitsValue(digits))
  }

  /**
   * `parseInt(s, 10)`: skip leading white space, take an optional sign, then
   * the longest run of digits; NaN when there is no digit.
   */
  function ParseInt(s: string): (r: Num)
    ensures (forall i :: 0 <= i < |s| ==> !IsDigit(s[i])) ==> r == NaN
  {
    var t := TrimStart(s);
    if t != [] && (t[0] == '-' || t[0] == '+') then
      assert t[1..] == s[|s| - |t| + 1..];
      LeadingNumber(t[1..], t[0] == '-')
    else
      LeadingNumber(t, false)
  }

  /** A plain run of digits reads as the number it spells. */
  lemma ParseDigits(s: string)
    requires s != [] && AllDigits(s)
    ensures ParseInt(s) == Finite(DigitsValue(s))
  {
  }

  /** A minus sign followed by digits reads as the negated number. */
  lemma ParseNegative(s: string)
    requires |s| > 1 && s[0] == '-' && AllDigits(s[1..])
    ensures ParseInt(s) == Finite(-(DigitsValue(s[1..]) as int))
  {
    var t := TrimStart(s);
    assert t == s;
  }

  lemma {:induction false} DecimalStringValue(n: nat)
    ensures DigitsValue(DecimalString(n)) == n
    decreases n
  {
    if n >= 10 {
      DecimalStringValue(n / 10);
      var s := DecimalString(n);
      assert s[..|s| - 1] == DecimalString(n / 10);
    }
  }

  /** `parseInt` reads back exactly what `toString` wrote. */
  lemma ParseDecimalString(n: nat)
    ensures ParseInt(DecimalString(n)) == Finite(n)
  {
    DecimalStringValue(n);
    ParseDigits(DecimalString(n));
  }

  /** Every integer from 1000 to 9999 is written with exactly four digits. */
  lemma FourDigits(n: nat)
    requires 1000 <= n <= 9999
    ensures |DecimalString(n)| == 4
  {
    var hundreds := n / 10;
    var tens := hundreds / 10;
    var ones := tens / 10;
    assert 1 <= ones <= 9;
    assert |DecimalString(ones)| == 1;
    assert |DecimalString(tens)| == 2;
    assert |DecimalString(hundreds)| == 3;
  }

  /** The two fallback settings, written out. */
  lemma DecimalDefaults()
    ensures DecimalString(300) == "300" && DecimalString(1200) == "1200"
  {
  }
}
