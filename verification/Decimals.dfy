/**
 Decimal numbers as Python's decimal module keeps them (sign, coefficient, exponent), their
 fixed-point text, and the two rounding steps that money amounts go through: the 28-digit
 context and the quantisation to cents.
 */
module Decimals {
  import opened Basics
  import opened Digits
  import opened Texts

  datatype Dec = Dec(negative: bool, coefficient: nat, exponent: int)

  const ONE := Dec(false, 1, 0)

  const MAX_MICROS: nat := 1_000_000_000_000_000

  const CONTEXT_LIMIT: nat := 10_000_000_000_000_000_000_000_000_000

  /** The absolute value in millionths. */
  function Micros(d: Dec): (m: nat)
    requires d.exponent >= -6
  {
    d.coefficient * Pow10(d.exponent + 6)
  }

  /** At most six fractional digits as written, and absolute value at most one thousand million. */
  predicate InBounds(d: Dec) {
    d.exponent >= -6 && Micros(d) <= MAX_MICROS
  }

  predicate ValidPositive(d: Dec) {
    InBounds(d) && !d.negative && d.coefficient > 0
  }

  /** Zero may carry a minus sign. */
  predicate ValidNonNegative(d: Dec) {
    InBounds(d) && (d.negative ==> d.coefficient == 0)
  }

  // ---------------------------------------------------------------- text

  /** Decimal.normalize: no trailing zeros in the coefficient. */
  function Normalize(d: Dec): (r: Dec)
    ensures r.negative == d.negative
    ensures d.exponent >= -6 ==> r.exponent >= -6 && Micros(r) == Micros(d)
    ensures r.coefficient == 0 || r.coefficient % 10 != 0
    ensures r.coefficient == 0 <==> d.coefficient == 0
    ensures r.coefficient == 0 ==> r.exponent == 0
    decreases d.coefficient
  {
    if d.coefficient == 0 then Dec(d.negative, 0, 0)
    else if d.coefficient % 10 == 0 then
      var smaller := Dec(d.negative, d.coefficient / 10, d.exponent + 1);
      assert d.exponent >= -6 ==> Micros(smaller) == Micros(d) by {
        if d.exponent >= -6 {
          ShiftExponent(d.coefficient / 10, d.exponent + 6);
        }
      }
      Normalize(smaller)
    else d
  }

  /** Numeric equality, as Python compares decimals: representation and the sign of zero do not count. */
  predicate SameNumber(a: Dec, b: Dec) {
    var x, y := Normalize(a), Normalize(b);
    && x.coefficient == y.coefficient && x.exponent == y.exponent
    && (x.coefficient == 0 || x.negative == y.negative)
  }

  lemma {:induction false} ShiftExponent(c: nat, e: nat)
    ensures c * Pow10(e + 1) == (10 * c) * Pow10(e)
  {
    assert Pow10(e + 1) == 10 * Pow10(e);
  }

  /** The digit string with a decimal point before its last places digits. */
  function Pointed(digits: string, places: nat): (s: string)
    requires |digits| > places
    ensures |s| == |digits| + 1
  {
    digits[..|digits| - places] + "." + digits[|digits| - places..]
  }

  /** Python's format code f: no exponent, the sign kept even for zero. */
  function FixedText(d: Dec): (s: string)
    ensures |s| >= 1
  {
    var sign := if d.negative then "-" else "";
    if d.exponent >= 0 then
      sign + (NatText(d.coefficient) + Zeros(d.exponent))
    else
      sign + Pointed(Padded(d.coefficient, 1 - d.exponent), -d.exponent)
  }

  function DecimalText(d: Dec): (s: string)
    ensures |s| >= 1
  {
    var normalized := Normalize(d);
    if normalized.coefficient == 0 then "0" else FixedText(normalized)
  }

  predicate IsExponentMark(c: char) {
    c == 'e' || c == 'E'
  }

  function WithoutUnderscores(s: string): (r: string) {
    Filter(s, c => c != '_')
  }

  function ParseInteger(s: string): (r: Option<int>) {
    var negative := s != [] && s[0] == '-';
    var digits := if s != [] && (s[0] == '-' || s[0] == '+') then s[1..] else s;
    if digits != [] && AllDigits(digits) then
      var n: int := NatOf(digits);
      Some(if negative then -n else n)
    else None
  }

  /** Digits with at most one point, scaled by a power of ten. */
  function ParseMantissa(s: string, negative: bool, exponent: int): (r: Option<Dec>) {
    var point := IndexWhere(s, c => c == '.');
    var whole := s[..point];
    var fraction := if point < |s| then s[point + 1..] else "";
    if |whole| + |fraction| >= 1 && AllDigits(whole) && AllDigits(fraction) then
      Some(Dec(negative, NatOf(whole + fraction), exponent - |fraction|))
    else None
  }

  function ParseUnsigned(s: string, negative: bool): (r: Option<Dec>) {
    var mark := IndexWhere(s, IsExponentMark);
    var exponent := if mark < |s| then ParseInteger(s[mark + 1..]) else Some(0);
    if exponent.None? then None else ParseMantissa(s[..mark], negative, exponent.value)
  }

  /** The Decimal constructor on finite numbers; everything it refuses, NaN and infinities give None. */
  function ParseDecimal(text: string): (r: Option<Dec>) {
    var s := WithoutUnderscores(Strip(text));
    if s != [] && (s[0] == '-' || s[0] == '+') then ParseUnsigned(s[1..], s[0] == '-')
    else ParseUnsigned(s, false)
  }

  /** The characters that printed decimals consist of. */
  predicate IsPlain(c: char) {
    IsDigit(c) || c == '.' || c == '-'
  }

  predicate AllPlain(s: string) {
    forall i :: 0 <= i < |s| ==> IsPlain(s[i])
  }

  lemma {:induction false} UnderscoresAbsent(s: string)
    requires AllPlain(s)
    ensures WithoutUnderscores(s) == s
  {
    if s != [] {
      UnderscoresAbsent(s[1..]);
    }
  }

  lemma {:induction false} PlainUntouched(s: string)
    requires AllPlain(s)
    ensures WithoutUnderscores(Strip(s)) == s
  {
    assert StripLeft(s) == s;
    assert StripRight(s) == s;
    UnderscoresAbsent(s);
  }

  lemma {:induction false} ParsePointless(digits: string, negative: bool)
    requires |digits| >= 1 && AllDigits(digits)
    ensures ParseMantissa(digits, negative, 0) == Some(Dec(negative, NatOf(digits), 0))
  {
    assert digits[..|digits|] == digits;
    assert digits + "" == digits;
  }

  lemma {:induction false} PointPosition(whole: string, fraction: string)
    requires AllDigits(whole)
    ensures IndexWhere(whole + "." + fraction, c => c == '.') == |whole|
    decreases |whole|
  {
    var s := whole + "." + fraction;
    if whole != [] {
      assert s[0] == whole[0];
      assert s[1..] == whole[1..] + "." + fraction;
      PointPosition(whole[1..], fraction);
    }
  }

  lemma {:induction false} NoMark(s: string, negative: bool)
    requires AllPlain(s)
    ensures ParseUnsigned(s, negative) == ParseMantissa(s, negative, 0)
  {
    assert IndexWhere(s, IsExponentMark) == |s|;
    assert s[..|s|] == s;
  }

  lemma {:induction false} ParsePointed(digits: string, places: int, negative: bool)
    requires 0 <= places < |digits| && AllDigits(digits)
    ensures ParseMantissa(Pointed(digits, places), negative, 0) == Some(Dec(negative, NatOf(digits), -places))
  {
    var whole, fraction := digits[..|digits| - places], digits[|digits| - places..];
    var s := Pointed(digits, places);
    PointPosition(whole, fraction);
    assert s[..|whole|] == whole && s[|whole| + 1..] == fraction;
    assert whole + fraction == digits;
  }

  /** What reading a printed decimal gives: the same number with no positive exponent. */
  function Reread(d: Dec): (r: Dec) {
    if d.exponent >= 0 then Dec(d.negative, d.coefficient * Pow10(d.exponent), 0) else d
  }

  lemma {:induction false} ParsePlus(body: string)
    requires |body| >= 1 && IsDigit(body[0]) && AllPlain(body)
    ensures ParseDecimal(body) == ParseMantissa(body, false, 0)
  {
    PlainUntouched(body);
    NoMark(body, false);
  }

  lemma {:induction false} ParseMinus(body: string)
    requires |body| >= 1 && IsDigit(body[0]) && AllPlain(body)
    ensures ParseDecimal("-" + body) == ParseMantissa(body, true, 0)
  {
    var s := "-" + body;
    PlainUntouched(s);
    assert s[1..] == body;
    NoMark(body, true);
  }

  lemma {:induction false} ParseSigned(body: string, negative: bool)
    requires |body| >= 1 && IsDigit(body[0]) && AllPlain(body)
    ensures ParseDecimal((if negative then "-" else "") + body) == ParseMantissa(body, negative, 0)
  {
    if negative {
      ParseMinus(body);
    } else {
      assert "" + body == body;
      ParsePlus(body);
    }
  }

  lemma {:induction false} TrailingZeros(c: nat, e: nat)
    ensures var digits := NatText(c) + Zeros(e);
      |digits| >= 1 && AllDigits(digits) && NatOf(digits) == c * Pow10(e)
  {
    NatOfConcat(NatText(c), Zeros(e));
    NatOfZeros(e);
  }

  lemma {:induction false} ParseFixedWhole(d: Dec)
    requires d.exponent >= 0
    ensures ParseDecimal(FixedText(d)) == Some(Reread(d))
  {
    var digits := NatText(d.coefficient) + Zeros(d.exponent);
    TrailingZeros(d.coefficient, d.exponent);
    assert AllPlain(digits) && IsDigit(digits[0]);
    ParseSigned(digits, d.negative);
    ParsePointless(digits, d.negative);
  }

  lemma {:induction false} PointedIsPlain(digits: string, places: nat)
    requires |digits| > places && AllDigits(digits)
    ensures AllPlain(Pointed(digits, places)) && IsDigit(Pointed(digits, places)[0])
  {
  }

  /** Reading printed fixed-point text always succeeds and gives the number printed. */
  lemma {:induction false} ParseFixed(d: Dec)
    ensures ParseDecimal(FixedText(d)) == Some(Reread(d))
  {
    hide ParseDecimal, ParseMantissa, NatText, NatOf, Pow10, Zeros, Pointed, AllPlain;
    if d.exponent >= 0 {
      ParseFixedWhole(d);
    } else {
      var digits := Padded(d.coefficient, 1 - d.exponent);
      PointedIsPlain(digits, -d.exponent);
      ParsePointed(digits, -d.exponent, d.negative);
      ParseSigned(Pointed(digits, -d.exponent), d.negative);
    }
  }

  lemma {:induction false} RereadKeepsValue(d: Dec)
    requires d.exponent >= -6
    ensures Reread(d).exponent >= -6 && Micros(Reread(d)) == Micros(d)
  {
    if d.exponent >= 0 {
      Pow10Add(d.exponent, 6);
      var c, a, b := d.coefficient, Pow10(d.exponent), Pow10(6);
      assert (c * a) * b == c * (a * b);
    }
  }

  /** What parsing gives back for the canonical text of a number. */
  function Canonical(d: Dec): (r: Dec)
    requires ValidNonNegative(d)
    ensures ValidNonNegative(r) && Micros(r) == Micros(d)
    ensures d.coefficient > 0 ==> ValidPositive(r)
  {
    var n := Normalize(d);
    RereadKeepsValue(n);
    if n.coefficient == 0 then Dec(false, 0, 0) else Reread(n)
  }

  /** Round trip of the number format used for quantities, prices and rates. */
  lemma {:induction false} DecimalRoundTrip(d: Dec)
    requires ValidNonNegative(d)
    ensures ParseDecimal(DecimalText(d)) == Some(Canonical(d))
  {
    var n := Normalize(d);
    if n.coefficient == 0 {
      ParseFixed(Dec(false, 0, 0));
      assert NatText(0) + Zeros(0) == "0";
      assert FixedText(Dec(false, 0, 0)) == "0";
      assert Pow10(0) == 1;
    } else {
      ParseFixed(n);
    }
  }

  lemma {:induction false} CancelFactor(x: nat, y: nat, p: nat)
    requires p >= 1 && x * p == y * p
    ensures x == y
  {
  }

  lemma {:induction false} AlignExponents(c: nat, gap: nat, e: nat)
    ensures c * Pow10(gap + e) == (c * Pow10(gap)) * Pow10(e)
  {
    Pow10Add(gap, e);
    Associate(c, Pow10(gap), Pow10(e));
  }

  lemma {:induction false} Associate(x: nat, y: nat, z: nat)
    ensures x * (y * z) == (x * y) * z
  {
  }

  lemma {:induction false} NormalFormsAgree(a: Dec, b: Dec)
    requires a.exponent >= -6 && b.exponent >= -6
    requires a.coefficient % 10 != 0
    requires Micros(a) == Micros(b)
    requires a.exponent <= b.exponent
    ensures a.coefficient == b.coefficient && a.exponent == b.exponent
  {
    var gap := b.exponent - a.exponent;
    AlignExponents(b.coefficient, gap, a.exponent + 6);
    CancelFactor(a.coefficient, b.coefficient * Pow10(gap), Pow10(a.exponent + 6));
    if gap > 0 {
      ShiftExponent(b.coefficient, gap - 1);
      AlignTen(b.coefficient, Pow10(gap - 1));
    }
  }

  lemma {:induction false} AlignTen(c: nat, p: nat)
    ensures ((10 * c) * p) % 10 == 0
  {
    Associate(10, c, p);
  }

  /** On validated numbers, numeric equality is equality in millionths. */
  lemma {:induction false} SameNumberMicros(a: Dec, b: Dec)
    requires ValidNonNegative(a) && ValidNonNegative(b)
    ensures SameNumber(a, b) <==> Micros(a) == Micros(b)
  {
    var x, y := Normalize(a), Normalize(b);
    ZeroMicros(a);
    ZeroMicros(b);
    if Micros(a) == Micros(b) && x.coefficient != 0 {
      if x.exponent <= y.exponent {
        NormalFormsAgree(x, y);
      } else {
        NormalFormsAgree(y, x);
      }
    }
  }

  lemma {:induction false} ZeroMicros(d: Dec)
    requires d.exponent >= -6
    ensures Micros(d) == 0 <==> d.coefficient == 0
  {
  }

  /** Two numbers print alike exactly when they are numerically equal. */
  lemma {:induction false} DecimalTextInjective(a: Dec, b: Dec)
    requires ValidNonNegative(a) && ValidNonNegative(b)
    ensures DecimalText(a) == DecimalText(b) <==> SameNumber(a, b)
  {
    SameNumberMicros(a, b);
    if DecimalText(a) == DecimalText(b) {
      DecimalRoundTrip(a);
      DecimalRoundTrip(b);
    }
  }
}
