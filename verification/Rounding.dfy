/**
 Decimal operations on arbitrary representations, and the proof that their results depend on
 the numbers only, not on how many trailing zeros the operands carry.
 */
module Rounding {
  import opened Basics
  import opened Digits
  import opened Decimals
  import opened Money

  datatype Mode = HalfEven | HalfUp

  function Divide(n: nat, u: nat, mode: Mode): (q: nat)
    requires u >= 1
  {
    if mode == HalfEven then HalfEvenDiv(n, u) else HalfUpDiv(n, u)
  }

  /** A context operation keeps at most 28 digits of the coefficient. */
  function RoundCoefficient(d: Dec): (r: Dec) {
    if d.coefficient < CONTEXT_LIMIT then d
    else
      var k := if DigitCount(d.coefficient) >= 28 then DigitCount(d.coefficient) - 28 else 0;
      Dec(d.negative, HalfEvenDiv(d.coefficient, Pow10(k)), d.exponent + k)
  }

  function Multiply(a: Dec, b: Dec): (r: Dec) {
    RoundCoefficient(Dec(a.negative != b.negative, a.coefficient * b.coefficient, a.exponent + b.exponent))
  }

  function CentsOf(d: Dec, mode: Mode): (cents: nat) {
    if d.exponent >= -2 then d.coefficient * Pow10(d.exponent + 2)
    else Divide(d.coefficient, Pow10(-2 - d.exponent), mode)
  }

  /** Decimal.quantize to cents; None is the InvalidOperation on more than 28 digits. */
  function Quantize(d: Dec, mode: Mode): (r: Option<Dec>) {
    var cents := CentsOf(d, mode);
    if cents < CONTEXT_LIMIT then Some(Dec(d.negative, cents, -2)) else None
  }

  function SignedCents(d: Dec): (c: int)
    requires d.exponent == -2
  {
    var c: int := d.coefficient;
    if d.negative then -c else c
  }

  // ---------------------------------------------------------------- scale invariance

  lemma {:induction false} QuotientScale(n: nat, u: nat, m: nat)
    requires u >= 1 && m >= 1
    ensures u * m >= 1 && (n * m) / (u * m) == n / u && (n * m) % (u * m) == (n % u) * m
  {
    var q, r := n / u, n % u;
    Compare(u, r, m);
    Compare(u, 0, m);
    SplitProduct(q, u, r, m);
    Unique(n * m, u * m, q, r * m);
  }

  lemma {:induction false} SplitProduct(q: nat, u: nat, r: nat, m: nat)
    ensures (q * u + r) * m == q * (u * m) + r * m
  {
    Distribute(q * u, r, m);
    Associate(q, u, m);
  }

  lemma {:induction false} Unique(n: nat, u: nat, q: nat, r: nat)
    requires u >= 1 && n == q * u + r && r < u
    ensures n / u == q && n % u == r
  {
    var q', r' := n / u, n % u;
    assert n == q' * u + r';
    if q' < q {
      ScaleUp(q' + 1, q, u);
    } else if q < q' {
      ScaleUp(q + 1, q', u);
    }
  }

  lemma {:induction false} Compare(a: nat, b: nat, m: nat)
    requires m >= 1
    ensures a * m > b * m <==> a > b
    ensures a * m == b * m <==> a == b
  {
    if a <= b {
      ScaleUp(a, b, m);
    } else {
      ScaleUp(b + 1, a, m);
    }
  }

  lemma {:induction false} HalfEvenScale(n: nat, u: nat, m: nat)
    requires u >= 1 && m >= 1
    ensures u * m >= 1 && HalfEvenDiv(n * m, u * m) == HalfEvenDiv(n, u)
  {
    QuotientScale(n, u, m);
    var r := n % u;
    assert 2 * (r * m) == (2 * r) * m;
    Compare(2 * r, u, m);
  }

  lemma {:induction false} HalfUpScale(n: nat, u: nat, m: nat)
    requires u >= 1 && m >= 1
    ensures u * m >= 1 && HalfUpDiv(n * m, u * m) == HalfUpDiv(n, u)
  {
    QuotientScale(2 * n + u, 2 * u, m);
    assert (2 * n + u) * m == 2 * (n * m) + u * m;
    assert (2 * u) * m == 2 * (u * m);
  }

  lemma {:induction false} DivideScale(n: nat, u: nat, m: nat, mode: Mode)
    requires u >= 1 && m >= 1
    ensures u * m >= 1 && Divide(n * m, u * m, mode) == Divide(n, u, mode)
  {
    if mode == HalfEven {
      HalfEvenScale(n, u, m);
    } else {
      HalfUpScale(n, u, m);
    }
  }

  lemma {:induction false} DivideExact(n: nat, u: nat, mode: Mode)
    requires u >= 1
    ensures Divide(n * u, u, mode) == n
  {
    Unique(n * u, u, n, 0);
    assert 2 * (n * u) + u == n * (2 * u) + u;
    Unique(2 * (n * u) + u, 2 * u, n, u);
  }

  lemma {:induction false} TenTimes(a: nat, p: nat)
    ensures 10 * (a * p) == a * (10 * p) == a * (p * 10)
  {
  }

  lemma {:induction false} DigitCountTen(c: nat)
    requires c >= 1
    ensures DigitCount(10 * c) == DigitCount(c) + 1
  {
    assert 10 * c >= 10 && (10 * c) / 10 == c;
  }

  lemma {:induction false} LargeScaleTen(c: nat)
    requires c >= CONTEXT_LIMIT
    ensures RoundContext(10 * c) == 10 * RoundContext(c)
  {
    hide RoundContext, HalfEvenDiv;
    var unit := ContextUnit(c);
    var unit' := ContextUnit(10 * c);
    DigitCountTen(c);
    assert unit' == 10 * unit;
    HalfEvenScale(c, unit, 10);
    TenTimes(HalfEvenDiv(c, unit), unit);
  }

  lemma {:induction false} ContextScaleTen(c: nat)
    ensures RoundContext(10 * c) == 10 * RoundContext(c)
  {
    if c >= CONTEXT_LIMIT {
      LargeScaleTen(c);
    } else if 10 * c >= CONTEXT_LIMIT {
      LimitIsPow10();
      DigitCountUnique(10 * c, 29);
      ProductContext(10 * c);
      DivideExact(c, 10, HalfEven);
    }
  }

  lemma {:induction false} ContextScale(c: nat, s: nat)
    ensures RoundContext(c * Pow10(s)) == RoundContext(c) * Pow10(s)
  {
    if s > 0 {
      ContextScale(c, s - 1);
      ContextScaleTen(c * Pow10(s - 1));
      TenTimes(c, Pow10(s - 1));
      TenTimes(RoundContext(c), Pow10(s - 1));
    }
  }

  /** The magnitude of a decimal in units of 10^-places. */
  function Units(d: Dec, places: nat): (n: nat)
    requires d.exponent + places >= 0
  {
    d.coefficient * Pow10(d.exponent + places)
  }

  /** Rounding the coefficient is rounding the number, whatever its trailing zeros. */
  lemma {:induction false} RoundCoefficientValue(d: Dec, places: nat)
    requires d.exponent + places >= 0
    ensures var r := RoundCoefficient(d);
      r.exponent >= d.exponent && r.negative == d.negative && Units(r, places) == RoundContext(Units(d, places))
  {
    hide RoundContext, DigitCount, HalfEvenDiv;
    ContextError(d.coefficient);
    ContextScale(d.coefficient, d.exponent + places);
    if d.coefficient >= CONTEXT_LIMIT {
      var unit := ContextUnit(d.coefficient);
      var k := DigitCount(d.coefficient) - 28;
      Pow10Add(k, d.exponent + places);
      Associate(HalfEvenDiv(d.coefficient, unit), unit, Pow10(d.exponent + places));
    }
  }

  /** Quantising to cents rounds the number, whatever its trailing zeros. */
  lemma {:induction false} CentsOfValue(d: Dec, places: nat, mode: Mode)
    requires d.exponent + places >= 0 && places >= 2
    ensures CentsOf(d, mode) == Divide(Units(d, places), Pow10(places - 2), mode)
  {
    if d.exponent >= -2 {
      Pow10Add(d.exponent + 2, places - 2);
      Associate(d.coefficient, Pow10(d.exponent + 2), Pow10(places - 2));
      DivideExact(CentsOf(d, mode), Pow10(places - 2), mode);
    } else {
      Pow10Add(-2 - d.exponent, d.exponent + places);
      DivideScale(d.coefficient, Pow10(-2 - d.exponent), Pow10(d.exponent + places), mode);
    }
  }

  lemma {:induction false} ProductUnits(a: Dec, b: Dec, m: nat, n: nat)
    requires a.exponent + m >= 0 && b.exponent + n >= 0
    ensures (a.coefficient * b.coefficient) * Pow10(a.exponent + b.exponent + m + n) == Units(a, m) * Units(b, n)
  {
    Pow10Add(a.exponent + m, b.exponent + n);
    Interchange(a.coefficient, b.coefficient, Pow10(a.exponent + m), Pow10(b.exponent + n));
  }

  lemma {:induction false} Interchange(a: nat, b: nat, x: nat, y: nat)
    ensures (a * b) * (x * y) == (a * x) * (b * y)
  {
    Associate(a * b, x, y);
    assert (a * b) * x == (a * x) * b;
    Associate(a * x, b, y);
  }

  /** The product of two decimals is the rounded product of the numbers. */
  lemma {:induction false} MultiplyValue(a: Dec, b: Dec, m: nat, n: nat)
    requires a.exponent + m >= 0 && b.exponent + n >= 0
    ensures var r := Multiply(a, b);
      && r.exponent + m + n >= 0 && r.negative == (a.negative != b.negative)
      && Units(r, m + n) == RoundContext(Units(a, m) * Units(b, n))
  {
    hide RoundContext, RoundCoefficient, Pow10;
    ProductUnits(a, b, m, n);
    RoundCoefficientValue(Dec(a.negative != b.negative, a.coefficient * b.coefficient, a.exponent + b.exponent), m + n);
  }

  /** The line amount as the decimal operations compute it, on any two finite decimals. */
  function LineExtension(quantity: Dec, price: Dec): (r: Option<Dec>) {
    Quantize(Multiply(quantity, price), HalfUp)
  }

  /** The tax on a line amount: times the rate, divided by one hundred, half up to cents. */
  function TaxExtension(amount: Dec, rate: Dec): (r: Option<Dec>) {
    var product := Multiply(amount, rate);
    Quantize(product.(exponent := product.exponent - 2), HalfUp)
  }

  lemma {:induction false} PowersUsed()
    ensures Pow10(8) == 100_000_000 && Pow10(10) == 10_000_000_000
  {
    assert Pow10(2) == 100;
    Pow10Add(2, 2);
    Pow10Add(4, 4);
    Pow10Add(8, 2);
  }

  /** On validated operands the line amount is the value-level amount, with the sign of the price. */
  lemma {:induction false} LineExtensionValue(quantity: Dec, price: Dec)
    requires ValidPositive(quantity) && ValidNonNegative(price)
    ensures LineExtension(quantity, price)
         == Some(Dec(price.negative, LineCents(Micros(quantity), Micros(price)), -2))
  {
    var product := Multiply(quantity, price);
    MultiplyValue(quantity, price, 6, 6);
    CentsOfValue(product, 12, HalfUp);
    PowersUsed();
    LineAmountError(Micros(quantity), Micros(price));
  }

  /** The same for the tax on a line amount, which always fits in 28 digits. */
  lemma {:induction false} TaxExtensionValue(negative: bool, cents: nat, rate: Dec)
    requires ValidPositive(rate) && cents <= 100_000_000_000_000_000_000
    ensures TaxExtension(Dec(negative, cents, -2), rate) == Some(Dec(negative, TaxCents(cents, Micros(rate)), -2))
  {
    var amount := Dec(negative, cents, -2);
    var product := Multiply(amount, rate);
    MultiplyValue(amount, rate, 2, 6);
    assert Pow10(0) == 1;
    assert Units(amount, 2) == cents;
    var shifted := product.(exponent := product.exponent - 2);
    assert Units(shifted, 10) == Units(product, 8);
    CentsOfValue(shifted, 10, HalfUp);
    PowersUsed();
    TaxBound(cents, Micros(rate));
  }

  lemma {:induction false} CentsAreQuantized(d: Dec)
    requires d.exponent == -2 && d.coefficient < CONTEXT_LIMIT
    ensures Quantize(d, HalfEven) == Some(d)
  {
    assert Pow10(0) == 1;
  }

  /** Quantising a validated number to cents rounds its value half to even and stays in bounds. */
  lemma {:induction false} QuantizeValidated(d: Dec)
    requires ValidNonNegative(d)
    ensures var q := Quantize(d, HalfEven);
      && q.Some? && q.value.negative == d.negative && q.value.exponent == -2 && q.value.coefficient < CONTEXT_LIMIT
      && Micros(q.value) == 10_000 * HalfEvenDiv(Micros(d), 10_000)
      && ValidNonNegative(q.value)
  {
    CentsOfValue(d, 6, HalfEven);
    assert Pow10(4) == 10_000;
    assert Units(d, 6) == Micros(d);
    var cents := CentsOf(d, HalfEven);
    var q := Dec(d.negative, cents, -2);
    assert Micros(q) == cents * Pow10(4);
    if d.negative {
      ZeroMicros(d);
    }
  }
}
