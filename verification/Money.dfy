/**
 Money arithmetic under a 28-digit decimal context. Amounts are integers in a fixed unit:
 millionths for quantities, prices and rates, cents for results.
 */
module Money {
  import opened Basics
  import opened Digits
  import opened Decimals

  function DigitCount(n: nat): (k: nat)
    ensures k >= 1
  {
    if n < 10 then 1 else 1 + DigitCount(n / 10)
  }

  /** n / u rounded to the nearest integer, ties to the even quotient. */
  function HalfEvenDiv(n: nat, u: nat): (q: nat)
    requires u >= 1
  {
    var q, r := n / u, n % u;
    if 2 * r > u || (2 * r == u && q % 2 == 1) then q + 1 else q
  }

  /** n / u rounded to the nearest integer, ties upwards. */
  function HalfUpDiv(n: nat, u: nat): (q: nat)
    requires u >= 1
  {
    (2 * n + u) / (2 * u)
  }

  /** Rounding to 28 significant digits, ties to even, as every context operation does. */
  function RoundContext(n: nat): (r: nat) {
    if n < CONTEXT_LIMIT then n
    else
      var unit := Pow10(if DigitCount(n) >= 28 then DigitCount(n) - 28 else 0);
      HalfEvenDiv(n, unit) * unit
  }

  /** Quantity times price, rounded by the context and then half up to cents. */
  function LineCents(quantity: nat, price: nat): (c: nat) {
    HalfUpDiv(RoundContext(quantity * price), 10_000_000_000)
  }

  /** Line amount times rate over one hundred, rounded by the context and then half up to cents. */
  function TaxCents(cents: nat, rate: nat): (c: nat) {
    HalfUpDiv(RoundContext(cents * rate), 100_000_000)
  }

  /** Python's sum over decimals: every partial sum is rounded by the context. */
  function RoundedSum(xs: seq<nat>): (s: nat) {
    if xs == [] then 0 else RoundContext(RoundedSum(xs[..|xs| - 1]) + xs[|xs| - 1])
  }

  /** A value in cents survives quantisation only when it has at most 28 digits. */
  function Quantized(cents: nat): (r: Option<nat>) {
    if cents < CONTEXT_LIMIT then Some(cents) else None
  }

  function Total(xs: seq<nat>): (r: Option<nat>) {
    Quantized(RoundedSum(xs))
  }

  // ---------------------------------------------------------------- context rounding

  lemma {:induction false} DigitCountBounds(n: nat)
    requires n >= 1
    ensures Pow10(DigitCount(n) - 1) <= n < Pow10(DigitCount(n))
  {
    if n >= 10 {
      DigitCountBounds(n / 10);
    }
  }

  lemma {:induction false} DigitCountUnique(n: nat, k: nat)
    requires k >= 1 && Pow10(k - 1) <= n < Pow10(k)
    ensures DigitCount(n) == k
  {
    DigitCountBounds(n);
    if DigitCount(n) < k {
      Pow10Monotone(DigitCount(n), k - 1);
    } else if DigitCount(n) > k {
      Pow10Monotone(k, DigitCount(n) - 1);
    }
  }

  lemma {:induction false} Pow10Monotone(a: nat, b: nat)
    requires a <= b
    ensures Pow10(a) <= Pow10(b)
  {
    if a < b {
      Pow10Monotone(a, b - 1);
    }
  }

  lemma {:induction false} LimitIsPow10()
    ensures Pow10(28) == CONTEXT_LIMIT
    ensures Pow10(27) == 1_000_000_000_000_000_000_000_000_000
    ensures Pow10(29) == 10 * CONTEXT_LIMIT && Pow10(30) == 100 * CONTEXT_LIMIT && Pow10(31) == 1000 * CONTEXT_LIMIT
  {
    assert Pow10(3) == 1000;
    Pow10Add(3, 3);
    Pow10Add(6, 3);
    Pow10Add(9, 9);
    Pow10Add(18, 9);
    assert Pow10(28) == 10 * Pow10(27);
    assert Pow10(29) == 10 * Pow10(28);
    assert Pow10(30) == 10 * Pow10(29);
    assert Pow10(31) == 10 * Pow10(30);
  }

  lemma {:induction false} HalfEvenError(n: nat, u: nat)
    requires u >= 1
    ensures var r := HalfEvenDiv(n, u) * u;
      2 * n - u <= 2 * r <= 2 * n + u && r >= (n / u) * u && (n % u == 0 ==> r == n)
  {
    var q := n / u;
    assert q * u + n % u == n;
    assert (q + 1) * u == q * u + u;
  }

  /** The unit of rounding is at most 10^-27 of the number. */
  lemma {:induction false} ContextUnit(n: nat) returns (unit: nat)
    requires n >= CONTEXT_LIMIT
    ensures unit >= 1 && RoundContext(n) == HalfEvenDiv(n, unit) * unit
    ensures 1_000_000_000_000_000_000_000_000_000 * unit <= n
    ensures DigitCount(n) >= 29 && unit == Pow10(DigitCount(n) - 28)
    ensures CONTEXT_LIMIT <= 1_000_000_000_000_000_000_000_000_000 * unit
  {
    LimitIsPow10();
    DigitCountBounds(n);
    var k := DigitCount(n);
    if k < 29 {
      Pow10Monotone(k, 28);
    }
    unit := Pow10(k - 28);
    Pow10Add(k - 28, 27);
    assert unit >= 10 by { Pow10Monotone(1, k - 28); assert Pow10(1) == 10; }
  }

  /** Every rounding step keeps 27 digits of relative precision, and small numbers exactly. */
  lemma {:induction false} ContextError(n: nat)
    ensures n < CONTEXT_LIMIT ==> RoundContext(n) == n
    ensures 2_000_000_000_000_000_000_000_000_000 * (RoundContext(n) - n) <= n
    ensures 2_000_000_000_000_000_000_000_000_000 * (n - RoundContext(n)) <= n
    ensures n >= CONTEXT_LIMIT ==> RoundContext(n) >= CONTEXT_LIMIT
  {
    if n >= CONTEXT_LIMIT {
      var unit := ContextUnit(n);
      HalfEvenError(n, unit);
      FloorAtLeast(n, unit, 1_000_000_000_000_000_000_000_000_000);
    }
  }

  lemma {:induction false} FloorAtLeast(n: nat, u: nat, k: nat)
    requires u >= 1 && k * u <= n
    ensures k * u <= (n / u) * u
  {
    var q := n / u;
    assert n == q * u + n % u;
    if q < k {
      ScaleUp(q + 1, k, u);
      assert false;
    } else {
      ScaleUp(k, q, u);
    }
  }

  lemma {:induction false} ScaleUp(a: nat, b: nat, u: nat)
    requires a <= b
    ensures a * u <= b * u
  {
  }

  // ---------------------------------------------------------------- line amounts

  lemma {:induction false} ProductBound(a: nat, b: nat, x: nat, y: nat)
    requires a <= x && b <= y
    ensures a * b <= x * y
  {
    ScaleUp(a, x, b);
    assert x * b <= x * y by { ScaleUp(b, y, x); }
  }

  /**
   Within the validated bounds a line amount is within half a cent plus 5e-10 of the exact
   product (products are in units of 1e-12, so one cent is 1e10 units), and it is the
   product rounded half up whenever the product stays below 1e16.
   */
  lemma {:induction false} LineAmountError(quantity: nat, price: nat)
    requires quantity <= MAX_MICROS && price <= MAX_MICROS
    ensures var exact := quantity * price;
      var reported := 10_000_000_000 * LineCents(quantity, price);
      && -5_000_000_500 <= reported - exact <= 5_000_000_500
      && (exact < CONTEXT_LIMIT ==> LineCents(quantity, price) == HalfUpDiv(exact, 10_000_000_000))
    ensures LineCents(quantity, price) <= 100_000_000_000_000_000_000
  {
    ProductBound(quantity, price, MAX_MICROS, MAX_MICROS);
    ContextError(quantity * price);
  }

  /** The context rounds a product of validated numbers to a multiple of ten or one hundred units. */
  lemma {:induction false} ProductContext(n: nat)
    requires n <= 100 * CONTEXT_LIMIT
    ensures RoundContext(n) ==
      if n < CONTEXT_LIMIT then n
      else if n < 10 * CONTEXT_LIMIT then HalfEvenDiv(n, 10) * 10
      else HalfEvenDiv(n, 100) * 100
  {
    LimitIsPow10();
    assert Pow10(1) == 10 && Pow10(2) == 100 && Pow10(3) == 1000;
    if CONTEXT_LIMIT <= n < 10 * CONTEXT_LIMIT {
      DigitCountUnique(n, 29);
    } else if 10 * CONTEXT_LIMIT <= n < 100 * CONTEXT_LIMIT {
      DigitCountUnique(n, 30);
    } else if n == 100 * CONTEXT_LIMIT {
      DigitCountUnique(n, 31);
    }
  }

  /** How far below a half-cent tie a product may lie and still be rounded onto it. */
  function TieReach(product: nat): (reach: nat) {
    if product < CONTEXT_LIMIT then 0 else if product < 10 * CONTEXT_LIMIT then 5 else 50
  }

  /**
   Exactly when double rounding changes a line amount: the product exceeds 28 digits and lies
   just below a half cent, close enough for the context to lift it onto the tie.
   */
  lemma {:induction false} DoubleRounding(quantity: nat, price: nat)
    requires quantity <= MAX_MICROS && price <= MAX_MICROS
    ensures var exact := quantity * price;
      LineCents(quantity, price) == HalfUpDiv(exact, 10_000_000_000)
      <==> !(5_000_000_000 - TieReach(exact) <= exact % 10_000_000_000 < 5_000_000_000)
  {
    ProductBound(quantity, price, MAX_MICROS, MAX_MICROS);
    ProductContext(quantity * price);
    TieCrossing(quantity * price);
  }

  lemma {:induction false} HalfUpSplit(m: nat, t: nat)
    requires t <= 10_000_000_000
    ensures HalfUpDiv(10_000_000_000 * m + t, 10_000_000_000) == m + if t >= 5_000_000_000 then 1 else 0
  {
  }

  lemma {:induction false} TensShift(j: nat, t: nat)
    ensures HalfEvenDiv(10 * (2 * j) + t, 10) == 2 * j + HalfEvenDiv(t, 10)
  {
  }

  lemma {:induction false} HundredsShift(j: nat, t: nat)
    ensures HalfEvenDiv(100 * (2 * j) + t, 100) == 2 * j + HalfEvenDiv(t, 100)
  {
    var n := 100 * (2 * j) + t;
    assert n / 100 == 2 * j + t / 100;
  }

  /** Rounding to tens or hundreds only moves the part below one cent, up to a full cent. */
  lemma {:induction false} FineRounding(n: nat)
    ensures var m, t := n / 10_000_000_000, n % 10_000_000_000;
      && HalfEvenDiv(n, 10) * 10 == 10_000_000_000 * m + HalfEvenDiv(t, 10) * 10
      && HalfEvenDiv(n, 100) * 100 == 10_000_000_000 * m + HalfEvenDiv(t, 100) * 100
      && HalfEvenDiv(t, 10) * 10 <= 10_000_000_000 && HalfEvenDiv(t, 100) * 100 <= 10_000_000_000
  {
    var m, t := n / 10_000_000_000, n % 10_000_000_000;
    TensShift(500_000_000 * m, t);
    HundredsShift(50_000_000 * m, t);
  }

  lemma {:induction false} TieCrossing(n: nat)
    requires n <= 100 * CONTEXT_LIMIT
    ensures var rounded :=
        if n < CONTEXT_LIMIT then n
        else if n < 10 * CONTEXT_LIMIT then HalfEvenDiv(n, 10) * 10
        else HalfEvenDiv(n, 100) * 100;
      HalfUpDiv(rounded, 10_000_000_000) == HalfUpDiv(n, 10_000_000_000)
      <==> !(5_000_000_000 - TieReach(n) <= n % 10_000_000_000 < 5_000_000_000)
  {
    var m, t := n / 10_000_000_000, n % 10_000_000_000;
    HalfUpSplit(m, t);
    FineRounding(n);
    if CONTEXT_LIMIT <= n < 10 * CONTEXT_LIMIT {
      HalfUpSplit(m, HalfEvenDiv(t, 10) * 10);
      TiesByTen(t);
    } else if 10 * CONTEXT_LIMIT <= n {
      HalfUpSplit(m, HalfEvenDiv(t, 100) * 100);
      TiesByHundred(t);
    }
  }

  lemma {:induction false} TiesByTen(t: nat)
    ensures HalfEvenDiv(t, 10) * 10 >= 5_000_000_000 <==> t >= 4_999_999_995
  {
  }

  lemma {:induction false} TiesByHundred(t: nat)
    ensures HalfEvenDiv(t, 100) * 100 >= 5_000_000_000 <==> t >= 4_999_999_950
  {
  }

  // ---------------------------------------------------------------- the tax of a line

  const CENT: nat := 100_000_000
  const HALF_CENT: nat := 50_000_000

  /** The unit to which the context rounds the product of an amount and a rate. */
  function TaxUnit(product: nat): (u: nat)
    ensures u in {1, 10, 100, 1_000, 10_000, 100_000, 1_000_000, 10_000_000}
  {
    if product < CONTEXT_LIMIT then 1
    else if product < 10 * CONTEXT_LIMIT then 10
    else if product < 100 * CONTEXT_LIMIT then 100
    else if product < 1_000 * CONTEXT_LIMIT then 1_000
    else if product < 10_000 * CONTEXT_LIMIT then 10_000
    else if product < 100_000 * CONTEXT_LIMIT then 100_000
    else if product < 1_000_000 * CONTEXT_LIMIT then 1_000_000
    else 10_000_000
  }

  /**
   How far below a half-cent tie a product may lie and still be rounded onto it: half a unit. With
   the largest unit the tie has an odd quotient, so that exactly half a unit is rounded down.
   */
  function TaxReach(product: nat): (reach: nat) {
    if TaxUnit(product) == 10_000_000 then 4_999_999 else TaxUnit(product) / 2
  }

  lemma {:induction false} BigPowers()
    ensures Pow10(1) == 10 && Pow10(2) == 100 && Pow10(3) == 1_000 && Pow10(4) == 10_000
    ensures Pow10(5) == 100_000 && Pow10(6) == 1_000_000 && Pow10(7) == 10_000_000
  {
    assert Pow10(3) == 1000;
    assert Pow10(4) == 10 * Pow10(3);
    assert Pow10(5) == 10 * Pow10(4);
    assert Pow10(6) == 10 * Pow10(5);
    assert Pow10(7) == 10 * Pow10(6);
  }

  lemma {:induction false} DigitsFrom(n: nat, k: nat)
    requires Pow10(k) * CONTEXT_LIMIT <= n < 10 * (Pow10(k) * CONTEXT_LIMIT)
    ensures DigitCount(n) == 29 + k
  {
    LimitIsPow10();
    Pow10Add(k, 28);
    assert Pow10(k + 29) == 10 * Pow10(k + 28);
    DigitCountUnique(n, k + 29);
  }

  /** The context rounds the product to that unit. */
  lemma {:induction false} TaxContext(n: nat)
    requires n <= 10_000_000 * CONTEXT_LIMIT
    ensures RoundContext(n) == HalfEvenDiv(n, TaxUnit(n)) * TaxUnit(n)
  {
    hide HalfEvenDiv;
    BigPowers();
    var u := TaxUnit(n);
    if u == 1 {
      WholeUnit(n);
    } else if n == 10_000_000 * CONTEXT_LIMIT {
      LargestProduct();
    } else {
      var k := match u case 10 => 0 case 100 => 1 case 1_000 => 2 case 10_000 => 3 case 100_000 => 4 case 1_000_000 => 5 case _ => 6;
      assert Pow10(0) == 1;
      DigitsFrom(n, k);
    }
  }

  lemma {:induction false} LargestProduct()
    ensures var n := 10_000_000 * CONTEXT_LIMIT; RoundContext(n) == HalfEvenDiv(n, 10_000_000) * 10_000_000
  {
    BigPowers();
    assert Pow10(8) == 10 * Pow10(7);
    DigitsFrom(10_000_000 * CONTEXT_LIMIT, 7);
  }

  lemma {:induction false} WholeUnit(n: nat)
    ensures HalfEvenDiv(n, 1) == n
  {
  }

  lemma {:induction false} OneQuotient(u: nat, a: nat, b: nat, q: nat, r: nat)
    requires a * u + b == q * u + r && b < u && r < u
    ensures a == q && b == r
  {
    if a < q {
      BelowMultiple(u, a, b, q);
    } else if q < a {
      BelowMultiple(u, q, r, a);
    }
  }

  lemma {:induction false} BelowMultiple(u: nat, a: nat, b: nat, q: nat)
    requires a < q && b < u
    ensures a * u + b < q * u
  {
    Distribute(a, 1, u);
    ScaleUp(a + 1, q, u);
  }

  lemma {:induction false} DivMod(n: nat, u: nat)
    requires u >= 1
    ensures (n / u) * u + n % u == n && n % u < u
  {
  }

  lemma {:induction false} HalfEvenOf(n: nat, u: nat, q: nat, r: nat)
    requires u >= 1 && n == q * u + r && r < u
    ensures HalfEvenDiv(n, u) == if 2 * r > u || (2 * r == u && q % 2 == 1) then q + 1 else q
  {
    DivMod(n, u);
    OneQuotient(u, n / u, n % u, q, r);
  }

  /** Rounding commutes with adding an even number of units. */
  lemma {:induction false} EvenShift(u: nat, j: nat, t: nat)
    requires u >= 1
    ensures HalfEvenDiv(2 * j * u + t, u) == 2 * j + HalfEvenDiv(t, u)
  {
    hide HalfEvenDiv;
    var q, r := t / u, t % u;
    assert t == q * u + r;
    Distribute(2 * j, q, u);
    HalfEvenOf(t, u, q, r);
    HalfEvenOf(2 * j * u + t, u, 2 * j + q, r);
  }

  /** A part of a cent is rounded to half a cent or more exactly within reach of it. */
  ghost predicate TiesWithin(t: nat, u: nat, reach: nat)
    requires u >= 1
  {
    HalfEvenDiv(t, u) * u <= CENT && (HalfEvenDiv(t, u) * u >= HALF_CENT <==> t >= HALF_CENT - reach)
  }

  lemma {:induction false} TiesBySmall(t: nat)
    requires t < CENT
    ensures TiesWithin(t, 1, 0) && TiesWithin(t, 10, 5) && TiesWithin(t, 100, 50) && TiesWithin(t, 1_000, 500)
  {
  }

  lemma {:induction false} TiesByLarge(t: nat)
    requires t < CENT
    ensures TiesWithin(t, 10_000, 5_000) && TiesWithin(t, 100_000, 50_000) && TiesWithin(t, 1_000_000, 500_000)
    ensures TiesWithin(t, 10_000_000, 4_999_999)
  {
  }

  lemma {:induction false} TiesByUnit(t: nat, product: nat)
    requires t < CENT
    ensures TiesWithin(t, TaxUnit(product), TaxReach(product))
  {
    hide TiesWithin;
    TiesBySmall(t);
    TiesByLarge(t);
  }

  lemma {:induction false} CentSplit(m: nat, t: nat)
    requires t <= CENT
    ensures HalfUpDiv(CENT * m + t, CENT) == m + if t >= HALF_CENT then 1 else 0
  {
  }

  lemma {:induction false} UnitSplit(m: nat, t: nat, u: nat)
    requires u in {1, 10, 100, 1_000, 10_000, 100_000, 1_000_000, 10_000_000}
    ensures HalfEvenDiv(CENT * m + t, u) * u == CENT * m + HalfEvenDiv(t, u) * u
  {
    hide HalfEvenDiv;
    var d := HALF_CENT / u;
    assert d * u == HALF_CENT;
    HalfCents(d, m, u);
    EvenShift(u, d * m, t);
    Distribute(2 * (d * m), HalfEvenDiv(t, u), u);
  }

  lemma {:induction false} HalfCents(d: nat, m: nat, u: nat)
    requires d * u == HALF_CENT
    ensures 2 * (d * m) * u == CENT * m
  {
    assert 2 * (d * m) * u == 2 * (d * u) * m;
  }

  /** The two roundings of a product, the second one half up to cents. */
  lemma {:induction false} TaxTies(n: nat)
    requires n <= 10_000_000 * CONTEXT_LIMIT
    ensures HalfUpDiv(RoundContext(n), CENT) == HalfUpDiv(n, CENT) <==> !(HALF_CENT - TaxReach(n) <= n % CENT < HALF_CENT)
  {
    hide RoundContext, HalfEvenDiv, HalfUpDiv, TaxUnit, TaxReach;
    var m, t, u := n / CENT, n % CENT, TaxUnit(n);
    assert n == CENT * m + t;
    TaxContext(n);
    UnitSplit(m, t, u);
    TiesByUnit(t, n);
    CentSplit(m, t);
    CentSplit(m, HalfEvenDiv(t, u) * u);
  }

  /**
   Exactly when double rounding changes the tax of a line: the product exceeds 28 digits and lies
   just below a half cent, close enough for the context to lift it onto the tie.
   */
  lemma {:induction false} TaxDoubleRounding(cents: nat, rate: nat)
    requires cents <= 100_000_000_000_000_000_000 && rate <= MAX_MICROS
    ensures var exact := cents * rate;
      TaxCents(cents, rate) == HalfUpDiv(exact, CENT) <==> !(HALF_CENT - TaxReach(exact) <= exact % CENT < HALF_CENT)
  {
    hide RoundContext, HalfUpDiv, TaxReach;
    var n := TaxProduct(cents, rate);
    TaxTies(n);
  }

  lemma {:induction false} TaxProduct(cents: nat, rate: nat) returns (n: nat)
    requires cents <= 100_000_000_000_000_000_000 && rate <= MAX_MICROS
    ensures n == cents * rate && n <= 10_000_000 * CONTEXT_LIMIT
  {
    assert MAX_MICROS == 1_000_000_000_000_000;
    ProductBound(cents, rate, 100_000_000_000_000_000_000, 1_000_000_000_000_000);
    NoLess(cents, rate);
    n := cents * rate;
  }

  lemma {:induction false} NoLess(a: nat, b: nat)
    ensures a * b >= 0
  {
  }

  // ---------------------------------------------------------------- totals

  /** Summing under the context is exact as long as the result can be quantised, and only then. */
  lemma {:induction false} TotalExact(xs: seq<nat>)
    ensures Total(xs) == Quantized(Sum(xs))
  {
    if xs != [] {
      var init, last := xs[..|xs| - 1], xs[|xs| - 1];
      TotalExact(init);
      assert xs == init + [last];
      SumAppend(init, [last]);
      assert Sum([last]) == last;
      ContextError(RoundedSum(init) + last);
    }
  }

  lemma {:induction false} RemovedMultiset<T>(s: seq<T>, i: nat)
    requires i < |s|
    ensures multiset(s) == multiset(s[..i] + s[i + 1..]) + multiset{s[i]}
  {
    assert s == s[..i] + ([s[i]] + s[i + 1..]);
  }

  lemma {:induction false} SumBound(xs: seq<nat>, bound: nat)
    requires forall i :: 0 <= i < |xs| ==> xs[i] <= bound
    ensures Sum(xs) <= |xs| * bound
  {
    if xs != [] {
      SumBound(xs[1..], bound);
      assert |xs| * bound == bound + (|xs| - 1) * bound;
    }
  }

  lemma {:induction false} TaxOfProduct(product: nat)
    ensures 100_000_000 * HalfUpDiv(RoundContext(product), 100_000_000)
         <= product + product / 1_000_000_000_000_000_000_000_000_000 + 100_000_000
  {
    ContextError(product);
  }

  /** A single tax amount always has at most 28 digits; with rates up to 1e7 it is far smaller. */
  lemma {:induction false} TaxBound(cents: nat, rate: nat)
    requires cents <= 100_000_000_000_000_000_000 && rate <= MAX_MICROS
    ensures TaxCents(cents, rate) < CONTEXT_LIMIT
    ensures rate <= 10_000_000_000_000 ==> TaxCents(cents, rate) <= 10_000_000_000_000_000_000_000_001
  {
    hide RoundContext, HalfUpDiv;
    ProductBound(cents, rate, 100_000_000_000_000_000_000, if rate <= 10_000_000_000_000 then 10_000_000_000_000 else MAX_MICROS);
    TaxOfProduct(cents * rate);
  }

  function LineTaxes(cents: seq<nat>, rate: nat): (r: seq<nat>)
    ensures |r| == |cents|
    ensures forall i :: 0 <= i < |cents| ==> r[i] == TaxCents(cents[i], rate)
  {
    if cents == [] then [] else [TaxCents(cents[0], rate)] + LineTaxes(cents[1..], rate)
  }

  /**
   With one rate, the tax summed line by line differs from the rate applied to the line total
   by at most half a cent per line (products are in units of 1e-8 cents).
   */
  lemma {:induction false} TaxDrift(cents: seq<nat>, rate: nat)
    requires forall i :: 0 <= i < |cents| ==> cents[i] * rate < CONTEXT_LIMIT
    ensures var drift := 100_000_000 * Sum(LineTaxes(cents, rate)) - Sum(cents) * rate;
      -50_000_000 * |cents| <= drift <= 50_000_000 * |cents|
  {
    if cents != [] {
      TaxDrift(cents[1..], rate);
      TaxRounding(cents[0] * rate);
      Distribute(cents[0], Sum(cents[1..]), rate);
    }
  }

  lemma {:induction false} Distribute(a: nat, b: nat, x: nat)
    ensures (a + b) * x == a * x + b * x
  {
  }

  lemma {:induction false} TaxRounding(product: nat)
    requires product < CONTEXT_LIMIT
    ensures var reported := 100_000_000 * HalfUpDiv(RoundContext(product), 100_000_000);
      -50_000_000 <= reported - product <= 50_000_000
  {
  }
}
