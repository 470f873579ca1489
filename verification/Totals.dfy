/** Line, tax and payable totals of an invoice, and when they can be computed at all. */
module Totals {
  import opened Basics
  import opened Digits
  import opened Texts
  import opened Decimals
  import opened Money
  import opened Invoices

  predicate AllValid(lines: seq<Line>) {
    forall i :: 0 <= i < |lines| ==> ValidLine(lines[i])
  }

  function LineAmount(line: Line): (c: nat)
    requires ValidLine(line)
  {
    LineCents(Micros(line.quantity), Micros(line.price))
  }

  function TaxAmount(line: Line): (c: nat)
    requires ValidLine(line)
  {
    TaxCents(LineAmount(line), Micros(line.vatRate))
  }

  function LineAmounts(lines: seq<Line>): (r: seq<nat>)
    requires AllValid(lines)
    ensures |r| == |lines|
    ensures forall i :: 0 <= i < |lines| ==> r[i] == LineAmount(lines[i])
  {
    seq(|lines|, i requires 0 <= i < |lines| => LineAmount(lines[i]))
  }

  function TaxAmounts(lines: seq<Line>): (r: seq<nat>)
    requires AllValid(lines)
    ensures |r| == |lines|
    ensures forall i :: 0 <= i < |lines| ==> r[i] == TaxAmount(lines[i])
  {
    seq(|lines|, i requires 0 <= i < |lines| => TaxAmount(lines[i]))
  }

  /** None stands for the decimal.InvalidOperation that quantisation raises. */
  function LineTotal(lines: seq<Line>): (r: Option<nat>)
    requires AllValid(lines)
  {
    Total(LineAmounts(lines))
  }

  function TaxTotal(lines: seq<Line>): (r: Option<nat>)
    requires AllValid(lines)
  {
    Total(TaxAmounts(lines))
  }

  function PayableTotal(lines: seq<Line>): (r: Option<nat>)
    requires AllValid(lines)
  {
    var line, tax := LineTotal(lines), TaxTotal(lines);
    if line.Some? && tax.Some? then Quantized(RoundContext(line.value + tax.value)) else None
  }

  /** All three totals exist. */
  predicate TotalsFit(lines: seq<Line>)
    requires AllValid(lines)
  {
    PayableTotal(lines).Some?
  }

  /**
   The totals exist exactly when the exact payable amount has at most 28 digits, and then they
   are the exact sums: line total, tax total, and their sum (BR-CO-10, BR-CO-14 and BR-CO-15
   in section 6.4 of EN 16931-1:2017).
   */
  lemma {:induction false} TotalsAreExact(lines: seq<Line>)
    requires AllValid(lines)
    ensures var line, tax := Sum(LineAmounts(lines)), Sum(TaxAmounts(lines));
      && (TotalsFit(lines) <==> line + tax < CONTEXT_LIMIT)
      && (TotalsFit(lines) ==>
            LineTotal(lines) == Some(line) && TaxTotal(lines) == Some(tax) && PayableTotal(lines) == Some(line + tax))
  {
    hide LineAmounts, TaxAmounts, Total, AllValid, Sum, RoundContext;
    TotalExact(LineAmounts(lines));
    TotalExact(TaxAmounts(lines));
    ContextError(Sum(LineAmounts(lines)) + Sum(TaxAmounts(lines)));
  }

  lemma {:induction false} AmountBounds(line: Line)
    requires ValidLine(line)
    ensures LineAmount(line) <= 100_000_000_000_000_000_000
    ensures Micros(line.vatRate) <= MODEST_RATE ==> TaxAmount(line) <= 10_000_000_000_000_000_000_000_001
  {
    LineAmountError(Micros(line.quantity), Micros(line.price));
    TaxBound(LineAmount(line), Micros(line.vatRate));
  }

  /** Ten million percent, in millionths. */
  const MODEST_RATE: nat := 10_000_000_000_000

  predicate ModestRates(lines: seq<Line>)
    requires AllValid(lines)
  {
    forall i :: 0 <= i < |lines| ==> Micros(lines[i].vatRate) <= MODEST_RATE
  }

  /** With VAT rates up to 1e7 the totals of every invoice of up to one hundred lines exist. */
  lemma {:induction false} ModestRatesFit(lines: seq<Line>)
    requires |lines| <= 100 && AllValid(lines) && ModestRates(lines)
    ensures TotalsFit(lines)
  {
    forall i | 0 <= i < |lines|
      ensures LineAmounts(lines)[i] <= 100_000_000_000_000_000_000
      ensures TaxAmounts(lines)[i] <= 10_000_000_000_000_000_000_000_001
    {
      AmountBounds(lines[i]);
    }
    SumBound(LineAmounts(lines), 100_000_000_000_000_000_000);
    SumBound(TaxAmounts(lines), 10_000_000_000_000_000_000_000_001);
    TotalsAreExact(lines);
  }

  // ---------------------------------------------------------------- conservation

  /** Removing one line lowers both exact sums by exactly that line's share. */
  lemma {:induction false} RemoveLineConserves(lines: seq<Line>, i: nat)
    requires AllValid(lines) && i < |lines|
    ensures var rest := lines[..i] + lines[i + 1..];
      && AllValid(rest)
      && Sum(LineAmounts(rest)) + LineAmount(lines[i]) == Sum(LineAmounts(lines))
      && Sum(TaxAmounts(rest)) + TaxAmount(lines[i]) == Sum(TaxAmounts(lines))
      && (TotalsFit(lines) ==> TotalsFit(rest))
  {
    hide LineAmount, TaxAmount, ValidLine, LineTotal, TaxTotal, PayableTotal;
    var rest := lines[..i] + lines[i + 1..];
    SumRemove(LineAmounts(lines), i);
    SumRemove(TaxAmounts(lines), i);
    assert LineAmounts(rest) == LineAmounts(lines)[..i] + LineAmounts(lines)[i + 1..];
    assert TaxAmounts(rest) == TaxAmounts(lines)[..i] + TaxAmounts(lines)[i + 1..];
    TotalsAreExact(lines);
    TotalsAreExact(rest);
  }

  /** Both exact sums and all three totals are the same for every order of the lines. */
  lemma {:induction false} TotalsIgnoreOrder(a: seq<Line>, b: seq<Line>)
    requires AllValid(a) && AllValid(b) && multiset(a) == multiset(b)
    ensures LineTotal(a) == LineTotal(b) && TaxTotal(a) == TaxTotal(b) && PayableTotal(a) == PayableTotal(b)
    ensures Sum(LineAmounts(a)) == Sum(LineAmounts(b)) && Sum(TaxAmounts(a)) == Sum(TaxAmounts(b))
  {
    hide LineAmounts, TaxAmounts, Total, AllValid, Sum;
    SumsIgnoreOrder(a, b);
    TotalExact(LineAmounts(a));
    TotalExact(LineAmounts(b));
    TotalExact(TaxAmounts(a));
    TotalExact(TaxAmounts(b));
  }

  lemma {:induction false} SumsIgnoreOrder(a: seq<Line>, b: seq<Line>)
    requires AllValid(a) && AllValid(b) && multiset(a) == multiset(b)
    ensures Sum(LineAmounts(a)) == Sum(LineAmounts(b)) && Sum(TaxAmounts(a)) == Sum(TaxAmounts(b))
  {
    AmountsAsMap(a);
    AmountsAsMap(b);
    SumMapIgnoresOrder(a, b, AmountOf);
    SumMapIgnoresOrder(a, b, TaxOf);
  }

  function AmountOf(line: Line): (c: nat) {
    if ValidLine(line) then LineAmount(line) else 0
  }

  function TaxOf(line: Line): (c: nat) {
    if ValidLine(line) then TaxAmount(line) else 0
  }

  lemma {:induction false} AmountsAsMap(lines: seq<Line>)
    requires AllValid(lines)
    ensures LineAmounts(lines) == Map(lines, AmountOf) && TaxAmounts(lines) == Map(lines, TaxOf)
  {
  }

  lemma {:induction false} SumMapIgnoresOrder<T>(a: seq<T>, b: seq<T>, f: T -> nat)
    requires multiset(a) == multiset(b)
    ensures Sum(Map(a, f)) == Sum(Map(b, f))
    decreases |a|
  {
    if a == [] {
      assert |multiset(b)| == 0;
    } else {
      var i := MatchFirst(a, b);
      var rest := b[..i] + b[i + 1..];
      SumMapIgnoresOrder(a[1..], rest, f);
      SumRemove(Map(b, f), i);
      assert Map(rest, f) == Map(b, f)[..i] + Map(b, f)[i + 1..];
      assert Map(a, f)[1..] == Map(a[1..], f);
    }
  }

  /** The first line of a permutation can be taken out of both sides. */
  lemma {:induction false} MatchFirst<T>(a: seq<T>, b: seq<T>) returns (i: nat)
    requires a != [] && multiset(a) == multiset(b)
    ensures i < |b| && b[i] == a[0] && multiset(a[1..]) == multiset(b[..i] + b[i + 1..])
  {
    assert a[0] in multiset(b);
    i :| 0 <= i < |b| && b[i] == a[0];
    RemovedMultiset(b, i);
    assert a == [a[0]] + a[1..];
    assert multiset(a[1..]) == multiset(a) - multiset{a[0]};
    assert multiset(b[..i] + b[i + 1..]) == multiset(b) - multiset{b[i]};
  }

  // ---------------------------------------------------------------- drift

  /**
   With one VAT rate, the tax total differs from the rate applied to the line total by at most half
   a cent per line, as long as the products stay within 28 digits (units are 1e-8 cents).
   */
  lemma {:induction false} VatDrift(lines: seq<Line>)
    requires AllValid(lines) && |lines| >= 1 && OneRate(lines)
    requires forall i :: 0 <= i < |lines| ==> LineAmount(lines[i]) * Micros(lines[0].vatRate) < CONTEXT_LIMIT
    ensures var drift := 100_000_000 * Sum(TaxAmounts(lines)) - Sum(LineAmounts(lines)) * Micros(lines[0].vatRate);
      -50_000_000 * |lines| <= drift <= 50_000_000 * |lines|
  {
    hide LineAmount, TaxCents, SameNumber, LineTaxes;
    var rate := Micros(lines[0].vatRate);
    forall i | 0 <= i < |lines| ensures Micros(lines[i].vatRate) == rate {
      SameNumberMicros(lines[0].vatRate, lines[i].vatRate);
    }
    assert TaxAmounts(lines) == LineTaxes(LineAmounts(lines), rate);
    TaxDrift(LineAmounts(lines), rate);
  }

  // ---------------------------------------------------------------- totals that do not exist

  const THOUSAND_MILLION := Dec(false, 1, 9)

  function HugeLine(i: nat): (line: Line) {
    Line(NatText(i), THOUSAND_MILLION, "C", THOUSAND_MILLION, "n", "S", THOUSAND_MILLION, None, None, None, None, None, None, None, None)
  }

  function HugeLines(): (lines: seq<Line>) {
    seq(10, i requires 0 <= i < 10 => HugeLine(i))
  }

  lemma {:induction false} HugeAmounts()
    ensures LineCents(MAX_MICROS, MAX_MICROS) == 100_000_000_000_000_000_000
    ensures TaxCents(100_000_000_000_000_000_000, MAX_MICROS) >= 1_000_000_000_000_000_000_000_000_000
  {
    hide RoundContext;
    ContextError(MAX_MICROS * MAX_MICROS);
    ContextError(100_000_000_000_000_000_000 * MAX_MICROS);
  }

  lemma {:induction false} HugeNumber()
    ensures Micros(THOUSAND_MILLION) == MAX_MICROS && ValidPositive(THOUSAND_MILLION) && ValidNonNegative(THOUSAND_MILLION)
    ensures SameNumber(THOUSAND_MILLION, THOUSAND_MILLION)
  {
    assert Pow10(5) == 100_000;
    Pow10Add(5, 5);
    Pow10Add(10, 5);
  }

  lemma {:induction false} HugeLineIsValid(i: nat)
    requires i < 10
    ensures ValidLine(HugeLine(i))
    ensures LineAmount(HugeLine(i)) == 100_000_000_000_000_000_000
    ensures TaxAmount(HugeLine(i)) >= 1_000_000_000_000_000_000_000_000_000
  {
    hide LineCents, TaxCents, ValidPositive, ValidNonNegative;
    HugeNumber();
    HugeAmounts();
    NatTextLength(i, 1);
    assert Pow10(1) == 10;
    assert forall k :: 0 <= k < |NatText(i)| ==> IsDigit(NatText(i)[k]);
  }

  /** Ten valid lines, each at the validated bounds, whose totals cannot be computed. */
  lemma {:induction false} TotalsMayNotExist()
    ensures ValidLines(HugeLines()) && AllValid(HugeLines()) && !TotalsFit(HugeLines())
  {
    hide ValidLine, TotalsFit, LineAmount, TaxAmount, SameNumber, Sum, NatText;
    var lines := HugeLines();
    forall i | 0 <= i < 10 ensures ValidLine(lines[i]) && TaxAmount(lines[i]) >= 1_000_000_000_000_000_000_000_000_000 {
      HugeLineIsValid(i);
    }
    HugeNumber();
    forall i, j | 0 <= i < j < 10 ensures lines[i].identifier != lines[j].identifier {
      assert NatOf(NatText(i)) == i && NatOf(NatText(j)) == j;
    }
    SumAtLeast(TaxAmounts(lines), 1_000_000_000_000_000_000_000_000_000);
    TotalsAreExact(lines);
  }

  lemma {:induction false} SumAtLeast(xs: seq<nat>, bound: nat)
    requires forall i :: 0 <= i < |xs| ==> xs[i] >= bound
    ensures Sum(xs) >= |xs| * bound
  {
    if xs != [] {
      SumAtLeast(xs[1..], bound);
      assert |xs| * bound == bound + (|xs| - 1) * bound;
    }
  }
}
