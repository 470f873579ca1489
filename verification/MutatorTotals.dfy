/** What the mutators do to the totals of an invoice. */
module MutatorTotals {
  import opened Basics
  import opened Digits
  import opened Decimals
  import opened Money
  import opened Invoices
  import opened Totals
  import opened Mutators

  /** Only these mutators may change an amount. */
  predicate ChangesAmounts(m: Mutator) {
    m in {QuantityScale, PriceScale, VatRate, AddLine}
  }

  lemma {:induction false} ReversedMultiset(lines: seq<Line>)
    ensures multiset(Reversed(lines)) == multiset(lines)
    decreases |lines|
  {
    if lines == [] {
      assert Reversed(lines) == [];
    } else {
      var rest := lines[1..];
      ReversedMultiset(rest);
      assert Reversed(lines) == Reversed(rest) + [lines[0]];
      assert lines == [lines[0]] + rest;
    }
  }

  lemma {:induction false} SameNumbersSameAmount(a: Line, b: Line)
    requires ValidLine(a) && ValidLine(b) && a.quantity == b.quantity && a.price == b.price && a.vatRate == b.vatRate
    ensures LineAmount(a) == LineAmount(b) && TaxAmount(a) == TaxAmount(b)
  {
    hide LineCents, TaxCents, Micros;
  }

  lemma {:induction false} FirstKeepsAmounts(lines: seq<Line>, line: Line)
    requires |lines| >= 1 && AllValid(lines) && AllValid(ReplaceFirst(lines, line))
    requires line.quantity == lines[0].quantity && line.price == lines[0].price && line.vatRate == lines[0].vatRate
    ensures LineAmounts(ReplaceFirst(lines, line)) == LineAmounts(lines) && TaxAmounts(ReplaceFirst(lines, line)) == TaxAmounts(lines)
  {
    hide LineAmount, TaxAmount, ValidLine;
    var r := ReplaceFirst(lines, line);
    assert r[0] == line && forall i :: 1 <= i < |lines| ==> r[i] == lines[i];
    SameNumbersSameAmount(line, lines[0]);
  }

  lemma {:induction false} FirstNumbers(first: Line, m: Mutator, token: nat)
    requires !ChangesAmounts(m)
    ensures var r := MutatedFirst(first, m, token);
      r.quantity == first.quantity && r.price == first.price && r.vatRate == first.vatRate
  {
    hide NatText, Padded;
  }

  lemma {:induction false} LinesKeepTotals(lines: seq<Line>, m: Mutator, token: nat)
    requires |lines| >= 1 && AllValid(lines) && AllValid(MutatedLines(lines, m, token)) && !ChangesAmounts(m)
    ensures var r := MutatedLines(lines, m, token);
      LineTotal(r) == LineTotal(lines) && TaxTotal(r) == TaxTotal(lines) && PayableTotal(r) == PayableTotal(lines)
  {
    hide LineAmounts, TaxAmounts, Total, AllValid, NatText, Padded, ReplaceFirst, Reversed, MutatedFirst;
    FirstNumbers(lines[0], m, token);
    if m.LineOrder? {
      ReversedMultiset(lines);
      TotalsIgnoreOrder(Reversed(lines), lines);
    } else if m.LineIdentifier? {
      FirstKeepsAmounts(lines, lines[0].(identifier := "POSITION-" + Padded(token, 8)));
    } else {
      FirstKeepsAmounts(lines, MutatedFirst(lines[0], m, token));
    }
  }

  lemma {:induction false} LinesAreValid(inv: Invoice)
    requires ValidInvoice(inv)
    ensures |inv.lines| >= 1 && AllValid(inv.lines)
  {
  }

  lemma {:induction false} LinesAfter(inv: Invoice, m: Mutator, token: nat)
    requires Mutate(inv, m, token).Some?
    ensures ValidInvoice(inv) && |inv.lines| >= 1 && ValidInvoice(Mutate(inv, m, token).value)
    ensures Mutate(inv, m, token).value.lines == if ChangesLines(m) then MutatedLines(inv.lines, m, token) else inv.lines
  {
    hide ValidInvoice, MutatedLines, NatText, Padded;
    LinesAreValid(inv);
  }

  /** Sixteen of the twenty mutators leave all totals as they were. */
  lemma {:induction false} TotalsKept(inv: Invoice, m: Mutator, token: nat)
    requires Mutate(inv, m, token).Some? && !ChangesAmounts(m)
    ensures var r := Mutate(inv, m, token).value;
      && AllValid(inv.lines) && AllValid(r.lines)
      && LineTotal(r.lines) == LineTotal(inv.lines) && TaxTotal(r.lines) == TaxTotal(inv.lines)
      && PayableTotal(r.lines) == PayableTotal(inv.lines)
  {
    hide ValidInvoice, Mutate, MutatedLines, AllValid, LineTotal, TaxTotal, PayableTotal, ChangesAmounts, ChangesLines;
    LinesAfter(inv, m, token);
    LinesAreValid(inv);
    LinesAreValid(Mutate(inv, m, token).value);
    if ChangesLines(m) {
      LinesKeepTotals(inv.lines, m, token);
    }
  }

  lemma {:induction false} AddedAmount(line: Line)
    requires ValidLine(line) && line.quantity == ONE && line.price == Dec(false, 100, -2)
    ensures LineAmount(line) == 100
  {
    assert Pow10(4) == 10_000 && Pow10(6) == 1_000_000;
  }

  /** add-line adds exactly one euro to the line total, and the tax on it. */
  lemma {:induction false} AddedLineAddsOneEuro(inv: Invoice, token: nat)
    requires Mutate(inv, AddLine, token).Some?
    ensures var r := Mutate(inv, AddLine, token).value;
      && AllValid(inv.lines) && AllValid(r.lines) && |r.lines| == |inv.lines| + 1
      && Sum(LineAmounts(r.lines)) == Sum(LineAmounts(inv.lines)) + 100
      && Sum(TaxAmounts(r.lines)) == Sum(TaxAmounts(inv.lines)) + TaxCents(100, Micros(inv.lines[0].vatRate))
  {
    hide ValidInvoice, Mutate, AllValid, LineCents, TaxCents, Micros, ValidLine, NatText, Padded;
    LinesAfter(inv, AddLine, token);
    LinesAreValid(inv);
    var r := Mutate(inv, AddLine, token).value;
    LinesAreValid(r);
    LastLine(inv.lines, AddedLine(inv.lines[0], token));
    AddedAmount(AddedLine(inv.lines[0], token));
  }

  lemma {:induction false} LastLine(lines: seq<Line>, line: Line)
    requires AllValid(lines) && AllValid(lines + [line])
    ensures ValidLine(line)
    ensures Sum(LineAmounts(lines + [line])) == Sum(LineAmounts(lines)) + LineAmount(line)
    ensures Sum(TaxAmounts(lines + [line])) == Sum(TaxAmounts(lines)) + TaxAmount(line)
  {
    hide LineAmount, TaxAmount, ValidLine;
    var all := lines + [line];
    assert all[|lines|] == line;
    assert LineAmounts(all) == LineAmounts(lines) + [LineAmount(line)];
    assert TaxAmounts(all) == TaxAmounts(lines) + [TaxAmount(line)];
    SumAppend(LineAmounts(lines), [LineAmount(line)]);
    SumAppend(TaxAmounts(lines), [TaxAmount(line)]);
    assert Sum([LineAmount(line)]) == LineAmount(line) && Sum([TaxAmount(line)]) == TaxAmount(line);
  }
}
