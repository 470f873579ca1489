/** A natural number that every declared reduction strictly lowers. */
module Measure {
  import opened Basics
  import opened Texts
  import opened Digits
  import opened Decimals
  import opened Money
  import opened Rounding
  import opened Invoices
  import opened Totals
  import opened Fingerprint
  import opened Reductions

  function OptionalWeight(o: Option<string>): (w: nat) {
    if o.Some? then 1 + |o.value| else 0
  }

  /** One is the simplest number, then whole cents, then everything else. */
  function NumberRank(d: Dec): (r: nat)
    ensures r <= 2
  {
    if SameNumber(Reduced(d, ToOne), d) then 0
    else if SameNumber(Reduced(d, ToCents), d) then 1
    else 2
  }

  function PartyMeasure(p: Party): (m: nat) {
    |p.endpoint| + |p.registrationName| + |p.street| + |p.city| + |p.postalCode|
    + OptionalWeight(p.tradingName) + OptionalWeight(p.taxIdentifier) + OptionalWeight(p.legalIdentifier)
    + OptionalWeight(p.legalForm) + OptionalWeight(p.partyIdentifier)
    + OptionalWeight(p.contactName) + OptionalWeight(p.contactPhone) + OptionalWeight(p.contactEmail)
  }

  function LineMeasure(line: Line): (m: nat)
    ensures m >= 1
  {
    1 + |line.identifier| + |line.name|
    + OptionalWeight(line.note) + OptionalWeight(line.description)
    + OptionalWeight(line.orderLineIdentifier) + OptionalWeight(line.sellerItemIdentifier)
    + (if line.periodStart.Some? then 1 else 0) + (if line.classificationCode.Some? then 1 else 0)
    + NumberRank(line.quantity) + NumberRank(line.price)
  }

  function LineMeasures(lines: seq<Line>): (ms: seq<nat>) {
    Map(lines, LineMeasure)
  }

  function HeaderMeasure(inv: Invoice): (m: nat) {
    |inv.identifier| + |inv.buyerReference| + |inv.paymentTerms| + |inv.payeeAccountIdentifier|
    + OptionalWeight(inv.note) + (if inv.paymentDueDate.Some? then 1 else 0)
  }

  function InvoiceMeasure(inv: Invoice): (m: nat) {
    HeaderMeasure(inv) + PartyMeasure(inv.seller) + PartyMeasure(inv.buyer) + Sum(LineMeasures(inv.lines))
  }

  // ---------------------------------------------------------------- parts

  lemma {:induction false} PartyOptionalStep(p: Party, f: PartyOptional)
    requires PartyOptionalOf(p, f).Some?
    ensures PartyMeasure(WithoutPartyOptional(p, f)) < PartyMeasure(p)
  {
  }

  lemma {:induction false} PartyTextStep(p: Party, f: PartyText, s: string)
    requires |s| < |PartyTextOf(p, f)|
    ensures PartyMeasure(WithPartyText(p, f, s)) < PartyMeasure(p)
  {
  }

  lemma {:induction false} PartyStep(inv: Invoice, op: Operation)
    requires Enabled(inv, op) && (op.RemovePartyField? || op.ReducePartyText?)
    ensures InvoiceMeasure(Apply(inv, op)) < InvoiceMeasure(inv)
  {
    hide TextEnabled, PartyMeasure, LineMeasures, Sum, PartyOptionalOf, PartyTextOf, WithPartyText, WithoutPartyOptional, OptionalWeight;
    var p := PartyOf(inv, op.role);
    if op.RemovePartyField? {
      PartyOptionalStep(p, op.optional);
    } else {
      TextIsLong(PartyTextOf(p, op.text), op.textOp);
      PartyTextStep(p, op.text, ReduceText(PartyTextOf(p, op.text), op.textOp));
    }
  }

  lemma {:induction false} LineOptionalStep(line: Line, f: LineOptional)
    requires LineOptionalOf(line, f).Some?
    ensures LineMeasure(WithoutLineOptional(line, f)) < LineMeasure(line)
  {
    hide NumberRank;
  }

  lemma {:induction false} LineTextStep(line: Line, f: LineText, s: string)
    requires 1 <= |s| < |LineTextOf(line, f)|
    ensures LineMeasure(WithLineText(line, f, s)) < LineMeasure(line)
  {
    hide NumberRank;
  }

  lemma {:induction false} LineNumberStep(line: Line, f: NumberField, op: NumberOp)
    requires ValidLine(line) && NumberEnabled(NumberOf(line, f), op)
    ensures LineMeasure(WithNumber(line, f, Reduced(NumberOf(line, f), op))) < LineMeasure(line)
  {
    hide NumberRank, NumberEnabled, Reduced, ValidText, InBounds;
    NumberStep(NumberOf(line, f), op);
  }

  lemma {:induction false} LinePairStep(line: Line)
    ensures line.periodStart.Some? ==> LineMeasure(line.(periodStart := None, periodEnd := None)) < LineMeasure(line)
    ensures line.classificationCode.Some? ==>
      LineMeasure(line.(classificationCode := None, classificationList := None)) < LineMeasure(line)
  {
    hide NumberRank, OptionalWeight;
  }

  lemma {:induction false} ReplacedLine(inv: Invoice, i: nat, line: Line)
    requires LineIn(inv, i) && LineMeasure(line) < LineMeasure(inv.lines[i])
    ensures InvoiceMeasure(WithLine(inv, i, line)) < InvoiceMeasure(inv)
  {
    hide LineMeasure, PartyMeasure;
    SumUpdate(LineMeasures(inv.lines), i, LineMeasure(line));
    assert LineMeasures(inv.lines[i := line]) == LineMeasures(inv.lines)[i := LineMeasure(line)];
  }

  lemma {:induction false} RemovedLine(inv: Invoice, i: nat)
    requires LineIn(inv, i)
    ensures InvoiceMeasure(inv.(lines := inv.lines[..i] + inv.lines[i + 1..])) < InvoiceMeasure(inv)
  {
    hide PartyMeasure;
    var ms := LineMeasures(inv.lines);
    SumRemove(ms, i);
    assert LineMeasures(inv.lines[..i] + inv.lines[i + 1..]) == ms[..i] + ms[i + 1..];
  }

  lemma {:induction false} LineStep(inv: Invoice, op: Operation)
    requires Enabled(inv, op)
    requires op.RemoveLineField? || op.RemovePeriod? || op.RemoveClassification? || op.ReduceLineText? || op.ReduceNumber?
    requires ValidLine(inv.lines[op.index])
    ensures InvoiceMeasure(Apply(inv, op)) < InvoiceMeasure(inv)
  {
    hide TextEnabled, NumberEnabled, LineMeasure, InvoiceMeasure, ValidLine, LineOptionalOf, LineTextOf, WithLine,
      WithoutLineOptional, WithLineText, Reduced;
    var i, line := op.index, inv.lines[op.index];
    match op {
      case RemoveLineField(_, f) =>
        LineOptionalStep(line, f);
        ReplacedLine(inv, i, WithoutLineOptional(line, f));
      case RemovePeriod(_) =>
        LinePairStep(line);
        ReplacedLine(inv, i, line.(periodStart := None, periodEnd := None));
      case RemoveClassification(_) =>
        LinePairStep(line);
        ReplacedLine(inv, i, line.(classificationCode := None, classificationList := None));
      case ReduceLineText(_, f, t) =>
        TextIsLong(LineTextOf(line, f), t);
        LineTextStep(line, f, ReduceText(LineTextOf(line, f), t));
        ReplacedLine(inv, i, WithLineText(line, f, ReduceText(LineTextOf(line, f), t)));
      case ReduceNumber(_, f, n) =>
        LineNumberStep(line, f, n);
        ReplacedLine(inv, i, WithNumber(line, f, Reduced(NumberOf(line, f), n)));
    }
  }

  /** Every declared reduction of a valid invoice strictly lowers the measure. */
  lemma {:induction false} EveryStepShrinks(inv: Invoice, op: Operation)
    requires ValidInvoice(inv) && Enabled(inv, op)
    ensures InvoiceMeasure(Apply(inv, op)) < InvoiceMeasure(inv)
  {
    hide InvoiceMeasure, ValidLine, TextEnabled, NumberEnabled, WithLine, ValidHeader, ValidParty, OneRate, LineOptionalOf, LineTextOf;
    match op {
      case RemoveInvoiceNote => HeaderStep(inv, op);
      case RemovePaymentDueDate => HeaderStep(inv, op);
      case ReduceInvoiceText(_, _) => HeaderStep(inv, op);
      case RemovePartyField(_, _) => PartyStep(inv, op);
      case ReducePartyText(_, _, _) => PartyStep(inv, op);
      case RemoveLine(i) => RemovedLine(inv, i);
      case _ => LineStep(inv, op);
    }
  }

  lemma {:induction false} TextIsLong(s: string, op: TextOp)
    requires TextEnabled(s, op)
    ensures |s| >= 2
  {
  }

  lemma {:induction false} HeaderStep(inv: Invoice, op: Operation)
    requires Enabled(inv, op)
    requires op.RemoveInvoiceNote? || op.RemovePaymentDueDate? || op.ReduceInvoiceText?
    ensures InvoiceMeasure(Apply(inv, op)) < InvoiceMeasure(inv)
  {
    hide TextEnabled, PartyMeasure, LineMeasures, Sum;
    if op.ReduceInvoiceText? {
      TextIsLong(InvoiceTextOf(inv, op.field), op.textOp);
    }
  }

  /** Both number reductions strictly simplify: a number that is one is already whole cents. */
  lemma {:induction false} NumberStep(d: Dec, op: NumberOp)
    requires ValidNonNegative(d) && NumberEnabled(d, op)
    ensures NumberRank(Reduced(d, op)) < NumberRank(d)
  {
    hide SameNumber, Quantize;
    OneRank();
    if op == ToCents {
      QuantizeValidated(d);
      var q := Quantize(d, HalfEven).value;
      CentsAreQuantized(q);
      SameNumberReflexive(q);
      if SameNumber(ONE, d) {
        OneIsCents(d);
      }
    }
  }

  lemma {:induction false} OneIsCents(d: Dec)
    requires ValidNonNegative(d) && SameNumber(ONE, d)
    ensures SameNumber(Reduced(d, ToCents), d)
  {
    hide SameNumber, Quantize;
    QuantizeValidated(d);
    assert Pow10(6) == 1_000_000 by { Pow10Add(3, 3); assert Pow10(3) == 1000; }
    SameNumberMicros(ONE, d);
    SameNumberMicros(Quantize(d, HalfEven).value, d);
  }

  lemma {:induction false} OneRank()
    ensures NumberRank(ONE) == 0
  {
    SameNumberReflexive(ONE);
  }

  lemma {:induction false} SameNumberReflexive(d: Dec)
    ensures SameNumber(d, d)
  {
  }

  // ---------------------------------------------------------------- representation

  lemma {:induction false} RankValue(d: Dec)
    requires ValidNonNegative(d)
    ensures NumberRank(d) ==
      if Micros(d) == 1_000_000 then 0
      else if 10_000 * HalfEvenDiv(Micros(d), 10_000) == Micros(d) then 1
      else 2
  {
    hide SameNumber, Quantize;
    QuantizeValidated(d);
    assert Pow10(6) == 1_000_000 by { Pow10Add(3, 3); assert Pow10(3) == 1000; }
    SameNumberMicros(ONE, d);
    SameNumberMicros(Quantize(d, HalfEven).value, d);
  }

  lemma {:induction false} LineMeasureSame(a: Line, b: Line)
    requires ValidLine(a) && ValidLine(b) && SameLine(a, b)
    ensures LineMeasure(a) == LineMeasure(b)
  {
    hide ValidText, NumberRank, SameNumber, InBounds, OptionalWeight;
    RankValue(a.quantity);
    RankValue(b.quantity);
    RankValue(a.price);
    RankValue(b.price);
    SameNumberMicros(a.quantity, b.quantity);
    SameNumberMicros(a.price, b.price);
  }

  /** The measure does not depend on how numbers are represented. */
  lemma {:induction false} MeasureSame(a: Invoice, b: Invoice)
    requires ValidInvoice(a) && ValidInvoice(b) && SameInvoice(a, b)
    ensures InvoiceMeasure(a) == InvoiceMeasure(b)
  {
    hide ValidHeader, ValidParty, ValidLine, OneRate, PartyMeasure, LineMeasure, SameLine;
    forall i | 0 <= i < |a.lines| ensures LineMeasure(a.lines[i]) == LineMeasure(b.lines[i]) {
      LineMeasureSame(a.lines[i], b.lines[i]);
    }
    assert LineMeasures(a.lines) == LineMeasures(b.lines);
  }
}
