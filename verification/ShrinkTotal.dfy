/** When the shrinker cannot raise: writing every candidate succeeds if the VAT rates are modest. */
module ShrinkTotal {
  import opened Basics
  import opened Texts
  import opened Decimals
  import opened Invoices
  import opened Totals
  import opened Trees
  import opened Serialize
  import opened InvoiceRoundTrip
  import opened Reductions
  import opened Enumerate
  import opened Measure
  import opened OneStepReductions
  import opened Shrink
  import opened ShrinkRuns

  predicate Modest(inv: Invoice) {
    AllValid(inv.lines) && ModestRates(inv.lines)
  }

  function RatesOf(lines: seq<Line>): (rates: set<Dec>) {
    set i | 0 <= i < |lines| :: lines[i].vatRate
  }

  lemma {:induction false} ReplacedRates(lines: seq<Line>, i: nat, line: Line)
    requires i < |lines| && line.vatRate == lines[i].vatRate
    ensures RatesOf(lines[i := line]) <= RatesOf(lines)
  {
    var after := lines[i := line];
    forall k | 0 <= k < |after| ensures after[k].vatRate in RatesOf(lines) {
      assert after[k].vatRate == lines[k].vatRate;
    }
  }

  lemma {:induction false} RemovedRates(lines: seq<Line>, i: nat)
    requires i < |lines|
    ensures RatesOf(lines[..i] + lines[i + 1..]) <= RatesOf(lines)
  {
    var rest := lines[..i] + lines[i + 1..];
    forall k | 0 <= k < |rest| ensures rest[k].vatRate in RatesOf(lines) {
      assert rest[k] == lines[if k < i then k else k + 1];
    }
  }

  lemma {:induction false} StepKeepsRates(inv: Invoice, op: Operation)
    requires Enabled(inv, op)
    ensures RatesOf(Apply(inv, op).lines) <= RatesOf(inv.lines)
  {
    hide RatesOf, TextEnabled, NumberEnabled, PartyOptionalOf, PartyTextOf, WithoutPartyOptional, WithPartyText;
    match op {
      case RemoveLine(i) => RemovedRates(inv.lines, i);
      case RemoveLineField(i, f) => ReplacedRates(inv.lines, i, WithoutLineOptional(inv.lines[i], f));
      case RemovePeriod(i) => ReplacedRates(inv.lines, i, inv.lines[i].(periodStart := None, periodEnd := None));
      case RemoveClassification(i) =>
        ReplacedRates(inv.lines, i, inv.lines[i].(classificationCode := None, classificationList := None));
      case ReduceLineText(i, f, t) =>
        TextIsLong(LineTextOf(inv.lines[i], f), t);
        ReplacedRates(inv.lines, i, WithLineText(inv.lines[i], f, ReduceText(LineTextOf(inv.lines[i], f), t)));
      case ReduceNumber(i, f, n) =>
        ReplacedRates(inv.lines, i, WithNumber(inv.lines[i], f, Reduced(NumberOf(inv.lines[i], f), n)));
      case _ =>
    }
  }

  lemma {:induction false} ReductionIsModest(inv: Invoice, r: Reduction)
    requires ValidInvoice(inv) && Modest(inv) && r in OneStep(inv)
    ensures ValidInvoice(r.invoice) && Modest(r.invoice) && SerializeInvoice(r.invoice).Some?
  {
    hide ValidInvoice, ValidLine, Enabled, Apply, OneStep, Document, SumsOf, TotalsFit, InBounds;
    OneStepSound(inv, r);
    StepKeepsRates(inv, r.operation);
    LinesOf(r.invoice);
    LinesOf(inv);
    AtMostHundred(r.invoice);
    ModestFromRates(r.invoice.lines, inv.lines);
    ModestRatesFit(r.invoice.lines);
  }

  lemma {:induction false} AtMostHundred(inv: Invoice)
    requires ValidInvoice(inv)
    ensures |inv.lines| <= 100
  {
  }

  lemma {:induction false} ModestFromRates(a: seq<Line>, b: seq<Line>)
    requires AllValid(a) && AllValid(b) && ModestRates(b) && RatesOf(a) <= RatesOf(b)
    ensures ModestRates(a)
  {
    hide ValidText, ValidPeriod;
    forall i | 0 <= i < |a| ensures Micros(a[i].vatRate) <= MODEST_RATE {
      assert a[i].vatRate in RatesOf(b);
    }
  }

  ghost predicate NeverRaises(o: Oracles) {
    forall n, x :: o.finding(n, x) != Raised
  }

  lemma {:induction false} TryReturns(ts: seq<Trial>, status: map<Element, Status>, asked: seq<Element>, o: Oracles, markTail: bool)
    requires NeverRaises(o)
    ensures !Try(ts, status, asked, o, markTail).Aborted?
  {
    if ts != [] {
      var t := ts[0];
      if !o.valid(t.xml) {
        TryReturns(ts[1..], status[t.xml := Invalid], asked, o, markTail);
      } else if o.finding(|asked|, t.xml) == Lost {
        TryReturns(ts[1..], status[t.xml := LostAt(|asked|)], asked + [t.xml], o, markTail);
      }
    }
  }

  lemma {:induction false} RunReturns(s: State, o: Oracles, markTail: bool)
    requires ValidInvoice(s.current) && Modest(s.current) && NeverRaises(o)
    ensures Run(s, o, markTail).Some?
    decreases InvoiceMeasure(s.current)
  {
    hide ValidInvoice, Modest, SerializeInvoice, InvoiceMeasure, OneStep, NeverRaises, Enabled, Apply;
    var rs := OneStep(s.current);
    forall r | r in rs ensures SerializeInvoice(r.invoice).Some? {
      ReductionIsModest(s.current, r);
    }
    PendingWritten(rs, s.status.Keys);
    var ts := Pending(rs, s.status.Keys).value;
    TryReturns(ts, s.status, s.asked, o, markTail);
    match Try(ts, s.status, s.asked, o, markTail) {
      case Exhausted(_, _) =>
      case Hit(reduction, status, asked) =>
        OneStepSound(s.current, reduction);
        ReductionIsModest(s.current, reduction);
        RunReturns(State(reduction.invoice, s.accepted + [reduction.operation], status, asked), o, markTail);
    }
  }

  /**
   With VAT rates up to 1e7 and a finding check that does not raise, shrinking raises exactly
   when the initial check does: every candidate can be written and the loop ends.
   */
  lemma {:induction false} ShrinkReturns(inv: Invoice, o: Oracles, markTail: bool)
    requires NeverRaises(o) && (ValidInvoice(inv) ==> Modest(inv))
    ensures Shrunk(inv, o, markTail).Some? <==> Begin(inv, o).Some?
  {
    hide ValidInvoice, Modest, OneStep, NeverRaises, Document, SumsOf, TotalsFit, Run;
    if Begin(inv, o).Some? {
      RunReturns(Begin(inv, o).value, o, markTail);
    }
  }
}
