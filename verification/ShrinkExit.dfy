/** Termination, the path taken, and the exact exit state of the shrinker. */
module ShrinkExit {
  import opened Basics
  import opened Invoices
  import opened Totals
  import opened Trees
  import opened Serialize
  import opened InvoiceRoundTrip
  import opened Fingerprint
  import opened Documents
  import opened Reductions
  import opened Enumerate
  import opened Measure
  import opened OneStepReductions
  import opened Shrink
  import opened ShrinkRuns

  // ---------------------------------------------------------------- states of a run

  /** The document belongs to an invoice that is at least as large as m. */
  ghost predicate Visited(x: Element, m: nat) {
    exists inv :: ValidInvoice(inv) && SerializeInvoice(inv) == Some(x) && InvoiceMeasure(inv) >= m
  }

  ghost predicate SettledAbove(status: map<Element, Status>, m: nat) {
    forall x :: x in status && Settled(status[x]) ==> Visited(x, m)
  }

  /** The current invoice is valid, settled, and no larger than anything settled before it. */
  ghost predicate Sound(s: State, o: Oracles) {
    && ValidInvoice(s.current)
    && SerializeInvoice(s.current).Some? && SerializeInvoice(s.current).value in s.status
    && Settled(s.status[SerializeInvoice(s.current).value])
    && Truthful(s.status, s.asked, o)
    && SettledAbove(s.status, InvoiceMeasure(s.current))
  }

  /** Applying the operations in order, each one listed for the invoice it is applied to. */
  ghost predicate Reaches(start: Invoice, ops: seq<Operation>, end: Invoice)
    decreases |ops|
  {
    if ops == [] then start == end
    else Step(start, ops[0]) in OneStep(start) && Reaches(Step(start, ops[0]).invoice, ops[1..], end)
  }

  function FrontierDocs(inv: Invoice): (xs: set<Element>) {
    set r | r in OneStep(inv) && SerializeInvoice(r.invoice).Some? :: SerializeInvoice(r.invoice).value
  }

  /** The documents of all frontiers on the way, before the last invoice. */
  function FrontiersBefore(start: Invoice, ops: seq<Operation>): (xs: set<Element>)
    decreases |ops|
  {
    if ops == [] then {} else FrontierDocs(start) + FrontiersBefore(Step(start, ops[0]).invoice, ops[1..])
  }

  /** The documents that a run puts in the checked set when it accepts ops and stops at end. */
  function CheckedBy(start: Invoice, ops: seq<Operation>, end: Invoice): (xs: set<Element>) {
    (if SerializeInvoice(start).Some? then {SerializeInvoice(start).value} else {})
    + FrontiersBefore(start, ops) + FrontierDocs(end)
  }

  lemma {:induction false} ReachesOn(start: Invoice, ops: seq<Operation>, mid: Invoice, r: Reduction)
    requires Reaches(start, ops, mid) && r in OneStep(mid) && r == Step(mid, r.operation)
    ensures Reaches(start, ops + [r.operation], r.invoice)
    ensures FrontiersBefore(start, ops + [r.operation]) == FrontiersBefore(start, ops) + FrontierDocs(mid)
    decreases |ops|
  {
    hide OneStep, Step, FrontierDocs;
    var more := ops + [r.operation];
    if ops == [] {
      assert more[1..] == [];
    } else {
      assert more[0] == ops[0] && more[1..] == ops[1..] + [r.operation];
      ReachesOn(Step(start, ops[0]).invoice, ops[1..], mid, r);
    }
  }

  /** An accepted path is no longer than the measure goes down on it. */
  lemma {:induction false} ReachesBound(start: Invoice, ops: seq<Operation>, end: Invoice)
    requires ValidInvoice(start) && Reaches(start, ops, end)
    ensures ValidInvoice(end) && |ops| + InvoiceMeasure(end) <= InvoiceMeasure(start)
    decreases |ops|
  {
    hide ValidInvoice, InvoiceMeasure, OneStep, Step, Enabled, Apply;
    if ops != [] {
      OneStepSound(start, Step(start, ops[0]));
      ReachesBound(Step(start, ops[0]).invoice, ops[1..], end);
    }
  }

  lemma {:induction false} BeginIsSound(inv: Invoice, o: Oracles)
    requires Begin(inv, o).Some?
    ensures Sound(Begin(inv, o).value, o)
  {
    hide ValidInvoice, InvoiceMeasure, Document, SumsOf, TotalsFit;
    var xml := SerializeInvoice(inv).value;
    assert Visited(xml, InvoiceMeasure(inv));
  }

  lemma {:induction false} VisitedBelow(x: Element, m: nat, n: nat)
    requires Visited(x, m) && n <= m
    ensures Visited(x, n)
  {
    hide ValidInvoice, SerializeInvoice, InvoiceMeasure;
  }

  /** One accepted candidate leads to a sound, strictly smaller state. */
  lemma {:induction false} HitIsSound(s: State, o: Oracles, markTail: bool, ts: seq<Trial>, reduction: Reduction,
    status: map<Element, Status>, asked: seq<Element>)
    requires Sound(s, o) && Pending(OneStep(s.current), s.status.Keys) == Some(ts)
    requires Try(ts, s.status, s.asked, o, markTail) == Hit(reduction, status, asked)
    ensures reduction in OneStep(s.current) && reduction == Step(s.current, reduction.operation)
    ensures InvoiceMeasure(reduction.invoice) < InvoiceMeasure(s.current)
    ensures Sound(State(reduction.invoice, s.accepted + [reduction.operation], status, asked), o)
    ensures Grows(s.status, status)
  {
    hide ValidInvoice, SerializeInvoice, InvoiceMeasure, Truthful, OneStep, Docs, Fresh, Enabled, Apply, Grows;
    PendingIsFresh(OneStep(s.current), s.status.Keys);
    TryIsHonest(ts, s.status, s.asked, o, markTail);
    OneStepSound(s.current, reduction);
    SettledStaysAbove(s.status, status, reduction.invoice, InvoiceMeasure(s.current));
  }

  lemma {:induction false} SettledStaysAbove(before: map<Element, Status>, after: map<Element, Status>, inv: Invoice, m: nat)
    requires SettledAbove(before, m) && Grows(before, after) && OnlySettles(before, after, inv)
    requires ValidInvoice(inv) && InvoiceMeasure(inv) <= m
    ensures SettledAbove(after, InvoiceMeasure(inv))
  {
    hide ValidInvoice, SerializeInvoice, InvoiceMeasure, Visited;
    forall x | x in after && Settled(after[x]) ensures Visited(x, InvoiceMeasure(inv)) {
      if x in before {
        VisitedBelow(x, m, InvoiceMeasure(inv));
      } else {
        VisitedSelf(x, inv);
      }
    }
  }

  lemma {:induction false} VisitedSelf(x: Element, inv: Invoice)
    requires ValidInvoice(inv) && SerializeInvoice(inv) == Some(x)
    ensures Visited(x, InvoiceMeasure(inv))
  {
    hide ValidInvoice, SerializeInvoice, InvoiceMeasure;
  }

  // ---------------------------------------------------------------- exit

  /** The document of a reduction was tried and rejected, or deferred. */
  ghost predicate Accounted(r: Reduction, status: map<Element, Status>) {
    var xml := SerializeInvoice(r.invoice);
    xml.Some? && xml.value in status && !Settled(status[xml.value])
  }

  ghost predicate Exit(f: State) {
    forall r :: r in OneStep(f.current) ==> Accounted(r, f.status)
  }

  /** A document settled so far is never that of a reduction of the current invoice: it is too large. */
  lemma {:induction false} ReductionIsNew(inv: Invoice, r: Reduction, x: Element)
    requires ValidInvoice(inv) && r in OneStep(inv) && SerializeInvoice(r.invoice) == Some(x)
    ensures !Visited(x, InvoiceMeasure(inv))
  {
    hide ValidInvoice, OneStep, InvoiceMeasure, Document, SumsOf, TotalsFit, SameInvoice, SameSigns, Enabled, Apply;
    OneStepSound(inv, r);
    if other :| ValidInvoice(other) && SerializeInvoice(other) == Some(x) && InvoiceMeasure(other) >= InvoiceMeasure(inv) {
      LinesOf(other);
      LinesOf(r.invoice);
      DocumentInjective(r.invoice, other, SumsOf(r.invoice.lines), SumsOf(other.lines));
      MeasureSame(r.invoice, other);
    }
  }

  lemma {:induction false} ExhaustedExits(s: State, o: Oracles, markTail: bool, ts: seq<Trial>,
    status: map<Element, Status>, asked: seq<Element>)
    requires Sound(s, o) && Pending(OneStep(s.current), s.status.Keys) == Some(ts)
    requires Try(ts, s.status, s.asked, o, markTail) == Exhausted(status, asked)
    ensures var f := s.(status := status, asked := asked); Sound(f, o) && Exit(f) && Grows(s.status, status)
  {
    hide ValidInvoice, SerializeInvoice, InvoiceMeasure, Truthful, OneStep, Docs, Fresh, Visited;
    PendingIsFresh(OneStep(s.current), s.status.Keys);
    TryIsHonest(ts, s.status, s.asked, o, markTail);
    forall r | r in OneStep(s.current) ensures Accounted(r, status) {
      PendingCovers(OneStep(s.current), s.status.Keys, r);
      var x := SerializeInvoice(r.invoice).value;
      assert x in status;
      ReductionIsNew(s.current, r, x);
    }
  }

  /** What a run from s to f guarantees. */
  ghost predicate GoodRun(s: State, f: State, o: Oracles) {
    && Sound(f, o) && Exit(f) && Grows(s.status, f.status)
    && s.accepted <= f.accepted
    && Reaches(s.current, f.accepted[|s.accepted|..], f.current)
    && |f.accepted| + InvoiceMeasure(f.current) <= |s.accepted| + InvoiceMeasure(s.current)
  }

  /**
   Every run: the exit state is sound, every one-step reduction of its invoice is accounted for,
   the accepted operations lead to it in order, and there are no more of them than the measure
   went down.
   */
  lemma {:induction false} RunExits(s: State, o: Oracles, markTail: bool)
    requires Sound(s, o) && ValidInvoice(s.current) && Run(s, o, markTail).Some?
    ensures GoodRun(s, Run(s, o, markTail).value, o)
    decreases InvoiceMeasure(s.current)
  {
    hide ValidInvoice, SerializeInvoice, InvoiceMeasure, Truthful, OneStep, Sound, Exit, Enabled, Apply, GoodRun, Reaches;
    var ts := Pending(OneStep(s.current), s.status.Keys).value;
    match Try(ts, s.status, s.asked, o, markTail) {
      case Exhausted(status, asked) =>
        ExhaustedExits(s, o, markTail, ts, status, asked);
        StillThere(s, s.(status := status, asked := asked), o);
      case Hit(reduction, status, asked) =>
        HitIsSound(s, o, markTail, ts, reduction, status, asked);
        var next := State(reduction.invoice, s.accepted + [reduction.operation], status, asked);
        SoundIsValid(next, o);
        RunExits(next, o, markTail);
        RunContinues(s, reduction, next, Run(next, o, markTail).value, o);
    }
  }

  lemma {:induction false} StillThere(s: State, f: State, o: Oracles)
    requires Sound(f, o) && Exit(f) && Grows(s.status, f.status) && f.current == s.current && f.accepted == s.accepted
    ensures GoodRun(s, f, o)
  {
    hide Sound, Exit, Grows, InvoiceMeasure, OneStep;
    assert s.accepted[|s.accepted|..] == [];
  }

  lemma {:induction false} RunContinues(s: State, reduction: Reduction, next: State, f: State, o: Oracles)
    requires reduction in OneStep(s.current) && reduction == Step(s.current, reduction.operation)
    requires next.current == reduction.invoice && next.accepted == s.accepted + [reduction.operation]
    requires Grows(s.status, next.status) && InvoiceMeasure(next.current) < InvoiceMeasure(s.current)
    requires GoodRun(next, f, o)
    ensures GoodRun(s, f, o)
  {
    hide Sound, Exit, InvoiceMeasure, OneStep, Reaches, Step, Grows;
    GrowsTransitive(s.status, next.status, f.status);
    PathExtends(s, reduction, f);
  }

  lemma {:induction false} SoundIsValid(s: State, o: Oracles)
    requires Sound(s, o)
    ensures ValidInvoice(s.current)
  {
  }

  lemma {:induction false} PathExtends(s: State, reduction: Reduction, f: State)
    requires reduction in OneStep(s.current) && reduction == Step(s.current, reduction.operation)
    requires s.accepted + [reduction.operation] <= f.accepted
    requires Reaches(reduction.invoice, f.accepted[|s.accepted| + 1..], f.current)
    ensures s.accepted <= f.accepted && Reaches(s.current, f.accepted[|s.accepted|..], f.current)
  {
    hide OneStep, Step;
    var path := f.accepted[|s.accepted|..];
    assert f.accepted[|s.accepted|] == (s.accepted + [reduction.operation])[|s.accepted|] == reduction.operation;
    assert path[0] == reduction.operation && path[1..] == f.accepted[|s.accepted| + 1..];
  }

  // ---------------------------------------------------------------- main results

  /**
   shrink_invoice: whenever it returns, the result is valid and preserved the finding when it was
   tried; the accepted operations lead from the start to it; the bookkeeping is honest; every
   one-step reduction of the result was tried and rejected or is deferred; and the number of
   accepted steps is bounded by the drop of the measure.
   */
  lemma {:induction false} ShrinkResult(inv: Invoice, o: Oracles, markTail: bool)
    requires Shrunk(inv, o, markTail).Some?
    ensures var f := Shrunk(inv, o, markTail).value;
      && Sound(f, o) && Exit(f)
      && Reaches(inv, f.accepted, f.current)
      && |f.accepted| + InvoiceMeasure(f.current) <= InvoiceMeasure(inv)
      && ShownFinding(f, o)
  {
    hide ValidInvoice, SerializeInvoice, InvoiceMeasure, Truthful, OneStep, Exit, Enabled, Apply;
    BeginIsSound(inv, o);
    SoundIsValid(Begin(inv, o).value, o);
    RunExits(Begin(inv, o).value, o, markTail);
    var f := Shrunk(inv, o, markTail).value;
    assert f.accepted[0..] == f.accepted;
    SettledShown(f, o);
  }

  /** The document of the result is valid and preserved the finding at the call recorded for it. */
  ghost predicate ShownFinding(f: State, o: Oracles) {
    exists n: nat :: n < |f.asked| && SerializeInvoice(f.current) == Some(f.asked[n])
      && o.valid(f.asked[n]) && o.finding(n, f.asked[n]) == Preserved
  }

  lemma {:induction false} SettledShown(f: State, o: Oracles)
    requires Sound(f, o)
    ensures ShownFinding(f, o)
  {
    hide ValidInvoice, SerializeInvoice, InvoiceMeasure, SettledAbove;
    var x := SerializeInvoice(f.current).value;
    assert Honest(x, f.status[x], f.status, f.asked, o);
    var n := if f.status[x].Start? then 0 else f.status[x].call;
    assert f.asked[n] == x;
  }

  /** A finding check that answers by the document alone, and never raises. */
  ghost predicate Functional(o: Oracles, preserves: Element -> bool) {
    forall n, x :: o.finding(n, x) == if preserves(x) then Preserved else Lost
  }

  /** No declared one-step reduction is both valid and preserving. */
  ghost predicate OneMinimal(inv: Invoice, valid: Element -> bool, preserves: Element -> bool) {
    forall r :: r in OneStep(inv) && SerializeInvoice(r.invoice).Some? ==>
      !(valid(SerializeInvoice(r.invoice).value) && preserves(SerializeInvoice(r.invoice).value))
  }

  /** A reduction of the result that was never tried, and would have been accepted. */
  ghost predicate Missed(f: State, r: Reduction, valid: Element -> bool, preserves: Element -> bool) {
    var xml := SerializeInvoice(r.invoice);
    && r in OneStep(f.current) && xml.Some? && xml.value in f.status && f.status[xml.value].DeferredBehind?
    && valid(xml.value) && preserves(xml.value)
  }

  lemma {:induction false} RejectedIsNoWitness(f: State, o: Oracles, preserves: Element -> bool, x: Element)
    requires Truthful(f.status, f.asked, o) && Functional(o, preserves)
    requires x in f.status && Rejected(f.status[x])
    ensures !(o.valid(x) && preserves(x))
  {
    assert Honest(x, f.status[x], f.status, f.asked, o);
  }

  /**
   With a finding check that depends on the document only, the result is 1-minimal exactly when
   no deferred reduction was missed.
   */
  lemma {:induction false} MinimalUnlessMissed(inv: Invoice, o: Oracles, preserves: Element -> bool, markTail: bool)
    requires Functional(o, preserves) && Shrunk(inv, o, markTail).Some?
    ensures var f := Shrunk(inv, o, markTail).value;
      OneMinimal(f.current, o.valid, preserves) <==> !exists r :: Missed(f, r, o.valid, preserves)
  {
    hide ValidInvoice, SerializeInvoice, InvoiceMeasure, OneStep, Truthful, SettledAbove, Shrunk, Reaches, ShownFinding, Functional;
    ShrinkResult(inv, o, markTail);
    var f := Shrunk(inv, o, markTail).value;
    forall r | r in OneStep(f.current)
      ensures o.valid(SerializeInvoice(r.invoice).value) && preserves(SerializeInvoice(r.invoice).value)
              <==> Missed(f, r, o.valid, preserves)
    {
      assert Accounted(r, f.status);
      var x := SerializeInvoice(r.invoice).value;
      if Rejected(f.status[x]) {
        RejectedIsNoWitness(f, o, preserves, x);
      }
    }
  }

  // ---------------------------------------------------------------- the variant without deferral

  predicate NothingDeferred(status: map<Element, Status>) {
    forall x :: x in status ==> !status[x].DeferredBehind?
  }

  lemma {:induction false} TryDefersNothing(ts: seq<Trial>, status: map<Element, Status>, asked: seq<Element>, o: Oracles)
    requires NothingDeferred(status)
    ensures var r := Try(ts, status, asked, o, false);
      r.Aborted? || NothingDeferred(r.status)
  {
    if ts != [] {
      var t := ts[0];
      if !o.valid(t.xml) {
        TryDefersNothing(ts[1..], status[t.xml := Invalid], asked, o);
      } else if o.finding(|asked|, t.xml) == Lost {
        TryDefersNothing(ts[1..], status[t.xml := LostAt(|asked|)], asked + [t.xml], o);
      }
    }
  }

  lemma {:induction false} RunDefersNothing(s: State, o: Oracles)
    requires ValidInvoice(s.current) && NothingDeferred(s.status) && Run(s, o, false).Some?
    ensures NothingDeferred(Run(s, o, false).value.status)
    decreases InvoiceMeasure(s.current)
  {
    hide ValidInvoice, SerializeInvoice, InvoiceMeasure, OneStep, NothingDeferred, Enabled, Apply;
    var ts := Pending(OneStep(s.current), s.status.Keys).value;
    TryDefersNothing(ts, s.status, s.asked, o);
    match Try(ts, s.status, s.asked, o, false) {
      case Exhausted(_, _) =>
      case Hit(reduction, status, asked) =>
        OneStepSound(s.current, reduction);
        RunDefersNothing(State(reduction.invoice, s.accepted + [reduction.operation], status, asked), o);
    }
  }

  /** If only tried candidates joined the checked set, every result would be 1-minimal. */
  lemma {:induction false} VariantIsMinimal(inv: Invoice, o: Oracles, preserves: Element -> bool)
    requires Functional(o, preserves) && Shrunk(inv, o, false).Some?
    ensures OneMinimal(Shrunk(inv, o, false).value.current, o.valid, preserves)
  {
    hide ValidInvoice, InvoiceMeasure, OneStep, Functional, OneMinimal, Document, SumsOf, TotalsFit;
    RunDefersNothing(Begin(inv, o).value, o);
    MinimalUnlessMissed(inv, o, preserves, false);
  }
}
