/**
 The path of accepted invoices, seen without the bookkeeping: with a finding check that depends on
 the document only, every round accepts the first document that the oracles accept and that no
 earlier frontier offered.
 */
module ShrinkGreedy {
  import opened Basics
  import opened Invoices
  import opened Trees
  import opened Serialize
  import opened InvoiceRoundTrip
  import opened Totals
  import opened Fingerprint
  import opened Documents
  import opened Reductions
  import opened Enumerate
  import opened Measure
  import opened OneStepReductions
  import opened Shrink
  import opened ShrinkRuns
  import opened ShrinkExit

  // ---------------------------------------------------------------- frontiers

  /** The invoice can be written, as document x. */
  predicate IsDoc(inv: Invoice, x: Element) {
    SerializeInvoice(inv) == Some(x)
  }

  /** Document x is that of a one-step reduction of inv. */
  ghost predicate Offers(inv: Invoice, x: Element) {
    exists i: nat :: OffersAt(inv, i, x)
  }

  /** It is the i-th one. */
  ghost predicate OffersAt(inv: Invoice, i: nat, x: Element) {
    i < |OneStep(inv)| && IsDoc(OneStep(inv)[i].invoice, x)
  }

  /** The i-th one-step reduction of p is the invoice q. */
  ghost predicate LeadsTo(p: Invoice, i: nat, q: Invoice) {
    i < |OneStep(p)| && OneStep(p)[i].invoice == q
  }

  ghost predicate FrontierWritten(inv: Invoice) {
    forall r :: r in OneStep(inv) ==> SerializeInvoice(r.invoice).Some?
  }

  lemma {:induction false} SameDocument(a: Invoice, b: Invoice, x: Element)
    requires IsDoc(a, x) && IsDoc(b, x)
    ensures ValidInvoice(a) && ValidInvoice(b) && SameInvoice(a, b) && Payload(a) == Payload(b)
    ensures InvoiceMeasure(a) == InvoiceMeasure(b)
  {
    hide ValidInvoice, InvoiceMeasure, Document, SumsOf, TotalsFit, SameInvoice, SameSigns, Payload;
    LinesOf(a);
    LinesOf(b);
    DocumentInjective(a, b, SumsOf(a.lines), SumsOf(b.lines));
    MeasureSame(a, b);
    FingerprintsAgree(a, b);
  }

  /** A document occurs at most once in a frontier. */
  lemma {:induction false} OfferedOnce(inv: Invoice, i: nat, j: nat, x: Element)
    requires OffersAt(inv, i, x) && OffersAt(inv, j, x)
    ensures i == j
  {
    hide ValidInvoice, SerializeInvoice, InvoiceMeasure, RawReductions, KeepNew, Payload, SameInvoice;
    KeptAreNew(RawReductions(inv), {Payload(inv)});
    SameDocument(OneStep(inv)[i].invoice, OneStep(inv)[j].invoice, x);
  }

  /** An offered document is that of a strictly simpler invoice. */
  lemma {:induction false} OfferedIsSmaller(inv: Invoice, x: Element, other: Invoice)
    requires ValidInvoice(inv) && Offers(inv, x) && IsDoc(other, x)
    ensures ValidInvoice(other) && InvoiceMeasure(other) < InvoiceMeasure(inv)
  {
    hide ValidInvoice, IsDoc, InvoiceMeasure, OneStep, Enabled, Apply, SameInvoice, Payload;
    var i: nat :| OffersAt(inv, i, x);
    var r := OneStep(inv)[i];
    assert r in OneStep(inv);
    OneStepSound(inv, r);
    SameDocument(r.invoice, other, x);
  }

  lemma {:induction false} LeadsDown(p: Invoice, i: nat, q: Invoice)
    requires ValidInvoice(p) && LeadsTo(p, i, q)
    ensures ValidInvoice(q) && InvoiceMeasure(q) < InvoiceMeasure(p)
  {
    hide ValidInvoice, InvoiceMeasure, OneStep, Enabled, Apply;
    OneStepSound(p, OneStep(p)[i]);
  }

  // ---------------------------------------------------------------- one round as one choice

  /** Position i holds the first document that is new and accepted. */
  ghost predicate ChosenAt(rs: seq<Reduction>, i: nat, checked: set<Element>, accepts: Element -> bool) {
    && i < |rs| && Takes(rs[i], checked, accepts)
    && forall j :: 0 <= j < i ==> !Takes(rs[j], checked, accepts)
  }

  ghost predicate Takes(r: Reduction, checked: set<Element>, accepts: Element -> bool) {
    var xml := SerializeInvoice(r.invoice);
    xml.Some? && xml.value !in checked && accepts(xml.value)
  }

  ghost predicate TakesNone(rs: seq<Reduction>, checked: set<Element>, accepts: Element -> bool) {
    forall r :: r in rs ==> !Takes(r, checked, accepts)
  }

  function Both(valid: Element -> bool, preserves: Element -> bool): (accepts: Element -> bool) {
    x => valid(x) && preserves(x)
  }

  /** Trying the pending candidates of a frontier accepts what ChosenAt says. */
  ghost predicate TriesAs(rs: seq<Reduction>, checked: set<Element>, accepts: Element -> bool, r: Tried) {
    match r
    case Aborted => false
    case Exhausted(_, _) => TakesNone(rs, checked, accepts)
    case Hit(reduction, _, _) => exists i: nat :: ChosenAt(rs, i, checked, accepts) && rs[i] == reduction
  }

  lemma {:induction false} TriesRest(rs: seq<Reduction>, checked: set<Element>, more: set<Element>, accepts: Element -> bool, r: Tried)
    requires rs != [] && !Takes(rs[0], checked, accepts)
    requires checked <= more && forall x :: x in more && x !in checked ==> !accepts(x)
    requires TriesAs(rs[1..], more, accepts, r)
    ensures TriesAs(rs, checked, accepts, r)
  {
    hide SerializeInvoice, Takes;
    forall q | q in rs[1..] ensures Takes(q, more, accepts) <==> Takes(q, checked, accepts) {
      TakesEither(q, checked, more, accepts);
    }
    match r {
      case Exhausted(_, _) =>
        forall q | q in rs ensures !Takes(q, checked, accepts) {
          if q != rs[0] {
            assert q in rs[1..];
          }
        }
      case Hit(reduction, _, _) =>
        var i: nat :| ChosenAt(rs[1..], i, more, accepts) && rs[1..][i] == reduction;
        assert rs[i + 1] == rs[1..][i];
        forall j | 0 <= j < i + 1 ensures !Takes(rs[j], checked, accepts) {
          if j > 0 {
            assert rs[j] == rs[1..][j - 1];
          }
        }
        assert ChosenAt(rs, i + 1, checked, accepts);
    }
  }

  lemma {:induction false} TakesEither(r: Reduction, checked: set<Element>, more: set<Element>, accepts: Element -> bool)
    requires checked <= more && forall x :: x in more && x !in checked ==> !accepts(x)
    ensures Takes(r, more, accepts) <==> Takes(r, checked, accepts)
  {
    hide SerializeInvoice;
  }

  lemma {:induction false} TryChooses(rs: seq<Reduction>, checked: set<Element>, status: map<Element, Status>, asked: seq<Element>,
    o: Oracles, preserves: Element -> bool, markTail: bool)
    requires Functional(o, preserves) && Pending(rs, checked).Some?
    ensures TriesAs(rs, checked, Both(o.valid, preserves), Try(Pending(rs, checked).value, status, asked, o, markTail))
  {
    hide SerializeInvoice, HitStatus, TriesAs, Functional;
    var accepts := Both(o.valid, preserves);
    var ts := Pending(rs, checked).value;
    if rs == [] {
      ChoosesNothing(checked, accepts, status, asked);
    } else {
      var xml := SerializeInvoice(rs[0].invoice).value;
      if xml in checked {
        TryChooses(rs[1..], checked, status, asked, o, preserves, markTail);
        TriesRest(rs, checked, checked, accepts, Try(ts, status, asked, o, markTail));
      } else {
        var more := checked + {xml};
        var rest := Pending(rs[1..], more).value;
        assert ts[0] == Trial(rs[0], xml) && ts[1..] == rest;
        AnswersBy(o, preserves, |asked|, xml);
        if !o.valid(xml) {
          TryChooses(rs[1..], more, status[xml := Invalid], asked, o, preserves, markTail);
          TriesRest(rs, checked, more, accepts, Try(ts, status, asked, o, markTail));
        } else if !preserves(xml) {
          TryChooses(rs[1..], more, status[xml := LostAt(|asked|)], asked + [xml], o, preserves, markTail);
          TriesRest(rs, checked, more, accepts, Try(ts, status, asked, o, markTail));
        } else {
          ChoosesFirst(rs, checked, accepts, Try(ts, status, asked, o, markTail));
        }
      }
    }
  }

  lemma {:induction false} AnswersBy(o: Oracles, preserves: Element -> bool, n: nat, x: Element)
    requires Functional(o, preserves)
    ensures o.finding(n, x) == if preserves(x) then Preserved else Lost
  {
  }

  lemma {:induction false} ChoosesNothing(checked: set<Element>, accepts: Element -> bool, status: map<Element, Status>, asked: seq<Element>)
    ensures TriesAs([], checked, accepts, Exhausted(status, asked))
  {
  }

  lemma {:induction false} ChoosesFirst(rs: seq<Reduction>, checked: set<Element>, accepts: Element -> bool, r: Tried)
    requires rs != [] && Takes(rs[0], checked, accepts) && r.Hit? && r.reduction == rs[0]
    ensures TriesAs(rs, checked, accepts, r)
  {
    hide Takes;
    assert ChosenAt(rs, 0, checked, accepts);
  }

  lemma {:induction false} HitChosen(rs: seq<Reduction>, checked: set<Element>, accepts: Element -> bool, r: Tried) returns (i: nat)
    requires TriesAs(rs, checked, accepts, r) && r.Hit?
    ensures ChosenAt(rs, i, checked, accepts) && i < |rs| && rs[i] == r.reduction
  {
    hide Takes;
    i :| ChosenAt(rs, i, checked, accepts) && rs[i] == r.reduction;
  }

  lemma {:induction false} ExhaustedTakesNone(rs: seq<Reduction>, checked: set<Element>, accepts: Element -> bool, r: Tried)
    requires TriesAs(rs, checked, accepts, r)
    ensures !r.Aborted? && (r.Exhausted? ==> TakesNone(rs, checked, accepts))
  {
    hide Takes;
  }

  lemma {:induction false} ChosenOnce(rs: seq<Reduction>, i: nat, j: nat, checked: set<Element>, accepts: Element -> bool)
    requires ChosenAt(rs, i, checked, accepts) && ChosenAt(rs, j, checked, accepts)
    ensures i == j
  {
    hide Takes;
  }

  lemma {:induction false} PendingDocs(rs: seq<Reduction>, checked: set<Element>, x: Element)
    requires Pending(rs, checked).Some?
    ensures x in checked + Docs(Pending(rs, checked).value) <==> x in checked || exists r :: r in rs && IsDoc(r.invoice, x)
  {
    hide SerializeInvoice, Docs;
    var ts := Pending(rs, checked).value;
    if r :| r in rs && IsDoc(r.invoice, x) {
      PendingCovers(rs, checked, r);
    }
    if x in Docs(ts) {
      DocsAre(ts, x);
      var t :| t in ts && t.xml == x;
      assert IsDoc(t.reduction.invoice, x);
    }
  }

  lemma {:induction false} DocsAre(ts: seq<Trial>, x: Element)
    ensures x in Docs(ts) <==> exists t :: t in ts && t.xml == x
  {
  }

  lemma {:induction false} PendingNeedsAll(rs: seq<Reduction>, checked: set<Element>)
    ensures Pending(rs, checked).Some? <==> forall r :: r in rs ==> SerializeInvoice(r.invoice).Some?
  {
    hide SerializeInvoice;
    if forall r :: r in rs ==> SerializeInvoice(r.invoice).Some? {
      PendingWritten(rs, checked);
    } else {
      var r :| r in rs && SerializeInvoice(r.invoice).None?;
      if Pending(rs, checked).Some? {
        PendingCovers(rs, checked, r);
      }
    }
  }

  // ---------------------------------------------------------------- greedy paths

  /** The documents in the checked set when the run has reached the end of the path. */
  ghost predicate Known(path: seq<Invoice>, x: Element)
    requires path != []
  {
    IsDoc(path[0], x) || exists l :: 0 <= l < |path| - 1 && Offers(path[l], x)
  }

  /** The i-th reduction of the last invoice is the first one that is new and accepted. */
  ghost predicate Picks(path: seq<Invoice>, i: nat, accepts: Element -> bool)
    requires path != []
  {
    var rs := OneStep(path[|path| - 1]);
    && i < |rs| && New(path, rs[i].invoice, accepts)
    && forall j :: 0 <= j < i ==> !New(path, rs[j].invoice, accepts)
  }

  /** The invoice has an accepted document that is not in the checked set yet. */
  ghost predicate New(path: seq<Invoice>, inv: Invoice, accepts: Element -> bool)
    requires path != []
  {
    exists x :: IsDoc(inv, x) && !Known(path, x) && accepts(x)
  }

  /** Step l of the path is what the loop does there. */
  ghost predicate GreedyStep(path: seq<Invoice>, l: nat, accepts: Element -> bool)
    requires l + 1 < |path|
  {
    Advances(path[..l + 1], path[l + 1], accepts)
  }

  ghost predicate Advances(path: seq<Invoice>, next: Invoice, accepts: Element -> bool)
    requires path != []
  {
    FrontierWritten(path[|path| - 1]) && exists i: nat :: PicksNext(path, i, next, accepts)
  }

  ghost predicate PicksNext(path: seq<Invoice>, i: nat, next: Invoice, accepts: Element -> bool)
    requires path != []
  {
    Picks(path, i, accepts) && LeadsTo(path[|path| - 1], i, next)
  }

  ghost predicate Greedy(path: seq<Invoice>, accepts: Element -> bool) {
    forall l: nat :: l + 1 < |path| ==> GreedyStep(path, l, accepts)
  }

  /** Nothing new and accepted is left at the end. */
  ghost predicate Stuck(path: seq<Invoice>, accepts: Element -> bool)
    requires path != []
  {
    var last := path[|path| - 1];
    FrontierWritten(last) && forall r :: r in OneStep(last) ==> !New(path, r.invoice, accepts)
  }

  /** The state of the loop when it has followed the path. */
  ghost predicate At(s: State, path: seq<Invoice>)
    requires path != []
  {
    && s.current == path[|path| - 1] && ValidInvoice(s.current)
    && forall x :: x in s.status.Keys <==> Known(path, x)
  }

  lemma {:induction false} TakesIsNew(s: State, path: seq<Invoice>, r: Reduction, accepts: Element -> bool)
    requires path != [] && At(s, path)
    ensures Takes(r, s.status.Keys, accepts) <==> New(path, r.invoice, accepts)
  {
    hide SerializeInvoice, ValidInvoice, Known;
  }

  lemma {:induction false} ChosenIsPicked(s: State, path: seq<Invoice>, i: nat, accepts: Element -> bool)
    requires path != [] && At(s, path)
    ensures ChosenAt(OneStep(s.current), i, s.status.Keys, accepts) <==> Picks(path, i, accepts)
  {
    hide SerializeInvoice, ValidInvoice, OneStep, Known, Takes, New, At;
    assert s.current == path[|path| - 1] by { AtLast(s, path); }
    forall r | r in OneStep(s.current) ensures Takes(r, s.status.Keys, accepts) <==> New(path, r.invoice, accepts) {
      TakesIsNew(s, path, r, accepts);
    }
  }

  lemma {:induction false} AtLast(s: State, path: seq<Invoice>)
    requires path != [] && At(s, path)
    ensures s.current == path[|path| - 1] && ValidInvoice(s.current)
  {
  }

  lemma {:induction false} NoneIsStuck(s: State, path: seq<Invoice>, accepts: Element -> bool)
    requires path != [] && At(s, path)
    ensures FrontierWritten(s.current) && TakesNone(OneStep(s.current), s.status.Keys, accepts) <==> Stuck(path, accepts)
  {
    hide SerializeInvoice, ValidInvoice, OneStep, Known, Takes, New, At;
    assert s.current == path[|path| - 1] by { AtLast(s, path); }
    forall r | r in OneStep(s.current) ensures Takes(r, s.status.Keys, accepts) <==> New(path, r.invoice, accepts) {
      TakesIsNew(s, path, r, accepts);
    }
  }

  /** After an accepted step the state is at the longer path. */
  lemma {:induction false} StepsAt(s: State, path: seq<Invoice>, next: Invoice, i: nat, status: map<Element, Status>, f: State)
    requires path != [] && At(s, path) && LeadsTo(s.current, i, next)
    requires Pending(OneStep(s.current), s.status.Keys).Some?
    requires status.Keys == s.status.Keys + Docs(Pending(OneStep(s.current), s.status.Keys).value)
    requires f.current == next && f.status == status
    ensures At(f, path + [next])
  {
    hide SerializeInvoice, ValidInvoice, OneStep, Docs, IsDoc;
    LeadsDown(s.current, i, next);
    forall x ensures x in status.Keys <==> Known(path + [next], x) {
      PendingDocs(OneStep(s.current), s.status.Keys, x);
      KnownGrows(path, next, x);
    }
  }

  lemma {:induction false} KnownGrows(path: seq<Invoice>, next: Invoice, x: Element)
    requires path != []
    ensures Known(path + [next], x) <==> Known(path, x) || exists r :: r in OneStep(path[|path| - 1]) && IsDoc(r.invoice, x)
  {
    hide IsDoc, OneStep;
    var more, last := path + [next], path[|path| - 1];
    assert forall l :: 0 <= l < |path| ==> more[l] == path[l];
    if r :| r in OneStep(last) && IsDoc(r.invoice, x) {
      var i :| 0 <= i < |OneStep(last)| && OneStep(last)[i] == r;
      assert OffersAt(last, i, x);
      assert Offers(more[|path| - 1], x);
    }
    if l :| 0 <= l < |more| - 1 && Offers(more[l], x) {
      if l == |path| - 1 {
        var i: nat :| OffersAt(last, i, x);
        assert OneStep(last)[i] in OneStep(last);
      } else {
        assert Offers(path[l], x);
      }
    }
    if l :| 0 <= l < |path| - 1 && Offers(path[l], x) {
      assert Offers(more[l], x);
    }
  }

  /** The path that the run has followed stays greedy with one more accepted invoice. */
  lemma {:induction false} GreedyGrows(path: seq<Invoice>, next: Invoice, i: nat, accepts: Element -> bool)
    requires path != [] && Greedy(path, accepts) && FrontierWritten(path[|path| - 1])
    requires Picks(path, i, accepts) && LeadsTo(path[|path| - 1], i, next)
    ensures Greedy(path + [next], accepts)
  {
    hide Picks, LeadsTo, FrontierWritten;
    var more := path + [next];
    forall l: nat | l + 1 < |more| ensures GreedyStep(more, l, accepts) {
      if l + 1 == |path| {
        assert more[..l + 1] == path;
        assert PicksNext(path, i, next, accepts);
      } else {
        assert GreedyStep(path, l, accepts);
        assert more[..l + 1] == path[..l + 1];
      }
    }
  }

  /** Every run follows a greedy path until it is stuck. */
  lemma {:induction false} RunFollows(s: State, o: Oracles, preserves: Element -> bool, path: seq<Invoice>) returns (full: seq<Invoice>)
    requires Functional(o, preserves) && ValidInvoice(s.current) && Run(s, o, true).Some?
    requires path != [] && At(s, path) && Greedy(path, Both(o.valid, preserves))
    ensures path <= full && Greedy(full, Both(o.valid, preserves)) && Stuck(full, Both(o.valid, preserves))
    ensures full[|full| - 1] == Run(s, o, true).value.current
    decreases InvoiceMeasure(s.current)
  {
    hide ValidInvoice, SerializeInvoice, InvoiceMeasure, OneStep, Pending, Try, Functional, At, Greedy, Stuck, Picks, TakesNone, Both, Enabled, Apply,
      TriesAs, ChosenAt;
    var accepts, rs := Both(o.valid, preserves), OneStep(s.current);
    AtLast(s, path);
    PendingNeedsAll(rs, s.status.Keys);
    var ts := Pending(rs, s.status.Keys).value;
    TryChooses(rs, s.status.Keys, s.status, s.asked, o, preserves, true);
    TryKeys(ts, s.status, s.asked, o);
    ExhaustedTakesNone(rs, s.status.Keys, accepts, Try(ts, s.status, s.asked, o, true));
    match Try(ts, s.status, s.asked, o, true) {
      case Exhausted(_, _) =>
        full := path;
        NoneIsStuck(s, path, accepts);
      case Hit(reduction, status, asked) =>
        var i := HitChosen(rs, s.status.Keys, accepts, Hit(reduction, status, asked));
        ChosenIsPicked(s, path, i, accepts);
        var next := State(reduction.invoice, s.accepted + [reduction.operation], status, asked);
        LeadsDown(s.current, i, reduction.invoice);
        GreedyGrows(path, reduction.invoice, i, accepts);
        StepsAt(s, path, reduction.invoice, i, status, next);
        full := RunFollows(next, o, preserves, path + [reduction.invoice]);
        assert path <= path + [reduction.invoice];
    }
  }

  /** And a greedy path that is stuck at its end is followed by the run. */
  lemma {:induction false} FollowsRun(s: State, o: Oracles, preserves: Element -> bool, path: seq<Invoice>, full: seq<Invoice>)
    requires Functional(o, preserves) && ValidInvoice(s.current)
    requires path != [] && path <= full && At(s, path)
    requires Greedy(full, Both(o.valid, preserves)) && Stuck(full, Both(o.valid, preserves))
    ensures Run(s, o, true).Some? && Run(s, o, true).value.current == full[|full| - 1]
    decreases InvoiceMeasure(s.current)
  {
    hide ValidInvoice, SerializeInvoice, InvoiceMeasure, OneStep, Pending, Try, Functional, At, Stuck, Picks, TakesNone, TriesAs, Both, Enabled, Apply,
      ChosenAt;
    var accepts, rs := Both(o.valid, preserves), OneStep(s.current);
    AtLast(s, path);
    FrontierOn(path, full, accepts);
    PendingNeedsAll(rs, s.status.Keys);
    var ts := Pending(rs, s.status.Keys).value;
    TryChooses(rs, s.status.Keys, s.status, s.asked, o, preserves, true);
    TryKeys(ts, s.status, s.asked, o);
    var tried := Try(ts, s.status, s.asked, o, true);
    if |path| == |full| {
      assert path == full;
      NoneIsStuck(s, path, accepts);
      NoneTaken(rs, s.status.Keys, accepts, tried);
    } else {
      var l := |path| - 1;
      assert GreedyStep(full, l, accepts);
      assert full[..l + 1] == path;
      var i: nat :| PicksNext(full[..l + 1], i, full[l + 1], accepts);
      ChosenIsPicked(s, path, i, accepts);
      OneTaken(rs, i, s.status.Keys, accepts, tried);
      var next := State(tried.reduction.invoice, s.accepted + [tried.reduction.operation], tried.status, tried.asked);
      LeadsDown(s.current, i, tried.reduction.invoice);
      StepsAt(s, path, tried.reduction.invoice, i, tried.status, next);
      assert path + [tried.reduction.invoice] == full[..l + 2];
      FollowsRun(next, o, preserves, path + [tried.reduction.invoice], full);
    }
  }

  lemma {:induction false} FrontierOn(path: seq<Invoice>, full: seq<Invoice>, accepts: Element -> bool)
    requires path != [] && path <= full && Greedy(full, accepts) && Stuck(full, accepts)
    ensures FrontierWritten(path[|path| - 1])
  {
    hide FrontierWritten, Picks, LeadsTo, New;
    if |path| < |full| {
      assert GreedyStep(full, |path| - 1, accepts);
    }
  }

  lemma {:induction false} NoneTaken(rs: seq<Reduction>, checked: set<Element>, accepts: Element -> bool, r: Tried)
    requires TriesAs(rs, checked, accepts, r) && TakesNone(rs, checked, accepts)
    ensures r.Exhausted?
  {
    hide Takes;
  }

  lemma {:induction false} OneTaken(rs: seq<Reduction>, i: nat, checked: set<Element>, accepts: Element -> bool, r: Tried)
    requires TriesAs(rs, checked, accepts, r) && ChosenAt(rs, i, checked, accepts)
    ensures r.Hit? && r.reduction == rs[i]
  {
    hide Takes;
    assert rs[i] in rs;
    if r.Hit? {
      var j: nat :| ChosenAt(rs, j, checked, accepts) && rs[j] == r.reduction;
      ChosenOnce(rs, i, j, checked, accepts);
    }
  }

  lemma {:induction false} BeginsAt(inv: Invoice, o: Oracles, preserves: Element -> bool)
    requires Functional(o, preserves)
    ensures Begin(inv, o).Some? <==> exists x :: IsDoc(inv, x) && Both(o.valid, preserves)(x)
    ensures Begin(inv, o).Some? ==> At(Begin(inv, o).value, [inv]) && ValidInvoice(Begin(inv, o).value.current)
  {
    hide ValidInvoice, Document, SumsOf, TotalsFit, OneStep, Functional;
    var xml := SerializeInvoice(inv);
    if xml.Some? {
      AnswersBy(o, preserves, 0, xml.value);
      assert IsDoc(inv, xml.value);
    }
    if Begin(inv, o).Some? {
      var s := Begin(inv, o).value;
      forall x ensures x in s.status.Keys <==> Known([inv], x) {
      }
    }
  }

  /** A greedy path from inv to end that is stuck there, with an accepted start. */
  ghost predicate GreedyTo(inv: Invoice, path: seq<Invoice>, end: Invoice, accepts: Element -> bool) {
    && path != [] && path[0] == inv && path[|path| - 1] == end
    && (exists x :: IsDoc(inv, x) && accepts(x))
    && Greedy(path, accepts) && Stuck(path, accepts)
  }

  /**
   With a finding check that depends on the document only, the shrinker returns an invoice if and
   only if a greedy path leads from the start to it.
   */
  lemma {:induction false} ShrinkIsGreedy(inv: Invoice, o: Oracles, preserves: Element -> bool, end: Invoice)
    requires Functional(o, preserves)
    ensures Shrunk(inv, o, true).Some? && Shrunk(inv, o, true).value.current == end
        <==> exists path :: GreedyTo(inv, path, end, Both(o.valid, preserves))
  {
    hide ValidInvoice, Greedy, Stuck, At, Functional, Both, Begin, Run;
    var accepts := Both(o.valid, preserves);
    BeginsAt(inv, o, preserves);
    if Shrunk(inv, o, true).Some? && Shrunk(inv, o, true).value.current == end {
      GreedyAlone(inv, accepts);
      var path := RunFollows(Begin(inv, o).value, o, preserves, [inv]);
      assert path[0] == inv;
      assert GreedyTo(inv, path, end, accepts);
    }
    if path :| GreedyTo(inv, path, end, accepts) {
      assert [inv] <= path;
      FollowsRun(Begin(inv, o).value, o, preserves, [inv], path);
    }
  }

  lemma {:induction false} GreedyAlone(inv: Invoice, accepts: Element -> bool)
    ensures Greedy([inv], accepts)
  {
  }
}
