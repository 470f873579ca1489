/**
 When the shrinker can miss a reduction, stated about the reduction graph alone. A skip is a path
 without short cuts on which some document is first offered behind the step the path takes, and is
 offered again at the end of the path. An invoice is shrunk to a 1-minimal one under every pair of
 oracles exactly when no skip starts at it.
 */
module ShrinkSkips {
  import opened Basics
  import opened Invoices
  import opened Trees
  import opened Serialize
  import opened Fingerprint
  import opened Reductions
  import opened Enumerate
  import opened Measure
  import opened Shrink
  import opened ShrinkRuns
  import opened ShrinkExit
  import opened ShrinkGreedy

  /** Each invoice of the path is a one-step reduction of the one before. */
  ghost predicate Linked(path: seq<Invoice>) {
    forall l: nat :: l + 1 < |path| ==> Link(path[l], path[l + 1])
  }

  ghost predicate Link(p: Invoice, q: Invoice) {
    SerializeInvoice(q).Some? && exists i: nat :: LeadsTo(p, i, q)
  }

  /** No invoice of the path can be reached from an earlier one in one step, except from the one before it. */
  ghost predicate NoShortCut(path: seq<Invoice>) {
    forall l: nat, n: nat, x :: l + 1 < n < |path| && IsDoc(path[n], x) ==> !Offers(path[l], x)
  }

  /** The frontier of p offers y behind q. */
  ghost predicate OffersBehind(p: Invoice, q: Invoice, y: Element) {
    exists i: nat, j: nat :: i < j && LeadsTo(p, i, q) && OffersAt(p, j, y)
  }

  /** Document y is offered for the first time by path[k], behind path[k + 1]. */
  ghost predicate DefersAt(path: seq<Invoice>, k: nat, y: Element) {
    && k + 1 < |path| && OffersBehind(path[k], path[k + 1], y)
    && forall l :: 0 <= l < k ==> !Offers(path[l], y)
  }

  /** The path defers y on the way and offers it again at its end. */
  ghost predicate Skip(path: seq<Invoice>, y: Element) {
    && path != [] && ValidInvoice(path[0]) && SerializeInvoice(path[0]).Some?
    && (forall l :: 0 <= l < |path| ==> FrontierWritten(path[l]))
    && Linked(path) && NoShortCut(path)
    && (exists k: nat :: DefersAt(path, k, y))
    && Offers(path[|path| - 1], y)
  }

  ghost predicate SkipFrom(inv: Invoice, path: seq<Invoice>, y: Element) {
    Skip(path, y) && path[0] == inv
  }

  /** The oracles accept y and every document of the path. */
  ghost predicate AcceptsAll(path: seq<Invoice>, y: Element, accepts: Element -> bool) {
    accepts(y) && forall l: nat, x :: l < |path| && IsDoc(path[l], x) ==> accepts(x)
  }

  /** Whatever the oracles answer, if they depend on the document only the result is 1-minimal. */
  ghost predicate AlwaysMinimal(inv: Invoice) {
    forall o: Oracles, preserves :: Functional(o, preserves) && Shrunk(inv, o, true).Some? ==>
      OneMinimal(Shrunk(inv, o, true).value.current, o.valid, preserves)
  }

  // ---------------------------------------------------------------- paths go down

  lemma {:induction false} PathGoesDown(path: seq<Invoice>, a: nat, b: nat)
    requires Linked(path) && path != [] && ValidInvoice(path[0])
    requires a <= b < |path|
    ensures ValidInvoice(path[a]) && ValidInvoice(path[b])
    ensures InvoiceMeasure(path[b]) <= InvoiceMeasure(path[a])
    ensures a < b ==> InvoiceMeasure(path[b]) < InvoiceMeasure(path[a])
    decreases b
  {
    hide ValidInvoice, InvoiceMeasure, SerializeInvoice, LeadsTo;
    if b > 0 {
      if a < b {
        PathGoesDown(path, a, b - 1);
      } else {
        PathGoesDown(path, b - 1, b - 1);
      }
      assert Link(path[b - 1], path[b - 1 + 1]);
      var i: nat :| LeadsTo(path[b - 1], i, path[b]);
      LeadsDown(path[b - 1], i, path[b]);
    }
  }

  /** An invoice never offers a document that is as large as itself. */
  lemma {:induction false} NotOfferedBelow(path: seq<Invoice>, n: nat, l: nat, x: Element)
    requires Linked(path) && path != [] && ValidInvoice(path[0])
    requires n <= l < |path| && IsDoc(path[n], x)
    ensures !Offers(path[l], x)
  {
    hide ValidInvoice, InvoiceMeasure, Linked, IsDoc, Offers;
    PathGoesDown(path, n, l);
    if Offers(path[l], x) {
      OfferedIsSmaller(path[l], x, path[n]);
    }
  }

  // ---------------------------------------------------------------- a skip makes a run miss

  /** The oracles of the converse: valid and preserving are exactly the documents of the path and y. */
  ghost predicate OnPath(path: seq<Invoice>, y: Element, x: Element) {
    x == y || exists l: nat :: l < |path| && IsDoc(path[l], x)
  }

  /** An accepted document other than the next one of the path is known, or offered behind it. */
  lemma {:induction false} NothingBefore(path: seq<Invoice>, y: Element, k: nat, l: nat, i: nat, j: nat, x: Element)
    requires Skip(path, y) && DefersAt(path, k, y) && l + 1 < |path|
    requires LeadsTo(path[l], i, path[l + 1]) && OffersAt(path[l], j, x) && j < i
    requires OnPath(path, y, x)
    ensures Known(path[..l + 1], x)
  {
    hide ValidInvoice, SerializeInvoice, OneStep, FrontierWritten, IsDoc, NoShortCut, Linked;
    assert Offers(path[l], x);
    if x == y {
      assert l >= k;
      if l == k {
        var a: nat, b: nat :| a < b && LeadsTo(path[k], a, path[k + 1]) && OffersAt(path[k], b, y);
        OfferedOnce(path[k], j, b, y);
        LeadsOnce(path, l, i, a);
        assert false;
      } else {
        assert OffersBehind(path[k], path[k + 1], y);
        assert Offers(path[k], y);
        assert path[..l + 1][k] == path[k];
      }
    } else {
      var n: nat :| n < |path| && IsDoc(path[n], x);
      NotOnPath(path, l, i, j, n, x);
    }
  }

  lemma {:induction false} LinkAt(path: seq<Invoice>, l: nat) returns (i: nat)
    requires Linked(path) && l + 1 < |path|
    ensures SerializeInvoice(path[l + 1]).Some? && LeadsTo(path[l], i, path[l + 1])
  {
    hide SerializeInvoice, LeadsTo;
    assert Link(path[l], path[l + 1]);
    i :| LeadsTo(path[l], i, path[l + 1]);
  }

  lemma {:induction false} LeadsOnce(path: seq<Invoice>, l: nat, i: nat, a: nat)
    requires Linked(path) && l + 1 < |path| && LeadsTo(path[l], i, path[l + 1]) && LeadsTo(path[l], a, path[l + 1])
    ensures i == a
  {
    hide SerializeInvoice, Linked, OneStep;
    var b := LinkAt(path, l);
    var x := SerializeInvoice(path[l + 1]).value;
    assert OffersAt(path[l], i, x) && OffersAt(path[l], a, x);
    OfferedOnce(path[l], i, a, x);
  }

  /** The frontier of path[l] offers no document of the path but the next one. */
  lemma {:induction false} NotOnPath(path: seq<Invoice>, l: nat, i: nat, j: nat, n: nat, x: Element)
    requires Linked(path) && NoShortCut(path) && path != [] && ValidInvoice(path[0])
    requires l + 1 < |path| && n < |path| && IsDoc(path[n], x)
    requires LeadsTo(path[l], i, path[l + 1]) && j < i
    ensures !OffersAt(path[l], j, x)
  {
    hide ValidInvoice, SerializeInvoice, OneStep, Linked;
    if OffersAt(path[l], j, x) {
      assert Offers(path[l], x);
      if n <= l {
        NotOfferedBelow(path, n, l, x);
      } else if n == l + 1 {
        assert OffersAt(path[l], i, x);
        OfferedOnce(path[l], i, j, x);
      }
    }
  }

  /** The next invoice of the path is new. */
  lemma {:induction false} NextIsNew(path: seq<Invoice>, l: nat, x: Element)
    requires Linked(path) && NoShortCut(path) && path != [] && ValidInvoice(path[0])
    requires l + 1 < |path| && IsDoc(path[l + 1], x)
    ensures !Known(path[..l + 1], x)
  {
    hide ValidInvoice, IsDoc, Linked, Offers;
    var before := path[..l + 1];
    if IsDoc(before[0], x) {
      var i := LinkAt(path, l);
      NotOfferedBelow(path, 0, l, x);
      NextIsOffered(path, l, i, x);
    }
    forall m | 0 <= m < |before| - 1 ensures !Offers(before[m], x) {
      assert before[m] == path[m];
    }
  }

  lemma {:induction false} NextIsOffered(path: seq<Invoice>, l: nat, i: nat, x: Element)
    requires l + 1 < |path| && LeadsTo(path[l], i, path[l + 1]) && IsDoc(path[l + 1], x)
    ensures Offers(path[l], x)
  {
    hide OneStep, IsDoc;
    assert OffersAt(path[l], i, x);
  }

  /** The oracles accept y and the documents of the path, and nothing else that the path offers. */
  ghost predicate Exactly(path: seq<Invoice>, y: Element, accepts: Element -> bool) {
    && (forall x :: OnPath(path, y, x) ==> accepts(x))
    && forall l: nat, x :: l < |path| && Offers(path[l], x) && accepts(x) ==> OnPath(path, y, x)
  }

  lemma {:induction false} SkipStep(path: seq<Invoice>, y: Element, k: nat, l: nat, accepts: Element -> bool)
    requires Skip(path, y) && DefersAt(path, k, y) && l + 1 < |path| && Exactly(path, y, accepts)
    ensures GreedyStep(path, l, accepts)
  {
    hide ValidInvoice, SerializeInvoice, FrontierWritten, IsDoc, NoShortCut, Linked, OneStep, Known, DefersAt;
    var before := path[..l + 1];
    var i := LinkAt(path, l);
    var rs := OneStep(path[l]);
    assert New(before, rs[i].invoice, accepts) by {
      var x := NextFound(path, l);
      NextIsNew(path, l, x);
      assert OnPath(path, y, x);
    }
    forall j | 0 <= j < i ensures !New(before, rs[j].invoice, accepts) {
      if x :| IsDoc(rs[j].invoice, x) && !Known(before, x) && accepts(x) {
        assert OffersAt(path[l], j, x);
        assert Offers(path[l], x);
        NothingBefore(path, y, k, l, i, j, x);
      }
    }
    assert before[|before| - 1] == path[l];
    assert Picks(before, i, accepts);
    assert PicksNext(before, i, path[l + 1], accepts);
  }

  lemma {:induction false} NextFound(path: seq<Invoice>, l: nat) returns (x: Element)
    requires Linked(path) && l + 1 < |path|
    ensures IsDoc(path[l + 1], x)
  {
    hide SerializeInvoice;
    var i := LinkAt(path, l);
    x := SerializeInvoice(path[l + 1]).value;
  }

  lemma {:induction false} SkipIsStuck(path: seq<Invoice>, y: Element, k: nat, accepts: Element -> bool)
    requires Skip(path, y) && DefersAt(path, k, y) && Exactly(path, y, accepts)
    ensures Stuck(path, accepts)
  {
    hide ValidInvoice, SerializeInvoice, FrontierWritten, IsDoc, NoShortCut, Linked, OneStep;
    var last := path[|path| - 1];
    forall r | r in OneStep(last) ensures !New(path, r.invoice, accepts) {
      if x :| IsDoc(r.invoice, x) && !Known(path, x) && accepts(x) {
        var i: nat :| i < |OneStep(last)| && OneStep(last)[i] == r;
        assert OffersAt(last, i, x);
        assert Offers(last, x);
        if x == y {
          OfferedBehind(path[k], path[k + 1], y);
        } else {
          var n: nat :| n < |path| && IsDoc(path[n], x);
          NotOfferedBelow(path, n, |path| - 1, x);
        }
      }
    }
  }

  lemma {:induction false} OfferedBehind(p: Invoice, q: Invoice, y: Element)
    requires OffersBehind(p, q, y)
    ensures Offers(p, y)
  {
    hide LeadsTo, OffersAt;
  }

  lemma {:induction false} SkipIsGreedy(path: seq<Invoice>, y: Element, accepts: Element -> bool)
    requires Skip(path, y) && Exactly(path, y, accepts)
    ensures GreedyTo(path[0], path, path[|path| - 1], accepts)
  {
    hide GreedyStep, Stuck, OnPath, DefersAt, Linked, NoShortCut, FrontierWritten, ValidInvoice, SerializeInvoice, Offers;
    var k: nat :| DefersAt(path, k, y);
    SkipIsStuck(path, y, k, accepts);
    forall l: nat | l + 1 < |path| ensures GreedyStep(path, l, accepts) {
      SkipStep(path, y, k, l, accepts);
    }
    SkipStarts(path, y);
    var x :| IsDoc(path[0], x) && OnPath(path, y, x);
    assert accepts(x);
  }

  lemma {:induction false} SkipStarts(path: seq<Invoice>, y: Element)
    requires path != [] && SerializeInvoice(path[0]).Some?
    ensures exists x :: IsDoc(path[0], x) && OnPath(path, y, x)
  {
    hide SerializeInvoice;
    assert OnPath(path, y, SerializeInvoice(path[0]).value);
  }

  /** A validator and a finding check that accept exactly the given documents. */
  ghost function OraclesOf(accepts: Element -> bool): (o: Oracles) {
    Oracles(accepts, (n: nat, x) => if accepts(x) then Preserved else Lost)
  }

  ghost function PathOracle(path: seq<Invoice>, y: Element): (accepts: Element -> bool) {
    x => OnPath(path, y, x)
  }

  /** Oracles that accept the documents of a skip and nothing else that it offers make the run follow it and miss its document. */
  lemma {:induction false} SkipMissesUnder(path: seq<Invoice>, y: Element, o: Oracles, preserves: Element -> bool)
    requires Skip(path, y) && Functional(o, preserves) && Exactly(path, y, Both(o.valid, preserves))
    ensures var f := Shrunk(path[0], o, true);
      f.Some? && f.value.current == path[|path| - 1] && !OneMinimal(f.value.current, o.valid, preserves)
  {
    hide ValidInvoice, SerializeInvoice, FrontierWritten, NoShortCut, Linked, OneStep, Shrunk, Greedy, Stuck, OnPath, DefersAt, Functional;
    var last := path[|path| - 1];
    SkipIsGreedy(path, y, Both(o.valid, preserves));
    ShrinkIsGreedy(path[0], o, preserves, last);
    var i: nat :| OffersAt(last, i, y);
    assert OneStep(last)[i] in OneStep(last);
    OnPathSelf(path, y);
    assert Both(o.valid, preserves)(y);
  }

  /** There are such oracles for every skip. */
  lemma {:induction false} SkipMisses(path: seq<Invoice>, y: Element)
    requires Skip(path, y)
    ensures var accepts := PathOracle(path, y); var o := OraclesOf(accepts); var f := Shrunk(path[0], o, true);
      && Functional(o, accepts) && f.Some? && f.value.current == path[|path| - 1]
      && !OneMinimal(f.value.current, o.valid, accepts)
  {
    hide ValidInvoice, SerializeInvoice, Skip, Shrunk, OnPath, OneMinimal;
    SkipMissesUnder(path, y, OraclesOf(PathOracle(path, y)), PathOracle(path, y));
  }

  lemma {:induction false} OnPathSelf(path: seq<Invoice>, y: Element)
    ensures OnPath(path, y, y)
  {
  }

  // ---------------------------------------------------------------- a run that misses makes a skip

  /** A greedy path has no short cuts: what an earlier frontier offered is not new any more. */
  lemma {:induction false} GreedyLinks(path: seq<Invoice>, l: nat, accepts: Element -> bool)
    requires Greedy(path, accepts) && l + 1 < |path|
    ensures FrontierWritten(path[l]) && Link(path[l], path[l + 1])
    ensures forall x :: IsDoc(path[l + 1], x) ==> accepts(x) && !Known(path[..l + 1], x)
  {
    hide FrontierWritten, Known, OneStep;
    assert GreedyStep(path, l, accepts);
    var before := path[..l + 1];
    assert before[|before| - 1] == path[l];
    var i: nat :| PicksNext(before, i, path[l + 1], accepts);
    assert LeadsTo(path[l], i, path[l + 1]);
    assert New(before, path[l + 1], accepts);
  }

  lemma {:induction false} GreedyIsNew(path: seq<Invoice>, n: nat, x: Element, accepts: Element -> bool)
    requires Greedy(path, accepts) && 0 < n < |path| && IsDoc(path[n], x)
    ensures accepts(x) && !Known(path[..n], x)
  {
    hide FrontierWritten, IsDoc, Known, Greedy, Link;
    var l := n - 1;
    GreedyLinks(path, l, accepts);
    assert path[..l + 1] == path[..n];
  }

  lemma {:induction false} NotKnown(path: seq<Invoice>, n: nat, l: nat, x: Element)
    requires l + 1 < n < |path| && !Known(path[..n], x)
    ensures !Offers(path[l], x)
  {
    hide IsDoc, Offers;
    assert path[..n][l] == path[l];
  }

  lemma {:induction false} GreedyHasNoShortCut(path: seq<Invoice>, accepts: Element -> bool)
    requires Greedy(path, accepts)
    ensures NoShortCut(path) && Linked(path)
  {
    hide FrontierWritten, Offers, IsDoc, Link, Greedy, Known;
    forall l: nat, n: nat, x | l + 1 < n < |path| && IsDoc(path[n], x) ensures !Offers(path[l], x) {
      GreedyIsNew(path, n, x, accepts);
      NotKnown(path, n, l, x);
    }
    forall l: nat | l + 1 < |path| ensures Link(path[l], path[l + 1]) {
      GreedyLinks(path, l, accepts);
    }
  }

  /** An accepted document that the frontier of path[l] offers first is offered behind the step taken. */
  lemma {:induction false} FirstOfferIsBehind(path: seq<Invoice>, l: nat, y: Element, accepts: Element -> bool)
    requires Greedy(path, accepts) && l + 1 < |path| && Offers(path[l], y) && accepts(y)
    requires !IsDoc(path[0], y) && !IsDoc(path[l + 1], y) && forall m :: 0 <= m < l ==> !Offers(path[m], y)
    ensures OffersBehind(path[l], path[l + 1], y)
  {
    hide FrontierWritten, IsDoc, OneStep;
    assert GreedyStep(path, l, accepts);
    var before := path[..l + 1];
    assert before[|before| - 1] == path[l] && before[0] == path[0];
    var i: nat :| PicksNext(before, i, path[l + 1], accepts);
    var j: nat :| OffersAt(path[l], j, y);
    assert !Known(before, y) by {
      forall m | 0 <= m < |before| - 1 ensures !Offers(before[m], y) {
        assert before[m] == path[m];
      }
    }
    assert New(before, OneStep(path[l])[j].invoice, accepts);
    assert i != j;
    assert LeadsTo(path[l], i, path[l + 1]);
  }

  lemma {:induction false} FirstOffer(path: seq<Invoice>, n: nat, y: Element) returns (k: nat)
    requires n < |path| && Offers(path[n], y)
    ensures k <= n && Offers(path[k], y) && forall m :: 0 <= m < k ==> !Offers(path[m], y)
  {
    hide Offers;
    if m: nat :| m < n && Offers(path[m], y) {
      k := FirstOffer(path, m, y);
    } else {
      k := n;
    }
  }

  /** A stuck greedy path with an accepted reduction left is a skip. */
  lemma {:induction false} LeftOverIsSkip(inv: Invoice, path: seq<Invoice>, y: Element, accepts: Element -> bool)
    requires ValidInvoice(inv) && path != [] && GreedyTo(inv, path, path[|path| - 1], accepts)
    requires Offers(path[|path| - 1], y) && accepts(y)
    ensures Skip(path, y) && AcceptsAll(path, y, accepts)
  {
    hide ValidInvoice, FrontierWritten, SerializeInvoice, OneStep, Greedy, Linked, NoShortCut;
    var last := |path| - 1;
    GreedyHasNoShortCut(path, accepts);
    StuckKnows(path, y, accepts);
    assert !IsDoc(path[0], y) by {
      if IsDoc(path[0], y) {
        NotOfferedBelow(path, 0, last, y);
      }
    }
    var n: nat :| n < last && Offers(path[n], y);
    var k := FirstOffer(path, n, y);
    assert !IsDoc(path[k + 1], y) by {
      if IsDoc(path[k + 1], y) {
        NotOfferedBelow(path, k + 1, last, y);
      }
    }
    FirstOfferIsBehind(path, k, y, accepts);
    assert DefersAt(path, k, y);
    forall l | 0 <= l < |path| ensures FrontierWritten(path[l]) {
      if l < last {
        GreedyLinks(path, l, accepts);
      }
    }
    forall l: nat, x | l < |path| && IsDoc(path[l], x) ensures accepts(x) {
      if l > 0 {
        GreedyIsNew(path, l, x, accepts);
      }
    }
  }

  /** At the end of the run every accepted document on offer is in the checked set. */
  lemma {:induction false} StuckKnows(path: seq<Invoice>, y: Element, accepts: Element -> bool)
    requires path != [] && Stuck(path, accepts) && Offers(path[|path| - 1], y) && accepts(y)
    ensures Known(path, y)
  {
    hide IsDoc, OneStep, FrontierWritten, Known;
    var last := path[|path| - 1];
    var i: nat :| OffersAt(last, i, y);
    assert OneStep(last)[i] in OneStep(last);
    assert !New(path, OneStep(last)[i].invoice, accepts);
  }

  /**
   For given oracles that depend on the document only: if no skip from the start is accepted by
   both of them, the result is 1-minimal.
   */
  lemma {:induction false} MinimalWithoutSkip(inv: Invoice, o: Oracles, preserves: Element -> bool)
    requires Functional(o, preserves) && Shrunk(inv, o, true).Some?
    requires forall path, y :: SkipFrom(inv, path, y) ==> !AcceptsAll(path, y, Both(o.valid, preserves))
    ensures OneMinimal(Shrunk(inv, o, true).value.current, o.valid, preserves)
  {
    hide ValidInvoice, SerializeInvoice, OneStep, Shrunk, Skip, AcceptsAll, GreedyTo, Functional;
    var end, accepts := Shrunk(inv, o, true).value.current, Both(o.valid, preserves);
    ShrinkIsGreedy(inv, o, preserves, end);
    var path :| GreedyTo(inv, path, end, accepts);
    GreedyEnds(inv, path, end, accepts);
    forall r | r in OneStep(end) && SerializeInvoice(r.invoice).Some?
      ensures !(o.valid(SerializeInvoice(r.invoice).value) && preserves(SerializeInvoice(r.invoice).value))
    {
      var y := SerializeInvoice(r.invoice).value;
      var i: nat :| i < |OneStep(end)| && OneStep(end)[i] == r;
      assert OffersAt(end, i, y);
      if accepts(y) {
        LeftOverIsSkip(inv, path, y, accepts);
      }
    }
  }

  lemma {:induction false} GreedyEnds(inv: Invoice, path: seq<Invoice>, end: Invoice, accepts: Element -> bool)
    requires GreedyTo(inv, path, end, accepts)
    ensures path != [] && path[0] == inv && path[|path| - 1] == end && ValidInvoice(inv)
  {
    hide Greedy, Stuck, ValidInvoice;
    var x :| IsDoc(inv, x) && accepts(x);
    WrittenValid(inv);
  }

  lemma {:induction false} WrittenValid(inv: Invoice)
    requires SerializeInvoice(inv).Some?
    ensures ValidInvoice(inv)
  {
  }

  /**
   The condition on the start invoice: the shrinker returns a 1-minimal invoice under all oracles
   that depend on the document only if and only if no skip starts there.
   */
  lemma {:induction false} AlwaysMinimalUnlessSkip(inv: Invoice)
    ensures AlwaysMinimal(inv) <==> !exists path, y :: SkipFrom(inv, path, y)
  {
    hide Skip, OneMinimal, Shrunk, Functional, AcceptsAll;
    if path, y :| SkipFrom(inv, path, y) {
      SkipMisses(path, y);
    } else {
      forall o: Oracles, preserves | Functional(o, preserves) && Shrunk(inv, o, true).Some?
        ensures OneMinimal(Shrunk(inv, o, true).value.current, o.valid, preserves)
      {
        MinimalWithoutSkip(inv, o, preserves);
      }
    }
  }
}
