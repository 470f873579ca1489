/** What every run of the shrinker guarantees: honest bookkeeping, a replayable path, termination. */
module ShrinkRuns {
  import opened Basics
  import opened Invoices
  import opened Totals
  import opened Trees
  import opened Serialize
  import opened InvoiceRoundTrip
  import opened Fingerprint
  import opened Documents
  import opened Reductions
  import opened Enumerate
  import opened Measure
  import opened OneStepReductions
  import opened Shrink

  // ---------------------------------------------------------------- honest bookkeeping

  /** An entry of the status map says what actually happened to its document. */
  ghost predicate Honest(x: Element, st: Status, status: map<Element, Status>, asked: seq<Element>, o: Oracles) {
    match st
    case Start => |asked| >= 1 && asked[0] == x && o.valid(x) && o.finding(0, x) == Preserved
    case Invalid => !o.valid(x) && x !in asked
    case LostAt(n) => n < |asked| && asked[n] == x && o.valid(x) && o.finding(n, x) == Lost
    case AcceptedAt(n) => n < |asked| && asked[n] == x && o.valid(x) && o.finding(n, x) == Preserved
    case DeferredBehind(n) =>
      x !in asked && n < |asked| && asked[n] in status && status[asked[n]] == AcceptedAt(n)
  }

  /** All entries are honest, and each document was put to the finding check at most once. */
  ghost predicate Truthful(status: map<Element, Status>, asked: seq<Element>, o: Oracles) {
    && (forall x :: x in status ==> Honest(x, status[x], status, asked, o))
    && (forall n :: 0 <= n < |asked| ==> asked[n] in status)
    && Distinct(asked)
  }

  predicate Grows(a: map<Element, Status>, b: map<Element, Status>) {
    forall x :: x in a ==> x in b && a[x] == b[x]
  }

  lemma {:induction false} HonestGrows(x: Element, st: Status, a: map<Element, Status>, b: map<Element, Status>,
    asked: seq<Element>, more: seq<Element>, o: Oracles)
    requires Honest(x, st, a, asked, o) && Grows(a, b) && x in a
    requires forall y :: y in more ==> y !in a
    ensures Honest(x, st, b, asked + more, o)
  {
  }

  lemma {:induction false} AddInvalid(status: map<Element, Status>, asked: seq<Element>, o: Oracles, x: Element)
    requires Truthful(status, asked, o) && x !in status && !o.valid(x)
    ensures Truthful(status[x := Invalid], asked, o)
  {
    hide Honest;
    var b := status[x := Invalid];
    forall y | y in b ensures Honest(y, b[y], b, asked, o) {
      if y != x {
        HonestGrows(y, status[y], status, b, asked, [], o);
        assert asked + [] == asked;
      } else {
        assert Honest(x, Invalid, b, asked, o) by { HonestInvalid(x, b, asked, o); }
      }
    }
  }

  lemma {:induction false} HonestInvalid(x: Element, status: map<Element, Status>, asked: seq<Element>, o: Oracles)
    requires !o.valid(x) && x !in asked
    ensures Honest(x, Invalid, status, asked, o)
  {
  }

  /** A document that was put to the finding check. */
  lemma {:induction false} AddAsked(status: map<Element, Status>, asked: seq<Element>, o: Oracles, x: Element, st: Status)
    requires Truthful(status, asked, o) && x !in status && o.valid(x)
    requires st == LostAt(|asked|) || st == AcceptedAt(|asked|)
    requires o.finding(|asked|, x) == if st.LostAt? then Lost else Preserved
    ensures Truthful(status[x := st], asked + [x], o)
  {
    hide Honest;
    var b := status[x := st];
    forall y | y in b ensures Honest(y, b[y], b, asked + [x], o) {
      if y != x {
        HonestGrows(y, status[y], status, b, asked, [x], o);
      } else {
        HonestAsked(x, st, b, asked, o);
      }
    }
  }

  lemma {:induction false} HonestAsked(x: Element, st: Status, status: map<Element, Status>, asked: seq<Element>, o: Oracles)
    requires o.valid(x) && (st == LostAt(|asked|) || st == AcceptedAt(|asked|))
    requires o.finding(|asked|, x) == if st.LostAt? then Lost else Preserved
    ensures Honest(x, st, status, asked + [x], o)
  {
  }

  /** The untried rest of a frontier joins behind the call that was accepted. */
  lemma {:induction false} AddDeferred(status: map<Element, Status>, asked: seq<Element>, o: Oracles, ts: seq<Trial>, call: nat)
    requires Truthful(status, asked, o) && call < |asked| && status[asked[call]] == AcceptedAt(call)
    requires forall t :: t in ts ==> t.xml !in status
    ensures Truthful(Defer(ts, call) + status, asked, o)
  {
    hide Honest;
    var b := Defer(ts, call) + status;
    forall y | y in b ensures Honest(y, b[y], b, asked, o) {
      if y in status {
        HonestGrows(y, status[y], status, b, asked, [], o);
        assert asked + [] == asked;
      } else {
        HonestDeferred(y, call, b, asked, o);
      }
    }
  }

  lemma {:induction false} HonestDeferred(x: Element, n: nat, status: map<Element, Status>, asked: seq<Element>, o: Oracles)
    requires x !in asked && n < |asked| && asked[n] in status && status[asked[n]] == AcceptedAt(n)
    ensures Honest(x, DeferredBehind(n), status, asked, o)
  {
  }

  // ---------------------------------------------------------------- one frontier

  function Docs(ts: seq<Trial>): (xs: set<Element>) {
    set t | t in ts :: t.xml
  }

  lemma {:induction false} DocsCons(t: Trial, ts: seq<Trial>)
    ensures Docs([t] + ts) == {t.xml} + Docs(ts)
  {
    var all := [t] + ts;
    assert forall u :: u in all <==> u == t || u in ts;
  }

  /** The candidates are new and their documents are pairwise different. */
  ghost predicate Fresh(ts: seq<Trial>, checked: set<Element>)
    decreases |ts|
  {
    ts == [] || (ts[0].xml !in checked && Fresh(ts[1..], checked + {ts[0].xml}))
  }

  lemma {:induction false} FreshDisjoint(ts: seq<Trial>, checked: set<Element>)
    requires Fresh(ts, checked)
    ensures Docs(ts) !! checked
    ensures ts != [] ==> ts[0].xml !in Docs(ts[1..])
  {
    if ts != [] {
      FreshDisjoint(ts[1..], checked + {ts[0].xml});
      assert ts == [ts[0]] + ts[1..];
      DocsCons(ts[0], ts[1..]);
    }
  }

  lemma {:induction false} PendingIsFresh(rs: seq<Reduction>, checked: set<Element>)
    requires Pending(rs, checked).Some?
    ensures Fresh(Pending(rs, checked).value, checked)
  {
    hide SerializeInvoice;
    if rs != [] {
      var xml := SerializeInvoice(rs[0].invoice).value;
      if xml in checked {
        PendingIsFresh(rs[1..], checked);
      } else {
        PendingIsFresh(rs[1..], checked + {xml});
        var rest := Pending(rs[1..], checked + {xml}).value;
        assert ([Trial(rs[0], xml)] + rest)[1..] == rest;
      }
    }
  }

  lemma {:induction false} PendingWritten(rs: seq<Reduction>, checked: set<Element>)
    requires forall r :: r in rs ==> SerializeInvoice(r.invoice).Some?
    ensures Pending(rs, checked).Some?
  {
    hide SerializeInvoice;
    if rs != [] {
      var xml := SerializeInvoice(rs[0].invoice).value;
      PendingWritten(rs[1..], checked);
      PendingWritten(rs[1..], checked + {xml});
    }
  }

  /** Every reduction of the frontier has been checked before or is about to be tried. */
  lemma {:induction false} PendingCovers(rs: seq<Reduction>, checked: set<Element>, r: Reduction)
    requires Pending(rs, checked).Some? && r in rs
    ensures SerializeInvoice(r.invoice).Some?
    ensures SerializeInvoice(r.invoice).value in checked + Docs(Pending(rs, checked).value)
  {
    hide SerializeInvoice, Docs;
    var xml := SerializeInvoice(rs[0].invoice).value;
    if xml in checked {
      if r != rs[0] {
        PendingCovers(rs[1..], checked, r);
      }
    } else {
      var rest := Pending(rs[1..], checked + {xml}).value;
      DocsCons(Trial(rs[0], xml), rest);
      if r != rs[0] {
        PendingCovers(rs[1..], checked + {xml}, r);
      }
    }
  }

  /** Tried and rejected. */
  predicate Rejected(st: Status) {
    st.Invalid? || st.LostAt?
  }

  /** Tried and accepted, or the document the run began with. */
  predicate Settled(st: Status) {
    st.Start? || st.AcceptedAt?
  }

  predicate AllRejected(xs: set<Element>, status: map<Element, Status>) {
    forall x :: x in xs ==> x in status && Rejected(status[x])
  }

  /** The only newly settled document is that of the accepted invoice. */
  ghost predicate OnlySettles(before: map<Element, Status>, after: map<Element, Status>, inv: Invoice) {
    && SerializeInvoice(inv).Some? && SerializeInvoice(inv).value in after
    && Settled(after[SerializeInvoice(inv).value])
    && forall x :: x in after && x !in before && Settled(after[x]) ==> SerializeInvoice(inv) == Some(x)
  }

  ghost predicate Written(ts: seq<Trial>) {
    forall t :: t in ts ==> SerializeInvoice(t.reduction.invoice) == Some(t.xml)
  }

  /** The honest outcome of trying a frontier. */
  ghost predicate TriedWell(ts: seq<Trial>, status: map<Element, Status>, r: Tried, o: Oracles, markTail: bool) {
    match r
    case Aborted => true
    case Exhausted(after, asked) =>
      Truthful(after, asked, o) && Grows(status, after) && after.Keys == status.Keys + Docs(ts) && AllRejected(Docs(ts), after)
    case Hit(reduction, after, asked) =>
      && Truthful(after, asked, o) && Grows(status, after)
      && (markTail ==> after.Keys == status.Keys + Docs(ts))
      && OnlySettles(status, after, reduction.invoice)
  }

  lemma {:induction false} HitIsHonest(t: Trial, ts: seq<Trial>, status: map<Element, Status>, asked: seq<Element>, o: Oracles, markTail: bool)
    requires Truthful(status, asked, o) && t.xml !in status && t.xml !in Docs(ts) && Docs(ts) !! status.Keys
    requires o.valid(t.xml) && o.finding(|asked|, t.xml) == Preserved
    ensures Truthful(HitStatus(t, ts, status, |asked|, markTail), asked + [t.xml], o)
  {
    hide Truthful, Docs;
    AddAsked(status, asked, o, t.xml, AcceptedAt(|asked|));
    if markTail {
      DocsMember(ts);
      assert (asked + [t.xml])[|asked|] == t.xml;
      AddDeferred(status[t.xml := AcceptedAt(|asked|)], asked + [t.xml], o, ts, |asked|);
    }
  }

  lemma {:induction false} HitEntries(t: Trial, ts: seq<Trial>, status: map<Element, Status>, call: nat, markTail: bool)
    requires t.xml !in status && t.xml !in Docs(ts) && Docs(ts) !! status.Keys
    ensures var after := HitStatus(t, ts, status, call, markTail);
      && Grows(status, after) && t.xml in after && after[t.xml] == AcceptedAt(call)
      && (forall x :: x in after && x !in status && Settled(after[x]) ==> x == t.xml)
      && (markTail ==> after.Keys == status.Keys + {t.xml} + Docs(ts))
      && (!markTail ==> after.Keys == status.Keys + {t.xml})
  {
    hide Docs;
    DocsMember(ts);
  }

  lemma {:induction false} TryHit(t: Trial, ts: seq<Trial>, status: map<Element, Status>, asked: seq<Element>, o: Oracles, markTail: bool)
    requires Truthful(status, asked, o) && Fresh([t] + ts, status.Keys) && Written([t] + ts)
    requires o.valid(t.xml) && o.finding(|asked|, t.xml) == Preserved
    ensures TriedWell([t] + ts, status, Try([t] + ts, status, asked, o, markTail), o, markTail)
  {
    hide Truthful, Fresh, SerializeInvoice, Docs, Grows, HitStatus, TriedWell;
    var all := [t] + ts;
    assert all[0] == t && all[1..] == ts;
    HitIsTriedWell(t, ts, status, asked, o, markTail);
  }

  lemma {:induction false} HitIsTriedWell(t: Trial, ts: seq<Trial>, status: map<Element, Status>, asked: seq<Element>, o: Oracles, markTail: bool)
    requires Truthful(status, asked, o) && Fresh([t] + ts, status.Keys) && Written([t] + ts)
    requires o.valid(t.xml) && o.finding(|asked|, t.xml) == Preserved
    ensures TriedWell([t] + ts, status, Hit(t.reduction, HitStatus(t, ts, status, |asked|, markTail), asked + [t.xml]), o, markTail)
  {
    hide Truthful, Fresh, SerializeInvoice, Docs, Grows, HitStatus, Try;
    var all := [t] + ts;
    assert all[0] == t && all[1..] == ts && t in all;
    FreshDisjoint(all, status.Keys);
    DocsCons(t, ts);
    HitIsHonest(t, ts, status, asked, o, markTail);
    HitEntries(t, ts, status, |asked|, markTail);
  }

  lemma {:induction false} DocsMember(ts: seq<Trial>)
    ensures forall t :: t in ts ==> t.xml in Docs(ts)
    ensures forall call: nat :: Defer(ts, call).Keys == Docs(ts)
  {
  }

  lemma {:induction false} StepGrows(status: map<Element, Status>, x: Element, st: Status)
    requires x !in status
    ensures Grows(status, status[x := st])
  {
  }

  lemma {:induction false} GrowsTransitive(a: map<Element, Status>, b: map<Element, Status>, c: map<Element, Status>)
    requires Grows(a, b) && Grows(b, c)
    ensures Grows(a, c)
  {
  }

  /** One rejected candidate in front of a frontier that is tried well. */
  lemma {:induction false} TryRest(t: Trial, rest: seq<Trial>, status: map<Element, Status>, st: Status, asked: seq<Element>,
    o: Oracles, markTail: bool)
    requires Rejected(st) && t.xml !in status && t.xml !in Docs(rest)
    requires Truthful(status[t.xml := st], asked, o) && Fresh(rest, status.Keys + {t.xml}) && Written([t] + rest)
    ensures TriedWell([t] + rest, status, Try(rest, status[t.xml := st], asked, o, markTail), o, markTail)
    decreases |rest|, 1
  {
    hide Truthful, Fresh, SerializeInvoice, Docs, Try, Grows, TriedWell;
    var next := status[t.xml := st];
    assert next.Keys == status.Keys + {t.xml};
    assert forall u :: u in rest ==> u in [t] + rest;
    TryIsHonest(rest, next, asked, o, markTail);
    TriedBehind(t, rest, status, st, Try(rest, next, asked, o, markTail), o, markTail);
  }

  lemma {:induction false} TriedBehind(t: Trial, rest: seq<Trial>, status: map<Element, Status>, st: Status, r: Tried,
    o: Oracles, markTail: bool)
    requires Rejected(st) && t.xml !in status
    requires TriedWell(rest, status[t.xml := st], r, o, markTail)
    ensures TriedWell([t] + rest, status, r, o, markTail)
  {
    hide Truthful, SerializeInvoice, Docs, Grows, OnlySettles, AllRejected;
    var next := status[t.xml := st];
    DocsCons(t, rest);
    StepGrows(status, t.xml, st);
    if !r.Aborted? {
      GrowsTransitive(status, next, r.status);
      EntryKept(next, r.status, t.xml);
    }
    match r {
      case Aborted =>
      case Exhausted(after, asked) => RejectedWith(t.xml, Docs(rest), after);
      case Hit(reduction, after, asked) => SettlesWith(t.xml, status, st, after, reduction.invoice);
    }
  }

  lemma {:induction false} EntryKept(a: map<Element, Status>, b: map<Element, Status>, x: Element)
    requires Grows(a, b) && x in a
    ensures x in b && b[x] == a[x]
  {
  }

  lemma {:induction false} RejectedWith(x: Element, xs: set<Element>, status: map<Element, Status>)
    requires AllRejected(xs, status) && x in status && Rejected(status[x])
    ensures AllRejected({x} + xs, status)
  {
  }

  lemma {:induction false} SettlesWith(x: Element, before: map<Element, Status>, st: Status, after: map<Element, Status>, inv: Invoice)
    requires OnlySettles(before[x := st], after, inv) && x in after && after[x] == st && Rejected(st)
    ensures OnlySettles(before, after, inv)
  {
    hide SerializeInvoice;
  }

  /** Trying a frontier of fresh candidates keeps the bookkeeping honest. */
  lemma {:induction false} TryIsHonest(ts: seq<Trial>, status: map<Element, Status>, asked: seq<Element>, o: Oracles, markTail: bool)
    requires Truthful(status, asked, o) && Fresh(ts, status.Keys) && Written(ts)
    ensures TriedWell(ts, status, Try(ts, status, asked, o, markTail), o, markTail)
    decreases |ts|, 0
  {
    hide Truthful, Fresh, SerializeInvoice, Docs;
    if ts != [] {
      var t, rest := ts[0], ts[1..];
      assert ts == [t] + rest;
      FreshDisjoint(ts, status.Keys);
      FreshTail(ts, status.Keys);
      if o.valid(t.xml) && o.finding(|asked|, t.xml) == Preserved {
        TryHit(t, rest, status, asked, o, markTail);
      } else if o.valid(t.xml) && o.finding(|asked|, t.xml) == Lost {
        AddAsked(status, asked, o, t.xml, LostAt(|asked|));
        TryRest(t, rest, status, LostAt(|asked|), asked + [t.xml], o, markTail);
      } else if !o.valid(t.xml) {
        AddInvalid(status, asked, o, t.xml);
        TryRest(t, rest, status, Invalid, asked, o, markTail);
      }
    } else {
      assert Docs(ts) == {} by { NoDocs(); }
    }
  }

  lemma {:induction false} NoDocs()
    ensures Docs([]) == {}
  {
  }

  lemma {:induction false} FreshTail(ts: seq<Trial>, checked: set<Element>)
    requires ts != [] && Fresh(ts, checked)
    ensures ts[0].xml !in checked && Fresh(ts[1..], checked + {ts[0].xml})
  {
  }

  /** After a round every document of the frontier is in the checked set. */
  lemma {:induction false} TryKeys(ts: seq<Trial>, status: map<Element, Status>, asked: seq<Element>, o: Oracles)
    ensures var r := Try(ts, status, asked, o, true);
      r.Aborted? || r.status.Keys == status.Keys + Docs(ts)
  {
    hide Docs;
    if ts == [] {
      NoDocs();
    } else {
      var t := ts[0];
      assert ts == [t] + ts[1..];
      DocsCons(t, ts[1..]);
      DocsMember(ts[1..]);
      if !o.valid(t.xml) {
        TryKeys(ts[1..], status[t.xml := Invalid], asked, o);
      } else if o.finding(|asked|, t.xml) == Lost {
        TryKeys(ts[1..], status[t.xml := LostAt(|asked|)], asked + [t.xml], o);
      }
    }
  }
}
