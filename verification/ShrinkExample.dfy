/**
 A run that ends in a state that is not 1-minimal: a candidate deferred behind an accepted one
 is never tried again.
 */
module ShrinkExample {
  import opened Basics
  import opened Digits
  import opened Texts
  import opened Decimals
  import opened Calendar
  import opened Rounding
  import opened Invoices
  import opened Totals
  import opened Trees
  import opened Json
  import opened Serialize
  import opened InvoiceRoundTrip
  import opened Fingerprint
  import opened Documents
  import opened Reductions
  import opened Enumerate
  import opened Measure
  import opened OneStepReductions
  import opened Shrink
  import opened ShrinkRuns
  import opened ShrinkExit
  import opened ShrinkTotal
  import opened ShrinkSkips
  import opened ShrinkParts
  import opened ShrinkShort

  /** A party without anything to reduce. */
  const BARE_PARTY := Party("a", "b", "c", "d", "e", "f", "DE", None, None, None, None, None, None, None, None)

  const BARE_LINE :=
    Line("1", ONE, "C", ONE, "n", "S", ONE, None, None, None, None, None, None, None, None)

  /** An invoice in which only the payment terms can be reduced. */
  function WithTerms(terms: string): (inv: Invoice) {
    Invoice("c", "p", "i", Date(2024, 1, 1), "3", "EUR", "r", BARE_PARTY, BARE_PARTY, "5", "k", terms, [BARE_LINE], None, None)
  }

  lemma {:induction false} ShortText(s: string)
    requires 1 <= |s| <= 4 && forall i :: 0 <= i < |s| ==> s[i] > ' '
    ensures ValidText(s, 1000) && ValidText(s, 5000)
  {
  }

  lemma {:induction false} BareParty()
    ensures ValidParty(BARE_PARTY)
  {
    hide ValidText;
    ShortText("a");
    ShortText("b");
    ShortText("c");
    ShortText("d");
    ShortText("e");
    ShortText("f");
    ShortText("DE");
    assert "b"[0] == 'b' && "EM"[0] == 'E';
  }

  lemma {:induction false} OneIsValid()
    ensures ValidPositive(ONE) && ValidNonNegative(ONE) && Micros(ONE) == 1_000_000
  {
    assert Pow10(6) == 1_000_000 by { Pow10Add(3, 3); assert Pow10(3) == 1000; }
  }

  lemma {:induction false} BareLine()
    ensures ValidLine(BARE_LINE) && ValidLines([BARE_LINE])
  {
    hide ValidText, ValidPositive, ValidNonNegative, SameNumber;
    ShortText("1");
    ShortText("C");
    ShortText("n");
    OneIsValid();
    SameNumberReflexive(ONE);
  }

  predicate PlainTerms(s: string) {
    1 <= |s| <= 4 && forall i :: 0 <= i < |s| ==> s[i] > ' '
  }

  lemma {:induction false} WithTermsWritable(terms: string)
    requires PlainTerms(terms)
    ensures Writable(WithTerms(terms))
  {
    hide ValidText, ValidParty, ValidLine, TotalsFit, OneRate;
    BareParty();
    BareLine();
    ShortText("c");
    ShortText("p");
    ShortText("i");
    ShortText("3");
    ShortText("r");
    ShortText("5");
    ShortText("k");
    ShortText(terms);
    OneIsValid();
    ModestRatesFit([BARE_LINE]);
  }

  function Doc(terms: string): (x: Element)
    requires PlainTerms(terms)
  {
    WithTermsWritable(terms);
    SerializeInvoice(WithTerms(terms)).value
  }

  lemma {:induction false} DocsDiffer(a: string, b: string)
    requires PlainTerms(a) && PlainTerms(b) && a != b
    ensures Doc(a) != Doc(b)
    ensures Payload(WithTerms(a)) != Payload(WithTerms(b))
  {
    hide Writable, ValidInvoice, Document, SumsOf, Payload, SameLines;
    WithTermsWritable(a);
    WithTermsWritable(b);
    DocumentsAndFingerprints(WithTerms(a), WithTerms(b));
    WritableIsValid(WithTerms(a));
    WritableIsValid(WithTerms(b));
    FingerprintsAgree(WithTerms(a), WithTerms(b));
  }

  lemma {:induction false} WritableIsValid(inv: Invoice)
    requires Writable(inv)
    ensures ValidInvoice(inv)
  {
  }

  // ---------------------------------------------------------------- the frontier

  lemma {:induction false} SingleLetter(s: string)
    requires |s| <= 1
    ensures TextOps(s) == [] && forall op :: !TextEnabled(s, op)
  {
    NoTextOps(s, TEXT_OPS);
  }

  lemma {:induction false} NothingInParty(role: PartyRole)
    ensures PartyOps(BARE_PARTY, role) == []
  {
    hide PartyOps, TextEnabled;
    SingleLetter("a");
    SingleLetter("c");
    SingleLetter("d");
    SingleLetter("e");
    SingleLetter("f");
    if PartyOps(BARE_PARTY, role) != [] {
      SomeMember(PartyOps(BARE_PARTY, role));
      var op :| op in PartyOps(BARE_PARTY, role);
      PartyOpsExact(BARE_PARTY, role, op);
      assert false;
    }
  }

  lemma {:induction false} SomeMember<T>(s: seq<T>)
    requires s != []
    ensures exists x :: x in s
  {
    assert s[0] in s;
  }

  lemma {:induction false} NotInLine(op: Operation)
    ensures !LineEnabled(BARE_LINE, 0, op)
  {
    hide TextEnabled, NumberEnabled;
    SingleLetter("1");
    SingleLetter("n");
    SingleLetter("");
    OneStays();
    match op {
      case ReduceLineText(_, f, t) =>
        assert LineTextOf(BARE_LINE, f) in {"1", "n", ""};
      case ReduceNumber(_, f, n) =>
        assert NumberOf(BARE_LINE, f) == ONE;
        assert n == ToOne || n == ToCents;
      case _ =>
    }
  }

  lemma {:induction false} NothingInLine()
    ensures AllLineOps([BARE_LINE]) == []
  {
    hide AllLineOps, LineEnabled;
    if AllLineOps([BARE_LINE]) != [] {
      SomeMember(AllLineOps([BARE_LINE]));
      var op :| op in AllLineOps([BARE_LINE]);
      AllLineOpsExact([BARE_LINE], op);
      NotInLine(op);
      assert false;
    }
  }

  lemma {:induction false} OneStays()
    ensures !NumberEnabled(ONE, ToOne) && !NumberEnabled(ONE, ToCents)
  {
    hide SameNumber, Quantize;
    OneIsValid();
    SameNumberReflexive(ONE);
    OneIsCents(ONE);
  }

  function TermsOp(op: TextOp): (o: Operation) {
    ReduceInvoiceText(PaymentTerms, op)
  }

  lemma {:induction false} OnlyTerms(terms: string)
    ensures Operations(WithTerms(terms)) == Map(TextOps(terms), TermsOp)
  {
    hide PartyOps, AllLineOps, TextOps;
    NothingInParty(Seller);
    NothingInParty(Buyer);
    NothingInLine();
    var texts := Map(INVOICE_TEXTS, f => InvoiceTextOps(WithTerms(terms), f));
    SingleLetter("i");
    SingleLetter("r");
    SingleLetter("k");
    var inv := WithTerms(terms);
    assert InvoiceTextOps(inv, InvoiceIdentifier) == [];
    assert InvoiceTextOps(inv, BuyerReference) == [];
    assert InvoiceTextOps(inv, PayeeAccount) == [];
    assert InvoiceTextOps(inv, PaymentTerms) == Map(TextOps(terms), TermsOp);
    assert texts == [[], [], Map(TextOps(terms), TermsOp), []];
    FourParts(Map(TextOps(terms), TermsOp));
  }

  lemma {:induction false} FourParts(ops: seq<Operation>)
    ensures Flatten([[], [], ops, []]) == ops
  {
    var none: seq<Operation> := [];
    assert [none, none, ops, none][1..] == [none, ops, none];
    assert [none, ops, none][1..] == [ops, none];
    assert [ops, none][1..] == [none];
    assert [none][1..] == [];
    assert Flatten([none]) == none;
    assert Flatten([ops, none]) == ops;
    assert Flatten([none, ops, none]) == ops;
  }

  /** Reducing the terms gives the invoice with the reduced terms. */
  lemma {:induction false} TermsStep(terms: string, op: TextOp)
    requires TextEnabled(terms, op)
    ensures Step(WithTerms(terms), TermsOp(op)) == Reduction(TermsOp(op), WithTerms(ReduceText(terms, op)))
  {
    hide TextEnabled;
    TextIsLong(terms, op);
  }

  lemma {:induction false} KeepsAll(rs: seq<Reduction>, seen: set<Json>)
    requires forall i :: 0 <= i < |rs| ==> ValidInvoice(rs[i].invoice) && Payload(rs[i].invoice) !in seen
    requires forall i, j :: 0 <= i < j < |rs| ==> Payload(rs[i].invoice) != Payload(rs[j].invoice)
    ensures KeepNew(rs, seen) == rs
  {
    hide ValidInvoice, Payload;
    if rs != [] {
      KeepsAll(rs[1..], seen + {Payload(rs[0].invoice)});
    }
  }

  lemma {:induction false} ReducedIsPlain(terms: string, op: TextOp)
    requires PlainTerms(terms) && |terms| >= 2
    ensures PlainTerms(ReduceText(terms, op))
  {
  }

  lemma {:induction false} OpsGiveDifferentTexts(terms: string, a: TextOp, b: TextOp)
    requires TextEnabled(terms, a) && TextEnabled(terms, b) && a != b
    ensures ReduceText(terms, a) != ReduceText(terms, b)
  {
    hide ReduceText;
    if Rank(a) < Rank(b) {
      assert TEXT_OPS[Rank(a)] == a;
    } else {
      assert TEXT_OPS[Rank(b)] == b;
    }
  }

  function TermsStepOf(terms: string): (f: TextOp -> Reduction) {
    op => Step(WithTerms(terms), TermsOp(op))
  }

  lemma {:induction false} RawTerms(terms: string)
    ensures RawReductions(WithTerms(terms)) == Map(TextOps(terms), TermsStepOf(terms))
  {
    hide TextOps, Operations, Step;
    OnlyTerms(terms);
  }

  lemma {:induction false} StepIsNew(terms: string, op: TextOp)
    requires PlainTerms(terms) && TextEnabled(terms, op)
    ensures Step(WithTerms(terms), TermsOp(op)).invoice == WithTerms(ReduceText(terms, op))
    ensures PlainTerms(ReduceText(terms, op)) && Writable(WithTerms(ReduceText(terms, op)))
    ensures Payload(WithTerms(ReduceText(terms, op))) != Payload(WithTerms(terms))
  {
    hide TextEnabled, Writable, Payload, Step;
    TermsStep(terms, op);
    TextIsLong(terms, op);
    ReducedIsPlain(terms, op);
    WithTermsWritable(ReduceText(terms, op));
    DocsDiffer(ReduceText(terms, op), terms);
  }

  lemma {:induction false} StepsDiffer(terms: string, a: TextOp, b: TextOp)
    requires PlainTerms(terms) && TextEnabled(terms, a) && TextEnabled(terms, b) && a != b
    ensures Payload(Step(WithTerms(terms), TermsOp(a)).invoice) != Payload(Step(WithTerms(terms), TermsOp(b)).invoice)
  {
    hide TextEnabled, Writable, Payload, Step, ReduceText;
    StepIsNew(terms, a);
    StepIsNew(terms, b);
    OpsGiveDifferentTexts(terms, a, b);
    TextIsLong(terms, a);
    DocsDiffer(ReduceText(terms, a), ReduceText(terms, b));
  }

  lemma {:induction false} StepIsKept(terms: string, op: TextOp)
    requires PlainTerms(terms) && TextEnabled(terms, op)
    ensures var inv := Step(WithTerms(terms), TermsOp(op)).invoice;
      ValidInvoice(inv) && Payload(inv) !in {Payload(WithTerms(terms))}
  {
    hide TextEnabled, ValidInvoice, Writable, Payload, Step, ReduceText;
    StepIsNew(terms, op);
    TextIsLong(terms, op);
    WritableIsValid(WithTerms(ReduceText(terms, op)));
  }

  /** The frontier: one reduction per enabled text operation, all valid and all different. */
  lemma {:induction false} TermsFrontier(terms: string)
    requires PlainTerms(terms)
    ensures OneStep(WithTerms(terms)) == Map(TextOps(terms), TermsStepOf(terms))
  {
    hide TextEnabled, ValidInvoice, Payload, Step, RawReductions, KeepNew, TextOps, PlainTerms;
    RawTerms(terms);
    var ops, rs := TextOps(terms), Map(TextOps(terms), TermsStepOf(terms));
    DistinctTextOps(terms);
    forall i | 0 <= i < |rs| ensures ValidInvoice(rs[i].invoice) && Payload(rs[i].invoice) !in {Payload(WithTerms(terms))} {
      TextOpsExact(terms, ops[i]);
      StepIsKept(terms, ops[i]);
    }
    forall i, j | 0 <= i < j < |rs| ensures Payload(rs[i].invoice) != Payload(rs[j].invoice) {
      TextOpsExact(terms, ops[i]);
      TextOpsExact(terms, ops[j]);
      StepsDiffer(terms, ops[i], ops[j]);
    }
    KeepsAll(rs, {Payload(WithTerms(terms))});
  }

  lemma {:induction false} DistinctTextOps(terms: string)
    ensures Distinct(TextOps(terms))
  {
    hide TextEnabled;
    assert Distinct(TEXT_OPS);
    FilterDistinct(TEXT_OPS, op => TextEnabled(terms, op));
  }

  /** Membership in the frontier, by the reduced text. */
  lemma {:induction false} FrontierMember(terms: string, r: Reduction) returns (op: TextOp)
    requires PlainTerms(terms) && r in OneStep(WithTerms(terms))
    ensures TextEnabled(terms, op) && |terms| >= 2 && PlainTerms(ReduceText(terms, op))
    ensures SerializeInvoice(r.invoice) == Some(Doc(ReduceText(terms, op)))
  {
    hide TextEnabled, SerializeInvoice, OneStep, Step, Writable, Payload;
    TermsFrontier(terms);
    var k :| 0 <= k < |OneStep(WithTerms(terms))| && OneStep(WithTerms(terms))[k] == r;
    op := TextOps(terms)[k];
    TextOpsExact(terms, op);
    TextIsLong(terms, op);
    StepIsNew(terms, op);
    DocOf(ReduceText(terms, op));
  }

  lemma {:induction false} DocOf(terms: string)
    requires PlainTerms(terms)
    ensures SerializeInvoice(WithTerms(terms)) == Some(Doc(terms))
  {
    hide Writable, SerializeInvoice;
    WithTermsWritable(terms);
    SomeDoc(terms);
  }

  lemma {:induction false} SomeDoc(terms: string)
    requires PlainTerms(terms) && Writable(WithTerms(terms))
    ensures SerializeInvoice(WithTerms(terms)).Some?
  {
  }

  lemma {:induction false} FrontierHas(terms: string, op: TextOp)
    requires PlainTerms(terms) && TextEnabled(terms, op)
    ensures Step(WithTerms(terms), TermsOp(op)) in OneStep(WithTerms(terms))
  {
    hide TextEnabled, OneStep, Step;
    TermsFrontier(terms);
    TextOpsExact(terms, op);
    var k :| 0 <= k < |TextOps(terms)| && TextOps(terms)[k] == op;
    assert OneStep(WithTerms(terms))[k] == Step(WithTerms(terms), TermsOp(op));
  }

  // ---------------------------------------------------------------- the run

  lemma {:induction false} TermsPending(terms: string, checked: set<Element>)
    requires PlainTerms(terms)
    ensures Pending(OneStep(WithTerms(terms)), checked).Some?
  {
    hide SerializeInvoice, OneStep, PlainTerms, TextEnabled;
    forall r | r in OneStep(WithTerms(terms)) ensures SerializeInvoice(r.invoice).Some? {
      var op := FrontierMember(terms, r);
    }
    PendingWritten(OneStep(WithTerms(terms)), checked);
  }

  /** The finding shows for exactly three payment terms. */
  predicate Shows(x: Element) {
    x == Doc("XYZW") || x == Doc("XY") || x == Doc("A")
  }

  function ExampleOracles(): (o: Oracles) {
    Oracles(x => true, (n, x) => if Shows(x) then Preserved else Lost)
  }

  lemma {:induction false} NoHit(ts: seq<Trial>, status: map<Element, Status>, asked: seq<Element>)
    requires forall t :: t in ts ==> !Shows(t.xml)
    ensures Try(ts, status, asked, ExampleOracles(), true).Exhausted?
  {
    hide Shows;
    if ts != [] {
      NoHit(ts[1..], status[ts[0].xml := LostAt(|asked|)], asked + [ts[0].xml]);
    }
  }

  lemma {:induction false} FourLetters()
    ensures PlainTerms("XYZW") && PlainTerms("XY") && PlainTerms("A")
    ensures ReduceText("XYZW", KeepPrefixHalf) == "XY" && ReduceText("XYZW", ReplaceMinimal) == "A"
    ensures TextEnabled("XYZW", KeepPrefixHalf) && TextEnabled("XYZW", ReplaceMinimal)
  {
    var s := "XYZW";
    assert s[..2] == "XY" && s[2..] == "ZW" && s[..3] == "XYZ" && s[1..] == "YZW";
    assert ReduceText(s, TEXT_OPS[0]) == "XY" && ReduceText(s, TEXT_OPS[1]) == "ZW";
    assert ReduceText(s, TEXT_OPS[2]) == "XYZ" && ReduceText(s, TEXT_OPS[3]) == "YZW";
    assert "XY"[0] != "A"[0] && |"ZW"| != |"A"|;
  }

  lemma {:induction false} TwoLetters(op: TextOp)
    ensures ReduceText("XY", op) in {"X", "Y", "A"}
    ensures TextEnabled("XY", ReplaceMinimal) && ReduceText("XY", ReplaceMinimal) == "A"
  {
    var s := "XY";
    assert s[..1] == "X" && s[1..] == "Y";
    assert "X"[0] != "A"[0] && "Y"[0] != "A"[0];
  }

  /** Among the reductions of XY only A shows the finding. */
  lemma {:induction false} ShowsBelow(terms: string)
    requires terms in {"X", "Y", "A"}
    ensures PlainTerms(terms) && (Shows(Doc(terms)) ==> terms == "A")
  {
    hide PlainTerms, Doc;
    FourLetters();
    assert PlainTerms(terms) by { LetterIsPlain(terms); }
    if terms != "A" {
      assert terms[0] != "A"[0];
      assert |terms| != |"XY"| && |terms| != |"XYZW"|;
      DocsDiffer(terms, "XYZW");
      DocsDiffer(terms, "XY");
      DocsDiffer(terms, "A");
    }
  }

  lemma {:induction false} LetterIsPlain(terms: string)
    requires terms in {"X", "Y", "A"}
    ensures PlainTerms(terms)
  {
  }

  /** The run begins with XYZW as the only checked document. */
  lemma {:induction false} FirstState() returns (s: State)
    ensures PlainTerms("XYZW")
    ensures s.current == WithTerms("XYZW") && s.status == map[Doc("XYZW") := Start] && s.asked == [Doc("XYZW")]
    ensures Sound(s, ExampleOracles()) && ValidInvoice(s.current)
    ensures Shrunk(WithTerms("XYZW"), ExampleOracles(), true) == Run(s, ExampleOracles(), true)
  {
    hide Document, SumsOf, TotalsFit, OneStep, PlainTerms, Shows, Doc, Sound, ValidInvoice;
    FourLetters();
    DocOf("XYZW");
    ShowsThem();
    var o := ExampleOracles();
    s := Begin(WithTerms("XYZW"), o).value;
    BeginIsSound(WithTerms("XYZW"), o);
    SoundIsValid(s, o);
  }

  /** The first round accepts XY and defers A. */
  lemma {:induction false} FirstRound() returns (s: State)
    ensures PlainTerms("A")
    ensures s.current == WithTerms("XY") && Doc("A") in s.status && s.status[Doc("A")].DeferredBehind?
    ensures Sound(s, ExampleOracles()) && ValidInvoice(s.current)
    ensures Shrunk(WithTerms("XYZW"), ExampleOracles(), true) == Run(s, ExampleOracles(), true)
  {
    hide OneStep, SerializeInvoice, PlainTerms, TextEnabled, ReduceText, Step, Shows, Doc, Sound, ValidInvoice, Shrunk, Pending, HitStatus;
    FourLetters();
    ShowsThem();
    var o := ExampleOracles();
    var s0 := FirstState();
    TermsPending("XYZW", s0.status.Keys);
    var ts := Pending(OneStep(WithTerms("XYZW")), s0.status.Keys).value;
    FirstCandidate(s0.status.Keys, ts);
    DeferredMinimal(s0.status, ts);
    var reduction := ts[0].reduction;
    var status := HitStatus(ts[0], ts[1..], s0.status, 1, true);
    var asked := s0.asked + [ts[0].xml];
    assert Try(ts, s0.status, s0.asked, o, true) == Hit(reduction, status, asked);
    HitIsSound(s0, o, true, ts, reduction, status, asked);
    s := State(reduction.invoice, s0.accepted + [reduction.operation], status, asked);
    SoundIsValid(s, o);
  }

  lemma {:induction false} ShowsThem()
    ensures PlainTerms("XYZW") && PlainTerms("XY") && PlainTerms("A")
    ensures Shows(Doc("XYZW")) && Shows(Doc("XY")) && Shows(Doc("A"))
  {
    hide PlainTerms, Doc;
    FourLetters();
  }

  lemma {:induction false} FirstCandidate(checked: set<Element>, ts: seq<Trial>)
    requires PlainTerms("XYZW") && PlainTerms("XY") && checked == {Doc("XYZW")}
    requires Pending(OneStep(WithTerms("XYZW")), checked) == Some(ts)
    ensures ts != [] && ts[0].xml == Doc("XY") && ts[0].reduction.invoice == WithTerms("XY")
  {
    hide SerializeInvoice, OneStep, Writable, TextEnabled, ReduceText, Step, Doc, Payload;
    FourLetters();
    TermsFrontier("XYZW");
    assert TEXT_OPS[0] == KeepPrefixHalf;
    assert TextOps("XYZW")[0] == KeepPrefixHalf;
    StepIsNew("XYZW", KeepPrefixHalf);
    DocOf("XY");
    assert |"XY"| != |"XYZW"|;
    DocsDiffer("XY", "XYZW");
  }

  lemma {:induction false} DeferredMinimal(status: map<Element, Status>, ts: seq<Trial>)
    requires PlainTerms("XYZW") && PlainTerms("XY") && PlainTerms("A") && status == map[Doc("XYZW") := Start]
    requires Pending(OneStep(WithTerms("XYZW")), status.Keys) == Some(ts)
    requires ts != [] && ts[0].xml == Doc("XY")
    ensures Doc("A") in HitStatus(ts[0], ts[1..], status, 1, true)
    ensures HitStatus(ts[0], ts[1..], status, 1, true)[Doc("A")] == DeferredBehind(1)
  {
    hide SerializeInvoice, OneStep, Writable, TextEnabled, ReduceText, Step, Doc, Payload, Pending, PlainTerms;
    FourLetters();
    FrontierHas("XYZW", ReplaceMinimal);
    var r := Step(WithTerms("XYZW"), TermsOp(ReplaceMinimal));
    StepIsNew("XYZW", ReplaceMinimal);
    DocOf("A");
    PendingCovers(OneStep(WithTerms("XYZW")), status.Keys, r);
    assert |"A"| != |"XY"| && |"A"| != |"XYZW"|;
    DocsDiffer("A", "XY");
    DocsDiffer("A", "XYZW");
    var t :| t in ts && t.xml == Doc("A");
    assert ts == [ts[0]] + ts[1..];
    assert t in ts[1..];
  }

  /**
   Payment terms XYZW with a finding that shows for XYZW, XY and A only: the run ends at XY,
   although A is a valid one-step reduction of XY that shows the finding. It was deferred
   when XY was accepted and stays in the checked set for ever.
   */
  lemma {:induction false} NotAlwaysMinimal()
    ensures var o := ExampleOracles();
      && Functional(o, Shows)
      && Shrunk(WithTerms("XYZW"), o, true).Some?
      && Shrunk(WithTerms("XYZW"), o, true).value.current == WithTerms("XY")
      && !OneMinimal(WithTerms("XY"), o.valid, Shows)
  {
    hide OneStep, SerializeInvoice, PlainTerms, Shows, Doc, Sound, ValidInvoice, Shrunk, Try, Pending;
    var o := ExampleOracles();
    var s := FirstRound();
    FourLetters();
    TermsPending("XY", s.status.Keys);
    var ts := Pending(OneStep(WithTerms("XY")), s.status.Keys).value;
    NothingLeft(s, ts);
    NoHit(ts, s.status, s.asked);
    MinimalIsBelow();
  }

  /** A is a valid reduction of XY that shows the finding. */
  lemma {:induction false} MinimalIsBelow()
    ensures !OneMinimal(WithTerms("XY"), ExampleOracles().valid, Shows)
  {
    hide OneStep, SerializeInvoice, PlainTerms, TextEnabled, ReduceText, Step, Shows, Doc;
    FourLetters();
    ShowsThem();
    TwoLetters(ReplaceMinimal);
    FrontierHas("XY", ReplaceMinimal);
    var r := Step(WithTerms("XY"), TermsOp(ReplaceMinimal));
    StepIsNew("XY", ReplaceMinimal);
    DocOf("A");
    assert r in OneStep(WithTerms("XY")) && SerializeInvoice(r.invoice) == Some(Doc("A"));
  }

  lemma {:induction false} NothingLeft(s: State, ts: seq<Trial>)
    requires PlainTerms("XY") && PlainTerms("A") && Doc("A") in s.status
    requires Pending(OneStep(WithTerms("XY")), s.status.Keys) == Some(ts)
    ensures forall t :: t in ts ==> !Shows(t.xml)
  {
    hide SerializeInvoice, OneStep, TextEnabled, ReduceText, Step, Shows, Doc, PlainTerms;
    PendingIsFresh(OneStep(WithTerms("XY")), s.status.Keys);
    FreshDisjoint(ts, s.status.Keys);
    forall t | t in ts ensures !Shows(t.xml) {
      assert t.xml in Docs(ts);
      var op := FrontierMember("XY", t.reduction);
      TwoLetters(op);
      ShowsBelow(ReduceText("XY", op));
    }
  }

  /** For the invoices of this example the condition is the length of the terms. */
  lemma {:induction false} MinimalForShortTerms(terms: string)
    requires PlainTerms(terms)
    ensures AlwaysMinimal(WithTerms(terms)) <==> |terms| <= 2
  {
    hide Writable, ValidInvoice, AlwaysMinimal, ValidLine;
    WithTermsWritable(terms);
    WritableIsValid(WithTerms(terms));
    BareLine();
    OneIsValid();
    EveryField(OfInvoice(PaymentTerms));
    assert FieldText(WithTerms(terms), OfInvoice(PaymentTerms)) == terms;
    MinimalIfShort(WithTerms(terms));
  }
}
