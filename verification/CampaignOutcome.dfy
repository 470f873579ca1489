/** When a campaign answers: with a truthful cache and a steady importer, exactly which findings are reported. */
module CampaignOutcome {
  import opened Basics
  import opened Invoices
  import opened Totals
  import opened Trees
  import opened Json
  import opened Fingerprint
  import opened Serialize
  import opened Parse
  import opened Reductions
  import opened Enumerate
  import opened Measure
  import opened Shrink
  import opened ShrinkRuns
  import opened ShrinkExit
  import opened ShrinkGreedy
  import opened Observed
  import opened Corpus
  import opened CampaignFacts

  // ---------------------------------------------------------------- the independent check

  /** The k-th reduction can be written, is valid, and gets verdict v. */
  ghost predicate Answers(w: World, inv: Invoice, k: nat, digest: string, signature: Signature, v: Verdict) {
    && k < |OneStep(inv)| && SerializeInvoice(OneStep(inv)[k].invoice).Some?
    && Judge(w, SerializeInvoice(OneStep(inv)[k].invoice).value)
    && VerdictAt(w, 0, SerializeInvoice(OneStep(inv)[k].invoice).value, digest, signature) == v
  }

  /** Every reduction on which the importer's output is refused lies behind one that is confirmed. */
  ghost predicate RefusalsBehind(w: World, inv: Invoice, digest: string, signature: Signature) {
    forall k: nat :: Answers(w, inv, k, digest, signature, Raised) ==> SomeBefore(w, inv, k, digest, signature)
  }

  ghost predicate SomeBefore(w: World, inv: Invoice, k: nat, digest: string, signature: Signature) {
    exists j: nat :: j < k && Answers(w, inv, j, digest, signature, Preserved)
  }

  ghost predicate NoRefusal(w: World, inv: Invoice, digest: string, signature: Signature) {
    forall k: nat :: !Answers(w, inv, k, digest, signature, Raised)
  }

  /** A minimal invoice has no confirmed reduction for a refusal to lie behind. */
  lemma {:induction false} MinimalRefusals(w: World, inv: Invoice, digest: string, signature: Signature)
    requires OneMinimal(inv, JudgedBy(w), PreservedBy(w, digest, signature))
    ensures RefusalsBehind(w, inv, digest, signature) <==> NoRefusal(w, inv, digest, signature)
  {
    hide OneStep, SerializeInvoice, VerdictAt, Judge;
    forall j: nat ensures !Answers(w, inv, j, digest, signature, Preserved) {
      assert j < |OneStep(inv)| ==> OneStep(inv)[j] in OneStep(inv);
    }
  }

  /** A refuted document is invalid or has lost the finding; a confirmed one is valid and shows it. */
  lemma {:induction false} RefutedVerdict(e: Evidence, x: Element, base: nat, digest: string, signature: Signature)
    requires CacheTruth(e.world, e.cache) && Steady(e.world, digest)
    ensures Refuted(e, x, base, digest, signature) ==> !Judge(e.world, x) || VerdictAt(e.world, 0, x, digest, signature) == Lost
    ensures Confirmed(e, x, base, digest, signature) ==> Judge(e.world, x) && VerdictAt(e.world, 0, x, digest, signature) == Preserved
  {
    hide Judge, Pointwise, VerdictAt, Steady;
    forall n: nat ensures VerdictAt(e.world, n, x, digest, signature) == VerdictAt(e.world, 0, x, digest, signature) {
      SteadyVerdict(e.world, n, x, digest, signature);
    }
  }

  /** The loop over the reductions was stopped by a refusal: it lies behind no confirmed reduction. */
  lemma {:induction false} StoppedByRefusal(e: Evidence, inv: Invoice, docs: seq<Element>, at: nat, n: nat, base: nat, digest: string, signature: Signature)
    requires CacheTruth(e.world, e.cache) && Steady(e.world, digest)
    requires DocsOf(OneStep(inv), docs) && at < |docs| && IsKnown(e, docs[at])
    requires VerdictAt(e.world, n, docs[at], digest, signature) == Raised
    requires forall i :: 0 <= i < at ==> Refuted(e, docs[i], base, digest, signature)
    ensures !RefusalsBehind(e.world, inv, digest, signature)
  {
    hide OneStep, SerializeInvoice, VerdictAt, Judge, Pointwise, Steady, Refuted, Confirmed;
    SteadyVerdict(e.world, n, docs[at], digest, signature);
    assert Answers(e.world, inv, at, digest, signature, Raised);
    forall j: nat | j < at ensures !Answers(e.world, inv, j, digest, signature, Preserved) {
      RefutedVerdict(e, docs[j], base, digest, signature);
    }
    assert !SomeBefore(e.world, inv, at, digest, signature);
  }

  /** The loop came to an answer: all reductions were refuted, or those before a confirmed one. */
  lemma {:induction false} NotStopped(e: Evidence, inv: Invoice, docs: seq<Element>, first: Option<nat>, base: nat, digest: string, signature: Signature)
    requires CacheTruth(e.world, e.cache) && Steady(e.world, digest) && DocsOf(OneStep(inv), docs)
    requires first.Some? ==> first.value < |docs| && Confirmed(e, docs[first.value], base, digest, signature)
    requires forall i :: 0 <= i < (if first.Some? then first.value else |docs|) ==> Refuted(e, docs[i], base, digest, signature)
    ensures RefusalsBehind(e.world, inv, digest, signature)
  {
    hide OneStep, SerializeInvoice, VerdictAt, Judge, Pointwise, Steady, Refuted, Confirmed;
    forall k: nat | Answers(e.world, inv, k, digest, signature, Raised) ensures SomeBefore(e.world, inv, k, digest, signature) {
      RefutedVerdict(e, docs[k], base, digest, signature);
      if first.Some? {
        RefutedVerdict(e, docs[first.value], base, digest, signature);
        assert Answers(e.world, inv, first.value, digest, signature, Preserved);
        assert first.value < k;
      }
    }
  }

  // ---------------------------------------------------------------- shrinking and checking again

  /** Shrinking the invoice in document x, with importer runs from number base on, ends in a 1-minimal invoice that can be checked. */
  ghost predicate MinimizesFrom(w: World, x: Element, base: nat, digest: string, signature: Signature) {
    && ParseInvoice(x).Ok?
    && MinimizesInvoice(w, ParseInvoice(x).value, base, digest, signature)
  }

  ghost predicate MinimizesInvoice(w: World, inv: Invoice, base: nat, digest: string, signature: Signature) {
    var f := Shrunk(inv, OraclesFrom(w, base, digest, signature), true);
    && f.Some? && OneMinimal(f.value.current, JudgedBy(w), PreservedBy(w, digest, signature))
    && NoRefusal(w, f.value.current, digest, signature)
  }

  /** One target that answers by the document. */
  ghost predicate SteadyWorld(w: World) {
    exists digest :: Steady(w, digest)
  }

  lemma {:induction false} SteadyDigest(w: World, n: nat, x: Element)
    ensures SteadyWorld(w) ==> Steady(w, w.importer(n, x).targetDigest)
  {
    if SteadyWorld(w) {
      var digest :| Steady(w, digest);
      assert w.importer(n, x).targetDigest == digest;
    }
  }

  /** The result of a shrink run passes the initial check of the independent verification, whose frontier can be written. */
  lemma {:induction false} ShrunkChecksAgain(w: World, inv: Invoice, base: nat, later: nat, digest: string, signature: Signature)
    requires Steady(w, digest) && Shrunk(inv, OraclesFrom(w, base, digest, signature), true).Some?
    ensures var f := Shrunk(inv, OraclesFrom(w, base, digest, signature), true).value;
      && Begin(f.current, OraclesFrom(w, later, digest, signature)).Some? && FrontierWritten(f.current)
      && SerializeInvoice(f.current).Some? && Judge(w, SerializeInvoice(f.current).value)
      && PreservedBy(w, digest, signature)(SerializeInvoice(f.current).value)
  {
    hide ValidInvoice, OneStep, VerdictAt, Judge, Steady, InvoiceMeasure, Truthful, SettledAbove, Reaches, Shrunk, Document, SumsOf, TotalsFit;
    var o := OraclesFrom(w, base, digest, signature);
    ShrinkResult(inv, o, true);
    var f := Shrunk(inv, o, true).value;
    var n: nat :| n < |f.asked| && SerializeInvoice(f.current) == Some(f.asked[n])
      && o.valid(f.asked[n]) && o.finding(n, f.asked[n]) == Preserved;
    SteadyVerdict(w, base + n, f.asked[n], digest, signature);
    SteadyVerdict(w, later, f.asked[n], digest, signature);
    forall r | r in OneStep(f.current) ensures SerializeInvoice(r.invoice).Some? {
      assert Accounted(r, f.status);
    }
  }

  /** What the report needs to know about the shrunk invoice. */
  ghost predicate ReadyToCheck(w: World, inv: Invoice, r: ShrinkOutcome, base: nat, later: nat, digest: string, signature: Signature) {
    && Begin(r.invoice, OraclesFrom(w, later, digest, signature)).Some? && FrontierWritten(r.invoice)
    && SerializeInvoice(r.invoice).Some? && Judge(w, SerializeInvoice(r.invoice).value)
    && PreservedBy(w, digest, signature)(SerializeInvoice(r.invoice).value)
    && Some(r) == OutcomeOf(Shrunk(inv, OraclesFrom(w, base, digest, signature), true))
    && (MinimizesInvoice(w, inv, base, digest, signature) <==>
         OneMinimal(r.invoice, JudgedBy(w), PreservedBy(w, digest, signature)) && NoRefusal(w, r.invoice, digest, signature))
  }

  lemma {:induction false} ShrunkIsReported(w: World, inv: Invoice, r: Option<ShrinkOutcome>, base: nat, later: nat, digest: string, signature: Signature)
    requires base <= later
    ensures Steady(w, digest) && ReportsShrunk(r, inv, OraclesFrom(w, base, digest, signature), later - base) ==>
      if r.None? then !MinimizesInvoice(w, inv, base, digest, signature)
      else ReadyToCheck(w, inv, r.value, base, later, digest, signature)
  {
    hide Steady, SerializeInvoice, Judge, PreservedBy, FrontierWritten, Begin, Shrunk, OneMinimal, JudgedBy, Payload, OraclesFrom, NoRefusal;
    if Steady(w, digest) && ReportsShrunk(r, inv, OraclesFrom(w, base, digest, signature), later - base) && r.Some? {
      ShrunkChecksAgain(w, inv, base, later, digest, signature);
    }
  }

  // ---------------------------------------------------------------- the record

  /** All observations so far are what the steady importer shows on x. */
  predicate SteadySeen(w: World, x: Element, observations: seq<Observation>) {
    observations == seq(|observations|, _ => w.importer(0, x).observation)
  }

  lemma {:induction false} NothingSeen(w: World, x: Element)
    ensures SteadySeen(w, x, [])
  {
  }

  lemma {:induction false} SteadyFirst(w: World, x: Element, observations: seq<Observation>)
    requires SteadySeen(w, x, observations)
    ensures observations != [] ==> observations[0] == w.importer(0, x).observation
  {
  }

  lemma {:induction false} SteadySnoc(w: World, x: Element, observations: seq<Observation>, o: Observation)
    requires SteadySeen(w, x, observations) && o == w.importer(0, x).observation
    ensures SteadySeen(w, x, observations + [o])
  {
  }

  /** A run of a steady importer is like any other run on the document. */
  lemma {:induction false} SteadyRun(w: World, n: nat, x: Element, digest: string, signature: Signature)
    ensures Steady(w, digest) ==> w.importer(n, x) == w.importer(0, x) && w.importer(n, x).targetDigest == digest
    ensures Steady(w, digest) ==>
      (PreservedBy(w, digest, signature)(x) <==>
        var evaluation := Evaluated(w, w.importer(0, x), x);
        && evaluation.Some? && evaluation.value.matched
        && SignatureOf(w.importer(0, x), evaluation.value, w.outputSensitive) == signature)
  {
    hide SignatureOf, Evaluated;
  }

  /** The record that a steady world leads to: everything in it follows from the candidate, its signature, and the shrink run. */
  function ExpectedRecord(w: World, c: Candidate, f: State, x: Element, digest: string, signature: Signature, reproductions: nat): (r: Record) {
    Record(
      c.index, signature.name, digest, x, Payload(f.current), signature.termination, signature.returncode, signature.details,
      c.operations, true, reproductions, seq(reproductions, _ => w.importer(0, x).observation), |f.status.Keys|, f.accepted,
      1 + |OneStep(f.current)|)
  }

  /** The record of the shrunk candidate can be packed. */
  ghost predicate PacksFrom(w: World, c: Candidate, base: nat, digest: string, signature: Signature, reproductions: nat) {
    && ParseInvoice(c.xml).Ok?
    && var f := Shrunk(ParseInvoice(c.xml).value, OraclesFrom(w, base, digest, signature), true);
      && f.Some? && SerializeInvoice(f.value.current).Some?
      && w.pack(c, ExpectedRecord(w, c, f.value, SerializeInvoice(f.value.current).value, digest, signature, reproductions)).Some?
  }

  /** A matched candidate is reported: it is shrunk to a 1-minimal invoice, and its record can be packed. */
  ghost predicate Reports(w: World, c: Candidate, base: nat, digest: string, signature: Signature, reproductions: nat) {
    MinimizesFrom(w, c.xml, base, digest, signature) && PacksFrom(w, c, base, digest, signature, reproductions)
  }

  /** In a steady world the record is the expected one. */
  lemma {:induction false} RecordIsExpected(w: World, c: Candidate, shrunk: ShrinkOutcome, minimality: Minimality, last: Reproduction,
    reproductions: nat, f: State, x: Element, digest: string, signature: Signature)
    requires Some(shrunk) == OutcomeOf(Some(f)) && SerializeInvoice(f.current) == Some(x)
    requires minimality == Minimality(1 + |OneStep(f.current)|, None)
    requires LastOf(last, digest, signature) && |last.observations| == reproductions && SteadySeen(w, x, last.observations)
    ensures MakeRecord(c, x, shrunk, minimality, last, reproductions) == ExpectedRecord(w, c, f, x, digest, signature, reproductions)
  {
    hide OneStep, SerializeInvoice, Payload;
  }

  lemma {:induction false} PackDecides(w: World, c: Candidate, shrunk: ShrinkOutcome, minimality: Minimality, last: Reproduction,
    reproductions: nat, base: nat, x: Element, digest: string, signature: Signature)
    requires ParseInvoice(c.xml).Ok?
    requires Some(shrunk) == OutcomeOf(Shrunk(ParseInvoice(c.xml).value, OraclesFrom(w, base, digest, signature), true))
    requires SerializeInvoice(shrunk.invoice) == Some(x)
    requires minimality == Minimality(1 + |OneStep(shrunk.invoice)|, None)
    requires LastOf(last, digest, signature) && |last.observations| == reproductions && SteadySeen(w, x, last.observations)
    ensures PacksFrom(w, c, base, digest, signature, reproductions) <==>
      w.pack(c, MakeRecord(c, x, shrunk, minimality, last, reproductions)).Some?
  {
    hide OneStep, SerializeInvoice, Payload, ParseInvoice, Shrunk, OraclesFrom, LastOf, SteadySeen, MakeRecord, ExpectedRecord;
    var f := Shrunk(ParseInvoice(c.xml).value, OraclesFrom(w, base, digest, signature), true).value;
    RecordIsExpected(w, c, shrunk, minimality, last, reproductions, f, x, digest, signature);
  }

  // ---------------------------------------------------------------- the whole campaign

  /** The candidate that importer run i matched on is reported. */
  ghost predicate MatchReports(w: World, candidates: seq<Candidate>, i: nat, reproductions: nat) {
    && FirstMatch(w, candidates, i) && SignatureAt(w, i, candidates[i].xml).Some?
    && Reports(w, candidates[i], i + 1, w.importer(i, candidates[i].xml).targetDigest, SignatureAt(w, i, candidates[i].xml).value, reproductions)
  }

  /**
   The arguments are legal, the corpus is valid, and the predicate can be evaluated on all
   candidates without a match, or on those before the first match, which is reported.
   */
  ghost predicate Completes(w: World, seed: Element, candidates: seq<Candidate>, reproductions: nat) {
    && |candidates| <= 10000 && 1 <= reproductions <= 100
    && (forall x :: x in CorpusDocs(seed, candidates) ==> Judge(w, x))
    && (NoneMatched(w, candidates, |candidates|) || exists i: nat :: MatchReports(w, candidates, i, reproductions))
  }

  lemma {:induction false} OneFirstMatch(w: World, candidates: seq<Candidate>, i: nat, j: nat)
    requires FirstMatch(w, candidates, i) && NoneMatched(w, candidates, j) && j <= |candidates|
    ensures j <= i
    ensures j < |candidates| && !AnsweredAt(w, j, candidates[j].xml, false) ==> i == j
  {
    hide Evaluated;
  }

  lemma {:induction false} CompletesOnlyLegal(w: World, seed: Element, candidates: seq<Candidate>, reproductions: nat)
    ensures Completes(w, seed, candidates, reproductions) ==> |candidates| <= 10000 && 1 <= reproductions <= 100
    ensures Completes(w, seed, candidates, reproductions) ==> forall x :: x in CorpusDocs(seed, candidates) ==> Judge(w, x)
  {
    hide MatchReports, CorpusDocs, Judge, NoneMatched;
  }

  /** At a candidate that did not answer "no match" the campaign ends: it completes if that candidate is a match that is reported. */
  lemma {:induction false} CompletesAt(w: World, seed: Element, candidates: seq<Candidate>, reproductions: nat, i: nat)
    requires i < |candidates| && NoneMatched(w, candidates, i) && !AnsweredAt(w, i, candidates[i].xml, false)
    requires |candidates| <= 10000 && 1 <= reproductions <= 100
    ensures (forall x :: x in CorpusDocs(seed, candidates) ==> Judge(w, x)) ==>
      (Completes(w, seed, candidates, reproductions) <==> MatchReports(w, candidates, i, reproductions))
  {
    hide Reports, CorpusDocs, Judge, AnsweredAt;
    assert !NoneMatched(w, candidates, |candidates|);
    forall j: nat | MatchReports(w, candidates, j, reproductions) ensures j == i {
      OneFirstMatch(w, candidates, j, i);
    }
  }

  lemma {:induction false} CompletesWithout(w: World, seed: Element, candidates: seq<Candidate>, reproductions: nat)
    requires NoneMatched(w, candidates, |candidates|) && |candidates| <= 10000 && 1 <= reproductions <= 100
    ensures (forall x :: x in CorpusDocs(seed, candidates) ==> Judge(w, x)) ==> Completes(w, seed, candidates, reproductions)
  {
    hide MatchReports, CorpusDocs, Judge, NoneMatched;
  }
}
