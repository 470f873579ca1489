/** What a campaign collects as evidence, and the bookkeeping of its batches and rounds. */
module CampaignFacts {
  import opened Basics
  import opened Invoices
  import opened Totals
  import opened Digits
  import opened Trees
  import opened Json
  import opened Fingerprint
  import opened Serialize
  import opened Parse
  import opened Reductions
  import opened Enumerate
  import opened Measure
  import OneStepReductions
  import opened Shrink
  import opened ShrinkRuns
  import opened ShrinkExit
  import opened ShrinkTotal
  import opened ShrinkGreedy
  import opened Observed
  import opened Corpus

  // ---------------------------------------------------------------- evidence

  /** What the campaign has seen so far: cached judgements, and the document of each importer run. */
  datatype Evidence = Evidence(world: World, cache: map<Digest, bool>, executed: seq<Element>)

  /** Evidence is only ever added. */
  ghost predicate Extends(a: Evidence, b: Evidence) {
    a.world == b.world && CacheGrows(a.cache, b.cache) && a.executed <= b.executed
  }

  /** Every cached answer is the validator's answer for that document. */
  ghost predicate CacheTruth(w: World, cache: map<Digest, bool>) {
    Pointwise(w) && forall d :: d in cache ==> cache[d] == Judge(w, d.document)
  }

  predicate IsKnown(e: Evidence, x: Element) {
    Sha256(x) in e.cache && e.cache[Sha256(x)]
  }

  /** The document was judged invalid, or an importer run from number base on did not show the finding. */
  ghost predicate Refuted(e: Evidence, x: Element, base: nat, digest: string, signature: Signature) {
    || (Sha256(x) in e.cache && !e.cache[Sha256(x)])
    || (exists n :: base <= n < |e.executed| && e.executed[n] == x && VerdictAt(e.world, n, x, digest, signature) == Lost)
  }

  /** Some importer run from number base on did show the finding on this valid document. */
  ghost predicate Confirmed(e: Evidence, x: Element, base: nat, digest: string, signature: Signature) {
    IsKnown(e, x) && exists n :: base <= n < |e.executed| && e.executed[n] == x && VerdictAt(e.world, n, x, digest, signature) == Preserved
  }

  /** Every declared one-step reduction can be written and was refuted. */
  ghost predicate AllRefuted(e: Evidence, inv: Invoice, base: nat, digest: string, signature: Signature) {
    forall r :: r in OneStep(inv) ==>
      SerializeInvoice(r.invoice).Some? && Refuted(e, SerializeInvoice(r.invoice).value, base, digest, signature)
  }

  /** Reduction k can be written; its document was refuted, or confirmed. */
  ghost predicate RefutedAt(e: Evidence, inv: Invoice, k: nat, base: nat, digest: string, signature: Signature) {
    && k < |OneStep(inv)| && SerializeInvoice(OneStep(inv)[k].invoice).Some?
    && Refuted(e, SerializeInvoice(OneStep(inv)[k].invoice).value, base, digest, signature)
  }

  ghost predicate ConfirmedAt(e: Evidence, inv: Invoice, k: nat, base: nat, digest: string, signature: Signature) {
    && k < |OneStep(inv)| && SerializeInvoice(OneStep(inv)[k].invoice).Some?
    && Confirmed(e, SerializeInvoice(OneStep(inv)[k].invoice).value, base, digest, signature)
  }

  /** The answer names the first reduction that was confirmed: those before it were refuted. */
  ghost predicate Reducible(e: Evidence, inv: Invoice, m: Minimality, base: nat, digest: string, signature: Signature) {
    exists k: nat ::
      && ConfirmedAt(e, inv, k, base, digest, signature)
      && m == Minimality(2 + k, Some(OneStep(inv)[k].operation))
      && forall i: nat :: i < k ==> RefutedAt(e, inv, i, base, digest, signature)
  }

  lemma {:induction false} AllAreRefuted(e: Evidence, inv: Invoice, docs: seq<Element>, low: nat, base: nat, digest: string, signature: Signature)
    requires DocsOf(OneStep(inv), docs) && low <= base
    requires forall i :: 0 <= i < |docs| ==> Refuted(e, docs[i], base, digest, signature)
    ensures AllRefuted(e, inv, low, digest, signature)
  {
    hide OneStep, SerializeInvoice, VerdictAt;
    forall r | r in OneStep(inv)
      ensures SerializeInvoice(r.invoice).Some? && Refuted(e, SerializeInvoice(r.invoice).value, low, digest, signature)
    {
      var i :| 0 <= i < |docs| && OneStep(inv)[i] == r;
      assert Refuted(e, docs[i], base, digest, signature);
    }
  }

  lemma {:induction false} OneIsConfirmed(e: Evidence, inv: Invoice, docs: seq<Element>, k: nat, low: nat, base: nat, digest: string, signature: Signature)
    requires DocsOf(OneStep(inv), docs) && low <= base
    requires k < |docs| && Confirmed(e, docs[k], base, digest, signature)
    requires forall i :: 0 <= i < k ==> Refuted(e, docs[i], base, digest, signature)
    ensures Reducible(e, inv, Minimality(2 + k, Some(OneStep(inv)[k].operation)), low, digest, signature)
  {
    hide OneStep, SerializeInvoice, VerdictAt;
    assert ConfirmedAt(e, inv, k, low, digest, signature);
    forall i: nat | i < k ensures RefutedAt(e, inv, i, low, digest, signature) {
      assert Refuted(e, docs[i], base, digest, signature);
    }
  }

  /** What was observed in later runs was observed in runs from an earlier number on. */
  lemma {:induction false} EarlierBase(e: Evidence, inv: Invoice, m: Minimality, low: nat, base: nat, digest: string, signature: Signature)
    requires low <= base
    ensures AllRefuted(e, inv, base, digest, signature) ==> AllRefuted(e, inv, low, digest, signature)
    ensures Reducible(e, inv, m, base, digest, signature) ==> Reducible(e, inv, m, low, digest, signature)
  {
    hide OneStep, SerializeInvoice, VerdictAt;
    if Reducible(e, inv, m, base, digest, signature) {
      var k: nat :| ConfirmedAt(e, inv, k, base, digest, signature)
        && m == Minimality(2 + k, Some(OneStep(inv)[k].operation))
        && forall i: nat :: i < k ==> RefutedAt(e, inv, i, base, digest, signature);
      assert ConfirmedAt(e, inv, k, low, digest, signature);
      forall i: nat | i < k ensures RefutedAt(e, inv, i, low, digest, signature) {
        assert RefutedAt(e, inv, i, base, digest, signature);
      }
    }
  }

  function JudgedBy(w: World): (valid: Element -> bool) {
    x => Judge(w, x)
  }

  /** The importer answers by the document, and stays the same target. */
  ghost predicate Steady(w: World, digest: string) {
    forall n: nat, x :: w.importer(n, x) == w.importer(0, x) && w.importer(n, x).targetDigest == digest
  }

  function PreservedBy(w: World, digest: string, signature: Signature): (preserves: Element -> bool) {
    x => VerdictAt(w, 0, x, digest, signature) == Preserved
  }

  lemma {:induction false} SteadyVerdict(w: World, n: nat, x: Element, digest: string, signature: Signature)
    requires Steady(w, digest)
    ensures VerdictAt(w, n, x, digest, signature) == VerdictAt(w, 0, x, digest, signature)
  {
    assert w.importer(n, x) == w.importer(0, x);
  }

  /** A steady importer whose runs the predicate never refuses to evaluate. */
  ghost predicate Decisive(w: World, digest: string) {
    Steady(w, digest) && forall x :: Evaluated(w, w.importer(0, x), x).Some?
  }

  lemma {:induction false} DecisiveVerdict(w: World, n: nat, x: Element, digest: string, signature: Signature)
    requires Decisive(w, digest)
    ensures VerdictAt(w, n, x, digest, signature) == if PreservedBy(w, digest, signature)(x) then Preserved else Lost
  {
    hide SignatureOf, Evaluated;
    assert w.importer(n, x) == w.importer(0, x) && w.importer(n, x).targetDigest == digest;
  }

  lemma {:induction false} SteadyIsFunctional(w: World, base: nat, digest: string, signature: Signature)
    requires Decisive(w, digest)
    ensures Functional(OraclesFrom(w, base, digest, signature), PreservedBy(w, digest, signature))
  {
    hide VerdictAt, Decisive;
    forall n: nat, x
      ensures OraclesFrom(w, base, digest, signature).finding(n, x)
        == if PreservedBy(w, digest, signature)(x) then Preserved else Lost
    {
      DecisiveVerdict(w, base + n, x, digest, signature);
    }
  }

  /**
   With a truthful cache and a steady importer the answer of the independent check is exact: it is
   "minimal" if every reduction was refuted, and then the invoice is 1-minimal; a confirmed
   reduction shows that it is not.
   */
  lemma {:induction false} AnswerIsExact(e: Evidence, inv: Invoice, m: Minimality, base: nat, digest: string, signature: Signature)
    requires CacheTruth(e.world, e.cache) && Steady(e.world, digest)
    requires if m.reducing.None? then AllRefuted(e, inv, base, digest, signature) else Reducible(e, inv, m, base, digest, signature)
    ensures m.reducing.None? <==> OneMinimal(inv, JudgedBy(e.world), PreservedBy(e.world, digest, signature))
  {
    hide OneStep, SerializeInvoice, VerdictAt, Judge, Pointwise, Steady, OneMinimal;
    var preserves := PreservedBy(e.world, digest, signature);
    forall n: nat, x ensures VerdictAt(e.world, n, x, digest, signature) == Preserved <==> preserves(x) {
      SteadyVerdict(e.world, n, x, digest, signature);
    }
    if m.reducing.None? {
      RefutedIsMinimal(e, inv, base, digest, signature, preserves);
    } else {
      ReducibleIsNotMinimal(e, inv, m, base, digest, signature, preserves);
    }
  }

  lemma {:induction false} RefutedIsMinimal(e: Evidence, inv: Invoice, base: nat, digest: string, signature: Signature, preserves: Element -> bool)
    requires CacheTruth(e.world, e.cache)
    requires forall n: nat, x :: VerdictAt(e.world, n, x, digest, signature) == Preserved <==> preserves(x)
    requires AllRefuted(e, inv, base, digest, signature)
    ensures OneMinimal(inv, JudgedBy(e.world), preserves)
  {
    hide OneStep, SerializeInvoice, VerdictAt, Judge, Pointwise;
    forall r | r in OneStep(inv) && SerializeInvoice(r.invoice).Some?
      ensures !(Judge(e.world, SerializeInvoice(r.invoice).value) && preserves(SerializeInvoice(r.invoice).value))
    {
      assert Refuted(e, SerializeInvoice(r.invoice).value, base, digest, signature);
    }
  }

  lemma {:induction false} ReducibleIsNotMinimal(e: Evidence, inv: Invoice, m: Minimality, base: nat, digest: string,
    signature: Signature, preserves: Element -> bool)
    requires CacheTruth(e.world, e.cache)
    requires forall n: nat, x :: VerdictAt(e.world, n, x, digest, signature) == Preserved <==> preserves(x)
    requires Reducible(e, inv, m, base, digest, signature)
    ensures !OneMinimal(inv, JudgedBy(e.world), preserves)
  {
    hide OneStep, SerializeInvoice, VerdictAt, Judge, Pointwise, RefutedAt;
    var k: nat :| ConfirmedAt(e, inv, k, base, digest, signature) && m == Minimality(2 + k, Some(OneStep(inv)[k].operation));
    var r := OneStep(inv)[k];
    assert r in OneStep(inv);
    assert Judge(e.world, SerializeInvoice(r.invoice).value) && preserves(SerializeInvoice(r.invoice).value);
  }

  // ------------------------------------------------------------ reproduction and records

  /** Importer run n was on x and showed the finding with this digest and signature. */
  ghost predicate Shows(e: Evidence, n: nat, x: Element, digest: string, signature: Signature) {
    n < |e.executed| && e.executed[n] == x && VerdictAt(e.world, n, x, digest, signature) == Preserved
  }

  /** Run n showed the finding and was observed as o. */
  ghost predicate ShowsAs(e: Evidence, n: nat, x: Element, o: Observation, digest: string, signature: Signature) {
    Shows(e, n, x, digest, signature) && o == e.world.importer(n, x).observation
  }

  /** Consecutive runs from number first on all showed the finding, with identical observations. */
  ghost predicate Reproduced(e: Evidence, x: Element, first: nat, observations: seq<Observation>, digest: string, signature: Signature) {
    forall k :: 0 <= k < |observations| ==>
      ShowsAs(e, first + k, x, observations[k], digest, signature) && observations[k] == observations[0]
  }

  /** Later evidence keeps what was refuted and shown before. */
  lemma {:induction false} RefutedStays(a: Evidence, b: Evidence, inv: Invoice, base: nat, digest: string, signature: Signature)
    requires Extends(a, b) && AllRefuted(a, inv, base, digest, signature)
    ensures AllRefuted(b, inv, 0, digest, signature)
  {
    hide VerdictAt, OneStep, SerializeInvoice;
    forall r | r in OneStep(inv)
      ensures SerializeInvoice(r.invoice).Some? && Refuted(b, SerializeInvoice(r.invoice).value, 0, digest, signature)
    {
      assert Refuted(a, SerializeInvoice(r.invoice).value, base, digest, signature);
    }
  }

  lemma {:induction false} ShowsStays(a: Evidence, b: Evidence, n: nat, x: Element, digest: string, signature: Signature)
    requires Extends(a, b) && Shows(a, n, x, digest, signature)
    ensures Shows(b, n, x, digest, signature)
  {
    hide VerdictAt, CacheGrows;
  }

  /** The recorded operations lead from the invoice in document x to inv, and the attempts are the documents checked on the way. */
  ghost predicate ReducedFrom(x: Element, accepted: seq<Operation>, attempts: nat, inv: Invoice) {
    ParseInvoice(x).Ok? && ReducedBy(ParseInvoice(x).value, accepted, attempts, inv)
  }

  ghost predicate ReducedBy(start: Invoice, accepted: seq<Operation>, attempts: nat, inv: Invoice) {
    && ValidInvoice(start) && SerializeInvoice(start).Some? && Reaches(start, accepted, inv)
    && |accepted| + InvoiceMeasure(inv) <= InvoiceMeasure(start)
    && attempts == |CheckedBy(start, accepted, inv)|
  }

  /**
   What an emitted record guarantees: it reports the invoice inv, reduced from candidate c by the
   recorded operations. Its document was judged valid, each of its one-step reductions was
   refuted, importer run i on the candidate and all reproductions showed the same signature on the
   same target, the latter with identical observations.
   */
  ghost predicate Emitted(e: Evidence, record: Record, c: Candidate, i: nat, inv: Invoice, signature: Signature, reproductions: nat) {
    && record.caseIndex == c.index && record.mutations == c.operations
    && ReducedFrom(c.xml, record.accepted, record.attempts, inv)
    && SerializeInvoice(inv) == Some(record.xml) && IsKnown(e, record.xml) && record.fingerprint == Payload(inv)
    && record.oneMinimal && AllRefuted(e, inv, 0, record.targetDigest, signature)
    && record.verificationAttempts == 1 + |OneStep(inv)|
    && Shows(e, i, c.xml, record.targetDigest, signature)
    && |record.observations| == record.reproductions == reproductions
    && (exists first :: Reproduced(e, record.xml, first, record.observations, record.targetDigest, signature))
    && (record.name, record.termination, record.returncode, record.details)
       == (signature.name, signature.termination, signature.returncode, signature.details)
  }

  /** _finding_record: how the pieces of a record are put together. */
  function MakeRecord(c: Candidate, xml: Element, shrunk: ShrinkOutcome, minimality: Minimality, last: Reproduction, reproductions: nat): (r: Record) {
    var seen := last.result.observation;
    Record(
      c.index, last.evaluation.name, last.result.targetDigest, xml, shrunk.fingerprint,
      seen.termination, seen.returncode, last.evaluation.details,
      c.operations, minimality.reducing.None?, reproductions, last.observations,
      shrunk.attempts, shrunk.accepted, minimality.attempts)
  }

  lemma {:induction false} RecordIsGood(e: Evidence, c: Candidate, i: nat, xml: Element, shrunk: ShrinkOutcome, minimality: Minimality,
    last: Reproduction, reproductions: nat, first: nat, digest: string, signature: Signature)
    requires SerializeInvoice(shrunk.invoice) == Some(xml) && IsKnown(e, xml)
    requires shrunk.fingerprint == Payload(shrunk.invoice)
    requires ReducedFrom(c.xml, shrunk.accepted, shrunk.attempts, shrunk.invoice)
    requires minimality.reducing.None? && minimality.attempts == 1 + |OneStep(shrunk.invoice)|
    requires AllRefuted(e, shrunk.invoice, 0, digest, signature)
    requires Shows(e, i, c.xml, digest, signature)
    requires Reproduced(e, xml, first, last.observations, digest, signature) && |last.observations| == reproductions
    requires LastOf(last, digest, signature)
    ensures Emitted(e, MakeRecord(c, xml, shrunk, minimality, last, reproductions), c, i, shrunk.invoice, signature, reproductions)
  {
    hide SerializeInvoice, OneStep, Payload, AllRefuted, Shows, Reproduced, ReducedFrom;
  }

  lemma {:induction false} ReproducedNone(e: Evidence, x: Element, first: nat, digest: string, signature: Signature)
    ensures Reproduced(e, x, first, [], digest, signature)
  {
  }

  lemma {:induction false} ReproducedSnoc(a: Evidence, b: Evidence, x: Element, first: nat, observations: seq<Observation>,
    observation: Observation, digest: string, signature: Signature)
    requires Extends(a, b) && Reproduced(a, x, first, observations, digest, signature)
    requires ShowsAs(b, first + |observations|, x, observation, digest, signature)
    requires observations != [] ==> observation == observations[0]
    ensures Reproduced(b, x, first, observations + [observation], digest, signature)
  {
    hide VerdictAt, CacheGrows;
    var all := observations + [observation];
    forall k | 0 <= k < |all|
      ensures ShowsAs(b, first + k, x, all[k], digest, signature) && all[k] == all[0]
    {
      if k < |observations| {
        assert ShowsAs(a, first + k, x, observations[k], digest, signature);
      }
    }
  }

  // ---------------------------------------------------------------- the corpus

  function CorpusIds(candidates: seq<Candidate>): (ids: seq<string>) {
    ["seed"] + Map(candidates, (c: Candidate) => "case-" + Padded(c.index, 6))
  }

  function CorpusDocs(seed: Element, candidates: seq<Candidate>): (docs: seq<Element>) {
    [seed] + Map(candidates, (c: Candidate) => c.xml)
  }

  /** Candidates of one corpus have different numbers and different documents. */
  ghost predicate DistinctCorpus(seed: Element, candidates: seq<Candidate>) {
    Distinct(CorpusDocs(seed, candidates)) && Distinct(Map(candidates, (c: Candidate) => c.index))
  }

  lemma {:induction false} CorpusIdsDiffer(candidates: seq<Candidate>)
    requires Distinct(Map(candidates, (c: Candidate) => c.index))
    ensures Distinct(CorpusIds(candidates))
  {
    hide CorpusIds;
    CorpusSize(candidates);
    var ids := CorpusIds(candidates);
    forall i, j | 0 <= i < j < |ids| ensures ids[i] != ids[j] {
      if i == 0 {
        CorpusIdAt(candidates, j - 1);
        assert ids[j][0] == 'c';
      } else {
        CorpusIdsDifferAt(candidates, i - 1, j - 1);
      }
    }
  }

  lemma {:induction false} CorpusSize(candidates: seq<Candidate>)
    ensures |CorpusIds(candidates)| == |candidates| + 1 && CorpusIds(candidates)[0] == "seed"
  {
    hide Padded;
  }

  lemma {:induction false} CorpusDocsAt(seed: Element, candidates: seq<Candidate>)
    ensures |CorpusDocs(seed, candidates)| == |candidates| + 1
    ensures forall i :: 0 <= i < |candidates| ==> candidates[i].xml in CorpusDocs(seed, candidates)
  {
    forall i | 0 <= i < |candidates| ensures candidates[i].xml in CorpusDocs(seed, candidates) {
      assert CorpusDocs(seed, candidates)[i + 1] == candidates[i].xml;
    }
  }

  lemma {:induction false} CacheOfDocs(docs: seq<Element>)
    ensures forall x :: x in docs ==> Sha256(x) in CacheOf(docs)
    ensures forall d :: d in CacheOf(docs) ==> CacheOf(docs)[d] && d.document in docs
  {
  }

  lemma {:induction false} CorpusIdAt(candidates: seq<Candidate>, k: nat)
    requires k < |candidates|
    ensures CorpusIds(candidates)[k + 1] == "case-" + Padded(candidates[k].index, 6)
  {
    hide Padded;
  }

  lemma {:induction false} CorpusIdsDifferAt(candidates: seq<Candidate>, i: nat, j: nat)
    requires i < j < |candidates| && Distinct(Map(candidates, (c: Candidate) => c.index))
    ensures CorpusIds(candidates)[i + 1] != CorpusIds(candidates)[j + 1]
  {
    hide Padded, CorpusIds;
    CorpusIdAt(candidates, i);
    CorpusIdAt(candidates, j);
    var indices := Map(candidates, (c: Candidate) => c.index);
    assert indices[i] != indices[j];
    var x, y := Padded(candidates[i].index, 6), Padded(candidates[j].index, 6);
    assert ("case-" + x)[5..] == x && ("case-" + y)[5..] == y;
    if x == y {
      PaddedInjective(candidates[i].index, candidates[j].index, 6);
    }
  }

  /** A batch with the given identifiers. */
  method BuildNamed(ids: seq<string>, docs: seq<Element>) returns (cases: map<string, Element>)
    requires |ids| == |docs| && Distinct(ids)
    ensures forall k :: 0 <= k < |ids| ==> ids[k] in cases && cases[ids[k]] == docs[k]
    ensures forall id :: id in cases ==> id in ids
  {
    cases := map[];
    for i := 0 to |ids|
      invariant forall k :: 0 <= k < i ==> ids[k] in cases && cases[ids[k]] == docs[k]
      invariant forall id :: id in cases ==> id in ids
    {
      cases := cases[ids[i] := docs[i]];
    }
  }

  /** A batch is accepted exactly when the validator accepts each of its documents. */
  lemma {:induction false} NamedAnswers(w: World, cases: map<string, Element>, ids: seq<string>, docs: seq<Element>)
    requires |ids| == |docs|
    requires forall k :: 0 <= k < |ids| ==> ids[k] in cases && cases[ids[k]] == docs[k]
    requires forall id :: id in cases ==> id in ids
    ensures Pointwise(w) ==> w.validator(cases).Keys == cases.Keys
    ensures Pointwise(w) ==>
      ((forall id :: id in cases ==> w.validator(cases)[id]) <==> (forall k :: 0 <= k < |docs| ==> Judge(w, docs[k])))
  {
    hide Judge;
    if Pointwise(w) {
      var results := w.validator(cases);
      assert results.Keys == cases.Keys;
      if forall id :: id in cases ==> results[id] {
        forall k | 0 <= k < |docs| ensures Judge(w, docs[k]) {
          assert results[ids[k]];
        }
      }
      if forall k :: 0 <= k < |docs| ==> Judge(w, docs[k]) {
        forall id | id in cases ensures results[id] {
          var k :| 0 <= k < |ids| && ids[k] == id;
          assert Judge(w, docs[k]);
        }
      }
    }
  }

  lemma {:induction false} SomeRejected(w: World, docs: seq<Element>, lo: nat, hi: nat)
    requires lo <= hi <= |docs|
    requires Pointwise(w) ==> !forall k :: 0 <= k < hi - lo ==> Judge(w, docs[lo..hi][k])
    ensures Pointwise(w) ==> !forall x :: x in docs ==> Judge(w, x)
  {
    hide Judge, Pointwise;
    if Pointwise(w) {
      var k :| 0 <= k < hi - lo && !Judge(w, docs[lo..hi][k]);
      assert docs[lo + k] in docs && !Judge(w, docs[lo + k]);
    }
  }

  lemma {:induction false} NoneDistinct()
    ensures Distinct<Element>([])
  {
  }

  lemma {:induction false} DistinctSlice<T>(s: seq<T>, lo: nat, hi: nat)
    requires Distinct(s) && lo <= hi <= |s|
    ensures Distinct(s[lo..hi])
  {
  }

  /** The predicate was evaluated on importer run n on document x, and matched or not. */
  predicate AnsweredAt(w: World, n: nat, x: Element, matched: bool) {
    var evaluation := Evaluated(w, w.importer(n, x), x);
    evaluation.Some? && evaluation.value.matched == matched
  }

  /** The signature of importer run n on document x, once it was evaluated. */
  function SignatureAt(w: World, n: nat, x: Element): (s: Option<Signature>) {
    var result := w.importer(n, x);
    var evaluation := Evaluated(w, result, x);
    if evaluation.None? then None else Some(SignatureOf(result, evaluation.value, w.outputSensitive))
  }

  /** None of the first i candidates matched; candidate k is importer run k. */
  ghost predicate NoneMatched(w: World, candidates: seq<Candidate>, i: nat) {
    forall k :: 0 <= k < i && k < |candidates| ==> AnsweredAt(w, k, candidates[k].xml, false)
  }

  /** Importer run i is the first that matched. */
  ghost predicate FirstMatch(w: World, candidates: seq<Candidate>, i: nat) {
    i < |candidates| && NoneMatched(w, candidates, i) && AnsweredAt(w, i, candidates[i].xml, true)
  }

  /** The finding reports the first candidate that matched, everything its record says was observed, and it is packed. */
  ghost predicate Justified(e: Evidence, finding: Finding, candidates: seq<Candidate>, reproductions: nat) {
    exists i: nat, signature :: JustifiedBy(e, finding, candidates, i, signature, reproductions)
  }

  ghost predicate JustifiedBy(e: Evidence, finding: Finding, candidates: seq<Candidate>, i: nat, signature: Signature, reproductions: nat) {
    && FirstMatch(e.world, candidates, i) && SignatureAt(e.world, i, candidates[i].xml) == Some(signature)
    && Emitted(e, finding.record, candidates[i], i, finding.invoice, signature, reproductions)
    && e.world.pack(candidates[i], finding.record) == Some(finding.capsule)
  }

  // ---------------------------------------------------------------- steps of the proofs

  lemma {:induction false} FrontierIsMarked(inv: Invoice, checked: set<Element>)
    ensures Pending(OneStep(inv), checked).Some? ==>
      checked + Docs(Pending(OneStep(inv), checked).value) == checked + FrontierDocs(inv)
  {
    hide SerializeInvoice, OneStep, Docs, Pending;
    if Pending(OneStep(inv), checked).Some? {
      var ts := Pending(OneStep(inv), checked).value;
      forall x ensures x in checked + Docs(ts) <==> x in checked + FrontierDocs(inv) {
        PendingDocs(OneStep(inv), checked, x);
      }
    }
  }

  /** The checked set of the loop: the frontiers before the current invoice, and its own once it was tried. */
  ghost predicate CheckedSoFar(start: Invoice, ops: seq<Operation>, current: Invoice, tried: bool, checked: set<Element>) {
    && SerializeInvoice(start).Some? && ValidInvoice(start) && Reaches(start, ops, current)
    && checked == {SerializeInvoice(start).value} + FrontiersBefore(start, ops) + (if tried then FrontierDocs(current) else {})
  }

  lemma {:induction false} CheckedAtStart(inv: Invoice)
    requires SerializeInvoice(inv).Some?
    ensures CheckedSoFar(inv, [], inv, false, {SerializeInvoice(inv).value})
  {
    hide ValidInvoice, Document, SumsOf, TotalsFit;
  }

  lemma {:induction false} CheckedAtEnd(start: Invoice, ops: seq<Operation>, current: Invoice, checked: set<Element>, marked: set<Element>)
    requires CheckedSoFar(start, ops, current, false, checked) && marked == checked + FrontierDocs(current)
    ensures CheckedSoFar(start, ops, current, true, marked)
  {
    hide SerializeInvoice, ValidInvoice, Reaches, FrontierDocs, FrontiersBefore;
  }

  lemma {:induction false} StepOf(inv: Invoice, r: Reduction)
    requires Enabled(inv, r.operation) && r.invoice == Apply(inv, r.operation)
    ensures r == Step(inv, r.operation)
  {
    hide Enabled, Apply;
  }

  lemma {:induction false} CheckedOn(start: Invoice, ops: seq<Operation>, current: Invoice, r: Reduction, checked: set<Element>, marked: set<Element>)
    requires CheckedSoFar(start, ops, current, false, checked) && marked == checked + FrontierDocs(current)
    requires r in OneStep(current) && r == Step(current, r.operation)
    ensures CheckedSoFar(start, ops + [r.operation], r.invoice, false, marked)
  {
    hide SerializeInvoice, ValidInvoice, Reaches, FrontierDocs, FrontiersBefore, OneStep, Step;
    ReachesOn(start, ops, current, r);
  }

  /** One accepted reduction: the result is valid and smaller, and the checked documents are those of the longer way. */
  lemma {:induction false} StepTaken(start: Invoice, ops: seq<Operation>, current: Invoice, r: Reduction, checked: set<Element>, marked: set<Element>)
    requires CheckedSoFar(start, ops, current, false, checked) && marked == checked + FrontierDocs(current)
    requires ValidInvoice(current) && r in OneStep(current)
    ensures CheckedSoFar(start, ops + [r.operation], r.invoice, false, marked)
    ensures ValidInvoice(r.invoice) && InvoiceMeasure(r.invoice) < InvoiceMeasure(current)
  {
    hide CheckedSoFar, ValidInvoice, InvoiceMeasure, FrontierDocs, OneStep, Step, Enabled, Apply;
    OneStepReductions.OneStepSound(current, r);
    StepOf(current, r);
    CheckedOn(start, ops, current, r, checked, marked);
  }

  lemma {:induction false} AllChecked(start: Invoice, ops: seq<Operation>, end: Invoice, checked: set<Element>, attempts: nat)
    requires CheckedSoFar(start, ops, end, true, checked) && |checked| == attempts
    ensures ReducedBy(start, ops, attempts, end)
  {
    hide SerializeInvoice, ValidInvoice, Reaches, FrontierDocs, FrontiersBefore, InvoiceMeasure;
    ReachesBound(start, ops, end);
    assert checked == CheckedBy(start, ops, end);
  }

  lemma {:induction false} WrittenFrontier(inv: Invoice, docs: Option<seq<Element>>)
    requires docs.Some? ==> DocsOf(OneStep(inv), docs.value)
    requires docs.None? ==> exists i :: 0 <= i < |OneStep(inv)| && SerializeInvoice(OneStep(inv)[i].invoice).None?
    ensures docs.Some? <==> FrontierWritten(inv)
  {
    hide SerializeInvoice, OneStep;
    if docs.Some? {
      forall r | r in OneStep(inv) ensures SerializeInvoice(r.invoice).Some? {
        var i :| 0 <= i < |OneStep(inv)| && OneStep(inv)[i] == r;
      }
    } else {
      var i :| 0 <= i < |OneStep(inv)| && SerializeInvoice(OneStep(inv)[i].invoice).None?;
      assert OneStep(inv)[i] in OneStep(inv);
    }
  }

  lemma {:induction false} MatchShows(e: Evidence, n: nat, x: Element)
    requires n < |e.executed| && e.executed[n] == x && AnsweredAt(e.world, n, x, true)
    ensures SignatureAt(e.world, n, x).Some?
    ensures Shows(e, n, x, e.world.importer(n, x).targetDigest, SignatureAt(e.world, n, x).value)
  {
    hide SignatureOf, Evaluated;
  }

  /**
   With a pointwise validator and an importer that answers by the document, an emitted record
   reports a document the validator accepts, of an invoice that is 1-minimal for its signature.
   */
  lemma {:induction false} EmittedIsMinimal(e: Evidence, record: Record, c: Candidate, i: nat, inv: Invoice, signature: Signature,
    reproductions: nat, preserves: Element -> bool)
    requires Emitted(e, record, c, i, inv, signature, reproductions) && CacheTruth(e.world, e.cache)
    requires forall n: nat, x :: VerdictAt(e.world, n, x, record.targetDigest, signature) == Preserved <==> preserves(x)
    ensures Judge(e.world, record.xml)
    ensures OneMinimal(inv, JudgedBy(e.world), preserves)
    ensures reproductions >= 1 ==> preserves(record.xml)
  {
    hide SerializeInvoice, OneStep, Payload, Judge, Pointwise, AllRefuted, VerdictAt, OneMinimal, JudgedBy;
    hide Reproduced, Shows, ReducedFrom;
    RefutedIsMinimal(e, inv, 0, record.targetDigest, signature, preserves);
    if reproductions >= 1 {
      var first :| Reproduced(e, record.xml, first, record.observations, record.targetDigest, signature);
      ReproducedPreserves(e, record.xml, first, record.observations, record.targetDigest, signature);
    }
  }

  lemma {:induction false} ReproducedPreserves(e: Evidence, x: Element, first: nat, observations: seq<Observation>,
    digest: string, signature: Signature)
    requires Reproduced(e, x, first, observations, digest, signature) && observations != []
    ensures VerdictAt(e.world, first, x, digest, signature) == Preserved
  {
    hide VerdictAt;
    assert ShowsAs(e, first + 0, x, observations[0], digest, signature);
  }

  /** The cache after the corpus was validated. */
  function CacheOf(docs: seq<Element>): (cache: map<Digest, bool>) {
    map d | d in DigestsOf(docs) :: true
  }

  /** The frontier loop: write each reduction, skip checked documents, mark the rest as checked. */
  method CollectPending(rs: seq<Reduction>, checked: set<Element>) returns (r: Option<seq<Trial>>, marked: set<Element>)
    ensures r == Pending(rs, checked)
    ensures r.Some? ==> marked == checked + Docs(r.value)
  {
    hide SerializeInvoice, Docs;
    var pending: seq<Trial> := [];
    marked := checked;
    assert rs[0..] == rs;
    PrefixedNone(Pending(rs, checked));
    for i := 0 to |rs|
      invariant Pending(rs, checked) == Prefixed(pending, Pending(rs[i..], marked))
      invariant marked == checked + Docs(pending)
    {
      PendingStep(rs, i, marked);
      var xml := SerializeInvoice(rs[i].invoice);
      if xml.None? {
        return None, marked;
      }
      if xml.value !in marked {
        DocsSnoc(pending, Trial(rs[i], xml.value));
        PrefixedSnoc(pending, Trial(rs[i], xml.value), Pending(rs[i + 1..], marked + {xml.value}));
        pending := pending + [Trial(rs[i], xml.value)];
        marked := marked + {xml.value};
      }
    }
    assert rs[|rs|..] == [];
    assert pending + [] == pending;
    r := Some(pending);
  }

  lemma {:induction false} PendingStep(rs: seq<Reduction>, i: nat, marked: set<Element>)
    requires i < |rs|
    ensures var xml := SerializeInvoice(rs[i].invoice);
      Pending(rs[i..], marked) ==
        if xml.None? then None
        else if xml.value in marked then Pending(rs[i + 1..], marked)
        else Prefixed([Trial(rs[i], xml.value)], Pending(rs[i + 1..], marked + {xml.value}))
  {
    hide SerializeInvoice;
    assert rs[i..][0] == rs[i] && rs[i..][1..] == rs[i + 1..];
  }

  lemma {:induction false} PrefixedNone(b: Option<seq<Trial>>)
    ensures Prefixed([], b) == b
    ensures Docs([]) == {}
  {
    if b.Some? {
      assert [] + b.value == b.value;
    }
  }

  /** A fresh frontier adds as many documents as it has candidates. */
  lemma {:induction false} FreshCount(ts: seq<Trial>, checked: set<Element>)
    requires Fresh(ts, checked)
    ensures |checked + Docs(ts)| == |checked| + |ts|
  {
    hide Docs;
    PrefixedNone(None);
    if ts != [] {
      FreshCount(ts[1..], checked + {ts[0].xml});
      assert ts == [ts[0]] + ts[1..];
      DocsCons(ts[0], ts[1..]);
      assert checked + {ts[0].xml} + Docs(ts[1..]) == checked + ({ts[0].xml} + Docs(ts[1..]));
    } else {
      assert checked + {} == checked;
    }
  }

  function Prefixed(a: seq<Trial>, b: Option<seq<Trial>>): (r: Option<seq<Trial>>) {
    if b.Some? then Some(a + b.value) else None
  }

  lemma {:induction false} PrefixedSnoc(a: seq<Trial>, t: Trial, b: Option<seq<Trial>>)
    ensures Prefixed(a + [t], b) == Prefixed(a, Prefixed([t], b))
  {
    if b.Some? {
      assert (a + [t]) + b.value == a + ([t] + b.value);
    }
  }

  lemma {:induction false} DocsSnoc(ts: seq<Trial>, t: Trial)
    ensures Docs(ts + [t]) == Docs(ts) + {t.xml}
  {
    assert forall u :: u in ts + [t] <==> u in ts || u == t;
  }

  /** The result of shrink_invoice; the fingerprint stands for the payload it hashes. */
  datatype ShrinkOutcome = ShrinkOutcome(invoice: Invoice, attempts: nat, accepted: seq<Operation>, fingerprint: Json)

  /** How the specification's final state is reported. */
  function OutcomeOf(s: Option<State>): (r: Option<ShrinkOutcome>) {
    if s.None? then None
    else Some(ShrinkOutcome(s.value.current, |s.value.status.Keys|, s.value.accepted, Payload(s.value.current)))
  }

  /** Shrinking starts in the state with the initial document checked and asked. */
  lemma {:induction false} ShrunkBegins(inv: Invoice, o: Oracles)
    ensures Begin(inv, o).None? ==> Shrunk(inv, o, true) == None
    ensures Begin(inv, o).Some? ==> ValidInvoice(inv) && SerializeInvoice(inv).Some?
    ensures Begin(inv, o).Some? ==>
      var xml := SerializeInvoice(inv).value;
      Shrunk(inv, o, true) == Run(State(inv, [], map[xml := Start], [xml]), o, true)
  {
    hide ValidInvoice, Run, Document, SumsOf;
  }

  /** The answer of verify_one_minimal; it is "minimal" when no reducing operation was found. */
  datatype Minimality = Minimality(attempts: nat, reducing: Option<Operation>)

  /** The documents of the reductions, in order. */
  predicate DocsOf(rs: seq<Reduction>, docs: seq<Element>) {
    |docs| == |rs| && forall i :: 0 <= i < |rs| ==> SerializeInvoice(rs[i].invoice) == Some(docs[i])
  }

  method WriteAll(rs: seq<Reduction>) returns (r: Option<seq<Element>>)
    ensures r.Some? ==> DocsOf(rs, r.value)
    ensures r.None? ==> exists i :: 0 <= i < |rs| && SerializeInvoice(rs[i].invoice).None?
  {
    hide SerializeInvoice;
    var docs: seq<Element> := [];
    for i := 0 to |rs|
      invariant |docs| == i && forall k :: 0 <= k < i ==> SerializeInvoice(rs[k].invoice) == Some(docs[k])
    {
      var xml := SerializeInvoice(rs[i].invoice);
      if xml.None? {
        return None;
      }
      docs := docs + [xml.value];
    }
    r := Some(docs);
  }

  /** The reported outcome is that of the specification, after as many importer runs as it asks for. */
  ghost predicate ReportsShrunk(r: Option<ShrinkOutcome>, inv: Invoice, o: Oracles, runs: int) {
    var f := Shrunk(inv, o, true);
    r == OutcomeOf(f) && (f.Some? ==> runs == |f.value.asked|)
  }

  lemma {:induction false} WrittenIsValid(inv: Invoice)
    requires SerializeInvoice(inv).Some?
    ensures ValidInvoice(inv)
  {
  }

  /** The state after a round that accepts nothing. */
  ghost function Ending(s: State, o: Oracles): (f: State) {
    var pending := Pending(OneStep(s.current), s.status.Keys);
    if pending.None? then s
    else
      match Try(pending.value, s.status, s.asked, o, true)
      case Exhausted(status, asked) => s.(status := status, asked := asked)
      case _ => s
  }

  /** The state after a round that accepts a candidate. */
  ghost function Next(s: State, o: Oracles): (f: State) {
    var pending := Pending(OneStep(s.current), s.status.Keys);
    if pending.None? then s
    else
      match Try(pending.value, s.status, s.asked, o, true)
      case Hit(reduction, status, asked) => State(reduction.invoice, s.accepted + [reduction.operation], status, asked)
      case _ => s
  }

  /** One unfolding of the specification, seen from the outcome of a round. */
  lemma {:induction false} RunUnfolds(s: State, o: Oracles, outcome: RoundOutcome, marked: set<Element>, base: nat, targets: nat)
    ensures ValidInvoice(s.current) && RoundAgrees(outcome, marked, s, o, base, targets) ==>
      match outcome
      case Stopped => Run(s, o, true) == None
      case Ended(_) =>
        var f := Ending(s, o);
        && Run(s, o, true) == Some(f) && f.current == s.current && f.accepted == s.accepted
        && f.status.Keys == marked && targets == base + |f.asked|
      case Stepped(reduction, _) =>
        var f := Next(s, o);
        && f.current == reduction.invoice && f.accepted == s.accepted + [reduction.operation]
        && f.status.Keys == marked && targets == base + |f.asked|
        && ValidInvoice(f.current) && Run(s, o, true) == Run(f, o, true)
  {
    hide ValidInvoice, OneStep, SerializeInvoice, InvoiceMeasure, Pending, Try, Enabled, Apply;
    if ValidInvoice(s.current) && RoundAgrees(outcome, marked, s, o, base, targets) && outcome.Stepped? {
      OneStepReductions.OneStepSound(s.current, outcome.reduction);
    }
  }

  /** What the reproduction loop ends with: all observations and the last run. */
  datatype Reproduction = Reproduction(observations: seq<Observation>, result: TargetResult, evaluation: Evaluation)

  /** The last run had the expected digest and signature. */
  predicate LastOf(r: Reproduction, digest: string, signature: Signature) {
    && r.result.targetDigest == digest
    && (r.evaluation.name, r.result.observation.termination, r.result.observation.returncode, r.evaluation.details)
       == (signature.name, signature.termination, signature.returncode, signature.details)
  }

  datatype RoundOutcome = Stopped | Ended(tried: nat) | Stepped(reduction: Reduction, tried: nat)

  /** One round does what one unfolding of the specification does. */
  ghost predicate RoundAgrees(outcome: RoundOutcome, marked: set<Element>, s: State, o: Oracles, base: nat, targets: nat) {
    var pending := Pending(OneStep(s.current), s.status.Keys);
    if pending.None? then outcome.Stopped?
    else
      match Try(pending.value, s.status, s.asked, o, true)
      case Aborted => outcome.Stopped?
      case Exhausted(status, asked) => outcome.Ended? && marked == status.Keys && targets == base + |asked|
      case Hit(reduction, status, asked) =>
        outcome.Stepped? && outcome.reduction == reduction && marked == status.Keys && targets == base + |asked|
  }

  /** One step of trying a frontier from its k-th candidate on. */
  lemma {:induction false} TryUnfolds(ts: seq<Trial>, k: nat, status: map<Element, Status>, asked: seq<Element>, o: Oracles)
    requires k < |ts|
    ensures var t, r := ts[k], Try(ts[k..], status, asked, o, true);
      if !o.valid(t.xml) then r == Try(ts[k + 1..], status[t.xml := Invalid], asked, o, true)
      else
        match o.finding(|asked|, t.xml)
        case Raised => r.Aborted?
        case Lost => r == Try(ts[k + 1..], status[t.xml := LostAt(|asked|)], asked + [t.xml], o, true)
        case Preserved => r.Hit? && r.reduction == t.reduction && r.asked == asked + [t.xml]
  {
    hide HitStatus;
    assert ts[k..][0] == ts[k] && ts[k..][1..] == ts[k + 1..];
  }

  lemma {:induction false} TryStarts(ts: seq<Trial>, status: map<Element, Status>, asked: seq<Element>, o: Oracles)
    ensures ts[0..] == ts
    ensures Try(ts[|ts|..], status, asked, o, true) == Exhausted(status, asked)
  {
  }

  lemma {:induction false} DocsInOrderAt(ts: seq<Trial>)
    ensures |DocsInOrder(ts)| == |ts| && forall i :: 0 <= i < |ts| ==> DocsInOrder(ts)[i] == ts[i].xml
  {
  }

  function DocsInOrder(ts: seq<Trial>): (docs: seq<Element>) {
    Map(ts, (t: Trial) => t.xml)
  }

  datatype TryOutcome = Accepted(index: nat) | NoneAccepted | Failed

  /** The loop and its specification end alike, with the same number of importer runs. */
  ghost predicate Agrees(outcome: TryOutcome, r: Tried, ts: seq<Trial>, base: nat, targets: nat) {
    match outcome
    case Failed => r.Aborted?
    case NoneAccepted => r.Exhausted? && targets == base + |r.asked|
    case Accepted(k) => r.Hit? && k < |ts| && r.reduction == ts[k].reduction && targets == base + |r.asked|
  }

  lemma {:induction false} EmptyDigests()
    ensures DigestsOf([]) == {}
  {
  }

  lemma {:induction false} DigestsAppend(a: seq<Element>, b: seq<Element>)
    ensures DigestsOf(a + b) == DigestsOf(a) + DigestsOf(b)
  {
  }

  lemma {:induction false} SingleAnswer(w: World, x: Element)
    ensures Pointwise(w) ==> w.validator(map["candidate" := x]).Keys == {"candidate"}
  {
    hide Judge;
    assert map["candidate" := x].Keys == {"candidate"};
  }

  lemma {:induction false} OneMissing(x: Element, cache: map<Digest, bool>)
    ensures Missing([x], cache) == if Sha256(x) in cache then [] else [x]
  {
    assert [x][..0] == [];
  }

  /** The next chunk of missing documents is distinct and not cached yet. */
  lemma {:induction false} ChunkIsNew(missing: seq<Element>, offset: nat, end: nat, before: map<Digest, bool>, now: map<Digest, bool>)
    requires Distinct(missing) && offset <= end <= |missing|
    requires forall x :: x in missing ==> Sha256(x) !in before
    requires now.Keys == before.Keys + DigestsOf(missing[..offset])
    ensures Distinct(missing[offset..end])
    ensures forall x :: x in missing[offset..end] ==> Sha256(x) !in now
  {
    forall x | x in missing[offset..end] ensures Sha256(x) !in now {
      var i :| 0 <= i < end - offset && missing[offset..end][i] == x;
      assert missing[offset + i] == x;
    }
  }

  /** The loop that fills the dictionary of missing documents. */
  method CollectMissing(docs: seq<Element>, cache: map<Digest, bool>) returns (missing: seq<Element>)
    ensures missing == Missing(docs, cache)
  {
    missing := [];
    for i := 0 to |docs|
      invariant missing == Missing(docs[..i], cache)
    {
      assert docs[..i + 1][..i] == docs[..i];
      if Sha256(docs[i]) !in cache && docs[i] !in missing {
        missing := missing + [docs[i]];
      }
    }
    assert docs[..|docs|] == docs;
  }

  /** Under a pointwise validator a batch is answered completely and correctly. */
  lemma {:induction false} BatchAnswers(w: World, cases: map<string, Element>, batch: seq<Element>)
    requires forall k :: 0 <= k < |batch| ==> CaseId(k) in cases && cases[CaseId(k)] == batch[k]
    ensures Pointwise(w) ==> w.validator(cases).Keys == cases.Keys
    ensures Pointwise(w) ==>
      forall k :: 0 <= k < |batch| ==> CaseId(k) in w.validator(cases) && w.validator(cases)[CaseId(k)] == Judge(w, batch[k])
  {
    hide CaseId, Judge;
  }

  /** The case dictionary of a batch: one numbered identifier per document. */
  method BuildCases(batch: seq<Element>) returns (cases: map<string, Element>)
    ensures cases.Keys == set k | 0 <= k < |batch| :: CaseId(k)
    ensures forall k :: 0 <= k < |batch| ==> CaseId(k) in cases && cases[CaseId(k)] == batch[k]
  {
    hide CaseId;
    cases := map[];
    for i := 0 to |batch|
      invariant cases.Keys == set k | 0 <= k < i :: CaseId(k)
      invariant forall k :: 0 <= k < i ==> CaseId(k) in cases && cases[CaseId(k)] == batch[k]
    {
      forall k | 0 <= k < i ensures CaseId(k) != CaseId(i) {
        CaseIdsDiffer(k, i);
      }
      cases := cases[CaseId(i) := batch[i]];
    }
  }

  lemma {:induction false} DistinctAppend(a: seq<Element>, b: seq<Element>)
    requires Distinct(a) && Distinct(b) && forall x :: x in a ==> x !in b
    ensures Distinct(a + b)
  {
    forall i, j | 0 <= i < j < |a + b| ensures (a + b)[i] != (a + b)[j] {
      if i < |a| <= j {
        assert a[i] in a && b[j - |a|] in b;
      }
    }
  }

  lemma {:induction false} DistinctSnoc(a: seq<Element>, x: Element)
    requires Distinct(a) && x !in a
    ensures Distinct(a + [x])
  {
    DistinctAppend(a, [x]);
  }

  function DigestsOf(docs: seq<Element>): (ds: set<Digest>) {
    set x | x in docs :: Sha256(x)
  }

  predicate CacheGrows(a: map<Digest, bool>, b: map<Digest, bool>) {
    forall d :: d in a ==> d in b && a[d] == b[d]
  }

  lemma {:induction false} CacheGrowsSelf(a: map<Digest, bool>)
    ensures CacheGrows(a, a)
  {
  }

  lemma {:induction false} CacheGrowsOn(a: map<Digest, bool>, b: map<Digest, bool>, c: map<Digest, bool>)
    requires CacheGrows(a, b) && (CacheGrows(b, c) || b == c)
    ensures CacheGrows(a, c)
    ensures forall d :: d in b && b[d] ==> d in c && c[d]
  {
  }

  /** The documents of docs that are not cached, each once, in order of first occurrence. */
  function Missing(docs: seq<Element>, cache: map<Digest, bool>): (missing: seq<Element>) {
    if docs == [] then []
    else
      var init, last := Missing(docs[..|docs| - 1], cache), docs[|docs| - 1];
      if Sha256(last) in cache || last in init then init else init + [last]
  }

  lemma {:induction false} MissingExact(docs: seq<Element>, cache: map<Digest, bool>)
    ensures forall x :: x in Missing(docs, cache) <==> x in docs && Sha256(x) !in cache
    ensures Distinct(Missing(docs, cache))
  {
    if docs != [] {
      MissingExact(docs[..|docs| - 1], cache);
      assert docs == docs[..|docs| - 1] + [docs[|docs| - 1]];
    }
  }
}
