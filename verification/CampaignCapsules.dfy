/** From what a campaign observes to the capsule it writes: what is reported, and that it verifies. */
module CampaignCapsules {
  import opened Basics
  import opened Digits
  import opened Invoices
  import opened Trees
  import opened Serialize
  import opened Parse
  import opened InvoiceRoundTrip
  import opened Fingerprint
  import opened Reductions
  import opened Enumerate
  import opened Shrink
  import opened ShrinkRuns
  import opened ShrinkExit
  import opened Observed
  import opened Mutators
  import opened Corpus
  import opened CampaignFacts
  import opened CampaignOutcome
  import opened Packing
  import Capsule
  import Replay
  import Reporting
  import Provenance

  /** The campaign packs its records like this. */
  ghost predicate PacksAs(w: World, p: Packer) {
    forall c, r :: w.pack(c, r) == Pack(p, c, r)
  }

  lemma {:induction false} PacksHere(w: World, p: Packer, c: Candidate, r: Record)
    requires PacksAs(w, p)
    ensures w.pack(c, r) == Pack(p, c, r)
  {
  }

  /** A preserved finding has the termination and return code of its signature. */
  lemma {:induction false} PreservedTermination(w: World, n: nat, x: Element, digest: string, signature: Signature)
    requires VerdictAt(w, n, x, digest, signature) == Preserved
    ensures w.importer(n, x).observation.termination == signature.termination
    ensures w.importer(n, x).observation.returncode == signature.returncode
  {
  }

  lemma {:induction false} ReproducedTermination(e: Evidence, x: Element, first: nat, observations: seq<Observation>, k: nat,
    digest: string, signature: Signature)
    requires Reproduced(e, x, first, observations, digest, signature) && k < |observations|
    ensures observations[k].termination == signature.termination && observations[k].returncode == signature.returncode
  {
    hide VerdictAt;
    assert ShowsAs(e, first + k, x, observations[k], digest, signature);
    PreservedTermination(e.world, first + k, x, digest, signature);
  }

  lemma {:induction false} AttemptsPositive(start: Invoice, accepted: seq<Operation>, attempts: nat, inv: Invoice)
    requires ReducedBy(start, accepted, attempts, inv)
    ensures attempts >= 1
  {
    hide ValidInvoice, SerializeInvoice, Reaches, FrontierDocs, FrontiersBefore;
    assert SerializeInvoice(start).value in CheckedBy(start, accepted, inv);
  }

  /** Whatever the importer does, an emitted record is one that packing was meant for. */
  lemma {:induction false} EmittedIsReported(e: Evidence, record: Record, c: Candidate, i: nat, inv: Invoice, signature: Signature, reproductions: nat)
    requires Emitted(e, record, c, i, inv, signature, reproductions) && 1 <= reproductions <= 100
    ensures Reported(record, c, inv)
  {
    hide SerializeInvoice, Payload, AllRefuted, Shows, Reproduced, ParseInvoice, ReducedBy, OneStep;
    AttemptsPositive(ParseInvoice(c.xml).value, record.accepted, record.attempts, inv);
    var first: nat :| Reproduced(e, record.xml, first, record.observations, record.targetDigest, signature);
    forall k | 0 <= k < |record.observations|
      ensures record.observations[k].termination == record.termination && record.observations[k].returncode == record.returncode
    {
      ReproducedTermination(e, record.xml, first, record.observations, k, record.targetDigest, signature);
    }
  }

  /** Whatever was reported was packable. */
  lemma {:induction false} FindingIsPackable(e: Evidence, p: Packer, finding: Finding, c: Candidate, i: nat, signature: Signature, reproductions: nat)
    requires Emitted(e, finding.record, c, i, finding.invoice, signature, reproductions) && 1 <= reproductions <= 100
    requires e.world.pack(c, finding.record) == Some(finding.capsule)
    requires PacksAs(e.world, p) && ProperHashes(p) && ProperCandidate(c)
    ensures Packable(p, finding.record, finding.invoice)
  {
    hide Emitted, Pack, Packable, ProperHashes, ProperCandidate, Reported, PacksAs;
    EmittedIsReported(e, finding.record, c, i, finding.invoice, signature, reproductions);
    PacksHere(e.world, p, c, finding.record);
    PackExact(p, c, finding.record, finding.invoice);
  }

  /** And its capsule verifies within the limits of the readers. */
  lemma {:induction false} FindingVerifies(w: World, p: Packer, finding: Finding, c: Candidate)
    requires PacksAs(w, p) && w.pack(c, finding.record) == Some(finding.capsule)
    ensures VerifiesAs(p, c, finding.record, finding.capsule)
  {
    hide PacksAs, Pack, VerifiesAs;
    PacksHere(w, p, c, finding.record);
    PackedVerifies(p, c, finding.record, finding.capsule);
  }

  lemma {:induction false} ExpectedIsReported(w: World, c: Candidate, inv: Invoice, base: nat, digest: string, signature: Signature, reproductions: nat)
    requires Steady(w, digest) && 1 <= reproductions <= 100
    requires Shrunk(inv, OraclesFrom(w, base, digest, signature), true).Some?
    ensures var f := Shrunk(inv, OraclesFrom(w, base, digest, signature), true).value;
      && SerializeInvoice(f.current).Some?
      && Reported(ExpectedRecord(w, c, f, SerializeInvoice(f.current).value, digest, signature, reproductions), c, f.current)
  {
    hide Steady, SerializeInvoice, Judge, VerdictAt, Payload, OneStep, Shrunk, Begin, ValidInvoice, Truthful, SettledAbove, Reaches;
    var o := OraclesFrom(w, base, digest, signature);
    var f := Shrunk(inv, o, true).value;
    ShrunkChecksAgain(w, inv, base, 0, digest, signature);
    ShrinkResult(inv, o, true);
    var x := SerializeInvoice(f.current).value;
    assert x in f.status.Keys;
    PreservedTermination(w, 0, x, digest, signature);
  }

  /** What remains for a matched candidate to be reported, once it is shrunk to a 1-minimal invoice: that its record is packable. */
  ghost predicate PackableFrom(w: World, p: Packer, c: Candidate, base: nat, digest: string, signature: Signature, reproductions: nat) {
    && ParseInvoice(c.xml).Ok?
    && var f := Shrunk(ParseInvoice(c.xml).value, OraclesFrom(w, base, digest, signature), true);
      && f.Some? && SerializeInvoice(f.value.current).Some?
      && Packable(p, ExpectedRecord(w, c, f.value, SerializeInvoice(f.value.current).value, digest, signature, reproductions), f.value.current)
  }

  /** In a steady world a matched candidate is reported if and only if it is shrunk to a 1-minimal invoice with a packable record. */
  lemma {:induction false} ReportsExactly(w: World, p: Packer, c: Candidate, base: nat, digest: string, signature: Signature, reproductions: nat)
    requires PacksAs(w, p) && ProperHashes(p) && ProperCandidate(c) && Steady(w, digest) && 1 <= reproductions <= 100
    ensures Reports(w, c, base, digest, signature, reproductions) <==>
      MinimizesFrom(w, c.xml, base, digest, signature) && PackableFrom(w, p, c, base, digest, signature, reproductions)
  {
    hide PacksAs, ProperHashes, ProperCandidate, Steady, MinimizesInvoice, Pack, Packable, Reported, Shrunk, ParseInvoice, SerializeInvoice, ExpectedRecord,
      OraclesFrom;
    if ParseInvoice(c.xml).Ok? && Shrunk(ParseInvoice(c.xml).value, OraclesFrom(w, base, digest, signature), true).Some? {
      var inv := ParseInvoice(c.xml).value;
      var f := Shrunk(inv, OraclesFrom(w, base, digest, signature), true).value;
      ExpectedIsReported(w, c, inv, base, digest, signature, reproductions);
      var r := ExpectedRecord(w, c, f, SerializeInvoice(f.current).value, digest, signature, reproductions);
      PacksHere(w, p, c, r);
      PackExact(p, c, r, f.current);
    }
  }

  /** A finding of the JSON predicate on a process that exited is never reported. */
  lemma {:induction false} JsonNeverReported(w: World, p: Packer, c: Candidate, base: nat, digest: string, signature: Signature, reproductions: nat)
    requires PacksAs(w, p) && ProperHashes(p) && ProperCandidate(c) && Steady(w, digest) && 1 <= reproductions <= 100
    requires signature.name == "stdout-json" && signature.termination == "exited"
    ensures !Reports(w, c, base, digest, signature, reproductions)
  {
    hide PacksAs, ProperHashes, ProperCandidate, Steady, MinimizesFrom, Shrunk, ParseInvoice, SerializeInvoice, OraclesFrom, Readable,
      Replay.ReplayJson, Replay.Constructed, Reports;
    ReportsExactly(w, p, c, base, digest, signature, reproductions);
    NoKind(signature.details);
  }

  lemma {:induction false} NoKind(details: seq<string>)
    ensures Reporting.FindingKind("stdout-json", "exited", details).None?
  {
  }

  lemma {:induction false} OperationsAreShort(hashes: Hashes, campaignSeed: nat, index: nat)
    requires campaignSeed < CAMPAIGN_SEEDS && index < MAX_COUNT
    ensures var ops := OperationsAt(hashes, campaignSeed, index);
      |ops| <= 3 && forall k :: 0 <= k < |ops| ==> |NatText(ops[k].token)| <= 1900
  {
    hide SmallToken, OperationsAt, NatText;
    OperationsShape(hashes, campaignSeed, index);
    OperationsSmall(hashes, campaignSeed, index);
    var ops := OperationsAt(hashes, campaignSeed, index);
    forall k | 0 <= k < |ops| ensures |NatText(ops[k].token)| <= 1900 {
      SmallIsShort(ops[k].token);
    }
  }

  /** Candidates of a corpus of legal size and seed are proper. */
  lemma {:induction false} GeneratedIsProper(c: Candidate, seed: Invoice, hashes: Hashes, campaignSeed: nat, index: nat)
    requires IsCandidate(c, seed, hashes, campaignSeed, index) && campaignSeed < CAMPAIGN_SEEDS && index < MAX_COUNT
    requires Provenance.IsSha256(hashes.seedSha256)
    ensures ProperCandidate(c)
  {
    hide InvoiceAt, SerializeInvoice, Payload, Provenance.IsSha256, OperationsAt, NatText;
    OperationsAreShort(hashes, campaignSeed, index);
  }

  lemma {:induction false} SmallIsShort(token: nat)
    requires SmallToken(token)
    ensures |NatText(token)| <= 1900
  {
    hide Pow10;
    NatTextLength(token, 30);
  }
}
