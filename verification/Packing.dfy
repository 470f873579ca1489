/** From a campaign's finding to its record and its capsule, and what can still refuse them. */
module Packing {
  import opened Basics
  import opened Digits
  import opened Invoices
  import opened Trees
  import opened Json
  import opened Serialize
  import opened Parse
  import opened InvoiceRoundTrip
  import opened Totals
  import opened Fingerprint
  import opened Documents
  import opened Reductions
  import opened Enumerate
  import opened Corpus
  import opened Observed
  import Mutators
  import Capsule
  import Replay
  import Reporting
  import Provenance

  /**
   What findings are packed with: the capsule environment, the replay specification, whether the
   campaign is synthetic, the hash of captured output, and the labels of operations.
   */
  datatype Packer = Packer(
    env: Capsule.Env,
    replay: Replay.Specification,
    synthetic: bool,
    sha: string -> string,
    labels: seq<Operation> -> seq<string>)

  // ---------------------------------------------------------------- records as they are written

  function MutatorName(m: Mutators.Mutator): (name: string)
    ensures 1 <= |name| <= 20
  {
    match m
    case InvoiceId => "invoice-id"
    case BuyerReference => "buyer-reference"
    case InvoiceNoteUnicode => "invoice-note-unicode"
    case SellerEndpoint => "seller-endpoint"
    case BuyerEndpoint => "buyer-endpoint"
    case SellerName => "seller-name"
    case BuyerName => "buyer-name"
    case PaymentTerms => "payment-terms"
    case LineOrder => "line-order"
    case LineDescription => "line-description"
    case LineIdentifier => "line-identifier"
    case QuantityScale => "quantity-scale"
    case PriceScale => "price-scale"
    case VatRate => "vat-rate"
    case LineNote => "line-note"
    case SellerIdentifier => "seller-identifier"
    case AddressVariant => "address-variant"
    case AddLine => "add-line"
    case RemoveOptionals => "remove-optionals"
    case PaymentDueDate => "payment-due-date"
  }

  /** A mutation as the record lists it, with the version of the mutators. */
  function MutationLabel(r: MutationRecord): (text: string) {
    MutatorName(r.mutator) + "@1:" + NatText(r.token)
  }

  /** observation_from_result. */
  function ObservedOf(p: Packer, o: Observation): (r: Provenance.Observed) {
    Provenance.Observed(
      o.termination, o.returncode, p.sha(o.stdout), p.sha(o.stderr),
      if o.output.Some? then Some(p.env.sha(Capsule.Document(o.output.value))) else None)
  }

  function ProofOf(p: Packer, r: Record): (m: Provenance.Proof) {
    Provenance.Proof(
      "greedy-1-minimal-v1", "invoice-node-value-v1", r.attempts, p.labels(r.accepted), r.oneMinimal, r.verificationAttempts)
  }

  function ProvenanceOf(p: Packer, c: Candidate, r: Record): (q: Provenance.Record) {
    Provenance.Record(
      c.campaignSeed, c.seedSha256, p.env.hash(c.seedFingerprint), p.env.profile, r.targetDigest,
      Capsule.ResourcePolicy(p.replay.policy), Map(r.observations, o => ObservedOf(p, o)), ProofOf(p, r))
  }

  /** _finding_record: the record with hashes, labels and provenance. */
  function FindingOf(p: Packer, c: Candidate, r: Record): (f: Reporting.FindingRecord) {
    Reporting.FindingRecord(
      "case-" + Padded(r.caseIndex, 6), r.name, p.env.profile.identifier, r.targetDigest, p.env.sha(Capsule.Document(r.xml)),
      p.env.hash(r.fingerprint), r.termination, r.returncode, r.details, Map(r.mutations, m => MutationLabel(m)), r.oneMinimal,
      r.reproductions, p.synthetic, Some(ProvenanceOf(p, c, r)))
  }

  /** The record and its provenance pass their checks, and create_finding_capsule accepts them; None is any refusal. */
  function Pack(p: Packer, c: Candidate, r: Record): (capsule: Option<Capsule.Capsule>) {
    var finding := FindingOf(p, c, r);
    if !Provenance.ValidRecord(ProvenanceOf(p, c, r)) || !Reporting.ValidRecord(finding) || !Replay.Constructed(p.replay) then None
    else Capsule.Create(p.env, finding, r.xml, p.replay)
  }

  // ---------------------------------------------------------------- what can be refused

  /** Every hash is sixty-four hexadecimal digits, and the pinned profile is a proper one. */
  ghost predicate ProperHashes(p: Packer) {
    && (forall c :: Provenance.IsSha256(p.env.sha(c))) && (forall j :: Provenance.IsSha256(p.env.hash(j)))
    && (forall s :: Provenance.IsSha256(p.sha(s)))
    && Provenance.IsSha256(p.env.profile.validatorSha256) && Provenance.IsSha256(p.env.profile.configurationSha256)
    && 1 <= |p.env.profile.identifier| <= 2000
  }

  /** What a campaign makes sure of before it packs a record. */
  predicate Reported(r: Record, c: Candidate, inv: Invoice) {
    && SerializeInvoice(inv) == Some(r.xml) && r.fingerprint == Payload(inv)
    && r.caseIndex == c.index && r.mutations == c.operations && r.oneMinimal
    && r.attempts >= 1 && r.verificationAttempts >= 1
    && |r.observations| == r.reproductions && 1 <= r.reproductions <= 100
    && forall k :: 0 <= k < |r.observations| ==> r.observations[k].termination == r.termination && r.observations[k].returncode == r.returncode
  }

  /** The candidate comes from a legal campaign. */
  predicate ProperCandidate(c: Candidate) {
    && c.index < 100_000 && c.campaignSeed < CAMPAIGN_SEEDS && Provenance.IsSha256(c.seedSha256)
    && |c.operations| <= 3 && forall k :: 0 <= k < |c.operations| ==> |NatText(c.operations[k].token)| <= 1900
  }

  /**
   What is left to refuse: a reduced invoice that cannot be read back, an unknown termination, too
   many or too long details, a predicate without a declared kind or other than the replayed one,
   a replay that cannot be printed, and a digest of the wrong form or of another container.
   */
  predicate Packable(p: Packer, r: Record, inv: Invoice) {
    && Readable(inv) && p.env.xmlAccepts(Capsule.Document(r.xml))
    && (r.termination == "exited" || Reporting.IsResourceTermination(r.termination))
    && |r.details| <= 64 && Reporting.ShortTexts(r.details)
    && Reporting.FindingKind(r.name, r.termination, r.details).Some? && Replay.NameOf(p.replay.check) == r.name
    && Replay.Constructed(p.replay) && Replay.ReplayJson(p.replay).Some?
    && Provenance.IsSha256(r.targetDigest)
    && (p.replay.target.ContainerTarget? ==> p.env.configuration(p.replay.target) == Some(r.targetDigest))
  }

  lemma {:induction false} CaseIdShort(index: nat)
    requires index < 100_000
    ensures 1 <= |"case-" + Padded(index, 6)| <= 80
  {
    hide Padded;
    assert Pow10(6) == 1_000_000 by { Pow10Add(3, 3); assert Pow10(3) == 1000; }
    PaddedLength(index, 6);
  }

  lemma {:induction false} LabelsShort(rs: seq<MutationRecord>)
    requires |rs| <= 3 && forall k :: 0 <= k < |rs| ==> |NatText(rs[k].token)| <= 1900
    ensures Reporting.ShortTexts(Map(rs, m => MutationLabel(m))) && |Map(rs, m => MutationLabel(m))| <= 64
  {
    hide NatText, MutatorName;
  }

  lemma {:induction false} ObservationsProper(p: Packer, r: Record)
    requires ProperHashes(p)
    ensures var os := Map(r.observations, o => ObservedOf(p, o));
      forall k :: 0 <= k < |os| ==>
        && Provenance.ValidObserved(os[k])
        && os[k].termination == r.observations[k].termination && os[k].returncode == r.observations[k].returncode
  {
    hide Provenance.IsSha256;
  }

  /** The provenance passes its check whenever the target digest does. */
  lemma {:induction false} ProvenanceProper(p: Packer, c: Candidate, r: Record, inv: Invoice)
    requires ProperHashes(p) && ProperCandidate(c) && Reported(r, c, inv)
    ensures Provenance.ValidRecord(ProvenanceOf(p, c, r)) <==> Provenance.IsSha256(r.targetDigest)
  {
    hide Provenance.IsSha256, NatText, Provenance.ValidObserved, ObservedOf, Capsule.ResourcePolicy, SerializeInvoice, Payload;
    ObservationsProper(p, r);
  }

  lemma {:induction false} ShaIsShort(s: string)
    requires Provenance.IsSha256(s)
    ensures 1 <= |s| <= 2000
  {
    hide Provenance.IsHexDigit;
  }

  lemma {:induction false} FourShort(a: string, b: string, c: string, d: string)
    requires 1 <= |a| <= 2000 && 1 <= |b| <= 2000 && 1 <= |c| <= 2000 && 1 <= |d| <= 2000
    ensures Reporting.ShortTexts([a, b, c, d])
  {
  }

  lemma {:induction false} AgreesWithProvenance(p: Packer, c: Candidate, r: Record, inv: Invoice)
    requires ProperHashes(p) && Reported(r, c, inv)
    ensures Reporting.ProvenanceAgrees(FindingOf(p, c, r), ProvenanceOf(p, c, r))
  {
    hide Provenance.IsSha256, Padded, Capsule.ResourcePolicy, SerializeInvoice, Payload, MutationLabel, Map;
    ObservationsProper(p, r);
    MapLength(p, r);
  }

  lemma {:induction false} MapLength(p: Packer, r: Record)
    ensures |Map(r.observations, o => ObservedOf(p, o))| == |r.observations|
  {
  }

  /** The record passes its check whenever its own texts do. */
  lemma {:induction false} RecordProper(p: Packer, c: Candidate, r: Record, inv: Invoice)
    requires ProperHashes(p) && ProperCandidate(c) && Reported(r, c, inv) && Provenance.ValidRecord(ProvenanceOf(p, c, r))
    requires 1 <= |r.name| <= 2000 && Provenance.IsSha256(r.targetDigest)
    ensures Reporting.ValidRecord(FindingOf(p, c, r)) <==>
      (r.termination == "exited" || Reporting.IsResourceTermination(r.termination)) && |r.details| <= 64 && Reporting.ShortTexts(r.details)
  {
    hide Provenance.IsSha256, NatText, Padded, MutationLabel, Provenance.ValidRecord, Map, ProvenanceOf, Reporting.ProvenanceAgrees,
      Reporting.ShortTexts, Reporting.IsResourceTermination, SerializeInvoice, Payload;
    CaseIdShort(c.index);
    LabelsShort(c.operations);
    ShaIsShort(r.targetDigest);
    ShaIsShort(p.env.hash(r.fingerprint));
    FourShort(r.name, p.env.profile.identifier, r.targetDigest, p.env.hash(r.fingerprint));
    AgreesWithProvenance(p, c, r, inv);
  }

  /** Written and read back, the reduced invoice has the recorded hash and fingerprint exactly when it is readable. */
  lemma {:induction false} InvoiceProper(p: Packer, c: Candidate, r: Record, inv: Invoice)
    requires Reported(r, c, inv)
    ensures Capsule.InvoiceOk(p.env, FindingOf(p, c, r), r.xml) <==> Readable(inv) && p.env.xmlAccepts(Capsule.Document(r.xml))
  {
    hide ParseInvoice, Payload, Readable, ValidInvoice, Document, SumsOf, TotalsFit, ProvenanceOf, SameInvoice, Map, Padded, CanonicalLines;
    WriteThenRead(inv);
    CanonicalPayload(inv);
  }

  lemma {:induction false} CanonicalPayload(inv: Invoice)
    requires ValidInvoice(inv)
    ensures Payload(CanonicalInvoice(inv)) == Payload(inv)
  {
    hide ValidInvoice, Payload, SameInvoice;
    CanonicalIsValid(inv);
    CanonicalIsSame(inv);
    FingerprintsAgree(CanonicalInvoice(inv), inv);
  }

  lemma {:induction false} BindingProper(p: Packer, c: Candidate, r: Record, inv: Invoice)
    requires Reported(r, c, inv)
    ensures Capsule.BindingOk(p.env, FindingOf(p, c, r), p.replay)
  {
    hide Capsule.ResourcePolicy, SerializeInvoice, Payload, Padded, MutationLabel, Map, ObservedOf;
    MapLength(p, r);
  }

  /** The predicate that a replay names has a name of a proper length. */
  lemma {:induction false} NameIsShort(check: Replay.Predicate)
    ensures 1 <= |Replay.NameOf(check)| <= 2000
  {
  }

  /**
   A campaign's record is packed if and only if the reduced invoice can be read back, its
   termination and details are within the limits, the predicate has a declared kind and is the
   replayed one, the replay can be printed, and the digest is one, and the container's.
   */
  lemma {:induction false} PackExact(p: Packer, c: Candidate, r: Record, inv: Invoice)
    requires ProperHashes(p) && ProperCandidate(c) && Reported(r, c, inv)
    ensures Pack(p, c, r).Some? <==> Packable(p, r, inv)
  {
    hide Provenance.ValidRecord, Provenance.IsSha256, Reporting.ValidRecord, Reporting.ShortTexts, Reporting.IsResourceTermination,
      Reporting.FindingKind, Reporting.FindingValues, Replay.ReplayJson, Replay.Constructed, Replay.NameOf, Capsule.InvoiceOk,
      Capsule.BindingOk, Capsule.Manifest, Readable, ProvenanceOf, Reported, ProperHashes, ProperCandidate, Map, Padded;
    ProvenanceProper(p, c, r, inv);
    NameIsShort(p.replay.check);
    InvoiceProper(p, c, r, inv);
    BindingProper(p, c, r, inv);
    if Provenance.IsSha256(r.targetDigest) && Replay.NameOf(p.replay.check) == r.name {
      RecordProper(p, c, r, inv);
    }
  }

  /** The capsule verifies exactly when it is within the limits of the readers and the replay is well formed, and gives everything back. */
  ghost predicate VerifiesAs(p: Packer, c: Candidate, r: Record, capsule: Capsule.Capsule) {
    && Replay.PolicyValues(p.replay.policy).Some?
    && Capsule.Verify(p.env, capsule) ==
       if Capsule.ReadableCapsule(p.env, capsule) && Replay.WellFormed(p.replay)
       then Some(Capsule.Verified(FindingOf(p, c, r), r.xml, p.replay.(policy := Replay.SnapPolicy(p.replay.policy)))) else None
  }

  /** Whatever was packed verifies so: it gives back the record, the invoice, and the replay with its times snapped. */
  lemma {:induction false} PackedVerifies(p: Packer, c: Candidate, r: Record, capsule: Capsule.Capsule)
    requires Pack(p, c, r) == Some(capsule)
    ensures VerifiesAs(p, c, r, capsule)
  {
    hide Provenance.ValidRecord, Reporting.ValidRecord, Replay.Constructed, Capsule.Create, Capsule.Verify, Capsule.ReadableCapsule,
      Replay.WellFormed, Replay.SnapPolicy, Replay.PolicyValues, FindingOf, ProvenanceOf;
    Capsule.CapsuleRoundTrip(p.env, FindingOf(p, c, r), r.xml, p.replay);
  }
}
