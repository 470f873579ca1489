/** Finding capsules: what is written can be verified again, and gives back what was written. */
module Capsule {
  import opened Basics
  import opened Invoices
  import opened Json
  import opened JsonFields
  import opened Trees
  import opened Parse
  import opened Fingerprint
  import opened Reporting
  import opened Replay
  import Provenance

  const CAPSULE_SCHEMA := "https://rechnungsprobe.dev/schemas/capsule-v1"
  const MANIFEST_LIMIT := 64 * 1024
  const INVOICE_LIMIT := 2 * 1024 * 1024
  const REPLAY_LIMIT := 128 * 1024
  const RESULT_LIMIT := 2 * 1024 * 1024
  const JUNIT_LIMIT := 2 * 1024 * 1024

  /** A capsule member: a JSON value stands for its printed text, an element for its document. */
  datatype Content =
    | JsonText(value: Json)
    | Document(element: Element)
    | Report(text: string)

  datatype Capsule = Capsule(manifest: Json, invoice: Element, replay: Json, result: Json, junit: string)

  datatype Verified = Verified(record: FindingRecord, invoice: Element, replay: Specification)

  /**
   What is computed outside the model: sizes and hashes of members, the hash of a fingerprint
   payload, the JUnit rendering and whether it is well-formed XML, the configuration digest of a
   container (None when the configuration is refused), and the pinned profile.
   */
  datatype Env = Env(
    size: Content -> nat,
    sha: Content -> string,
    hash: Json -> string,
    junit: FindingRecord -> string,
    xmlAccepts: Content -> bool,
    configuration: Target -> Option<string>,
    profile: Provenance.Profile)

  // ---------------------------------------------------------------- shared checks

  function MillisecondsOf(seconds: real): (ms: int) {
    Round(seconds * 1000.0)
  }

  /** resource_policy_payload, in key order. */
  function ResourcePolicy(p: Policy): (cs: seq<Provenance.Count>) {
    [Provenance.Count("cpu_milliseconds", MillisecondsOf(p.cpuSeconds)),
     Provenance.Count("max_created_files", p.maxCreatedFiles),
     Provenance.Count("max_file_growth_bytes", p.maxFileGrowthBytes),
     Provenance.Count("max_input_bytes", p.maxInputBytes),
     Provenance.Count("max_memory_bytes", p.maxMemoryBytes),
     Provenance.Count("max_output_bytes", p.maxOutputBytes),
     Provenance.Count("max_processes", p.maxProcesses),
     Provenance.Count("poll_interval_milliseconds", MillisecondsOf(p.pollSeconds)),
     Provenance.Count("timeout_milliseconds", MillisecondsOf(p.timeoutSeconds))]
  }

  /** _verify_provenance_binding. */
  predicate BindingOk(env: Env, r: FindingRecord, s: Specification) {
    match r.provenance
    case None => r.synthetic
    case Some(p) =>
      p.profile == env.profile && p.resourcePolicy == ResourcePolicy(s.policy) && p.targetDigest == r.targetDigest
      && |p.observations| == r.reproductions && p.minimization.oneMinimal == r.oneMinimal
  }

  predicate ContainerOk(env: Env, r: FindingRecord, s: Specification) {
    s.target.ContainerTarget? ==> env.configuration(s.target) == Some(r.targetDigest)
  }

  /** The document passes the preflight and parses to an invoice with the recorded hash and fingerprint. */
  predicate InvoiceOk(env: Env, r: FindingRecord, xml: Element) {
    var invoice := ParseInvoice(xml);
    && env.xmlAccepts(Document(xml)) && env.sha(Document(xml)) == r.invoiceSha256
    && invoice.Ok? && env.hash(Payload(invoice.value)) == r.fingerprint
  }

  // ---------------------------------------------------------------- writing

  const FILE_KEYS := ["invoice.xml", "junit.xml", "replay.json", "result.json"]
  const DESCRIPTOR_KEYS := ["sha256", "size"]
  const MANIFEST_KEYS := ["files", "profile_id", "schema", "target_digest"]

  function Descriptor(env: Env, c: Content): (j: Json) {
    Named(DESCRIPTOR_KEYS, [Text(env.sha(c)), Number(env.size(c))])
  }

  function Manifest(env: Env, r: FindingRecord, invoice: Element, junit: string, replay: Json, result: Json): (j: Json) {
    Named(MANIFEST_KEYS, [
      Named(FILE_KEYS, [
        Descriptor(env, Document(invoice)), Descriptor(env, Report(junit)), Descriptor(env, JsonText(replay)),
        Descriptor(env, JsonText(result))]),
      Text(r.profileId), Text(CAPSULE_SCHEMA), Text(r.targetDigest)])
  }

  /** create_finding_capsule; None is any refusal. The file itself is not part of this model. */
  function Create(env: Env, r: FindingRecord, xml: Element, s: Specification): (c: Option<Capsule>) {
    var result, replay := FindingJson(r), ReplayJson(s);
    if !InvoiceOk(env, r, xml) || result.None? || replay.None? || NameOf(s.check) != r.predicateName
       || !BindingOk(env, r, s) || !ContainerOk(env, r, s) then None
    else
      var junit := env.junit(r);
      Some(Capsule(Manifest(env, r, xml, junit, replay.value, result.value), xml, replay.value, result.value, junit))
  }

  // ---------------------------------------------------------------- reading

  predicate DescriptorOk(env: Env, j: Json, c: Content) {
    Fields(j, DESCRIPTOR_KEYS) == Some([Text(env.sha(c)), Number(env.size(c))])
  }

  predicate SizesOk(env: Env, c: Capsule) {
    && env.size(JsonText(c.manifest)) <= MANIFEST_LIMIT && env.size(Document(c.invoice)) <= INVOICE_LIMIT
    && env.size(JsonText(c.replay)) <= REPLAY_LIMIT && env.size(JsonText(c.result)) <= RESULT_LIMIT
    && env.size(Report(c.junit)) <= JUNIT_LIMIT
  }

  function Decode(env: Env, v: Json, limit: nat): (r: Option<Json>) {
    StrictJson(v, env.size(JsonText(v)), limit)
  }

  /** The manifest has the expected shape and describes the other members. */
  predicate ManifestOk(env: Env, manifest: Json, c: Capsule, r: FindingRecord) {
    var f := Fields(manifest, MANIFEST_KEYS);
    if f.None? then false
    else
      var files := Fields(f.value[0], FILE_KEYS);
      && f.value[2] == Text(CAPSULE_SCHEMA) && files.Some?
      && DescriptorOk(env, files.value[0], Document(c.invoice)) && DescriptorOk(env, files.value[1], Report(c.junit))
      && DescriptorOk(env, files.value[2], JsonText(c.replay)) && DescriptorOk(env, files.value[3], JsonText(c.result))
      && f.value[1] == Text(r.profileId) && f.value[3] == Text(r.targetDigest)
  }

  /** verify_finding_capsule; None is any refusal. */
  function Verify(env: Env, c: Capsule): (v: Option<Verified>) {
    var manifest := Decode(env, c.manifest, MANIFEST_LIMIT);
    var result, replay := Decode(env, c.result, RESULT_LIMIT), Decode(env, c.replay, REPLAY_LIMIT);
    if !SizesOk(env, c) || manifest.None? || result.None? || replay.None? then None
    else
      var record, specification := ReadFindings(result.value), ReadReplay(replay.value);
      if record.None? || specification.None? then None
      else
        var r, s := record.value, specification.value;
        if ManifestOk(env, manifest.value, c, r) && NameOf(s.check) == r.predicateName && BindingOk(env, r, s) && ContainerOk(env, r, s)
           && InvoiceOk(env, r, c.invoice) && env.xmlAccepts(Report(c.junit)) && c.junit == env.junit(r) && FindingJson(r) == Some(c.result)
        then Some(Verified(r, c.invoice, s)) else None
  }

  // ---------------------------------------------------------------- round trip

  /** Everything the reader asks of a written capsule beyond what the writer checked. */
  predicate ReadableCapsule(env: Env, c: Capsule) {
    && SizesOk(env, c) && env.xmlAccepts(Report(c.junit))
    && Readable(c.manifest, env.size(JsonText(c.manifest)), MANIFEST_LIMIT)
    && Readable(c.result, env.size(JsonText(c.result)), RESULT_LIMIT)
    && Readable(c.replay, env.size(JsonText(c.replay)), REPLAY_LIMIT)
  }

  lemma {:induction false} SnappedPolicySame(p: Policy)
    requires PolicyValues(p).Some?
    ensures ResourcePolicy(SnapPolicy(p)) == ResourcePolicy(p)
  {
    hide Seconds, WithinCaps;
    CapsAtLeastOne(PolicyValues(p).value);
    WholeMilliseconds(Milliseconds(p.cpuSeconds).value);
    WholeMilliseconds(Milliseconds(p.pollSeconds).value);
    WholeMilliseconds(Milliseconds(p.timeoutSeconds).value);
  }

  lemma {:induction false} ManifestReadsBack(env: Env, r: FindingRecord, c: Capsule)
    requires c.manifest == Manifest(env, r, c.invoice, c.junit, c.replay, c.result)
    ensures ManifestOk(env, c.manifest, c, r)
  {
    hide Named, Fields;
    var files := [Descriptor(env, Document(c.invoice)), Descriptor(env, Report(c.junit)), Descriptor(env, JsonText(c.replay)),
                  Descriptor(env, JsonText(c.result))];
    FieldsOfNamed(FILE_KEYS, files);
    FieldsOfNamed(MANIFEST_KEYS, [Named(FILE_KEYS, files), Text(r.profileId), Text(CAPSULE_SCHEMA), Text(r.targetDigest)]);
    DescriptorReadsBack(env, Document(c.invoice));
    DescriptorReadsBack(env, Report(c.junit));
    DescriptorReadsBack(env, JsonText(c.replay));
    DescriptorReadsBack(env, JsonText(c.result));
  }

  lemma {:induction false} DescriptorReadsBack(env: Env, c: Content)
    ensures DescriptorOk(env, Descriptor(env, c), c)
  {
    hide Named, Fields;
    FieldsOfNamed(DESCRIPTOR_KEYS, [Text(env.sha(c)), Number(env.size(c))]);
  }

  lemma {:induction false} DecodesWhenReadable(env: Env, v: Json, limit: nat)
    ensures Decode(env, v, limit) == if Readable(v, env.size(JsonText(v)), limit) then Some(v) else None
  {
    hide StrictJson, Readable;
    StrictJsonExact(v, env.size(JsonText(v)), limit);
  }

  /** The snapped specification binds to the record like the original. */
  lemma {:induction false} SnappedBinds(env: Env, r: FindingRecord, s: Specification)
    requires PolicyValues(s.policy).Some?
    ensures var t := s.(policy := SnapPolicy(s.policy));
      && (BindingOk(env, r, t) <==> BindingOk(env, r, s)) && (ContainerOk(env, r, t) <==> ContainerOk(env, r, s))
      && NameOf(t.check) == NameOf(s.check)
  {
    hide PolicyValues, SnapPolicy, ResourcePolicy;
    SnappedPolicySame(s.policy);
  }

  /**
   For every record, invoice and replay that can be packed: the capsule verifies exactly when its
   members are within the limits of the readers and the replay's input mode and pointer are well
   formed. It then gives back the same record and invoice, and the replay with its times snapped to
   milliseconds, which prints the same bytes.
   */
  lemma {:induction false} CapsuleRoundTrip(env: Env, r: FindingRecord, xml: Element, s: Specification)
    requires ValidRecord(r) && Constructed(s) && Create(env, r, xml, s).Some?
    ensures PolicyValues(s.policy).Some? && ReplayJson(s).Some?
    ensures var c, snapped := Create(env, r, xml, s).value, s.(policy := SnapPolicy(s.policy));
      Verify(env, c) == if ReadableCapsule(env, c) && WellFormed(s) then Some(Verified(r, xml, snapped)) else None
    ensures ReplayJson(s.(policy := SnapPolicy(s.policy))) == ReplayJson(s)
  {
    hide InvoiceOk, BindingOk, ContainerOk, ManifestOk, Manifest, FindingJson, ReadFindings, ReadReplay, Decode, SizesOk, PolicyValues,
      TargetPayload, PredicatePayload, NumbersJson, Named, SnapPolicy, ValidRecord, Constructed, WellFormed, Readable, NameOf;
    var c := Create(env, r, xml, s).value;
    ReplayReadsBack(s);
    FindingsReadBack(r);
    SnappedBinds(env, r, s);
    ManifestReadsBack(env, r, c);
    DecodesWhenReadable(env, c.manifest, MANIFEST_LIMIT);
    DecodesWhenReadable(env, c.result, RESULT_LIMIT);
    DecodesWhenReadable(env, c.replay, REPLAY_LIMIT);
  }
}
