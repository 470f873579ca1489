/** Finding records: their invariant, their payload, and the strict reader of that payload. */
module Reporting {
  import opened Basics
  import opened Json
  import opened JsonFields
  import Provenance

  datatype FindingRecord = FindingRecord(
    caseId: string,
    predicateName: string,
    profileId: string,
    targetDigest: string,
    invoiceSha256: string,
    fingerprint: string,
    termination: string,
    returncode: Option<int>,
    details: seq<string>,
    mutations: seq<string>,
    oneMinimal: bool,
    reproductions: int,
    synthetic: bool,
    provenance: Option<Provenance.Record>)

  const REPORT_SCHEMA := "https://rechnungsprobe.dev/schemas/finding-v1"

  predicate IsResourceTermination(t: string) {
    t in {"timeout", "output_limit", "memory_limit", "cpu_limit", "process_limit", "file_limit"}
  }

  predicate IsTotalField(detail: string) {
    detail in {"line_total", "tax_total", "payable_total"}
  }

  /** classify_finding; None when the predicate has no declared classification. */
  function FindingKind(name: string, termination: string, details: seq<string>): (kind: Option<string>) {
    if IsResourceTermination(termination) then Some("timeout-or-resource-exhaustion")
    else if name == "declared-field-loss" then
      Some(if exists i :: 0 <= i < |details| && IsTotalField(details[i]) then "totals-or-tax-changed" else "field-lost-or-altered")
    else if name == "import-rejected" then Some("valid-invoice-rejected")
    else if name == "parse-error" then Some("accepted-but-parsed-incorrectly")
    else if name == "optional-construct" then Some("optional-valid-construct-mishandled")
    else if name == "crash-or-nonzero" then Some("crash")
    else if name == "timeout" then Some("timeout-or-resource-exhaustion")
    else if name == "nondeterminism" then Some("nondeterminism")
    else if name == "output-invalid" then Some("round-trip-loss")
    else None
  }

  function KindOf(r: FindingRecord): (kind: Option<string>) {
    FindingKind(r.predicateName, r.termination, r.details)
  }

  function EvidenceClass(r: FindingRecord): (c: string) {
    if r.synthetic then "synthetic" else "real"
  }

  predicate ShortTexts(ts: seq<string>) {
    forall i :: 0 <= i < |ts| ==> 1 <= |ts[i]| <= 2000
  }

  /** Record and provenance describe the same finding. */
  predicate ProvenanceAgrees(r: FindingRecord, p: Provenance.Record) {
    && p.targetDigest == r.targetDigest && p.profile.identifier == r.profileId && |p.observations| == r.reproductions
    && p.minimization.oneMinimal == r.oneMinimal
    && forall i :: 0 <= i < |p.observations| ==>
         p.observations[i].termination == r.termination && p.observations[i].returncode == r.returncode
  }

  /** The check of FindingRecord when it is constructed. */
  predicate ValidRecord(r: FindingRecord) {
    && (!r.synthetic ==> r.provenance.Some?)
    && 1 <= |r.caseId| <= 80 && ShortTexts([r.predicateName, r.profileId, r.targetDigest, r.fingerprint])
    && ShortTexts(r.details) && ShortTexts(r.mutations)
    && Provenance.IsSha256(r.targetDigest) && Provenance.IsSha256(r.invoiceSha256) && Provenance.IsSha256(r.fingerprint)
    && (r.termination == "exited" || IsResourceTermination(r.termination))
    && |r.details| <= 64 && |r.mutations| <= 64 && 1 <= r.reproductions <= 100
    && (r.provenance.Some? ==> Provenance.ValidRecord(r.provenance.value) && ProvenanceAgrees(r, r.provenance.value))
  }

  const FINDING_KEYS := [
    "case_id", "details", "evidence_class", "finding_kind", "fingerprint", "invoice_sha256", "mutations", "one_minimal",
    "predicate", "profile_id", "provenance", "reproductions", "returncode", "synthetic", "target_digest", "termination"]

  function ProvenanceJson(p: Option<Provenance.Record>): (j: Json) {
    if p.Some? then Provenance.Payload(p.value) else Null
  }

  function FindingValues(r: FindingRecord, kind: string): (vs: seq<Json>)
    ensures |vs| == 16
  {
    [Text(r.caseId), TextsJson(r.details), Text(EvidenceClass(r)), Text(kind), Text(r.fingerprint), Text(r.invoiceSha256),
     TextsJson(r.mutations), Bool(r.oneMinimal), Text(r.predicateName), Text(r.profileId), ProvenanceJson(r.provenance),
     Number(r.reproductions), OptionalIntJson(r.returncode), Bool(r.synthetic), Text(r.targetDigest), Text(r.termination)]
  }

  /** _record_payload; None when the finding has no classification. */
  function RecordPayload(r: FindingRecord): (j: Option<Json>) {
    var kind := KindOf(r);
    if kind.None? then None else Some(Named(FINDING_KEYS, FindingValues(r, kind.value)))
  }

  /** finding_json for one record, as a value. */
  function FindingJson(r: FindingRecord): (j: Option<Json>) {
    var payload := RecordPayload(r);
    if payload.None? then None else Some(Named(["findings", "schema"], [List([payload.value]), Text(REPORT_SCHEMA)]))
  }

  predicate TypesOk(v: seq<Json>)
    requires |v| == 16
  {
    && v[0].Text? && IsTexts(v[1]) && v[2].Text? && v[3].Text? && v[4].Text? && v[5].Text? && IsTexts(v[6]) && v[7].Bool?
    && v[8].Text? && v[9].Text? && v[11].Number? && (v[12].Number? || v[12].Null?) && v[13].Bool? && v[14].Text? && v[15].Text?
    && v[2].text in {"real", "synthetic"}
  }

  /** finding_record_from_payload; None is the refusal of a payload or of the record it describes. */
  function ReadRecord(j: Json): (r: Option<FindingRecord>) {
    var f := Fields(j, FINDING_KEYS);
    if f.None? || !TypesOk(f.value) then None
    else
      var v := f.value;
      var provenance := if v[10].Null? then Some(None) else (var p := Provenance.Read(v[10]); if p.None? then None else Some(p));
      if provenance.None? then None
      else
        var r := FindingRecord(
          v[0].text, v[8].text, v[9].text, v[14].text, v[5].text, v[4].text, v[15].text, AsOptionalInt(v[12]), AsTexts(v[1]),
          AsTexts(v[6]), v[7].value, v[11].number, v[13].value, provenance.value);
        if ValidRecord(r) && KindOf(r) == Some(v[3].text) && EvidenceClass(r) == v[2].text then Some(r) else None
  }

  /** The reader of result.json inside a capsule. */
  function ReadFindings(j: Json): (r: Option<FindingRecord>) {
    var f := Fields(j, ["findings", "schema"]);
    if f.None? || f.value[1] != Text(REPORT_SCHEMA) || !f.value[0].List? || |f.value[0].items| != 1 then None
    else ReadRecord(f.value[0].items[0])
  }

  lemma {:induction false} ProvenanceJsonReadsBack(p: Option<Provenance.Record>)
    requires p.Some? ==> Provenance.ValidRecord(p.value)
    ensures p.None? ==> ProvenanceJson(p).Null?
    ensures p.Some? ==> !ProvenanceJson(p).Null? && Provenance.Read(ProvenanceJson(p)) == p
  {
    hide Provenance.Read, Provenance.ValidRecord;
    if p.Some? {
      Provenance.ReadsBack(p.value);
    }
  }

  /** A record that can be classified is read back from its payload. */
  lemma {:induction false} RecordReadsBack(r: FindingRecord)
    requires ValidRecord(r) && KindOf(r).Some?
    ensures ReadRecord(RecordPayload(r).value) == Some(r)
  {
    hide Named, Fields, ProvenanceJson, Provenance.Read, FindingKind, TextsJson, IsTexts, AsTexts, Provenance.ValidRecord,
      Provenance.IsSha256, ProvenanceAgrees, ShortTexts;
    FieldsOfNamed(FINDING_KEYS, FindingValues(r, KindOf(r).value));
    TextsRoundTrip(r.details);
    TextsRoundTrip(r.mutations);
    ProvenanceJsonReadsBack(r.provenance);
  }

  /** finding_json and the reader of result.json undo each other. */
  lemma {:induction false} FindingsReadBack(r: FindingRecord)
    requires ValidRecord(r)
    ensures FindingJson(r).Some? <==> KindOf(r).Some?
    ensures FindingJson(r).Some? ==> ReadFindings(FindingJson(r).value) == Some(r)
  {
    hide Named, Fields, ValidRecord, KindOf, ReadRecord, FindingValues;
    if KindOf(r).Some? {
      RecordReadsBack(r);
      FieldsOfNamed(["findings", "schema"], [List([RecordPayload(r).value]), Text(REPORT_SCHEMA)]);
    }
  }

  /**
   The records that cannot be written are exactly those of a predicate without a declared kind
   that did not end in a resource termination; findings of the JSON predicate are among them.
   */
  lemma {:induction false} UnwritableRecords(r: FindingRecord)
    requires ValidRecord(r)
    ensures FindingJson(r).None? <==>
      r.termination == "exited" && r.predicateName !in {
        "declared-field-loss", "import-rejected", "parse-error", "optional-construct", "crash-or-nonzero", "timeout",
        "nondeterminism", "output-invalid"}
    ensures r.predicateName == "stdout-json" && r.termination == "exited" ==> FindingJson(r).None?
  {
    hide Named, FindingValues, Provenance.ValidRecord, Provenance.IsSha256, ProvenanceAgrees, ShortTexts;
  }
}
