/** Finding provenance: its invariant, its payload, and the strict reader of that payload. */
module Provenance {
  import opened Basics
  import opened Json
  import opened JsonFields

  datatype Observed = Observed(
    termination: string,
    returncode: Option<int>,
    stdoutSha256: string,
    stderrSha256: string,
    outputSha256: Option<string>)

  datatype Proof = Proof(
    algorithm: string,
    declaredOperations: string,
    attempts: int,
    acceptedOperations: seq<string>,
    oneMinimal: bool,
    verificationAttempts: int)

  datatype Profile = Profile(
    configurationSha256: string,
    configurationVersion: string,
    identifier: string,
    validatorSha256: string,
    validatorVersion: string)

  /** One entry of the recorded resource policy, which is kept in key order. */
  datatype Count = Count(key: string, value: int)

  datatype Record = Record(
    campaignSeed: int,
    seedSha256: string,
    seedFingerprint: string,
    profile: Profile,
    targetDigest: string,
    resourcePolicy: seq<Count>,
    observations: seq<Observed>,
    minimization: Proof)

  predicate IsHexDigit(c: char) {
    '0' <= c <= '9' || 'a' <= c <= 'f'
  }

  /** Sixty-four lower-case hexadecimal digits, with or without the prefix sha256:. */
  predicate IsSha256(s: string) {
    var digits := if |s| >= 7 && s[..7] == "sha256:" then s[7..] else s;
    |digits| == 64 && forall i :: 0 <= i < 64 ==> IsHexDigit(digits[i])
  }

  predicate ValidObserved(o: Observed) {
    IsSha256(o.stdoutSha256) && IsSha256(o.stderrSha256) && (o.outputSha256.Some? ==> IsSha256(o.outputSha256.value))
  }

  predicate ValidProof(p: Proof) {
    p.algorithm == "greedy-1-minimal-v1" && p.declaredOperations == "invoice-node-value-v1"
    && p.attempts >= 1 && p.verificationAttempts >= 1
  }

  /** The check of FindingProvenance when it is constructed. */
  predicate ValidRecord(r: Record) {
    && 0 <= r.campaignSeed < 0x8000_0000_0000_0000
    && IsSha256(r.seedSha256) && IsSha256(r.seedFingerprint) && IsSha256(r.targetDigest)
    && IsSha256(r.profile.validatorSha256) && IsSha256(r.profile.configurationSha256)
    && r.observations != [] && (forall i :: 0 <= i < |r.observations| ==> ValidObserved(r.observations[i]))
    && ValidProof(r.minimization)
  }

  // ---------------------------------------------------------------- payloads

  const OBSERVED_KEYS := ["output_sha256", "returncode", "stderr_sha256", "stdout_sha256", "termination"]
  const PROOF_KEYS := ["accepted_operations", "algorithm", "attempts", "declared_operations", "one_minimal", "verification_attempts"]
  const PROFILE_KEYS := ["configuration_sha256", "configuration_version", "identifier", "validator_sha256", "validator_version"]
  const RECORD_KEYS := [
    "campaign_seed", "minimization", "observations", "profile", "resource_policy", "seed_fingerprint", "seed_sha256", "target_digest"]

  function ObservedPayload(o: Observed): (j: Json) {
    Named(OBSERVED_KEYS, [
      OptionalTextJson(o.outputSha256), OptionalIntJson(o.returncode), Text(o.stderrSha256), Text(o.stdoutSha256), Text(o.termination)])
  }

  function ProofPayload(p: Proof): (j: Json) {
    Named(PROOF_KEYS, [
      TextsJson(p.acceptedOperations), Text(p.algorithm), Number(p.attempts), Text(p.declaredOperations), Bool(p.oneMinimal),
      Number(p.verificationAttempts)])
  }

  function ProfilePayload(p: Profile): (j: Json) {
    Named(PROFILE_KEYS, [
      Text(p.configurationSha256), Text(p.configurationVersion), Text(p.identifier), Text(p.validatorSha256), Text(p.validatorVersion)])
  }

  function CountsPayload(cs: seq<Count>): (j: Json) {
    Object(Map(cs, (c: Count) => Member(c.key, Number(c.value))))
  }

  function ObservationsPayload(os: seq<Observed>): (j: Json) {
    List(Map(os, o => ObservedPayload(o)))
  }

  /** provenance_payload. */
  function Payload(r: Record): (j: Json) {
    Named(RECORD_KEYS, [
      Number(r.campaignSeed), ProofPayload(r.minimization), ObservationsPayload(r.observations), ProfilePayload(r.profile),
      CountsPayload(r.resourcePolicy), Text(r.seedFingerprint), Text(r.seedSha256), Text(r.targetDigest)])
  }

  // ---------------------------------------------------------------- the reader

  function ReadObserved(j: Json): (o: Option<Observed>) {
    var f := Fields(j, OBSERVED_KEYS);
    if f.None? then None
    else
      var v := f.value;
      if (v[0].Text? || v[0].Null?) && (v[1].Number? || v[1].Null?) && v[2].Text? && v[3].Text? && v[4].Text?
      then Some(Observed(v[4].text, AsOptionalInt(v[1]), v[3].text, v[2].text, AsOptionalText(v[0])))
      else None
  }

  function ReadObservations(items: seq<Json>): (os: Option<seq<Observed>>)
    ensures os.Some? ==> |os.value| == |items|
  {
    if items == [] then Some([])
    else
      var first, rest := ReadObserved(items[0]), ReadObservations(items[1..]);
      if first.None? || rest.None? then None else Some([first.value] + rest.value)
  }

  function ReadProof(j: Json): (p: Option<Proof>) {
    var f := Fields(j, PROOF_KEYS);
    if f.None? then None
    else
      var v := f.value;
      if IsTexts(v[0]) && v[1].Text? && v[2].Number? && v[3].Text? && v[4].Bool? && v[5].Number?
      then Some(Proof(v[1].text, v[3].text, v[2].number, AsTexts(v[0]), v[4].value, v[5].number))
      else None
  }

  function ReadProfile(j: Json): (p: Option<Profile>) {
    var f := Fields(j, PROFILE_KEYS);
    if f.None? then None
    else
      var v := f.value;
      if v[0].Text? && v[1].Text? && v[2].Text? && v[3].Text? && v[4].Text?
      then Some(Profile(v[0].text, v[1].text, v[2].text, v[3].text, v[4].text))
      else None
  }

  predicate IsCounts(j: Json) {
    j.Object? && forall i :: 0 <= i < |j.members| ==> j.members[i].value.Number?
  }

  function AsCounts(j: Json): (cs: seq<Count>)
    requires IsCounts(j)
  {
    seq(|j.members|, i requires 0 <= i < |j.members| => Count(j.members[i].key, j.members[i].value.number))
  }

  /** provenance_from_payload; None is the refusal of a payload or of the record it describes. */
  function Read(j: Json): (r: Option<Record>) {
    var f := Fields(j, RECORD_KEYS);
    if f.None? then None
    else
      var v := f.value;
      if !(v[0].Number? && v[2].List? && IsCounts(v[4]) && v[5].Text? && v[6].Text? && v[7].Text?) then None
      else
        var proof, observations, profile := ReadProof(v[1]), ReadObservations(v[2].items), ReadProfile(v[3]);
        if proof.None? || observations.None? || profile.None? then None
        else
          var r := Record(v[0].number, v[6].text, v[5].text, profile.value, v[7].text, AsCounts(v[4]), observations.value, proof.value);
          if ValidRecord(r) then Some(r) else None
  }

  // ---------------------------------------------------------------- round trip

  lemma {:induction false} ObservedReadsBack(o: Observed)
    ensures ReadObserved(ObservedPayload(o)) == Some(o)
  {
    hide Named, Fields;
    FieldsOfNamed(OBSERVED_KEYS, [
      OptionalTextJson(o.outputSha256), OptionalIntJson(o.returncode), Text(o.stderrSha256), Text(o.stdoutSha256), Text(o.termination)]);
  }

  lemma {:induction false} ObservationsReadBack(os: seq<Observed>)
    ensures ReadObservations(ObservationsPayload(os).items) == Some(os)
  {
    hide ObservedPayload, ReadObserved;
    if os != [] {
      ObservedReadsBack(os[0]);
      ObservationsReadBack(os[1..]);
      assert ObservationsPayload(os).items[1..] == ObservationsPayload(os[1..]).items;
      assert os == [os[0]] + os[1..];
    }
  }

  lemma {:induction false} ProofReadsBack(p: Proof)
    ensures ReadProof(ProofPayload(p)) == Some(p)
  {
    hide Named, Fields, TextsJson, IsTexts, AsTexts;
    TextsRoundTrip(p.acceptedOperations);
    FieldsOfNamed(PROOF_KEYS, [
      TextsJson(p.acceptedOperations), Text(p.algorithm), Number(p.attempts), Text(p.declaredOperations), Bool(p.oneMinimal),
      Number(p.verificationAttempts)]);
  }

  lemma {:induction false} ProfileReadsBack(p: Profile)
    ensures ReadProfile(ProfilePayload(p)) == Some(p)
  {
    hide Named, Fields;
    FieldsOfNamed(PROFILE_KEYS, [
      Text(p.configurationSha256), Text(p.configurationVersion), Text(p.identifier), Text(p.validatorSha256), Text(p.validatorVersion)]);
  }

  lemma {:induction false} CountsReadBack(cs: seq<Count>)
    ensures IsCounts(CountsPayload(cs)) && AsCounts(CountsPayload(cs)) == cs
  {
  }

  /** Reading a printed provenance gives it back exactly when it satisfies the invariant. */
  lemma {:induction false} ReadsBack(r: Record)
    ensures Read(Payload(r)) == if ValidRecord(r) then Some(r) else None
  {
    hide Named, Fields, ObservationsPayload, ProofPayload, ProfilePayload, CountsPayload, ReadProof, ReadProfile, ReadObservations,
      IsCounts, AsCounts, ValidRecord;
    ProofReadsBack(r.minimization);
    ObservationsReadBack(r.observations);
    ProfileReadsBack(r.profile);
    CountsReadBack(r.resourcePolicy);
    ObservationsAreList(r.observations);
    FieldsOfNamed(RECORD_KEYS, [
      Number(r.campaignSeed), ProofPayload(r.minimization), ObservationsPayload(r.observations), ProfilePayload(r.profile),
      CountsPayload(r.resourcePolicy), Text(r.seedFingerprint), Text(r.seedSha256), Text(r.targetDigest)]);
  }

  lemma {:induction false} ObservationsAreList(os: seq<Observed>)
    ensures ObservationsPayload(os).List?
  {
  }
}
