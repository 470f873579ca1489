/** Replay specifications: printing with millisecond precision, and the strict reader. */
module Replay {
  import opened Basics
  import opened Json
  import opened JsonFields

  datatype Target =
    | LocalTarget(command: seq<string>, inputMode: string, outputFile: Option<string>)
    | ContainerTarget(image: string, command: seq<string>, inputMode: string, outputFile: Option<string>)

  /** The scalar a JSON predicate expects is kept as the JSON value it is. */
  datatype Predicate =
    | Crash
    | Timeout
    | OutputInvalid
    | StdoutJson(pointer: string, expected: Json)
    | FieldLoss(fields: seq<string>)

  /** Times in seconds are exact reals here. */
  datatype Policy = Policy(
    timeoutSeconds: real,
    cpuSeconds: real,
    maxMemoryBytes: int,
    maxProcesses: int,
    maxOutputBytes: int,
    maxInputBytes: int,
    maxFileGrowthBytes: int,
    maxCreatedFiles: int,
    pollSeconds: real)

  datatype Specification = Specification(target: Target, check: Predicate, policy: Policy)

  const REPLAY_SCHEMA := "https://rechnungsprobe.dev/schemas/replay-v1"

  const FIELD_SELECTORS: set<string> := {
    "identifier", "buyer_reference", "issue_date", "payment_terms", "payment_due_date", "seller.endpoint",
    "seller.registration_name", "seller.party_identifier", "buyer.endpoint", "buyer.registration_name", "lines.identifier",
    "lines.name", "lines.description", "lines.note", "lines.quantity", "lines.price", "lines.vat_rate"}

  function NameOf(p: Predicate): (name: string) {
    match p
    case Crash => "crash-or-nonzero"
    case Timeout => "timeout"
    case OutputInvalid => "output-invalid"
    case StdoutJson(_, _) => "stdout-json"
    case FieldLoss(_) => "declared-field-loss"
  }

  predicate IsScalar(j: Json) {
    j.Null? || j.Bool? || j.Number? || j.Text?
  }

  predicate ValidFields(fields: seq<string>) {
    && 1 <= |fields| <= 32 && (forall i :: 0 <= i < |fields| ==> fields[i] in FIELD_SELECTORS)
    && (forall i, j :: 0 <= i < j < |fields| ==> fields[i] != fields[j])
  }

  predicate NeedsOutput(p: Predicate) {
    p.OutputInvalid? || p.FieldLoss?
  }

  /** What the constructors of a specification and its parts check. */
  predicate Constructed(s: Specification) {
    && (s.check.FieldLoss? ==> ValidFields(s.check.fields)) && (s.check.StdoutJson? ==> IsScalar(s.check.expected))
    && (NeedsOutput(s.check) ==> s.target.outputFile.Some?)
  }

  // ---------------------------------------------------------------- milliseconds

  /** round: to the nearest integer, ties to even. */
  function Round(x: real): (n: int) {
    var low := x.Floor;
    var rest := x - low as real;
    if rest < 0.5 || (rest == 0.5 && low % 2 == 0) then low else low + 1
  }

  const TOLERANCE := 0.000000000001

  function Distance(x: real, y: real): (d: real) {
    if x < y then y - x else x - y
  }

  /** _milliseconds; None for values that are not positive or finer than a millisecond. */
  function Milliseconds(value: real): (ms: Option<int>) {
    if value <= 0.0 then None
    else
      var ms := Round(value * 1000.0);
      if Distance(value, ms as real / 1000.0) > TOLERANCE then None else Some(ms)
  }

  function Seconds(ms: int): (s: real) {
    ms as real / 1000.0
  }

  /** Whole milliseconds are printed as they were read. */
  lemma {:induction false} WholeMilliseconds(ms: int)
    requires ms >= 1
    ensures Milliseconds(Seconds(ms)) == Some(ms)
    ensures Round(Seconds(ms) * 1000.0) == ms
  {
    assert Seconds(ms) * 1000.0 == ms as real;
    assert (ms as real).Floor == ms;
  }

  /** The snapped value is within the tolerance, and it is the only whole number of milliseconds that is. */
  lemma {:induction false} SnapIsNearest(value: real, ms: int)
    requires value > 0.0
    ensures Milliseconds(value) == Some(ms) <==> Distance(value, Seconds(ms)) <= TOLERANCE
  {
    RoundIsNear(value * 1000.0);
    var n := Round(value * 1000.0);
    if Distance(value, Seconds(ms)) <= TOLERANCE {
      NearIsRound(value * 1000.0, ms);
    }
  }

  lemma {:induction false} RoundIsNear(x: real)
    ensures Distance(x, Round(x) as real) <= 0.5
  {
  }

  lemma {:induction false} NearIsRound(x: real, n: int)
    requires Distance(x, n as real) < 0.5
    ensures Round(x) == n
  {
  }

  // ---------------------------------------------------------------- payloads

  const POLICY_KEYS := [
    "cpu_milliseconds", "max_created_files", "max_file_growth_bytes", "max_input_bytes", "max_memory_bytes", "max_output_bytes",
    "max_processes", "poll_milliseconds", "timeout_milliseconds"]

  const POLICY_CAPS := [120_000, 1_024, 64 * 1024 * 1024, 2 * 1024 * 1024, 1024 * 1024 * 1024, 16 * 1024 * 1024, 32, 1_000, 120_000]

  const POLICY_FLOORS := [1, 0, 0, 1, 1, 0, 1, 1, 1]

  predicate WithinCaps(values: seq<int>)
    requires |values| == 9
  {
    forall i :: 0 <= i < 9 ==> POLICY_FLOORS[i] <= values[i] <= POLICY_CAPS[i]
  }

  /** The numbers of _policy_payload in key order; None when a time or a bound is refused. */
  function PolicyValues(p: Policy): (values: Option<seq<int>>)
    ensures values.Some? ==> |values.value| == 9 && WithinCaps(values.value)
  {
    var cpu, poll, timeout := Milliseconds(p.cpuSeconds), Milliseconds(p.pollSeconds), Milliseconds(p.timeoutSeconds);
    if cpu.None? || poll.None? || timeout.None? then None
    else
      var values := [cpu.value, p.maxCreatedFiles, p.maxFileGrowthBytes, p.maxInputBytes, p.maxMemoryBytes, p.maxOutputBytes,
                     p.maxProcesses, poll.value, timeout.value];
      if WithinCaps(values) then Some(values) else None
  }

  function NumbersJson(values: seq<int>): (vs: seq<Json>)
    ensures |vs| == |values|
  {
    Map(values, (n: int) => Number(n))
  }

  predicate CommandOk(command: seq<string>) {
    1 <= |command| <= 128 && forall i :: 0 <= i < |command| ==> 1 <= |command[i]| <= 32_768 && '\0' !in command[i]
  }

  const LOCAL_KEYS := ["command", "input_mode", "kind", "output_file"]
  const CONTAINER_KEYS := ["command", "image", "input_mode", "kind", "output_file"]

  function TargetPayload(t: Target): (j: Option<Json>) {
    if !CommandOk(t.command) then None
    else
      match t
      case LocalTarget(command, mode, output) =>
        Some(Named(LOCAL_KEYS, [TextsJson(command), Text(mode), Text("local"), OptionalTextJson(output)]))
      case ContainerTarget(image, command, mode, output) =>
        Some(Named(CONTAINER_KEYS, [TextsJson(command), Text(image), Text(mode), Text("container"), OptionalTextJson(output)]))
  }

  function PredicatePayload(p: Predicate): (j: Json) {
    match p
    case StdoutJson(pointer, expected) => Named(["expected", "kind", "pointer"], [expected, Text(NameOf(p)), Text(pointer)])
    case FieldLoss(fields) => Named(["fields", "kind"], [TextsJson(fields), Text(NameOf(p))])
    case _ => Named(["kind"], [Text(NameOf(p))])
  }

  const REPLAY_KEYS := ["policy", "predicate", "schema", "target"]

  /** replay_json as a value. */
  function ReplayJson(s: Specification): (j: Option<Json>) {
    var values, target := PolicyValues(s.policy), TargetPayload(s.target);
    if values.None? || target.None? then None
    else
      Some(Named(REPLAY_KEYS, [
        Named(POLICY_KEYS, NumbersJson(values.value)), PredicatePayload(s.check), Text(REPLAY_SCHEMA), target.value]))
  }

  // ---------------------------------------------------------------- the reader

  predicate ModeOk(mode: Json) {
    mode == Text("stdin") || mode == Text("file")
  }

  function ReadTarget(j: Json): (t: Option<Target>) {
    if !j.Object? then None
    else
      var kind := Lookup(j.members, "kind");
      if kind == Some(Text("container")) then
        var f := Fields(j, CONTAINER_KEYS);
        if f.None? then None
        else
          var v := f.value;
          if IsTexts(v[0]) && CommandOk(AsTexts(v[0])) && ModeOk(v[2]) && (v[4].Text? || v[4].Null?) && v[1].Text?
          then Some(ContainerTarget(v[1].text, AsTexts(v[0]), v[2].text, AsOptionalText(v[4])))
          else None
      else
        var f := Fields(j, LOCAL_KEYS);
        if f.None? then None
        else
          var v := f.value;
          if IsTexts(v[0]) && CommandOk(AsTexts(v[0])) && ModeOk(v[1]) && (v[3].Text? || v[3].Null?) && v[2] == Text("local")
          then Some(LocalTarget(AsTexts(v[0]), v[1].text, AsOptionalText(v[3])))
          else None
  }

  predicate PointerOk(pointer: string) {
    (pointer == "" || pointer[0] == '/') && |pointer| <= 1000
  }

  function ReadStdoutJson(j: Json): (p: Option<Predicate>) {
    var f := Fields(j, ["expected", "kind", "pointer"]);
    if f.Some? && f.value[1] == Text("stdout-json") && f.value[2].Text? && PointerOk(f.value[2].text) && IsScalar(f.value[0])
    then Some(StdoutJson(f.value[2].text, f.value[0])) else None
  }

  function ReadFieldLoss(j: Json): (p: Option<Predicate>) {
    var f := Fields(j, ["fields", "kind"]);
    if f.Some? && f.value[1] == Text("declared-field-loss") && IsTexts(f.value[0]) && ValidFields(AsTexts(f.value[0]))
    then Some(FieldLoss(AsTexts(f.value[0]))) else None
  }

  function ReadPredicate(j: Json): (p: Option<Predicate>) {
    if j == Named(["kind"], [Text("crash-or-nonzero")]) then Some(Crash)
    else if j == Named(["kind"], [Text("timeout")]) then Some(Timeout)
    else if j == Named(["kind"], [Text("output-invalid")]) then Some(OutputInvalid)
    else if Fields(j, ["expected", "kind", "pointer"]).Some? then ReadStdoutJson(j)
    else ReadFieldLoss(j)
  }

  /** The policy, checked again as if it were printed. */
  function ReadPolicy(j: Json): (p: Option<Policy>) {
    var f := Fields(j, POLICY_KEYS);
    if f.None? || exists i :: 0 <= i < 9 && !(f.value[i].Number? && f.value[i].number >= POLICY_FLOORS[i]) then None
    else
      var v := f.value;
      var p := Policy(Seconds(v[8].number), Seconds(v[0].number), v[4].number, v[6].number, v[5].number, v[3].number, v[2].number,
        v[1].number, Seconds(v[7].number));
      if PolicyValues(p).Some? then Some(p) else None
  }

  /** parse_replay_json on the decoded value. */
  function ReadReplay(j: Json): (s: Option<Specification>) {
    var f := Fields(j, REPLAY_KEYS);
    if f.None? || f.value[2] != Text(REPLAY_SCHEMA) then None
    else
      var target, check, policy := ReadTarget(f.value[3]), ReadPredicate(f.value[1]), ReadPolicy(f.value[0]);
      if target.None? || check.None? || policy.None? then None
      else
        var s := Specification(target.value, check.value, policy.value);
        if Constructed(s) then Some(s) else None
  }

  // ---------------------------------------------------------------- round trip

  /** The policy with its times snapped to whole milliseconds. */
  function SnapPolicy(p: Policy): (q: Policy)
    requires PolicyValues(p).Some?
  {
    p.(timeoutSeconds := Seconds(Milliseconds(p.timeoutSeconds).value), cpuSeconds := Seconds(Milliseconds(p.cpuSeconds).value),
       pollSeconds := Seconds(Milliseconds(p.pollSeconds).value))
  }

  /** What the reader asks for beyond what the printer checks. */
  predicate WellFormed(s: Specification) {
    ModeOk(Text(s.target.inputMode)) && (s.check.StdoutJson? ==> PointerOk(s.check.pointer))
  }

  lemma {:induction false} SnapPrintsAlike(p: Policy)
    requires PolicyValues(p).Some?
    ensures PolicyValues(SnapPolicy(p)) == PolicyValues(p)
  {
    hide Milliseconds, Seconds, WithinCaps;
    var values := PolicyValues(p).value;
    CapsAtLeastOne(values);
    WholeMilliseconds(values[0]);
    WholeMilliseconds(values[7]);
    WholeMilliseconds(values[8]);
  }

  lemma {:induction false} CapsAtLeastOne(values: seq<int>)
    requires |values| == 9 && WithinCaps(values)
    ensures values[0] >= 1 && values[7] >= 1 && values[8] >= 1
    ensures forall i :: 0 <= i < 9 ==> values[i] >= POLICY_FLOORS[i]
  {
    assert POLICY_FLOORS[0] <= values[0] && POLICY_FLOORS[7] <= values[7] && POLICY_FLOORS[8] <= values[8];
  }

  lemma {:induction false} PolicyReadsBack(p: Policy)
    requires PolicyValues(p).Some?
    ensures ReadPolicy(Named(POLICY_KEYS, NumbersJson(PolicyValues(p).value))) == Some(SnapPolicy(p))
  {
    hide Named, Fields, Milliseconds, Seconds, WithinCaps;
    var values := PolicyValues(p).value;
    FieldsOfNamed(POLICY_KEYS, NumbersJson(values));
    CapsAtLeastOne(values);
    SnapPrintsAlike(p);
  }

  lemma {:induction false} KindFound(names: seq<string>, values: seq<Json>, i: nat)
    requires |names| == |values| && Distinct(names) && i < |names| && names[i] == "kind"
    ensures Lookup(Named(names, values).members, "kind") == Some(values[i])
  {
    LookupAt(Named(names, values).members, i);
  }

  lemma {:induction false} TargetReadsBack(t: Target)
    requires TargetPayload(t).Some?
    ensures ReadTarget(TargetPayload(t).value) == if ModeOk(Text(t.inputMode)) then Some(t) else None
  {
    hide Fields, TextsJson, IsTexts, AsTexts, CommandOk, Lookup;
    TextsRoundTrip(t.command);
    match t {
      case LocalTarget(command, mode, output) =>
        var values := [TextsJson(command), Text(mode), Text("local"), OptionalTextJson(output)];
        FieldsOfNamed(LOCAL_KEYS, values);
        KindFound(LOCAL_KEYS, values, 2);
      case ContainerTarget(image, command, mode, output) =>
        var values := [TextsJson(command), Text(image), Text(mode), Text("container"), OptionalTextJson(output)];
        FieldsOfNamed(CONTAINER_KEYS, values);
        KindFound(CONTAINER_KEYS, values, 3);
    }
  }

  lemma {:induction false} PredicateReadsBack(p: Predicate)
    requires (p.FieldLoss? ==> ValidFields(p.fields)) && (p.StdoutJson? ==> IsScalar(p.expected))
    ensures ReadPredicate(PredicatePayload(p)) == if p.StdoutJson? && !PointerOk(p.pointer) then None else Some(p)
  {
    hide TextsJson, IsTexts, AsTexts, ValidFields;
    match p {
      case StdoutJson(pointer, expected) => FieldsOfNamed(["expected", "kind", "pointer"], [expected, Text(NameOf(p)), Text(pointer)]);
      case FieldLoss(fields) =>
        TextsRoundTrip(fields);
        FieldsOfNamed(["fields", "kind"], [TextsJson(fields), Text(NameOf(p))]);
      case _ =>
        KindAlone(Text(NameOf(p)), Text("crash-or-nonzero"));
        KindAlone(Text(NameOf(p)), Text("timeout"));
        KindAlone(Text(NameOf(p)), Text("output-invalid"));
    }
  }

  lemma {:induction false} KindAlone(x: Json, y: Json)
    ensures Named(["kind"], [x]) == Named(["kind"], [y]) <==> x == y
  {
    assert Named(["kind"], [x]).members[0].value == x && Named(["kind"], [y]).members[0].value == y;
  }

  /**
   Reading a printed specification gives it back with its times snapped to milliseconds, exactly
   when its input mode and its pointer are well formed; and the snapped one prints the same text.
   */
  lemma {:induction false} ReplayReadsBack(s: Specification)
    requires Constructed(s) && ReplayJson(s).Some?
    ensures ReadReplay(ReplayJson(s).value) == if WellFormed(s) then Some(s.(policy := SnapPolicy(s.policy))) else None
    ensures ReplayJson(s.(policy := SnapPolicy(s.policy))) == ReplayJson(s)
  {
    hide Named, Fields, PolicyValues, SnapPolicy, ReadPolicy, ReadTarget, ReadPredicate, TargetPayload, PredicatePayload, NumbersJson,
      ModeOk, PointerOk, ValidFields, IsScalar;
    SnapPrintsAlike(s.policy);
    PolicyReadsBack(s.policy);
    TargetReadsBack(s.target);
    PredicateReadsBack(s.check);
    FieldsOfNamed(REPLAY_KEYS, [
      Named(POLICY_KEYS, NumbersJson(PolicyValues(s.policy).value)), PredicatePayload(s.check), Text(REPLAY_SCHEMA),
      TargetPayload(s.target).value]);
  }
}
