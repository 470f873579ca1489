/** What the campaign observes: validator answers, importer results, and failure signatures. */
module Observed {
  import opened Basics
  import opened Digits
  import opened Trees
  import opened Reductions
  import opened Shrink
  import opened Invoices
  import opened Json
  import opened Corpus
  import Capsule

  /** SHA-256 of a document; an injective hash is represented by what was hashed. */
  datatype Digest = Sha256(document: Element)

  /** The bounded observation of one importer run; hashes stand for the hashed contents. */
  datatype Observation = Observation(
    termination: string,
    returncode: Option<int>,
    stdout: string,
    stderr: string,
    output: Option<Element>)

  datatype TargetResult = TargetResult(targetDigest: string, observation: Observation)

  datatype Evaluation = Evaluation(matched: bool, name: string, details: seq<string>)

  datatype Signature = Signature(
    name: string,
    termination: string,
    returncode: Option<int>,
    details: seq<string>,
    stdout: Option<string>,
    stderr: Option<string>,
    output: Option<Element>)

  /** Crash, timeout and JSON predicates compare outputs as well; the others do not. */
  function SignatureOf(result: TargetResult, evaluation: Evaluation, outputSensitive: bool): (s: Signature) {
    var seen := result.observation;
    Signature(
      evaluation.name, seen.termination, seen.returncode, evaluation.details,
      if outputSensitive then Some(seen.stdout) else None,
      if outputSensitive then Some(seen.stderr) else None,
      if outputSensitive then seen.output else None)
  }

  /** The identifier of a document inside one validator batch. */
  function CaseId(index: nat): (id: string) {
    "candidate-" + Padded(index, 4)
  }

  lemma {:induction false} CaseIdsDiffer(i: nat, j: nat)
    requires i != j
    ensures CaseId(i) != CaseId(j)
  {
    assert CaseId(i)[10..] == Padded(i, 4) && CaseId(j)[10..] == Padded(j, 4);
  }

  /** A finding record; hashes stand for the hashed contents. */
  datatype Record = Record(
    caseIndex: nat,
    name: string,
    targetDigest: string,
    xml: Element,
    fingerprint: Json,
    termination: string,
    returncode: Option<int>,
    details: seq<string>,
    mutations: seq<MutationRecord>,
    oneMinimal: bool,
    reproductions: nat,
    observations: seq<Observation>,
    attempts: nat,
    accepted: seq<Operation>,
    verificationAttempts: nat)

  /** A record, the reduced invoice, and the capsule that holds both. */
  datatype Finding = Finding(record: Record, invoice: Invoice, capsule: Capsule.Capsule)

  /**
   The environment of a campaign: the pinned validator, the importer, the replay predicate with its
   two traits, which may refuse what the importer wrote, and the packing of a record, which may
   refuse it too.
   */
  datatype World = World(
    validator: map<string, Element> -> map<string, bool>,
    importer: (nat, Element) -> TargetResult,
    evaluate: (TargetResult, Element, Option<bool>) -> Option<Evaluation>,
    outputSensitive: bool,
    outputValidity: bool,
    pack: (Candidate, Record) -> Option<Capsule.Capsule>)

  /** The validator's answer for the importer's output document, if the predicate asks for one; a wrong answer set means invalid. */
  function OutputValid(w: World, result: TargetResult): (valid: Option<bool>) {
    if w.outputValidity && result.observation.output.Some? then
      var results := w.validator(map["output" := result.observation.output.value]);
      Some(results.Keys == {"output"} && results["output"])
    else None
  }

  /** The predicate on one importer run; None when it raises. */
  function Evaluated(w: World, result: TargetResult, x: Element): (e: Option<Evaluation>) {
    w.evaluate(result, x, OutputValid(w, result))
  }

  /** The validator's answer for one document on its own. */
  function Judge(w: World, x: Element): (valid: bool) {
    var results := w.validator(map["candidate" := x]);
    "candidate" in results && results["candidate"]
  }

  /** The validator answers every case of a batch, and answers it as it would on its own. */
  ghost predicate Pointwise(w: World) {
    forall cases :: w.validator(cases).Keys == cases.Keys
      && forall id :: id in cases ==> w.validator(cases)[id] == Judge(w, cases[id])
  }

  /** What preserves_finding answers when the n-th importer run is on document x. */
  function VerdictAt(w: World, n: nat, x: Element, digest: string, signature: Signature): (v: Verdict) {
    var result := w.importer(n, x);
    var evaluation := Evaluated(w, result, x);
    if evaluation.None? || result.targetDigest != digest then Raised
    else if evaluation.value.matched && SignatureOf(result, evaluation.value, w.outputSensitive) == signature then Preserved
    else Lost
  }

  /** The oracles of one shrink run whose first importer run has number base. */
  function OraclesFrom(w: World, base: nat, digest: string, signature: Signature): (o: Oracles) {
    Oracles(x => Judge(w, x), (n: nat, x) => VerdictAt(w, base + n, x, digest, signature))
  }
}
