/** The campaign: validation through a cache, shrinking, verification and reproduction. */
module Campaign {
  import opened Basics
  import opened Invoices
  import opened Trees
  import opened Json
  import opened Fingerprint
  import opened Serialize
  import opened Parse
  import opened Reductions
  import opened Enumerate
  import opened Measure
  import OneStepReductions
  import opened Shrink
  import opened ShrinkRuns
  import opened ShrinkExit
  import opened ShrinkGreedy
  import opened Observed
  import opened CampaignFacts
  import opened CampaignOutcome
  import opened Corpus

  class Session {
    const world: World

    /** validity_cache, by SHA-256 digest. */
    var cache: map<Digest, bool>

    /** The numbers of validator workspaces and importer workspaces handed out so far. */
    var validations: nat
    var targets: nat

    /** Every document submitted to the validator, and every document the importer ran on. */
    ghost var submitted: seq<Element>
    ghost var executed: seq<Element>

    constructor (w: World)
      ensures world == w && cache == map[] && submitted == [] && executed == [] && validations == 0 && targets == 0
    {
      world := w;
      cache := map[];
      submitted, executed := [], [];
      validations, targets := 0, 0;
    }

    /** The cache holds for x, and says it is valid. */
    ghost predicate KnownValid(x: Element)
      reads this
    {
      IsKnown(Seen(), x)
    }

    ghost function Seen(): (e: Evidence)
      reads this
    {
      Evidence(world, cache, executed)
    }

    /**
     Kept by every step, also by one that raises: no document is submitted twice, and the importer
     only ever ran on documents that had been judged valid before.
     */
    ghost predicate Guarded()
      reads this
    {
      && (forall i :: 0 <= i < |executed| ==> KnownValid(executed[i]))
      && |executed| == targets
      && Distinct(submitted)
    }

    /** Kept as long as nothing raises: submitted documents are also cached. */
    ghost predicate Safe()
      reads this
    {
      Guarded() && forall i :: 0 <= i < |submitted| ==> Sha256(submitted[i]) in cache
    }

    /** Every cached answer is the validator's answer for that document. */
    ghost predicate TruthfulCache()
      reads this
    {
      CacheTruth(world, cache)
    }

    /** What a validation step leaves unchanged. */
    twostate predicate OnlyValidated()
      reads this
    {
      && CacheGrows(old(cache), cache)
      && targets == old(targets) && executed == old(executed)
      && old(submitted) <= submitted
    }

    /** Enter the answers for a batch in the cache. */
    method EnterAnswers(batch: seq<Element>, results: map<string, bool>)
      requires forall k :: 0 <= k < |batch| ==> CaseId(k) in results
      requires forall x :: x in batch ==> Sha256(x) !in cache
      requires Distinct(batch)
      modifies this`cache
      ensures CacheGrows(old(cache), cache)
      ensures cache.Keys == old(cache).Keys + DigestsOf(batch)
      ensures forall k :: 0 <= k < |batch| ==> cache[Sha256(batch[k])] == results[CaseId(k)]
    {
      hide CaseId;
      for i := 0 to |batch|
        invariant cache.Keys == old(cache).Keys + DigestsOf(batch[..i])
        invariant CacheGrows(old(cache), cache)
        invariant forall k :: 0 <= k < i ==> Sha256(batch[k]) in cache && cache[Sha256(batch[k])] == results[CaseId(k)]
      {
        assert batch[..i + 1] == batch[..i] + [batch[i]];
        cache := cache[Sha256(batch[i]) := results[CaseId(i)]];
      }
      assert batch[..|batch|] == batch;
    }

    /** One validator call on uncached documents, its answers entered in the cache. */
    method ValidateChunk(batch: seq<Element>) returns (ok: bool)
      requires Safe() && Distinct(batch)
      requires forall x :: x in batch ==> Sha256(x) !in cache
      modifies this
      ensures Guarded()
      ensures OnlyValidated()
      ensures ok ==> Safe() && submitted == old(submitted) + batch && cache.Keys == old(cache).Keys + DigestsOf(batch)
      ensures old(TruthfulCache()) ==> ok && TruthfulCache()
    {
      hide CaseId, Judge, Pointwise, Distinct;
      var cases := BuildCases(batch);
      validations := validations + 1;
      DistinctAppend(submitted, batch);
      submitted := submitted + batch;
      var results := world.validator(cases);
      if results.Keys != cases.Keys {
        BatchAnswers(world, cases, batch);
        return false;
      }
      EnterAnswers(batch, results);
      BatchAnswers(world, cases, batch);
      ok := true;
    }

    /** Submit documents that are not cached, 64 at a time. */
    method ValidateMissing(missing: seq<Element>) returns (ok: bool)
      requires Safe() && Distinct(missing)
      requires forall x :: x in missing ==> Sha256(x) !in cache
      modifies this
      ensures Guarded()
      ensures OnlyValidated()
      ensures ok ==> Safe() && submitted == old(submitted) + missing
      ensures ok ==> cache.Keys == old(cache).Keys + DigestsOf(missing)
      ensures old(TruthfulCache()) ==> ok && TruthfulCache()
    {
      hide Judge, Pointwise, DigestsOf;
      var offset := 0;
      EmptyDigests();
      while offset < |missing|
        invariant 0 <= offset <= |missing|
        invariant Safe() && OnlyValidated()
        invariant submitted == old(submitted) + missing[..offset]
        invariant cache.Keys == old(cache).Keys + DigestsOf(missing[..offset])
        invariant old(TruthfulCache()) ==> TruthfulCache()
      {
        var end := if offset + 64 <= |missing| then offset + 64 else |missing|;
        ChunkIsNew(missing, offset, end, old(cache), cache);
        ok := ValidateChunk(missing[offset..end]);
        if !ok {
          return;
        }
        DigestsAppend(missing[..offset], missing[offset..end]);
        assert missing[..end] == missing[..offset] + missing[offset..end];
        offset := end;
      }
      assert missing[..|missing|] == missing;
      ok := true;
    }

    /** validate_batch: answers for all documents, asking the validator only about new ones. */
    method ValidateBatch(docs: seq<Element>) returns (r: Option<seq<bool>>)
      requires Safe()
      modifies this
      ensures Guarded()
      ensures OnlyValidated()
      ensures r.Some? ==> Safe() && submitted == old(submitted) + Missing(docs, old(cache))
      ensures r.Some? ==> |r.value| == |docs|
      ensures r.Some? ==> forall i :: 0 <= i < |docs| ==> Sha256(docs[i]) in cache && r.value[i] == cache[Sha256(docs[i])]
      ensures old(TruthfulCache()) ==>
        r.Some? && TruthfulCache() && forall i :: 0 <= i < |docs| ==> r.value[i] == Judge(world, docs[i])
    {
      hide Judge, Pointwise;
      var missing := CollectMissing(docs, cache);
      MissingExact(docs, cache);
      var ok := ValidateMissing(missing);
      if !ok {
        return None;
      }
      var answers: seq<bool> := [];
      for i := 0 to |docs|
        invariant |answers| == i
        invariant forall k :: 0 <= k < i ==> Sha256(docs[k]) in cache && answers[k] == cache[Sha256(docs[k])]
      {
        assert docs[i] in docs;
        answers := answers + [cache[Sha256(docs[i])]];
      }
      r := Some(answers);
    }

    /** is_valid: one document, through the cache. */
    method IsValid(x: Element) returns (r: Option<bool>)
      requires Safe()
      modifies this
      ensures Guarded()
      ensures OnlyValidated()
      ensures r.Some? ==> Safe() && submitted == old(submitted) + Missing([x], old(cache))
      ensures r.Some? ==> Sha256(x) in cache && r.value == cache[Sha256(x)]
      ensures old(TruthfulCache()) ==> r.Some? && TruthfulCache() && r.value == Judge(world, x)
    {
      hide Pointwise, Distinct;
      OneMissing(x, cache);
      if Sha256(x) in cache {
        return Some(cache[Sha256(x)]);
      }
      validations := validations + 1;
      DistinctSnoc(submitted, x);
      submitted := submitted + [x];
      var cases := map["candidate" := x];
      var results := world.validator(cases);
      SingleAnswer(world, x);
      if results.Keys != {"candidate"} {
        return None;
      }
      cache := cache[Sha256(x) := results["candidate"]];
      r := Some(cache[Sha256(x)]);
    }

    // ------------------------------------------------------------ the importer

    /** Run the importer on a document that is known to be valid, and evaluate the predicate. */
    method RunAndEvaluate(x: Element) returns (result: TargetResult, evaluation: Option<Evaluation>)
      requires Safe() && KnownValid(x)
      modifies this
      ensures Safe() && cache == old(cache) && submitted == old(submitted)
      ensures targets == old(targets) + 1 && executed == old(executed) + [x]
      ensures result == world.importer(old(targets), x) && evaluation == Evaluated(world, result, x)
      ensures validations == old(validations) + if OutputValid(world, result).Some? then 1 else 0
    {
      result := world.importer(targets, x);
      targets := targets + 1;
      executed := executed + [x];
      var outputValid: Option<bool> := None;
      if world.outputValidity && result.observation.output.Some? {
        validations := validations + 1;
        var results := world.validator(map["output" := result.observation.output.value]);
        outputValid := Some(results.Keys == {"output"} && results["output"]);
      }
      evaluation := world.evaluate(result, x, outputValid);
    }

    /** preserves_finding: does this run show the same failure signature on the same target? */
    method Preserves(x: Element, digest: string, signature: Signature) returns (v: Verdict)
      requires Safe() && KnownValid(x)
      modifies this
      ensures Safe() && cache == old(cache) && submitted == old(submitted)
      ensures targets == old(targets) + 1 && executed == old(executed) + [x]
      ensures v == VerdictAt(world, old(targets), x, digest, signature)
    {
      var result, evaluation := RunAndEvaluate(x);
      if evaluation.None? || result.targetDigest != digest {
        return Raised;
      }
      v := if evaluation.value.matched && SignatureOf(result, evaluation.value, world.outputSensitive) == signature
           then Preserved else Lost;
    }

    /** What an importer step leaves unchanged. */
    twostate predicate OnlyRan()
      reads this
    {
      cache == old(cache) && submitted == old(submitted) && old(executed) <= executed && old(targets) <= targets
    }

    /**
     The inner loop of the shrinker: pending candidates in order, invalid ones skipped, until one
     preserves the finding. The ghost state is that of the specification.
     */
    method TryPending(ts: seq<Trial>, validities: seq<bool>, digest: string, signature: Signature,
      ghost status: map<Element, Status>, ghost asked: seq<Element>, ghost base: nat)
      returns (outcome: TryOutcome)
      requires Safe() && |validities| == |ts|
      requires forall i :: 0 <= i < |ts| && validities[i] ==> KnownValid(ts[i].xml)
      modifies this
      ensures Safe() && OnlyRan()
      ensures outcome.Accepted? ==> outcome.index < |ts| && validities[outcome.index]
      ensures (forall i :: 0 <= i < |ts| ==> validities[i] == Judge(world, ts[i].xml)) && old(targets) == base + |asked| ==>
        Agrees(outcome, Try(ts, status, asked, OraclesFrom(world, base, digest, signature), true), ts, base, targets)
    {
      hide Judge, VerdictAt, Try, Distinct, CacheGrows;
      ghost var o := OraclesFrom(world, base, digest, signature);
      ghost var exact := (forall i :: 0 <= i < |ts| ==> validities[i] == Judge(world, ts[i].xml)) && targets == base + |asked|;
      ghost var st, seen := status, asked;
      var k := 0;
      TryStarts(ts, status, asked, o);
      while k < |ts|
        invariant 0 <= k <= |ts|
        invariant Safe() && OnlyRan()
        invariant exact ==> Try(ts, status, asked, o, true) == Try(ts[k..], st, seen, o, true)
        invariant exact ==> targets == base + |seen|
      {
        var t := ts[k];
        TryUnfolds(ts, k, st, seen, o);
        if !validities[k] {
          st := st[t.xml := Invalid];
        } else {
          var v := Preserves(t.xml, digest, signature);
          if v == Raised {
            return Failed;
          }
          if v == Preserved {
            return Accepted(k);
          }
          st, seen := st[t.xml := LostAt(|seen|)], seen + [t.xml];
        }
        k := k + 1;
      }
      TryStarts(ts, st, seen, o);
      outcome := NoneAccepted;
    }

    // ------------------------------------------------------------ shrinking

    /** Validity of the pending documents: in one batch, or one by one. */
    method Validities(docs: seq<Element>, batched: bool) returns (r: Option<seq<bool>>)
      requires Safe()
      modifies this
      ensures Guarded()
      ensures OnlyValidated()
      ensures r.Some? ==> Safe() && |r.value| == |docs|
      ensures r.Some? ==> forall i :: 0 <= i < |docs| ==> Sha256(docs[i]) in cache && r.value[i] == cache[Sha256(docs[i])]
      ensures old(TruthfulCache()) ==>
        r.Some? && TruthfulCache() && forall i :: 0 <= i < |docs| ==> r.value[i] == Judge(world, docs[i])
    {
      hide Judge, Pointwise;
      if batched && docs != [] {
        r := ValidateBatch(docs);
        return;
      }
      var answers: seq<bool> := [];
      for i := 0 to |docs|
        invariant Safe() && OnlyValidated() && |answers| == i
        invariant forall k :: 0 <= k < i ==> Sha256(docs[k]) in cache && answers[k] == cache[Sha256(docs[k])]
        invariant old(TruthfulCache()) ==> TruthfulCache() && forall k :: 0 <= k < i ==> answers[k] == Judge(world, docs[k])
      {
        var ok := IsValid(docs[i]);
        if ok.None? {
          return None;
        }
        answers := answers + [ok.value];
      }
      r := Some(answers);
    }

    /** The initial check: the invoice can be written, is valid, and shows the finding. */
    method CheckInitial(inv: Invoice, digest: string, signature: Signature) returns (r: Option<Element>)
      requires Safe()
      modifies this
      ensures Guarded()
      ensures r.Some? ==> Safe() && Writable(inv) && SerializeInvoice(inv) == r && KnownValid(r.value)
      ensures r.Some? ==> targets == old(targets) + 1
      ensures Kept()
      ensures r.Some? ==> VerdictAt(world, old(targets), r.value, digest, signature) == Preserved
      ensures old(TruthfulCache()) ==> TruthfulCache()
      ensures old(TruthfulCache()) ==>
        (r.Some? <==> Begin(inv, OraclesFrom(world, old(targets), digest, signature)).Some?)
    {
      hide Judge, Pointwise, VerdictAt, Writable, Document, SumsOf;
      var xml := SerializeInvoice(inv);
      if xml.None? {
        return None;
      }
      var ok := IsValid(xml.value);
      if ok.None? || !ok.value {
        return None;
      }
      var v := Preserves(xml.value, digest, signature);
      if v != Preserved {
        return None;
      }
      r := xml;
    }

    /** One round of the main loop: write the frontier, validate it, try it. */
    method Round(current: Invoice, checked: set<Element>, digest: string, signature: Signature, batched: bool,
      ghost s: State, ghost base: nat)
      returns (outcome: RoundOutcome, marked: set<Element>)
      requires Safe() && ValidInvoice(current)
      modifies this
      ensures Guarded()
      ensures Kept()
      ensures outcome.Stopped? || Safe()
      ensures outcome.Stepped? ==> outcome.reduction in OneStep(current) && WrittenValid(outcome.reduction.invoice)
      ensures !outcome.Stopped? ==> |marked| == |checked| + outcome.tried && marked == checked + FrontierDocs(current)
      ensures old(TruthfulCache()) ==> TruthfulCache()
      ensures old(TruthfulCache()) && old(Follows(s, current, checked, base)) ==>
        RoundAgrees(outcome, marked, s, OraclesFrom(world, base, digest, signature), base, targets)
    {
      hide ValidInvoice, OneStep, SerializeInvoice, Pointwise, Judge, VerdictAt, Docs, HitStatus, Pending, Try, Fresh,
        CacheTruth, CacheGrows, Distinct, DocsInOrder, FrontierDocs;
      CacheGrowsSelf(cache);
      var rs := OneStepReductions.OneStepReductions(current);
      var ts;
      ts, marked := CollectPending(rs.value, checked);
      if ts.None? {
        return Stopped, marked;
      }
      var docs := DocsInOrder(ts.value);
      DocsInOrderAt(ts.value);
      var answers := Validities(docs, batched);
      if answers.None? {
        return Stopped, marked;
      }
      PendingIsFresh(rs.value, checked);
      FreshCount(ts.value, checked);
      FrontierIsMarked(current, checked);
      var hit := TryPending(ts.value, answers.value, digest, signature, s.status, s.asked, base);
      TryKeys(ts.value, s.status, s.asked, OraclesFrom(world, base, digest, signature));
      match hit {
        case Failed => outcome := Stopped;
        case NoneAccepted => outcome := Ended(|ts.value|);
        case Accepted(k) =>
          var t := ts.value[k];
          assert t in ts.value;
          outcome := Stepped(t.reduction, |ts.value|);
      }
    }

    /**
     shrink_invoice with the campaign's callbacks. With a pointwise validator and a truthful
     cache it computes the specification, in both validation modes; with any validator and any
     importer, the result can be written and has been judged valid, the accepted operations lead
     to it, and attempts counts the different documents of the frontiers on the way.
     */
    method ShrinkInvoice(inv: Invoice, digest: string, signature: Signature, batched: bool) returns (r: Option<ShrinkOutcome>)
      requires Safe()
      modifies this
      ensures Guarded()
      ensures Kept()
      ensures r.Some? ==> Safe() && WrittenValid(r.value.invoice) && r.value.fingerprint == Payload(r.value.invoice)
      ensures r.Some? ==> ReducedBy(inv, r.value.accepted, r.value.attempts, r.value.invoice)
      ensures old(TruthfulCache()) ==> TruthfulCache()
      ensures old(TruthfulCache()) ==>
        ReportsShrunk(r, inv, OraclesFrom(world, old(targets), digest, signature), targets - old(targets))
    {
      hide ValidInvoice, OneStep, SerializeInvoice, Pointwise, Judge, VerdictAt, Pending, Try, InvoiceMeasure, RoundAgrees, Payload, Run,
        Shrunk, Begin, Ending, Next, CacheGrows, Distinct, Apply, Enabled, Reaches, FrontierDocs, FrontiersBefore, ReducedBy, CheckedSoFar;
      ghost var base, exact := targets, TruthfulCache();
      ghost var o := OraclesFrom(world, base, digest, signature);
      var initial := CheckInitial(inv, digest, signature);
      CacheGrowsOn(old(cache), cache, cache);
      ShrunkBegins(inv, o);
      if initial.None? {
        return None;
      }
      WrittenIsValid(inv);
      var current, accepted, attempts, checked := inv, [], 1, {initial.value};
      ghost var s := State(inv, [], map[initial.value := Start], [initial.value]);
      assert s.status.Keys == checked;
      CheckedAtStart(inv);
      var changed := true;
      while changed
        invariant Safe() && Kept() && ValidInvoice(current) && WrittenValid(current)
        invariant |checked| == attempts && CheckedSoFar(inv, accepted, current, !changed, checked)
        invariant exact ==> TruthfulCache() && Follows(s, current, checked, base) && s.accepted == accepted
        invariant exact ==> Shrunk(inv, o, true) == if changed then Run(s, o, true) else Some(s)
        decreases InvoiceMeasure(current) + if changed then 1 else 0
      {
        ghost var before := cache;
        var outcome, marked := Round(current, checked, digest, signature, batched, s, base);
        CacheGrowsOn(old(cache), before, cache);
        RunUnfolds(s, o, outcome, marked, base, targets);
        match outcome {
          case Stopped =>
            return None;
          case Ended(n) =>
            CheckedAtEnd(inv, accepted, current, checked, marked);
            changed := false;
            attempts, checked := attempts + n, marked;
            s := Ending(s, o);
          case Stepped(reduction, n) =>
            StepTaken(inv, accepted, current, reduction, checked, marked);
            current, accepted := reduction.invoice, accepted + [reduction.operation];
            attempts, checked := attempts + n, marked;
            s := Next(s, o);
        }
      }
      AllChecked(inv, accepted, current, checked, attempts);
      r := Some(ShrinkOutcome(current, attempts, accepted, Payload(current)));
    }

    /** The invoice can be written and its document is known to be valid. */
    ghost predicate WrittenValid(inv: Invoice)
      reads this
    {
      SerializeInvoice(inv).Some? && KnownValid(SerializeInvoice(inv).value)
    }

    /** What every step of the campaign keeps. */
    twostate predicate Kept()
      reads this
    {
      CacheGrows(old(cache), cache) && old(executed) <= executed && old(submitted) <= submitted && old(targets) <= targets
    }

    /** The loop variables are those of the specification's state. */
    ghost predicate Follows(s: State, current: Invoice, checked: set<Element>, base: nat)
      reads this
    {
      s.current == current && s.status.Keys == checked && targets == base + |s.asked|
    }

    // ------------------------------------------------------------ verification

    /** The loop over all reductions: the index of the first one confirmed, if any. */
    method FirstConfirmed(docs: seq<Element>, validities: seq<bool>, digest: string, signature: Signature)
      returns (r: Option<nat>, raised: bool, ghost at: nat, ghost run: nat)
      requires Safe() && |validities| == |docs|
      requires forall i :: 0 <= i < |docs| ==> Sha256(docs[i]) in cache && validities[i] == cache[Sha256(docs[i])]
      modifies this
      ensures Safe() && OnlyRan()
      ensures !raised && r.None? ==> forall i :: 0 <= i < |docs| ==> Refuted(Seen(), docs[i], old(targets), digest, signature)
      ensures !raised && r.Some? ==> r.value < |docs| && Confirmed(Seen(), docs[r.value], old(targets), digest, signature)
      ensures !raised && r.Some? ==> forall i :: 0 <= i < r.value ==> Refuted(Seen(), docs[i], old(targets), digest, signature)
      ensures raised ==> at < |docs| && IsKnown(Seen(), docs[at]) && VerdictAt(world, run, docs[at], digest, signature) == Raised
      ensures raised ==> forall i :: 0 <= i < at ==> Refuted(Seen(), docs[i], old(targets), digest, signature)
    {
      hide VerdictAt, Distinct;
      at, run := 0, 0;
      for i := 0 to |docs|
        invariant Safe() && OnlyRan()
        invariant forall k :: 0 <= k < i ==> Refuted(Seen(), docs[k], old(targets), digest, signature)
      {
        if validities[i] {
          ghost var n := targets;
          var v := Preserves(docs[i], digest, signature);
          assert executed[n] == docs[i];
          if v == Raised {
            return None, true, i, n;
          }
          if v == Preserved {
            return Some(i), false, 0, 0;
          }
        }
      }
      return None, false, 0, 0;
    }

    /**
     The part of verify_one_minimal after the initial check: every reduction is written, validated
     and run until one is confirmed.
     */
    method ConfirmAny(inv: Invoice, digest: string, signature: Signature, batched: bool) returns (r: Option<Minimality>)
      requires Safe() && ValidInvoice(inv)
      modifies this
      ensures Guarded()
      ensures Kept()
      ensures old(TruthfulCache()) ==> TruthfulCache()
      ensures r.Some? ==> Safe()
      ensures r.Some? && r.value.reducing.None? ==>
        r.value.attempts == 1 + |OneStep(inv)| && AllRefuted(Seen(), inv, old(targets), digest, signature)
      ensures r.Some? && r.value.reducing.Some? ==> Reducible(Seen(), inv, r.value, old(targets), digest, signature)
      ensures old(TruthfulCache()) && Steady(world, digest) ==>
        (r.Some? <==> FrontierWritten(inv) && RefusalsBehind(world, inv, digest, signature))
    {
      hide ValidInvoice, OneStep, Pointwise, Judge, VerdictAt, SerializeInvoice, CacheGrows, Distinct, Refuted, Confirmed, AllRefuted,
        Reducible, Steady, FrontierWritten, CacheTruth, RefusalsBehind;
      CacheGrowsSelf(cache);
      var rs := OneStepReductions.OneStepReductions(inv);
      var docs := WriteAll(rs.value);
      WrittenFrontier(inv, docs);
      if docs.None? {
        return None;
      }
      var answers := Validities(docs.value, batched);
      if answers.None? {
        return None;
      }
      ghost var base, before := targets, cache;
      var first, raised, at, run := FirstConfirmed(docs.value, answers.value, digest, signature);
      CacheGrowsOn(old(cache), before, cache);
      if raised {
        if old(TruthfulCache()) && Steady(world, digest) {
          StoppedByRefusal(Seen(), inv, docs.value, at, run, base, digest, signature);
        }
        return None;
      }
      if old(TruthfulCache()) && Steady(world, digest) {
        NotStopped(Seen(), inv, docs.value, first, base, digest, signature);
      }
      if first.Some? {
        OneIsConfirmed(Seen(), inv, docs.value, first.value, old(targets), base, digest, signature);
        r := Some(Minimality(2 + first.value, Some(rs.value[first.value].operation)));
      } else {
        AllAreRefuted(Seen(), inv, docs.value, old(targets), base, digest, signature);
        r := Some(Minimality(1 + |docs.value|, None));
      }
    }

    /**
     verify_one_minimal: it answers "minimal" only when every reduction was refuted in this call,
     and otherwise names the first operation whose result was confirmed. With a truthful cache and
     a steady importer it answers exactly when the initial check passes, every reduction can be
     written, and no output is refused before a reduction is confirmed; the answer is "minimal" if
     and only if the invoice is 1-minimal.
     */
    method VerifyOneMinimal(inv: Invoice, digest: string, signature: Signature, batched: bool) returns (r: Option<Minimality>)
      requires Safe()
      modifies this
      ensures Guarded()
      ensures Kept()
      ensures old(TruthfulCache()) ==> TruthfulCache()
      ensures r.Some? ==> Safe() && ValidInvoice(inv) && WrittenValid(inv)
      ensures r.Some? && r.value.reducing.None? ==>
        r.value.attempts == 1 + |OneStep(inv)| && AllRefuted(Seen(), inv, old(targets), digest, signature)
      ensures r.Some? && r.value.reducing.Some? ==> Reducible(Seen(), inv, r.value, old(targets), digest, signature)
      ensures old(TruthfulCache()) && Steady(world, digest) ==>
        (r.Some? <==>
          Begin(inv, OraclesFrom(world, old(targets), digest, signature)).Some? && FrontierWritten(inv)
          && RefusalsBehind(world, inv, digest, signature))
      ensures old(TruthfulCache()) && Steady(world, digest) && r.Some? ==>
        (r.value.reducing.None? <==> OneMinimal(inv, JudgedBy(world), PreservedBy(world, digest, signature)))
    {
      hide ValidInvoice, OneStep, Pointwise, Judge, VerdictAt, SerializeInvoice, CacheGrows, Distinct, Refuted, Confirmed, AllRefuted,
        Reducible, Steady, OneMinimal, FrontierWritten, JudgedBy, PreservedBy, Begin, CacheTruth, RefusalsBehind;
      var initial := CheckInitial(inv, digest, signature);
      CacheGrowsOn(old(cache), cache, cache);
      if initial.None? {
        return None;
      }
      WrittenIsValid(inv);
      ghost var before, base := cache, targets;
      r := ConfirmAny(inv, digest, signature, batched);
      CacheGrowsOn(old(cache), before, cache);
      if r.None? {
        return;
      }
      EarlierBase(Seen(), inv, r.value, old(targets), base, digest, signature);
      if old(TruthfulCache()) && Steady(world, digest) {
        AnswerIsExact(Seen(), inv, r.value, old(targets), digest, signature);
      }
    }

    /** The independent check of the campaign, which has to answer "minimal". */
    method CheckMinimal(inv: Invoice, digest: string, signature: Signature) returns (r: Option<Minimality>)
      requires Safe()
      modifies this
      ensures Guarded()
      ensures Kept()
      ensures old(TruthfulCache()) ==> TruthfulCache()
      ensures r.Some? ==> Safe() && ValidInvoice(inv) && WrittenValid(inv) && r.value.reducing.None?
      ensures r.Some? ==> r.value.attempts == 1 + |OneStep(inv)| && AllRefuted(Seen(), inv, old(targets), digest, signature)
      ensures old(TruthfulCache()) && Steady(world, digest) ==>
        (r.Some? <==>
          Begin(inv, OraclesFrom(world, old(targets), digest, signature)).Some? && FrontierWritten(inv)
          && OneMinimal(inv, JudgedBy(world), PreservedBy(world, digest, signature)) && NoRefusal(world, inv, digest, signature))
    {
      hide ValidInvoice, OneStep, Judge, SerializeInvoice, CacheGrows, Distinct, AllRefuted, Reducible, Steady, OneMinimal, FrontierWritten,
        JudgedBy, PreservedBy, Begin, CacheTruth, RefusalsBehind, NoRefusal, OraclesFrom;
      r := VerifyOneMinimal(inv, digest, signature, true);
      if old(TruthfulCache()) && Steady(world, digest) && OneMinimal(inv, JudgedBy(world), PreservedBy(world, digest, signature)) {
        MinimalRefusals(world, inv, digest, signature);
      }
      if r.Some? && r.value.reducing.Some? {
        r := None;
      }
    }

    /** The reproduction loop. */
    method Reproduce(x: Element, digest: string, signature: Signature, count: nat)
      returns (r: Option<Reproduction>)
      requires Safe() && count >= 1
      modifies this
      ensures Guarded()
      ensures Kept()
      ensures old(TruthfulCache()) ==> TruthfulCache()
      ensures r.Some? ==> Safe() && KnownValid(x)
      ensures r.Some? ==> |r.value.observations| == count
      ensures r.Some? ==> Reproduced(Seen(), x, old(targets), r.value.observations, digest, signature)
      ensures r.Some? ==> LastOf(r.value, digest, signature)
      ensures old(TruthfulCache()) && Steady(world, digest) ==>
        (r.Some? <==> Judge(world, x) && PreservedBy(world, digest, signature)(x))
      ensures Steady(world, digest) && r.Some? ==> SteadySeen(world, x, r.value.observations)
    {
      hide Judge, Pointwise, CacheGrows, Distinct, AllRefuted, Reproduced, Steady, SteadySeen, PreservedBy;
      ReproducedNone(Seen(), x, targets, digest, signature);
      CacheGrowsSelf(cache);
      var observations: seq<Observation> := [];
      var last: Option<Reproduction> := None;
      NothingSeen(world, x);
      for i := 0 to count
        invariant Safe() && Kept() && |observations| == i && targets == old(targets) + i
        invariant old(TruthfulCache()) ==> TruthfulCache()
        invariant Reproduced(Seen(), x, old(targets), observations, digest, signature)
        invariant i > 0 ==> KnownValid(x) && last.Some? && LastOf(last.value, digest, signature)
        invariant i > 0 && old(TruthfulCache()) && Steady(world, digest) ==>
          Judge(world, x) && PreservedBy(world, digest, signature)(x)
        invariant Steady(world, digest) ==> SteadySeen(world, x, observations)
      {
        ghost var before, known := cache, Seen();
        var ok := IsValid(x);
        CacheGrowsOn(old(cache), before, cache);
        if ok.None? || !ok.value {
          return None;
        }
        SteadyRun(world, targets, x, digest, signature);
        var result, evaluation := RunAndEvaluate(x);
        if evaluation.None? || result.targetDigest != digest {
          return None;
        }
        if !evaluation.value.matched || SignatureOf(result, evaluation.value, world.outputSensitive) != signature {
          return None;
        }
        if Steady(world, digest) {
          SteadyFirst(world, x, observations);
          SteadySnoc(world, x, observations, result.observation);
        }
        if observations != [] && result.observation != observations[0] {
          return None;
        }
        ReproducedSnoc(known, Seen(), x, old(targets), observations, result.observation, digest, signature);
        observations := observations + [result.observation];
        last := Some(Reproduction([], result, evaluation.value));
      }
      r := Some(last.value.(observations := observations));
    }

    /** The steps after a candidate matched: shrink, verify, reproduce, record, pack. */
    method Report(c: Candidate, ghost i: nat, digest: string, signature: Signature, reproductions: nat) returns (r: Option<Finding>)
      requires Safe() && reproductions >= 1
      requires Shows(Seen(), i, c.xml, digest, signature)
      modifies this
      ensures Guarded()
      ensures Kept()
      ensures old(TruthfulCache()) ==> TruthfulCache()
      ensures r.Some? ==> Safe() && Emitted(Seen(), r.value.record, c, i, r.value.invoice, signature, reproductions)
      ensures r.Some? ==> world.pack(c, r.value.record) == Some(r.value.capsule)
      ensures old(TruthfulCache()) && Steady(world, digest) ==>
        (r.Some? <==> Reports(world, c, old(targets), digest, signature, reproductions))
    {
      hide ParseInvoice, SerializeInvoice, OneStep, VerdictAt, Judge, Pointwise, Payload, Distinct, CacheGrows, ValidInvoice, Shrunk,
        AllRefuted, OutcomeOf, Reproduced, Shows, LastOf, Emitted, MakeRecord, ReducedBy, Steady, OneMinimal, FrontierWritten, JudgedBy,
        PreservedBy, Begin, Reducible, CacheTruth, ReportsShrunk, MinimizesInvoice, PacksFrom, SteadySeen, NoRefusal, RefusalsBehind;
      CacheGrowsSelf(cache);
      var inv := ParseInvoice(c.xml);
      if inv.Err? {
        return None;
      }
      var shrunk := ShrinkInvoice(inv.value, digest, signature, true);
      ShrunkIsReported(world, inv.value, shrunk, old(targets), targets, digest, signature);
      if shrunk.None? {
        return None;
      }
      var reduced := shrunk.value.invoice;
      ghost var before := cache;
      ghost var base := targets;
      var minimality := CheckMinimal(reduced, digest, signature);
      CacheGrowsOn(old(cache), before, cache);
      if minimality.None? {
        return None;
      }
      ghost var verified, first := Seen(), targets;
      var xml := SerializeInvoice(reduced).value;
      before := cache;
      var shown := Reproduce(xml, digest, signature, reproductions);
      CacheGrowsOn(old(cache), before, cache);
      if shown.None? {
        return None;
      }
      RefutedStays(verified, Seen(), reduced, base, digest, signature);
      ShowsStays(old(Seen()), Seen(), i, c.xml, digest, signature);
      var last := shown.value;
      RecordIsGood(Seen(), c, i, xml, shrunk.value, minimality.value, last, reproductions, first, digest, signature);
      var record := MakeRecord(c, xml, shrunk.value, minimality.value, last, reproductions);
      var capsule := world.pack(c, record);
      if old(TruthfulCache()) && Steady(world, digest) {
        PackDecides(world, c, shrunk.value, minimality.value, last, reproductions, old(targets), xml, digest, signature);
      }
      if capsule.None? {
        return None;
      }
      r := Some(Finding(record, reduced, capsule.value));
    }

    // ------------------------------------------------------------ the whole campaign

    /** One batch of the corpus: complete answers, all of them valid. */
    method CheckBatch(ids: seq<string>, docs: seq<Element>) returns (ok: bool)
      requires |ids| == |docs| && Distinct(ids)
      modifies this
      ensures cache == old(cache) && executed == old(executed) && targets == old(targets)
      ensures submitted == old(submitted) + docs
      ensures Pointwise(world) ==> (ok <==> forall k :: 0 <= k < |docs| ==> Judge(world, docs[k]))
    {
      hide Judge, Pointwise, Distinct;
      var cases := BuildNamed(ids, docs);
      validations := validations + 1;
      submitted := submitted + docs;
      var results := world.validator(cases);
      NamedAnswers(world, cases, ids, docs);
      ok := results.Keys == cases.Keys && forall id :: id in results.Keys ==> results[id];
    }

    /** _validate_corpus, and the cache that starts from it. */
    method ValidateCorpus(seed: Element, candidates: seq<Candidate>) returns (ok: bool)
      requires cache == map[] && submitted == [] && executed == [] && targets == 0
      requires DistinctCorpus(seed, candidates)
      modifies this
      ensures Guarded() && submitted <= CorpusDocs(seed, candidates)
      ensures executed == [] && targets == 0
      ensures ok ==> Safe() && submitted == CorpusDocs(seed, candidates)
      ensures ok ==> forall i :: 0 <= i < |candidates| ==> KnownValid(candidates[i].xml)
      ensures ok && Pointwise(world) ==> TruthfulCache()
      ensures Pointwise(world) ==> (ok <==> forall x :: x in CorpusDocs(seed, candidates) ==> Judge(world, x))
    {
      hide Judge, Pointwise, Distinct, CorpusIds, CorpusDocs, CacheOf, DigestsOf;
      var ids, docs := CorpusIds(candidates), CorpusDocs(seed, candidates);
      CorpusIdsDiffer(candidates);
      CorpusSize(candidates);
      CorpusDocsAt(seed, candidates);
      var offset := 0;
      while offset < |docs|
        invariant 0 <= offset <= |docs| == |ids|
        invariant cache == map[] && executed == [] && targets == 0 && submitted == docs[..offset]
        invariant Pointwise(world) ==> forall k :: 0 <= k < offset ==> Judge(world, docs[k])
      {
        var end := if offset + 64 <= |docs| then offset + 64 else |docs|;
        DistinctSlice(ids, offset, end);
        DistinctSlice(docs, 0, end);
        assert docs[0..end] == docs[..end];
        assert docs[..end] == docs[..offset] + docs[offset..end];
        ok := CheckBatch(ids[offset..end], docs[offset..end]);
        if !ok {
          SomeRejected(world, docs, offset, end);
          return;
        }
        assert forall k :: offset <= k < end ==> docs[k] == docs[offset..end][k - offset];
        offset := end;
      }
      assert docs[..|docs|] == docs;
      cache := CacheOf(docs);
      CacheOfDocs(docs);
      ok := true;
    }

    /** The first match: its report ends the campaign. */
    method ReportMatch(candidates: seq<Candidate>, i: nat, result: TargetResult, evaluation: Evaluation, reproductions: nat)
      returns (r: Option<seq<Finding>>)
      requires Safe() && reproductions >= 1 && FirstMatch(world, candidates, i) && targets == i + 1
      requires result == world.importer(i, candidates[i].xml) && Some(evaluation) == Evaluated(world, result, candidates[i].xml)
      requires Shows(Seen(), i, candidates[i].xml, result.targetDigest, SignatureOf(result, evaluation, world.outputSensitive))
      modifies this
      ensures Kept() && Guarded()
      ensures old(TruthfulCache()) ==> TruthfulCache()
      ensures r.Some? ==> Safe() && |r.value| == 1 && Justified(Seen(), r.value[0], candidates, reproductions)
      ensures old(TruthfulCache()) && Steady(world, result.targetDigest) ==> (r.Some? <==> MatchReports(world, candidates, i, reproductions))
    {
      hide Judge, Pointwise, Distinct, CacheTruth, CacheGrows, VerdictAt, Emitted, Shows, Steady, Reports, SignatureOf;
      var signature := SignatureOf(result, evaluation, world.outputSensitive);
      var finding := Report(candidates[i], i, result.targetDigest, signature, reproductions);
      if finding.None? {
        return None;
      }
      assert JustifiedBy(Seen(), finding.value, candidates, i, signature, reproductions);
      r := Some([finding.value]);
    }

    /**
     run_campaign: completed or aborted, the importer only ever ran on documents judged valid and
     no document was submitted twice. When it completes there is at most one finding, which is
     justified by what was observed and packed; without one, every candidate was run and none
     matched. With a pointwise validator and one steady target it completes exactly when the
     corpus is valid, no output is refused, and the first match can be shrunk, checked and packed.
     */
    method RunCampaign(seed: Element, candidates: seq<Candidate>, reproductions: nat) returns (r: Option<seq<Finding>>)
      requires cache == map[] && submitted == [] && executed == [] && targets == 0
      requires DistinctCorpus(seed, candidates)
      modifies this
      ensures Guarded()
      ensures r.Some? ==> Safe() && CorpusDocs(seed, candidates) <= submitted
      ensures r.Some? && Pointwise(world) ==> TruthfulCache()
      ensures r.Some? ==> 1 <= reproductions <= 100 && |candidates| <= 10000 && |r.value| <= 1
      ensures r.Some? && r.value == [] ==> |executed| == |candidates| && NoneMatched(world, candidates, |candidates|)
      ensures r.Some? && r.value != [] ==> Justified(Seen(), r.value[0], candidates, reproductions)
      ensures Pointwise(world) && SteadyWorld(world) ==> (r.Some? <==> Completes(world, seed, candidates, reproductions))
    {
      hide Judge, Pointwise, Distinct, CorpusDocs, CacheTruth, CacheGrows, VerdictAt, SignatureOf, Emitted, Shows, Steady, Reports,
        Completes, SteadyWorld;
      CompletesOnlyLegal(world, seed, candidates, reproductions);
      assert Guarded() by { NoneDistinct(); }
      if |candidates| > 10000 || !(1 <= reproductions <= 100) {
        return None;
      }
      var ok := ValidateCorpus(seed, candidates);
      if !ok {
        return None;
      }
      for i := 0 to |candidates|
        invariant Safe() && submitted == CorpusDocs(seed, candidates) && targets == i
        invariant Pointwise(world) ==> TruthfulCache()
        invariant forall k :: 0 <= k < |candidates| ==> KnownValid(candidates[k].xml)
        invariant NoneMatched(world, candidates, i)
      {
        var x := candidates[i].xml;
        var result, evaluation := RunAndEvaluate(x);
        if evaluation.None? || evaluation.value.matched {
          CompletesAt(world, seed, candidates, reproductions, i);
        }
        if evaluation.None? {
          return None;
        }
        if evaluation.value.matched {
          MatchShows(Seen(), i, x);
          SteadyDigest(world, i, x);
          r := ReportMatch(candidates, i, result, evaluation.value, reproductions);
          return;
        }
      }
      CompletesWithout(world, seed, candidates, reproductions);
      r := Some([]);
    }
  }
}
