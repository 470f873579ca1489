/** Deterministic corpus generation: tokens, uniqueness, and why it never fails on a good seed. */
module Corpus {
  import opened Basics
  import opened Digits
  import opened Invoices
  import opened Totals
  import opened Json
  import opened Trees
  import opened Serialize
  import opened InvoiceRoundTrip
  import opened Fingerprint
  import opened Mutators
  import opened Schedule

  const TOKEN_SHIFT: nat := 0x1_0000_0000
  const CAMPAIGN_SEEDS: nat := 0x8000_0000_0000_0000
  const DRAW_LIMIT := 1_000_000_000
  const MAX_COUNT := 100_000

  datatype MutationRecord = MutationRecord(mutator: Mutator, token: nat)

  /** A corpus entry; hashes stand for the hashed contents. */
  datatype Candidate = Candidate(
    index: nat,
    campaignSeed: nat,
    seedSha256: string,
    seedFingerprint: Json,
    operations: seq<MutationRecord>,
    fingerprint: Json,
    xml: Element)

  /**
   What is hashed outside the model: eight bytes of the digest of a campaign seed and an index, from
   the given offset, as a number; and the digest of the seed document.
   */
  datatype Hashes = Hashes(draw: (nat, nat, nat) -> nat, seedSha256: string)

  function UniqueToken(campaignSeed: nat, index: nat): (token: nat) {
    campaignSeed * TOKEN_SHIFT + index
  }

  function TokenFor(hashes: Hashes, campaignSeed: nat, index: nat, m: Mutator, offset: nat): (token: nat) {
    if m.InvoiceId? then UniqueToken(campaignSeed, index) else hashes.draw(campaignSeed, index, offset) % DRAW_LIMIT
  }

  function RecordFor(hashes: Hashes, campaignSeed: nat, index: nat, m: Mutator, offset: nat): (r: MutationRecord) {
    MutationRecord(m, TokenFor(hashes, campaignSeed, index, m, offset))
  }

  predicate Renames(ops: seq<MutationRecord>) {
    exists i :: 0 <= i < |ops| && ops[i].mutator.InvoiceId?
  }

  function Scheduled(hashes: Hashes, campaignSeed: nat, index: nat): (ops: seq<MutationRecord>) {
    [RecordFor(hashes, campaignSeed, index, Primary(index), 0)]
    + if index >= ORDER_LENGTH then [RecordFor(hashes, campaignSeed, index, Interaction(index), 16)] else []
  }

  /** The mutations of a candidate: one or two scheduled ones, and invoice-id unless it was scheduled. */
  function OperationsAt(hashes: Hashes, campaignSeed: nat, index: nat): (ops: seq<MutationRecord>) {
    var scheduled := Scheduled(hashes, campaignSeed, index);
    if Renames(scheduled) then scheduled else scheduled + [RecordFor(hashes, campaignSeed, index, InvoiceId, 0)]
  }

  function MutateAll(inv: Invoice, ops: seq<MutationRecord>): (r: Option<Invoice>)
    decreases |ops|
  {
    if ops == [] then Some(inv)
    else
      var next := Mutate(inv, ops[0].mutator, ops[0].token);
      if next.None? then None else MutateAll(next.value, ops[1..])
  }

  // ---------------------------------------------------------------- tokens

  lemma {:induction false} TokensAreUnique(s: nat, i: nat, t: nat, j: nat)
    requires i < TOKEN_SHIFT && j < TOKEN_SHIFT
    ensures UniqueToken(s, i) == UniqueToken(t, j) <==> s == t && i == j
  {
  }

  lemma {:induction false} TokensAreSmall(hashes: Hashes, campaignSeed: nat, index: nat, m: Mutator, offset: nat)
    requires campaignSeed < CAMPAIGN_SEEDS && index < TOKEN_SHIFT
    ensures SmallToken(TokenFor(hashes, campaignSeed, index, m, offset))
  {
    if m.InvoiceId? {
      BigPower();
    } else {
      SmallNumber(hashes.draw(campaignSeed, index, offset) % DRAW_LIMIT);
    }
  }

  lemma {:induction false} BigPower()
    ensures Pow10(30) == 1_000_000_000_000_000_000_000_000_000_000
  {
    assert Pow10(10) == 10_000_000_000;
    Pow10Add(10, 10);
    Pow10Add(20, 10);
  }

  // ---------------------------------------------------------------- generation never fails

  /** A seed from which every candidate can be generated. */
  predicate GoodSeed(seed: Invoice) {
    Ready(seed, {}) && Modest(seed.lines) && !("RP-" <= seed.identifier)
  }

  function MutatorsOf(ops: seq<MutationRecord>): (ms: set<Mutator>) {
    set i | 0 <= i < |ops| :: ops[i].mutator
  }

  ghost predicate DistinctMutators(ops: seq<MutationRecord>) {
    forall i, j :: 0 <= i < j < |ops| ==> ops[i].mutator != ops[j].mutator
  }

  predicate SmallTokens(ops: seq<MutationRecord>) {
    forall i :: 0 <= i < |ops| ==> SmallToken(ops[i].token)
  }

  /** The identifier after the mutations: the last renaming wins. */
  function IdentifierBy(before: string, ops: seq<MutationRecord>): (id: string)
    decreases |ops|
  {
    if ops == [] then before
    else IdentifierBy(if ops[0].mutator.InvoiceId? then "RP-" + Padded(ops[0].token, 8) else before, ops[1..])
  }

  lemma {:induction false} MutateAllSucceeds(inv: Invoice, ops: seq<MutationRecord>, used: set<Mutator>)
    requires Ready(inv, used) && DistinctMutators(ops) && SmallTokens(ops)
    requires forall i :: 0 <= i < |ops| ==> ops[i].mutator !in used
    ensures MutateAll(inv, ops).Some? && Ready(MutateAll(inv, ops).value, used + MutatorsOf(ops))
    ensures MutateAll(inv, ops).value.identifier == IdentifierBy(inv.identifier, ops)
    ensures Modest(inv.lines) ==> Modest(MutateAll(inv, ops).value.lines)
    decreases |ops|
  {
    hide Ready, Mutate, Padded, SmallToken, Modest;
    if ops == [] {
      assert used + MutatorsOf(ops) == used;
    } else {
      MutateSucceeds(inv, ops[0].mutator, ops[0].token, used);
      var next := Mutate(inv, ops[0].mutator, ops[0].token).value;
      MutateAllSucceeds(next, ops[1..], used + {ops[0].mutator});
      MutatorsCons(ops);
      assert used + {ops[0].mutator} + MutatorsOf(ops[1..]) == used + MutatorsOf(ops);
    }
  }

  lemma {:induction false} MutatorsCons(ops: seq<MutationRecord>)
    requires ops != []
    ensures MutatorsOf(ops) == {ops[0].mutator} + MutatorsOf(ops[1..])
  {
    forall i | 0 <= i < |ops| ensures ops[i].mutator in {ops[0].mutator} + MutatorsOf(ops[1..]) {
      if i > 0 {
        assert ops[1..][i - 1] == ops[i];
      }
    }
    forall i | 0 <= i < |ops[1..]| ensures ops[1..][i].mutator in MutatorsOf(ops) {
      assert ops[1..][i] == ops[i + 1];
    }
  }

  /** Each candidate has two or three different mutations after the first round, exactly one of them invoice-id. */
  lemma {:induction false} OperationsShape(hashes: Hashes, campaignSeed: nat, index: nat)
    ensures var ops := OperationsAt(hashes, campaignSeed, index);
      && DistinctMutators(ops) && 1 <= |ops| <= 3
      && (exists i :: 0 <= i < |ops| && ops[i] == MutationRecord(InvoiceId, UniqueToken(campaignSeed, index)))
      && ops[0].mutator == Primary(index)
      && (index >= ORDER_LENGTH ==> |ops| >= 2 && ops[1].mutator == Interaction(index))
  {
    hide Interaction, Primary;
    var scheduled := Scheduled(hashes, campaignSeed, index);
    var ops := OperationsAt(hashes, campaignSeed, index);
    if Renames(scheduled) {
      var i :| 0 <= i < |scheduled| && scheduled[i].mutator.InvoiceId?;
      assert ops[i] == MutationRecord(InvoiceId, UniqueToken(campaignSeed, index));
    } else {
      assert ops[|scheduled|] == MutationRecord(InvoiceId, UniqueToken(campaignSeed, index));
      assert forall i :: 0 <= i < |scheduled| ==> !scheduled[i].mutator.InvoiceId?;
    }
  }

  lemma {:induction false} OperationsSmall(hashes: Hashes, campaignSeed: nat, index: nat)
    requires campaignSeed < CAMPAIGN_SEEDS && index < TOKEN_SHIFT
    ensures SmallTokens(OperationsAt(hashes, campaignSeed, index))
  {
    hide SmallToken, TokenFor, Interaction, Primary;
    TokensAreSmall(hashes, campaignSeed, index, Primary(index), 0);
    if index >= ORDER_LENGTH {
      TokensAreSmall(hashes, campaignSeed, index, Interaction(index), 16);
    }
    TokensAreSmall(hashes, campaignSeed, index, InvoiceId, 0);
  }

  lemma {:induction false} RenamedOnce(before: string, ops: seq<MutationRecord>, i: nat)
    requires DistinctMutators(ops) && i < |ops| && ops[i].mutator.InvoiceId?
    ensures IdentifierBy(before, ops) == "RP-" + Padded(ops[i].token, 8)
    decreases |ops|
  {
    hide Padded;
    if i == 0 {
      NotRenamed("RP-" + Padded(ops[0].token, 8), ops[1..]);
    } else {
      assert ops[1..][i - 1] == ops[i] && !ops[0].mutator.InvoiceId?;
      RenamedOnce(before, ops[1..], i - 1);
    }
  }

  lemma {:induction false} NotRenamed(before: string, ops: seq<MutationRecord>)
    requires forall i :: 0 <= i < |ops| ==> !ops[i].mutator.InvoiceId?
    ensures IdentifierBy(before, ops) == before
    decreases |ops|
  {
    if ops != [] {
      NotRenamed(before, ops[1..]);
    }
  }

  function InvoiceAt(seed: Invoice, hashes: Hashes, campaignSeed: nat, index: nat): (r: Option<Invoice>) {
    MutateAll(seed, OperationsAt(hashes, campaignSeed, index))
  }

  /** From a good seed every candidate exists, can be written and read back, and carries its own identifier. */
  lemma {:induction false} CandidateExists(seed: Invoice, hashes: Hashes, campaignSeed: nat, index: nat)
    requires GoodSeed(seed) && campaignSeed < CAMPAIGN_SEEDS && index < TOKEN_SHIFT
    ensures InvoiceAt(seed, hashes, campaignSeed, index).Some?
    ensures var inv := InvoiceAt(seed, hashes, campaignSeed, index).value;
      && Writable(inv) && Readable(inv) && inv.identifier == "RP-" + Padded(UniqueToken(campaignSeed, index), 8)
      && AllValid(inv.lines) && ModestRates(inv.lines)
  {
    hide Ready, OperationsAt, Padded, SmallToken, MutateAll, UniqueToken, TotalsFit, ValidInvoice, Readable, Modest;
    var ops := OperationsAt(hashes, campaignSeed, index);
    OperationsShape(hashes, campaignSeed, index);
    OperationsSmall(hashes, campaignSeed, index);
    MutateAllSucceeds(seed, ops, {});
    var i :| 0 <= i < |ops| && ops[i] == MutationRecord(InvoiceId, UniqueToken(campaignSeed, index));
    RenamedOnce(seed.identifier, ops, i);
    ReadyIsWritable(MutateAll(seed, ops).value, {} + MutatorsOf(ops));
  }

  lemma {:induction false} ReadyIsWritable(inv: Invoice, used: set<Mutator>)
    requires Ready(inv, used) && Modest(inv.lines)
    ensures Writable(inv) && Readable(inv) && AllValid(inv.lines) && ModestRates(inv.lines)
  {
    hide ValidHeader, ValidParty, ReadableHeader, ReadableLines, TotalsFit;
    ReadyIsValid(inv, used);
    ModestRatesFit(inv.lines);
  }

  // ---------------------------------------------------------------- exactly when generation succeeds

  /** Every mutation in turn is one that its invoice takes. */
  predicate TakesAll(inv: Invoice, ops: seq<MutationRecord>)
    decreases |ops|
  {
    ops == [] || (
      && Takes(inv, ops[0].mutator, ops[0].token)
      && (Mutate(inv, ops[0].mutator, ops[0].token).Some? ==> TakesAll(Mutate(inv, ops[0].mutator, ops[0].token).value, ops[1..])))
  }

  lemma {:induction false} MutateAllExact(inv: Invoice, ops: seq<MutationRecord>)
    requires ValidInvoice(inv) && Readable(inv) && SmallTokens(ops)
    ensures MutateAll(inv, ops).Some? <==> TakesAll(inv, ops)
    ensures var r := MutateAll(inv, ops);
      r.Some? ==> ValidInvoice(r.value) && Readable(r.value) && r.value.identifier == IdentifierBy(inv.identifier, ops)
    decreases |ops|
  {
    hide ValidInvoice, Readable, Mutate, Takes, Padded, SmallToken;
    if ops != [] {
      MutateExact(inv, ops[0].mutator, ops[0].token);
      if Mutate(inv, ops[0].mutator, ops[0].token).Some? {
        MutateAllExact(Mutate(inv, ops[0].mutator, ops[0].token).value, ops[1..]);
      }
    }
  }

  /**
   What generation asks of a seed for an index: every mutation is taken, the totals of the result
   exist, and the result is not the seed again.
   */
  predicate Generates(seed: Invoice, hashes: Hashes, campaignSeed: nat, index: nat) {
    && TakesAll(seed, OperationsAt(hashes, campaignSeed, index))
    && var inv := InvoiceAt(seed, hashes, campaignSeed, index);
      inv.Some? ==> SerializeInvoice(inv.value).Some? && Payload(inv.value) != Payload(seed)
  }

  /** The j-th index of a shard. */
  predicate GeneratesAt(seed: Invoice, hashes: Hashes, campaignSeed: nat, shardIndex: nat, shardCount: nat, j: nat) {
    Generates(seed, hashes, campaignSeed, shardIndex + j * shardCount)
  }

  /** A generated invoice is valid and carries its own number, whatever the seed. */
  lemma {:induction false} GeneratedNumber(seed: Invoice, hashes: Hashes, campaignSeed: nat, index: nat)
    requires ValidInvoice(seed) && Readable(seed) && campaignSeed < CAMPAIGN_SEEDS && index < TOKEN_SHIFT
    ensures var inv := InvoiceAt(seed, hashes, campaignSeed, index);
      && (inv.Some? <==> TakesAll(seed, OperationsAt(hashes, campaignSeed, index)))
      && (inv.Some? ==> ValidInvoice(inv.value) && inv.value.identifier == "RP-" + Padded(UniqueToken(campaignSeed, index), 8))
  {
    hide OperationsAt, Padded, SmallToken, MutateAll, UniqueToken, ValidInvoice, Readable, TakesAll;
    var ops := OperationsAt(hashes, campaignSeed, index);
    OperationsShape(hashes, campaignSeed, index);
    OperationsSmall(hashes, campaignSeed, index);
    MutateAllExact(seed, ops);
    var i :| 0 <= i < |ops| && ops[i] == MutationRecord(InvoiceId, UniqueToken(campaignSeed, index));
    RenamedOnce(seed.identifier, ops, i);
  }

  /** A good seed has all that is asked, for every index. */
  lemma {:induction false} GoodSeedGenerates(seed: Invoice, hashes: Hashes, campaignSeed: nat, index: nat)
    requires GoodSeed(seed) && campaignSeed < CAMPAIGN_SEEDS && index < TOKEN_SHIFT
    ensures ValidInvoice(seed) && Readable(seed) && Generates(seed, hashes, campaignSeed, index)
  {
    hide Ready, OperationsAt, Padded, MutateAll, UniqueToken, ValidInvoice, Readable, TakesAll, Payload, Writable, Modest;
    ReadyIsValid(seed, {});
    GeneratedNumber(seed, hashes, campaignSeed, index);
    CandidateExists(seed, hashes, campaignSeed, index);
    SeedDiffers(seed, InvoiceAt(seed, hashes, campaignSeed, index).value, UniqueToken(campaignSeed, index));
  }

  // ---------------------------------------------------------------- generation

  /** What generation must produce for an index. */
  predicate IsCandidate(c: Candidate, seed: Invoice, hashes: Hashes, campaignSeed: nat, index: nat) {
    var inv := InvoiceAt(seed, hashes, campaignSeed, index);
    && inv.Some? && SerializeInvoice(inv.value) == Some(c.xml)
    && c == Candidate(index, campaignSeed, hashes.seedSha256, Payload(seed), OperationsAt(hashes, campaignSeed, index), Payload(inv.value), c.xml)
  }

  /** How many indices below count a shard has. */
  function ShardSize(count: nat, shardIndex: nat, shardCount: nat): (n: nat)
    requires shardCount >= 1
  {
    if shardIndex >= count then 0 else (count - 1 - shardIndex) / shardCount + 1
  }

  /** Candidates for every shardCount-th index from shardIndex on. */
  ghost predicate AreCandidates(cs: seq<Candidate>, seed: Invoice, hashes: Hashes, campaignSeed: nat, shardIndex: nat, shardCount: nat) {
    forall j :: 0 <= j < |cs| ==> IsCandidate(cs[j], seed, hashes, campaignSeed, shardIndex + j * shardCount)
  }

  /** The candidates of one shard, in order. */
  ghost predicate IsShard(cs: seq<Candidate>, seed: Invoice, hashes: Hashes, campaignSeed: nat, count: nat, shardIndex: nat, shardCount: nat)
    requires shardCount >= 1
  {
    |cs| == ShardSize(count, shardIndex, shardCount) && AreCandidates(cs, seed, hashes, campaignSeed, shardIndex, shardCount)
  }

  predicate ArgumentsOk(count: nat, campaignSeed: nat, shardIndex: nat, shardCount: nat) {
    1 <= count <= MAX_COUNT && campaignSeed < CAMPAIGN_SEEDS && 1 <= shardCount <= 100 && shardIndex < shardCount
  }

  /** All fingerprints differ, also from that of the seed. */
  ghost predicate DistinctFingerprints(cs: seq<Candidate>, seed: Invoice) {
    && (forall i, j :: 0 <= i < j < |cs| ==> cs[i].fingerprint != cs[j].fingerprint)
    && (forall i :: 0 <= i < |cs| ==> cs[i].fingerprint != Payload(seed))
  }

  function FingerprintsOf(cs: seq<Candidate>): (fs: set<Json>) {
    set i | 0 <= i < |cs| :: cs[i].fingerprint
  }

  lemma {:induction false} MutateAllAppend(inv: Invoice, a: seq<MutationRecord>, b: seq<MutationRecord>)
    ensures MutateAll(inv, a + b) ==
      if MutateAll(inv, a).None? then None else MutateAll(MutateAll(inv, a).value, b)
    decreases |a|
  {
    hide Mutate;
    if a == [] {
      assert a + b == b;
    } else {
      assert (a + b)[0] == a[0] && (a + b)[1..] == a[1..] + b;
      var next := Mutate(inv, a[0].mutator, a[0].token);
      if next.Some? {
        MutateAllAppend(next.value, a[1..], b);
      }
    }
  }

  /** Apply one mutation to the invoice made so far and record it. */
  method ApplyMutation(inv: Invoice, op: MutationRecord, operations: seq<MutationRecord>, ghost seed: Invoice)
    returns (r: Option<Invoice>, recorded: seq<MutationRecord>)
    requires MutateAll(seed, operations) == Some(inv)
    ensures recorded == operations + [op] && r == MutateAll(seed, recorded)
  {
    hide Mutate;
    MutateAllAppend(seed, operations, [op]);
    r := Mutate(inv, op.mutator, op.token);
    recorded := operations + [op];
  }

  /** The body of the generation loop up to the finished invoice. */
  method MutateSeed(seed: Invoice, hashes: Hashes, campaignSeed: nat, index: nat)
    returns (r: Option<Invoice>, operations: seq<MutationRecord>)
    ensures r == InvoiceAt(seed, hashes, campaignSeed, index)
    ensures r.Some? ==> operations == OperationsAt(hashes, campaignSeed, index)
  {
    hide MutateAll, Interaction, Primary, TokenFor;
    ghost var ops := OperationsAt(hashes, campaignSeed, index);
    NothingApplied(seed);
    r, operations := ApplyMutation(seed, RecordFor(hashes, campaignSeed, index, Primary(index), 0), [], seed);
    if r.None? {
      assert ops == operations + ops[1..];
      PrefixFails(seed, operations, ops[1..]);
      return;
    }
    if index >= ORDER_LENGTH {
      r, operations := ApplyMutation(r.value, RecordFor(hashes, campaignSeed, index, Interaction(index), 16), operations, seed);
      if r.None? {
        assert ops == operations + ops[2..];
        PrefixFails(seed, operations, ops[2..]);
        return;
      }
    }
    assert operations == Scheduled(hashes, campaignSeed, index);
    if !Renames(operations) {
      r, operations := ApplyMutation(r.value, RecordFor(hashes, campaignSeed, index, InvoiceId, 0), operations, seed);
    }
  }

  lemma {:induction false} NothingApplied(seed: Invoice)
    ensures MutateAll(seed, []) == Some(seed)
  {
  }

  lemma {:induction false} PrefixFails(seed: Invoice, a: seq<MutationRecord>, b: seq<MutationRecord>)
    ensures MutateAll(seed, a).None? ==> MutateAll(seed, a + b).None?
  {
    MutateAllAppend(seed, a, b);
  }

  /**
   generate_candidates: one shard, or an error for bad arguments, a failing mutation or a collision.
   For a seed that was read from a document it succeeds exactly when the arguments are legal and the
   seed has what is asked for every index of the shard: candidates never collide with each other.
   */
  method GenerateCandidates(seed: Invoice, hashes: Hashes, count: nat, campaignSeed: nat, shardIndex: nat, shardCount: nat)
    returns (r: Option<seq<Candidate>>)
    ensures r.Some? ==> ArgumentsOk(count, campaignSeed, shardIndex, shardCount)
    ensures r.Some? ==> IsShard(r.value, seed, hashes, campaignSeed, count, shardIndex, shardCount)
    ensures r.Some? ==> DistinctFingerprints(r.value, seed)
    ensures GoodSeed(seed) ==> (r.Some? <==> ArgumentsOk(count, campaignSeed, shardIndex, shardCount))
    ensures ValidInvoice(seed) && Readable(seed) ==>
      (r.Some? <==> ArgumentsOk(count, campaignSeed, shardIndex, shardCount) && ShardGenerates(seed, hashes, campaignSeed, count, shardIndex, shardCount))
  {
    hide IsCandidate, Payload, SerializeInvoice, OperationsAt, InvoiceAt, GoodSeed, DistinctFingerprints, FingerprintsOf, ShardSize, IsShard,
      GeneratesAt, ValidInvoice, Readable;
    NoCandidates(seed, count, shardIndex, shardCount);
    if !(1 <= count <= MAX_COUNT) || campaignSeed >= CAMPAIGN_SEEDS || !(1 <= shardCount <= 100) || shardIndex >= shardCount {
      return None;
    }
    var candidates: seq<Candidate> := [];
    var fingerprints: set<Json> := {};
    var index := shardIndex;
    while index < count
      invariant index == shardIndex + |candidates| * shardCount
      invariant |candidates| <= ShardSize(count, shardIndex, shardCount)
      invariant AreCandidates(candidates, seed, hashes, campaignSeed, shardIndex, shardCount)
      invariant DistinctFingerprints(candidates, seed) && fingerprints == FingerprintsOf(candidates)
      invariant ValidInvoice(seed) && Readable(seed) ==>
        forall j: nat :: j < |candidates| ==> GeneratesAt(seed, hashes, campaignSeed, shardIndex, shardCount, j)
      decreases count - index
    {
      var inv, operations := MutateSeed(seed, hashes, campaignSeed, index);
      NeverCollides(seed, hashes, campaignSeed, candidates, index, shardIndex, shardCount);
      SizeGrows(count, shardIndex, shardCount, |candidates|);
      if inv.None? {
        return None;
      }
      var xml := SerializeInvoice(inv.value);
      if xml.None? {
        return None;
      }
      var fingerprint := Payload(inv.value);
      if fingerprint == Payload(seed) || fingerprint in fingerprints {
        return None;
      }
      var c := Candidate(index, campaignSeed, hashes.seedSha256, Payload(seed), operations, fingerprint, xml.value);
      MadeCandidate(c, seed, hashes, campaignSeed, index, inv.value);
      AddCandidate(candidates, c, seed, hashes, campaignSeed, shardIndex, shardCount);
      fingerprints := fingerprints + {fingerprint};
      NextIndex(|candidates|, shardCount);
      candidates := candidates + [c];
      index := index + shardCount;
    }
    SizeReached(count, shardIndex, shardCount, |candidates|);
    ShardIsDone(candidates, seed, hashes, campaignSeed, count, shardIndex, shardCount);
    r := Some(candidates);
  }

  /** The seed has what is asked for every index of the shard. */
  predicate ShardGenerates(seed: Invoice, hashes: Hashes, campaignSeed: nat, count: nat, shardIndex: nat, shardCount: nat)
    requires shardCount >= 1
  {
    forall j: nat :: j < ShardSize(count, shardIndex, shardCount) ==> GeneratesAt(seed, hashes, campaignSeed, shardIndex, shardCount, j)
  }

  lemma {:induction false} ShardIsDone(cs: seq<Candidate>, seed: Invoice, hashes: Hashes, campaignSeed: nat, count: nat,
    shardIndex: nat, shardCount: nat)
    requires shardCount >= 1 && |cs| == ShardSize(count, shardIndex, shardCount)
    requires AreCandidates(cs, seed, hashes, campaignSeed, shardIndex, shardCount)
    ensures IsShard(cs, seed, hashes, campaignSeed, count, shardIndex, shardCount)
  {
  }

  lemma {:induction false} NoCandidates(seed: Invoice, count: nat, shardIndex: nat, shardCount: nat)
    ensures DistinctFingerprints([], seed) && FingerprintsOf([]) == {}
    ensures shardCount >= 1 ==> 0 <= ShardSize(count, shardIndex, shardCount)
  {
  }

  lemma {:induction false} MadeCandidate(c: Candidate, seed: Invoice, hashes: Hashes, campaignSeed: nat, index: nat, inv: Invoice)
    requires InvoiceAt(seed, hashes, campaignSeed, index) == Some(inv) && SerializeInvoice(inv) == Some(c.xml)
    requires c == Candidate(index, campaignSeed, hashes.seedSha256, Payload(seed), OperationsAt(hashes, campaignSeed, index), Payload(inv), c.xml)
    ensures IsCandidate(c, seed, hashes, campaignSeed, index)
  {
    hide InvoiceAt, SerializeInvoice, Payload, OperationsAt;
  }

  lemma {:induction false} AddCandidate(cs: seq<Candidate>, c: Candidate, seed: Invoice, hashes: Hashes, campaignSeed: nat,
    shardIndex: nat, shardCount: nat)
    requires AreCandidates(cs, seed, hashes, campaignSeed, shardIndex, shardCount)
    requires IsCandidate(c, seed, hashes, campaignSeed, shardIndex + |cs| * shardCount)
    requires DistinctFingerprints(cs, seed) && c.fingerprint != Payload(seed) && c.fingerprint !in FingerprintsOf(cs)
    ensures AreCandidates(cs + [c], seed, hashes, campaignSeed, shardIndex, shardCount)
    ensures DistinctFingerprints(cs + [c], seed)
    ensures FingerprintsOf(cs + [c]) == FingerprintsOf(cs) + {c.fingerprint}
  {
    hide IsCandidate, Payload;
    var all := cs + [c];
    assert forall j :: 0 <= j < |all| ==> all[j] == if j < |cs| then cs[j] else c;
    assert all[|cs|].fingerprint == c.fingerprint;
    forall f | f in FingerprintsOf(cs) + {c.fingerprint} ensures f in FingerprintsOf(all) {
      if f in FingerprintsOf(cs) {
        var i :| 0 <= i < |cs| && cs[i].fingerprint == f;
        assert all[i].fingerprint == f;
      }
    }
  }

  lemma {:induction false} SizeGrows(count: nat, shardIndex: nat, shardCount: nat, j: nat)
    requires shardCount >= 1 && shardIndex + j * shardCount < count
    ensures j < ShardSize(count, shardIndex, shardCount)
  {
    QuotientBound(count - 1 - shardIndex, shardCount, j);
  }

  lemma {:induction false} NextIndex(n: nat, d: nat)
    ensures n * d + d == (n + 1) * d
  {
  }

  lemma {:induction false} Times(a: nat, b: nat, d: nat)
    requires a <= b
    ensures a * d <= b * d
  {
  }

  lemma {:induction false} QuotientBound(room: nat, d: nat, j: nat)
    requires d >= 1
    ensures j * d <= room <==> j <= room / d
  {
    var q := room / d;
    assert room == q * d + room % d;
    if j <= q {
      Times(j, q, d);
    } else {
      Times(q + 1, j, d);
      assert (q + 1) * d == q * d + d;
    }
  }

  lemma {:induction false} SizeReached(count: nat, shardIndex: nat, shardCount: nat, j: nat)
    requires shardCount >= 1 && shardIndex + j * shardCount >= count && j <= ShardSize(count, shardIndex, shardCount)
    ensures j == ShardSize(count, shardIndex, shardCount)
  {
    if shardIndex < count {
      QuotientBound(count - 1 - shardIndex, shardCount, j);
    }
  }

  /**
   The next index succeeds exactly when the seed has what is asked for it: the number of a candidate
   keeps it apart from all others. From a good seed it always does.
   */
  lemma {:induction false} NeverCollides(seed: Invoice, hashes: Hashes, campaignSeed: nat, cs: seq<Candidate>, index: nat,
    shardIndex: nat, shardCount: nat)
    requires campaignSeed < CAMPAIGN_SEEDS && index < TOKEN_SHIFT && shardCount >= 1
    requires index == shardIndex + |cs| * shardCount
    requires AreCandidates(cs, seed, hashes, campaignSeed, shardIndex, shardCount)
    ensures GoodSeed(seed) ==> ValidInvoice(seed) && Readable(seed) && GeneratesAt(seed, hashes, campaignSeed, shardIndex, shardCount, |cs|)
    ensures ValidInvoice(seed) && Readable(seed) ==>
      var inv := InvoiceAt(seed, hashes, campaignSeed, index);
      && (GeneratesAt(seed, hashes, campaignSeed, shardIndex, shardCount, |cs|) <==>
           inv.Some? && SerializeInvoice(inv.value).Some? && Payload(inv.value) != Payload(seed))
      && (inv.Some? ==> Payload(inv.value) !in FingerprintsOf(cs))
  {
    hide IsCandidate, Payload, OperationsAt, InvoiceAt, GoodSeed, SerializeInvoice, Writable, Readable, Padded, UniqueToken, FingerprintsOf,
      ValidInvoice, TakesAll;
    if GoodSeed(seed) {
      GoodSeedGenerates(seed, hashes, campaignSeed, index);
    }
    if ValidInvoice(seed) && Readable(seed) {
      GeneratedNumber(seed, hashes, campaignSeed, index);
      var inv := InvoiceAt(seed, hashes, campaignSeed, index);
      if inv.Some? {
        forall j | 0 <= j < |cs| ensures cs[j].fingerprint != Payload(inv.value) {
          StepsGrow(j, |cs|, shardCount);
          EarlierDiffers(seed, hashes, campaignSeed, cs[j], shardIndex + j * shardCount, index);
        }
        NotAmong(cs, Payload(inv.value));
      }
    }
  }

  lemma {:induction false} WritableIsValid(inv: Invoice)
    requires Writable(inv)
    ensures ValidInvoice(inv) && SerializeInvoice(inv).Some?
  {
    hide ValidInvoice, TotalsFit, Document;
  }

  lemma {:induction false} NotAmong(cs: seq<Candidate>, f: Json)
    requires forall j :: 0 <= j < |cs| ==> cs[j].fingerprint != f
    ensures f !in FingerprintsOf(cs)
  {
  }

  lemma {:induction false} StepsGrow(j: nat, k: nat, d: nat)
    requires j < k && d >= 1
    ensures j * d < k * d
  {
  }

  /** Equal fingerprints mean equal identifiers. */
  lemma {:induction false} SameIdentifier(a: Invoice, b: Invoice)
    requires ValidInvoice(a) && ValidInvoice(b) && Payload(a) == Payload(b)
    ensures a.identifier == b.identifier
  {
    hide Payload, ValidInvoice, SameLines;
    FingerprintsAgree(a, b);
  }

  lemma {:induction false} SeedDiffers(seed: Invoice, inv: Invoice, token: nat)
    requires GoodSeed(seed) && ValidInvoice(inv) && inv.identifier == "RP-" + Padded(token, 8)
    ensures Payload(inv) != Payload(seed)
  {
    hide Payload, Ready, Padded, ValidInvoice;
    ReadyIsValid(seed, {});
    assert "RP-" <= inv.identifier;
    if Payload(inv) == Payload(seed) {
      SameIdentifier(inv, seed);
    }
  }

  lemma {:induction false} EarlierDiffers(seed: Invoice, hashes: Hashes, campaignSeed: nat, c: Candidate, i: nat, j: nat)
    requires ValidInvoice(seed) && Readable(seed) && campaignSeed < CAMPAIGN_SEEDS && i < j < TOKEN_SHIFT
    requires IsCandidate(c, seed, hashes, campaignSeed, i) && InvoiceAt(seed, hashes, campaignSeed, j).Some?
    ensures c.fingerprint != Payload(InvoiceAt(seed, hashes, campaignSeed, j).value)
  {
    hide Payload, Padded, OperationsAt, InvoiceAt, ValidInvoice, TotalsFit, Readable, UniqueToken, TakesAll;
    GeneratedNumber(seed, hashes, campaignSeed, i);
    GeneratedNumber(seed, hashes, campaignSeed, j);
    var a, b := InvoiceAt(seed, hashes, campaignSeed, i).value, InvoiceAt(seed, hashes, campaignSeed, j).value;
    if Payload(a) == Payload(b) {
      SameIdentifier(a, b);
      IdentifiersDiffer(UniqueToken(campaignSeed, i), UniqueToken(campaignSeed, j));
      TokensAreUnique(campaignSeed, i, campaignSeed, j);
    }
  }

  lemma {:induction false} IdentifiersDiffer(x: nat, y: nat)
    requires "RP-" + Padded(x, 8) == "RP-" + Padded(y, 8)
    ensures x == y
  {
    hide Padded;
    assert ("RP-" + Padded(x, 8))[3..] == Padded(x, 8) && ("RP-" + Padded(y, 8))[3..] == Padded(y, 8);
    PaddedInjective(x, y, 8);
  }
}
