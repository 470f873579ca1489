/** Shards of a corpus, and the coverage gate. */
module Sharding {
  import opened Basics
  import opened Invoices
  import opened Json
  import opened Serialize
  import opened Fingerprint
  import opened Mutators
  import opened Schedule
  import opened Corpus

  // ---------------------------------------------------------------- sharding

  /** Shard s of k, for each s, holds the candidates of all indices s modulo k, in order. */
  ghost predicate Merges(shards: seq<seq<Candidate>>, all: seq<Candidate>)
    requires |shards| >= 1
  {
    && (forall i :: 0 <= i < |all| ==> HasAt(shards[i % |shards|], i / |shards|, all[i]))
    && (forall s, j :: 0 <= s < |shards| && 0 <= j < |shards[s]| ==> HasAt(all, s + j * |shards|, shards[s][j]))
  }

  predicate HasAt(cs: seq<Candidate>, i: nat, c: Candidate) {
    i < |cs| && cs[i] == c
  }

  /**
   The shards partition the index range: candidate i of the unsharded corpus is candidate i / k of
   shard i mod k, and every candidate of a shard is the unsharded candidate of its index.
   */
  lemma {:induction false} ShardsMerge(shards: seq<seq<Candidate>>, all: seq<Candidate>, seed: Invoice, hashes: Hashes, campaignSeed: nat,
    count: nat)
    requires |shards| >= 1 && IsShard(all, seed, hashes, campaignSeed, count, 0, 1)
    requires forall s :: 0 <= s < |shards| ==> IsShard(shards[s], seed, hashes, campaignSeed, count, s, |shards|)
    ensures |all| == count && Merges(shards, all)
  {
    hide IsShard, HasAt;
    WholeShard(all, seed, hashes, campaignSeed, count);
    forall i | 0 <= i < |all| ensures HasAt(shards[i % |shards|], i / |shards|, all[i]) {
      InItsShard(shards[i % |shards|], all, seed, hashes, campaignSeed, count, |shards|, i);
    }
    forall s, j | 0 <= s < |shards| && 0 <= j < |shards[s]| ensures HasAt(all, s + j * |shards|, shards[s][j]) {
      InTheWhole(shards[s], all, seed, hashes, campaignSeed, count, s, |shards|, j);
    }
  }

  lemma {:induction false} WholeShard(all: seq<Candidate>, seed: Invoice, hashes: Hashes, campaignSeed: nat, count: nat)
    requires IsShard(all, seed, hashes, campaignSeed, count, 0, 1)
    ensures |all| == count
  {
    hide AreCandidates;
    WholeSize(count);
  }

  lemma {:induction false} InItsShard(shard: seq<Candidate>, all: seq<Candidate>, seed: Invoice, hashes: Hashes, campaignSeed: nat,
    count: nat, k: nat, i: nat)
    requires k >= 1 && i < count && IsShard(all, seed, hashes, campaignSeed, count, 0, 1)
    requires IsShard(shard, seed, hashes, campaignSeed, count, i % k, k)
    ensures i < |all| && HasAt(shard, i / k, all[i])
  {
    hide AreCandidates, ShardSize;
    WholeSize(count);
    assert i == i % k + (i / k) * k;
    SizeGrows(count, i % k, k, i / k);
    SameCandidate(shard, all, seed, hashes, campaignSeed, i % k, k, i / k, i);
  }

  lemma {:induction false} InTheWhole(shard: seq<Candidate>, all: seq<Candidate>, seed: Invoice, hashes: Hashes, campaignSeed: nat,
    count: nat, s: nat, k: nat, j: nat)
    requires k >= 1 && j < |shard| && IsShard(all, seed, hashes, campaignSeed, count, 0, 1)
    requires IsShard(shard, seed, hashes, campaignSeed, count, s, k)
    ensures HasAt(all, s + j * k, shard[j])
  {
    hide AreCandidates, ShardSize;
    WholeSize(count);
    SizeBounds(count, s, k, j);
    SameCandidate(shard, all, seed, hashes, campaignSeed, s, k, j, s + j * k);
  }

  lemma {:induction false} WholeSize(count: nat)
    ensures ShardSize(count, 0, 1) == count
  {
  }

  lemma {:induction false} SameCandidate(shard: seq<Candidate>, all: seq<Candidate>, seed: Invoice, hashes: Hashes, campaignSeed: nat,
    s: nat, k: nat, j: nat, i: nat)
    requires AreCandidates(shard, seed, hashes, campaignSeed, s, k) && AreCandidates(all, seed, hashes, campaignSeed, 0, 1)
    requires j < |shard| && i < |all| && i == s + j * k
    ensures shard[j] == all[i]
  {
    hide IsCandidate;
    assert IsCandidate(shard[j], seed, hashes, campaignSeed, s + j * k);
    assert IsCandidate(all[i], seed, hashes, campaignSeed, 0 + i * 1);
    OneCandidate(shard[j], all[i], seed, hashes, campaignSeed, i);
  }

  lemma {:induction false} OneCandidate(a: Candidate, b: Candidate, seed: Invoice, hashes: Hashes, campaignSeed: nat, index: nat)
    requires IsCandidate(a, seed, hashes, campaignSeed, index) && IsCandidate(b, seed, hashes, campaignSeed, index)
    ensures a == b
  {
    hide Payload, OperationsAt, InvoiceAt, SerializeInvoice;
  }

  lemma {:induction false} SizeBounds(count: nat, shardIndex: nat, shardCount: nat, j: nat)
    requires shardCount >= 1 && j < ShardSize(count, shardIndex, shardCount)
    ensures shardIndex + j * shardCount < count
  {
    QuotientBound(count - 1 - shardIndex, shardCount, j);
  }

  // ---------------------------------------------------------------- the coverage gate

  /** The gate: every mutator is some first operation, and every ordered pair some later candidate's first two. */
  ghost predicate CoverageGate(cs: seq<Candidate>) {
    (forall m :: MutatorShown(cs, m)) && (forall a, b :: a != b ==> PairShown(cs, a, b))
  }

  ghost predicate MutatorShown(cs: seq<Candidate>, m: Mutator) {
    exists c :: c in cs && |c.operations| >= 1 && c.operations[0].mutator == m
  }

  ghost predicate PairShown(cs: seq<Candidate>, a: Mutator, b: Mutator) {
    exists c :: c in cs && ShowsPair(c, a, b)
  }

  predicate ShowsPair(c: Candidate, a: Mutator, b: Mutator) {
    c.index >= ORDER_LENGTH && |c.operations| >= 2 && c.operations[0].mutator == a && c.operations[1].mutator == b
  }

  lemma {:induction false} CandidateShows(c: Candidate, seed: Invoice, hashes: Hashes, campaignSeed: nat, index: nat, a: Mutator, b: Mutator)
    requires IsCandidate(c, seed, hashes, campaignSeed, index)
    ensures |c.operations| >= 1 && c.operations[0].mutator == Primary(index)
    ensures ShowsPair(c, a, b) <==> Pairs(index, a, b)
  {
    hide Payload, InvoiceAt, OperationsAt, Primary, Interaction;
    OperationsShape(hashes, campaignSeed, index);
  }

  /** The gate passes exactly when the corpus has at least four hundred candidates. */
  lemma {:induction false} GateExact(cs: seq<Candidate>, seed: Invoice, hashes: Hashes, campaignSeed: nat, count: nat)
    requires IsShard(cs, seed, hashes, campaignSeed, count, 0, 1)
    ensures CoverageGate(cs) <==> count >= 400
  {
    hide IsCandidate, CoverageGate, ShardSize;
    WholeSize(count);
    forall i | 0 <= i < count ensures IsCandidate(cs[i], seed, hashes, campaignSeed, i) {
      assert IsCandidate(cs[i], seed, hashes, campaignSeed, 0 + i * 1);
    }
    if count >= 400 {
      EnoughCandidates(cs, seed, hashes, campaignSeed, count);
    } else {
      TooFewCandidates(cs, seed, hashes, campaignSeed, count);
    }
  }

  lemma {:induction false} EnoughCandidates(cs: seq<Candidate>, seed: Invoice, hashes: Hashes, campaignSeed: nat, count: nat)
    requires |cs| == count >= 400
    requires forall i :: 0 <= i < count ==> IsCandidate(cs[i], seed, hashes, campaignSeed, i)
    ensures CoverageGate(cs)
  {
    hide IsCandidate, Pairs, Primary, Place, ShowsPair;
    forall m ensures MutatorShown(cs, m) {
      var i := Place(m);
      PrimaryOfPlace(m);
      CandidateShows(cs[i], seed, hashes, campaignSeed, i, m, m);
      assert cs[i] in cs;
    }
    forall a, b | a != b ensures PairShown(cs, a, b) {
      EveryPairOnce(ORDER_LENGTH, a, b);
      var i :| ORDER_LENGTH <= i < ORDER_LENGTH + 380 && Pairs(i, a, b);
      CandidateShows(cs[i], seed, hashes, campaignSeed, i, a, b);
      assert cs[i] in cs;
    }
  }

  lemma {:induction false} PrimaryOfPlace(m: Mutator)
    ensures Primary(Place(m)) == m
  {
    hide Place, Order;
  }

  /** The pair at index 399 is shown nowhere below it. */
  lemma {:induction false} TooFewCandidates(cs: seq<Candidate>, seed: Invoice, hashes: Hashes, campaignSeed: nat, count: nat)
    requires |cs| == count < 400
    requires forall i :: 0 <= i < count ==> IsCandidate(cs[i], seed, hashes, campaignSeed, i)
    ensures !CoverageGate(cs)
  {
    hide IsCandidate, Primary, Interaction, ShowsPair;
    var a, b := Primary(399), Interaction(399);
    assert Pairs(399, a, b);
    forall c | c in cs ensures !ShowsPair(c, a, b) {
      var i :| 0 <= i < |cs| && cs[i] == c;
      CandidateShows(c, seed, hashes, campaignSeed, i, a, b);
      EveryPairOnce(ORDER_LENGTH, a, b);
    }
    assert !PairShown(cs, a, b);
  }
}
