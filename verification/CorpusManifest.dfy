/** The corpus manifest: when it exists, that it does not depend on the order of the candidates, and what it fixes. */
module CorpusManifest {
  import opened Basics
  import opened Invoices
  import opened Json
  import opened Trees
  import opened Mutators
  import opened Schedule
  import opened Corpus
  import opened Sharding

  /** One entry of the list of candidates; the hash of a document stands for the document. */
  datatype Entry = Entry(fingerprint: Json, index: nat, operations: seq<MutationRecord>, xml: Element)

  /** What the corpus root hashes for one candidate. */
  datatype RootPart = RootPart(index: nat, fingerprint: Json, xml: Element)

  datatype Manifest = Manifest(
    campaignSeed: nat,
    entries: seq<Entry>,
    root: seq<RootPart>,
    interactions: set<(Mutator, Mutator)>,
    seedFingerprint: Json,
    seedSha256: string)

  // ---------------------------------------------------------------- sorting by index

  function Insert(c: Candidate, cs: seq<Candidate>): (r: seq<Candidate>) {
    if cs == [] || c.index < cs[0].index then [c] + cs else [cs[0]] + Insert(c, cs[1..])
  }

  function SortByIndex(cs: seq<Candidate>): (r: seq<Candidate>) {
    if cs == [] then [] else Insert(cs[|cs| - 1], SortByIndex(cs[..|cs| - 1]))
  }

  ghost predicate Ascending(cs: seq<Candidate>) {
    forall i, j :: 0 <= i < j < |cs| ==> cs[i].index <= cs[j].index
  }

  lemma {:induction false} AscendingCons(x: Candidate, rest: seq<Candidate>)
    requires Ascending(rest) && forall y :: y in rest ==> x.index <= y.index
    ensures Ascending([x] + rest)
  {
  }

  lemma {:induction false} InsertMembers(c: Candidate, cs: seq<Candidate>)
    ensures multiset(Insert(c, cs)) == multiset(cs) + multiset{c}
    ensures forall x :: x in Insert(c, cs) <==> x in cs || x == c
  {
    if cs != [] {
      assert cs == [cs[0]] + cs[1..];
      if c.index >= cs[0].index {
        InsertMembers(c, cs[1..]);
      }
    }
  }

  lemma {:induction false} InsertAscends(c: Candidate, cs: seq<Candidate>)
    requires Ascending(cs)
    ensures Ascending(Insert(c, cs))
  {
    if cs != [] && c.index >= cs[0].index {
      InsertAscends(c, cs[1..]);
      InsertMembers(c, cs[1..]);
      AscendingCons(cs[0], Insert(c, cs[1..]));
    }
  }

  lemma {:induction false} SortKeeps(cs: seq<Candidate>)
    ensures Ascending(SortByIndex(cs)) && multiset(SortByIndex(cs)) == multiset(cs)
  {
    if cs != [] {
      var init, last := cs[..|cs| - 1], cs[|cs| - 1];
      SortKeeps(init);
      InsertMembers(last, SortByIndex(init));
      InsertAscends(last, SortByIndex(init));
      assert cs == init + [last];
    }
  }

  ghost predicate DistinctIndices(cs: seq<Candidate>) {
    forall i, j :: 0 <= i < j < |cs| ==> cs[i].index != cs[j].index
  }

  lemma {:induction false} SameIndexSame(cs: seq<Candidate>, x: Candidate, y: Candidate)
    requires DistinctIndices(cs) && x in cs && y in cs && x.index == y.index
    ensures x == y
  {
  }

  lemma {:induction false} FirstIsLeast(cs: seq<Candidate>, x: Candidate)
    requires Ascending(cs) && x in cs
    ensures cs[0].index <= x.index
  {
  }

  lemma {:induction false} TailFacts(cs: seq<Candidate>)
    requires cs != [] && Ascending(cs) && DistinctIndices(cs)
    ensures Ascending(cs[1..]) && DistinctIndices(cs[1..]) && multiset(cs) == multiset{cs[0]} + multiset(cs[1..])
  {
    assert cs == [cs[0]] + cs[1..];
  }

  lemma {:induction false} SameFirst(a: seq<Candidate>, b: seq<Candidate>)
    requires Ascending(a) && Ascending(b) && DistinctIndices(b) && multiset(a) == multiset(b) && a != []
    ensures b != [] && a[0] == b[0]
  {
    hide Ascending, DistinctIndices;
    assert a[0] in multiset(b);
    assert b[0] in multiset(a);
    FirstIsLeast(a, b[0]);
    FirstIsLeast(b, a[0]);
    SameIndexSame(b, a[0], b[0]);
  }

  lemma {:induction false} TailMembers(cs: seq<Candidate>)
    requires cs != []
    ensures multiset(cs[1..]) == multiset(cs) - multiset{cs[0]}
  {
    assert cs == [cs[0]] + cs[1..];
  }

  /** Two ascending sequences with the same members and different indices are equal. */
  lemma {:induction false} AscendingOnce(a: seq<Candidate>, b: seq<Candidate>)
    requires Ascending(a) && Ascending(b) && DistinctIndices(a) && DistinctIndices(b) && multiset(a) == multiset(b)
    ensures a == b
  {
    hide Ascending, DistinctIndices;
    if a == [] {
      assert |multiset(b)| == |b|;
    } else {
      SameFirst(a, b);
      TailFacts(a);
      TailFacts(b);
      TailMembers(a);
      TailMembers(b);
      AscendingOnce(a[1..], b[1..]);
      assert a == [a[0]] + a[1..] && b == [b[0]] + b[1..];
    }
  }

  // ---------------------------------------------------------------- the manifest

  ghost predicate OneProvenance(cs: seq<Candidate>) {
    && DistinctIndices(cs)
    && forall i, j :: 0 <= i < |cs| && 0 <= j < |cs| ==> SameOrigin(cs[i], cs[j])
  }

  predicate SameOrigin(a: Candidate, b: Candidate) {
    a.campaignSeed == b.campaignSeed && a.seedSha256 == b.seedSha256 && a.seedFingerprint == b.seedFingerprint
  }

  function EntryOf(c: Candidate): (e: Entry) {
    Entry(c.fingerprint, c.index, c.operations, c.xml)
  }

  function PartOf(c: Candidate): (p: RootPart) {
    RootPart(c.index, c.fingerprint, c.xml)
  }

  predicate HasBucket(c: Candidate) {
    c.index >= ORDER_LENGTH && |c.operations| >= 2
  }

  function BucketOf(c: Candidate): (b: (Mutator, Mutator))
    requires HasBucket(c)
  {
    (c.operations[0].mutator, c.operations[1].mutator)
  }

  function Buckets(cs: seq<Candidate>): (bs: set<(Mutator, Mutator)>) {
    set c | c in cs && HasBucket(c) :: BucketOf(c)
  }

  function ManifestFrom(ordered: seq<Candidate>): (m: Manifest)
    requires ordered != []
  {
    Manifest(
      ordered[0].campaignSeed, Map(ordered, c => EntryOf(c)), Map(ordered, c => PartOf(c)), Buckets(ordered), ordered[0].seedFingerprint,
      ordered[0].seedSha256)
  }

  /** corpus_manifest as a function; None is the refusal of an empty or mixed corpus. */
  ghost function ManifestOf(cs: seq<Candidate>): (m: Option<Manifest>) {
    if cs == [] || !OneProvenance(cs) then None
    else
      assert SortByIndex(cs) != [] by { SortIsNotEmpty(cs); }
      Some(ManifestFrom(SortByIndex(cs)))
  }

  lemma {:induction false} SortIsNotEmpty(cs: seq<Candidate>)
    requires cs != []
    ensures SortByIndex(cs) != [] && |SortByIndex(cs)| == |cs|
  {
    SortKeeps(cs);
    assert |multiset(SortByIndex(cs))| == |SortByIndex(cs)| && |multiset(cs)| == |cs|;
  }

  function IndicesOf(cs: seq<Candidate>): (s: set<nat>) {
    set k | 0 <= k < |cs| :: cs[k].index
  }

  lemma {:induction false} IndicesSnoc(cs: seq<Candidate>, c: Candidate)
    ensures IndicesOf(cs + [c]) == IndicesOf(cs) + {c.index}
    ensures DistinctIndices(cs + [c]) <==> DistinctIndices(cs) && c.index !in IndicesOf(cs)
  {
    var all := cs + [c];
    assert all[|cs|] == c;
    assert forall k :: 0 <= k < |cs| ==> all[k] == cs[k];
  }

  lemma {:induction false} IndicesCounted(cs: seq<Candidate>)
    ensures |IndicesOf(cs)| <= |cs|
    ensures |IndicesOf(cs)| == |cs| <==> DistinctIndices(cs)
  {
    if cs != [] {
      hide IndicesOf, DistinctIndices;
      var init, last := cs[..|cs| - 1], cs[|cs| - 1];
      IndicesCounted(init);
      IndicesSnoc(init, last);
      assert cs == init + [last];
    }
  }

  /** Members, lengths and different indices do not depend on the order. */
  lemma {:induction false} ProvenanceIgnoresOrder(a: seq<Candidate>, b: seq<Candidate>)
    requires multiset(a) == multiset(b)
    ensures |a| == |b| && (OneProvenance(a) <==> OneProvenance(b))
  {
    assert |multiset(a)| == |a| && |multiset(b)| == |b|;
    assert forall c :: c in a <==> c in multiset(a);
    assert forall c :: c in b <==> c in multiset(b);
    SameIndices(a, b);
    IndicesCounted(a);
    IndicesCounted(b);
    if OneProvenance(a) {
      OriginKept(a, b);
    }
    if OneProvenance(b) {
      OriginKept(b, a);
    }
  }

  lemma {:induction false} OriginKept(a: seq<Candidate>, b: seq<Candidate>)
    requires OneProvenance(a) && DistinctIndices(b) && forall c :: c in b ==> c in a
    ensures OneProvenance(b)
  {
    forall i, j | 0 <= i < |b| && 0 <= j < |b| ensures SameOrigin(b[i], b[j]) {
      assert b[i] in a && b[j] in a;
    }
  }

  lemma {:induction false} SameIndices(a: seq<Candidate>, b: seq<Candidate>)
    requires forall c :: c in a <==> c in b
    ensures IndicesOf(a) == IndicesOf(b)
  {
    forall n | n in IndicesOf(a) ensures n in IndicesOf(b) {
      var k :| 0 <= k < |a| && a[k].index == n;
      assert a[k] in b;
    }
    forall n | n in IndicesOf(b) ensures n in IndicesOf(a) {
      var k :| 0 <= k < |b| && b[k].index == n;
      assert b[k] in a;
    }
  }

  /**
   corpus_manifest: an empty corpus, a repeated index or a second provenance is refused; otherwise
   the loops over the sorted candidates give the manifest.
   */
  method CorpusManifest(candidates: seq<Candidate>) returns (r: Option<Manifest>)
    ensures r == ManifestOf(candidates)
  {
    hide SortByIndex, DistinctIndices, EntryOf, PartOf, BucketOf, Map;
    if candidates == [] {
      return None;
    }
    var ordered := SortByIndex(candidates);
    SortIsNotEmpty(candidates);
    SortKeeps(candidates);
    ProvenanceIgnoresOrder(candidates, ordered);
    var first := ordered[0];
    var indices: set<nat> := {};
    var mixed := false;
    for i := 0 to |ordered|
      invariant indices == IndicesOf(ordered[..i])
      invariant !mixed <==> forall k :: 0 <= k < i ==> SameOrigin(ordered[k], first)
    {
      assert ordered[..i + 1] == ordered[..i] + [ordered[i]];
      indices := indices + {ordered[i].index};
      mixed := mixed || !SameOrigin(ordered[i], first);
    }
    assert ordered[..|ordered|] == ordered;
    IndicesCounted(ordered);
    if |indices| != |ordered| || mixed {
      return None;
    }
    var root, entries, interactions := WriteParts(ordered);
    r := Some(Manifest(first.campaignSeed, entries, root, interactions, first.seedFingerprint, first.seedSha256));
  }

  method WriteParts(ordered: seq<Candidate>) returns (root: seq<RootPart>, entries: seq<Entry>, interactions: set<(Mutator, Mutator)>)
    ensures root == Map(ordered, c => PartOf(c)) && entries == Map(ordered, c => EntryOf(c)) && interactions == Buckets(ordered)
  {
    hide HasBucket, BucketOf;
    root, entries, interactions := [], [], {};
    for i := 0 to |ordered|
      invariant root == Map(ordered[..i], c => PartOf(c)) && entries == Map(ordered[..i], c => EntryOf(c))
      invariant interactions == Buckets(ordered[..i])
    {
      var c := ordered[i];
      assert ordered[..i + 1] == ordered[..i] + [c];
      BucketsSnoc(ordered[..i], c);
      root, entries := root + [PartOf(c)], entries + [EntryOf(c)];
      if HasBucket(c) {
        interactions := interactions + {BucketOf(c)};
      }
    }
    assert ordered[..|ordered|] == ordered;
  }

  lemma {:induction false} BucketsSnoc(cs: seq<Candidate>, c: Candidate)
    ensures Buckets(cs + [c]) == Buckets(cs) + if HasBucket(c) then {BucketOf(c)} else {}
  {
    hide HasBucket, BucketOf;
    assert forall x :: x in cs + [c] <==> x in cs || x == c;
  }

  // ---------------------------------------------------------------- what it fixes

  /** Corpora with a manifest have the same manifest if and only if they have the same candidates, in any order. */
  lemma {:induction false} ManifestExact(a: seq<Candidate>, b: seq<Candidate>)
    requires ManifestOf(a).Some?
    ensures ManifestOf(a) == ManifestOf(b) <==> multiset(a) == multiset(b)
  {
    hide SortByIndex, OneProvenance, ManifestFrom;
    SortIsNotEmpty(a);
    SortKeeps(a);
    if multiset(a) == multiset(b) {
      SortKeeps(b);
      ProvenanceIgnoresOrder(a, b);
      ProvenanceIgnoresOrder(a, SortByIndex(a));
      ProvenanceIgnoresOrder(a, SortByIndex(b));
      DistinctOf(SortByIndex(a));
      DistinctOf(SortByIndex(b));
      AscendingOnce(SortByIndex(a), SortByIndex(b));
    }
    if ManifestOf(a) == ManifestOf(b) {
      SortIsNotEmpty(b);
      SortKeeps(b);
      ProvenanceIgnoresOrder(a, SortByIndex(a));
      ProvenanceIgnoresOrder(b, SortByIndex(b));
      FromInjective(SortByIndex(a), SortByIndex(b));
    }
  }

  lemma {:induction false} DistinctOf(cs: seq<Candidate>)
    requires OneProvenance(cs)
    ensures DistinctIndices(cs)
  {
  }

  lemma {:induction false} FromInjective(x: seq<Candidate>, y: seq<Candidate>)
    requires x != [] && y != [] && OneProvenance(x) && OneProvenance(y) && ManifestFrom(x) == ManifestFrom(y)
    ensures x == y
  {
    hide DistinctIndices, Buckets;
    var p, q := ManifestFrom(x).entries, ManifestFrom(y).entries;
    assert |p| == |x| && |q| == |y|;
    forall i | 0 <= i < |x| ensures x[i] == y[i] {
      assert p[i] == EntryOf(x[i]) && q[i] == EntryOf(y[i]);
      assert SameOrigin(x[i], x[0]) && SameOrigin(y[i], y[0]);
    }
  }

  // ---------------------------------------------------------------- shards

  /** Different places hold different indices. */
  ghost predicate Apart(shards: seq<seq<Candidate>>) {
    forall s, i, t, j ::
      0 <= s < |shards| && 0 <= i < |shards[s]| && 0 <= t < |shards| && 0 <= j < |shards[t]| ==>
        (shards[s][i].index == shards[t][j].index ==> s == t && i == j)
  }

  lemma {:induction false} FlattenApart(shards: seq<seq<Candidate>>)
    requires Apart(shards)
    ensures DistinctIndices(Flatten(shards))
  {
    if shards != [] {
      var first, rest := shards[0], Flatten(shards[1..]);
      assert forall s :: 0 <= s < |shards[1..]| ==> shards[1..][s] == shards[s + 1];
      FlattenApart(shards[1..]);
      forall i, c | 0 <= i < |first| && c in rest ensures first[i].index != c.index {
        var s :| 0 <= s < |shards[1..]| && c in shards[1..][s];
        var j :| 0 <= j < |shards[s + 1]| && shards[s + 1][j] == c;
        assert shards[0][i].index != shards[s + 1][j].index;
      }
      DistinctJoin(first, rest);
    }
  }

  lemma {:induction false} DistinctJoin(a: seq<Candidate>, b: seq<Candidate>)
    requires DistinctIndices(a) && DistinctIndices(b) && forall i, c :: 0 <= i < |a| && c in b ==> a[i].index != c.index
    ensures DistinctIndices(a + b)
  {
    forall i, j | 0 <= i < j < |a + b| ensures (a + b)[i].index != (a + b)[j].index {
      if i < |a| <= j {
        assert b[j - |a|] in b;
      }
    }
  }

  lemma {:induction false} SameMembers(a: seq<Candidate>, b: seq<Candidate>)
    requires DistinctIndices(a) && DistinctIndices(b) && forall c :: c in a <==> c in b
    ensures multiset(a) == multiset(b)
  {
    forall c ensures multiset(a)[c] == multiset(b)[c] {
      OnceAtMost(a, c);
      OnceAtMost(b, c);
    }
  }

  lemma {:induction false} OnceAtMost(cs: seq<Candidate>, c: Candidate)
    requires DistinctIndices(cs)
    ensures multiset(cs)[c] == if c in cs then 1 else 0
  {
    if cs != [] {
      var init, last := cs[..|cs| - 1], cs[|cs| - 1];
      OnceAtMost(init, c);
      assert cs == init + [last];
      forall k | 0 <= k < |init| ensures init[k] != last {
        assert cs[k].index != cs[|cs| - 1].index;
      }
    }
  }

  lemma {:induction false} IndexIs(c: Candidate, seed: Invoice, hashes: Hashes, campaignSeed: nat, index: nat)
    requires IsCandidate(c, seed, hashes, campaignSeed, index)
    ensures c.index == index && c.campaignSeed == campaignSeed
    ensures forall d, i :: IsCandidate(d, seed, hashes, campaignSeed, i) ==> SameOrigin(c, d)
  {
    hide InvoiceAt, OperationsAt;
  }

  lemma {:induction false} CorpusHasManifest(all: seq<Candidate>, seed: Invoice, hashes: Hashes, campaignSeed: nat, count: nat)
    requires IsShard(all, seed, hashes, campaignSeed, count, 0, 1) && count >= 1
    ensures |all| == count && OneProvenance(all) && ManifestOf(all).Some?
    ensures forall i :: 0 <= i < count ==> all[i].index == i
  {
    hide IsCandidate, ShardSize;
    WholeSize(count);
    forall i | 0 <= i < count
      ensures all[i].index == i && forall j :: 0 <= j < count ==> SameOrigin(all[i], all[j])
    {
      assert IsCandidate(all[i], seed, hashes, campaignSeed, 0 + i * 1);
      IndexIs(all[i], seed, hashes, campaignSeed, i);
      forall j | 0 <= j < count ensures SameOrigin(all[i], all[j]) {
        assert IsCandidate(all[j], seed, hashes, campaignSeed, 0 + j * 1);
      }
    }
  }

  /** The shards of a corpus, put together in any order, have the manifest of the unsharded corpus. */
  lemma {:induction false} ShardsShareManifest(shards: seq<seq<Candidate>>, all: seq<Candidate>, joined: seq<Candidate>, seed: Invoice, hashes: Hashes,
    campaignSeed: nat, count: nat)
    requires |shards| >= 1 && count >= 1 && IsShard(all, seed, hashes, campaignSeed, count, 0, 1)
    requires forall s :: 0 <= s < |shards| ==> IsShard(shards[s], seed, hashes, campaignSeed, count, s, |shards|)
    requires multiset(joined) == multiset(Flatten(shards))
    ensures ManifestOf(joined) == ManifestOf(all) && ManifestOf(all).Some?
  {
    hide IsShard, ManifestOf, OneProvenance, SortByIndex, DistinctIndices;
    ShardsMerge(shards, all, seed, hashes, campaignSeed, count);
    CorpusHasManifest(all, seed, hashes, campaignSeed, count);
    DistinctOf(all);
    MergedApart(shards, all);
    FlattenApart(shards);
    MergedMembers(shards, all);
    SameMembers(all, Flatten(shards));
    ManifestExact(all, joined);
  }

  lemma {:induction false} MergedApart(shards: seq<seq<Candidate>>, all: seq<Candidate>)
    requires |shards| >= 1 && Merges(shards, all) && forall i :: 0 <= i < |all| ==> all[i].index == i
    ensures Apart(shards)
  {
    var k := |shards|;
    forall s, i | 0 <= s < k && 0 <= i < |shards[s]| ensures shards[s][i].index == s + i * k {
      assert HasAt(all, s + i * k, shards[s][i]);
    }
    forall s, i, t, j | 0 <= s < k && 0 <= i < |shards[s]| && 0 <= t < k && 0 <= j < |shards[t]|
      && shards[s][i].index == shards[t][j].index
      ensures s == t && i == j
    {
      SameResidue(s, i, t, j, k);
    }
  }

  lemma {:induction false} SameResidue(s: nat, i: nat, t: nat, j: nat, k: nat)
    requires s < k && t < k && s + i * k == t + j * k
    ensures s == t && i == j
  {
    if i < j {
      Further(i, j - i, k);
    } else if j < i {
      Further(j, i - j, k);
    }
  }

  lemma {:induction false} Further(i: nat, d: nat, k: nat)
    requires d >= 1
    ensures (i + d) * k >= i * k + k
  {
    assert (i + d) * k == i * k + k + (d - 1) * k;
  }

  lemma {:induction false} MergedMembers(shards: seq<seq<Candidate>>, all: seq<Candidate>)
    requires |shards| >= 1 && Merges(shards, all)
    ensures forall c :: c in all <==> c in Flatten(shards)
  {
    hide Merges, Flatten;
    forall c ensures c in all <==> c in Flatten(shards) {
      if c in all {
        InSomeShard(shards, all, c);
      }
      if c in Flatten(shards) {
        InAll(shards, all, c);
      }
    }
  }

  lemma {:induction false} InSomeShard(shards: seq<seq<Candidate>>, all: seq<Candidate>, c: Candidate)
    requires |shards| >= 1 && Merges(shards, all) && c in all
    ensures c in Flatten(shards)
  {
    hide Flatten, Merges;
    var i :| 0 <= i < |all| && all[i] == c;
    var s := PlaceInShards(shards, all, i);
    assert c in shards[s];
  }

  lemma {:induction false} PlaceInShards(shards: seq<seq<Candidate>>, all: seq<Candidate>, i: nat) returns (s: nat)
    requires |shards| >= 1 && Merges(shards, all) && i < |all|
    ensures s < |shards| && all[i] in shards[s]
  {
    s := i % |shards|;
    assert HasAt(shards[s], i / |shards|, all[i]);
  }

  lemma {:induction false} InAll(shards: seq<seq<Candidate>>, all: seq<Candidate>, c: Candidate)
    requires |shards| >= 1 && Merges(shards, all) && c in Flatten(shards)
    ensures c in all
  {
    hide Flatten, Merges;
    var s :| 0 <= s < |shards| && c in shards[s];
    var j :| 0 <= j < |shards[s]| && shards[s][j] == c;
    PlaceInAll(shards, all, s, j);
  }

  lemma {:induction false} PlaceInAll(shards: seq<seq<Candidate>>, all: seq<Candidate>, s: nat, j: nat)
    requires |shards| >= 1 && Merges(shards, all) && s < |shards| && j < |shards[s]|
    ensures shards[s][j] in all
  {
    assert HasAt(all, s + j * |shards|, shards[s][j]);
  }

  lemma {:induction false} PairsShown(all: seq<Candidate>, seed: Invoice, hashes: Hashes, campaignSeed: nat, count: nat, a: Mutator, b: Mutator)
    requires IsShard(all, seed, hashes, campaignSeed, count, 0, 1)
    ensures (exists c :: c in all && ShowsPair(c, a, b)) <==> exists i :: 0 <= i < count && Pairs(i, a, b)
  {
    hide IsCandidate, ShardSize, Pairs, ShowsPair;
    WholeSize(count);
    forall i | 0 <= i < count ensures ShowsPair(all[i], a, b) <==> Pairs(i, a, b) {
      assert IsCandidate(all[i], seed, hashes, campaignSeed, 0 + i * 1);
      CandidateShows(all[i], seed, hashes, campaignSeed, i, a, b);
    }
    if c :| c in all && ShowsPair(c, a, b) {
      var i :| 0 <= i < count && all[i] == c;
      assert Pairs(i, a, b);
    }
    if i :| 0 <= i < count && Pairs(i, a, b) {
      assert all[i] in all && ShowsPair(all[i], a, b);
    }
  }

  /** The buckets listed in the manifest of a corpus are the ordered pairs that its later indices show. */
  lemma {:induction false} BucketsExact(all: seq<Candidate>, seed: Invoice, hashes: Hashes, campaignSeed: nat, count: nat, a: Mutator, b: Mutator)
    requires IsShard(all, seed, hashes, campaignSeed, count, 0, 1) && count >= 1
    ensures ManifestOf(all).Some?
    ensures (a, b) in ManifestOf(all).value.interactions <==> exists i :: 0 <= i < count && Pairs(i, a, b)
  {
    hide IsShard, SortByIndex, OneProvenance, Pairs, DistinctIndices, ShowsPair, Buckets, Map, EntryOf, PartOf;
    CorpusHasManifest(all, seed, hashes, campaignSeed, count);
    SortKeeps(all);
    var sorted := SortByIndex(all);
    assert forall c :: c in sorted <==> c in multiset(sorted);
    assert forall c :: c in all <==> c in multiset(all);
    BucketShown(sorted, a, b);
    PairsShown(all, seed, hashes, campaignSeed, count, a, b);
  }

  lemma {:induction false} BucketShown(cs: seq<Candidate>, a: Mutator, b: Mutator)
    ensures (a, b) in Buckets(cs) <==> exists c :: c in cs && ShowsPair(c, a, b)
  {
    if (a, b) in Buckets(cs) {
      var c :| c in cs && HasBucket(c) && BucketOf(c) == (a, b);
      assert ShowsPair(c, a, b);
    }
  }
}
