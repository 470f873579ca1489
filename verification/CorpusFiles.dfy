/** From a seed to the corpus directory: generation, the manifest, and the files, as one operation. */
module CorpusFiles {
  import opened Basics
  import opened Invoices
  import opened Trees
  import opened InvoiceRoundTrip
  import opened Corpus
  import opened Sharding
  import opened CorpusManifest
  import opened Files
  import opened Materialize

  /** The bytes of documents and manifests. */
  datatype Encoding = Encoding(document: Element -> seq<bv8>, manifest: Manifest -> seq<bv8>)

  function FilesOf(cs: seq<Candidate>, e: Encoding): (files: seq<CorpusFile>) {
    Map(cs, (c: Candidate) => CorpusFile(c.index, e.document(c.xml)))
  }

  lemma {:induction false} IndexOfShard(cs: seq<Candidate>, seed: Invoice, hashes: Hashes, campaignSeed: nat, count: nat,
    shardIndex: nat, shardCount: nat, j: nat)
    requires shardCount >= 1 && IsShard(cs, seed, hashes, campaignSeed, count, shardIndex, shardCount) && j < |cs|
    ensures IsCandidate(cs[j], seed, hashes, campaignSeed, shardIndex + j * shardCount)
    ensures cs[j].index == shardIndex + j * shardCount
  {
    hide InvoiceAt, OperationsAt, ShardSize;
    CandidateIndex(cs[j], seed, hashes, campaignSeed, shardIndex + j * shardCount);
  }

  lemma {:induction false} CandidateIndex(c: Candidate, seed: Invoice, hashes: Hashes, campaignSeed: nat, index: nat)
    ensures IsCandidate(c, seed, hashes, campaignSeed, index) ==> c.index == index
  {
    hide InvoiceAt, OperationsAt;
  }

  lemma {:induction false} SameSource(a: Candidate, b: Candidate, seed: Invoice, hashes: Hashes, campaignSeed: nat, i: nat, j: nat)
    requires IsCandidate(a, seed, hashes, campaignSeed, i) && IsCandidate(b, seed, hashes, campaignSeed, j)
    ensures SameOrigin(a, b)
  {
    hide InvoiceAt, OperationsAt;
  }

  /** The candidates of a shard share one provenance, and their files have different names. */
  lemma {:induction false} ShardIsWritable(cs: seq<Candidate>, e: Encoding, seed: Invoice, hashes: Hashes, campaignSeed: nat, count: nat,
    shardIndex: nat, shardCount: nat)
    requires shardCount >= 1 && IsShard(cs, seed, hashes, campaignSeed, count, shardIndex, shardCount)
    ensures OneProvenance(cs) && DistinctNumbers(FilesOf(cs, e))
    ensures ManifestOf(cs).Some? <==> cs != []
  {
    hide IsShard, IsCandidate, SameOrigin, ManifestFrom, SortByIndex;
    forall i, j | 0 <= i < j < |cs| ensures cs[i].index != cs[j].index {
      IndexOfShard(cs, seed, hashes, campaignSeed, count, shardIndex, shardCount, i);
      IndexOfShard(cs, seed, hashes, campaignSeed, count, shardIndex, shardCount, j);
      StepsGrow(i, j, shardCount);
    }
    forall i, j | 0 <= i < |cs| && 0 <= j < |cs| ensures SameOrigin(cs[i], cs[j]) {
      IndexOfShard(cs, seed, hashes, campaignSeed, count, shardIndex, shardCount, i);
      IndexOfShard(cs, seed, hashes, campaignSeed, count, shardIndex, shardCount, j);
      SameSource(cs[i], cs[j], seed, hashes, campaignSeed, shardIndex + i * shardCount, shardIndex + j * shardCount);
    }
  }

  /** The arguments determine the shard. */
  lemma {:induction false} OneShard(a: seq<Candidate>, b: seq<Candidate>, seed: Invoice, hashes: Hashes, campaignSeed: nat, count: nat,
    shardIndex: nat, shardCount: nat)
    requires shardCount >= 1 && IsShard(a, seed, hashes, campaignSeed, count, shardIndex, shardCount)
    requires IsShard(b, seed, hashes, campaignSeed, count, shardIndex, shardCount)
    ensures a == b
  {
    hide IsCandidate, ShardSize;
    forall j | 0 <= j < |a| ensures a[j] == b[j] {
      OneCandidate(a[j], b[j], seed, hashes, campaignSeed, shardIndex + j * shardCount);
    }
  }

  /** The directory holds exactly the shard that the arguments determine, under this manifest. */
  ghost predicate HoldsShard(t: Tree, out: Path, e: Encoding, m: Manifest, seed: Invoice, hashes: Hashes, campaignSeed: nat, count: nat,
    shardIndex: nat, shardCount: nat)
    requires shardCount >= 1
  {
    exists cs :: IsShard(cs, seed, hashes, campaignSeed, count, shardIndex, shardCount) && ManifestOf(cs) == Some(m)
      && Complete(t, out, FilesOf(cs, e), e.manifest(m))
  }

  /** What is planned for the directory by the arguments. */
  ghost predicate PlannedShard(cs: seq<Candidate>, m: Manifest, seed: Invoice, hashes: Hashes, campaignSeed: nat, count: nat,
    shardIndex: nat, shardCount: nat)
  {
    && ArgumentsOk(count, campaignSeed, shardIndex, shardCount) && shardIndex < count
    && IsShard(cs, seed, hashes, campaignSeed, count, shardIndex, shardCount) && ManifestOf(cs) == Some(m)
  }

  /** Nothing fails, the seed was read from a document, and it has what is asked for every index of the shard. */
  ghost predicate GeneratesCalmly(fs: FileSystem, operations: nat, seed: Invoice, hashes: Hashes, campaignSeed: nat, count: nat,
    shardIndex: nat, shardCount: nat)
    requires shardCount >= 1
    reads fs
  {
    CalmFrom(fs.faults, operations) && ValidInvoice(seed) && Readable(seed)
    && ShardGenerates(seed, hashes, campaignSeed, count, shardIndex, shardCount)
  }

  /**
   materialize_corpus: generate, describe, write. Nothing that exists changes; a refusal before the
   first directory leaves everything as it was. On success the directory holds exactly the shard of
   the arguments. Without faults, and for a seed that was read from a document, it succeeds exactly
   when generation does, the shard is not empty, and what is already there can be resumed.
   */
  method MaterializeShard(fs: FileSystem, out: Path, e: Encoding, seed: Invoice, hashes: Hashes, count: nat, campaignSeed: nat,
    shardIndex: nat, shardCount: nat, resume: bool)
    returns (r: Option<Manifest>)
    requires out != [] && WellFormed(fs.nodes)
    modifies fs
    ensures WellFormed(fs.nodes) && Keeps(old(fs.nodes), fs.nodes)
    ensures !ArgumentsOk(count, campaignSeed, shardIndex, shardCount) || shardIndex >= count ==> r.None? && fs.nodes == old(fs.nodes)
    ensures r.Some? ==> shardCount >= 1 && HoldsShard(fs.nodes, out, e, r.value, seed, hashes, campaignSeed, count, shardIndex, shardCount)
    ensures forall cs, m :: PlannedShard(cs, m, seed, hashes, campaignSeed, count, shardIndex, shardCount) ==>
      OnlyPlanned(old(fs.nodes), fs.nodes, out, FilesOf(cs, e), e.manifest(m))
    ensures shardCount >= 1 && ValidInvoice(seed) && Readable(seed) ==>
      (r.Some? ==> ShardGenerates(seed, hashes, campaignSeed, count, shardIndex, shardCount))
    ensures forall cs, m :: PlannedShard(cs, m, seed, hashes, campaignSeed, count, shardIndex, shardCount) ==>
      GeneratesCalmly(fs, old(fs.operations), seed, hashes, campaignSeed, count, shardIndex, shardCount) ==>
        (r.Some? <==> Resumable(old(fs.nodes), out, FilesOf(cs, e), e.manifest(m), resume))
  {
    hide IsShard, WellFormed, Keeps, OnlyPlanned, Complete, Resumable, ManifestFrom, OneProvenance, ValidInvoice, Readable, GoodSeed,
      ShardGenerates, DistinctFingerprints, FilesOf, DistinctNumbers, CalmFrom;
    ghost var t := fs.nodes;
    NothingPlanned(t, out);
    var candidates := GenerateCandidates(seed, hashes, count, campaignSeed, shardIndex, shardCount);
    if candidates.None? {
      return None;
    }
    ghost var cs := candidates.value;
    ShardIsWritable(cs, e, seed, hashes, campaignSeed, count, shardIndex, shardCount);
    EmptyShard(cs, seed, hashes, campaignSeed, count, shardIndex, shardCount);
    forall other, m | PlannedShard(other, m, seed, hashes, campaignSeed, count, shardIndex, shardCount) ensures other == cs {
      OneShard(other, cs, seed, hashes, campaignSeed, count, shardIndex, shardCount);
    }
    var manifest := CorpusManifest.CorpusManifest(candidates.value);
    if manifest.None? {
      return None;
    }
    var ok := MaterializeCorpus(fs, out, FilesOf(candidates.value, e), e.manifest(manifest.value), resume);
    r := if ok then manifest else None;
  }

  lemma {:induction false} NothingPlanned(t: Tree, out: Path)
    ensures Keeps(t, t) && forall files, manifest :: OnlyPlanned(t, t, out, files, manifest)
  {
    hide Planned;
  }

  lemma {:induction false} EmptyShard(cs: seq<Candidate>, seed: Invoice, hashes: Hashes, campaignSeed: nat, count: nat,
    shardIndex: nat, shardCount: nat)
    requires shardCount >= 1 && IsShard(cs, seed, hashes, campaignSeed, count, shardIndex, shardCount)
    ensures cs == [] <==> shardIndex >= count
  {
    hide AreCandidates;
    if shardIndex < count {
      SizeGrows(count, shardIndex, shardCount, 0);
    }
  }
}
