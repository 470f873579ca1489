/** Writing a corpus directory, and resuming after an interruption. */
module Materialize {
  import opened Basics
  import opened Digits
  import opened Files

  const CASE_LIMIT := 2 * 1024 * 1024
  const MANIFEST_LIMIT := 32 * 1024 * 1024

  /** The number and the bytes of one candidate. */
  datatype CorpusFile = CorpusFile(index: nat, data: seq<bv8>)

  function CasesPath(out: Path): (p: Path) {
    out + ["cases"]
  }

  function ManifestPath(out: Path): (p: Path) {
    out + ["corpus.json"]
  }

  function CaseName(index: nat): (name: string) {
    "case-" + Padded(index, 6) + ".xml"
  }

  function CasePath(out: Path, index: nat): (p: Path) {
    out + ["cases", CaseName(index)]
  }

  ghost predicate DistinctNumbers(files: seq<CorpusFile>) {
    forall i, j :: 0 <= i < j < |files| ==> files[i].index != files[j].index
  }

  /** The path is one that a complete corpus has, and this is what stands there. */
  ghost predicate Planned(out: Path, files: seq<CorpusFile>, manifest: seq<bv8>, p: Path, n: Node) {
    || (p == out && n == Directory)
    || (p == CasesPath(out) && n == Directory)
    || (p == ManifestPath(out) && n == File(manifest))
    || (exists i :: StandsFor(out, files, i, p, n))
  }

  lemma {:induction false} CasePathsDiffer(out: Path, i: nat, j: nat)
    requires CasePath(out, i) == CasePath(out, j)
    ensures i == j
  {
    hide Padded;
    assert CasePath(out, i)[|out| + 1] == CaseName(i) && CasePath(out, j)[|out| + 1] == CaseName(j);
    var x, y := Padded(i, 6), Padded(j, 6);
    assert |CaseName(i)| == |x| + 9 && |CaseName(j)| == |y| + 9;
    assert CaseName(i)[5..5 + |x|] == x && CaseName(j)[5..5 + |y|] == y;
    PaddedInjective(i, j, 6);
  }

  lemma {:induction false} PathsApart(out: Path, index: nat)
    ensures CasesPath(out) != out && ManifestPath(out) != out && CasesPath(out) != ManifestPath(out)
    ensures |CasePath(out, index)| == |out| + 2
    ensures Parent(CasesPath(out)) == out && Parent(ManifestPath(out)) == out && Parent(CasePath(out, index)) == CasesPath(out)
  {
    assert CasesPath(out)[|out|] == "cases" && ManifestPath(out)[|out|] == "corpus.json";
    assert CasesPath(out) != ManifestPath(out);
    assert Parent(CasePath(out, index)) == out + ["cases"];
  }

  predicate StandsFor(out: Path, files: seq<CorpusFile>, i: int, p: Path, n: Node) {
    0 <= i < |files| && p == CasePath(out, files[i].index) && n == File(files[i].data)
  }

  /** Each planned path has one planned content. */
  lemma {:induction false} PlanIsFunction(out: Path, files: seq<CorpusFile>, manifest: seq<bv8>, p: Path, a: Node, b: Node)
    requires DistinctNumbers(files) && Planned(out, files, manifest, p, a) && Planned(out, files, manifest, p, b)
    ensures a == b
  {
    hide CasePath;
    PathsApart(out, 0);
    if i, j :| StandsFor(out, files, i, p, a) && StandsFor(out, files, j, p, b) {
      CasePathsDiffer(out, files[i].index, files[j].index);
    } else if i :| 0 <= i < |files| && p == CasePath(out, files[i].index) {
      PathsApart(out, files[i].index);
    }
  }

  /** Nothing that was there changes. */
  predicate Keeps(a: Tree, b: Tree) {
    forall p :: p in a ==> p in b && b[p] == a[p]
  }

  /** Everything new is planned. */
  ghost predicate OnlyPlanned(a: Tree, b: Tree, out: Path, files: seq<CorpusFile>, manifest: seq<bv8>) {
    forall p :: p in b && p !in a ==> Planned(out, files, manifest, p, b[p])
  }

  ghost predicate Complete(t: Tree, out: Path, files: seq<CorpusFile>, manifest: seq<bv8>) {
    forall p, n :: Planned(out, files, manifest, p, n) ==> p in t && t[p] == n
  }

  /** A path either is free, or holds exactly these bytes and no more than the limit. */
  predicate Matches(t: Tree, p: Path, data: seq<bv8>, limit: nat) {
    p in t ==> t[p] == File(data) && |data| <= limit
  }

  /** The state of the output directory from which a run can finish. */
  ghost predicate Resumable(t: Tree, out: Path, files: seq<CorpusFile>, manifest: seq<bv8>, resume: bool)
    requires out != []
  {
    && (out in t ==> resume && t[out] == Directory && OnlyExpected(t, out))
    && (out !in t ==> IsDirectory(t, Parent(out)))
    && (CasesPath(out) in t ==> t[CasesPath(out)] == Directory)
    && (forall i :: 0 <= i < |files| ==> Matches(t, CasePath(out, files[i].index), files[i].data, CASE_LIMIT))
    && Matches(t, ManifestPath(out), manifest, MANIFEST_LIMIT)
  }

  predicate OnlyExpected(t: Tree, out: Path) {
    forall q :: q in t.Keys && IsChild(q, out) ==> q == CasesPath(out) || q == ManifestPath(out)
  }

  /** Write one file, or compare it with what is there. */
  method PutFile(fs: FileSystem, p: Path, data: seq<bv8>, limit: nat) returns (ok: bool)
    requires p != [] && IsDirectory(fs.nodes, Parent(p))
    modifies fs
    ensures fs.nodes == old(fs.nodes) || (p !in old(fs.nodes) && fs.nodes == old(fs.nodes)[p := File(data)])
    ensures ok ==> p in fs.nodes && fs.nodes[p] == File(data) && Matches(old(fs.nodes), p, data, limit)
    ensures CalmFrom(fs.faults, old(fs.operations)) ==> (ok <==> Matches(old(fs.nodes), p, data, limit))
    ensures fs.operations >= old(fs.operations)
    ensures !ok && Matches(old(fs.nodes), p, data, limit) ==> fs.operations > old(fs.operations)
  {
    if p in fs.nodes {
      ok := fs.nodes[p].File? && |fs.nodes[p].data| <= limit && fs.nodes[p].data == data;
    } else {
      ok := fs.WriteNew(p, data);
    }
  }

  /** A directory stands there, or can be made there. */
  predicate CanStand(t: Tree, p: Path)
    requires p != []
  {
    (p in t ==> t[p] == Directory) && (p !in t ==> IsDirectory(t, Parent(p)))
  }

  /** The directory, made or accepted. */
  method PutDirectory(fs: FileSystem, p: Path) returns (ok: bool)
    requires p != [] && WellFormed(fs.nodes)
    modifies fs
    ensures fs.nodes == old(fs.nodes) || (p !in old(fs.nodes) && fs.nodes == old(fs.nodes)[p := Directory])
    ensures WellFormed(fs.nodes)
    ensures !ok ==> fs.nodes == old(fs.nodes)
    ensures ok ==> IsDirectory(fs.nodes, p)
    ensures ok ==> CanStand(old(fs.nodes), p)
    ensures CalmFrom(fs.faults, old(fs.operations)) ==> (ok <==> CanStand(old(fs.nodes), p))
    ensures fs.operations >= old(fs.operations)
    ensures !ok && CanStand(old(fs.nodes), p) ==> fs.operations > old(fs.operations)
  {
    if p in fs.nodes {
      ok := fs.nodes[p] == Directory;
    } else {
      ok := fs.MakeDirectory(p);
    }
  }

  predicate Untouched(t: Tree, before: Tree, p: Path) {
    (p in t <==> p in before) && (p in t ==> t[p] == before[p])
  }

  predicate Written(t: Tree, before: Tree, out: Path, f: CorpusFile) {
    var p := CasePath(out, f.index);
    p in t && t[p] == File(f.data) && Matches(before, p, f.data, CASE_LIMIT)
  }

  /** The directories exist, the first k cases are in place, and the rest is as before. */
  ghost predicate Stage(t0: Tree, t: Tree, out: Path, files: seq<CorpusFile>, manifest: seq<bv8>, k: nat) {
    && WellFormed(t) && IsDirectory(t, out) && IsDirectory(t, CasesPath(out))
    && Keeps(t0, t) && OnlyPlanned(t0, t, out, files, manifest)
    && (forall i :: 0 <= i < k && i < |files| ==> Written(t, t0, out, files[i]))
    && (forall i :: k <= i < |files| ==> Untouched(t, t0, CasePath(out, files[i].index)))
    && Untouched(t, t0, ManifestPath(out))
  }

  predicate HasFile(t: Tree, p: Path, data: seq<bv8>) {
    p in t && t[p] == File(data)
  }

  /** One planned node is added, or nothing. */
  predicate Adds(a: Tree, b: Tree, p: Path, n: Node) {
    b == a || (p !in a && b == a[p := n])
  }

  lemma {:induction false} AddPlanned(t0: Tree, a: Tree, b: Tree, p: Path, n: Node, out: Path, files: seq<CorpusFile>, manifest: seq<bv8>)
    requires WellFormed(a) && Keeps(t0, a) && OnlyPlanned(t0, a, out, files, manifest)
    requires Adds(a, b, p, n) && p != [] && IsDirectory(a, Parent(p)) && Planned(out, files, manifest, p, n)
    ensures WellFormed(b) && Keeps(t0, b) && OnlyPlanned(t0, b, out, files, manifest)
  {
    hide Planned;
  }

  lemma {:induction false} CaseStep(t0: Tree, a: Tree, b: Tree, out: Path, files: seq<CorpusFile>, manifest: seq<bv8>, k: nat)
    requires Stage(t0, a, out, files, manifest, k) && k < |files| && DistinctNumbers(files) && out != []
    requires Adds(a, b, CasePath(out, files[k].index), File(files[k].data))
    ensures WellFormed(b) && Keeps(t0, b) && OnlyPlanned(t0, b, out, files, manifest)
    ensures HasFile(b, CasePath(out, files[k].index), files[k].data) ==>
      Matches(a, CasePath(out, files[k].index), files[k].data, CASE_LIMIT) ==> Stage(t0, b, out, files, manifest, k + 1)
  {
    hide CasePath, CasesPath, ManifestPath, WellFormed, OnlyPlanned;
    var p := CasePath(out, files[k].index);
    PathsApart(out, files[k].index);
    CaseIsPlanned(out, files, manifest, k);
    AddPlanned(t0, a, b, p, File(files[k].data), out, files, manifest);
    forall i | 0 <= i < |files| && i != k ensures CasePath(out, files[i].index) != p {
      if CasePath(out, files[i].index) == p {
        CasePathsDiffer(out, files[i].index, files[k].index);
      }
    }
  }

  lemma {:induction false} CaseIsPlanned(out: Path, files: seq<CorpusFile>, manifest: seq<bv8>, k: nat)
    requires k < |files|
    ensures Planned(out, files, manifest, CasePath(out, files[k].index), File(files[k].data))
  {
    hide CasePath;
    assert StandsFor(out, files, k, CasePath(out, files[k].index), File(files[k].data));
  }

  /** What the directories need to be before a run. */
  predicate DirectoriesOk(t: Tree, out: Path, resume: bool)
    requires out != []
  {
    && (out in t ==> resume && t[out] == Directory && OnlyExpected(t, out))
    && (out !in t ==> IsDirectory(t, Parent(out)))
    && (CasesPath(out) in t ==> t[CasesPath(out)] == Directory)
  }

  method PutDirectories(fs: FileSystem, out: Path, ghost files: seq<CorpusFile>, ghost manifest: seq<bv8>, resume: bool) returns (ok: bool)
    requires out != [] && WellFormed(fs.nodes)
    modifies fs
    ensures WellFormed(fs.nodes) && Keeps(old(fs.nodes), fs.nodes) && OnlyPlanned(old(fs.nodes), fs.nodes, out, files, manifest)
    ensures ok ==> DirectoriesOk(old(fs.nodes), out, resume) && Stage(old(fs.nodes), fs.nodes, out, files, manifest, 0)
    ensures CalmFrom(fs.faults, old(fs.operations)) ==> (ok <==> DirectoriesOk(old(fs.nodes), out, resume))
    ensures fs.operations >= old(fs.operations)
    ensures !ok && DirectoriesOk(old(fs.nodes), out, resume) ==> fs.operations > old(fs.operations)
  {
    hide CasePath, CasesPath, ManifestPath, OnlyPlanned, Keeps, Stage, OnlyExpected;
    PathsApart(out, 0);
    StartsKept(fs.nodes, out, files, manifest);
    ghost var t0 := fs.nodes;
    if out in fs.nodes && (!resume || fs.nodes[out] != Directory || !OnlyExpected(fs.nodes, out)) {
      return false;
    }
    ok := PutDirectory(fs, out);
    if !ok {
      return;
    }
    AddPlanned(t0, t0, fs.nodes, out, Directory, out, files, manifest);
    ghost var t1 := fs.nodes;
    ok := PutDirectory(fs, CasesPath(out));
    AddPlanned(t0, t1, fs.nodes, CasesPath(out), Directory, out, files, manifest);
    if ok {
      DirectoriesStage(t0, t1, fs.nodes, out, files, manifest);
    }
  }

  lemma {:induction false} StartsKept(t: Tree, out: Path, files: seq<CorpusFile>, manifest: seq<bv8>)
    ensures Keeps(t, t) && OnlyPlanned(t, t, out, files, manifest)
    ensures Planned(out, files, manifest, out, Directory) && Planned(out, files, manifest, CasesPath(out), Directory)
  {
  }

  lemma {:induction false} DirectoriesStage(t0: Tree, t1: Tree, t2: Tree, out: Path, files: seq<CorpusFile>, manifest: seq<bv8>)
    requires Adds(t0, t1, out, Directory) && Adds(t1, t2, CasesPath(out), Directory)
    requires WellFormed(t2) && Keeps(t0, t2) && OnlyPlanned(t0, t2, out, files, manifest)
    requires IsDirectory(t1, out) && IsDirectory(t2, CasesPath(out))
    ensures Stage(t0, t2, out, files, manifest, 0)
  {
    hide CasePath, CasesPath, ManifestPath, WellFormed, OnlyPlanned, Keeps;
    PathsApart(out, 0);
    CasesIsLonger(out);
    forall i | 0 <= i < |files| ensures |CasePath(out, files[i].index)| == |out| + 2 {
      PathsApart(out, files[i].index);
    }
  }

  lemma {:induction false} CasesIsLonger(out: Path)
    ensures |CasesPath(out)| == |ManifestPath(out)| == |out| + 1
  {
  }

  /**
   materialize_corpus. Whatever happens, nothing that existed changes and everything new is
   planned. It succeeds only on a resumable directory, and always on one when no operation fails;
   and then the directory holds the complete corpus.
   */
  method MaterializeCorpus(fs: FileSystem, out: Path, files: seq<CorpusFile>, manifest: seq<bv8>, resume: bool) returns (ok: bool)
    requires out != [] && WellFormed(fs.nodes) && DistinctNumbers(files)
    modifies fs
    ensures WellFormed(fs.nodes) && Keeps(old(fs.nodes), fs.nodes) && OnlyPlanned(old(fs.nodes), fs.nodes, out, files, manifest)
    ensures ok ==> Complete(fs.nodes, out, files, manifest) && Resumable(old(fs.nodes), out, files, manifest, resume)
    ensures CalmFrom(fs.faults, old(fs.operations)) ==> (ok <==> Resumable(old(fs.nodes), out, files, manifest, resume))
    ensures fs.operations >= old(fs.operations)
    ensures !ok && Resumable(old(fs.nodes), out, files, manifest, resume) ==> fs.operations > old(fs.operations)
  {
    hide CasePath, CasesPath, ManifestPath, WellFormed, OnlyPlanned, Keeps, Stage, DirectoriesOk, Complete, Resumable;
    ghost var t0 := fs.nodes;
    ok := PutDirectories(fs, out, files, manifest, resume);
    if !ok {
      NotResumable(t0, out, files, manifest, resume);
      return;
    }
    for i := 0 to |files|
      invariant Stage(t0, fs.nodes, out, files, manifest, i)
      invariant fs.operations >= old(fs.operations)
    {
      var p := CasePath(out, files[i].index);
      StageFacts(t0, fs.nodes, out, files, manifest, i);
      ghost var a := fs.nodes;
      ok := PutFile(fs, p, files[i].data, CASE_LIMIT);
      CaseStep(t0, a, fs.nodes, out, files, manifest, i);
      if !ok {
        NotResumable(t0, out, files, manifest, resume);
        return;
      }
    }
    StageFacts(t0, fs.nodes, out, files, manifest, |files|);
    ghost var a := fs.nodes;
    ok := PutFile(fs, ManifestPath(out), manifest, MANIFEST_LIMIT);
    AddPlanned(t0, a, fs.nodes, ManifestPath(out), File(manifest), out, files, manifest);
    if ok {
      AllWritten(t0, a, fs.nodes, out, files, manifest, resume);
    } else {
      NotResumable(t0, out, files, manifest, resume);
    }
  }

  /** Any single failed condition makes the directory impossible to resume. */
  lemma {:induction false} NotResumable(t: Tree, out: Path, files: seq<CorpusFile>, manifest: seq<bv8>, resume: bool)
    requires out != []
    ensures !DirectoriesOk(t, out, resume) ==> !Resumable(t, out, files, manifest, resume)
    ensures forall i :: 0 <= i < |files| && !Matches(t, CasePath(out, files[i].index), files[i].data, CASE_LIMIT) ==>
      !Resumable(t, out, files, manifest, resume)
    ensures !Matches(t, ManifestPath(out), manifest, MANIFEST_LIMIT) ==> !Resumable(t, out, files, manifest, resume)
  {
    hide Matches, OnlyExpected, CasePath;
  }

  lemma {:induction false} StageFacts(t0: Tree, t: Tree, out: Path, files: seq<CorpusFile>, manifest: seq<bv8>, k: nat)
    requires out != [] && Stage(t0, t, out, files, manifest, k)
    ensures WellFormed(t) && Keeps(t0, t) && OnlyPlanned(t0, t, out, files, manifest)
    ensures ManifestPath(out) != [] && IsDirectory(t, Parent(ManifestPath(out)))
    ensures Matches(t, ManifestPath(out), manifest, MANIFEST_LIMIT) <==> Matches(t0, ManifestPath(out), manifest, MANIFEST_LIMIT)
    ensures Planned(out, files, manifest, ManifestPath(out), File(manifest))
    ensures k < |files| ==>
      var p := CasePath(out, files[k].index);
      && p != [] && IsDirectory(t, Parent(p))
      && (Matches(t, p, files[k].data, CASE_LIMIT) <==> Matches(t0, p, files[k].data, CASE_LIMIT))
  {
    hide CasePath, CasesPath, ManifestPath, WellFormed, OnlyPlanned, Written;
    PathsApart(out, if k < |files| then files[k].index else 0);
    CasesIsLonger(out);
  }

  lemma {:induction false} AllWritten(t0: Tree, a: Tree, b: Tree, out: Path, files: seq<CorpusFile>, manifest: seq<bv8>, resume: bool)
    requires out != [] && Stage(t0, a, out, files, manifest, |files|) && DirectoriesOk(t0, out, resume)
    requires Adds(a, b, ManifestPath(out), File(manifest)) && Matches(a, ManifestPath(out), manifest, MANIFEST_LIMIT)
    requires ManifestPath(out) in b && b[ManifestPath(out)] == File(manifest)
    ensures Complete(b, out, files, manifest) && Resumable(t0, out, files, manifest, resume)
  {
    hide CasePath, CasesPath, ManifestPath, WellFormed, OnlyPlanned, OnlyExpected;
    forall p, n | Planned(out, files, manifest, p, n) ensures p in b && b[p] == n {
      if i :| StandsFor(out, files, i, p, n) {
        assert Written(a, t0, out, files[i]);
      }
    }
    forall i | 0 <= i < |files| ensures Matches(t0, CasePath(out, files[i].index), files[i].data, CASE_LIMIT) {
      assert Written(a, t0, out, files[i]);
    }
  }

  // ---------------------------------------------------------------- resuming

  /** What runs on a fresh output leave behind: the tree before, and planned nodes only. */
  ghost predicate Between(base: Tree, t: Tree, out: Path, files: seq<CorpusFile>, manifest: seq<bv8>) {
    WellFormed(t) && Keeps(base, t) && OnlyPlanned(base, t, out, files, manifest)
  }

  /** The output is to be made in an existing directory. */
  predicate FreshOutput(base: Tree, out: Path) {
    out != [] && WellFormed(base) && out !in base && IsDirectory(base, Parent(out))
  }

  lemma {:induction false} NothingBelow(base: Tree, out: Path, p: Path)
    requires FreshOutput(base, out) && out <= p
    ensures p !in base
    decreases |p|
  {
    if |p| > |out| {
      assert out <= Parent(p);
      NothingBelow(base, out, Parent(p));
    } else {
      assert p == out;
    }
  }

  /** Every existing file of the corpus is small enough to be compared. */
  ghost predicate Comparable(t: Tree, out: Path, files: seq<CorpusFile>, manifest: seq<bv8>) {
    && (forall i :: 0 <= i < |files| && CasePath(out, files[i].index) in t ==> |files[i].data| <= CASE_LIMIT)
    && (ManifestPath(out) in t ==> |manifest| <= MANIFEST_LIMIT)
  }

  lemma {:induction false} StandsAsPlanned(base: Tree, t: Tree, out: Path, files: seq<CorpusFile>, manifest: seq<bv8>, p: Path, n: Node)
    requires FreshOutput(base, out) && DistinctNumbers(files) && Between(base, t, out, files, manifest)
    requires Planned(out, files, manifest, p, n) && out <= p && p in t
    ensures t[p] == n
  {
    hide Planned, WellFormed, FreshOutput;
    NothingBelow(base, out, p);
    PlanIsFunction(out, files, manifest, p, t[p], n);
  }

  lemma {:induction false} ExpectedOnly(base: Tree, t: Tree, out: Path, files: seq<CorpusFile>, manifest: seq<bv8>)
    requires FreshOutput(base, out) && Between(base, t, out, files, manifest)
    ensures OnlyExpected(t, out)
  {
    hide WellFormed, CasePath, FreshOutput;
    forall q | q in t.Keys && IsChild(q, out) ensures q == CasesPath(out) || q == ManifestPath(out) {
      NothingBelow(base, out, q);
      assert Planned(out, files, manifest, q, t[q]);
      if i :| StandsFor(out, files, i, q, t[q]) {
        PathsApart(out, files[i].index);
      }
    }
  }

  /**
   A run that is resumed on what interrupted runs left can finish exactly when no file that is
   already there is larger than what a comparison reads; otherwise it fails and changes nothing
   that exists.
   */
  lemma {:induction false} ResumableExact(base: Tree, t: Tree, out: Path, files: seq<CorpusFile>, manifest: seq<bv8>)
    requires FreshOutput(base, out) && DistinctNumbers(files) && Between(base, t, out, files, manifest)
    ensures Resumable(t, out, files, manifest, out in t) <==> Comparable(t, out, files, manifest)
  {
    hide CasePath, CasesPath, ManifestPath, WellFormed, Between, OnlyExpected, FreshOutput;
    PathsBelow(out, 0);
    ExpectedOnly(base, t, out, files, manifest);
    FreshFacts(base, t, out, files, manifest);
    if out in t {
      StandsAsPlanned(base, t, out, files, manifest, out, Directory);
    }
    if CasesPath(out) in t {
      StandsAsPlanned(base, t, out, files, manifest, CasesPath(out), Directory);
    }
    if ManifestPath(out) in t {
      StandsAsPlanned(base, t, out, files, manifest, ManifestPath(out), File(manifest));
    }
    forall i | 0 <= i < |files|
      ensures var p := CasePath(out, files[i].index);
        Matches(t, p, files[i].data, CASE_LIMIT) <==> (p in t ==> |files[i].data| <= CASE_LIMIT)
    {
      var p := CasePath(out, files[i].index);
      PathsBelow(out, files[i].index);
      if p in t {
        CaseIsPlanned(out, files, manifest, i);
        StandsAsPlanned(base, t, out, files, manifest, p, File(files[i].data));
      }
    }
  }

  lemma {:induction false} PathsBelow(out: Path, index: nat)
    ensures out <= CasesPath(out) && out <= ManifestPath(out) && out <= CasePath(out, index)
  {
  }

  lemma {:induction false} FreshFacts(base: Tree, t: Tree, out: Path, files: seq<CorpusFile>, manifest: seq<bv8>)
    requires FreshOutput(base, out) && Between(base, t, out, files, manifest)
    ensures out != [] && (out !in t ==> IsDirectory(t, Parent(out)))
  {
    hide OnlyPlanned, WellFormed;
  }

  /** Complete corpora over the same base are the same tree. */
  lemma {:induction false} CompleteIsUnique(base: Tree, a: Tree, b: Tree, out: Path, files: seq<CorpusFile>, manifest: seq<bv8>)
    requires DistinctNumbers(files)
    requires Between(base, a, out, files, manifest) && Complete(a, out, files, manifest)
    requires Between(base, b, out, files, manifest) && Complete(b, out, files, manifest)
    ensures a == b
  {
    hide Planned, WellFormed;
    forall p | p in a ensures p in b && a[p] == b[p] {
      if p !in base {
        assert Planned(out, files, manifest, p, a[p]);
      }
    }
    forall p | p in b && p !in base ensures p in a {
      assert Planned(out, files, manifest, p, b[p]);
    }
    assert a.Keys == b.Keys;
  }

  lemma {:induction false} BetweenTransitive(base: Tree, a: Tree, b: Tree, out: Path, files: seq<CorpusFile>, manifest: seq<bv8>)
    requires Between(base, a, out, files, manifest) && WellFormed(b) && Keeps(a, b) && OnlyPlanned(a, b, out, files, manifest)
    ensures Between(base, b, out, files, manifest)
  {
    hide Planned, WellFormed;
    forall p | p in b && p !in base ensures Planned(out, files, manifest, p, b[p]) {
      if p in a {
        assert Planned(out, files, manifest, p, a[p]);
      }
    }
  }

  /** Some file of the corpus is larger than what a comparison reads. */
  ghost predicate TooLarge(files: seq<CorpusFile>, manifest: seq<bv8>) {
    |manifest| > MANIFEST_LIMIT || exists i :: 0 <= i < |files| && |files[i].data| > CASE_LIMIT
  }

  /**
   Any number of runs with the same parameters, each interrupted anywhere between two operations
   or not, and resumed if the output exists: once one of them succeeds, the tree is complete. If no
   file is too large and nothing fails from operation quiet on, one of them does succeed, after at
   most as many runs as there were operations before.
   */
  method ResumeUntilDone(fs: FileSystem, out: Path, files: seq<CorpusFile>, manifest: seq<bv8>, runs: nat, ghost quiet: nat)
    returns (done: bool)
    requires FreshOutput(fs.nodes, out) && DistinctNumbers(files)
    modifies fs
    ensures Between(old(fs.nodes), fs.nodes, out, files, manifest)
    ensures done ==> Complete(fs.nodes, out, files, manifest)
    ensures !TooLarge(files, manifest) && CalmFrom(fs.faults, quiet) && runs > 0 && old(fs.operations) + runs > quiet ==> done
  {
    hide Between, Complete, WellFormed, Resumable, OnlyPlanned, Keeps;
    ghost var base := fs.nodes;
    done := false;
    BetweenSelf(base, out, files, manifest);
    for i := 0 to runs
      invariant WellFormed(fs.nodes) && Between(base, fs.nodes, out, files, manifest)
      invariant !TooLarge(files, manifest) ==> fs.operations >= old(fs.operations) + i
      invariant !TooLarge(files, manifest) && CalmFrom(fs.faults, quiet) && i > 0 ==> old(fs.operations) + i <= quiet
    {
      ghost var t := fs.nodes;
      SmallIsResumable(base, t, out, files, manifest);
      done := MaterializeCorpus(fs, out, files, manifest, out in fs.nodes);
      BetweenTransitive(base, t, fs.nodes, out, files, manifest);
      if done {
        return;
      }
    }
  }

  lemma {:induction false} SmallIsResumable(base: Tree, t: Tree, out: Path, files: seq<CorpusFile>, manifest: seq<bv8>)
    requires FreshOutput(base, out) && DistinctNumbers(files) && Between(base, t, out, files, manifest)
    ensures !TooLarge(files, manifest) ==> Resumable(t, out, files, manifest, out in t)
  {
    hide Between, WellFormed, Resumable, CasePath, ManifestPath;
    ResumableExact(base, t, out, files, manifest);
  }

  /**
   The tree that any such sequence of runs ends with is the one that a single uninterrupted run
   makes on a copy of the original tree.
   */
  method ResumeLikeOneRun(fs: FileSystem, out: Path, files: seq<CorpusFile>, manifest: seq<bv8>, runs: nat, ghost quiet: nat)
    returns (done: bool, single: Tree)
    requires FreshOutput(fs.nodes, out) && DistinctNumbers(files)
    modifies fs
    ensures Between(old(fs.nodes), single, out, files, manifest) && Complete(single, out, files, manifest)
    ensures done ==> fs.nodes == single
    ensures !TooLarge(files, manifest) && CalmFrom(fs.faults, quiet) && runs > 0 && old(fs.operations) + runs > quiet ==> done
  {
    hide Between, Complete, WellFormed, Resumable, OnlyPlanned, Keeps;
    ghost var base := fs.nodes;
    BetweenSelf(base, out, files, manifest);
    FirstRun(base, out, files, manifest);
    var copy := new FileSystem(fs.nodes, n => false);
    var ok := MaterializeCorpus(copy, out, files, manifest, false);
    BetweenTransitive(base, base, copy.nodes, out, files, manifest);
    single := copy.nodes;
    done := ResumeUntilDone(fs, out, files, manifest, runs, quiet);
    if done {
      CompleteIsUnique(base, fs.nodes, single, out, files, manifest);
    }
  }

  lemma {:induction false} FirstRun(base: Tree, out: Path, files: seq<CorpusFile>, manifest: seq<bv8>)
    requires FreshOutput(base, out) && DistinctNumbers(files)
    ensures out !in base && Resumable(base, out, files, manifest, false)
  {
    hide CasePath, CasesPath, ManifestPath, WellFormed, Resumable;
    BetweenSelf(base, out, files, manifest);
    ResumableExact(base, base, out, files, manifest);
    forall p: Path | out <= p ensures p !in base {
      NothingBelow(base, out, p);
    }
    PathsBelow(out, 0);
    forall i | 0 <= i < |files| ensures CasePath(out, files[i].index) !in base {
      PathsBelow(out, files[i].index);
    }
  }

  lemma {:induction false} BetweenSelf(base: Tree, out: Path, files: seq<CorpusFile>, manifest: seq<bv8>)
    requires FreshOutput(base, out)
    ensures Between(base, base, out, files, manifest) && WellFormed(base) && out != []
  {
  }
}
