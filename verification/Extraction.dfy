/** Extraction into an empty destination, with rollback: all declared entries, or no change at all. */
module Extraction {
  import opened Basics
  import opened Files
  import opened Archive

  // ---------------------------------------------------------------- what was created so far

  function SetOf(ps: seq<Path>): (s: set<Path>) {
    set i | 0 <= i < |ps| :: ps[i]
  }

  /** Every directory was created in one that was there before or was created earlier. */
  ghost predicate ParentsFirst(before: Tree, dirs: seq<Path>) {
    forall i :: 0 <= i < |dirs| ==> dirs[i] != [] && (Parent(dirs[i]) in before || Earlier(dirs, i, Parent(dirs[i])))
  }

  predicate Earlier(ps: seq<Path>, i: nat, p: Path) {
    exists j :: 0 <= j < i && j < |ps| && ps[j] == p
  }

  /** The tree is the one before, plus the created directories and files, each created once. */
  ghost predicate Layered(before: Tree, now: Tree, dirs: seq<Path>, files: seq<Path>) {
    && WellFormed(before) && WellFormed(now)
    && Distinct(dirs) && Distinct(files)
    && SetOf(dirs) !! before.Keys && SetOf(files) !! before.Keys && SetOf(dirs) !! SetOf(files)
    && now.Keys == before.Keys + SetOf(dirs) + SetOf(files)
    && (forall p :: p in before ==> now[p] == before[p])
    && (forall p :: p in SetOf(dirs) ==> now[p] == Directory)
    && (forall p :: p in SetOf(files) ==> now[p].File?)
    && ParentsFirst(before, dirs)
  }

  lemma {:induction false} LayeredStart(t: Tree)
    requires WellFormed(t)
    ensures Layered(t, t, [], [])
  {
  }

  lemma {:induction false} SetSnoc(ps: seq<Path>, p: Path)
    ensures SetOf(ps + [p]) == SetOf(ps) + {p}
    ensures Distinct(ps) && p !in SetOf(ps) ==> Distinct(ps + [p])
  {
    var all := ps + [p];
    assert all[|ps|] == p;
    forall q | q in SetOf(ps) ensures q in SetOf(all) {
      var i :| 0 <= i < |ps| && ps[i] == q;
      assert all[i] == q;
    }
  }

  lemma {:induction false} AddNode(t: Tree, p: Path, n: Node)
    requires WellFormed(t) && p != [] && p !in t && IsDirectory(t, Parent(p))
    ensures WellFormed(t[p := n])
  {
  }

  lemma {:induction false} ParentsSnoc(before: Tree, dirs: seq<Path>, p: Path)
    requires ParentsFirst(before, dirs) && p != [] && (Parent(p) in before || Parent(p) in SetOf(dirs))
    ensures ParentsFirst(before, dirs + [p])
  {
    var all := dirs + [p];
    forall i | 0 <= i < |all| ensures all[i] != [] && (Parent(all[i]) in before || Earlier(all, i, Parent(all[i]))) {
      assert all[i] == if i < |dirs| then dirs[i] else p;
      EarlierStays(dirs, [p], i, Parent(all[i]));
      if i == |dirs| && Parent(p) !in before {
        var j :| 0 <= j < |dirs| && dirs[j] == Parent(p);
        assert Earlier(dirs, i, Parent(p));
      }
    }
  }

  lemma {:induction false} EarlierStays(a: seq<Path>, b: seq<Path>, i: nat, p: Path)
    requires i <= |a|
    ensures Earlier(a + b, i, p) <==> Earlier(a, i, p)
  {
    assert forall j :: 0 <= j < i ==> (a + b)[j] == a[j];
  }

  lemma {:induction false} LayeredDirectory(before: Tree, now: Tree, dirs: seq<Path>, files: seq<Path>, p: Path)
    requires Layered(before, now, dirs, files) && p != [] && p !in now && IsDirectory(now, Parent(p))
    ensures Layered(before, now[p := Directory], dirs + [p], files)
  {
    hide WellFormed, ParentsFirst, SetOf, Distinct;
    AddNode(now, p, Directory);
    SetSnoc(dirs, p);
    ParentsSnoc(before, dirs, p);
  }

  lemma {:induction false} LayeredFile(before: Tree, now: Tree, dirs: seq<Path>, files: seq<Path>, p: Path)
    requires Layered(before, now, dirs, files) && p != [] && p !in now && IsDirectory(now, Parent(p))
    ensures Layered(before, now[p := File([])], dirs, files + [p])
  {
    hide WellFormed, ParentsFirst, SetOf, Distinct;
    AddNode(now, p, File([]));
    SetSnoc(files, p);
  }

  lemma {:induction false} LayeredWrite(before: Tree, now: Tree, dirs: seq<Path>, files: seq<Path>, p: Path, data: seq<bv8>)
    requires Layered(before, now, dirs, files) && p in SetOf(files)
    ensures Layered(before, now[p := File(data)], dirs, files)
  {
    hide ParentsFirst;
    var after := now[p := File(data)];
    assert after.Keys == now.Keys;
    forall q | q in after && q != [] ensures IsDirectory(after, Parent(q)) {
      assert IsDirectory(now, Parent(q));
    }
  }

  // ---------------------------------------------------------------- rollback

  /** After the files are gone, the last created directory has no children. */
  lemma {:induction false} LastIsEmpty(before: Tree, now: Tree, dirs: seq<Path>)
    requires Layered(before, now, dirs, []) && dirs != []
    ensures !HasChild(now, dirs[|dirs| - 1])
  {
    var last := dirs[|dirs| - 1];
    assert last in SetOf(dirs);
    forall q | q in now ensures !IsChild(q, last) {
      if q == [] {
      } else if q in before {
        assert IsDirectory(before, Parent(q));
      } else {
        CreatedElsewhere(before, dirs, q);
      }
    }
  }

  /** No created directory lies in the one created last. */
  lemma {:induction false} CreatedElsewhere(before: Tree, dirs: seq<Path>, q: Path)
    requires dirs != [] && Distinct(dirs) && ParentsFirst(before, dirs) && SetOf(dirs) !! before.Keys
    requires q != [] && q in SetOf(dirs)
    ensures Parent(q) != dirs[|dirs| - 1]
  {
    var last := dirs[|dirs| - 1];
    assert last in SetOf(dirs);
    var i :| 0 <= i < |dirs| && dirs[i] == q;
    assert !Earlier(dirs, i, last);
  }

  lemma {:induction false} SetLast(init: seq<Path>, last: Path)
    requires Distinct(init + [last])
    ensures Distinct(init) && last !in SetOf(init) && SetOf(init + [last]) == SetOf(init) + {last}
  {
    var all := init + [last];
    SetSnoc(init, last);
    assert forall i :: 0 <= i < |init| ==> all[i] == init[i];
    assert all[|init|] == last;
  }

  lemma {:induction false} DropNode(t: Tree, p: Path)
    requires WellFormed(t) && p != [] && !HasChild(t, p)
    ensures WellFormed(t - {p})
  {
    var after := t - {p};
    forall q | q in after && q != [] ensures IsDirectory(after, Parent(q)) {
      assert IsDirectory(t, Parent(q));
      assert !IsChild(q, p);
    }
  }

  lemma {:induction false} ParentsInit(before: Tree, init: seq<Path>, last: Path)
    requires ParentsFirst(before, init + [last])
    ensures ParentsFirst(before, init) && last != []
  {
    hide Earlier;
    var all := init + [last];
    assert all[|init|] == last;
    forall i | 0 <= i < |init| ensures init[i] != [] && (Parent(init[i]) in before || Earlier(init, i, Parent(init[i]))) {
      assert all[i] == init[i];
      EarlierStays(init, [last], i, Parent(init[i]));
    }
  }

  lemma {:induction false} DropDirectory(before: Tree, now: Tree, init: seq<Path>, last: Path)
    requires Layered(before, now, init + [last], [])
    ensures IsDirectory(now, last) && !HasChild(now, last)
    ensures Layered(before, now - {last}, init, [])
  {
    assert (init + [last])[|init|] == last;
    LastIsEmpty(before, now, init + [last]);
    hide WellFormed, ParentsFirst, SetOf, Distinct, HasChild;
    SetLast(init, last);
    ParentsInit(before, init, last);
    DropNode(now, last);
  }

  lemma {:induction false} DropFile(before: Tree, now: Tree, dirs: seq<Path>, init: seq<Path>, last: Path)
    requires Layered(before, now, dirs, init + [last])
    ensures last in now && now[last].File?
    ensures Layered(before, now - {last}, dirs, init)
  {
    hide WellFormed, ParentsFirst, SetOf, Distinct, HasChild;
    SetLast(init, last);
    NoChildOfFile(now, last);
    DropNode(now, last);
  }

  lemma {:induction false} NoChildOfFile(t: Tree, p: Path)
    requires WellFormed(t) && p in t && t[p].File?
    ensures p != [] && !HasChild(t, p)
  {
    forall q | q in t ensures !IsChild(q, p) {
      if q != [] {
        assert IsDirectory(t, Parent(q));
      }
    }
  }

  lemma {:induction false} LayeredEnd(before: Tree, now: Tree)
    requires Layered(before, now, [], [])
    ensures now == before
  {
    assert now.Keys == before.Keys;
  }

  /** The exception handler: remove what was created, newest first. */
  method Rollback(fs: FileSystem, dirs: seq<Path>, files: seq<Path>, ghost before: Tree)
    requires Layered(before, fs.nodes, dirs, files)
    modifies fs
    ensures fs.nodes == before
  {
    hide Layered;
    assert files[..|files|] == files;
    for i := |files| downto 0
      invariant Layered(before, fs.nodes, dirs, files[..i])
    {
      assert files[..i + 1] == files[..i] + [files[i]];
      DropFile(before, fs.nodes, dirs, files[..i], files[i]);
      fs.Unlink(files[i]);
    }
    assert dirs[..|dirs|] == dirs && files[..0] == [];
    for i := |dirs| downto 0
      invariant Layered(before, fs.nodes, dirs[..i], [])
    {
      assert dirs[..i + 1] == dirs[..i] + [dirs[i]];
      DropDirectory(before, fs.nodes, dirs[..i], dirs[i]);
      fs.RemoveDirectory(dirs[i]);
    }
    assert dirs[..0] == [];
    LayeredEnd(before, fs.nodes);
  }

  // ---------------------------------------------------------------- what must come to exist

  /** The path of an entry. */
  function Target(dest: Path, c: Checked): (p: Path) {
    dest + c.parts
  }

  /** The innermost directory that an entry needs: its own path, or that of its parent. */
  function Home(dest: Path, c: Checked): (p: Path)
    requires dest != []
  {
    if c.kind.DirectoryEntry? then Target(dest, c) else Parent(Target(dest, c))
  }

  /** A path below the destination that an entry declares as a directory, itself or as an ancestor. */
  predicate Declares(dest: Path, c: Checked, p: Path)
    requires dest != []
  {
    |dest| <= |p| <= |Home(dest, c)| && p == Home(dest, c)[..|p|]
  }

  ghost predicate DeclaredDirectory(dest: Path, cs: seq<Checked>, p: Path)
    requires dest != []
  {
    p == dest || exists i :: 0 <= i < |cs| && Declares(dest, cs[i], p)
  }

  /** The files that the entries declare, in order. */
  function FileTargets(dest: Path, cs: seq<Checked>): (ps: seq<Path>) {
    if cs == [] then []
    else
      var init, last := FileTargets(dest, cs[..|cs| - 1]), cs[|cs| - 1];
      if last.kind.FileEntry? then init + [Target(dest, last)] else init
  }

  /** The bytes of a stream; None when reading it fails. */
  function Content(chunks: seq<Option<seq<bv8>>>): (data: Option<seq<bv8>>) {
    if chunks == [] then Some([])
    else
      var init, last := Content(chunks[..|chunks| - 1]), chunks[|chunks| - 1];
      if init.None? || last.None? then None else Some(init.value + last.value)
  }

  /** File entry c was extracted: its file holds its stream, of exactly the declared size. */
  predicate Holds(t: Tree, dest: Path, c: Checked) {
    && Target(dest, c) in t && Content(c.entry.chunks).Some?
    && |Content(c.entry.chunks).value| == c.entry.fileSize
    && t[Target(dest, c)] == File(Content(c.entry.chunks).value)
  }

  /** The first entries are extracted: exactly their directories and files were created, with their contents. */
  ghost predicate Progress(before: Tree, now: Tree, dest: Path, cs: seq<Checked>, dirs: seq<Path>, files: seq<Path>)
    requires dest != []
  {
    && Layered(before, now, dirs, files)
    && (forall d :: d in SetOf(dirs) ==> DeclaredDirectory(dest, cs, d))
    && (forall p :: DeclaredDirectory(dest, cs, p) ==> IsDirectory(now, p))
    && files == FileTargets(dest, cs)
    && (forall i :: 0 <= i < |cs| && cs[i].kind.FileEntry? ==> Holds(now, dest, cs[i]))
  }

  /**
   ensure_directory: the missing ancestors are created from the outside in. On failure some of
   them may exist; they are listed for the rollback.
   */
  method EnsureDirectory(fs: FileSystem, dest: Path, path: Path, dirs: seq<Path>, ghost before: Tree, ghost files: seq<Path>)
    returns (ok: bool, created: seq<Path>)
    requires Layered(before, fs.nodes, dirs, files) && IsDirectory(fs.nodes, dest)
    modifies fs
    ensures Layered(before, fs.nodes, created, files)
    ensures OnlyDirectoriesAdded(old(fs.nodes), fs.nodes)
    ensures NewOnPath(dirs, created, dest, path)
    ensures ok ==> IsDirectory(fs.nodes, path)
    ensures (forall n :: !fs.faults(n)) && dest <= path ==> (ok <==> Walkable(old(fs.nodes), dest, path))
    ensures (forall n :: !fs.faults(n)) && IsDirectory(old(fs.nodes), path) ==> ok
  {
    hide Layered, SetOf, WellFormed, NewOnPath, Walkable;
    NoneNew(dirs, dest, path);
    var missing: seq<Path> := [];
    var current := path;
    while current != dest && current !in fs.nodes
      invariant fs.nodes == old(fs.nodes)
      invariant |missing| <= |path| && current == path[..|path| - |missing|]
      invariant forall i :: 0 <= i < |missing| ==> missing[i] == path[..|path| - i] && missing[i] !in fs.nodes
      invariant dest <= path ==> |missing| <= |path| - |dest|
      invariant dest <= path ==> dest <= current
      decreases |current|
    {
      RootIsThere(before, fs.nodes, dirs, files);
      missing := missing + [current];
      current := Parent(current);
    }
    created := dirs;
    WalkDecided(before, fs.nodes, dirs, files, dest, path, missing, current);
    if !IsDirectory(fs.nodes, current) {
      return false, created;
    }
    for i := |missing| downto 0
      invariant Layered(before, fs.nodes, created, files) && OnlyDirectoriesAdded(old(fs.nodes), fs.nodes)
      invariant IsDirectory(fs.nodes, path[..|path| - i])
      invariant forall k :: 0 <= k < i ==> missing[k] !in fs.nodes
      invariant NewOnPath(dirs, created, dest, path)
    {
      var directory := missing[i];
      assert Parent(directory) == path[..|path| - (i + 1)];
      OneMoreOnPath(dirs, created, dest, path, directory);
      LayeredDirectory(before, fs.nodes, created, files, directory);
      ok := fs.MakeDirectory(directory);
      if !ok {
        return;
      }
      created := created + [directory];
    }
    assert path[..|path| - 0] == path;
    ok := true;
  }

  /** No part of the path below the destination is something else than a directory. */
  predicate Walkable(t: Tree, dest: Path, path: Path) {
    forall k :: |dest| <= k <= |path| && path[..k] in t ==> IsDirectory(t, path[..k])
  }

  /** The walk upwards stops at what decides whether the path can be made. */
  lemma {:induction false} WalkDecided(before: Tree, t: Tree, dirs: seq<Path>, files: seq<Path>, dest: Path, path: Path, missing: seq<Path>, current: Path)
    requires Layered(before, t, dirs, files) && IsDirectory(t, dest)
    requires |missing| <= |path| && current == path[..|path| - |missing|] && (current == dest || current in t)
    requires forall i :: 0 <= i < |missing| ==> missing[i] == path[..|path| - i] && missing[i] !in t
    ensures dest <= path && dest <= current ==> (IsDirectory(t, current) <==> Walkable(t, dest, path))
    ensures IsDirectory(t, path) ==> IsDirectory(t, current)
  {
    hide Layered, WellFormed;
    NowWellFormed(before, t, dirs, files);
    if missing != [] {
      assert path[..|path|] == path && missing[0] == path[..|path| - 0];
    } else {
      assert current == path;
    }
    if IsDirectory(t, current) && dest <= path {
      forall k | |current| < k <= |path| ensures path[..k] !in t {
        assert missing[|path| - k] == path[..k];
      }
      forall k | |dest| <= k <= |current| ensures IsDirectory(t, path[..k]) {
        AncestorsAreDirectories(t, current, k);
        assert current[..k] == path[..k];
      }
    }
  }

  /** The directories created now lie on the path, and below the destination if the path does. */
  predicate NewOnPath(dirs: seq<Path>, created: seq<Path>, dest: Path, path: Path) {
    && (forall d :: d in SetOf(created) && d !in SetOf(dirs) ==> d <= path && (dest <= path ==> |d| > |dest|))
    && (forall d :: d in SetOf(dirs) ==> d in SetOf(created))
  }

  lemma {:induction false} NoneNew(dirs: seq<Path>, dest: Path, path: Path)
    ensures NewOnPath(dirs, dirs, dest, path)
  {
  }

  lemma {:induction false} OneMoreOnPath(dirs: seq<Path>, created: seq<Path>, dest: Path, path: Path, d: Path)
    requires NewOnPath(dirs, created, dest, path) && d <= path && (dest <= path ==> |d| > |dest|)
    ensures NewOnPath(dirs, created + [d], dest, path)
  {
    hide SetOf;
    SetSnoc(created, d);
  }

  predicate OnlyDirectoriesAdded(a: Tree, b: Tree) {
    (forall p :: p in a ==> p in b && b[p] == a[p]) && (forall p :: p in b && p !in a ==> b[p] == Directory)
  }

  lemma {:induction false} RootIsThere(before: Tree, now: Tree, dirs: seq<Path>, files: seq<Path>)
    requires Layered(before, now, dirs, files)
    ensures IsDirectory(now, [])
  {
  }

  // ---------------------------------------------------------------- one entry

  /** The stream can be read and has the declared size. */
  predicate StreamFits(e: Entry) {
    Content(e.chunks).Some? && |Content(e.chunks).value| == e.fileSize
  }

  lemma {:induction false} ContentPrefix(chunks: seq<Option<seq<bv8>>>, i: nat)
    requires i <= |chunks|
    ensures Content(chunks).Some? ==> Content(chunks[..i]).Some? && |Content(chunks[..i]).value| <= |Content(chunks).value|
    decreases |chunks|
  {
    if i < |chunks| {
      var init := chunks[..|chunks| - 1];
      assert init[..i] == chunks[..i];
      ContentPrefix(init, i);
    } else {
      assert chunks[..i] == chunks;
    }
  }

  /** The copy loop of a file entry; on failure the file keeps some of its data. */
  method CopyStream(fs: FileSystem, p: Path, e: Entry, l: Limits) returns (ok: bool)
    requires p in fs.nodes && fs.nodes[p] == File([])
    modifies fs
    ensures exists data :: fs.nodes == old(fs.nodes)[p := File(data)]
    ensures ok ==> Content(e.chunks).Some? && |Content(e.chunks).value| == e.fileSize
    ensures ok ==> fs.nodes == old(fs.nodes)[p := File(Content(e.chunks).value)]
    ensures (forall n :: !fs.faults(n)) && e.fileSize <= l.maxMemberBytes ==> (ok <==> StreamFits(e))
  {
    var written: nat := 0;
    ghost var data: seq<bv8> := [];
    assert fs.nodes == fs.nodes[p := File([])];
    assert e.chunks[..0] == [];
    for i := 0 to |e.chunks|
      invariant Content(e.chunks[..i]) == Some(data) && |data| == written
      invariant p in fs.nodes && fs.nodes == old(fs.nodes)[p := File(data)]
    {
      assert e.chunks[..i + 1][..i] == e.chunks[..i];
      ContentPrefix(e.chunks, i + 1);
      var chunk := e.chunks[i];
      if chunk.None? {
        return false;
      }
      written := written + |chunk.value|;
      if written > e.fileSize || written > l.maxMemberBytes {
        return false;
      }
      ok := fs.Append(p, chunk.value);
      if !ok {
        return;
      }
      data := data + chunk.value;
    }
    assert e.chunks[..|e.chunks|] == e.chunks;
    ok := written == e.fileSize;
  }

  lemma {:induction false} HomeIsBelow(dest: Path, c: Checked)
    requires dest != [] && (c.kind.FileEntry? ==> c.parts != [])
    ensures dest <= Home(dest, c)
  {
  }

  /** After the home of an entry exists, all directories declared so far do. */
  lemma {:induction false} HomeReached(before: Tree, was: Tree, now: Tree, dest: Path, done: seq<Checked>, c: Checked,
    dirs: seq<Path>, created: seq<Path>, files: seq<Path>)
    requires dest != [] && Progress(before, was, dest, done, dirs, files) && Layered(before, now, created, files)
    requires OnlyDirectoriesAdded(was, now) && IsDirectory(now, Home(dest, c)) && dest <= Home(dest, c)
    requires forall d :: d in SetOf(created) && d !in SetOf(dirs) ==> d <= Home(dest, c) && |d| > |dest|
    ensures forall d :: d in SetOf(created) ==> DeclaredDirectory(dest, done + [c], d)
    ensures forall p :: DeclaredDirectory(dest, done + [c], p) ==> IsDirectory(now, p)
    ensures forall i :: 0 <= i < |done| && done[i].kind.FileEntry? ==> Holds(now, dest, done[i])
  {
    hide Layered, Home, Content, FileTargets;
    var all := done + [c];
    assert all[|done|] == c;
    forall d | d in SetOf(created) ensures DeclaredDirectory(dest, all, d) {
      if d in SetOf(dirs) {
        DeclaredStays(dest, done, c, d);
      } else {
        assert Declares(dest, c, d);
      }
    }
    forall p | DeclaredDirectory(dest, all, p) ensures IsDirectory(now, p) {
      if !DeclaredDirectory(dest, done, p) {
        DeclaredByLast(dest, done, c, p);
        NowWellFormed(before, now, created, files);
        AncestorsAreDirectories(now, Home(dest, c), |p|);
      }
    }
  }

  lemma {:induction false} NowWellFormed(before: Tree, now: Tree, dirs: seq<Path>, files: seq<Path>)
    requires Layered(before, now, dirs, files)
    ensures WellFormed(now)
  {
  }

  lemma {:induction false} DeclaredStays(dest: Path, done: seq<Checked>, c: Checked, p: Path)
    requires dest != [] && DeclaredDirectory(dest, done, p)
    ensures DeclaredDirectory(dest, done + [c], p)
  {
    hide Declares;
    if p != dest {
      var i :| 0 <= i < |done| && Declares(dest, done[i], p);
      assert (done + [c])[i] == done[i];
    }
  }

  lemma {:induction false} DeclaredByLast(dest: Path, done: seq<Checked>, c: Checked, p: Path)
    requires dest != [] && DeclaredDirectory(dest, done + [c], p) && !DeclaredDirectory(dest, done, p)
    ensures Declares(dest, c, p)
  {
    hide Declares;
    var all := done + [c];
    assert forall k :: 0 <= k < |done| ==> all[k] == done[k];
    var i :| 0 <= i < |all| && Declares(dest, all[i], p);
  }

  lemma {:induction false} DirectoryDone(before: Tree, was: Tree, now: Tree, dest: Path, done: seq<Checked>, c: Checked,
    dirs: seq<Path>, created: seq<Path>, files: seq<Path>)
    requires dest != [] && Progress(before, was, dest, done, dirs, files) && Layered(before, now, created, files)
    requires OnlyDirectoriesAdded(was, now) && IsDirectory(now, Home(dest, c)) && c.kind.DirectoryEntry?
    requires NewOnPath(dirs, created, dest, Home(dest, c))
    ensures Progress(before, now, dest, done + [c], created, files)
  {
    hide Layered, Holds, DeclaredDirectory, OnlyDirectoriesAdded;
    HomeIsBelow(dest, c);
    HomeReached(before, was, now, dest, done, c, dirs, created, files);
    assert (done + [c])[..|done|] == done;
  }

  /** A new file is written; everything else stays. */
  lemma {:induction false} FileDone(before: Tree, was: Tree, middle: Tree, now: Tree, dest: Path, done: seq<Checked>, c: Checked,
    dirs: seq<Path>, created: seq<Path>, files: seq<Path>)
    requires dest != [] && Progress(before, was, dest, done, dirs, files) && Layered(before, middle, created, files)
    requires OnlyDirectoriesAdded(was, middle) && IsDirectory(middle, Home(dest, c)) && c.kind.FileEntry? && c.parts != []
    requires NewOnPath(dirs, created, dest, Home(dest, c))
    requires Target(dest, c) !in middle && Content(c.entry.chunks).Some? && |Content(c.entry.chunks).value| == c.entry.fileSize
    requires now == middle[Target(dest, c) := File(Content(c.entry.chunks).value)]
    requires Layered(before, now, created, files + [Target(dest, c)])
    ensures Progress(before, now, dest, done + [c], created, files + [Target(dest, c)])
  {
    hide Layered, DeclaredDirectory, OnlyDirectoriesAdded, Content, Home;
    HomeIsBelow(dest, c);
    HomeReached(before, was, middle, dest, done, c, dirs, created, files);
    var all := done + [c];
    assert all[..|done|] == done;
    forall i | 0 <= i < |all| && all[i].kind.FileEntry? ensures Holds(now, dest, all[i]) {
      if i < |done| {
        assert all[i] == done[i] && Holds(middle, dest, done[i]);
      }
    }
  }

  /** A file entry, after its home exists or not: create the file and copy the stream. */
  method ExtractFile(fs: FileSystem, dest: Path, c: Checked, l: Limits, dirs: seq<Path>, files: seq<Path>,
    ghost before: Tree, ghost done: seq<Checked>)
    returns (ok: bool, created: seq<Path>, written: seq<Path>)
    requires dest != [] && Progress(before, fs.nodes, dest, done, dirs, files) && c.kind.FileEntry?
    modifies fs
    ensures Layered(before, fs.nodes, created, written)
    ensures ok ==> Progress(before, fs.nodes, dest, done + [c], created, written)
    ensures (forall n :: !fs.faults(n)) && c.entry.fileSize <= l.maxMemberBytes ==>
      (ok <==> Reachable(old(fs.nodes), dest, c) && Target(dest, c) !in old(fs.nodes) && StreamFits(c.entry))
  {
    hide Layered, Content, Home, Holds, FileTargets, SetOf, Walkable, StreamFits, DeclaredDirectory, NewOnPath, OnlyDirectoriesAdded;
    ghost var was := fs.nodes;
    var target := dest + c.parts;
    written := files;
    DestinationStands(before, was, dest, done, dirs, files);
    HomeOf(dest, c);
    HomeReachable(before, was, dest, c, dirs, files);
    ok, created := EnsureDirectory(fs, dest, Parent(target), dirs, before, files);
    if !ok {
      return;
    }
    ghost var middle := fs.nodes;
    TargetFree(before, was, middle, dest, c, dirs, created, files);
    var unreadable := fs.Faulty();
    if unreadable {
      return false, created, written;
    }
    ok := fs.CreateFile(target);
    if !ok {
      return;
    }
    LayeredFile(before, middle, created, files, target);
    SetSnoc(files, target);
    written := files + [target];
    ghost var empty := fs.nodes;
    ok := CopyStream(fs, target, c.entry, l);
    ghost var data :| fs.nodes == empty[target := File(data)];
    LayeredWrite(before, empty, created, written, target, data);
    if ok {
      assert fs.nodes == middle[target := File(Content(c.entry.chunks).value)];
      NotTheDestination(middle, dest, c, was);
      FileDone(before, was, middle, fs.nodes, dest, done, c, dirs, created, files);
    }
  }

  /** The body of the extraction loop. */
  method ExtractEntry(fs: FileSystem, dest: Path, c: Checked, l: Limits, dirs: seq<Path>, files: seq<Path>,
    ghost before: Tree, ghost done: seq<Checked>)
    returns (ok: bool, created: seq<Path>, written: seq<Path>)
    requires dest != [] && Progress(before, fs.nodes, dest, done, dirs, files)
    modifies fs
    ensures Layered(before, fs.nodes, created, written)
    ensures ok ==> Progress(before, fs.nodes, dest, done + [c], created, written)
    ensures (forall n :: !fs.faults(n)) && NothingIn(before, dest) && c.entry.fileSize <= l.maxMemberBytes ==>
      (ok <==> EntryFits(dest, done, c))
  {
    hide Layered, Content, Home, Holds, FileTargets, SetOf, Walkable, StreamFits, EntryFits, NothingIn, DeclaredDirectory, NewOnPath,
      OnlyDirectoriesAdded, Progress, Reachable;
    ghost var was := fs.nodes;
    EntryDecided(before, was, dest, done, c, dirs, files);
    DestinationStands(before, was, dest, done, dirs, files);
    if c.kind.DirectoryEntry? {
      HomeOf(dest, c);
      var target := dest + c.parts;
      HomeReachable(before, was, dest, c, dirs, files);
      ok, created := EnsureDirectory(fs, dest, target, dirs, before, files);
      written := files;
      if ok {
        DirectoryDone(before, was, fs.nodes, dest, done, c, dirs, created, files);
      }
      return;
    }
    ok, created, written := ExtractFile(fs, dest, c, l, dirs, files, before, done);
  }

  lemma {:induction false} DestinationStands(before: Tree, now: Tree, dest: Path, done: seq<Checked>, dirs: seq<Path>, files: seq<Path>)
    requires dest != [] && Progress(before, now, dest, done, dirs, files)
    ensures IsDirectory(now, dest) && Layered(before, now, dirs, files)
  {
    hide Layered, Holds;
    assert DeclaredDirectory(dest, done, dest);
  }

  /** The directory that the entry needs can be made. */
  predicate Reachable(t: Tree, dest: Path, c: Checked)
    requires dest != []
  {
    if c.kind.FileEntry? && c.parts == [] then true else Walkable(t, dest, Home(dest, c))
  }

  lemma {:induction false} HomeReachable(before: Tree, t: Tree, dest: Path, c: Checked, dirs: seq<Path>, files: seq<Path>)
    requires dest != [] && Layered(before, t, dirs, files) && IsDirectory(t, dest)
    ensures !(c.kind.FileEntry? && c.parts == []) ==> dest <= Home(dest, c)
    ensures c.kind.FileEntry? && c.parts == [] ==> IsDirectory(t, Home(dest, c)) && Target(dest, c) in t
  {
    hide Layered;
    NowWellFormed(before, t, dirs, files);
    if c.kind.FileEntry? && c.parts == [] {
      assert dest + c.parts == dest;
    } else {
      HomeIsBelow(dest, c);
    }
  }

  /** Nothing lies below the destination. */
  predicate NothingIn(t: Tree, dest: Path) {
    forall p :: p in t ==> !(dest < p)
  }

  /** Entry c can be extracted after the entries in done, as far as names and streams are concerned. */
  ghost predicate EntryFits(dest: Path, done: seq<Checked>, c: Checked)
    requires dest != []
  {
    && (forall p :: p in FileTargets(dest, done) ==> !Declares(dest, c, p))
    && (c.kind.FileEntry? ==>
          StreamFits(c.entry) && !DeclaredDirectory(dest, done, Target(dest, c)) && Target(dest, c) !in FileTargets(dest, done))
  }

  /** Below the destination stand the declared directories and the extracted files. */
  lemma {:induction false} StandingBelow(before: Tree, now: Tree, dest: Path, done: seq<Checked>, dirs: seq<Path>, files: seq<Path>, p: Path)
    requires dest != [] && Progress(before, now, dest, done, dirs, files) && NothingIn(before, dest) && dest < p
    ensures p in now <==> DeclaredDirectory(dest, done, p) || p in FileTargets(dest, done)
    ensures p in FileTargets(dest, done) ==> p in now && now[p].File?
  {
    hide DeclaredDirectory, FileTargets, Holds, WellFormed, ParentsFirst;
    assert p in files <==> p in SetOf(files);
  }

  lemma {:induction false} FileTargetsBelow(dest: Path, cs: seq<Checked>, p: Path)
    requires p in FileTargets(dest, cs)
    ensures dest <= p && exists i :: 0 <= i < |cs| && cs[i].kind.FileEntry? && p == Target(dest, cs[i])
  {
    var init := cs[..|cs| - 1];
    if p in FileTargets(dest, init) {
      FileTargetsBelow(dest, init, p);
      var i :| 0 <= i < |init| && init[i].kind.FileEntry? && p == Target(dest, init[i]);
      assert cs[i] == init[i];
    } else {
      assert p == Target(dest, cs[|cs| - 1]);
    }
  }

  lemma {:induction false} WalkBlocked(before: Tree, now: Tree, dest: Path, done: seq<Checked>, c: Checked, dirs: seq<Path>, files: seq<Path>)
    requires dest != [] && Progress(before, now, dest, done, dirs, files) && NothingIn(before, dest) && dest <= Home(dest, c)
    ensures Walkable(now, dest, Home(dest, c)) <==> forall p :: p in FileTargets(dest, done) ==> !Declares(dest, c, p)
  {
    hide Progress, DeclaredDirectory, FileTargets, NothingIn, Home;
    var home := Home(dest, c);
    DestinationStands(before, now, dest, done, dirs, files);
    if Walkable(now, dest, home) {
      forall p | p in FileTargets(dest, done) ensures !Declares(dest, c, p) {
        FileIsNoDirectory(before, now, dest, done, dirs, files, p);
      }
    }
    if forall p :: p in FileTargets(dest, done) ==> !Declares(dest, c, p) {
      forall k | |dest| <= k <= |home| && home[..k] in now ensures IsDirectory(now, home[..k]) {
        var p := home[..k];
        if k == |dest| {
          assert p == dest;
        } else {
          assert p[..|dest|] == home[..|dest|] == dest;
          assert Declares(dest, c, p);
          StandingBelow(before, now, dest, done, dirs, files, p);
          DeclaredStands(before, now, dest, done, dirs, files, p);
        }
      }
    }
  }

  lemma {:induction false} DeclaredStands(before: Tree, now: Tree, dest: Path, done: seq<Checked>, dirs: seq<Path>, files: seq<Path>, p: Path)
    requires dest != [] && Progress(before, now, dest, done, dirs, files)
    ensures DeclaredDirectory(dest, done, p) ==> IsDirectory(now, p)
  {
    hide Layered, DeclaredDirectory, Holds, FileTargets;
  }

  lemma {:induction false} FileIsNoDirectory(before: Tree, now: Tree, dest: Path, done: seq<Checked>, dirs: seq<Path>, files: seq<Path>, p: Path)
    requires dest != [] && Progress(before, now, dest, done, dirs, files) && p in FileTargets(dest, done)
    ensures p in now && now[p].File?
  {
    hide DeclaredDirectory, FileTargets, Holds, WellFormed, ParentsFirst;
    assert p in files <==> p in SetOf(files);
  }

  /** What stands below the destination decides whether the next entry fits. */
  lemma {:induction false} EntryDecided(before: Tree, now: Tree, dest: Path, done: seq<Checked>, c: Checked, dirs: seq<Path>, files: seq<Path>)
    requires dest != [] && Progress(before, now, dest, done, dirs, files)
    ensures NothingIn(before, dest) && c.kind.DirectoryEntry? ==> (EntryFits(dest, done, c) <==> Walkable(now, dest, Home(dest, c)))
    ensures NothingIn(before, dest) && c.kind.FileEntry? ==>
      (EntryFits(dest, done, c) <==> Reachable(now, dest, c) && Target(dest, c) !in now && StreamFits(c.entry))
  {
    hide Progress, DeclaredDirectory, FileTargets, NothingIn, StreamFits, Declares, Walkable;
    DestinationStands(before, now, dest, done, dirs, files);
    assert DeclaredDirectory(dest, done, dest) by { DeclaredItself(dest, done); }
    if NothingIn(before, dest) {
      if c.kind.FileEntry? && c.parts == [] {
        assert Target(dest, c) == dest;
      } else {
        HomeIsBelow(dest, c);
        WalkBlocked(before, now, dest, done, c, dirs, files);
        if c.kind.FileEntry? {
          assert Target(dest, c)[..|dest|] == dest;
          StandingBelow(before, now, dest, done, dirs, files, Target(dest, c));
        }
      }
    }
  }

  lemma {:induction false} DeclaredItself(dest: Path, cs: seq<Checked>)
    requires dest != []
    ensures DeclaredDirectory(dest, cs, dest)
  {
  }

  /** Making the home of a file does not make the file's own path. */
  lemma {:induction false} TargetFree(before: Tree, was: Tree, now: Tree, dest: Path, c: Checked, dirs: seq<Path>, created: seq<Path>, files: seq<Path>)
    requires dest != [] && OnlyDirectoriesAdded(was, now) && NewOnPath(dirs, created, dest, Parent(Target(dest, c)))
    requires Layered(before, was, dirs, files) && Layered(before, now, created, files)
    ensures Target(dest, c) in now <==> Target(dest, c) in was
  {
    hide WellFormed, ParentsFirst, SetOf, Distinct;
  }

  lemma {:induction false} HomeOf(dest: Path, c: Checked)
    requires dest != []
    ensures Home(dest, c) == if c.kind.DirectoryEntry? then dest + c.parts else Parent(dest + c.parts)
  {
  }

  lemma {:induction false} NotTheDestination(t: Tree, dest: Path, c: Checked, was: Tree)
    requires IsDirectory(was, dest) && OnlyDirectoriesAdded(was, t) && Target(dest, c) !in t
    ensures c.parts != []
  {
    assert dest + [] == dest;
  }

  // ---------------------------------------------------------------- the whole extraction

  /** Exactly the declared files and directories were added, all of them below the destination. */
  ghost predicate Extracted(before: Tree, now: Tree, dest: Path, cs: seq<Checked>)
    requires dest != []
  {
    && (forall p :: p in now <==> p in before || DeclaredDirectory(dest, cs, p) || p in FileTargets(dest, cs))
    && (forall p :: p in before ==> now[p] == before[p])
    && (forall p :: DeclaredDirectory(dest, cs, p) ==> IsDirectory(now, p))
    && (forall i :: 0 <= i < |cs| && cs[i].kind.FileEntry? ==> Holds(now, dest, cs[i]))
    && Distinct(FileTargets(dest, cs)) && (forall p :: p in FileTargets(dest, cs) ==> p !in before)
  }

  lemma {:induction false} ProgressIsExtracted(before: Tree, now: Tree, dest: Path, cs: seq<Checked>, dirs: seq<Path>, files: seq<Path>)
    requires dest != [] && Progress(before, now, dest, cs, dirs, files)
    ensures Extracted(before, now, dest, cs) && WellFormed(now) && files == FileTargets(dest, cs)
  {
    hide DeclaredDirectory, WellFormed, ParentsFirst, Holds, FileTargets;
    assert forall p :: p in files <==> p in SetOf(files);
  }

  /** The entries with their paths and kinds, as validation leaves them. */
  predicate CheckedFrom(cs: seq<Checked>, entries: seq<Entry>) {
    |cs| == |entries| && forall i :: 0 <= i < |cs| ==>
      SafeParts(entries[i].name).Some? && KindOf(entries[i]).Some? && cs[i] == CheckedOf(entries[i])
  }

  /** The destination may be missing, or be an empty directory; its parent must be a directory. */
  predicate DestinationOk(t: Tree, dest: Path)
    requires dest != []
  {
    (dest in t ==> IsDirectory(t, dest) && !exists q :: q in t.Keys && IsChild(q, dest)) && IsDirectory(t, Parent(dest))
  }

  lemma {:induction false} NothingExtracted(t: Tree, dest: Path)
    requires dest != [] && WellFormed(t) && IsDirectory(t, dest)
    ensures Progress(t, t, dest, [], [], [])
  {
    LayeredStart(t);
  }

  lemma {:induction false} DestinationMade(t: Tree, dest: Path)
    requires dest != [] && WellFormed(t) && dest !in t && IsDirectory(t, Parent(dest))
    ensures Progress(t, t[dest := Directory], dest, [], [dest], [])
  {
    hide Layered;
    LayeredStart(t);
    LayeredDirectory(t, t, [], [], dest);
    assert [] + [dest] == [dest];
  }

  lemma {:induction false} NothingBelowYet(t: Tree, dest: Path)
    requires dest != [] && WellFormed(t) && DestinationOk(t, dest)
    ensures NothingIn(t, dest)
  {
    forall p | p in t ensures !(dest < p) {
      NotBelow(t, dest, p);
    }
  }

  lemma {:induction false} NotBelow(t: Tree, dest: Path, p: Path)
    requires dest != [] && WellFormed(t) && DestinationOk(t, dest) && p in t
    ensures !(dest < p)
    decreases |p|
  {
    if dest < p {
      var up := Parent(p);
      assert IsDirectory(t, up);
      if |p| == |dest| + 1 {
        assert p[..|dest|] == dest;
        assert IsChild(p, dest);
      } else {
        assert dest < up;
        NotBelow(t, dest, up);
      }
    }
  }

  /** No file is where another entry needs a directory, and every stream has its declared size. */
  ghost predicate Extractable(dest: Path, entries: seq<Entry>)
    requires dest != []
  {
    exists cs :: CheckedFrom(cs, entries) && NoClash(dest, cs)
  }

  ghost predicate NoClash(dest: Path, cs: seq<Checked>)
    requires dest != []
  {
    forall i :: 0 <= i < |cs| && cs[i].kind.FileEntry? ==>
      StreamFits(cs[i].entry) && !DeclaredDirectory(dest, cs, Target(dest, cs[i]))
  }

  ghost predicate FitsAt(dest: Path, cs: seq<Checked>, i: nat)
    requires dest != []
  {
    i < |cs| && EntryFits(dest, cs[..i], cs[i])
  }

  lemma {:induction false} CheckedOnce(a: seq<Checked>, b: seq<Checked>, entries: seq<Entry>)
    requires CheckedFrom(a, entries) && CheckedFrom(b, entries)
    ensures a == b
  {
    hide SafeParts, KindOf;
  }

  lemma {:induction false} TargetsDiffer(dest: Path, a: Checked, b: Checked)
    requires Target(dest, a) == Target(dest, b)
    ensures a.parts == b.parts
  {
    assert (dest + a.parts)[|dest|..] == a.parts && (dest + b.parts)[|dest|..] == b.parts;
  }

  lemma {:induction false} DeclaredInPrefix(dest: Path, cs: seq<Checked>, i: nat, p: Path)
    requires dest != [] && i <= |cs| && DeclaredDirectory(dest, cs[..i], p)
    ensures DeclaredDirectory(dest, cs, p)
  {
    hide Declares;
    if p != dest {
      var k :| 0 <= k < i && Declares(dest, cs[..i][k], p);
      assert cs[k] == cs[..i][k];
    }
  }

  /** If the archive can be extracted, every entry fits when its turn comes. */
  lemma {:induction false} NotExtractable(dest: Path, entries: seq<Entry>, cs: seq<Checked>, i: nat, l: Limits, fold: string -> string)
    requires dest != [] && CheckedFrom(cs, entries) && i < |cs| && ArchiveAllowed(entries, l, fold)
    ensures Extractable(dest, entries) ==> FitsAt(dest, cs, i)
    ensures cs[i].entry.fileSize <= l.maxMemberBytes
  {
    hide SafeParts, KindOf, Declares, FileTargets, StreamFits, Normalized, ArchiveAllowed, DeclaredDirectory;
    assert EntryAllowed(entries[i], l) by { AllowedAt(entries, l, fold, i); }
    if Extractable(dest, entries) {
      var other :| CheckedFrom(other, entries) && NoClash(dest, other);
      CheckedOnce(other, cs, entries);
      var done, c := cs[..i], cs[i];
      forall p | p in FileTargets(dest, done) ensures !Declares(dest, c, p) && (c.kind.FileEntry? ==> p != Target(dest, c)) {
        FileTargetsBelow(dest, done, p);
        var k :| 0 <= k < |done| && done[k].kind.FileEntry? && p == Target(dest, done[k]);
        assert cs[k] == done[k];
        DeclaredAt(dest, cs, i, p);
        if p == Target(dest, c) {
          TargetsDiffer(dest, cs[k], c);
          PathsDiffer(entries, l, fold, k, i);
        }
      }
      if c.kind.FileEntry? && DeclaredDirectory(dest, done, Target(dest, c)) {
        DeclaredInPrefix(dest, cs, i, Target(dest, c));
      }
    }
  }

  lemma {:induction false} AllowedAt(entries: seq<Entry>, l: Limits, fold: string -> string, i: nat)
    requires ArchiveAllowed(entries, l, fold) && i < |entries|
    ensures EntryAllowed(entries[i], l)
  {
    hide EntryAllowed, Normalized;
  }

  lemma {:induction false} DeclaredAt(dest: Path, cs: seq<Checked>, i: nat, p: Path)
    requires dest != [] && i < |cs|
    ensures Declares(dest, cs[i], p) ==> DeclaredDirectory(dest, cs, p)
  {
    hide Declares;
  }

  /** If every entry fits, the archive can be extracted. */
  lemma {:induction false} AllFit(dest: Path, entries: seq<Entry>, cs: seq<Checked>)
    requires dest != [] && CheckedFrom(cs, entries) && forall i :: 0 <= i < |cs| ==> FitsAt(dest, cs, i)
    ensures Extractable(dest, entries)
  {
    hide SafeParts, KindOf, Declares, FileTargets, StreamFits, DeclaredDirectory, CheckedFrom;
    forall i | 0 <= i < |cs| && cs[i].kind.FileEntry?
      ensures StreamFits(cs[i].entry) && !DeclaredDirectory(dest, cs, Target(dest, cs[i]))
    {
      assert FitsAt(dest, cs, i);
      var p := Target(dest, cs[i]);
      if DeclaredDirectory(dest, cs, p) {
        var j := DeclaredBy(dest, cs, cs[..i], p);
        assert FitsAt(dest, cs, j);
        if j > i {
          TargetListed(dest, cs[..j], i);
        } else if j < i {
          assert cs[..i][j] == cs[j];
          DeclaredAt(dest, cs[..i], j, p);
        } else {
          NotOwnHome(dest, cs[i]);
        }
      }
    }
    assert NoClash(dest, cs);
  }

  lemma {:induction false} DeclaredBy(dest: Path, cs: seq<Checked>, some: seq<Checked>, p: Path) returns (j: nat)
    requires dest != [] && DeclaredDirectory(dest, cs, p) && !DeclaredDirectory(dest, some, p)
    ensures j < |cs| && Declares(dest, cs[j], p)
  {
    hide Declares;
    j :| j < |cs| && Declares(dest, cs[j], p);
  }

  lemma {:induction false} TargetListed(dest: Path, cs: seq<Checked>, i: nat)
    requires i < |cs| && cs[i].kind.FileEntry?
    ensures Target(dest, cs[i]) in FileTargets(dest, cs)
  {
    hide Target;
    if i < |cs| - 1 {
      assert cs[..|cs| - 1][i] == cs[i];
      TargetListed(dest, cs[..|cs| - 1], i);
    }
  }

  lemma {:induction false} NotOwnHome(dest: Path, c: Checked)
    requires dest != [] && c.kind.FileEntry?
    ensures !Declares(dest, c, Target(dest, c))
  {
  }

  /**
   safe_extract_zip: either it fails and the file system is as before, or the destination and the
   archive were acceptable and exactly the declared entries were added. When no operation fails it
   succeeds exactly if destination and archive are acceptable, every stream has its declared size,
   and no file stands where another entry needs a directory.
   */
  method SafeExtract(fs: FileSystem, dest: Path, entries: seq<Entry>, l: Limits, fold: string -> string)
    returns (r: Option<seq<Path>>, ghost checked: seq<Checked>)
    requires dest != [] && WellFormed(fs.nodes)
    modifies fs
    ensures r.None? ==> fs.nodes == old(fs.nodes)
    ensures r.Some? ==> DestinationOk(old(fs.nodes), dest) && ArchiveAllowed(entries, l, fold)
    ensures r.Some? ==> CheckedFrom(checked, entries) && r.value == FileTargets(dest, checked)
    ensures r.Some? ==> WellFormed(fs.nodes) && Extracted(old(fs.nodes), fs.nodes, dest, checked)
    ensures (forall n :: !fs.faults(n)) ==>
      (r.Some? <==> DestinationOk(old(fs.nodes), dest) && ArchiveAllowed(entries, l, fold) && Extractable(dest, entries))
  {
    hide Progress, Layered, FileTargets, ArchiveAllowed, SafeParts, KindOf, Extracted, WellFormed, EntryFits, NothingIn, Extractable;
    checked := [];
    if !DestinationOk(fs.nodes, dest) {
      return None, [];
    }
    var validated := Validate(entries, l, fold);
    if validated.None? {
      return None, [];
    }
    var cs := validated.value;
    AllowedOnes(entries, l, fold);
    NothingBelowYet(fs.nodes, dest);
    checked := cs;
    ghost var before := fs.nodes;
    var dirs: seq<Path>, files: seq<Path> := [], [];
    if dest in fs.nodes {
      NothingExtracted(before, dest);
    } else {
      var ok := fs.MakeDirectory(dest);
      if !ok {
        return None, [];
      }
      DestinationMade(before, dest);
      dirs := [dest];
    }
    assert cs[..0] == [];
    for i := 0 to |cs|
      invariant Progress(before, fs.nodes, dest, cs[..i], dirs, files)
      invariant (forall n :: !fs.faults(n)) ==> forall k :: 0 <= k < i ==> FitsAt(dest, cs, k)
    {
      assert cs[..i + 1] == cs[..i] + [cs[i]];
      var ok;
      ok, dirs, files := ExtractEntry(fs, dest, cs[i], l, dirs, files, before, cs[..i]);
      NotExtractable(dest, entries, cs, i, l, fold);
      if !ok {
        Rollback(fs, dirs, files, before);
        return None, [];
      }
    }
    assert cs[..|cs|] == cs;
    ProgressIsExtracted(before, fs.nodes, dest, cs, dirs, files);
    if forall n :: !fs.faults(n) {
      AllFit(dest, entries, cs);
    }
    r := Some(files);
  }

  lemma {:induction false} AllowedOnes(entries: seq<Entry>, l: Limits, fold: string -> string)
    requires ArchiveAllowed(entries, l, fold)
    ensures forall i :: 0 <= i < |entries| ==> SafeParts(entries[i].name).Some? && KindOf(entries[i]).Some?
  {
    hide SafeParts, KindOf;
  }

  /** Every extracted file lies strictly below the destination, along safe parts only. */
  lemma {:induction false} FilesAreBelow(before: Tree, now: Tree, dest: Path, cs: seq<Checked>, entries: seq<Entry>, i: nat)
    requires dest != [] && DestinationOk(before, dest) && Extracted(before, now, dest, cs) && CheckedFrom(cs, entries)
    requires i < |cs| && cs[i].kind.FileEntry?
    ensures dest < Target(dest, cs[i]) && forall part :: part in cs[i].parts ==> SafePart(part)
  {
    hide SafeParts, KindOf, SafePart, FileTargets, Content, Declares;
    PartsAreSafe(entries[i].name);
    assert cs[i].parts == SafeParts(entries[i].name).value;
    assert DeclaredDirectory(dest, cs, dest) && Holds(now, dest, cs[i]);
    assert dest + [] == dest;
    assert cs[i].parts != [];
    assert Target(dest, cs[i])[..|dest|] == dest;
  }

  function FileSize(t: Tree, p: Path): (n: nat) {
    if p in t && t[p].File? then |t[p].data| else 0
  }

  /** The bytes of all extracted files. */
  function ExtractedBytes(t: Tree, dest: Path, cs: seq<Checked>): (n: nat) {
    if cs == [] then 0
    else
      var last := cs[|cs| - 1];
      ExtractedBytes(t, dest, cs[..|cs| - 1]) + if last.kind.FileEntry? then FileSize(t, Target(dest, last)) else 0
  }

  /** What was extracted is no larger than declared in all. */
  lemma {:induction false} ExtractedAtMost(t: Tree, dest: Path, cs: seq<Checked>, entries: seq<Entry>)
    requires CheckedFrom(cs, entries)
    requires forall i :: 0 <= i < |cs| && cs[i].kind.FileEntry? ==> Holds(t, dest, cs[i])
    ensures ExtractedBytes(t, dest, cs) <= TotalSize(entries)
  {
    hide SafeParts, KindOf, Content;
    if cs != [] {
      ExtractedAtMost(t, dest, cs[..|cs| - 1], entries[..|entries| - 1]);
    }
  }

  /** With the default limits an extraction adds at most 512 files with at most 64 mebibytes in all. */
  lemma {:induction false} DefaultsBoundExtraction(before: Tree, now: Tree, dest: Path, cs: seq<Checked>, entries: seq<Entry>, fold: string -> string)
    requires dest != [] && Extracted(before, now, dest, cs) && CheckedFrom(cs, entries)
    requires ArchiveAllowed(entries, DEFAULT_LIMITS, fold)
    ensures |FileTargets(dest, cs)| <= 512 && ExtractedBytes(now, dest, cs) <= 67_108_864
  {
    hide SafeParts, KindOf, Content, Target, DeclaredDirectory, Normalized;
    ExtractedAtMost(now, dest, cs, entries);
    FewTargets(dest, cs);
  }

  lemma {:induction false} FewTargets(dest: Path, cs: seq<Checked>)
    ensures |FileTargets(dest, cs)| <= |cs|
  {
    hide Target;
    if cs != [] {
      FewTargets(dest, cs[..|cs| - 1]);
    }
  }
}
