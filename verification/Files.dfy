/** A small file system: nodes by path, with operations that may fail. */
module Files {
  type Path = seq<string>

  datatype Node =
    | File(data: seq<bv8>)
    | Directory
    | Link

  type Tree = map<Path, Node>

  function Parent(p: Path): (q: Path)
    requires p != []
  {
    p[..|p| - 1]
  }

  predicate IsDirectory(t: Tree, p: Path) {
    p in t && t[p] == Directory
  }

  /** The root is a directory, and everything else lies in a directory. */
  predicate WellFormed(t: Tree) {
    IsDirectory(t, []) && forall p :: p in t && p != [] ==> IsDirectory(t, Parent(p))
  }

  predicate IsChild(q: Path, p: Path) {
    |q| == |p| + 1 && q[..|p|] == p
  }

  predicate HasChild(t: Tree, p: Path) {
    exists q :: q in t && IsChild(q, p)
  }

  /** All ancestors of a directory are directories. */
  lemma {:induction false} AncestorsAreDirectories(t: Tree, p: Path, k: nat)
    requires WellFormed(t) && IsDirectory(t, p) && k <= |p|
    ensures IsDirectory(t, p[..k])
    decreases |p|
  {
    if k < |p| {
      assert Parent(p)[..k] == p[..k];
      AncestorsAreDirectories(t, Parent(p), k);
    } else {
      assert p[..k] == p;
    }
  }

  /** No operation fails for outside reasons from number n on. */
  ghost predicate CalmFrom(faults: nat -> bool, n: nat) {
    forall k: nat :: k >= n ==> !faults(k)
  }

  class FileSystem {
    var nodes: Tree

    /** Which of the following operations fail for outside reasons. */
    const faults: nat -> bool
    var operations: nat

    constructor (t: Tree, f: nat -> bool)
      ensures nodes == t && faults == f
    {
      nodes, faults, operations := t, f, 0;
    }

    method Faulty() returns (fault: bool)
      modifies this`operations
      ensures fault == faults(old(operations)) && operations == old(operations) + 1
    {
      fault := faults(operations);
      operations := operations + 1;
    }

    method MakeDirectory(p: Path) returns (ok: bool)
      modifies this
      ensures operations == old(operations) + 1
      ensures !ok ==> nodes == old(nodes)
      ensures ok ==> p != [] && p !in old(nodes) && IsDirectory(old(nodes), Parent(p)) && nodes == old(nodes)[p := Directory]
      ensures !ok ==> faults(old(operations)) || p == [] || p in nodes || !IsDirectory(nodes, Parent(p))
    {
      var fault := Faulty();
      if fault || p == [] || p in nodes || !IsDirectory(nodes, Parent(p)) {
        return false;
      }
      nodes := nodes[p := Directory];
      ok := true;
    }

    /** Exclusive creation of an empty file. */
    method CreateFile(p: Path) returns (ok: bool)
      modifies this
      ensures !ok ==> nodes == old(nodes)
      ensures ok ==> p != [] && p !in old(nodes) && IsDirectory(old(nodes), Parent(p)) && nodes == old(nodes)[p := File([])]
      ensures !ok ==> faults(old(operations)) || p == [] || p in nodes || !IsDirectory(nodes, Parent(p))
    {
      var fault := Faulty();
      if fault || p == [] || p in nodes || !IsDirectory(nodes, Parent(p)) {
        return false;
      }
      nodes := nodes[p := File([])];
      ok := true;
    }

    /** Exclusive creation of a file with its whole content, as one step. */
    method WriteNew(p: Path, data: seq<bv8>) returns (ok: bool)
      modifies this
      ensures operations == old(operations) + 1
      ensures !ok ==> nodes == old(nodes)
      ensures ok ==> p != [] && p !in old(nodes) && IsDirectory(old(nodes), Parent(p)) && nodes == old(nodes)[p := File(data)]
      ensures !ok ==> faults(old(operations)) || p == [] || p in nodes || !IsDirectory(nodes, Parent(p))
    {
      var fault := Faulty();
      if fault || p == [] || p in nodes || !IsDirectory(nodes, Parent(p)) {
        return false;
      }
      nodes := nodes[p := File(data)];
      ok := true;
    }

    method Append(p: Path, data: seq<bv8>) returns (ok: bool)
      requires p in nodes && nodes[p].File?
      modifies this
      ensures !ok ==> nodes == old(nodes)
      ensures ok ==> nodes == old(nodes)[p := File(old(nodes)[p].data + data)]
      ensures !ok ==> faults(old(operations))
    {
      var fault := Faulty();
      if fault {
        return false;
      }
      nodes := nodes[p := File(nodes[p].data + data)];
      ok := true;
    }

    /** Remove a file; nothing happens when there is none. */
    method Unlink(p: Path)
      modifies this
      ensures nodes == if p in old(nodes) && old(nodes)[p].File? then old(nodes) - {p} else old(nodes)
    {
      if p in nodes && nodes[p].File? {
        nodes := nodes - {p};
      }
    }

    /** Remove a directory that has no children; otherwise nothing happens. */
    method RemoveDirectory(p: Path)
      modifies this
      ensures nodes == if IsDirectory(old(nodes), p) && !HasChild(old(nodes), p) then old(nodes) - {p} else old(nodes)
    {
      if IsDirectory(nodes, p) && !exists q :: q in nodes.Keys && IsChild(q, p) {
        nodes := nodes - {p};
      }
    }
  }
}
