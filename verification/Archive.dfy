/** Archive entries and the checks they must pass before anything is extracted. */
module Archive {
  import opened Basics
  import opened Files

  datatype FileType = NoType | RegularType | DirectoryType | LinkType | SpecialType

  datatype Kind = FileEntry | DirectoryEntry

  /** An entry of the archive's index, with the stream its data decompresses to; None in it is a read error. */
  datatype Entry = Entry(
    name: string,
    fileType: FileType,
    encrypted: bool,
    fileSize: nat,
    compressSize: nat,
    chunks: seq<Option<seq<bv8>>>)

  datatype Limits = Limits(maxMembers: nat, maxMemberBytes: nat, maxTotalBytes: nat, maxRatio: nat)

  const DEFAULT_LIMITS := Limits(512, 16 * 1024 * 1024, 64 * 1024 * 1024, 100)

  // ---------------------------------------------------------------- member names

  function Portable(name: string): (s: string)
    ensures |s| == |name| && '\\' !in s
  {
    if name == "" then "" else [if name[0] == '\\' then '/' else name[0]] + Portable(name[1..])
  }

  /** The pieces between slashes. */
  function Split(s: string): (parts: seq<string>)
    ensures |parts| >= 1
    ensures forall i :: 0 <= i < |parts| ==> '/' !in parts[i]
    ensures forall i :: 0 <= i < |parts| ==> forall c :: c in parts[i] ==> c in s
  {
    if s == "" then [""]
    else
      var rest := Split(s[1..]);
      if s[0] == '/' then [""] + rest else [[s[0]] + rest[0]] + rest[1..]
  }

  predicate IsAsciiLetter(c: char) {
    'a' <= c <= 'z' || 'A' <= c <= 'Z'
  }

  predicate Kept(part: string) {
    part != "" && part != "."
  }

  /** _safe_member_parts; None is the refusal of an unsafe path. */
  function SafeParts(name: string): (parts: Option<seq<string>>) {
    var portable := Portable(name);
    if portable == "" || portable[0] == '/' || (|portable| >= 2 && IsAsciiLetter(portable[0]) && portable[1] == ':')
       || '\0' in portable then None
    else
      var kept := Filter(Split(portable), Kept);
      if ".." in kept then None else Some(kept)
  }

  predicate SafePart(part: string) {
    part != "" && part != "." && part != ".." && '/' !in part && '\\' !in part && '\0' !in part
  }

  /** Accepted names lead strictly downwards: no part can climb, and none hides another separator. */
  lemma {:induction false} PartsAreSafe(name: string)
    requires SafeParts(name).Some?
    ensures forall part :: part in SafeParts(name).value ==> SafePart(part)
  {
    hide Split, Portable;
    var portable := Portable(name);
    forall part | part in SafeParts(name).value ensures SafePart(part) {
      assert part in Split(portable);
      var i :| 0 <= i < |Split(portable)| && Split(portable)[i] == part;
      assert forall c :: c in part ==> c in portable;
    }
  }

  function Joined(parts: seq<string>): (s: string) {
    if parts == [] then "" else if |parts| == 1 then parts[0] else parts[0] + "/" + Joined(parts[1..])
  }

  // ---------------------------------------------------------------- the validation pass

  predicate EndsWithSlash(name: string) {
    name != "" && name[|name| - 1] == '/'
  }

  function KindOf(e: Entry): (k: Option<Kind>) {
    match e.fileType
    case LinkType => None
    case SpecialType => None
    case DirectoryType => Some(DirectoryEntry)
    case _ => Some(if EndsWithSlash(e.name) then DirectoryEntry else FileEntry)
  }

  /** The checks of one entry by itself. */
  predicate EntryAllowed(e: Entry, l: Limits) {
    && SafeParts(e.name).Some? && KindOf(e).Some? && !e.encrypted && e.fileSize <= l.maxMemberBytes
    && (e.fileSize > 0 ==> e.compressSize > 0 && e.fileSize <= l.maxRatio * e.compressSize)
  }

  function TotalSize(entries: seq<Entry>): (n: nat) {
    if entries == [] then 0 else TotalSize(entries[..|entries| - 1]) + entries[|entries| - 1].fileSize
  }

  /** Case folding is a parameter: names that fold alike count as duplicates. */
  function Normalized(e: Entry, fold: string -> string): (s: string)
    requires SafeParts(e.name).Some?
  {
    fold(Joined(SafeParts(e.name).value))
  }

  /** What an archive must satisfy as a whole. */
  ghost predicate ArchiveAllowed(entries: seq<Entry>, l: Limits, fold: string -> string) {
    && |entries| <= l.maxMembers && TotalSize(entries) <= l.maxTotalBytes
    && (forall i :: 0 <= i < |entries| ==> EntryAllowed(entries[i], l))
    && (forall i, j :: 0 <= i < j < |entries| ==> Normalized(entries[i], fold) != Normalized(entries[j], fold))
  }

  /** An entry that passed, with its path below the destination. */
  datatype Checked = Checked(entry: Entry, parts: seq<string>, kind: Kind)

  function CheckedOf(e: Entry): (c: Checked)
    requires SafeParts(e.name).Some? && KindOf(e).Some?
  {
    Checked(e, SafeParts(e.name).value, KindOf(e).value)
  }

  /** The validation loop: it accepts exactly the allowed archives. */
  method Validate(entries: seq<Entry>, l: Limits, fold: string -> string) returns (r: Option<seq<Checked>>)
    ensures r.Some? <==> ArchiveAllowed(entries, l, fold)
    ensures r.Some? ==> |r.value| == |entries|
    ensures r.Some? ==> forall i :: 0 <= i < |entries| ==> r.value[i] == CheckedOf(entries[i])
  {
    hide SafeParts, KindOf, Normalized;
    if |entries| > l.maxMembers {
      return None;
    }
    var validated: seq<Checked> := [];
    var seen: set<string> := {};
    var totalBytes: nat := 0;
    assert entries[..0] == [];
    for i := 0 to |entries|
      invariant |validated| == i && totalBytes == TotalSize(entries[..i]) <= l.maxTotalBytes
      invariant forall k :: 0 <= k < i ==> EntryAllowed(entries[k], l) && validated[k] == CheckedOf(entries[k])
      invariant seen == set k | 0 <= k < i :: Normalized(entries[k], fold)
      invariant forall j, k :: 0 <= j < k < i ==> Normalized(entries[j], fold) != Normalized(entries[k], fold)
    {
      var e := entries[i];
      PrefixTotal(entries, i);
      var parts := SafeParts(e.name);
      if parts.None? {
        return None;
      }
      var normalized := Normalized(e, fold);
      if normalized in seen {
        var k :| 0 <= k < i && Normalized(entries[k], fold) == normalized;
        return None;
      }
      seen := seen + {normalized};
      var kind := KindOf(e);
      if kind.None? || e.encrypted || e.fileSize > l.maxMemberBytes {
        return None;
      }
      totalBytes := totalBytes + e.fileSize;
      if totalBytes > l.maxTotalBytes {
        return None;
      }
      if e.fileSize > 0 && (e.compressSize == 0 || e.fileSize > l.maxRatio * e.compressSize) {
        return None;
      }
      validated := validated + [Checked(e, parts.value, kind.value)];
    }
    assert entries[..|entries|] == entries;
    r := Some(validated);
  }

  lemma {:induction false} PrefixTotal(entries: seq<Entry>, i: nat)
    requires i < |entries|
    ensures TotalSize(entries[..i + 1]) == TotalSize(entries[..i]) + entries[i].fileSize
    ensures TotalSize(entries[..i + 1]) <= TotalSize(entries)
    decreases |entries|
  {
    assert entries[..i + 1][..i] == entries[..i];
    if i + 1 < |entries| {
      var init := entries[..|entries| - 1];
      assert init[..i] == entries[..i] && init[..i + 1] == entries[..i + 1];
      PrefixTotal(init, i);
    } else {
      assert entries[..i + 1] == entries;
    }
  }

  /** Accepted entries lead to different paths. */
  lemma {:induction false} PathsDiffer(entries: seq<Entry>, l: Limits, fold: string -> string, i: nat, j: nat)
    requires ArchiveAllowed(entries, l, fold) && i < j < |entries|
    ensures SafeParts(entries[i].name) != SafeParts(entries[j].name)
  {
    hide SafeParts;
    assert Normalized(entries[i], fold) != Normalized(entries[j], fold);
  }
}
