/** The workspace scan: a worklist over directories, retried when an entry vanishes under it. */
module DirectoryScan {
  import opened Basics

  const SCAN_ATTEMPTS := 3

  /** What inspecting an entry finds. A vanished entry or listing is gone by the time it is looked at. */
  datatype Item =
    | File(size: nat)
    | Folder(listing: Listing)
    | Link
    | Other
    | Unreadable
    | Vanished

  datatype Listing =
    | Entries(items: seq<Item>)
    | Refused
    | Gone

  /** What one attempt ends with. */
  datatype Outcome =
    | Totals(bytes: nat, count: nat, flagged: bool)
    | Retry

  // ---------------------------------------------------------------- recursive measures

  function Size(l: Listing): (n: nat)
    decreases l
  {
    if l.Entries? then SizeOf(l.items) else 0
  }

  function SizeOf(items: seq<Item>): (n: nat)
    decreases items
  {
    if items == [] then 0 else ItemSize(items[0]) + SizeOf(items[1..])
  }

  function ItemSize(i: Item): (n: nat)
    decreases i
  {
    match i
    case File(size) => size
    case Folder(l) => Size(l)
    case _ => 0
  }

  function Count(l: Listing): (n: nat)
    decreases l
  {
    if l.Entries? then CountOf(l.items) else 0
  }

  function CountOf(items: seq<Item>): (n: nat)
    decreases items
  {
    if items == [] then 0 else 1 + ItemCount(items[0]) + CountOf(items[1..])
  }

  /** The entries below an item. */
  function ItemCount(i: Item): (n: nat)
    decreases i
  {
    if i.Folder? then Count(i.listing) else 0
  }

  /** No link and nothing that cannot be inspected, at any depth. */
  predicate Clean(l: Listing)
    decreases l
  {
    match l
    case Entries(items) => CleanAll(items)
    case Refused => false
    case Gone => true
  }

  predicate CleanAll(items: seq<Item>)
    decreases items
  {
    items == [] || (CleanItem(items[0]) && CleanAll(items[1..]))
  }

  predicate CleanItem(i: Item)
    decreases i
  {
    match i
    case Link => false
    case Unreadable => false
    case Folder(l) => Clean(l)
    case _ => true
  }

  /** Nothing vanished, at any depth. */
  predicate Stable(l: Listing)
    decreases l
  {
    match l
    case Entries(items) => StableAll(items)
    case Refused => true
    case Gone => false
  }

  predicate StableAll(items: seq<Item>)
    decreases items
  {
    items == [] || (StableItem(items[0]) && StableAll(items[1..]))
  }

  predicate StableItem(i: Item)
    decreases i
  {
    match i
    case Vanished => false
    case Folder(l) => Stable(l)
    case _ => true
  }

  // ---------------------------------------------------------------- the worklist

  function SizeOfPending(pending: seq<Listing>): (n: nat) {
    if pending == [] then 0 else SizeOfPending(pending[..|pending| - 1]) + Size(pending[|pending| - 1])
  }

  function CountOfPending(pending: seq<Listing>): (n: nat) {
    if pending == [] then 0 else CountOfPending(pending[..|pending| - 1]) + Count(pending[|pending| - 1])
  }

  predicate CleanPending(pending: seq<Listing>) {
    forall i :: 0 <= i < |pending| ==> Clean(pending[i])
  }

  predicate StablePending(pending: seq<Listing>) {
    forall i :: 0 <= i < |pending| ==> Stable(pending[i])
  }

  /** The weight of the work left: one for each pending directory and each entry below them. */
  function Work(pending: seq<Listing>): (n: nat) {
    |pending| + CountOfPending(pending)
  }

  lemma {:induction false} PendingSnoc(pending: seq<Listing>, l: Listing)
    ensures SizeOfPending(pending + [l]) == SizeOfPending(pending) + Size(l)
    ensures CountOfPending(pending + [l]) == CountOfPending(pending) + Count(l)
    ensures CleanPending(pending + [l]) <==> CleanPending(pending) && Clean(l)
    ensures StablePending(pending + [l]) <==> StablePending(pending) && Stable(l)
    ensures Work(pending + [l]) == Work(pending) + 1 + Count(l)
  {
    hide Size, Count, Clean, Stable;
    var all := pending + [l];
    assert all[..|all| - 1] == pending && all[|all| - 1] == l;
    assert forall i :: 0 <= i < |all| ==> all[i] == if i < |pending| then pending[i] else l;
    if CleanPending(all) {
      assert Clean(all[|pending|]);
      assert forall i :: 0 <= i < |pending| ==> Clean(all[i]);
    }
    if StablePending(all) {
      assert Stable(all[|pending|]);
      assert forall i :: 0 <= i < |pending| ==> Stable(all[i]);
    }
  }

  lemma {:induction false} PendingLast(pending: seq<Listing>)
    requires pending != []
    ensures var init, last := pending[..|pending| - 1], pending[|pending| - 1];
      && SizeOfPending(pending) == SizeOfPending(init) + Size(last)
      && CountOfPending(pending) == CountOfPending(init) + Count(last)
      && (CleanPending(pending) <==> CleanPending(init) && Clean(last))
      && (StablePending(pending) <==> StablePending(init) && Stable(last))
      && Work(pending) == Work(init) + 1 + Count(last)
  {
    assert pending == pending[..|pending| - 1] + [pending[|pending| - 1]];
    PendingSnoc(pending[..|pending| - 1], pending[|pending| - 1]);
  }

  /** What is known in the middle of an attempt: done, pending and the rest of the current listing make up the whole. */
  ghost predicate Midway(root: Listing, bytes: nat, count: nat, pending: seq<Listing>, rest: seq<Item>) {
    && Size(root) == bytes + SizeOfPending(pending) + SizeOf(rest)
    && Count(root) == count + CountOfPending(pending) + CountOf(rest)
    && (Clean(root) <==> CleanPending(pending) && CleanAll(rest))
    && (Stable(root) <==> StablePending(pending) && StableAll(rest))
  }

  lemma {:induction false} Begins(root: Listing)
    ensures Midway(root, 0, 0, [root], [])
  {
    assert [root] == [] + [root];
    PendingSnoc([], root);
  }

  /** Taking a directory off the worklist. */
  lemma {:induction false} Opens(root: Listing, bytes: nat, count: nat, pending: seq<Listing>)
    requires pending != [] && Midway(root, bytes, count, pending, [])
    ensures var init, last := pending[..|pending| - 1], pending[|pending| - 1];
      && (last.Gone? ==> !Stable(root)) && (last.Refused? ==> !Clean(root))
      && (last.Entries? ==> Midway(root, bytes, count, init, last.items) && Work(init) + CountOf(last.items) < Work(pending))
  {
    PendingLast(pending);
  }

  /** Counting one entry. */
  lemma {:induction false} Inspects(root: Listing, bytes: nat, count: nat, pending: seq<Listing>, rest: seq<Item>)
    requires rest != [] && Midway(root, bytes, count, pending, rest)
    ensures Count(root) >= count + 1
    ensures match rest[0]
      case Vanished => !Stable(root)
      case Link => !Clean(root)
      case Unreadable => !Clean(root)
      case File(size) => Midway(root, bytes + size, count + 1, pending, rest[1..])
      case Folder(l) => Midway(root, bytes, count + 1, pending + [l], rest[1..])
      case Other => Midway(root, bytes, count + 1, pending, rest[1..])
    ensures match rest[0]
      case Folder(l) => Work(pending + [l]) + CountOf(rest[1..]) == Work(pending) + CountOf(rest)
      case _ => Work(pending) + CountOf(rest[1..]) <= Work(pending) + CountOf(rest)
  {
    hide Work, SizeOfPending, CountOfPending, CleanPending, StablePending;
    FirstItem(rest);
    if rest[0].Folder? {
      PendingSnoc(pending, rest[0].listing);
    }
  }

  lemma {:induction false} FirstItem(items: seq<Item>)
    requires items != []
    ensures SizeOf(items) == ItemSize(items[0]) + SizeOf(items[1..])
    ensures CountOf(items) == 1 + ItemCount(items[0]) + CountOf(items[1..])
    ensures CleanAll(items) <==> CleanItem(items[0]) && CleanAll(items[1..])
    ensures StableAll(items) <==> StableItem(items[0]) && StableAll(items[1..])
  {
  }

  lemma {:induction false} Ends(root: Listing, bytes: nat, count: nat)
    requires Midway(root, bytes, count, [], [])
    ensures bytes == Size(root) && count == Count(root) && Clean(root) && Stable(root)
  {
  }

  /** What an attempt may end with. */
  ghost predicate Agrees(o: Outcome, root: Listing, limit: nat) {
    match o
    case Retry => !Stable(root)
    case Totals(bytes, count, flagged) =>
      if flagged then !Clean(root) || Count(root) > limit
      else Clean(root) && Stable(root) && Count(root) <= limit && bytes == Size(root) && count == Count(root)
  }

  /** One attempt over the listings as they are found. */
  method Attempt(root: Listing, limit: nat) returns (o: Outcome)
    ensures Agrees(o, root, limit)
  {
    hide Midway, Size, Count, Clean, Stable, Work, SizeOf, CountOf, CleanAll, StableAll;
    var totalBytes: nat, entryCount: nat := 0, 0;
    var pending := [root];
    Begins(root);
    while pending != []
      invariant Midway(root, totalBytes, entryCount, pending, [])
      invariant entryCount <= limit
      decreases Work(pending)
    {
      ghost var before := pending;
      Opens(root, totalBytes, entryCount, pending);
      var directory := pending[|pending| - 1];
      pending := pending[..|pending| - 1];
      if directory.Gone? {
        return Retry;
      }
      if directory.Refused? {
        return Totals(totalBytes, entryCount, true);
      }
      var entries := directory.items;
      assert entries[0..] == entries;
      for i := 0 to |entries|
        invariant Midway(root, totalBytes, entryCount, pending, entries[i..])
        invariant Work(pending) + CountOf(entries[i..]) < Work(before)
        invariant entryCount <= limit
      {
        assert entries[i..][0] == entries[i] && entries[i..][1..] == entries[i + 1..];
        Inspects(root, totalBytes, entryCount, pending, entries[i..]);
        entryCount := entryCount + 1;
        if entryCount > limit {
          return Totals(totalBytes, entryCount, true);
        }
        match entries[i] {
          case Vanished => return Retry;
          case Unreadable => return Totals(totalBytes, entryCount, true);
          case Link => return Totals(totalBytes, entryCount, true);
          case Folder(l) => pending := pending + [l];
          case File(size) => totalBytes := totalBytes + size;
          case Other =>
        }
      }
      assert entries[|entries|..] == [];
    }
    Ends(root, totalBytes, entryCount);
    o := Totals(totalBytes, entryCount, false);
  }

  /**
   _directory_usage: attempt k finds the workspace as views(k). A result that is not flagged is
   the exact total of one complete, undisturbed view, never a mix of several.
   */
  method DirectoryUsage(views: nat -> Listing, limit: nat) returns (bytes: nat, count: nat, flagged: bool)
    ensures !flagged ==> exists k: nat :: k < SCAN_ATTEMPTS && CompleteView(views(k), limit, bytes, count)
    ensures Stable(views(0)) ==> (flagged <==> !Clean(views(0)) || Count(views(0)) > limit)
    ensures Stable(views(0)) && !flagged ==> CompleteView(views(0), limit, bytes, count)
  {
    hide Size, Count, Clean, Stable;
    for k := 0 to SCAN_ATTEMPTS
      invariant k > 0 ==> !Stable(views(0))
    {
      var o := Attempt(views(k), limit);
      if o.Totals? {
        return o.bytes, o.count, o.flagged;
      }
    }
    return 0, 0, true;
  }

  /** The totals are those of a view in which nothing vanished and everything could be inspected. */
  ghost predicate CompleteView(l: Listing, limit: nat, bytes: nat, count: nat) {
    Clean(l) && Stable(l) && Count(l) <= limit && bytes == Size(l) && count == Count(l)
  }

  // ---------------------------------------------------------------- the file limit

  /** The monitor's test on the result of a scan. */
  predicate OverFileLimit(bytes: nat, count: nat, flagged: bool, baseBytes: nat, baseCount: nat, maxFiles: nat, maxGrowth: nat) {
    flagged || count - baseCount > maxFiles || bytes - baseBytes > maxGrowth
  }

  /**
   The scan stops early at one entry more than the policy allows; on an undisturbed workspace the
   verdict is the one a full scan would give.
   */
  method FileLimitVerdict(l: Listing, baseBytes: nat, baseCount: nat, maxFiles: nat, maxGrowth: nat) returns (over: bool)
    requires Stable(l)
    ensures over <==> !Clean(l) || Count(l) - baseCount > maxFiles || Size(l) - baseBytes > maxGrowth
  {
    hide Size, Count, Clean, Stable;
    var bytes, count, flagged := DirectoryUsage(_ => l, baseCount + maxFiles + 1);
    over := OverFileLimit(bytes, count, flagged, baseBytes, baseCount, maxFiles, maxGrowth);
  }
}
