/**
 The texts of one line among several: their reductions are listed in order, and a long one starts a
 skip, whatever the other lines are.
 */
module ShrinkLineTexts {
  import opened Basics
  import opened Texts
  import opened Decimals
  import opened Invoices
  import opened Trees
  import opened Json
  import opened Serialize
  import opened Totals
  import opened Fingerprint
  import opened Reductions
  import opened Enumerate
  import opened OneStepReductions
  import opened Measure
  import opened ShrinkTotal
  import opened ShrinkGreedy
  import opened ShrinkSkips
  import opened ShrinkParts
  import opened ShrinkShort

  // ---------------------------------------------------------------- order by a key

  /** A key that some operations have. */
  type Key = Operation -> Option<int>

  ghost predicate NoneHas(ops: seq<Operation>, key: Key) {
    forall k :: 0 <= k < |ops| ==> key(ops[k]).None?
  }

  /** Among the operations that have it, the key does not go down. */
  ghost predicate AscendingOps(ops: seq<Operation>, key: Key) {
    forall i, j :: 0 <= i < j < |ops| && key(ops[i]).Some? && key(ops[j]).Some? ==> key(ops[i]).value <= key(ops[j]).value
  }

  ghost predicate Ascending(rs: seq<Reduction>, key: Key) {
    forall i, j :: 0 <= i < j < |rs| && key(rs[i].operation).Some? && key(rs[j].operation).Some? ==>
      key(rs[i].operation).value <= key(rs[j].operation).value
  }

  lemma {:induction false} AscendingBetween(a: seq<Operation>, b: seq<Operation>, c: seq<Operation>, key: Key)
    requires NoneHas(a, key) && AscendingOps(b, key) && NoneHas(c, key)
    ensures AscendingOps(a + b + c, key)
  {
  }

  lemma {:induction false} NoneBoth(a: seq<Operation>, b: seq<Operation>, key: Key)
    requires NoneHas(a, key) && NoneHas(b, key)
    ensures NoneHas(a + b, key)
  {
  }

  lemma {:induction false} NoneAscends(ops: seq<Operation>, key: Key)
    requires NoneHas(ops, key)
    ensures AscendingOps(ops, key)
  {
  }

  /** Only the n-th segment has the key. */
  lemma {:induction false} FlattenAscends(ss: seq<seq<Operation>>, n: nat, key: Key)
    requires n < |ss| ==> AscendingOps(ss[n], key)
    requires forall m :: 0 <= m < |ss| && m != n ==> NoneHas(ss[m], key)
    ensures AscendingOps(Flatten(ss), key)
    ensures n >= |ss| ==> NoneHas(Flatten(ss), key)
    decreases |ss|
  {
    hide NoneHas, AscendingOps;
    if ss == [] {
      EmptyHasNone(key);
      NoneAscends([], key);
    } else {
      var rest := ss[1..];
      assert forall m :: 0 <= m < |rest| ==> rest[m] == ss[m + 1];
      assert Flatten(ss) == ss[0] + Flatten(rest);
      if n == 0 {
        FlattenAscends(rest, |rest|, key);
        EmptyHasNone(key);
        AscendingBetween([], ss[0], Flatten(rest), key);
        assert [] + ss[0] + Flatten(rest) == ss[0] + Flatten(rest);
      } else {
        FlattenAscends(rest, n - 1, key);
        EmptyHasNone(key);
        AscendingBetween(ss[0], Flatten(rest), [], key);
        assert ss[0] + Flatten(rest) + [] == ss[0] + Flatten(rest);
        if n >= |ss| {
          NoneBoth(ss[0], Flatten(rest), key);
        }
      }
    }
  }

  lemma {:induction false} EmptyHasNone(key: Key)
    ensures NoneHas([], key)
  {
  }

  lemma {:induction false} AscendingTail(rs: seq<Reduction>, key: Key)
    requires rs != [] && Ascending(rs, key)
    ensures Ascending(rs[1..], key)
    ensures forall x :: x in rs[1..] && key(rs[0].operation).Some? && key(x.operation).Some? ==>
      key(rs[0].operation).value <= key(x.operation).value
  {
    forall x | x in rs[1..] && key(rs[0].operation).Some? && key(x.operation).Some?
      ensures key(rs[0].operation).value <= key(x.operation).value
    {
      var k :| 0 <= k < |rs[1..]| && rs[1..][k] == x;
      assert rs[k + 1] == x;
    }
  }

  lemma {:induction false} AscendingCons(r: Reduction, rest: seq<Reduction>, key: Key)
    requires Ascending(rest, key)
    requires forall x :: x in rest && key(r.operation).Some? && key(x.operation).Some? ==> key(r.operation).value <= key(x.operation).value
    ensures Ascending([r] + rest, key)
  {
    var all := [r] + rest;
    forall i, j | 0 <= i < j < |all| && key(all[i].operation).Some? && key(all[j].operation).Some?
      ensures key(all[i].operation).value <= key(all[j].operation).value
    {
      assert rest[j - 1] in rest;
    }
  }

  lemma {:induction false} KeptAscends(rs: seq<Reduction>, seen: set<Json>, key: Key)
    requires Ascending(rs, key)
    ensures Ascending(KeepNew(rs, seen), key)
  {
    hide ValidInvoice, Payload, Ascending;
    if rs == [] {
      NothingAscends(key);
    } else {
      AscendingTail(rs, key);
      if ValidInvoice(rs[0].invoice) && Payload(rs[0].invoice) !in seen {
        var more := seen + {Payload(rs[0].invoice)};
        KeptAscends(rs[1..], more, key);
        KeptAreNew(rs[1..], more);
        AscendingCons(rs[0], KeepNew(rs[1..], more), key);
      } else {
        KeptAscends(rs[1..], seen, key);
      }
    }
  }

  lemma {:induction false} NothingAscends(key: Key)
    ensures Ascending([], key)
  {
  }

  /** What holds of the operations holds of the frontier. */
  lemma {:induction false} FrontierAscends(inv: Invoice, key: Key)
    requires AscendingOps(Operations(inv), key)
    ensures Ascending(OneStep(inv), key)
  {
    hide Operations, KeepNew, Payload, Enabled, Apply;
    KeptAscends(RawReductions(inv), {Payload(inv)}, key);
  }

  // ---------------------------------------------------------------- the texts of one line

  /** The rank of the reductions of one text of one line. */
  function TextKey(k: nat, f: LineText): (key: Key) {
    (op: Operation) => if op.ReduceLineText? && op.index == k && op.lineText == f then Some(Rank(op.textOp)) else None
  }

  lemma {:induction false} FrontHasNone(inv: Invoice, k: nat, f: LineText)
    ensures NoneHas(FrontOps(inv), TextKey(k, f))
  {
    hide FrontOps, Place, Rank;
    FrontInOrder(inv);
    forall n | 0 <= n < |FrontOps(inv)| ensures TextKey(k, f)(FrontOps(inv)[n]).None? {
      assert Place(FrontOps(inv)[n]) < 100;
      LineTextIsLate(FrontOps(inv)[n]);
    }
  }

  lemma {:induction false} LineTextIsLate(op: Operation)
    ensures op.ReduceLineText? ==> Place(op) >= 100
  {
  }

  function LineTextPlace(f: LineText): (n: nat)
    ensures n < |LINE_TEXTS| && LINE_TEXTS[n] == f
  {
    match f
    case IdentifierText => 0
    case NameText => 1
    case NoteText => 2
    case DescriptionText => 3
  }

  lemma {:induction false} OneTextAscends(line: Line, k: nat, f: LineText)
    ensures AscendingOps(LineTextOps(line, k, f), TextKey(k, f))
  {
    hide TextOps, LineTextOf;
    TextOpsInOrder(LineTextOf(line, f));
  }

  lemma {:induction false} OtherTextHasNone(line: Line, k: nat, f: LineText, other: LineText)
    requires f != other
    ensures NoneHas(LineTextOps(line, k, other), TextKey(k, f))
  {
    hide TextOps, LineTextOf;
  }

  lemma {:induction false} LineAscends(line: Line, k: nat, f: LineText)
    ensures AscendingOps(LineOps(line, k), TextKey(k, f))
  {
    hide TextOps, LineTextOf, LineOptionalOf, NumberOps, AscendingOps, NoneHas, Flatten, LineRemovalOps, LineTextOps, TextKey;
    var key := TextKey(k, f);
    var first := LineRemovalOps(line, k)
      + (if line.periodStart.Some? then [RemovePeriod(k)] else [])
      + (if line.classificationCode.Some? then [RemoveClassification(k)] else []);
    var texts := Map(LINE_TEXTS, f => LineTextOps(line, k, f));
    OneTextAscends(line, k, f);
    forall m | 0 <= m < |texts| && m != LineTextPlace(f) ensures NoneHas(texts[m], key) {
      OtherTextHasNone(line, k, f, LINE_TEXTS[m]);
    }
    FlattenAscends(texts, LineTextPlace(f), key);
    AroundHasNone(line, k, f);
    AscendingBetween(first, Flatten(texts), NumberOps(line, k), key);
  }

  lemma {:induction false} AroundHasNone(line: Line, k: nat, f: LineText)
    ensures NoneHas(NumberOps(line, k), TextKey(k, f))
    ensures NoneHas(LineRemovalOps(line, k)
      + (if line.periodStart.Some? then [RemovePeriod(k)] else [])
      + (if line.classificationCode.Some? then [RemoveClassification(k)] else []), TextKey(k, f))
  {
    hide LineOptionalOf, NumberEnabled, NumberOf, Filter;
  }

  lemma {:induction false} OtherLineHasNone(line: Line, i: nat, k: nat, f: LineText)
    requires i != k
    ensures NoneHas(LineOps(line, i), TextKey(k, f))
  {
    hide LineOps, TextEnabled, NumberEnabled, LineOptionalOf;
    forall n | 0 <= n < |LineOps(line, i)| ensures TextKey(k, f)(LineOps(line, i)[n]).None? {
      var op := LineOps(line, i)[n];
      assert op in LineOps(line, i);
      LineOpsExact(line, i, op);
    }
  }

  lemma {:induction false} LineSegments(lines: seq<Line>) returns (ops: seq<seq<Operation>>)
    ensures |ops| == |lines| && forall i :: 0 <= i < |lines| ==> ops[i] == LineOps(lines[i], i)
    ensures AllLineOps(lines) == Flatten(ops)
  {
    hide LineOps, Flatten;
    ops := seq(|lines|, i requires 0 <= i < |lines| => LineOps(lines[i], i));
  }

  /** The reductions of one text of one line are listed by rank. */
  lemma {:induction false} TextsAscend(inv: Invoice, k: nat, f: LineText)
    requires k < |inv.lines|
    ensures Ascending(OneStep(inv), TextKey(k, f))
  {
    hide FrontOps, LineOps, AscendingOps, NoneHas, Flatten, Operations, OneStep, TextKey, Ascending, AllLineOps;
    var key := TextKey(k, f);
    var ops := LineSegments(inv.lines);
    LineAscends(inv.lines[k], k, f);
    forall i | 0 <= i < |ops| && i != k ensures NoneHas(ops[i], key) {
      OtherLineHasNone(inv.lines[i], i, k, f);
    }
    FlattenAscends(ops, k, key);
    FrontHasNone(inv, k, f);
    EmptyHasNone(key);
    AscendingBetween(FrontOps(inv), Flatten(ops), [], key);
    FrontAndLines(inv);
    assert FrontOps(inv) + Flatten(ops) + [] == FrontOps(inv) + AllLineOps(inv.lines);
    FrontierAscends(inv, key);
  }

  // ---------------------------------------------------------------- reductions of one text

  function WithLineAt(inv: Invoice, k: nat, f: LineText, s: string): (r: Invoice)
    requires k < |inv.lines|
    ensures |r.lines| == |inv.lines|
  {
    WithLine(inv, k, WithLineText(inv.lines[k], f, s))
  }

  function TextAt(inv: Invoice, k: nat, f: LineText): (s: string)
    requires k < |inv.lines|
  {
    LineTextOf(inv.lines[k], f)
  }

  /** A text that the line may have: as an identifier, it is not that of another line. */
  predicate Free(inv: Invoice, k: nat, f: LineText, s: string)
    requires k < |inv.lines|
  {
    f.IdentifierText? ==> forall j :: 0 <= j < |inv.lines| && j != k ==> inv.lines[j].identifier != s
  }

  lemma {:induction false} WrittenAt(inv: Invoice, k: nat, f: LineText, s: string, t: string)
    requires k < |inv.lines| && s != ""
    ensures TextAt(WithLineAt(inv, k, f, s), k, f) == s
    ensures WithLineAt(WithLineAt(inv, k, f, s), k, f, t) == WithLineAt(inv, k, f, t)
    ensures Free(WithLineAt(inv, k, f, s), k, f, t) == Free(inv, k, f, t)
  {
    var r := WithLineAt(inv, k, f, s);
    assert forall j :: 0 <= j < |inv.lines| && j != k ==> r.lines[j] == inv.lines[j];
  }

  lemma {:induction false} LineAtValid(inv: Invoice, k: nat, f: LineText, t: TextOp)
    requires ValidInvoice(inv) && k < |inv.lines| && |TextAt(inv, k, f)| >= 2 && Free(inv, k, f, ReduceText(TextAt(inv, k, f), t))
    ensures ValidInvoice(WithLineAt(inv, k, f, ReduceText(TextAt(inv, k, f), t)))
  {
    hide ValidText, ValidOptional, ValidParty, ValidLine, ReduceText, SameNumber;
    var r := WithLineAt(inv, k, f, ReduceText(TextAt(inv, k, f), t));
    LineFieldValid(inv.lines[k], f, t);
    forall j | 0 <= j < |r.lines| ensures r.lines[j].vatRate == inv.lines[j].vatRate {
    }
    forall i, j | 0 <= i < j < |r.lines| ensures r.lines[i].identifier != r.lines[j].identifier {
    }
  }

  /** The operations that change this text of this line. */
  predicate Concerns(op: Operation, k: nat, f: LineText) {
    || (op.ReduceLineText? && op.index == k && op.lineText == f)
    || (op.RemoveLineField? && op.index == k && ((op.lineOptional.LineNote? && f.NoteText?) || (op.lineOptional.LineDescription? && f.DescriptionText?)))
  }

  lemma {:induction false} OthersKeepAt(inv: Invoice, op: Operation, k: nat, f: LineText)
    requires k < |inv.lines| && Enabled(inv, op) && !op.RemoveLine? && !Concerns(op, k, f)
    ensures |Apply(inv, op).lines| == |inv.lines| && TextAt(Apply(inv, op), k, f) == TextAt(inv, k, f)
  {
    hide TextEnabled, ReduceText, NumberEnabled, Reduced, PartyOptionalOf, PartyTextOf, InvoiceTextOf, WithPartyText,
      WithoutPartyOptional;
  }

  lemma {:induction false} RemovedAt(inv: Invoice, op: Operation, k: nat, f: LineText)
    requires k < |inv.lines| && Enabled(inv, op) && Concerns(op, k, f) && op.RemoveLineField?
    ensures |Apply(inv, op).lines| == |inv.lines| && TextAt(Apply(inv, op), k, f) == ""
  {
  }

  lemma {:induction false} SameTextAt(a: Invoice, b: Invoice, k: nat, f: LineText)
    requires SameInvoice(a, b)
    ensures |a.lines| == |b.lines| && (k < |a.lines| ==> TextAt(a, k, f) == TextAt(b, k, f))
  {
    hide SameNumber;
    if k < |a.lines| {
      assert SameLine(a.lines[k], b.lines[k]);
    }
  }

  lemma {:induction false} FewerLines(inv: Invoice, op: Operation)
    requires Enabled(inv, op) && op.RemoveLine?
    ensures |Apply(inv, op).lines| < |inv.lines|
  {
  }

  /** The operation reduces this text of this line, with the effect of t. */
  predicate ReducesAt(inv: Invoice, k: nat, f: LineText, op: Operation, t: TextOp)
    requires k < |inv.lines|
  {
    && op.ReduceLineText? && op.index == k && op.lineText == f && |TextAt(inv, k, f)| >= 2
    && ReduceText(TextAt(inv, k, f), op.textOp) == ReduceText(TextAt(inv, k, f), t)
  }

  lemma {:induction false} FoundAt(inv: Invoice, k: nat, f: LineText, t: TextOp, op: Operation)
    requires k < |inv.lines| && TextEnabled(TextAt(inv, k, f), t) && |TextAt(inv, k, f)| >= 2 && Enabled(inv, op)
    requires SameInvoice(Apply(inv, op), WithLineAt(inv, k, f, ReduceText(TextAt(inv, k, f), t)))
    ensures ReducesAt(inv, k, f, op, t) && Apply(inv, op) == WithLineAt(inv, k, f, ReduceText(TextAt(inv, k, f), t))
  {
    hide TextEnabled, ReduceText, SameInvoice, WithLineAt, TextAt, Enabled, Apply;
    var s := TextAt(inv, k, f);
    var reduced := WithLineAt(inv, k, f, ReduceText(s, t));
    ReducedNotEmpty(s, t);
    EnabledShortens(s, t);
    WrittenAt(inv, k, f, ReduceText(s, t), "A");
    SameTextAt(Apply(inv, op), reduced, k, f);
    if op.RemoveLine? {
      FewerLines(inv, op);
    } else if !Concerns(op, k, f) {
      OthersKeepAt(inv, op, k, f);
    } else if op.RemoveLineField? {
      RemovedAt(inv, op, k, f);
    } else {
      ReducedAt(inv, op);
      ReducedNotEmpty(s, op.textOp);
      WrittenAt(inv, k, f, ReduceText(s, op.textOp), "A");
    }
  }

  lemma {:induction false} ReducedAt(inv: Invoice, op: Operation)
    requires Enabled(inv, op) && op.ReduceLineText?
    ensures op.index < |inv.lines| && |TextAt(inv, op.index, op.lineText)| >= 2
    ensures Apply(inv, op) == WithLineAt(inv, op.index, op.lineText, ReduceText(TextAt(inv, op.index, op.lineText), op.textOp))
  {
    hide TextEnabled, ReduceText;
    TextIsLong(LineTextOf(inv.lines[op.index], op.lineText), op.textOp);
  }

  /** The frontier lists a reduction whose text is free, by an operation on that text. */
  lemma {:induction false} ListedAt(inv: Invoice, k: nat, f: LineText, t: TextOp) returns (i: nat)
    requires ValidInvoice(inv) && k < |inv.lines| && TextEnabled(TextAt(inv, k, f), t) && |TextAt(inv, k, f)| >= 2
    requires Free(inv, k, f, ReduceText(TextAt(inv, k, f), t))
    ensures LeadsTo(inv, i, WithLineAt(inv, k, f, ReduceText(TextAt(inv, k, f), t)))
    ensures ReducesAt(inv, k, f, OneStep(inv)[i].operation, t)
  {
    hide ValidInvoice, OneStep, Enabled, Apply, InvoiceMeasure, TextEnabled, ReduceText, SameInvoice, WithLineAt, TextAt, Free, ReducesAt;
    var op := ReduceLineText(k, f, t);
    AppliedAt(inv, k, f, t);
    LineAtValid(inv, k, f, t);
    OneStepComplete(inv, op);
    var r :| r in OneStep(inv) && SameInvoice(r.invoice, Apply(inv, op));
    i :| i < |OneStep(inv)| && OneStep(inv)[i] == r;
    OneStepSound(inv, r);
    FoundAt(inv, k, f, t, r.operation);
  }

  lemma {:induction false} AppliedAt(inv: Invoice, k: nat, f: LineText, t: TextOp)
    requires k < |inv.lines| && TextEnabled(TextAt(inv, k, f), t) && |TextAt(inv, k, f)| >= 2
    ensures Enabled(inv, ReduceLineText(k, f, t))
    ensures Apply(inv, ReduceLineText(k, f, t)) == WithLineAt(inv, k, f, ReduceText(TextAt(inv, k, f), t))
  {
    hide TextEnabled, ReduceText;
  }

  /** A long text is halved before it is replaced by A. */
  lemma {:induction false} HalfIsFirstAt(inv: Invoice, k: nat, f: LineText, i: nat, j: nat)
    requires k < |inv.lines| && |TextAt(inv, k, f)| >= 3
    requires i < |OneStep(inv)| && ReducesAt(inv, k, f, OneStep(inv)[i].operation, KeepPrefixHalf)
    requires j < |OneStep(inv)| && ReducesAt(inv, k, f, OneStep(inv)[j].operation, ReplaceMinimal)
    ensures i < j
  {
    hide OneStep, TextAt, ReduceText, TextEnabled;
    var s, a, b := TextAt(inv, k, f), OneStep(inv)[i].operation, OneStep(inv)[j].operation;
    HalfAndA(s);
    RankOfA(a.textOp);
    TextsAscend(inv, k, f);
    assert TextKey(k, f)(a) == Some(Rank(a.textOp)) && TextKey(k, f)(b) == Some(Rank(b.textOp));
    assert i != j;
  }

  /**
   A text of three or more characters of any line starts a skip: it is halved, and A is deferred. An
   identifier does so unless its half, or A, names another line.
   */
  lemma {:induction false} LineTextSkips(inv: Invoice, k: nat, f: LineText) returns (path: seq<Invoice>, y: Element)
    requires ValidInvoice(inv) && Modest(inv) && k < |inv.lines| && |TextAt(inv, k, f)| >= 3
    requires Free(inv, k, f, ReduceText(TextAt(inv, k, f), KeepPrefixHalf)) && Free(inv, k, f, "A")
    ensures SkipFrom(inv, path, y)
  {
    hide ValidInvoice, Modest, OneStep, TextEnabled, ReduceText, WithLineAt, TextAt, Free, SerializeInvoice, FrontierWritten, SkipFrom, ReducesAt;
    var s := TextAt(inv, k, f);
    HalfAndA(s);
    var half := ReduceText(s, KeepPrefixHalf);
    var q, least := WithLineAt(inv, k, f, half), WithLineAt(inv, k, f, "A");
    var i := ListedAt(inv, k, f, KeepPrefixHalf);
    var j := ListedAt(inv, k, f, ReplaceMinimal);
    HalfIsFirstAt(inv, k, f, i, j);
    ModestFrontier(inv, i, q);
    ModestFrontier(inv, j, least);
    ModestIsWritten(inv);
    WrittenAt(inv, k, f, half, "A");
    assert ReduceText(half, TEXT_OPS[4]) == "A" by { HalfToA(half); }
    var t := ReachesA(half, 4);
    var n := ListedAt(q, k, f, t);
    ModestFrontier(q, n, least);
    y := SerializeInvoice(least).value;
    path := [inv, q];
    ShortSkip(inv, q, i, j, n, y);
  }
}
