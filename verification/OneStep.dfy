/** The reductions that the shrinker may try, and the loops that collect them. */
module OneStepReductions {
  import opened Basics
  import opened Decimals
  import opened Invoices
  import opened Json
  import opened Fingerprint
  import opened Reductions
  import opened Enumerate
  import opened Measure

  ghost predicate DistinctPayloads(rs: seq<Reduction>) {
    forall i, j :: 0 <= i < j < |rs| ==> Payload(rs[i].invoice) != Payload(rs[j].invoice)
  }

  lemma {:induction false} KeptAreNew(rs: seq<Reduction>, seen: set<Json>)
    ensures forall r :: r in KeepNew(rs, seen) ==> r in rs && ValidInvoice(r.invoice) && Payload(r.invoice) !in seen
    ensures DistinctPayloads(KeepNew(rs, seen))
  {
    hide ValidInvoice, Payload;
    if rs != [] {
      KeptAreNew(rs[1..], seen);
      KeptAreNew(rs[1..], seen + {Payload(rs[0].invoice)});
    }
  }

  lemma {:induction false} EveryPayloadKept(rs: seq<Reduction>, seen: set<Json>, r: Reduction)
    requires r in rs && ValidInvoice(r.invoice) && Payload(r.invoice) !in seen
    ensures exists k :: k in KeepNew(rs, seen) && Payload(k.invoice) == Payload(r.invoice)
  {
    hide ValidInvoice, Payload;
    var first := rs[0];
    if ValidInvoice(first.invoice) && Payload(first.invoice) !in seen {
      assert KeepNew(rs, seen)[0] == first;
      if Payload(first.invoice) != Payload(r.invoice) {
        EveryPayloadKept(rs[1..], seen + {Payload(first.invoice)}, r);
        var k :| k in KeepNew(rs[1..], seen + {Payload(first.invoice)}) && Payload(k.invoice) == Payload(r.invoice);
        assert k in KeepNew(rs, seen);
      } else {
        assert first in KeepNew(rs, seen);
      }
    } else {
      EveryPayloadKept(rs[1..], seen, r);
      var k :| k in KeepNew(rs[1..], seen) && Payload(k.invoice) == Payload(r.invoice);
      assert k in KeepNew(rs, seen);
    }
  }

  lemma {:induction false} RawIsApplied(inv: Invoice, r: Reduction)
    ensures r in RawReductions(inv) <==> Enabled(inv, r.operation) && r.invoice == Apply(inv, r.operation)
  {
    hide Operations, Enabled, Apply;
    OperationsExact(inv, r.operation);
    if Enabled(inv, r.operation) && r.invoice == Apply(inv, r.operation) {
      var k :| 0 <= k < |Operations(inv)| && Operations(inv)[k] == r.operation;
      assert RawReductions(inv)[k] == r;
    }
  }

  /**
   Every listed reduction is a declared operation applied to the invoice, gives another valid
   invoice, and is strictly simpler.
   */
  lemma {:induction false} OneStepSound(inv: Invoice, r: Reduction)
    requires ValidInvoice(inv) && r in OneStep(inv)
    ensures Enabled(inv, r.operation) && r.invoice == Apply(inv, r.operation)
    ensures ValidInvoice(r.invoice) && InvoiceMeasure(r.invoice) < InvoiceMeasure(inv)
  {
    hide ValidInvoice, Payload, Enabled, Apply, RawReductions, KeepNew, InvoiceMeasure;
    KeptAreNew(RawReductions(inv), {Payload(inv)});
    RawIsApplied(inv, r);
    EveryStepShrinks(inv, r.operation);
  }

  /** Every declared operation whose result is valid is represented, up to number representation. */
  lemma {:induction false} OneStepComplete(inv: Invoice, op: Operation)
    requires ValidInvoice(inv) && Enabled(inv, op) && ValidInvoice(Apply(inv, op))
    ensures exists r :: r in OneStep(inv) && SameInvoice(r.invoice, Apply(inv, op))
  {
    hide ValidInvoice, Payload, Enabled, Apply, RawReductions, KeepNew, InvoiceMeasure, SameInvoice;
    var r := Reduction(op, Apply(inv, op));
    RawIsApplied(inv, r);
    EveryStepShrinks(inv, op);
    FingerprintsAgree(r.invoice, inv);
    if SameInvoice(r.invoice, inv) {
      MeasureSame(r.invoice, inv);
    }
    EveryPayloadKept(RawReductions(inv), {Payload(inv)}, r);
    KeptAreNew(RawReductions(inv), {Payload(inv)});
    var k :| k in KeepNew(RawReductions(inv), {Payload(inv)}) && Payload(k.invoice) == Payload(r.invoice);
    assert k in OneStep(inv);
    FingerprintsAgree(k.invoice, r.invoice);
  }

  // ---------------------------------------------------------------- the collecting loops

  /** The texts tried before position i. */
  function EarlierTexts(value: string, i: nat): (seen: set<string>)
    requires |value| >= 2 && i <= |TEXT_OPS|
  {
    set k | 0 <= k < i :: ReduceText(value, TEXT_OPS[k])
  }

  lemma {:induction false} EnabledIsNew(value: string, i: nat)
    requires |value| >= 2 && i < |TEXT_OPS|
    ensures TextEnabled(value, TEXT_OPS[i]) <==> ReduceText(value, TEXT_OPS[i]) !in EarlierTexts(value, i)
    ensures ReduceText(value, TEXT_OPS[i]) != "" && ReduceText(value, TEXT_OPS[i]) != value
    ensures EarlierTexts(value, i + 1) == EarlierTexts(value, i) + {ReduceText(value, TEXT_OPS[i])}
  {
    hide ReduceText;
    assert Rank(TEXT_OPS[i]) == i;
  }

  /** The generator of text reductions: candidates in order, skipping texts already yielded. */
  method TextReductions(value: string) returns (ops: seq<TextOp>)
    ensures ops == TextOps(value)
  {
    hide ReduceText, TextEnabled;
    ops := [];
    var enabled := op => TextEnabled(value, op);
    if |value| <= 1 {
      NoTextOps(value, TEXT_OPS);
      return;
    }
    var seen: set<string> := {};
    for i := 0 to |TEXT_OPS|
      invariant ops == Filter(TEXT_OPS[..i], enabled)
      invariant seen == EarlierTexts(value, i)
    {
      var candidate := ReduceText(value, TEXT_OPS[i]);
      EnabledIsNew(value, i);
      assert TEXT_OPS[..i + 1] == TEXT_OPS[..i] + [TEXT_OPS[i]];
      FilterSnoc(TEXT_OPS[..i], TEXT_OPS[i], enabled);
      if candidate != "" && candidate != value && candidate !in seen {
        seen := seen + {candidate};
        ops := ops + [TEXT_OPS[i]];
      }
    }
    assert TEXT_OPS[..|TEXT_OPS|] == TEXT_OPS;
  }

  lemma {:induction false} NoTextOps(value: string, ops: seq<TextOp>)
    requires |value| <= 1
    ensures Filter(ops, op => TextEnabled(value, op)) == []
  {
    if ops != [] {
      NoTextOps(value, ops[1..]);
    }
  }

  method PartyRemovals(p: Party, role: PartyRole) returns (ops: seq<Operation>)
    ensures ops == PartyRemovalOps(p, role)
  {
    hide PartyOptionalOf;
    var present := f => PartyOptionalOf(p, f).Some?;
    var remove := f => RemovePartyField(role, f);
    ops := [];
    for i := 0 to |PARTY_OPTIONALS|
      invariant ops == Map(Filter(PARTY_OPTIONALS[..i], present), remove)
    {
      var f := PARTY_OPTIONALS[i];
      assert PARTY_OPTIONALS[..i + 1] == PARTY_OPTIONALS[..i] + [f];
      FilterSnoc(PARTY_OPTIONALS[..i], f, present);
      MapSnoc(Filter(PARTY_OPTIONALS[..i], present), f, remove);
      if PartyOptionalOf(p, f).Some? {
        ops := ops + [RemovePartyField(role, f)];
      }
    }
    assert PARTY_OPTIONALS[..|PARTY_OPTIONALS|] == PARTY_OPTIONALS;
  }

  method PartyReductions(p: Party, role: PartyRole) returns (ops: seq<Operation>)
    ensures ops == PartyOps(p, role)
  {
    hide PartyRemovalOps, PartyTextOf, TextOps;
    var texts := f => PartyTextOps(p, role, f);
    var removals := PartyRemovals(p, role);
    ops := removals;
    for i := 0 to |PARTY_TEXTS|
      invariant ops == removals + Flatten(Map(PARTY_TEXTS[..i], texts))
    {
      var f := PARTY_TEXTS[i];
      assert PARTY_TEXTS[..i + 1] == PARTY_TEXTS[..i] + [f];
      MapSnoc(PARTY_TEXTS[..i], f, texts);
      FlattenSnoc(Map(PARTY_TEXTS[..i], texts), texts(f));
      var found := TextReductions(PartyTextOf(p, f));
      ops := ops + Map(found, t => ReducePartyText(role, f, t));
    }
    assert PARTY_TEXTS[..|PARTY_TEXTS|] == PARTY_TEXTS;
  }

  method LineRemovals(line: Line, index: nat) returns (ops: seq<Operation>)
    ensures ops == LineRemovalOps(line, index)
  {
    hide LineOptionalOf;
    var present := f => LineOptionalOf(line, f).Some?;
    var remove := f => RemoveLineField(index, f);
    ops := [];
    for i := 0 to |LINE_OPTIONALS|
      invariant ops == Map(Filter(LINE_OPTIONALS[..i], present), remove)
    {
      var f := LINE_OPTIONALS[i];
      assert LINE_OPTIONALS[..i + 1] == LINE_OPTIONALS[..i] + [f];
      FilterSnoc(LINE_OPTIONALS[..i], f, present);
      MapSnoc(Filter(LINE_OPTIONALS[..i], present), f, remove);
      if LineOptionalOf(line, f).Some? {
        ops := ops + [RemoveLineField(index, f)];
      }
    }
    assert LINE_OPTIONALS[..|LINE_OPTIONALS|] == LINE_OPTIONALS;
  }

  lemma {:induction false} NoTexts(texts: LineText -> seq<Operation>)
    ensures Flatten(Map([], texts)) == []
    ensures LINE_TEXTS[..0] == []
  {
  }

  method LineReductions(line: Line, index: nat) returns (ops: seq<Operation>)
    ensures ops == LineOps(line, index)
  {
    hide LineRemovalOps, LineTextOf, TextOps, NumberOps, Flatten, Map;
    NoTexts(f => LineTextOps(line, index, f));
    ops := LineRemovals(line, index);
    if line.periodStart.Some? {
      ops := ops + [RemovePeriod(index)];
    }
    if line.classificationCode.Some? {
      ops := ops + [RemoveClassification(index)];
    }
    var texts := f => LineTextOps(line, index, f);
    var removals := ops;
    for i := 0 to |LINE_TEXTS|
      invariant ops == removals + Flatten(Map(LINE_TEXTS[..i], texts))
    {
      var f := LINE_TEXTS[i];
      assert LINE_TEXTS[..i + 1] == LINE_TEXTS[..i] + [f];
      MapSnoc(LINE_TEXTS[..i], f, texts);
      FlattenSnoc(Map(LINE_TEXTS[..i], texts), texts(f));
      var found := TextReductions(LineTextOf(line, f));
      ops := ops + Map(found, t => ReduceLineText(index, f, t));
    }
    assert LINE_TEXTS[..|LINE_TEXTS|] == LINE_TEXTS;
    var numbers := NumberReductions(line, index);
    ops := ops + numbers;
  }

  /** The nested loops over quantity and price, and over one and whole cents. */
  method NumberReductions(line: Line, index: nat) returns (ops: seq<Operation>)
    ensures ops == NumberOps(line, index)
  {
    hide NumberEnabled, Reduced, SameNumber, Filter, Map;
    var enabled := (x: (NumberField, NumberOp)) => NumberEnabled(NumberOf(line, x.0), x.1);
    var named := (x: (NumberField, NumberOp)) => ReduceNumber(index, x.0, x.1);
    ops := [];
    NothingListed(enabled, named);
    for i := 0 to 2
      invariant ops == Map(Filter(ALL_NUMBERS[..2 * i], enabled), named)
    {
      var field := if i == 0 then Quantity else Price;
      var value := NumberOf(line, field);
      for j := 0 to 2
        invariant ops == Map(Filter(ALL_NUMBERS[..2 * i + j], enabled), named)
      {
        var op := if j == 0 then ToOne else ToCents;
        var reduced := Reduced(value, op);
        NumberListed(line, i, j, ALL_NUMBERS[..2 * i + j], enabled, named);
        if !SameNumber(reduced, value) {
          ops := ops + [ReduceNumber(index, field, op)];
        }
      }
    }
    assert ALL_NUMBERS[..2 * 2] == ALL_NUMBERS;
  }

  lemma {:induction false} NothingListed(enabled: ((NumberField, NumberOp)) -> bool, named: ((NumberField, NumberOp)) -> Operation)
    ensures Map(Filter(ALL_NUMBERS[..0], enabled), named) == []
  {
  }

  lemma {:induction false} NumberListed(line: Line, i: nat, j: nat, before: seq<(NumberField, NumberOp)>,
    enabled: ((NumberField, NumberOp)) -> bool, named: ((NumberField, NumberOp)) -> Operation)
    requires i < 2 && j < 2 && before == ALL_NUMBERS[..2 * i + j]
    ensures var x := (if i == 0 then Quantity else Price, if j == 0 then ToOne else ToCents);
      && ALL_NUMBERS[..2 * i + (j + 1)] == before + [x]
      && (NumberEnabled(NumberOf(line, x.0), x.1) <==> !SameNumber(Reduced(NumberOf(line, x.0), x.1), NumberOf(line, x.0)))
      && Map(Filter(before + [x], enabled), named) == Map(Filter(before, enabled), named) + if enabled(x) then [named(x)] else []
  {
    hide Reduced, SameNumber;
    var x := (if i == 0 then Quantity else Price, if j == 0 then ToOne else ToCents);
    assert ALL_NUMBERS[2 * i + j] == x;
    FilterSnoc(before, x, enabled);
    MapSnoc(Filter(before, enabled), x, named);
  }

  method CollectOperations(inv: Invoice) returns (ops: seq<Operation>)
    ensures ops == Operations(inv)
  {
    hide PartyOps, LineOps, InvoiceTextOf, TextOps;
    ops := [];
    if inv.note.Some? {
      ops := ops + [RemoveInvoiceNote];
    }
    if inv.paymentDueDate.Some? {
      ops := ops + [RemovePaymentDueDate];
    }
    var lines := inv.lines;
    if |lines| > 1 {
      var header := ops;
      for k := 0 to |lines|
        invariant ops == header + RemovalOps(lines)[..k]
      {
        ops := ops + [RemoveLine(|lines| - 1 - k)];
      }
      assert RemovalOps(lines)[..|lines|] == RemovalOps(lines);
    }
    assert ops == HeaderOps(inv) + RemovalOps(lines);
    var seller := PartyReductions(inv.seller, Seller);
    var buyer := PartyReductions(inv.buyer, Buyer);
    var texts := InvoiceTextReductions(inv);
    var ofLines := LinesReductions(lines);
    ops := ops + seller + buyer + texts + ofLines;
  }

  method InvoiceTextReductions(inv: Invoice) returns (ops: seq<Operation>)
    ensures ops == Flatten(Map(INVOICE_TEXTS, f => InvoiceTextOps(inv, f)))
  {
    hide InvoiceTextOf, TextOps;
    var texts := f => InvoiceTextOps(inv, f);
    ops := [];
    for i := 0 to |INVOICE_TEXTS|
      invariant ops == Flatten(Map(INVOICE_TEXTS[..i], texts))
    {
      var f := INVOICE_TEXTS[i];
      assert INVOICE_TEXTS[..i + 1] == INVOICE_TEXTS[..i] + [f];
      MapSnoc(INVOICE_TEXTS[..i], f, texts);
      FlattenSnoc(Map(INVOICE_TEXTS[..i], texts), texts(f));
      var found := TextReductions(InvoiceTextOf(inv, f));
      ops := ops + Map(found, t => ReduceInvoiceText(f, t));
    }
    assert INVOICE_TEXTS[..|INVOICE_TEXTS|] == INVOICE_TEXTS;
  }

  method LinesReductions(lines: seq<Line>) returns (ops: seq<Operation>)
    ensures ops == AllLineOps(lines)
  {
    hide LineOps;
    ghost var all := seq(|lines|, i requires 0 <= i < |lines| => LineOps(lines[i], i));
    ops := [];
    for i := 0 to |lines|
      invariant ops == Flatten(all[..i])
    {
      assert all[..i + 1] == all[..i] + [all[i]];
      FlattenSnoc(all[..i], all[i]);
      var found := LineReductions(lines[i], i);
      ops := ops + found;
    }
    assert all[..|lines|] == all;
  }

  /** The reductions of the collected operations, before invalid and repeated results are dropped. */
  method ApplyAll(inv: Invoice, ops: seq<Operation>) returns (raw: seq<Reduction>)
    requires ops == Operations(inv)
    ensures raw == RawReductions(inv)
  {
    hide Operations, Enabled, Apply;
    var step := op => Step(inv, op);
    raw := [];
    for i := 0 to |ops|
      invariant raw == Map(ops[..i], step)
    {
      var op := ops[i];
      assert op in ops;
      OperationsExact(inv, op);
      assert ops[..i + 1] == ops[..i] + [op];
      MapSnoc(ops[..i], op, step);
      raw := raw + [Reduction(op, Apply(inv, op))];
    }
    assert ops[..|ops|] == ops;
  }

  /** one_step_reductions: None is the ModelError on an invalid invoice. */
  method OneStepReductions(inv: Invoice) returns (r: Option<seq<Reduction>>)
    ensures r == if ValidInvoice(inv) then Some(OneStep(inv)) else None
  {
    hide ValidInvoice, Payload, Operations, Step;
    var valid := Validate(inv);
    if !valid {
      return None;
    }
    var ops := CollectOperations(inv);
    var raw := ApplyAll(inv, ops);
    var seen := {Payload(inv)};
    var unique: seq<Reduction> := [];
    for i := 0 to |raw|
      invariant OneStep(inv) == unique + KeepNew(raw[i..], seen)
    {
      var reduction := raw[i];
      assert raw[i..][0] == reduction && raw[i..][1..] == raw[i + 1..];
      var ok := Validate(reduction.invoice);
      if ok && Payload(reduction.invoice) !in seen {
        unique := unique + [reduction];
        seen := seen + {Payload(reduction.invoice)};
      }
    }
    assert raw[|raw|..] == [];
    assert unique + [] == unique;
    r := Some(unique);
  }
}
