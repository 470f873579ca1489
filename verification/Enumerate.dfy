/** Enumerating the one-step reductions in their declared order. */
module Enumerate {
  import opened Basics
  import opened Invoices
  import opened Json
  import opened Fingerprint
  import opened Reductions

  datatype Reduction = Reduction(operation: Operation, invoice: Invoice)

  // ---------------------------------------------------------------- operations in order

  function TextOps(s: string): (ops: seq<TextOp>) {
    Filter(TEXT_OPS, op => TextEnabled(s, op))
  }

  function PartyTextOps(p: Party, role: PartyRole, f: PartyText): (ops: seq<Operation>) {
    Map(TextOps(PartyTextOf(p, f)), t => ReducePartyText(role, f, t))
  }

  function PartyRemovalOps(p: Party, role: PartyRole): (ops: seq<Operation>) {
    Map(Filter(PARTY_OPTIONALS, f => PartyOptionalOf(p, f).Some?), f => RemovePartyField(role, f))
  }

  function PartyOps(p: Party, role: PartyRole): (ops: seq<Operation>) {
    PartyRemovalOps(p, role)
    + Flatten(Map(PARTY_TEXTS, f => PartyTextOps(p, role, f)))
  }

  function InvoiceTextOps(inv: Invoice, f: InvoiceText): (ops: seq<Operation>) {
    Map(TextOps(InvoiceTextOf(inv, f)), t => ReduceInvoiceText(f, t))
  }

  function LineTextOps(line: Line, i: nat, f: LineText): (ops: seq<Operation>) {
    Map(TextOps(LineTextOf(line, f)), t => ReduceLineText(i, f, t))
  }

  const ALL_NUMBERS: seq<(NumberField, NumberOp)> := [(Quantity, ToOne), (Quantity, ToCents), (Price, ToOne), (Price, ToCents)]

  function NumberOps(line: Line, i: nat): (ops: seq<Operation>) {
    Map(Filter(ALL_NUMBERS,
               (x: (NumberField, NumberOp)) => NumberEnabled(NumberOf(line, x.0), x.1)),
        (x: (NumberField, NumberOp)) => ReduceNumber(i, x.0, x.1))
  }

  function LineRemovalOps(line: Line, i: nat): (ops: seq<Operation>) {
    Map(Filter(LINE_OPTIONALS, f => LineOptionalOf(line, f).Some?), f => RemoveLineField(i, f))
  }

  function LineOps(line: Line, i: nat): (ops: seq<Operation>) {
    LineRemovalOps(line, i)
    + (if line.periodStart.Some? then [RemovePeriod(i)] else [])
    + (if line.classificationCode.Some? then [RemoveClassification(i)] else [])
    + Flatten(Map(LINE_TEXTS, f => LineTextOps(line, i, f)))
    + NumberOps(line, i)
  }

  function HeaderOps(inv: Invoice): (ops: seq<Operation>) {
    (if inv.note.Some? then [RemoveInvoiceNote] else [])
    + (if inv.paymentDueDate.Some? then [RemovePaymentDueDate] else [])
  }

  /** Lines are removed last first. */
  function RemovalOps(lines: seq<Line>): (ops: seq<Operation>) {
    if |lines| > 1 then seq(|lines|, k requires 0 <= k < |lines| => RemoveLine(|lines| - 1 - k)) else []
  }

  function AllLineOps(lines: seq<Line>): (ops: seq<Operation>) {
    Flatten(seq(|lines|, i requires 0 <= i < |lines| => LineOps(lines[i], i)))
  }

  function Operations(inv: Invoice): (ops: seq<Operation>) {
    HeaderOps(inv) + RemovalOps(inv.lines) + PartyOps(inv.seller, Seller) + PartyOps(inv.buyer, Buyer)
    + Flatten(Map(INVOICE_TEXTS, f => InvoiceTextOps(inv, f)))
    + AllLineOps(inv.lines)
  }

  // ---------------------------------------------------------------- exactly the declared relation

  lemma {:induction false} TextOpsExact(s: string, op: TextOp)
    ensures op in TextOps(s) <==> TextEnabled(s, op)
  {
    assert TEXT_OPS[Rank(op)] == op;
  }

  lemma {:induction false} PartyOpsExact(p: Party, role: PartyRole, op: Operation)
    ensures op in PartyOps(p, role) <==>
      || (op.RemovePartyField? && op.role == role && PartyOptionalOf(p, op.optional).Some?)
      || (op.ReducePartyText? && op.role == role && TextEnabled(PartyTextOf(p, op.text), op.textOp))
  {
    hide TextEnabled, TextOps, PartyOptionalOf, PartyTextOf, Filter, Map, Flatten;
    var optionals := Filter(PARTY_OPTIONALS, f => PartyOptionalOf(p, f).Some?);
    var removals := PartyRemovalOps(p, role);
    assert removals == Map(optionals, f => RemovePartyField(role, f));
    var texts := Map(PARTY_TEXTS, f => PartyTextOps(p, role, f));
    assert PartyOps(p, role) == removals + Flatten(texts);
    match op {
      case RemovePartyField(r, f) =>
        AllPartyOptionals(f);
        if r == role && f in optionals {
          var k :| 0 <= k < |optionals| && optionals[k] == f;
          assert removals[k] == op;
        }
      case ReducePartyText(r, f, t) =>
        TextOpsExact(PartyTextOf(p, f), t);
        var n := PartyTextPlace(f);
        assert texts[n] == PartyTextOps(p, role, f);
        if r == role && t in TextOps(PartyTextOf(p, f)) {
          var k :| 0 <= k < |TextOps(PartyTextOf(p, f))| && TextOps(PartyTextOf(p, f))[k] == t;
          assert texts[n][k] == op;
        }
      case _ =>
    }
  }

  lemma {:induction false} AllPartyOptionals(f: PartyOptional)
    ensures f in PARTY_OPTIONALS
  {
    assert PARTY_OPTIONALS[match f
      case TradingName => 0 case TaxIdentifier => 1 case LegalIdentifier => 2 case LegalForm => 3
      case PartyIdentifier => 4 case ContactName => 5 case ContactPhone => 6 case ContactEmail => 7] == f;
  }

  function PartyTextPlace(f: PartyText): (n: nat)
    ensures n < |PARTY_TEXTS| && PARTY_TEXTS[n] == f
  {
    match f
    case Endpoint => 0
    case RegistrationName => 1
    case Street => 2
    case City => 3
    case PostalCode => 4
  }

  lemma {:induction false} NumberOpsExact(line: Line, i: nat, op: Operation)
    ensures op in NumberOps(line, i) <==>
      op.ReduceNumber? && op.index == i && NumberEnabled(NumberOf(line, op.number), op.numberOp)
  {
    hide NumberEnabled, NumberOf;
    var enabled := (x: (NumberField, NumberOp)) => NumberEnabled(NumberOf(line, x.0), x.1);
    var all := ALL_NUMBERS;
    var chosen := Filter(all, enabled);
    assert NumberOps(line, i) == Map(chosen, (x: (NumberField, NumberOp)) => ReduceNumber(i, x.0, x.1));
    if op.ReduceNumber? && op.index == i && enabled((op.number, op.numberOp)) {
      assert all[(if op.number == Quantity then 0 else 2) + (if op.numberOp == ToOne then 0 else 1)] == (op.number, op.numberOp);
      var k :| 0 <= k < |chosen| && chosen[k] == (op.number, op.numberOp);
      assert NumberOps(line, i)[k] == op;
    }
  }

  lemma {:induction false} LineTextOpsExact(line: Line, i: nat, op: Operation)
    ensures op in Flatten(Map(LINE_TEXTS, f => LineTextOps(line, i, f))) <==>
      op.ReduceLineText? && op.index == i && TextEnabled(LineTextOf(line, op.lineText), op.textOp)
  {
    hide TextEnabled, TextOps, LineTextOf;
    var texts := Map(LINE_TEXTS, f => LineTextOps(line, i, f));
    if op.ReduceLineText? {
      var f := op.lineText;
      TextOpsExact(LineTextOf(line, f), op.textOp);
      var n := match f case IdentifierText => 0 case NameText => 1 case NoteText => 2 case DescriptionText => 3;
      assert LINE_TEXTS[n] == f;
      assert texts[n] == LineTextOps(line, i, f);
      if op.index == i && op.textOp in TextOps(LineTextOf(line, f)) {
        var k :| 0 <= k < |TextOps(LineTextOf(line, f))| && TextOps(LineTextOf(line, f))[k] == op.textOp;
        assert texts[n][k] == op;
      }
    }
  }

  lemma {:induction false} LineRemovalsExact(line: Line, i: nat, op: Operation)
    ensures op in LineRemovalOps(line, i) <==>
      op.RemoveLineField? && op.index == i && LineOptionalOf(line, op.lineOptional).Some?
  {
    hide LineOptionalOf, Filter, Map;
    var chosen := Filter(LINE_OPTIONALS, f => LineOptionalOf(line, f).Some?);
    var ops := LineRemovalOps(line, i);
    assert ops == Map(chosen, f => RemoveLineField(i, f));
    if op in ops {
      var k :| 0 <= k < |ops| && ops[k] == op;
      assert chosen[k] in chosen;
    }
    if op.RemoveLineField? && op.index == i && LineOptionalOf(line, op.lineOptional).Some? {
      var f := op.lineOptional;
      var n := match f case LineNote => 0 case LineDescription => 1 case OrderLineIdentifier => 2 case SellerItemIdentifier => 3;
      assert LINE_OPTIONALS[n] == f;
      assert f in LINE_OPTIONALS;
      assert f in chosen;
      var k :| 0 <= k < |chosen| && chosen[k] == f;
      assert ops[k] == op;
    }
  }

  /** Membership in the operations of one line, for an operation that names that line. */
  predicate LineEnabled(line: Line, i: nat, op: Operation) {
    match op
    case RemoveLineField(j, f) => j == i && LineOptionalOf(line, f).Some?
    case RemovePeriod(j) => j == i && line.periodStart.Some?
    case RemoveClassification(j) => j == i && line.classificationCode.Some?
    case ReduceLineText(j, f, t) => j == i && TextEnabled(LineTextOf(line, f), t)
    case ReduceNumber(j, f, n) => j == i && NumberEnabled(NumberOf(line, f), n)
    case _ => false
  }

  lemma {:induction false} LineOpsExact(line: Line, i: nat, op: Operation)
    ensures op in LineOps(line, i) <==> LineEnabled(line, i, op)
  {
    hide TextEnabled, NumberEnabled, LineOptionalOf, LineTextOf, NumberOf, NumberOps, LineRemovalOps, LineTextOps, Map, Flatten;
    LineRemovalsExact(line, i, op);
    LineTextOpsExact(line, i, op);
    NumberOpsExact(line, i, op);
  }

  lemma {:induction false} AllLineOpsExact(lines: seq<Line>, op: Operation)
    ensures op in AllLineOps(lines) <==> exists i :: 0 <= i < |lines| && LineEnabled(lines[i], i, op)
  {
    hide LineOps, LineEnabled;
    var ops := seq(|lines|, i requires 0 <= i < |lines| => LineOps(lines[i], i));
    forall i | 0 <= i < |lines| ensures op in ops[i] <==> LineEnabled(lines[i], i, op) {
      LineOpsExact(lines[i], i, op);
    }
  }

  lemma {:induction false} RemovalOpsExact(lines: seq<Line>, op: Operation)
    ensures op in RemovalOps(lines) <==> op.RemoveLine? && |lines| > 1 && op.index < |lines|
  {
    if op.RemoveLine? && |lines| > 1 && op.index < |lines| {
      assert RemovalOps(lines)[|lines| - 1 - op.index] == op;
    }
  }

  lemma {:induction false} InvoiceTextOpsExact(inv: Invoice, op: Operation)
    ensures op in Flatten(Map(INVOICE_TEXTS, f => InvoiceTextOps(inv, f))) <==>
      op.ReduceInvoiceText? && TextEnabled(InvoiceTextOf(inv, op.field), op.textOp)
  {
    hide TextEnabled, TextOps, InvoiceTextOf;
    var texts := Map(INVOICE_TEXTS, f => InvoiceTextOps(inv, f));
    if op.ReduceInvoiceText? {
      var f := op.field;
      TextOpsExact(InvoiceTextOf(inv, f), op.textOp);
      var n := match f case InvoiceIdentifier => 0 case BuyerReference => 1 case PaymentTerms => 2 case PayeeAccount => 3;
      assert INVOICE_TEXTS[n] == f;
      assert texts[n] == InvoiceTextOps(inv, f);
      if op.textOp in TextOps(InvoiceTextOf(inv, f)) {
        var k :| 0 <= k < |TextOps(InvoiceTextOf(inv, f))| && TextOps(InvoiceTextOf(inv, f))[k] == op.textOp;
        assert texts[n][k] == op;
      }
    }
  }

  lemma {:induction false} LineEnabledAt(inv: Invoice, op: Operation, i: nat)
    requires i < |inv.lines| && LineEnabled(inv.lines[i], i, op)
    ensures Enabled(inv, op)
  {
    hide TextEnabled, NumberEnabled, LineOptionalOf, LineTextOf, NumberOf;
  }

  lemma {:induction false} EnabledAtLine(inv: Invoice, op: Operation)
    requires Enabled(inv, op)
    requires op.RemoveLineField? || op.RemovePeriod? || op.RemoveClassification? || op.ReduceLineText? || op.ReduceNumber?
    ensures op.index < |inv.lines| && LineEnabled(inv.lines[op.index], op.index, op)
  {
    hide TextEnabled, NumberEnabled, LineOptionalOf, LineTextOf, NumberOf;
  }

  /** The enumeration lists exactly the operations of the declared relation. */
  lemma {:induction false} OperationsExact(inv: Invoice, op: Operation)
    ensures op in Operations(inv) <==> Enabled(inv, op)
  {
    hide TextEnabled, NumberEnabled, LineEnabled, AllLineOps, RemovalOps, PartyOps, InvoiceTextOps, Flatten, Map,
      PartyOptionalOf, PartyTextOf, InvoiceTextOf;
    PartyOpsExact(inv.seller, Seller, op);
    PartyOpsExact(inv.buyer, Buyer, op);
    RemovalOpsExact(inv.lines, op);
    InvoiceTextOpsExact(inv, op);
    AllLineOpsExact(inv.lines, op);
    LineOpsNeverHeader(inv, op);
  }

  lemma {:induction false} LineOpsNeverHeader(inv: Invoice, op: Operation)
    ensures op in AllLineOps(inv.lines) <==>
      Enabled(inv, op)
      && (op.RemoveLineField? || op.RemovePeriod? || op.RemoveClassification? || op.ReduceLineText? || op.ReduceNumber?)
  {
    hide AllLineOps, Enabled;
    AllLineOpsExact(inv.lines, op);
    if i :| 0 <= i < |inv.lines| && LineEnabled(inv.lines[i], i, op) {
      LineEnabledAt(inv, op, i);
    }
    if Enabled(inv, op)
      && (op.RemoveLineField? || op.RemovePeriod? || op.RemoveClassification? || op.ReduceLineText? || op.ReduceNumber?) {
      EnabledAtLine(inv, op);
    }
  }

  // ---------------------------------------------------------------- distinct fingerprints

  function Step(inv: Invoice, op: Operation): (r: Reduction) {
    Reduction(op, if Enabled(inv, op) then Apply(inv, op) else inv)
  }

  function RawReductions(inv: Invoice): (rs: seq<Reduction>) {
    Map(Operations(inv), op => Step(inv, op))
  }

  /** Keep the first valid reduction of every fingerprint that has not been seen. */
  function KeepNew(rs: seq<Reduction>, seen: set<Json>): (kept: seq<Reduction>) {
    if rs == [] then []
    else if ValidInvoice(rs[0].invoice) && Payload(rs[0].invoice) !in seen then
      [rs[0]] + KeepNew(rs[1..], seen + {Payload(rs[0].invoice)})
    else KeepNew(rs[1..], seen)
  }

  /** one_step_reductions of a valid invoice. */
  function OneStep(inv: Invoice): (rs: seq<Reduction>) {
    KeepNew(RawReductions(inv), {Payload(inv)})
  }
}
