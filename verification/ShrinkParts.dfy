/**
 The independent parts of an invoice with one line: every reduction lowers the weight of exactly one
 part, and reductions of the same part are listed in the order of their places.
 */
module ShrinkParts {
  import opened Basics
  import opened Texts
  import opened Decimals
  import opened Invoices
  import opened Json
  import opened Fingerprint
  import opened Totals
  import opened Reductions
  import opened Enumerate
  import opened Measure
  import opened OneStepReductions

  /** A text that reductions shorten. */
  datatype TextField =
    | OfParty(role: PartyRole, text: PartyText)
    | OfInvoice(field: InvoiceText)
    | OfLine(lineText: LineText)

  /** What a reduction acts on. */
  datatype Part =
    | NotePart
    | DueDatePart
    | LinesPart
    | PartyPart(role: PartyRole, optional: PartyOptional)
    | TextPart(field: TextField)
    | OrderPart
    | SellerItemPart
    | PeriodPart
    | ClassificationPart
    | NumberPart(number: NumberField)

  function PartOf(op: Operation): (part: Part) {
    match op
    case RemoveInvoiceNote => NotePart
    case RemovePaymentDueDate => DueDatePart
    case RemoveLine(_) => LinesPart
    case RemovePartyField(role, f) => PartyPart(role, f)
    case ReducePartyText(role, f, _) => TextPart(OfParty(role, f))
    case ReduceInvoiceText(f, _) => TextPart(OfInvoice(f))
    case RemoveLineField(_, f) =>
      (match f
       case LineNote => TextPart(OfLine(NoteText))
       case LineDescription => TextPart(OfLine(DescriptionText))
       case OrderLineIdentifier => OrderPart
       case SellerItemIdentifier => SellerItemPart)
    case RemovePeriod(_) => PeriodPart
    case RemoveClassification(_) => ClassificationPart
    case ReduceLineText(_, f, _) => TextPart(OfLine(f))
    case ReduceNumber(_, f, _) => NumberPart(f)
  }

  predicate OneLine(inv: Invoice) {
    |inv.lines| == 1
  }

  /** Which text a field is: those of lines are of the only line. */
  predicate Located(inv: Invoice, field: TextField) {
    field.OfLine? ==> OneLine(inv)
  }

  function FieldText(inv: Invoice, field: TextField): (s: string)
    requires Located(inv, field)
  {
    match field
    case OfParty(role, f) => PartyTextOf(PartyOf(inv, role), f)
    case OfInvoice(f) => InvoiceTextOf(inv, f)
    case OfLine(f) => LineTextOf(inv.lines[0], f)
  }

  function LineWeight(line: Line, part: Part): (w: nat) {
    match part
    case TextPart(OfLine(IdentifierText)) => |line.identifier|
    case TextPart(OfLine(NameText)) => |line.name|
    case TextPart(OfLine(NoteText)) => OptionalWeight(line.note)
    case TextPart(OfLine(DescriptionText)) => OptionalWeight(line.description)
    case OrderPart => OptionalWeight(line.orderLineIdentifier)
    case SellerItemPart => OptionalWeight(line.sellerItemIdentifier)
    case PeriodPart => if line.periodStart.Some? then 1 else 0
    case ClassificationPart => if line.classificationCode.Some? then 1 else 0
    case NumberPart(f) => NumberRank(NumberOf(line, f))
    case _ => 0
  }

  function HeaderWeight(inv: Invoice, part: Part): (w: nat) {
    match part
    case NotePart => OptionalWeight(inv.note)
    case DueDatePart => if inv.paymentDueDate.Some? then 1 else 0
    case PartyPart(role, f) => OptionalWeight(PartyOptionalOf(PartyOf(inv, role), f))
    case TextPart(OfParty(role, f)) => |PartyTextOf(PartyOf(inv, role), f)|
    case TextPart(OfInvoice(f)) => |InvoiceTextOf(inv, f)|
    case _ => 0
  }

  function Weight(inv: Invoice, part: Part): (w: nat)
    requires OneLine(inv)
  {
    HeaderWeight(inv, part) + LineWeight(inv.lines[0], part)
  }

  /** The schemes of the endpoints, which no reduction touches. */
  predicate SameSchemes(a: Invoice, b: Invoice) {
    a.seller.endpointScheme == b.seller.endpointScheme && a.buyer.endpointScheme == b.buyer.endpointScheme
  }

  // ---------------------------------------------------------------- one part at a time

  lemma {:induction false} PartyLowers(inv: Invoice, op: Operation, part: Part)
    requires OneLine(inv) && Enabled(inv, op) && (op.RemovePartyField? || op.ReducePartyText?)
    ensures Apply(inv, op).lines == inv.lines && SameSchemes(inv, Apply(inv, op))
    ensures part == PartOf(op) ==> HeaderWeight(Apply(inv, op), part) < HeaderWeight(inv, part)
    ensures part != PartOf(op) ==> HeaderWeight(Apply(inv, op), part) == HeaderWeight(inv, part)
  {
    hide TextEnabled, ReduceText, PartyTextOf, PartyOptionalOf, WithPartyText, WithoutPartyOptional;
    if op.ReducePartyText? {
      TextIsLong(PartyTextOf(PartyOf(inv, op.role), op.text), op.textOp);
      PartyTextReplaced(PartyOf(inv, op.role), op.text, ReduceText(PartyTextOf(PartyOf(inv, op.role), op.text), op.textOp));
    } else {
      PartyOptionalGone(PartyOf(inv, op.role), op.optional);
    }
  }

  lemma {:induction false} PartyTextReplaced(p: Party, f: PartyText, s: string)
    ensures var q := WithPartyText(p, f, s);
      && q.endpointScheme == p.endpointScheme && PartyTextOf(q, f) == s
      && (forall g :: g != f ==> PartyTextOf(q, g) == PartyTextOf(p, g))
      && forall g :: PartyOptionalOf(q, g) == PartyOptionalOf(p, g)
  {
  }

  lemma {:induction false} PartyOptionalGone(p: Party, f: PartyOptional)
    ensures var q := WithoutPartyOptional(p, f);
      && q.endpointScheme == p.endpointScheme && PartyOptionalOf(q, f) == None
      && (forall g :: g != f ==> PartyOptionalOf(q, g) == PartyOptionalOf(p, g))
      && forall g :: PartyTextOf(q, g) == PartyTextOf(p, g)
  {
  }

  lemma {:induction false} HeaderLowers(inv: Invoice, op: Operation, part: Part)
    requires OneLine(inv) && Enabled(inv, op) && (op.RemoveInvoiceNote? || op.RemovePaymentDueDate? || op.ReduceInvoiceText?)
    ensures Apply(inv, op).lines == inv.lines && SameSchemes(inv, Apply(inv, op))
    ensures part == PartOf(op) ==> HeaderWeight(Apply(inv, op), part) < HeaderWeight(inv, part)
    ensures part != PartOf(op) ==> HeaderWeight(Apply(inv, op), part) == HeaderWeight(inv, part)
  {
    hide TextEnabled, ReduceText, PartyTextOf, PartyOptionalOf;
    if op.ReduceInvoiceText? {
      TextIsLong(InvoiceTextOf(inv, op.field), op.textOp);
    }
  }

  predicate OfTheLine(op: Operation) {
    op.RemoveLineField? || op.RemovePeriod? || op.RemoveClassification? || op.ReduceLineText? || op.ReduceNumber?
  }

  lemma {:induction false} RemovalLowers(line: Line, f: LineOptional, part: Part)
    requires LineOptionalOf(line, f).Some?
    ensures part == PartOf(RemoveLineField(0, f)) ==> LineWeight(WithoutLineOptional(line, f), part) < LineWeight(line, part)
    ensures part != PartOf(RemoveLineField(0, f)) ==> LineWeight(WithoutLineOptional(line, f), part) == LineWeight(line, part)
  {
    hide NumberRank;
  }

  lemma {:induction false} TextLowers(line: Line, f: LineText, s: string, part: Part)
    requires 1 <= |s| < |LineTextOf(line, f)|
    ensures part == TextPart(OfLine(f)) ==> LineWeight(WithLineText(line, f, s), part) < LineWeight(line, part)
    ensures part != TextPart(OfLine(f)) ==> LineWeight(WithLineText(line, f, s), part) == LineWeight(line, part)
  {
    hide NumberRank;
  }

  lemma {:induction false} NumberLowers(line: Line, f: NumberField, n: NumberOp, part: Part)
    requires ValidLine(line) && NumberEnabled(NumberOf(line, f), n)
    ensures var after := WithNumber(line, f, Reduced(NumberOf(line, f), n));
      && (part == NumberPart(f) ==> LineWeight(after, part) < LineWeight(line, part))
      && (part != NumberPart(f) ==> LineWeight(after, part) == LineWeight(line, part))
  {
    hide NumberRank, NumberEnabled, Reduced, ValidText, InBounds, ValidPeriod, OptionalWeight;
    NumberStep(NumberOf(line, f), n);
  }

  lemma {:induction false} PairLowers(line: Line, part: Part)
    ensures var after := line.(periodStart := None, periodEnd := None);
      && (line.periodStart.Some? && part == PeriodPart ==> LineWeight(after, part) < LineWeight(line, part))
      && (part != PeriodPart ==> LineWeight(after, part) == LineWeight(line, part))
    ensures var after := line.(classificationCode := None, classificationList := None);
      && (line.classificationCode.Some? && part == ClassificationPart ==> LineWeight(after, part) < LineWeight(line, part))
      && (part != ClassificationPart ==> LineWeight(after, part) == LineWeight(line, part))
  {
    hide NumberRank, OptionalWeight;
  }

  lemma {:induction false} LineLowers(inv: Invoice, op: Operation, part: Part)
    requires OneLine(inv) && ValidLine(inv.lines[0]) && Enabled(inv, op) && OfTheLine(op)
    ensures OneLine(Apply(inv, op)) && SameSchemes(inv, Apply(inv, op))
    ensures HeaderWeight(Apply(inv, op), part) == HeaderWeight(inv, part)
    ensures part == PartOf(op) ==> LineWeight(Apply(inv, op).lines[0], part) < LineWeight(inv.lines[0], part)
    ensures part != PartOf(op) ==> LineWeight(Apply(inv, op).lines[0], part) == LineWeight(inv.lines[0], part)
  {
    hide TextEnabled, NumberEnabled, PartyTextOf, PartyOptionalOf, InvoiceTextOf, ValidLine, LineWeight, LineTextOf, LineOptionalOf,
      WithLineText, WithoutLineOptional, WithNumber, Reduced, OptionalWeight, NumberOf;
    var line := inv.lines[0];
    match op {
      case RemoveLineField(_, f) => RemovalLowers(line, f, part);
      case RemovePeriod(_) => PairLowers(line, part);
      case RemoveClassification(_) => PairLowers(line, part);
      case ReduceLineText(_, f, t) =>
        TextIsLong(LineTextOf(line, f), t);
        TextLowers(line, f, ReduceText(LineTextOf(line, f), t), part);
      case ReduceNumber(_, f, n) => NumberLowers(line, f, n, part);
    }
    LineOnly(inv, op);
    HeaderWeightSame(inv, Apply(inv, op), part);
  }

  lemma {:induction false} LineOnly(inv: Invoice, op: Operation)
    requires OneLine(inv) && Enabled(inv, op) && OfTheLine(op)
    ensures inv.(lines := Apply(inv, op).lines) == Apply(inv, op)
  {
    hide TextEnabled, NumberEnabled, LineTextOf, LineOptionalOf, WithLineText, WithoutLineOptional, WithNumber, Reduced, NumberOf;
    if op.ReduceLineText? {
      TextIsLong(LineTextOf(inv.lines[0], op.lineText), op.textOp);
    }
  }

  /** A reduction lowers the weight of its part and leaves the others alone. */
  lemma {:induction false} StepLowers(inv: Invoice, op: Operation, part: Part)
    requires OneLine(inv) && ValidInvoice(inv) && Enabled(inv, op)
    ensures OneLine(Apply(inv, op)) && SameSchemes(inv, Apply(inv, op))
    ensures part == PartOf(op) ==> Weight(Apply(inv, op), part) < Weight(inv, part)
    ensures part != PartOf(op) ==> Weight(Apply(inv, op), part) == Weight(inv, part)
  {
    hide TextEnabled, NumberEnabled, HeaderWeight, LineWeight, ValidLine, ValidHeader, ValidParty, SameSchemes, Apply;
    if op.RemovePartyField? || op.ReducePartyText? {
      PartyLowers(inv, op, part);
      HeaderPartOnly(inv.lines[0], op);
    } else if OfTheLine(op) {
      LineLowers(inv, op, part);
      LinePartOnly(inv, Apply(inv, op), op);
    } else {
      HeaderLowers(inv, op, part);
      HeaderPartOnly(inv.lines[0], op);
    }
  }

  lemma {:induction false} HeaderPartOnly(line: Line, op: Operation)
    requires !OfTheLine(op)
    ensures LineWeight(line, PartOf(op)) == 0
  {
  }

  lemma {:induction false} LinePartOnly(a: Invoice, b: Invoice, op: Operation)
    requires OfTheLine(op)
    ensures HeaderWeight(a, PartOf(op)) == 0 && HeaderWeight(b, PartOf(op)) == 0
  {
  }

  lemma {:induction false} LineWeightSame(a: Line, b: Line, part: Part)
    requires ValidLine(a) && ValidLine(b) && SameLine(a, b)
    ensures LineWeight(a, part) == LineWeight(b, part)
  {
    hide ValidText, NumberRank, SameNumber, InBounds, ValidPeriod, OptionalWeight;
    RankValue(a.quantity);
    RankValue(b.quantity);
    RankValue(a.price);
    RankValue(b.price);
    SameNumberMicros(a.quantity, b.quantity);
    SameNumberMicros(a.price, b.price);
  }

  lemma {:induction false} HeaderWeightSame(a: Invoice, b: Invoice, part: Part)
    requires a.(lines := b.lines) == b
    ensures HeaderWeight(a, part) == HeaderWeight(b, part) && SameSchemes(a, b)
  {
    hide OptionalWeight, PartyTextOf, PartyOptionalOf;
  }

  /** Weights depend on values only. */
  lemma {:induction false} WeightSame(a: Invoice, b: Invoice, part: Part)
    requires ValidInvoice(a) && ValidInvoice(b) && SameInvoice(a, b) && OneLine(a)
    ensures OneLine(b) && Weight(a, part) == Weight(b, part)
  {
    hide ValidHeader, ValidParty, OneRate, ValidLine, SameLine, HeaderWeight, LineWeight;
    HeaderWeightSame(a, b, part);
    LineWeightSame(a.lines[0], b.lines[0], part);
  }

  // ---------------------------------------------------------------- the order of the operations

  function FieldPlace(field: TextField): (n: nat)
    ensures n < 290
  {
    match field
    case OfParty(role, f) =>
      (if role == Seller then 10 else 50) + 5 * PartyTextPlace(f)
    case OfInvoice(f) =>
      80 + 5 * (match f case InvoiceIdentifier => 0 case BuyerReference => 1 case PaymentTerms => 2 case PayeeAccount => 3)
    case OfLine(f) =>
      110 + 5 * (match f case IdentifierText => 0 case NameText => 1 case NoteText => 2 case DescriptionText => 3)
  }

  /** Operations are listed by non-decreasing place, up to those on lines if there are several. */
  function Place(op: Operation): (n: nat)
    ensures n < 300
  {
    match op
    case RemoveInvoiceNote => 0
    case RemovePaymentDueDate => 1
    case RemoveLine(_) => 2
    case RemovePartyField(role, _) => if role == Seller then 3 else 40
    case ReducePartyText(role, f, t) => FieldPlace(OfParty(role, f)) + Rank(t)
    case ReduceInvoiceText(f, t) => FieldPlace(OfInvoice(f)) + Rank(t)
    case RemoveLineField(_, _) => 100
    case RemovePeriod(_) => 101
    case RemoveClassification(_) => 102
    case ReduceLineText(_, f, t) => FieldPlace(OfLine(f)) + Rank(t)
    case ReduceNumber(_, f, n) => 130 + (if f == Quantity then 0 else 2) + (if n == ToOne then 0 else 1)
  }

  /** The operations have places from lo to below hi, in order. */
  ghost predicate InOrder(ops: seq<Operation>, lo: nat, hi: nat) {
    && (forall a :: 0 <= a < |ops| ==> lo <= Place(ops[a]) < hi)
    && forall a, b :: 0 <= a < b < |ops| ==> Place(ops[a]) <= Place(ops[b])
  }

  lemma {:induction false} OrderAppend(a: seq<Operation>, b: seq<Operation>, lo: nat, mid: nat, hi: nat)
    requires InOrder(a, lo, mid) && InOrder(b, mid, hi) && lo <= mid <= hi
    ensures InOrder(a + b, lo, hi)
  {
    hide Place;
  }

  /** Segments of width five, one after the other. */
  ghost predicate Segments(ss: seq<seq<Operation>>, base: nat) {
    forall k :: 0 <= k < |ss| ==> InOrder(ss[k], base + 5 * k, base + 5 * k + 5)
  }

  lemma {:induction false} OrderFlatten(ss: seq<seq<Operation>>, base: nat)
    requires Segments(ss, base)
    ensures InOrder(Flatten(ss), base, base + 5 * |ss|)
  {
    hide InOrder;
    if ss == [] {
      OrderNone(base, base);
    } else {
      forall k | 0 <= k < |ss[1..]| ensures InOrder(ss[1..][k], base + 5 + 5 * k, base + 5 + 5 * k + 5) {
        assert ss[1..][k] == ss[k + 1];
      }
      OrderFlatten(ss[1..], base + 5);
      assert InOrder(ss[0], base + 5 * 0, base + 5 * 0 + 5);
      OrderAppend(ss[0], Flatten(ss[1..]), base, base + 5, base + 5 * |ss|);
    }
  }

  lemma {:induction false} OrderNone(lo: nat, hi: nat)
    ensures InOrder([], lo, hi)
  {
  }

  lemma {:induction false} OrderWiden(ops: seq<Operation>, lo: nat, hi: nat, l: nat, h: nat)
    requires InOrder(ops, l, h) && lo <= l && h <= hi
    ensures InOrder(ops, lo, hi)
  {
    hide Place;
  }

  ghost predicate Rises<T>(s: seq<T>, rank: T -> nat) {
    forall a, b :: 0 <= a < b < |s| ==> rank(s[a]) <= rank(s[b])
  }

  lemma {:induction false} FilterRises<T(!new)>(s: seq<T>, p: T -> bool, rank: T -> nat)
    requires Rises(s, rank)
    ensures Rises(Filter(s, p), rank)
  {
    if s != [] {
      FilterRises(s[1..], p, rank);
      if p(s[0]) {
        var rest := Filter(s[1..], p);
        forall x | x in rest ensures rank(s[0]) <= rank(x) {
          assert x in s[1..];
        }
        RisesCons(s[0], rest, rank);
      }
    }
  }

  lemma {:induction false} RisesCons<T>(x: T, rest: seq<T>, rank: T -> nat)
    requires Rises(rest, rank) && forall y :: y in rest ==> rank(x) <= rank(y)
    ensures Rises([x] + rest, rank)
  {
  }

  lemma {:induction false} TextOpsInOrder(s: string)
    ensures Rises(TextOps(s), t => Rank(t))
  {
    hide TextEnabled, Filter;
    TextOpsRise();
    FilterRises(TEXT_OPS, op => TextEnabled(s, op), t => Rank(t));
  }

  lemma {:induction false} TextOpsRise()
    ensures Rises(TEXT_OPS, t => Rank(t))
  {
  }

  lemma {:induction false} PartyTextsInOrder(p: Party, role: PartyRole)
    ensures Segments(Map(PARTY_TEXTS, f => PartyTextOps(p, role, f)), if role == Seller then 10 else 50)
  {
    hide TextOps, PartyTextOf;
    forall k | 0 <= k < |PARTY_TEXTS|
      ensures var base := if role == Seller then 10 else 50;
        InOrder(PartyTextOps(p, role, PARTY_TEXTS[k]), base + 5 * k, base + 5 * k + 5)
    {
      TextOpsInOrder(PartyTextOf(p, PARTY_TEXTS[k]));
      assert PartyTextPlace(PARTY_TEXTS[k]) == k;
    }
  }

  lemma {:induction false} InvoiceTextsInOrder(inv: Invoice)
    ensures Segments(Map(INVOICE_TEXTS, f => InvoiceTextOps(inv, f)), 80)
  {
    hide TextOps, InvoiceTextOf;
    forall k | 0 <= k < |INVOICE_TEXTS| ensures InOrder(InvoiceTextOps(inv, INVOICE_TEXTS[k]), 80 + 5 * k, 80 + 5 * k + 5) {
      TextOpsInOrder(InvoiceTextOf(inv, INVOICE_TEXTS[k]));
    }
  }

  lemma {:induction false} LineTextsInOrder(line: Line)
    ensures Segments(Map(LINE_TEXTS, f => LineTextOps(line, 0, f)), 110)
  {
    hide TextOps, LineTextOf;
    forall k | 0 <= k < |LINE_TEXTS| ensures InOrder(LineTextOps(line, 0, LINE_TEXTS[k]), 110 + 5 * k, 110 + 5 * k + 5) {
      TextOpsInOrder(LineTextOf(line, LINE_TEXTS[k]));
    }
  }

  lemma {:induction false} PartyInOrder(p: Party, role: PartyRole)
    ensures InOrder(PartyOps(p, role), if role == Seller then 3 else 40, if role == Seller then 40 else 80)
  {
    hide TextOps, PartyTextOf, PartyOptionalOf, InOrder, Flatten, Map, Segments, PartyRemovalOps;
    var base, first := if role == Seller then 10 else 50, if role == Seller then 3 else 40;
    var texts := Map(PARTY_TEXTS, f => PartyTextOps(p, role, f));
    PartyTextsInOrder(p, role);
    PartyTextsSize(p, role);
    OrderFlatten(texts, base);
    PartyRemovalsInOrder(p, role);
    OrderAppend(PartyRemovalOps(p, role), Flatten(texts), first, base, base + 25);
    OrderWiden(PartyOps(p, role), first, if role == Seller then 40 else 80, first, base + 25);
  }

  lemma {:induction false} PartyTextsSize(p: Party, role: PartyRole)
    ensures |Map(PARTY_TEXTS, f => PartyTextOps(p, role, f))| == 5
  {
  }

  lemma {:induction false} PartyRemovalsInOrder(p: Party, role: PartyRole)
    ensures InOrder(PartyRemovalOps(p, role), if role == Seller then 3 else 40, if role == Seller then 10 else 50)
  {
    hide PartyOptionalOf, Filter;
  }

  function NumberPlace(x: (NumberField, NumberOp)): (n: nat)
    ensures n < 4
  {
    (if x.0 == Quantity then 0 else 2) + (if x.1 == ToOne then 0 else 1)
  }

  lemma {:induction false} NumbersInOrder(line: Line)
    ensures InOrder(NumberOps(line, 0), 130, 134)
  {
    hide NumberEnabled, NumberOf, Filter;
    var enabled := (x: (NumberField, NumberOp)) => NumberEnabled(NumberOf(line, x.0), x.1);
    var kept := Filter(ALL_NUMBERS, enabled);
    NumberChoices(line, enabled);
    FilterRises(ALL_NUMBERS, enabled, x => NumberPlace(x));
    NumbersPlaced(kept);
  }

  lemma {:induction false} NumberChoices(line: Line, enabled: ((NumberField, NumberOp)) -> bool)
    requires forall x: (NumberField, NumberOp) :: enabled(x) == NumberEnabled(NumberOf(line, x.0), x.1)
    ensures Rises(ALL_NUMBERS, x => NumberPlace(x))
    ensures NumberOps(line, 0) == Map(Filter(ALL_NUMBERS, enabled), (x: (NumberField, NumberOp)) => ReduceNumber(0, x.0, x.1))
  {
    hide NumberEnabled, NumberOf, Filter, Map, Rises;
    AllNumbersRise();
    var named := (x: (NumberField, NumberOp)) => NumberEnabled(NumberOf(line, x.0), x.1);
    SameFilter(ALL_NUMBERS, enabled, named);
  }

  lemma {:induction false} AllNumbersRise()
    ensures Rises(ALL_NUMBERS, x => NumberPlace(x))
  {
  }

  lemma {:induction false} SameFilter<T(!new)>(s: seq<T>, p: T -> bool, q: T -> bool)
    requires forall x :: x in s ==> p(x) == q(x)
    ensures Filter(s, p) == Filter(s, q)
  {
    if s != [] {
      SameFilter(s[1..], p, q);
    }
  }

  lemma {:induction false} NumbersPlaced(kept: seq<(NumberField, NumberOp)>)
    requires Rises(kept, x => NumberPlace(x))
    ensures InOrder(Map(kept, (x: (NumberField, NumberOp)) => ReduceNumber(0, x.0, x.1)), 130, 134)
  {
    var ops := Map(kept, (x: (NumberField, NumberOp)) => ReduceNumber(0, x.0, x.1));
    forall a | 0 <= a < |ops| ensures Place(ops[a]) == 130 + NumberPlace(kept[a]) {
    }
  }

  lemma {:induction false} LineInOrder(line: Line)
    ensures InOrder(LineOps(line, 0), 100, 134)
  {
    hide TextOps, LineTextOf, LineOptionalOf, NumberOps, InOrder, Map, Flatten, LineRemovalOps;
    var removals := LineRemovalOps(line, 0);
    var period := if line.periodStart.Some? then [RemovePeriod(0)] else [];
    var classification := if line.classificationCode.Some? then [RemoveClassification(0)] else [];
    var texts := Map(LINE_TEXTS, f => LineTextOps(line, 0, f));
    LineRemovalsInOrder(line);
    PairsInOrder(period, classification);
    LineTextsInOrder(line);
    OrderFlatten(texts, 110);
    MapSize(line);
    NumbersInOrder(line);
    OrderAppend(removals, period, 100, 101, 102);
    OrderAppend(removals + period, classification, 100, 102, 110);
    OrderAppend(removals + period + classification, Flatten(texts), 100, 110, 130);
    OrderAppend(removals + period + classification + Flatten(texts), NumberOps(line, 0), 100, 130, 134);
  }

  lemma {:induction false} MapSize(line: Line)
    ensures |Map(LINE_TEXTS, f => LineTextOps(line, 0, f))| == 4
  {
  }

  lemma {:induction false} LineRemovalsInOrder(line: Line)
    ensures InOrder(LineRemovalOps(line, 0), 100, 101)
  {
    hide LineOptionalOf, Filter;
  }

  lemma {:induction false} PairsInOrder(period: seq<Operation>, classification: seq<Operation>)
    requires period in {[], [RemovePeriod(0)]} && classification in {[], [RemoveClassification(0)]}
    ensures InOrder(period, 101, 102) && InOrder(classification, 102, 110)
  {
  }

  lemma {:induction false} HeaderInOrder(inv: Invoice)
    ensures InOrder(HeaderOps(inv), 0, 2)
  {
  }

  lemma {:induction false} OneLineOps(lines: seq<Line>)
    requires |lines| == 1
    ensures AllLineOps(lines) == LineOps(lines[0], 0) && RemovalOps(lines) == []
  {
    hide LineOps;
    var ops := seq(|lines|, i requires 0 <= i < |lines| => LineOps(lines[i], i));
    var first := LineOps(lines[0], 0);
    assert ops == [first];
    assert Flatten(ops) == ops[0] + Flatten(ops[1..]);
    assert ops[1..] == [] && first + [] == first;
  }

  lemma {:induction false} RemovalsInOrder(lines: seq<Line>)
    ensures InOrder(RemovalOps(lines), 2, 3)
  {
  }

  /** All operations but those on single lines. */
  function FrontOps(inv: Invoice): (ops: seq<Operation>) {
    HeaderOps(inv) + RemovalOps(inv.lines) + PartyOps(inv.seller, Seller) + PartyOps(inv.buyer, Buyer)
    + Flatten(Map(INVOICE_TEXTS, f => InvoiceTextOps(inv, f)))
  }

  lemma {:induction false} FrontInOrder(inv: Invoice)
    ensures InOrder(FrontOps(inv), 0, 100)
  {
    hide PartyOps, InOrder, HeaderOps, InvoiceTextOps, Map, Flatten, RemovalOps;
    var texts := Map(INVOICE_TEXTS, f => InvoiceTextOps(inv, f));
    HeaderInOrder(inv);
    RemovalsInOrder(inv.lines);
    PartyInOrder(inv.seller, Seller);
    PartyInOrder(inv.buyer, Buyer);
    InvoiceTextsInOrder(inv);
    OrderFlatten(texts, 80);
    TextsSize(inv);
    var header, removals := HeaderOps(inv), RemovalOps(inv.lines);
    var seller, buyer := PartyOps(inv.seller, Seller), PartyOps(inv.buyer, Buyer);
    OrderAppend(header, removals, 0, 2, 3);
    OrderAppend(header + removals, seller, 0, 3, 40);
    OrderAppend(header + removals + seller, buyer, 0, 40, 80);
    OrderAppend(header + removals + seller + buyer, Flatten(texts), 0, 80, 100);
  }

  lemma {:induction false} LinesComeLast(lines: seq<Line>)
    ensures forall k :: 0 <= k < |AllLineOps(lines)| ==> Place(AllLineOps(lines)[k]) >= 100
  {
    hide AllLineOps, LineEnabled;
    forall k | 0 <= k < |AllLineOps(lines)| ensures Place(AllLineOps(lines)[k]) >= 100 {
      var op := AllLineOps(lines)[k];
      assert op in AllLineOps(lines);
      AllLineOpsExact(lines, op);
      var i :| 0 <= i < |lines| && LineEnabled(lines[i], i, op);
      LineIsLate(lines[i], i, op);
    }
  }

  lemma {:induction false} LineIsLate(line: Line, i: nat, op: Operation)
    requires LineEnabled(line, i, op)
    ensures Place(op) >= 100
  {
    hide TextEnabled, NumberEnabled;
  }

  /** Up to this place the operations of an invoice are listed in order. */
  function Bound(inv: Invoice): (n: nat) {
    if OneLine(inv) then 300 else 100
  }

  lemma {:induction false} OperationsInOrder(inv: Invoice)
    ensures OrderedOps(Operations(inv), Bound(inv))
  {
    hide FrontOps, LineOps, AllLineOps, Place;
    var front, last := FrontOps(inv), AllLineOps(inv.lines);
    FrontInOrder(inv);
    LinesComeLast(inv.lines);
    if OneLine(inv) {
      OneLineOps(inv.lines);
      LineInOrder(inv.lines[0]);
    }
    AppendOrdered(front, last, Bound(inv));
    FrontAndLines(inv);
  }

  lemma {:induction false} FrontAndLines(inv: Invoice)
    ensures Operations(inv) == FrontOps(inv) + AllLineOps(inv.lines)
  {
    hide HeaderOps, RemovalOps, PartyOps, AllLineOps, Flatten, Map;
  }

  lemma {:induction false} AppendOrdered(front: seq<Operation>, last: seq<Operation>, bound: nat)
    requires InOrder(front, 0, 100) && forall k :: 0 <= k < |last| ==> Place(last[k]) >= 100
    requires bound <= 100 || InOrder(last, 100, 134)
    ensures OrderedOps(front + last, bound)
  {
    hide Place;
  }

  lemma {:induction false} TextsSize(inv: Invoice)
    ensures |Map(INVOICE_TEXTS, f => InvoiceTextOps(inv, f))| == 4
  {
  }

  ghost predicate OrderedOps(ops: seq<Operation>, bound: nat) {
    forall a, b :: 0 <= a < b < |ops| ==> Place(ops[b]) < bound ==> Place(ops[a]) <= Place(ops[b])
  }

  ghost predicate Ordered(rs: seq<Reduction>, bound: nat) {
    forall a, b :: 0 <= a < b < |rs| ==> Place(rs[b].operation) < bound ==> Place(rs[a].operation) <= Place(rs[b].operation)
  }

  lemma {:induction false} TailInOrder(rs: seq<Reduction>, bound: nat)
    requires rs != [] && Ordered(rs, bound)
    ensures Ordered(rs[1..], bound)
    ensures forall x :: x in rs[1..] && Place(x.operation) < bound ==> Place(rs[0].operation) <= Place(x.operation)
  {
    hide Place;
    forall x | x in rs[1..] && Place(x.operation) < bound ensures Place(rs[0].operation) <= Place(x.operation) {
      var k :| 0 <= k < |rs[1..]| && rs[1..][k] == x;
      assert rs[k + 1] == x;
    }
  }

  lemma {:induction false} ConsInOrder(r: Reduction, rest: seq<Reduction>, bound: nat)
    requires Ordered(rest, bound)
    requires forall x :: x in rest && Place(x.operation) < bound ==> Place(r.operation) <= Place(x.operation)
    ensures Ordered([r] + rest, bound)
  {
    hide Place;
    forall a, b | 0 <= a < b < |rest| + 1 && Place(([r] + rest)[b].operation) < bound
      ensures Place(([r] + rest)[a].operation) <= Place(([r] + rest)[b].operation)
    {
      assert rest[b - 1] in rest;
    }
  }

  lemma {:induction false} KeptInOrder(rs: seq<Reduction>, seen: set<Json>, bound: nat)
    requires Ordered(rs, bound)
    ensures Ordered(KeepNew(rs, seen), bound)
  {
    hide Place, ValidInvoice, Payload, Ordered;
    if rs == [] {
      NoneInOrder(bound);
    } else {
      TailInOrder(rs, bound);
      if ValidInvoice(rs[0].invoice) && Payload(rs[0].invoice) !in seen {
        var more := seen + {Payload(rs[0].invoice)};
        KeptInOrder(rs[1..], more, bound);
        KeptAreNew(rs[1..], more);
        ConsInOrder(rs[0], KeepNew(rs[1..], more), bound);
      } else {
        KeptInOrder(rs[1..], seen, bound);
      }
    }
  }

  lemma {:induction false} NoneInOrder(bound: nat)
    ensures Ordered([], bound)
  {
  }

  /** So are the reductions of the frontier. */
  lemma {:induction false} OneStepInOrder(inv: Invoice)
    ensures Ordered(OneStep(inv), Bound(inv))
  {
    hide Place, Operations, KeepNew, Payload, Enabled, Apply;
    OperationsInOrder(inv);
    KeptInOrder(RawReductions(inv), {Payload(inv)}, Bound(inv));
  }
}
