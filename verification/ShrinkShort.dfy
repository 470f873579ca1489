/**
 A condition that can be read off the start invoice: with one line, shrinking reaches a 1-minimal
 invoice under all oracles if and only if no reducible text is longer than two characters.
 */
module ShrinkShort {
  import opened Basics
  import opened Texts
  import opened Decimals
  import opened Invoices
  import opened Trees
  import opened Serialize
  import opened InvoiceRoundTrip
  import opened Totals
  import opened Json
  import opened Fingerprint
  import opened Documents
  import opened Reductions
  import opened Enumerate
  import opened Measure
  import opened OneStepReductions
  import opened Shrink
  import opened ShrinkRuns
  import opened ShrinkExit
  import opened ShrinkTotal
  import opened ShrinkGreedy
  import opened ShrinkSkips
  import opened ShrinkParts

  /** An electronic mail address has to keep its @ and is never replaced by A. */
  predicate IsMail(inv: Invoice, field: TextField) {
    match field
    case OfParty(role, Endpoint) => PartyOf(inv, role).endpointScheme == "EM"
    case _ => false
  }

  const ALL_FIELDS: set<TextField> :=
    {OfParty(Seller, Endpoint), OfParty(Seller, RegistrationName), OfParty(Seller, Street), OfParty(Seller, City),
     OfParty(Seller, PostalCode), OfParty(Buyer, Endpoint), OfParty(Buyer, RegistrationName), OfParty(Buyer, Street),
     OfParty(Buyer, City), OfParty(Buyer, PostalCode), OfInvoice(InvoiceIdentifier), OfInvoice(BuyerReference),
     OfInvoice(PaymentTerms), OfInvoice(PayeeAccount), OfLine(IdentifierText), OfLine(NameText), OfLine(NoteText),
     OfLine(DescriptionText)}

  /** All reducible texts but mail addresses have at most two characters. */
  predicate ShortTexts(inv: Invoice)
    requires OneLine(inv)
  {
    forall field :: field in ALL_FIELDS ==> IsMail(inv, field) || |FieldText(inv, field)| <= 2
  }

  lemma {:induction false} EveryField(field: TextField)
    ensures field in ALL_FIELDS
  {
    match field {
      case OfParty(Seller, f) => match f { case Endpoint => case RegistrationName => case Street => case City => case PostalCode => }
      case OfParty(Buyer, f) => match f { case Endpoint => case RegistrationName => case Street => case City => case PostalCode => }
      case OfInvoice(f) => match f { case InvoiceIdentifier => case BuyerReference => case PaymentTerms => case PayeeAccount => }
      case OfLine(f) => match f { case IdentifierText => case NameText => case NoteText => case DescriptionText => }
    }
  }

  // ---------------------------------------------------------------- text operations

  function TextOpOf(op: Operation): (t: Option<TextOp>) {
    match op
    case ReducePartyText(_, _, t) => Some(t)
    case ReduceInvoiceText(_, t) => Some(t)
    case ReduceLineText(_, _, t) => Some(t)
    case _ => None
  }

  function Extra(field: TextField): (n: nat) {
    if field in {OfLine(NoteText), OfLine(DescriptionText)} then 1 else 0
  }

  /** A present text weighs its length, and one more if it is optional. */
  lemma {:induction false} TextWeight(inv: Invoice, field: TextField)
    requires OneLine(inv)
    ensures |FieldText(inv, field)| <= Weight(inv, TextPart(field)) <= |FieldText(inv, field)| + Extra(field)
    ensures FieldText(inv, field) != "" ==> Weight(inv, TextPart(field)) == |FieldText(inv, field)| + Extra(field)
  {
  }

  lemma {:induction false} TextReduced(inv: Invoice, op: Operation, field: TextField)
    requires OneLine(inv) && Enabled(inv, op) && TextOpOf(op).Some? && PartOf(op) == TextPart(field)
    ensures TextEnabled(FieldText(inv, field), TextOpOf(op).value) && |FieldText(inv, field)| >= 2
    ensures OneLine(Apply(inv, op))
    ensures FieldText(Apply(inv, op), field) == ReduceText(FieldText(inv, field), TextOpOf(op).value)
  {
    hide TextEnabled, ReduceText;
    TextIsLong(FieldText(inv, field), TextOpOf(op).value);
  }

  /** Half of a text is not shorter than ReplaceMinimal makes it, nor longer than one character less. */
  lemma {:induction false} ShorterIsMinimal(s: string, a: TextOp, b: TextOp)
    requires |s| >= 2 && Rank(a) <= Rank(b) && |ReduceText(s, b)| < |ReduceText(s, a)|
    ensures b == ReplaceMinimal && |s| >= 3
  {
  }

  lemma {:induction false} NumberLater(inv: Invoice, a: Operation, b: Operation)
    requires OneLine(inv) && ValidInvoice(inv) && Enabled(inv, a) && Enabled(inv, b) && a.ReduceNumber? && b.ReduceNumber?
    requires PartOf(a) == PartOf(b) && Place(a) <= Place(b)
    ensures OneLine(Apply(inv, a)) && OneLine(Apply(inv, b))
    ensures Weight(Apply(inv, a), PartOf(a)) <= Weight(Apply(inv, b), PartOf(a))
  {
    hide NumberEnabled, NumberRank, ValidInvoice, HeaderWeight;
    assert LinePartOf(inv, Apply(inv, a), a) && LinePartOf(inv, Apply(inv, b), b) by {
      LinePartOnly(inv, Apply(inv, a), a);
      LinePartOnly(inv, Apply(inv, b), b);
    }
    OneRank();
  }

  ghost predicate LinePartOf(inv: Invoice, next: Invoice, op: Operation) {
    HeaderWeight(inv, PartOf(op)) == 0 && HeaderWeight(next, PartOf(op)) == 0
  }

  lemma {:induction false} TextLater(inv: Invoice, a: Operation, b: Operation, field: TextField)
    requires OneLine(inv) && Enabled(inv, a) && Enabled(inv, b) && TextOpOf(a).Some? && TextOpOf(b).Some?
    requires PartOf(a) == PartOf(b) == TextPart(field) && Place(a) <= Place(b)
    requires OneLine(Apply(inv, a)) && OneLine(Apply(inv, b))
    requires Weight(Apply(inv, b), TextPart(field)) < Weight(Apply(inv, a), TextPart(field))
    ensures TextOpOf(b) == Some(ReplaceMinimal) && |FieldText(inv, field)| >= 3
  {
    hide TextEnabled, ReduceText, Enabled, Apply, FieldText, Weight;
    var s := FieldText(inv, field);
    TextReduced(inv, a, field);
    TextReduced(inv, b, field);
    TextWeight(Apply(inv, a), field);
    TextWeight(Apply(inv, b), field);
    PlaceIsRank(a, field);
    PlaceIsRank(b, field);
    ShorterIsMinimal(s, TextOpOf(a).value, TextOpOf(b).value);
  }

  lemma {:induction false} PlaceIsRank(op: Operation, field: TextField)
    requires TextOpOf(op).Some? && PartOf(op) == TextPart(field)
    ensures Place(op) == FieldPlace(field) + Rank(TextOpOf(op).value)
  {
  }

  /** With one line, operations on the same part that are no texts and no numbers are the same. */
  predicate Removes(op: Operation) {
    TextOpOf(op).None? && !op.ReduceNumber?
  }

  lemma {:induction false} SameRemoval(inv: Invoice, a: Operation, b: Operation)
    requires OneLine(inv) && Enabled(inv, a) && Enabled(inv, b) && Removes(a) && Removes(b) && PartOf(a) == PartOf(b)
    ensures a == b
  {
    hide PartyOptionalOf, LineOptionalOf, TextEnabled, NumberEnabled;
  }

  /** Removing a text is listed before reducing it, and leaves nothing. */
  lemma {:induction false} RemovalFirst(inv: Invoice, a: Operation, b: Operation)
    requires OneLine(inv) && Enabled(inv, a) && Enabled(inv, b) && PartOf(a) == PartOf(b) && Place(a) <= Place(b)
    requires Removes(a) != Removes(b)
    ensures Removes(a) && OneLine(Apply(inv, a)) && Weight(Apply(inv, a), PartOf(a)) == 0
  {
    hide TextEnabled, NumberEnabled, ReduceText, Reduced;
  }

  /** A later operation on the same part leaves less behind only if it replaces a text of three or more characters by A. */
  lemma {:induction false} LaterIsSmaller(inv: Invoice, a: Operation, b: Operation)
    requires OneLine(inv) && ValidInvoice(inv) && Enabled(inv, a) && Enabled(inv, b)
    requires PartOf(a) == PartOf(b) && Place(a) <= Place(b)
    requires OneLine(Apply(inv, a)) && OneLine(Apply(inv, b))
    requires Weight(Apply(inv, b), PartOf(a)) < Weight(Apply(inv, a), PartOf(a))
    ensures PartOf(b).TextPart? && TextOpOf(b) == Some(ReplaceMinimal) && |FieldText(inv, PartOf(b).field)| >= 3
  {
    hide Enabled, Apply, ValidInvoice, Weight, FieldText, Place;
    if Removes(a) != Removes(b) {
      RemovalFirst(inv, a, b);
    } else if Removes(a) {
      SameRemoval(inv, a, b);
    } else if a.ReduceNumber? {
      NumberLater(inv, a, b);
    } else {
      TextLater(inv, a, b, PartOf(a).field);
    }
  }

  lemma {:induction false} MailKeepsAt(inv: Invoice, field: TextField)
    requires OneLine(inv) && ValidInvoice(inv) && IsMail(inv, field)
    ensures FieldText(inv, field) != "A"
  {
    hide ValidText, ValidOptional, ValidLines, ValidHeader;
    assert "A"[0] == 'A';
  }

  // ---------------------------------------------------------------- short texts are enough

  /** What a path keeps: one line, the schemes, and no weight grows. */
  ghost predicate Below(inv: Invoice, low: Invoice) {
    OneLine(inv) && OneLine(low) && SameSchemes(inv, low) && forall part :: Weight(low, part) <= Weight(inv, part)
  }

  lemma {:induction false} StepBelow(inv: Invoice, r: Reduction)
    requires OneLine(inv) && ValidInvoice(inv) && r in OneStep(inv)
    ensures Below(inv, r.invoice)
  {
    hide ValidInvoice, OneStep, Enabled, Apply, Weight, InvoiceMeasure, SameSchemes;
    OneStepSound(inv, r);
    StepLowers(inv, r.operation, NotePart);
    forall part ensures OneLine(r.invoice) && SameSchemes(inv, r.invoice) && Weight(r.invoice, part) <= Weight(inv, part) {
      StepLowers(inv, r.operation, part);
    }
  }

  lemma {:induction false} BelowTwice(a: Invoice, b: Invoice, c: Invoice)
    requires Below(a, b) && Below(b, c)
    ensures Below(a, c)
  {
    hide Weight;
  }

  lemma {:induction false} BelowSelf(inv: Invoice)
    requires OneLine(inv)
    ensures Below(inv, inv)
  {
  }

  lemma {:induction false} PathBelow(path: seq<Invoice>, a: nat, b: nat)
    requires Linked(path) && path != [] && ValidInvoice(path[0]) && OneLine(path[0])
    requires a <= b < |path|
    ensures Below(path[a], path[b]) && ValidInvoice(path[a])
    decreases b
  {
    hide ValidInvoice, Below, LeadsTo, Linked, InvoiceMeasure;
    PathGoesDown(path, a, b);
    if b == 0 {
      BelowSelf(path[0]);
    } else if a == b {
      PathBelow(path, 0, b - 1);
      LinkBelow(path, b - 1);
      BelowLine(path[b - 1], path[b]);
      BelowSelf(path[b]);
    } else {
      PathBelow(path, a, b - 1);
      LinkBelow(path, b - 1);
      BelowTwice(path[a], path[b - 1], path[b]);
    }
  }

  lemma {:induction false} BelowLine(a: Invoice, b: Invoice)
    requires Below(a, b)
    ensures OneLine(a) && OneLine(b) && SameSchemes(a, b)
  {
    hide Weight;
  }

  lemma {:induction false} BelowAt(a: Invoice, b: Invoice, part: Part)
    requires Below(a, b)
    ensures OneLine(a) && OneLine(b) && Weight(b, part) <= Weight(a, part)
  {
    hide Weight;
  }

  lemma {:induction false} LinkBelow(path: seq<Invoice>, l: nat)
    requires Linked(path) && path != [] && ValidInvoice(path[0]) && l + 1 < |path|
    requires exists a :: Below(a, path[l])
    ensures Below(path[l], path[l + 1])
  {
    hide ValidInvoice, Below, OneStep, Linked, InvoiceMeasure;
    var a :| Below(a, path[l]);
    BelowLine(a, path[l]);
    PathGoesDown(path, l, l);
    var i := LinkAt(path, l);
    var r := OneStep(path[l])[i];
    assert r in OneStep(path[l]);
    StepBelow(path[l], r);
  }

  lemma {:induction false} ShortBelow(inv: Invoice, low: Invoice, field: TextField)
    requires Below(inv, low) && ShortTexts(inv)
    ensures IsMail(low, field) || |FieldText(low, field)| <= 2
  {
    hide Weight, FieldText;
    EveryField(field);
    BelowLine(inv, low);
    MailStays(inv, low, field);
    BelowAt(inv, low, TextPart(field));
    TextWeight(inv, field);
    TextWeight(low, field);
  }

  /** The operation, the applied reduction and its weights, for the i-th entry of a frontier. */
  lemma {:induction false} EntryOf(inv: Invoice, i: nat, part: Part) returns (op: Operation)
    requires OneLine(inv) && ValidInvoice(inv) && i < |OneStep(inv)|
    ensures op == OneStep(inv)[i].operation && Enabled(inv, op) && OneStep(inv)[i].invoice == Apply(inv, op)
    ensures ValidInvoice(Apply(inv, op)) && OneLine(Apply(inv, op)) && SameSchemes(inv, Apply(inv, op))
    ensures part == PartOf(op) ==> Weight(Apply(inv, op), part) < Weight(inv, part)
    ensures part != PartOf(op) ==> Weight(Apply(inv, op), part) == Weight(inv, part)
  {
    hide ValidInvoice, OneStep, Enabled, Apply, Weight, InvoiceMeasure, SameSchemes;
    var r := OneStep(inv)[i];
    assert r in OneStep(inv);
    op := r.operation;
    OneStepSound(inv, r);
    StepLowers(inv, op, part);
  }

  /**
   If an invoice below q offers what p offers as its j-th reduction, then p's i-th reduction q and
   the j-th one act on the same part, and the j-th one leaves less of it.
   */
  lemma {:induction false} SamePart(p: Invoice, i: nat, j: nat, z: Invoice, n: nat, y: Element)
    requires OneLine(p) && ValidInvoice(p) && ValidInvoice(z)
    requires i < |OneStep(p)| && Below(OneStep(p)[i].invoice, z) && OffersAt(p, j, y) && OffersAt(z, n, y)
    ensures var q, r := OneStep(p)[i], OneStep(p)[j]; var part := PartOf(q.operation);
      PartOf(r.operation) == part && OneLine(q.invoice) && OneLine(r.invoice) && Weight(r.invoice, part) < Weight(q.invoice, part)
  {
    hide ValidInvoice, OneStep, Enabled, Apply, Weight, InvoiceMeasure, SameSchemes, SameInvoice, Payload, Below, IsDoc, PartOf;
    var q, r, t := OneStep(p)[i], OneStep(p)[j], OneStep(z)[n];
    BelowLine(q.invoice, z);
    SameDocument(r.invoice, t.invoice, y);
    var part := PartOf(q.operation);
    var last := PartOf(t.operation);
    var a := EntryOf(p, i, part);
    var b := EntryOf(p, j, part);
    var c := EntryOf(z, n, part);
    a := EntryOf(p, i, last);
    b := EntryOf(p, j, last);
    c := EntryOf(z, n, last);
    WeightSame(r.invoice, t.invoice, part);
    WeightSame(r.invoice, t.invoice, last);
    BelowAt(q.invoice, z, part);
    BelowAt(q.invoice, z, last);
  }

  /** In an invoice with short texts, a later reduction of the same part does not leave less. */
  lemma {:induction false} ShortIsOrdered(inv: Invoice, p: Invoice, i: nat, j: nat)
    requires Below(inv, p) && ShortTexts(inv) && ValidInvoice(p) && i < j < |OneStep(p)|
    requires OneLine(OneStep(p)[i].invoice) && OneLine(OneStep(p)[j].invoice)
    requires PartOf(OneStep(p)[i].operation) == PartOf(OneStep(p)[j].operation)
    ensures var part := PartOf(OneStep(p)[i].operation); Weight(OneStep(p)[i].invoice, part) <= Weight(OneStep(p)[j].invoice, part)
  {
    hide ValidInvoice, OneStep, Enabled, Apply, Weight, FieldText, InvoiceMeasure, SameSchemes, Below, IsMail, ShortTexts, Place;
    BelowLine(inv, p);
    var part := PartOf(OneStep(p)[i].operation);
    var a := EntryOf(p, i, part);
    var b := EntryOf(p, j, part);
    OneStepInOrder(p);
    assert Place(a) <= Place(b);
    if Weight(Apply(p, b), part) < Weight(Apply(p, a), part) {
      LaterIsSmaller(p, a, b);
      ShortBelow(inv, p, part.field);
      MinimalIsA(p, b, part.field);
      MailStays(p, Apply(p, b), part.field);
      MailKeepsAt(Apply(p, b), part.field);
    }
  }

  lemma {:induction false} MinimalIsA(inv: Invoice, op: Operation, field: TextField)
    requires OneLine(inv) && Enabled(inv, op) && PartOf(op) == TextPart(field) && TextOpOf(op) == Some(ReplaceMinimal)
    ensures OneLine(Apply(inv, op)) && FieldText(Apply(inv, op), field) == "A"
  {
    hide Enabled, Apply, FieldText;
    TextReduced(inv, op, field);
  }

  lemma {:induction false} MailStays(a: Invoice, b: Invoice, field: TextField)
    requires SameSchemes(a, b)
    ensures IsMail(a, field) <==> IsMail(b, field)
  {
  }

  /** Where a path defers its document, and where it is offered again. */
  lemma {:induction false} SkipPlaces(path: seq<Invoice>, y: Element) returns (k: nat, i: nat, j: nat, n: nat)
    requires Skip(path, y)
    ensures ValidInvoice(path[0]) && Linked(path) && k + 1 < |path| && i < j
    ensures LeadsTo(path[k], i, path[k + 1]) && OffersAt(path[k], j, y) && OffersAt(path[|path| - 1], n, y)
  {
    hide ValidInvoice, FrontierWritten, NoShortCut, Linked, SerializeInvoice, LeadsTo, OffersAt;
    k :| DefersAt(path, k, y);
    i, j :| i < j && LeadsTo(path[k], i, path[k + 1]) && OffersAt(path[k], j, y);
    n :| OffersAt(path[|path| - 1], n, y);
  }

  /** No skip starts at an invoice with one line and short texts. */
  lemma {:induction false} ShortHasNoSkip(inv: Invoice, path: seq<Invoice>, y: Element)
    requires OneLine(inv) && ShortTexts(inv)
    ensures !SkipFrom(inv, path, y)
  {
    hide ValidInvoice, OneStep, Weight, InvoiceMeasure, ShortTexts, Below, IsDoc, Linked, PartOf, Skip;
    if SkipFrom(inv, path, y) {
      var k, i, j, n := SkipPlaces(path, y);
      var p, z := path[k], path[|path| - 1];
      PathBelow(path, 0, k);
      PathBelow(path, k + 1, |path| - 1);
      PathBelow(path, |path| - 1, |path| - 1);
      PathGoesDown(path, k, k);
      BelowLine(inv, p);
      SamePart(p, i, j, z, n, y);
      ShortIsOrdered(inv, p, i, j);
    }
  }

  /** One line and short texts: under all oracles that depend on the document the result is 1-minimal. */
  lemma {:induction false} ShortIsMinimal(inv: Invoice)
    requires OneLine(inv) && ShortTexts(inv)
    ensures AlwaysMinimal(inv)
  {
    hide AlwaysMinimal, SkipFrom, ShortTexts;
    forall path, y ensures !SkipFrom(inv, path, y) {
      ShortHasNoSkip(inv, path, y);
    }
    AlwaysMinimalUnlessSkip(inv);
  }

  // ---------------------------------------------------------------- and needed

  function WithField(inv: Invoice, field: TextField, s: string): (r: Invoice)
    requires Located(inv, field)
    ensures Located(r, field)
  {
    match field
    case OfParty(role, f) => WithParty(inv, role, WithPartyText(PartyOf(inv, role), f, s))
    case OfInvoice(f) => WithInvoiceText(inv, f, s)
    case OfLine(f) => WithLine(inv, 0, WithLineText(inv.lines[0], f, s))
  }

  function FieldOp(field: TextField, t: TextOp): (op: Operation)
    ensures PartOf(op) == TextPart(field) && TextOpOf(op) == Some(t)
  {
    match field
    case OfParty(role, f) => ReducePartyText(role, f, t)
    case OfInvoice(f) => ReduceInvoiceText(f, t)
    case OfLine(f) => ReduceLineText(0, f, t)
  }

  lemma {:induction false} FieldApplied(inv: Invoice, field: TextField, t: TextOp)
    requires Located(inv, field) && TextEnabled(FieldText(inv, field), t)
    ensures |FieldText(inv, field)| >= 2 && Enabled(inv, FieldOp(field, t))
    ensures Apply(inv, FieldOp(field, t)) == WithField(inv, field, ReduceText(FieldText(inv, field), t))
  {
    hide TextEnabled, ReduceText;
    TextIsLong(FieldText(inv, field), t);
  }

  lemma {:induction false} FieldWritten(inv: Invoice, field: TextField, s: string, t: string)
    requires Located(inv, field) && s != ""
    ensures FieldText(WithField(inv, field, s), field) == s
    ensures WithField(WithField(inv, field, s), field, t) == WithField(inv, field, t)
    ensures IsMail(WithField(inv, field, s), field) == IsMail(inv, field)
  {
    if field.OfLine? {
      var line := inv.lines[0];
      assert inv.lines == [line];
    }
  }

  /** A text that is valid wherever text is. */
  lemma {:induction false} ReducedText(text: string, t: TextOp, limit: nat)
    requires |text| >= 2 && ValidText(text, limit)
    ensures ValidText(ReduceText(text, t), limit)
  {
  }

  lemma {:induction false} PartyFieldValid(p: Party, f: PartyText, t: TextOp)
    requires ValidParty(p) && |PartyTextOf(p, f)| >= 2 && (f == Endpoint ==> p.endpointScheme != "EM")
    ensures ValidParty(WithPartyText(p, f, ReduceText(PartyTextOf(p, f), t)))
  {
    hide ValidText, ValidOptional, ReduceText;
    ReducedText(PartyTextOf(p, f), t, 1000);
  }

  lemma {:induction false} LineFieldValid(line: Line, f: LineText, t: TextOp)
    requires ValidLine(line) && |LineTextOf(line, f)| >= 2
    ensures ValidLine(WithLineText(line, f, ReduceText(LineTextOf(line, f), t)))
  {
    hide ValidText, ReduceText, InBounds, ValidPeriod;
    ReducedText(LineTextOf(line, f), t, if f in {IdentifierText, NameText} then 1000 else 5000);
  }

  lemma {:induction false} InvoiceFieldValid(inv: Invoice, f: InvoiceText, t: TextOp)
    requires ValidHeader(inv) && |InvoiceTextOf(inv, f)| >= 2
    ensures ValidHeader(WithInvoiceText(inv, f, ReduceText(InvoiceTextOf(inv, f), t)))
  {
    hide ValidText, ValidOptional, ReduceText;
    ReducedText(InvoiceTextOf(inv, f), t, 5000);
  }

  lemma {:induction false} FieldValid(inv: Invoice, field: TextField, t: TextOp)
    requires Located(inv, field) && ValidInvoice(inv) && |FieldText(inv, field)| >= 2 && !IsMail(inv, field)
    ensures ValidInvoice(WithField(inv, field, ReduceText(FieldText(inv, field), t)))
  {
    hide ValidParty, ValidLine, ReduceText, PartyTextOf, LineTextOf, InvoiceTextOf, WithPartyText, WithLineText, ValidText, SameNumber,
      ValidOptional;
    match field {
      case OfParty(role, f) => PartyFieldValid(PartyOf(inv, role), f, t);
      case OfInvoice(f) => InvoiceFieldValid(inv, f, t);
      case OfLine(f) =>
        LineFieldValid(inv.lines[0], f, t);
        RateKept(inv.lines[0], f, ReduceText(FieldText(inv, field), t));
    }
  }

  lemma {:induction false} RateKept(line: Line, f: LineText, s: string)
    ensures SameNumber(WithLineText(line, f, s).vatRate, WithLineText(line, f, s).vatRate)
  {
    SameNumberReflexive(line.vatRate);
  }

  lemma {:induction false} OthersKeepHeaderText(inv: Invoice, op: Operation, field: TextField)
    requires !field.OfLine? && Enabled(inv, op) && PartOf(op) != TextPart(field)
    ensures FieldText(Apply(inv, op), field) == FieldText(inv, field)
  {
    hide TextEnabled, ReduceText, NumberEnabled, Reduced, PartyOptionalOf, LineOptionalOf, LineTextOf, WithLineText, WithNumber,
      WithoutLineOptional;
  }

  lemma {:induction false} OthersKeepLineText(inv: Invoice, op: Operation, field: TextField)
    requires field.OfLine? && OneLine(inv) && Enabled(inv, op) && PartOf(op) != TextPart(field)
    ensures OneLine(Apply(inv, op)) && FieldText(Apply(inv, op), field) == FieldText(inv, field)
  {
    hide TextEnabled, ReduceText, NumberEnabled, Reduced, PartyOptionalOf, PartyTextOf, InvoiceTextOf, WithPartyText,
      WithoutPartyOptional;
  }

  /** Only the operations on a text change it. */
  lemma {:induction false} OthersKeepText(inv: Invoice, op: Operation, field: TextField)
    requires Located(inv, field) && Enabled(inv, op) && PartOf(op) != TextPart(field)
    ensures Located(Apply(inv, op), field) && FieldText(Apply(inv, op), field) == FieldText(inv, field)
  {
    hide Enabled, Apply, FieldText, PartOf;
    if field.OfLine? {
      OthersKeepLineText(inv, op, field);
    } else {
      OthersKeepHeaderText(inv, op, field);
    }
  }

  lemma {:induction false} RemovedText(inv: Invoice, op: Operation, field: TextField)
    requires Located(inv, field) && Enabled(inv, op) && PartOf(op) == TextPart(field) && TextOpOf(op).None?
    ensures Located(Apply(inv, op), field) && FieldText(Apply(inv, op), field) == ""
  {
  }

  /** Those that reduce it change nothing else. */
  lemma {:induction false} ReducedField(inv: Invoice, op: Operation, field: TextField)
    requires Located(inv, field) && Enabled(inv, op) && PartOf(op) == TextPart(field) && TextOpOf(op).Some?
    ensures TextEnabled(FieldText(inv, field), TextOpOf(op).value) && |FieldText(inv, field)| >= 2
    ensures Apply(inv, op) == WithField(inv, field, ReduceText(FieldText(inv, field), TextOpOf(op).value))
  {
    hide TextEnabled, ReduceText;
    TextIsLong(FieldText(inv, field), TextOpOf(op).value);
  }

  lemma {:induction false} SameText(a: Invoice, b: Invoice, field: TextField)
    requires SameInvoice(a, b) && Located(a, field) && Located(b, field)
    ensures FieldText(a, field) == FieldText(b, field)
  {
    hide SameNumber;
    if field.OfLine? {
      assert SameLine(a.lines[0], b.lines[0]);
    }
  }

  /** Writing different texts into the same invoice gives different ones. */
  lemma {:induction false} SameIsEqual(inv: Invoice, field: TextField, s: string, t: string)
    requires Located(inv, field) && s != "" && t != "" && SameInvoice(WithField(inv, field, s), WithField(inv, field, t))
    ensures s == t
  {
    hide WithField, SameInvoice, FieldText;
    FieldWritten(inv, field, s, s);
    FieldWritten(inv, field, t, t);
    SameText(WithField(inv, field, s), WithField(inv, field, t), field);
  }

  lemma {:induction false} ReducedNotEmpty(s: string, t: TextOp)
    requires |s| >= 2
    ensures ReduceText(s, t) != ""
  {
  }

  /** The operation reduces this text, with the effect of t. */
  predicate ReducesAs(inv: Invoice, field: TextField, op: Operation, t: TextOp)
    requires Located(inv, field)
  {
    && PartOf(op) == TextPart(field) && TextOpOf(op).Some? && |FieldText(inv, field)| >= 2
    && ReduceText(FieldText(inv, field), TextOpOf(op).value) == ReduceText(FieldText(inv, field), t)
  }

  /** The frontier lists the reduction of a text by an operation on that text. */
  lemma {:induction false} TextListed(inv: Invoice, field: TextField, t: TextOp) returns (i: nat)
    requires Located(inv, field) && ValidInvoice(inv) && !IsMail(inv, field) && TextEnabled(FieldText(inv, field), t)
    ensures |FieldText(inv, field)| >= 2
    ensures LeadsTo(inv, i, WithField(inv, field, ReduceText(FieldText(inv, field), t)))
    ensures ReducesAs(inv, field, OneStep(inv)[i].operation, t)
  {
    hide ValidInvoice, OneStep, Enabled, Apply, FieldText, InvoiceMeasure, TextEnabled, ReduceText, SameInvoice, WithField, IsMail, PartOf,
      TextOpOf;
    var op := FieldOp(field, t);
    FieldApplied(inv, field, t);
    FieldValid(inv, field, t);
    OneStepComplete(inv, op);
    var r :| r in OneStep(inv) && SameInvoice(r.invoice, Apply(inv, op));
    i :| i < |OneStep(inv)| && OneStep(inv)[i] == r;
    OneStepSound(inv, r);
    FoundReduces(inv, field, t, r.operation);
  }

  /** An operation with the result of reducing a text reduces that text. */
  lemma {:induction false} FoundReduces(inv: Invoice, field: TextField, t: TextOp, op: Operation)
    requires Located(inv, field) && TextEnabled(FieldText(inv, field), t) && |FieldText(inv, field)| >= 2 && Enabled(inv, op)
    requires SameInvoice(Apply(inv, op), WithField(inv, field, ReduceText(FieldText(inv, field), t)))
    ensures ReducesAs(inv, field, op, t) && Apply(inv, op) == WithField(inv, field, ReduceText(FieldText(inv, field), t))
  {
    hide Enabled, Apply, FieldText, TextEnabled, ReduceText, SameInvoice, WithField, PartOf, TextOpOf, Located;
    var s := FieldText(inv, field);
    var reduced := WithField(inv, field, ReduceText(s, t));
    ReducedNotEmpty(s, t);
    EnabledShortens(s, t);
    FieldWritten(inv, field, ReduceText(s, t), "A");
    if PartOf(op) != TextPart(field) {
      OthersKeepText(inv, op, field);
      SameText(Apply(inv, op), reduced, field);
    } else if TextOpOf(op).None? {
      RemovedText(inv, op, field);
      SameText(Apply(inv, op), reduced, field);
    } else {
      ReducedField(inv, op, field);
      ReducedNotEmpty(s, TextOpOf(op).value);
      SameIsEqual(inv, field, ReduceText(s, TextOpOf(op).value), ReduceText(s, t));
    }
  }

  lemma {:induction false} EnabledShortens(s: string, t: TextOp)
    requires TextEnabled(s, t)
    ensures ReduceText(s, t) != s
  {
  }

  /** Some enabled operation replaces a text by A. */
  lemma {:induction false} ReachesA(s: string, n: nat) returns (t: TextOp)
    requires |s| >= 2 && n < 5 && ReduceText(s, TEXT_OPS[n]) == "A"
    ensures TextEnabled(s, t) && ReduceText(s, t) == "A"
  {
    hide ReduceText;
    if k: nat :| k < n && ReduceText(s, TEXT_OPS[k]) == "A" {
      t := ReachesA(s, k);
    } else {
      t := TEXT_OPS[n];
      assert Rank(t) == n;
    }
  }

  lemma {:induction false} HalfAndA(s: string)
    requires |s| >= 3
    ensures TextEnabled(s, KeepPrefixHalf) && TextEnabled(s, ReplaceMinimal)
    ensures |ReduceText(s, KeepPrefixHalf)| >= 2 && ReduceText(s, ReplaceMinimal) == "A"
    ensures forall t :: ReduceText(s, t) == "A" ==> t == ReplaceMinimal
  {
    forall k | 0 <= k < 4 ensures |ReduceText(s, TEXT_OPS[k])| >= 2 {
    }
  }

  /** A long text is halved before it is replaced by A. */
  lemma {:induction false} HalfIsFirst(inv: Invoice, field: TextField, i: nat, j: nat)
    requires Located(inv, field) && |FieldText(inv, field)| >= 3
    requires i < |OneStep(inv)| && ReducesAs(inv, field, OneStep(inv)[i].operation, KeepPrefixHalf)
    requires j < |OneStep(inv)| && ReducesAs(inv, field, OneStep(inv)[j].operation, ReplaceMinimal)
    ensures i < j
  {
    hide OneStep, FieldText, TextEnabled, ReduceText, Place, PartOf, TextOpOf;
    var s, a, b := FieldText(inv, field), OneStep(inv)[i].operation, OneStep(inv)[j].operation;
    HalfAndA(s);
    PlaceIsRank(a, field);
    PlaceIsRank(b, field);
    RankOfA(TextOpOf(a).value);
    FieldIsEarly(inv, field);
    OneStepInOrder(inv);
    assert i != j;
  }

  lemma {:induction false} RankOfA(t: TextOp)
    ensures Rank(t) <= Rank(ReplaceMinimal) == 4 && (t != ReplaceMinimal ==> Rank(t) < 4)
  {
  }

  lemma {:induction false} FieldIsEarly(inv: Invoice, field: TextField)
    requires Located(inv, field)
    ensures FieldPlace(field) + 4 < Bound(inv)
  {
  }

  /** Every frontier of an invoice with modest rates can be written. */
  lemma {:induction false} ModestFrontier(inv: Invoice, i: nat, q: Invoice)
    requires ValidInvoice(inv) && Modest(inv) && LeadsTo(inv, i, q)
    ensures FrontierWritten(inv) && ValidInvoice(q) && Modest(q) && SerializeInvoice(q).Some?
  {
    hide ValidInvoice, Modest, SerializeInvoice, OneStep;
    forall r | r in OneStep(inv) ensures SerializeInvoice(r.invoice).Some? {
      ReductionIsModest(inv, r);
    }
    var r := OneStep(inv)[i];
    assert r in OneStep(inv);
    ReductionIsModest(inv, r);
  }

  lemma {:induction false} ModestIsWritten(inv: Invoice)
    requires ValidInvoice(inv) && Modest(inv)
    ensures SerializeInvoice(inv).Some?
  {
    hide ValidInvoice, ValidLine, Document, SumsOf, TotalsFit, InBounds;
    LinesOf(inv);
    AtMostHundred(inv);
    ModestRatesFit(inv.lines);
  }

  /** A path of one step that defers what it offers again at its end. */
  lemma {:induction false} ShortSkip(p: Invoice, q: Invoice, i: nat, j: nat, n: nat, y: Element)
    requires ValidInvoice(p) && SerializeInvoice(p).Some? && SerializeInvoice(q).Some?
    requires FrontierWritten(p) && FrontierWritten(q)
    requires i < j && LeadsTo(p, i, q) && OffersAt(p, j, y) && OffersAt(q, n, y)
    ensures SkipFrom(p, [p, q], y)
  {
    hide ValidInvoice, SerializeInvoice, FrontierWritten, LeadsTo, OffersAt;
    var path := [p, q];
    assert Link(path[0], path[1]);
    assert DefersAt(path, 0, y);
  }

  /**
   A reducible text of three or more characters starts a skip: it is halved, and A is deferred. So
   does one of the header or of a party in an invoice with any number of lines.
   */
  lemma {:induction false} LongTextSkips(inv: Invoice, field: TextField) returns (path: seq<Invoice>, y: Element)
    requires Located(inv, field) && ValidInvoice(inv) && Modest(inv)
    requires !IsMail(inv, field) && |FieldText(inv, field)| >= 3
    ensures SkipFrom(inv, path, y) && IsDoc(WithField(inv, field, "A"), y)
    ensures path == [inv, WithField(inv, field, ReduceText(FieldText(inv, field), KeepPrefixHalf))]
  {
    hide ValidInvoice, Modest, OneStep, FieldText, TextEnabled, ReduceText, WithField, IsMail, SerializeInvoice, FrontierWritten,
      SkipFrom, ReducesAs;
    var s := FieldText(inv, field);
    HalfAndA(s);
    var half := ReduceText(s, KeepPrefixHalf);
    var q, least := WithField(inv, field, half), WithField(inv, field, "A");
    var i := TextListed(inv, field, KeepPrefixHalf);
    var j := TextListed(inv, field, ReplaceMinimal);
    HalfIsFirst(inv, field, i, j);
    ModestFrontier(inv, i, q);
    ModestFrontier(inv, j, least);
    ModestIsWritten(inv);
    FieldWritten(inv, field, half, "A");
    assert ReduceText(half, TEXT_OPS[4]) == "A" by { HalfToA(half); }
    var t := ReachesA(half, 4);
    var n := TextListed(q, field, t);
    ModestFrontier(q, n, least);
    y := SerializeInvoice(least).value;
    path := [inv, q];
    ShortSkip(inv, q, i, j, n, y);
  }

  lemma {:induction false} HalfToA(s: string)
    requires |s| >= 2
    ensures ReduceText(s, TEXT_OPS[4]) == "A"
  {
  }

  /**
   One line and modest rates: shrinking is certain to reach a 1-minimal invoice, whatever the
   oracles answer by the document, if and only if all reducible texts but mail addresses have at
   most two characters.
   */
  lemma {:induction false} MinimalIfShort(inv: Invoice)
    requires OneLine(inv) && ValidInvoice(inv) && Modest(inv)
    ensures AlwaysMinimal(inv) <==> ShortTexts(inv)
  {
    hide ValidInvoice, Modest, AlwaysMinimal, SkipFrom, FieldText, IsMail;
    if ShortTexts(inv) {
      ShortIsMinimal(inv);
    } else {
      var field :| field in ALL_FIELDS && !IsMail(inv, field) && |FieldText(inv, field)| > 2;
      var path, y := LongTextSkips(inv, field);
      AlwaysMinimalUnlessSkip(inv);
    }
  }
}
