/** The declared one-step reductions of an invoice. */
module Reductions {
  import opened Basics
  import opened Decimals
  import opened Rounding
  import opened Invoices

  datatype PartyRole = Seller | Buyer

  datatype PartyOptional =
    | TradingName | TaxIdentifier | LegalIdentifier | LegalForm | PartyIdentifier
    | ContactName | ContactPhone | ContactEmail

  datatype PartyText = Endpoint | RegistrationName | Street | City | PostalCode

  datatype LineOptional = LineNote | LineDescription | OrderLineIdentifier | SellerItemIdentifier

  datatype LineText = IdentifierText | NameText | NoteText | DescriptionText

  datatype InvoiceText = InvoiceIdentifier | BuyerReference | PaymentTerms | PayeeAccount

  datatype TextOp = KeepPrefixHalf | KeepSuffixHalf | DropLast | DropFirst | ReplaceMinimal

  datatype NumberField = Quantity | Price

  datatype NumberOp = ToOne | ToCents

  /** The name of a reduction step. */
  datatype Operation =
    | RemoveInvoiceNote
    | RemovePaymentDueDate
    | RemoveLine(index: nat)
    | RemovePartyField(role: PartyRole, optional: PartyOptional)
    | ReducePartyText(role: PartyRole, text: PartyText, textOp: TextOp)
    | ReduceInvoiceText(field: InvoiceText, textOp: TextOp)
    | RemoveLineField(index: nat, lineOptional: LineOptional)
    | RemovePeriod(index: nat)
    | RemoveClassification(index: nat)
    | ReduceLineText(index: nat, lineText: LineText, textOp: TextOp)
    | ReduceNumber(index: nat, number: NumberField, numberOp: NumberOp)

  const TEXT_OPS: seq<TextOp> := [KeepPrefixHalf, KeepSuffixHalf, DropLast, DropFirst, ReplaceMinimal]

  const PARTY_OPTIONALS: seq<PartyOptional> :=
    [TradingName, TaxIdentifier, LegalIdentifier, LegalForm, PartyIdentifier, ContactName, ContactPhone, ContactEmail]

  const PARTY_TEXTS: seq<PartyText> := [Endpoint, RegistrationName, Street, City, PostalCode]

  const LINE_OPTIONALS: seq<LineOptional> := [LineNote, LineDescription, OrderLineIdentifier, SellerItemIdentifier]

  const LINE_TEXTS: seq<LineText> := [IdentifierText, NameText, NoteText, DescriptionText]

  const INVOICE_TEXTS: seq<InvoiceText> := [InvoiceIdentifier, BuyerReference, PaymentTerms, PayeeAccount]

  // ---------------------------------------------------------------- fields

  function PartyOf(inv: Invoice, role: PartyRole): (p: Party) {
    if role == Seller then inv.seller else inv.buyer
  }

  function WithParty(inv: Invoice, role: PartyRole, p: Party): (r: Invoice) {
    if role == Seller then inv.(seller := p) else inv.(buyer := p)
  }

  function PartyOptionalOf(p: Party, f: PartyOptional): (o: Option<string>) {
    match f
    case TradingName => p.tradingName
    case TaxIdentifier => p.taxIdentifier
    case LegalIdentifier => p.legalIdentifier
    case LegalForm => p.legalForm
    case PartyIdentifier => p.partyIdentifier
    case ContactName => p.contactName
    case ContactPhone => p.contactPhone
    case ContactEmail => p.contactEmail
  }

  function WithoutPartyOptional(p: Party, f: PartyOptional): (r: Party) {
    match f
    case TradingName => p.(tradingName := None)
    case TaxIdentifier => p.(taxIdentifier := None)
    case LegalIdentifier => p.(legalIdentifier := None)
    case LegalForm => p.(legalForm := None)
    case PartyIdentifier => p.(partyIdentifier := None)
    case ContactName => p.(contactName := None)
    case ContactPhone => p.(contactPhone := None)
    case ContactEmail => p.(contactEmail := None)
  }

  function PartyTextOf(p: Party, f: PartyText): (s: string) {
    match f
    case Endpoint => p.endpoint
    case RegistrationName => p.registrationName
    case Street => p.street
    case City => p.city
    case PostalCode => p.postalCode
  }

  function WithPartyText(p: Party, f: PartyText, s: string): (r: Party) {
    match f
    case Endpoint => p.(endpoint := s)
    case RegistrationName => p.(registrationName := s)
    case Street => p.(street := s)
    case City => p.(city := s)
    case PostalCode => p.(postalCode := s)
  }

  function InvoiceTextOf(inv: Invoice, f: InvoiceText): (s: string) {
    match f
    case InvoiceIdentifier => inv.identifier
    case BuyerReference => inv.buyerReference
    case PaymentTerms => inv.paymentTerms
    case PayeeAccount => inv.payeeAccountIdentifier
  }

  function WithInvoiceText(inv: Invoice, f: InvoiceText, s: string): (r: Invoice) {
    match f
    case InvoiceIdentifier => inv.(identifier := s)
    case BuyerReference => inv.(buyerReference := s)
    case PaymentTerms => inv.(paymentTerms := s)
    case PayeeAccount => inv.(payeeAccountIdentifier := s)
  }

  function LineOptionalOf(line: Line, f: LineOptional): (o: Option<string>) {
    match f
    case LineNote => line.note
    case LineDescription => line.description
    case OrderLineIdentifier => line.orderLineIdentifier
    case SellerItemIdentifier => line.sellerItemIdentifier
  }

  function WithoutLineOptional(line: Line, f: LineOptional): (r: Line) {
    match f
    case LineNote => line.(note := None)
    case LineDescription => line.(description := None)
    case OrderLineIdentifier => line.(orderLineIdentifier := None)
    case SellerItemIdentifier => line.(sellerItemIdentifier := None)
  }

  /** Absent optional text reads as the empty string, which has no reductions. */
  function LineTextOf(line: Line, f: LineText): (s: string) {
    match f
    case IdentifierText => line.identifier
    case NameText => line.name
    case NoteText => if line.note.Some? then line.note.value else ""
    case DescriptionText => if line.description.Some? then line.description.value else ""
  }

  function WithLineText(line: Line, f: LineText, s: string): (r: Line) {
    match f
    case IdentifierText => line.(identifier := s)
    case NameText => line.(name := s)
    case NoteText => line.(note := Some(s))
    case DescriptionText => line.(description := Some(s))
  }

  function NumberOf(line: Line, f: NumberField): (d: Dec) {
    if f == Quantity then line.quantity else line.price
  }

  function WithNumber(line: Line, f: NumberField, d: Dec): (r: Line) {
    if f == Quantity then line.(quantity := d) else line.(price := d)
  }

  // ---------------------------------------------------------------- steps

  function ReduceText(s: string, op: TextOp): (r: string)
    requires |s| >= 2
    ensures 1 <= |r| < |s|
  {
    match op
    case KeepPrefixHalf => s[..(|s| + 1) / 2]
    case KeepSuffixHalf => s[|s| / 2..]
    case DropLast => s[..|s| - 1]
    case DropFirst => s[1..]
    case ReplaceMinimal => "A"
  }

  /** The position of an operation in the order of trial. */
  function Rank(op: TextOp): (n: nat)
    ensures n < 5 && TEXT_OPS[n] == op
  {
    match op
    case KeepPrefixHalf => 0
    case KeepSuffixHalf => 1
    case DropLast => 2
    case DropFirst => 3
    case ReplaceMinimal => 4
  }

  /** The operation applies and no earlier operation gives the same text. */
  predicate TextEnabled(s: string, op: TextOp) {
    && |s| >= 2
    && forall k :: 0 <= k < Rank(op) ==> ReduceText(s, TEXT_OPS[k]) != ReduceText(s, op)
  }

  function Reduced(d: Dec, op: NumberOp): (r: Dec) {
    if op == ToOne then ONE
    else
      var q := Quantize(d, HalfEven);
      if q.Some? then q.value else d
  }

  predicate NumberEnabled(d: Dec, op: NumberOp) {
    !SameNumber(Reduced(d, op), d)
  }

  predicate LineIn(inv: Invoice, index: nat) {
    index < |inv.lines|
  }

  /** The declared reduction relation: which operations an invoice admits. */
  predicate Enabled(inv: Invoice, op: Operation) {
    match op
    case RemoveInvoiceNote => inv.note.Some?
    case RemovePaymentDueDate => inv.paymentDueDate.Some?
    case RemoveLine(i) => |inv.lines| > 1 && LineIn(inv, i)
    case RemovePartyField(role, f) => PartyOptionalOf(PartyOf(inv, role), f).Some?
    case ReducePartyText(role, f, t) => TextEnabled(PartyTextOf(PartyOf(inv, role), f), t)
    case ReduceInvoiceText(f, t) => TextEnabled(InvoiceTextOf(inv, f), t)
    case RemoveLineField(i, f) => LineIn(inv, i) && LineOptionalOf(inv.lines[i], f).Some?
    case RemovePeriod(i) => LineIn(inv, i) && inv.lines[i].periodStart.Some?
    case RemoveClassification(i) => LineIn(inv, i) && inv.lines[i].classificationCode.Some?
    case ReduceLineText(i, f, t) => LineIn(inv, i) && TextEnabled(LineTextOf(inv.lines[i], f), t)
    case ReduceNumber(i, f, n) => LineIn(inv, i) && NumberEnabled(NumberOf(inv.lines[i], f), n)
  }

  function WithLine(inv: Invoice, i: nat, line: Line): (r: Invoice)
    requires LineIn(inv, i)
  {
    inv.(lines := inv.lines[i := line])
  }

  /** The invoice that an enabled operation leads to. */
  function Apply(inv: Invoice, op: Operation): (r: Invoice)
    requires Enabled(inv, op)
  {
    match op
    case RemoveInvoiceNote => inv.(note := None)
    case RemovePaymentDueDate => inv.(paymentDueDate := None)
    case RemoveLine(i) => inv.(lines := inv.lines[..i] + inv.lines[i + 1..])
    case RemovePartyField(role, f) => WithParty(inv, role, WithoutPartyOptional(PartyOf(inv, role), f))
    case ReducePartyText(role, f, t) =>
      WithParty(inv, role, WithPartyText(PartyOf(inv, role), f, ReduceText(PartyTextOf(PartyOf(inv, role), f), t)))
    case ReduceInvoiceText(f, t) => WithInvoiceText(inv, f, ReduceText(InvoiceTextOf(inv, f), t))
    case RemoveLineField(i, f) => WithLine(inv, i, WithoutLineOptional(inv.lines[i], f))
    case RemovePeriod(i) => WithLine(inv, i, inv.lines[i].(periodStart := None, periodEnd := None))
    case RemoveClassification(i) =>
      WithLine(inv, i, inv.lines[i].(classificationCode := None, classificationList := None))
    case ReduceLineText(i, f, t) =>
      WithLine(inv, i, WithLineText(inv.lines[i], f, ReduceText(LineTextOf(inv.lines[i], f), t)))
    case ReduceNumber(i, f, n) =>
      WithLine(inv, i, WithNumber(inv.lines[i], f, Reduced(NumberOf(inv.lines[i], f), n)))
  }
}
