/** The invoice format: which element holds which field, in document order. */
module Serialize {
  import opened Basics
  import opened Decimals
  import opened Calendar
  import opened Invoices
  import opened Totals
  import opened Trees

  /** A money amount with exactly two fractional digits. */
  function MoneyText(cents: nat, negative: bool): (s: string) {
    FixedText(Dec(negative, cents, -2))
  }

  function Amount(tag: Tag, cents: nat, inv: Invoice): (e: Element) {
    Attributed(tag, MoneyText(cents, false), CurrencyID, inv.currency)
  }

  // ---------------------------------------------------------------- parties

  const ADDRESS_ORDER: seq<Tag> := [CbcStreetName, CbcCityName, CbcPostalZone, CacCountry]

  function AddressPart(p: Party, tag: Tag): (es: seq<Element>) {
    match tag
    case CbcStreetName => [Leaf(tag, p.street)]
    case CbcCityName => [Leaf(tag, p.city)]
    case CbcPostalZone => [Leaf(tag, p.postalCode)]
    case CacCountry => [Node(tag, [Leaf(CbcIdentificationCode, p.countryCode)])]
    case _ => []
  }

  function AddressElement(p: Party): (e: Element) {
    Node(CacPostalAddress, Assemble(ADDRESS_ORDER, t => AddressPart(p, t)))
  }

  const LEGAL_ORDER: seq<Tag> := [CbcRegistrationName, CbcCompanyID, CbcCompanyLegalForm]

  function LegalPart(p: Party, tag: Tag): (es: seq<Element>) {
    match tag
    case CbcRegistrationName => [Leaf(tag, p.registrationName)]
    case CbcCompanyID => Maybe(tag, p.legalIdentifier)
    case CbcCompanyLegalForm => Maybe(tag, p.legalForm)
    case _ => []
  }

  function LegalElement(p: Party): (e: Element) {
    Node(CacPartyLegalEntity, Assemble(LEGAL_ORDER, t => LegalPart(p, t)))
  }

  const CONTACT_ORDER: seq<Tag> := [CbcName, CbcTelephone, CbcElectronicMail]

  function ContactPart(p: Party, tag: Tag): (es: seq<Element>) {
    match tag
    case CbcName => Maybe(tag, p.contactName)
    case CbcTelephone => Maybe(tag, p.contactPhone)
    case CbcElectronicMail => Maybe(tag, p.contactEmail)
    case _ => []
  }

  function ContactElement(p: Party): (e: Element) {
    Node(CacContact, Assemble(CONTACT_ORDER, t => ContactPart(p, t)))
  }

  predicate Truthy(o: Option<string>) {
    o.Some? && o.value != ""
  }

  const PARTY_ORDER: seq<Tag> :=
    [CbcEndpointID, CacPartyIdentification, CacPartyName, CacPostalAddress, CacPartyTaxScheme,
     CacPartyLegalEntity, CacContact]

  function PartyPart(p: Party, tag: Tag): (es: seq<Element>) {
    match tag
    case CbcEndpointID => [Attributed(tag, p.endpoint, SchemeID, p.endpointScheme)]
    case CacPartyIdentification =>
      if p.partyIdentifier.Some? then [Node(tag, [Leaf(CbcID, p.partyIdentifier.value)])] else []
    case CacPartyName =>
      if p.tradingName.Some? then [Node(tag, [Leaf(CbcName, p.tradingName.value)])] else []
    case CacPostalAddress => [AddressElement(p)]
    case CacPartyTaxScheme =>
      if p.taxIdentifier.Some? then
        [Node(tag, [Leaf(CbcCompanyID, p.taxIdentifier.value), Node(CacTaxScheme, [Leaf(CbcID, "VAT")])])]
      else []
    case CacPartyLegalEntity => [LegalElement(p)]
    case CacContact =>
      if Truthy(p.contactName) || Truthy(p.contactPhone) || Truthy(p.contactEmail) then
        [ContactElement(p)]
      else []
    case _ => []
  }

  function PartyElement(p: Party): (e: Element) {
    Node(CacParty, Assemble(PARTY_ORDER, t => PartyPart(p, t)))
  }

  // ---------------------------------------------------------------- lines

  const TAX_CATEGORY_ORDER: seq<Tag> := [CbcID, CbcPercent, CacTaxScheme]

  function TaxCategoryPart(category: string, rate: Dec, tag: Tag): (es: seq<Element>) {
    match tag
    case CbcID => [Leaf(tag, category)]
    case CbcPercent => [Leaf(tag, DecimalText(rate))]
    case CacTaxScheme => [Node(tag, [Leaf(CbcID, "VAT")])]
    case _ => []
  }

  function TaxCategory(tag: Tag, category: string, rate: Dec): (e: Element) {
    Node(tag, Assemble(TAX_CATEGORY_ORDER, t => TaxCategoryPart(category, rate, t)))
  }

  const ITEM_ORDER: seq<Tag> :=
    [CbcDescription, CbcName, CacSellersItemIdentification, CacCommodityClassification, CacClassifiedTaxCategory]

  function ItemPart(line: Line, tag: Tag): (es: seq<Element>) {
    match tag
    case CbcDescription => Maybe(tag, line.description)
    case CbcName => [Leaf(tag, line.name)]
    case CacSellersItemIdentification =>
      if line.sellerItemIdentifier.Some? then [Node(tag, [Leaf(CbcID, line.sellerItemIdentifier.value)])] else []
    case CacCommodityClassification =>
      if line.classificationCode.Some? && line.classificationList.Some? then
        [Node(tag, [Attributed(CbcItemClassificationCode, line.classificationCode.value, ListID, line.classificationList.value)])]
      else []
    case CacClassifiedTaxCategory => [TaxCategory(tag, line.vatCategory, line.vatRate)]
    case _ => []
  }

  function ItemElement(line: Line): (e: Element) {
    Node(CacItem, Assemble(ITEM_ORDER, t => ItemPart(line, t)))
  }

  const LINE_ORDER: seq<Tag> :=
    [CbcID, CbcNote, CbcInvoicedQuantity, CbcLineExtensionAmount, CacInvoicePeriod, CacOrderLineReference,
     CacItem, CacPrice]

  function LinePart(line: Line, currency: string, tag: Tag): (es: seq<Element>)
    requires ValidLine(line)
  {
    match tag
    case CbcID => [Leaf(tag, line.identifier)]
    case CbcNote => Maybe(tag, line.note)
    case CbcInvoicedQuantity => [Attributed(tag, DecimalText(line.quantity), UnitCode, line.unitCode)]
    case CbcLineExtensionAmount =>
      [Attributed(tag, MoneyText(LineAmount(line), line.price.negative), CurrencyID, currency)]
    case CacInvoicePeriod =>
      if line.periodStart.Some? && line.periodEnd.Some? then
        [Node(tag, [Leaf(CbcStartDate, IsoText(line.periodStart.value)), Leaf(CbcEndDate, IsoText(line.periodEnd.value))])]
      else []
    case CacOrderLineReference =>
      if line.orderLineIdentifier.Some? then [Node(tag, [Leaf(CbcLineID, line.orderLineIdentifier.value)])] else []
    case CacItem => [ItemElement(line)]
    case CacPrice => [Node(tag, [Attributed(CbcPriceAmount, DecimalText(line.price), CurrencyID, currency)])]
    case _ => []
  }

  function LineElement(line: Line, currency: string): (e: Element)
    requires ValidLine(line)
  {
    Node(CacInvoiceLine, Assemble(LINE_ORDER, t => LinePart(line, currency, t)))
  }

  function LineElements(lines: seq<Line>, currency: string): (es: seq<Element>)
    requires AllValid(lines)
    ensures |es| == |lines|
    ensures forall i :: 0 <= i < |lines| ==> es[i] == LineElement(lines[i], currency)
  {
    seq(|lines|, i requires 0 <= i < |lines| => LineElement(lines[i], currency))
  }

  // ---------------------------------------------------------------- document

  datatype Sums = Sums(line: nat, tax: nat, payable: nat)

  function SumsOf(lines: seq<Line>): (s: Sums)
    requires AllValid(lines) && TotalsFit(lines)
  {
    Sums(LineTotal(lines).value, TaxTotal(lines).value, PayableTotal(lines).value)
  }

  const PAYMENT_ORDER: seq<Tag> := [CbcPaymentMeansCode, CbcPaymentDueDate, CacPayeeFinancialAccount]

  function PaymentPart(inv: Invoice, tag: Tag): (es: seq<Element>) {
    match tag
    case CbcPaymentMeansCode => [Leaf(tag, inv.paymentMeansCode)]
    case CbcPaymentDueDate =>
      if inv.paymentDueDate.Some? then [Leaf(tag, IsoText(inv.paymentDueDate.value))] else []
    case CacPayeeFinancialAccount => [Node(tag, [Leaf(CbcID, inv.payeeAccountIdentifier)])]
    case _ => []
  }

  function PaymentElement(inv: Invoice): (e: Element) {
    Node(CacPaymentMeans, Assemble(PAYMENT_ORDER, t => PaymentPart(inv, t)))
  }

  const MONETARY_ORDER: seq<Tag> :=
    [CbcLineExtensionAmount, CbcTaxExclusiveAmount, CbcTaxInclusiveAmount, CbcPayableAmount]

  function MonetaryPart(inv: Invoice, sums: Sums, tag: Tag): (es: seq<Element>) {
    match tag
    case CbcLineExtensionAmount => [Amount(tag, sums.line, inv)]
    case CbcTaxExclusiveAmount => [Amount(tag, sums.line, inv)]
    case CbcTaxInclusiveAmount => [Amount(tag, sums.payable, inv)]
    case CbcPayableAmount => [Amount(tag, sums.payable, inv)]
    case _ => []
  }

  function MonetaryElement(inv: Invoice, sums: Sums): (e: Element) {
    Node(CacLegalMonetaryTotal, Assemble(MONETARY_ORDER, t => MonetaryPart(inv, sums, t)))
  }

  function TaxTotalElement(inv: Invoice, sums: Sums): (e: Element)
    requires |inv.lines| >= 1
  {
    Node(CacTaxTotal,
      [Amount(CbcTaxAmount, sums.tax, inv),
       Node(CacTaxSubtotal,
         [Amount(CbcTaxableAmount, sums.line, inv),
          Amount(CbcTaxAmount, sums.tax, inv),
          TaxCategory(CacTaxCategory, "S", inv.lines[0].vatRate)])])
  }

  const ROOT_ORDER: seq<Tag> :=
    [CbcCustomizationID, CbcProfileID, CbcID, CbcIssueDate, CbcInvoiceTypeCode, CbcNote,
     CbcDocumentCurrencyCode, CbcBuyerReference, CacAccountingSupplierParty, CacAccountingCustomerParty,
     CacPaymentMeans, CacPaymentTerms, CacTaxTotal, CacLegalMonetaryTotal, CacInvoiceLine]

  function RootPart(inv: Invoice, sums: Sums, tag: Tag): (es: seq<Element>)
    requires |inv.lines| >= 1 && AllValid(inv.lines)
  {
    match tag
    case CbcCustomizationID => [Leaf(tag, inv.customizationId)]
    case CbcProfileID => [Leaf(tag, inv.profileId)]
    case CbcID => [Leaf(tag, inv.identifier)]
    case CbcIssueDate => [Leaf(tag, IsoText(inv.issueDate))]
    case CbcInvoiceTypeCode => [Leaf(tag, inv.invoiceTypeCode)]
    case CbcNote => Maybe(tag, inv.note)
    case CbcDocumentCurrencyCode => [Leaf(tag, inv.currency)]
    case CbcBuyerReference => [Leaf(tag, inv.buyerReference)]
    case CacAccountingSupplierParty => [Node(tag, [PartyElement(inv.seller)])]
    case CacAccountingCustomerParty => [Node(tag, [PartyElement(inv.buyer)])]
    case CacPaymentMeans => [PaymentElement(inv)]
    case CacPaymentTerms => [Node(tag, [Leaf(CbcNote, inv.paymentTerms)])]
    case CacTaxTotal => [TaxTotalElement(inv, sums)]
    case CacLegalMonetaryTotal => [MonetaryElement(inv, sums)]
    case CacInvoiceLine => LineElements(inv.lines, inv.currency)
    case _ => []
  }

  function Document(inv: Invoice, sums: Sums): (e: Element)
    requires |inv.lines| >= 1 && AllValid(inv.lines)
  {
    Node(UblInvoice, Assemble(ROOT_ORDER, t => RootPart(inv, sums, t)))
  }

  /** The invoice can be written: it validates, and quantising its totals does not raise. */
  predicate Writable(inv: Invoice) {
    ValidInvoice(inv) && TotalsFit(inv.lines)
  }

  /** serialize_invoice; None when validation or a total quantisation raises. */
  function SerializeInvoice(inv: Invoice): (r: Option<Element>)
    ensures r.Some? <==> Writable(inv)
  {
    if Writable(inv) then Some(Document(inv, SumsOf(inv.lines))) else None
  }
}
