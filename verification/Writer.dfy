/** serialize_invoice step by step: elements are appended in the order of the source. */
module Writer {
  import opened Basics
  import opened Decimals
  import opened Calendar
  import opened Invoices
  import opened Totals
  import opened Trees
  import opened Serialize

  /** One more tag of the order is laid out. */
  lemma {:induction false} Lay(order: seq<Tag>, part: Tag -> seq<Element>, k: nat)
    requires k < |order|
    ensures Assemble(order[..k + 1], part) == Assemble(order[..k], part) + part(order[k])
    ensures k == 0 ==> Assemble(order[..1], part) == part(order[0])
    ensures k + 1 == |order| ==> Assemble(order[..k + 1], part) == Assemble(order, part)
  {
    assert order[..k + 1][..k] == order[..k];
    assert order[..|order|] == order;
    if k == 0 {
      assert Assemble(order[..0], part) == [];
    }
  }

  lemma {:induction false} Three(order: seq<Tag>, part: Tag -> seq<Element>)
    requires |order| == 3
    ensures Assemble(order, part) == part(order[0]) + part(order[1]) + part(order[2])
  {
    hide Assemble;
    Lay(order, part, 0);
    Lay(order, part, 1);
    Lay(order, part, 2);
  }

  lemma {:induction false} Four(order: seq<Tag>, part: Tag -> seq<Element>)
    requires |order| == 4
    ensures Assemble(order, part) == part(order[0]) + part(order[1]) + part(order[2]) + part(order[3])
  {
    hide Assemble;
    Lay(order, part, 0);
    Lay(order, part, 1);
    Lay(order, part, 2);
    Lay(order, part, 3);
  }

  lemma {:induction false} Five(order: seq<Tag>, part: Tag -> seq<Element>)
    requires |order| == 5
    ensures Assemble(order, part) == part(order[0]) + part(order[1]) + part(order[2]) + part(order[3]) + part(order[4])
  {
    hide Assemble;
    Lay(order, part, 0);
    Lay(order, part, 1);
    Lay(order, part, 2);
    Lay(order, part, 3);
    Lay(order, part, 4);
  }

  lemma {:induction false} Seven(order: seq<Tag>, part: Tag -> seq<Element>)
    requires |order| == 7
    ensures Assemble(order, part) == part(order[0]) + part(order[1]) + part(order[2]) + part(order[3]) + part(order[4]) + part(order[5]) + part(order[6])
  {
    hide Assemble;
    Lay(order, part, 0);
    Lay(order, part, 1);
    Lay(order, part, 2);
    Lay(order, part, 3);
    Lay(order, part, 4);
    Lay(order, part, 5);
    Lay(order, part, 6);
  }

  lemma {:induction false} Eight(order: seq<Tag>, part: Tag -> seq<Element>)
    requires |order| == 8
    ensures Assemble(order, part) == part(order[0]) + part(order[1]) + part(order[2]) + part(order[3]) + part(order[4]) + part(order[5]) + part(order[6]) + part(order[7])
  {
    hide Assemble;
    Lay(order, part, 0);
    Lay(order, part, 1);
    Lay(order, part, 2);
    Lay(order, part, 3);
    Lay(order, part, 4);
    Lay(order, part, 5);
    Lay(order, part, 6);
    Lay(order, part, 7);
  }

  /** The first half of a longer order, then the second. */
  lemma {:induction false} Halves(order: seq<Tag>, part: Tag -> seq<Element>, k: nat)
    requires k <= |order|
    ensures Assemble(order, part) == Assemble(order[..k], part) + Assemble(order[k..], part)
    decreases |order| - k
  {
    if k == |order| {
      assert order[..k] == order && order[k..] == [];
      assert Assemble(order, part) + [] == Assemble(order, part);
    } else {
      var n := |order| - 1;
      var init := order[..n];
      assert init[..k] == order[..k] && order[k..][..n - k] == init[k..];
      Halves(init, part, k);
      assert Assemble(order[k..], part) == Assemble(init[k..], part) + part(order[n]);
      Associative(Assemble(order[..k], part), Assemble(init[k..], part), part(order[n]));
    }
  }

  lemma {:induction false} Associative(a: seq<Element>, b: seq<Element>, c: seq<Element>)
    ensures (a + b) + c == a + (b + c)
  {
  }

  // ---------------------------------------------------------------- parties

  lemma {:induction false} AddressParts(p: Party)
    ensures AddressPart(p, CbcStreetName) == [Leaf(CbcStreetName, p.street)]
    ensures AddressPart(p, CbcCityName) == [Leaf(CbcCityName, p.city)]
    ensures AddressPart(p, CbcPostalZone) == [Leaf(CbcPostalZone, p.postalCode)]
    ensures AddressPart(p, CacCountry) == [Node(CacCountry, [Leaf(CbcIdentificationCode, p.countryCode)])]
  {
    hide Leaf, Node;
  }

  method AddressOf(p: Party) returns (e: Element)
    ensures e == AddressElement(p)
  {
    hide Leaf, Node, Assemble, AddressPart;
    AddressParts(p);
    var children := [Leaf(CbcStreetName, p.street)];
    children := children + [Leaf(CbcCityName, p.city)];
    children := children + [Leaf(CbcPostalZone, p.postalCode)];
    children := children + [Node(CacCountry, [Leaf(CbcIdentificationCode, p.countryCode)])];
    Four(ADDRESS_ORDER, t => AddressPart(p, t));
    e := Node(CacPostalAddress, children);
  }

  lemma {:induction false} LegalParts(p: Party)
    ensures LegalPart(p, CbcRegistrationName) == [Leaf(CbcRegistrationName, p.registrationName)]
    ensures LegalPart(p, CbcCompanyID) == Maybe(CbcCompanyID, p.legalIdentifier)
    ensures LegalPart(p, CbcCompanyLegalForm) == Maybe(CbcCompanyLegalForm, p.legalForm)
  {
    hide Leaf, Maybe;
  }

  /** Absent text adds nothing. */
  method AddText(children: seq<Element>, tag: Tag, text: Option<string>) returns (more: seq<Element>)
    ensures more == children + Maybe(tag, text)
  {
    more := children;
    if text.Some? {
      more := more + [Leaf(tag, text.value)];
    }
  }

  method LegalEntityOf(p: Party) returns (e: Element)
    ensures e == LegalElement(p)
  {
    hide Leaf, Node, Assemble, Maybe, LegalPart;
    LegalParts(p);
    var children := [Leaf(CbcRegistrationName, p.registrationName)];
    children := AddText(children, CbcCompanyID, p.legalIdentifier);
    children := AddText(children, CbcCompanyLegalForm, p.legalForm);
    Three(LEGAL_ORDER, t => LegalPart(p, t));
    e := Node(CacPartyLegalEntity, children);
  }

  lemma {:induction false} ContactParts(p: Party)
    ensures ContactPart(p, CbcName) == Maybe(CbcName, p.contactName)
    ensures ContactPart(p, CbcTelephone) == Maybe(CbcTelephone, p.contactPhone)
    ensures ContactPart(p, CbcElectronicMail) == Maybe(CbcElectronicMail, p.contactEmail)
  {
    hide Leaf, Maybe;
  }

  method ContactOf(p: Party) returns (e: Element)
    ensures e == ContactElement(p)
  {
    hide Leaf, Node, Assemble, Maybe, ContactPart;
    ContactParts(p);
    var children := AddText([], CbcName, p.contactName);
    children := AddText(children, CbcTelephone, p.contactPhone);
    children := AddText(children, CbcElectronicMail, p.contactEmail);
    Three(CONTACT_ORDER, t => ContactPart(p, t));
    assert [] + Maybe(CbcName, p.contactName) == Maybe(CbcName, p.contactName);
    e := Node(CacContact, children);
  }

  /** A wrapped text; absent text adds nothing. */
  function Wrapped(tag: Tag, inner: Tag, text: Option<string>): (es: seq<Element>) {
    if text.Some? then [Node(tag, [Leaf(inner, text.value)])] else []
  }

  method AddWrapped(children: seq<Element>, tag: Tag, inner: Tag, text: Option<string>) returns (more: seq<Element>)
    ensures more == children + Wrapped(tag, inner, text)
  {
    more := children;
    if text.Some? {
      more := more + [Node(tag, [Leaf(inner, text.value)])];
    }
  }

  function TaxSchemes(p: Party): (es: seq<Element>) {
    if p.taxIdentifier.Some? then
      [Node(CacPartyTaxScheme, [Leaf(CbcCompanyID, p.taxIdentifier.value), Node(CacTaxScheme, [Leaf(CbcID, "VAT")])])]
    else []
  }

  function Contacts(p: Party): (es: seq<Element>) {
    if Truthy(p.contactName) || Truthy(p.contactPhone) || Truthy(p.contactEmail) then [ContactElement(p)] else []
  }

  lemma {:induction false} PartyParts(p: Party)
    ensures PartyPart(p, CbcEndpointID) == [Attributed(CbcEndpointID, p.endpoint, SchemeID, p.endpointScheme)]
    ensures PartyPart(p, CacPartyIdentification) == Wrapped(CacPartyIdentification, CbcID, p.partyIdentifier)
    ensures PartyPart(p, CacPartyName) == Wrapped(CacPartyName, CbcName, p.tradingName)
    ensures PartyPart(p, CacPostalAddress) == [AddressElement(p)]
  {
    hide Leaf, Node, Attributed, AddressElement, LegalElement, ContactElement;
  }

  lemma {:induction false} MorePartyParts(p: Party)
    ensures PartyPart(p, CacPartyTaxScheme) == TaxSchemes(p)
    ensures PartyPart(p, CacPartyLegalEntity) == [LegalElement(p)]
    ensures PartyPart(p, CacContact) == Contacts(p)
  {
    hide Leaf, Node, Attributed, AddressElement, LegalElement, ContactElement, Truthy;
  }

  /** _serialize_party. */
  method PartyOf(p: Party) returns (e: Element)
    ensures e == PartyElement(p)
  {
    hide Leaf, Node, Attributed, Assemble, PartyPart, Wrapped, AddressElement, LegalElement, ContactElement, Truthy;
    PartyParts(p);
    MorePartyParts(p);
    var children := [Attributed(CbcEndpointID, p.endpoint, SchemeID, p.endpointScheme)];
    children := AddWrapped(children, CacPartyIdentification, CbcID, p.partyIdentifier);
    children := AddWrapped(children, CacPartyName, CbcName, p.tradingName);
    var address := AddressOf(p);
    children := children + [address];
    var taxScheme: seq<Element> := [];
    if p.taxIdentifier.Some? {
      taxScheme := [Node(CacPartyTaxScheme, [Leaf(CbcCompanyID, p.taxIdentifier.value), Node(CacTaxScheme, [Leaf(CbcID, "VAT")])])];
    }
    children := children + taxScheme;
    var legal := LegalEntityOf(p);
    children := children + [legal];
    var contacts: seq<Element> := [];
    if Truthy(p.contactName) || Truthy(p.contactPhone) || Truthy(p.contactEmail) {
      var contact := ContactOf(p);
      contacts := [contact];
    }
    children := children + contacts;
    Seven(PARTY_ORDER, t => PartyPart(p, t));
    e := Node(CacParty, children);
  }

  // ---------------------------------------------------------------- lines

  lemma {:induction false} TaxCategoryParts(category: string, rate: Dec)
    ensures TaxCategoryPart(category, rate, CbcID) == [Leaf(CbcID, category)]
    ensures TaxCategoryPart(category, rate, CbcPercent) == [Leaf(CbcPercent, DecimalText(rate))]
    ensures TaxCategoryPart(category, rate, CacTaxScheme) == [Node(CacTaxScheme, [Leaf(CbcID, "VAT")])]
  {
    hide Leaf, Node, DecimalText;
  }

  method TaxCategoryOf(tag: Tag, category: string, rate: Dec) returns (e: Element)
    ensures e == TaxCategory(tag, category, rate)
  {
    hide Leaf, Node, Assemble, DecimalText, TaxCategoryPart;
    TaxCategoryParts(category, rate);
    var children := [Leaf(CbcID, category)];
    children := children + [Leaf(CbcPercent, DecimalText(rate))];
    children := children + [Node(CacTaxScheme, [Leaf(CbcID, "VAT")])];
    Three(TAX_CATEGORY_ORDER, t => TaxCategoryPart(category, rate, t));
    e := Node(tag, children);
  }

  function Classifications(line: Line): (es: seq<Element>) {
    if line.classificationCode.Some? && line.classificationList.Some? then
      [Node(CacCommodityClassification,
        [Attributed(CbcItemClassificationCode, line.classificationCode.value, ListID, line.classificationList.value)])]
    else []
  }

  lemma {:induction false} ItemParts(line: Line)
    ensures ItemPart(line, CbcDescription) == Maybe(CbcDescription, line.description)
    ensures ItemPart(line, CbcName) == [Leaf(CbcName, line.name)]
    ensures ItemPart(line, CacSellersItemIdentification) == Wrapped(CacSellersItemIdentification, CbcID, line.sellerItemIdentifier)
  {
    hide Leaf, Node, Attributed, Maybe, TaxCategory;
  }

  lemma {:induction false} MoreItemParts(line: Line)
    ensures ItemPart(line, CacCommodityClassification) == Classifications(line)
    ensures ItemPart(line, CacClassifiedTaxCategory) == [TaxCategory(CacClassifiedTaxCategory, line.vatCategory, line.vatRate)]
  {
    hide Leaf, Node, Attributed, Maybe, TaxCategory;
  }

  method ItemOf(line: Line) returns (e: Element)
    ensures e == ItemElement(line)
  {
    hide Leaf, Node, Attributed, Maybe, Wrapped, Assemble, TaxCategory, ItemPart;
    ItemParts(line);
    MoreItemParts(line);
    var children := AddText([], CbcDescription, line.description);
    children := children + [Leaf(CbcName, line.name)];
    children := AddWrapped(children, CacSellersItemIdentification, CbcID, line.sellerItemIdentifier);
    var classification: seq<Element> := [];
    if line.classificationCode.Some? && line.classificationList.Some? {
      classification := [Node(CacCommodityClassification,
        [Attributed(CbcItemClassificationCode, line.classificationCode.value, ListID, line.classificationList.value)])];
    }
    children := children + classification;
    var tax := TaxCategoryOf(CacClassifiedTaxCategory, line.vatCategory, line.vatRate);
    children := children + [tax];
    Five(ITEM_ORDER, t => ItemPart(line, t));
    assert [] + Maybe(CbcDescription, line.description) == Maybe(CbcDescription, line.description);
    e := Node(CacItem, children);
  }

  function Periods(line: Line): (es: seq<Element>) {
    if line.periodStart.Some? && line.periodEnd.Some? then
      [Node(CacInvoicePeriod, [Leaf(CbcStartDate, IsoText(line.periodStart.value)), Leaf(CbcEndDate, IsoText(line.periodEnd.value))])]
    else []
  }

  lemma {:induction false} LineParts(line: Line, currency: string)
    requires ValidLine(line)
    ensures LinePart(line, currency, CbcID) == [Leaf(CbcID, line.identifier)]
    ensures LinePart(line, currency, CbcNote) == Maybe(CbcNote, line.note)
    ensures LinePart(line, currency, CbcInvoicedQuantity) ==
      [Attributed(CbcInvoicedQuantity, DecimalText(line.quantity), UnitCode, line.unitCode)]
    ensures LinePart(line, currency, CbcLineExtensionAmount) ==
      [Attributed(CbcLineExtensionAmount, MoneyText(LineAmount(line), line.price.negative), CurrencyID, currency)]
  {
    hide Leaf, Node, Attributed, Maybe, ItemElement, DecimalText, MoneyText, LineAmount, IsoText, ValidLine;
  }

  lemma {:induction false} MoreLineParts(line: Line, currency: string)
    requires ValidLine(line)
    ensures LinePart(line, currency, CacInvoicePeriod) == Periods(line)
    ensures LinePart(line, currency, CacOrderLineReference) == Wrapped(CacOrderLineReference, CbcLineID, line.orderLineIdentifier)
  {
    hide Leaf, Node, Attributed, Maybe, ItemElement, DecimalText, MoneyText, LineAmount, IsoText, ValidLine;
  }

  lemma {:induction false} LastLineParts(line: Line, currency: string)
    requires ValidLine(line)
    ensures LinePart(line, currency, CacItem) == [ItemElement(line)]
    ensures LinePart(line, currency, CacPrice) ==
      [Node(CacPrice, [Attributed(CbcPriceAmount, DecimalText(line.price), CurrencyID, currency)])]
  {
    hide Leaf, Node, Attributed, Maybe, ItemElement, DecimalText, MoneyText, LineAmount, IsoText, ValidLine;
  }

  method LineOf(line: Line, currency: string) returns (e: Element)
    requires ValidLine(line)
    ensures e == LineElement(line, currency)
  {
    hide Leaf, Node, Attributed, Maybe, Wrapped, Assemble, ItemElement, DecimalText, MoneyText, LineAmount, IsoText, ValidLine, LinePart;
    LineParts(line, currency);
    MoreLineParts(line, currency);
    LastLineParts(line, currency);
    var children := [Leaf(CbcID, line.identifier)];
    children := AddText(children, CbcNote, line.note);
    children := children + [Attributed(CbcInvoicedQuantity, DecimalText(line.quantity), UnitCode, line.unitCode)];
    children := children + [Attributed(CbcLineExtensionAmount, MoneyText(LineAmount(line), line.price.negative), CurrencyID, currency)];
    var period: seq<Element> := [];
    if line.periodStart.Some? && line.periodEnd.Some? {
      period := [Node(CacInvoicePeriod,
        [Leaf(CbcStartDate, IsoText(line.periodStart.value)), Leaf(CbcEndDate, IsoText(line.periodEnd.value))])];
    }
    children := children + period;
    children := AddWrapped(children, CacOrderLineReference, CbcLineID, line.orderLineIdentifier);
    var item := ItemOf(line);
    children := children + [item];
    children := children + [Node(CacPrice, [Attributed(CbcPriceAmount, DecimalText(line.price), CurrencyID, currency)])];
    Eight(LINE_ORDER, t => LinePart(line, currency, t));
    e := Node(CacInvoiceLine, children);
  }

  /** The loop over the lines. */
  method LinesOf(lines: seq<Line>, currency: string) returns (es: seq<Element>)
    requires AllValid(lines)
    ensures es == LineElements(lines, currency)
  {
    hide LineElement, ValidLine;
    es := [];
    for i := 0 to |lines|
      invariant |es| == i && forall k :: 0 <= k < i ==> es[k] == LineElement(lines[k], currency)
    {
      var e := LineOf(lines[i], currency);
      es := es + [e];
    }
  }

  // ---------------------------------------------------------------- the document

  function DueDates(inv: Invoice): (es: seq<Element>) {
    if inv.paymentDueDate.Some? then [Leaf(CbcPaymentDueDate, IsoText(inv.paymentDueDate.value))] else []
  }

  lemma {:induction false} PaymentParts(inv: Invoice)
    ensures PaymentPart(inv, CbcPaymentMeansCode) == [Leaf(CbcPaymentMeansCode, inv.paymentMeansCode)]
    ensures PaymentPart(inv, CbcPaymentDueDate) == DueDates(inv)
    ensures PaymentPart(inv, CacPayeeFinancialAccount) == [Node(CacPayeeFinancialAccount, [Leaf(CbcID, inv.payeeAccountIdentifier)])]
  {
    hide Leaf, Node, IsoText;
  }

  method PaymentOf(inv: Invoice) returns (e: Element)
    ensures e == PaymentElement(inv)
  {
    hide Leaf, Node, Assemble, IsoText, PaymentPart;
    PaymentParts(inv);
    var children := [Leaf(CbcPaymentMeansCode, inv.paymentMeansCode)];
    var due: seq<Element> := [];
    if inv.paymentDueDate.Some? {
      due := [Leaf(CbcPaymentDueDate, IsoText(inv.paymentDueDate.value))];
    }
    children := children + due;
    children := children + [Node(CacPayeeFinancialAccount, [Leaf(CbcID, inv.payeeAccountIdentifier)])];
    Three(PAYMENT_ORDER, t => PaymentPart(inv, t));
    e := Node(CacPaymentMeans, children);
  }

  /** The loop over the four monetary totals. */
  method MonetaryOf(inv: Invoice, sums: Sums) returns (e: Element)
    ensures e == MonetaryElement(inv, sums)
  {
    hide Node, Assemble, Amount;
    var amounts := [
      (CbcLineExtensionAmount, sums.line), (CbcTaxExclusiveAmount, sums.line),
      (CbcTaxInclusiveAmount, sums.payable), (CbcPayableAmount, sums.payable)];
    ghost var part := t => MonetaryPart(inv, sums, t);
    var children: seq<Element> := [];
    NothingLaid(MONETARY_ORDER, part);
    for k := 0 to 4
      invariant children == Assemble(MONETARY_ORDER[..k], part)
    {
      var (tag, cents) := amounts[k];
      Lay(MONETARY_ORDER, part, k);
      children := children + [Amount(tag, cents, inv)];
    }
    assert MONETARY_ORDER[..4] == MONETARY_ORDER;
    e := Node(CacLegalMonetaryTotal, children);
  }

  lemma {:induction false} NothingLaid(order: seq<Tag>, part: Tag -> seq<Element>)
    ensures Assemble(order[..0], part) == []
  {
  }

  method TaxTotalOf(inv: Invoice, sums: Sums) returns (e: Element)
    requires |inv.lines| >= 1
    ensures e == TaxTotalElement(inv, sums)
  {
    hide Amount, TaxCategory;
    var category := TaxCategoryOf(CacTaxCategory, "S", inv.lines[0].vatRate);
    var subtotal := Node(CacTaxSubtotal,
      [Amount(CbcTaxableAmount, sums.line, inv), Amount(CbcTaxAmount, sums.tax, inv), category]);
    e := Node(CacTaxTotal, [Amount(CbcTaxAmount, sums.tax, inv), subtotal]);
  }

  lemma {:induction false} HeaderParts(inv: Invoice, sums: Sums)
    requires |inv.lines| >= 1 && AllValid(inv.lines)
    ensures RootPart(inv, sums, CbcCustomizationID) == [Leaf(CbcCustomizationID, inv.customizationId)]
    ensures RootPart(inv, sums, CbcProfileID) == [Leaf(CbcProfileID, inv.profileId)]
    ensures RootPart(inv, sums, CbcID) == [Leaf(CbcID, inv.identifier)]
    ensures RootPart(inv, sums, CbcIssueDate) == [Leaf(CbcIssueDate, IsoText(inv.issueDate))]
  {
    hide Leaf, Node, Maybe, IsoText, AllValid, PartyElement, PaymentElement, TaxTotalElement, MonetaryElement, LineElements;
  }

  lemma {:induction false} MoreHeaderParts(inv: Invoice, sums: Sums)
    requires |inv.lines| >= 1 && AllValid(inv.lines)
    ensures RootPart(inv, sums, CbcInvoiceTypeCode) == [Leaf(CbcInvoiceTypeCode, inv.invoiceTypeCode)]
    ensures RootPart(inv, sums, CbcNote) == Maybe(CbcNote, inv.note)
    ensures RootPart(inv, sums, CbcDocumentCurrencyCode) == [Leaf(CbcDocumentCurrencyCode, inv.currency)]
    ensures RootPart(inv, sums, CbcBuyerReference) == [Leaf(CbcBuyerReference, inv.buyerReference)]
  {
    hide Leaf, Node, Maybe, IsoText, AllValid, PartyElement, PaymentElement, TaxTotalElement, MonetaryElement, LineElements;
  }

  lemma {:induction false} BodyParts(inv: Invoice, sums: Sums)
    requires |inv.lines| >= 1 && AllValid(inv.lines)
    ensures RootPart(inv, sums, CacAccountingSupplierParty) == [Node(CacAccountingSupplierParty, [PartyElement(inv.seller)])]
    ensures RootPart(inv, sums, CacAccountingCustomerParty) == [Node(CacAccountingCustomerParty, [PartyElement(inv.buyer)])]
    ensures RootPart(inv, sums, CacPaymentMeans) == [PaymentElement(inv)]
    ensures RootPart(inv, sums, CacPaymentTerms) == [Node(CacPaymentTerms, [Leaf(CbcNote, inv.paymentTerms)])]
  {
    hide Leaf, Node, Maybe, IsoText, AllValid, PartyElement, PaymentElement, TaxTotalElement, MonetaryElement, LineElements;
  }

  lemma {:induction false} TotalParts(inv: Invoice, sums: Sums)
    requires |inv.lines| >= 1 && AllValid(inv.lines)
    ensures RootPart(inv, sums, CacTaxTotal) == [TaxTotalElement(inv, sums)]
    ensures RootPart(inv, sums, CacLegalMonetaryTotal) == [MonetaryElement(inv, sums)]
    ensures RootPart(inv, sums, CacInvoiceLine) == LineElements(inv.lines, inv.currency)
  {
    hide Leaf, Node, Maybe, IsoText, AllValid, PartyElement, PaymentElement, TaxTotalElement, MonetaryElement, LineElements;
  }

  /** The header elements, in order. */
  method HeaderOf(inv: Invoice, ghost sums: Sums) returns (children: seq<Element>)
    requires |inv.lines| >= 1 && AllValid(inv.lines)
    ensures children == Assemble(ROOT_ORDER[..8], t => RootPart(inv, sums, t))
  {
    hide Leaf, Node, Maybe, Assemble, IsoText, AllValid, RootPart;
    HeaderParts(inv, sums);
    MoreHeaderParts(inv, sums);
    children := [Leaf(CbcCustomizationID, inv.customizationId)];
    children := children + [Leaf(CbcProfileID, inv.profileId)];
    children := children + [Leaf(CbcID, inv.identifier)];
    children := children + [Leaf(CbcIssueDate, IsoText(inv.issueDate))];
    children := children + [Leaf(CbcInvoiceTypeCode, inv.invoiceTypeCode)];
    children := AddText(children, CbcNote, inv.note);
    children := children + [Leaf(CbcDocumentCurrencyCode, inv.currency)];
    children := children + [Leaf(CbcBuyerReference, inv.buyerReference)];
    Eight(ROOT_ORDER[..8], t => RootPart(inv, sums, t));
  }

  /** The parties, the payment, the totals and the lines, after the header. */
  method BodyOf(inv: Invoice, sums: Sums) returns (children: seq<Element>)
    requires |inv.lines| >= 1 && AllValid(inv.lines)
    ensures children == Assemble(ROOT_ORDER[8..], t => RootPart(inv, sums, t))
  {
    hide Leaf, Node, Maybe, Assemble, AllValid, RootPart, PartyElement, PaymentElement, TaxTotalElement, MonetaryElement, LineElements;
    BodyParts(inv, sums);
    TotalParts(inv, sums);
    var seller := PartyOf(inv.seller);
    children := [Node(CacAccountingSupplierParty, [seller])];
    var buyer := PartyOf(inv.buyer);
    children := children + [Node(CacAccountingCustomerParty, [buyer])];
    var payment := PaymentOf(inv);
    children := children + [payment];
    children := children + [Node(CacPaymentTerms, [Leaf(CbcNote, inv.paymentTerms)])];
    var tax := TaxTotalOf(inv, sums);
    children := children + [tax];
    var totals := MonetaryOf(inv, sums);
    children := children + [totals];
    var lines := LinesOf(inv.lines, inv.currency);
    children := children + lines;
    Seven(ROOT_ORDER[8..], t => RootPart(inv, sums, t));
  }

  method DocumentOf(inv: Invoice, sums: Sums) returns (e: Element)
    requires |inv.lines| >= 1 && AllValid(inv.lines)
    ensures e == Document(inv, sums)
  {
    hide Assemble, AllValid, RootPart;
    var header := HeaderOf(inv, sums);
    var body := BodyOf(inv, sums);
    Halves(ROOT_ORDER, t => RootPart(inv, sums, t), 8);
    e := Node(UblInvoice, header + body);
  }

  /** serialize_invoice: validation, the three totals, and the document. */
  method WriteInvoice(inv: Invoice) returns (r: Option<Element>)
    ensures r == SerializeInvoice(inv)
  {
    hide Document, ValidInvoice, LineTotal, TaxTotal;
    var valid := Validate(inv);
    if !valid {
      return None;
    }
    LinesAreValid(inv);
    var line, tax, payable := LineTotal(inv.lines), TaxTotal(inv.lines), PayableTotal(inv.lines);
    if line.None? || tax.None? || payable.None? {
      return None;
    }
    var document := DocumentOf(inv, Sums(line.value, tax.value, payable.value));
    r := Some(document);
  }

  lemma {:induction false} LinesAreValid(inv: Invoice)
    requires ValidInvoice(inv)
    ensures |inv.lines| >= 1 && AllValid(inv.lines)
  {
  }
}
