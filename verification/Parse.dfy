/** Reading an invoice from an element tree, with every reported total rechecked. */
module Parse {
  import opened Basics
  import opened Texts
  import opened Decimals
  import opened Calendar
  import opened Rounding
  import opened Invoices
  import opened Totals
  import opened Trees

  /** ModelError is the declared error; DecimalError is an uncaught decimal.InvalidOperation. */
  datatype ParseError = ModelError | DecimalError

  function Required(e: Element, path: seq<Tag>): (r: Result<string, ParseError>) {
    var found := Find(e, path);
    if found.None? || found.value.text.None? || Blank(found.value.text.value) then Err(ModelError)
    else Ok(found.value.text.value)
  }

  function Optional(e: Element, path: seq<Tag>): (r: Option<string>) {
    var found := Find(e, path);
    if found.None? || found.value.text.None? || found.value.text.value == "" then None else found.value.text
  }

  function TextOf(e: Element): (s: string) {
    if e.text.Some? then e.text.value else ""
  }

  function AttributeOf(e: Element, a: Attribute): (s: string) {
    if a in e.attributes then e.attributes[a] else ""
  }

  function ReadDecimal(s: string): (r: Result<Dec, ParseError>) {
    var d := ParseDecimal(s);
    if d.Some? then Ok(d.value) else Err(ModelError)
  }

  function RequiredDecimal(e: Element, path: seq<Tag>): (r: Result<Dec, ParseError>) {
    var text :- Required(e, path);
    ReadDecimal(text)
  }

  function ReadDate(s: string): (r: Result<Date, ParseError>) {
    var d := ParseIso(s);
    if d.Some? then Ok(d.value) else Err(ModelError)
  }

  function ReadOptionalDate(s: Option<string>): (r: Result<Option<Date>, ParseError>) {
    if s.None? then Ok(None)
    else
      var d :- ReadDate(s.value);
      Ok(Some(d))
  }

  /** A reported amount, quantised half even, equals the computed one numerically. */
  function CheckAmount(amount: Dec, computed: Option<Dec>): (r: Result<(), ParseError>)
    requires computed.Some? ==> computed.value.exponent == -2
  {
    var reported := Quantize(amount, HalfEven);
    if reported.None? || computed.None? then Err(DecimalError)
    else if SignedCents(reported.value) != SignedCents(computed.value) then Err(ModelError)
    else Ok(())
  }

  function Cents(total: Option<nat>): (d: Option<Dec>)
    ensures d.Some? ==> d.value.exponent == -2
  {
    if total.Some? then Some(Dec(false, total.value, -2)) else None
  }

  function ReadParty(e: Element): (r: Result<Party, ParseError>) {
    var endpoint := Find(e, [CbcEndpointID]);
    if endpoint.None? then Err(ModelError) else
    var registrationName :- Required(e, [CacPartyLegalEntity, CbcRegistrationName]);
    var street :- Required(e, [CacPostalAddress, CbcStreetName]);
    var city :- Required(e, [CacPostalAddress, CbcCityName]);
    var postalCode :- Required(e, [CacPostalAddress, CbcPostalZone]);
    var countryCode :- Required(e, [CacPostalAddress, CacCountry, CbcIdentificationCode]);
    Ok(Party(
      TextOf(endpoint.value),
      AttributeOf(endpoint.value, SchemeID),
      registrationName, street, city, postalCode, countryCode,
      Optional(e, [CacPartyName, CbcName]),
      Optional(e, [CacPartyTaxScheme, CbcCompanyID]),
      Optional(e, [CacPartyLegalEntity, CbcCompanyID]),
      Optional(e, [CacPartyLegalEntity, CbcCompanyLegalForm]),
      Optional(e, [CacPartyIdentification, CbcID]),
      Optional(e, [CacContact, CbcName]),
      Optional(e, [CacContact, CbcTelephone]),
      Optional(e, [CacContact, CbcElectronicMail])))
  }

  const CLASSIFICATION_PATH: seq<Tag> := [CacItem, CacCommodityClassification, CbcItemClassificationCode]

  function ReadClassificationList(e: Element): (r: Option<string>) {
    var found := Find(e, CLASSIFICATION_PATH);
    if found.Some? && ListID in found.value.attributes then Some(found.value.attributes[ListID]) else None
  }

  /** The fields of a line, before its reported amount is compared. */
  function ReadLineFields(e: Element): (r: Result<Line, ParseError>) {
    var quantity, price := Find(e, [CbcInvoicedQuantity]), Find(e, [CacPrice, CbcPriceAmount]);
    if quantity.None? || price.None? then Err(ModelError) else
    var identifier :- Required(e, [CbcID]);
    var quantityValue :- ReadDecimal(TextOf(quantity.value));
    var priceValue :- ReadDecimal(TextOf(price.value));
    var name :- Required(e, [CacItem, CbcName]);
    var category :- Required(e, [CacItem, CacClassifiedTaxCategory, CbcID]);
    var rate :- RequiredDecimal(e, [CacItem, CacClassifiedTaxCategory, CbcPercent]);
    var start :- ReadOptionalDate(Optional(e, [CacInvoicePeriod, CbcStartDate]));
    var end :- ReadOptionalDate(Optional(e, [CacInvoicePeriod, CbcEndDate]));
    Ok(Line(
      identifier, quantityValue, AttributeOf(quantity.value, UnitCode), priceValue, name, category, rate,
      Optional(e, [CbcNote]),
      Optional(e, [CacItem, CbcDescription]),
      start, end,
      Optional(e, [CacOrderLineReference, CbcLineID]),
      Optional(e, [CacItem, CacSellersItemIdentification, CbcID]),
      Optional(e, CLASSIFICATION_PATH),
      ReadClassificationList(e)))
  }

  /** One line: its fields, its reported amount and the currency of that amount. */
  function ReadLine(e: Element, currency: string): (r: Result<Line, ParseError>) {
    var line :- ReadLineFields(e);
    var reported :- RequiredDecimal(e, [CbcLineExtensionAmount]);
    var _ :- CheckAmount(reported, LineExtension(line.quantity, line.price));
    var extension := Find(e, [CbcLineExtensionAmount]);
    if extension.Some? && (CurrencyID !in extension.value.attributes || extension.value.attributes[CurrencyID] != currency)
    then Err(ModelError) else Ok(line)
  }

  function ReadLines(es: seq<Element>, currency: string): (r: Result<seq<Line>, ParseError>) {
    if es == [] then Ok([])
    else
      var first :- ReadLine(es[0], currency);
      var rest :- ReadLines(es[1..], currency);
      Ok([first] + rest)
  }

  function ReadInvoice(root: Element): (r: Result<Invoice, ParseError>) {
    var currency :- Required(root, [CbcDocumentCurrencyCode]);
    var supplier, customer :=
      Find(root, [CacAccountingSupplierParty, CacParty]), Find(root, [CacAccountingCustomerParty, CacParty]);
    if supplier.None? || customer.None? then Err(ModelError) else
    var customizationId :- Required(root, [CbcCustomizationID]);
    var profileId :- Required(root, [CbcProfileID]);
    var identifier :- Required(root, [CbcID]);
    var issueText :- Required(root, [CbcIssueDate]);
    var issueDate :- ReadDate(issueText);
    var typeCode :- Required(root, [CbcInvoiceTypeCode]);
    var buyerReference :- Required(root, [CbcBuyerReference]);
    var seller :- ReadParty(supplier.value);
    var buyer :- ReadParty(customer.value);
    var meansCode :- Required(root, [CacPaymentMeans, CbcPaymentMeansCode]);
    var account :- Required(root, [CacPaymentMeans, CacPayeeFinancialAccount, CbcID]);
    var terms :- Required(root, [CacPaymentTerms, CbcNote]);
    var lines :- ReadLines(FindAll(root, [CacInvoiceLine]), currency);
    var dueDate :- ReadOptionalDate(Optional(root, [CacPaymentMeans, CbcPaymentDueDate]));
    Ok(Invoice(
      customizationId, profileId, identifier, issueDate, typeCode, currency, buyerReference, seller, buyer,
      meansCode, account, terms, lines, Optional(root, [CbcNote]), dueDate))
  }

  /** parse_invoice on the element tree: the fields, validation, then the three reported totals. */
  function ParseInvoice(root: Element): (r: Result<Invoice, ParseError>)
    ensures r.Ok? ==> ValidInvoice(r.value)
  {
    if root.tag != UblInvoice then Err(ModelError) else
    var inv :- ReadInvoice(root);
    if !ValidInvoice(inv) then Err(ModelError) else
    var reportedLine :- RequiredDecimal(root, [CacLegalMonetaryTotal, CbcLineExtensionAmount]);
    var reportedTax :- RequiredDecimal(root, [CacTaxTotal, CbcTaxAmount]);
    var reportedPayable :- RequiredDecimal(root, [CacLegalMonetaryTotal, CbcPayableAmount]);
    var _ :- CheckAmount(reportedLine, Cents(LineTotal(inv.lines)));
    var _ :- CheckAmount(reportedTax, Cents(TaxTotal(inv.lines)));
    var _ :- CheckAmount(reportedPayable, Cents(PayableTotal(inv.lines)));
    Ok(inv)
  }
}
