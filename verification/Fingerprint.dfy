/**
 The canonical payload whose printed text is hashed into the semantic fingerprint. Printing is
 injective and the hash is taken to be, so a fingerprint is represented by its payload.
 */
module Fingerprint {
  import opened Basics
  import opened Texts
  import opened Decimals
  import opened Calendar
  import opened Rounding
  import opened Invoices
  import opened Totals
  import opened Trees
  import opened Serialize
  import opened Parse
  import opened PartyRoundTrip
  import opened LineRoundTrip
  import opened InvoiceRoundTrip
  import opened Json
  import opened JsonText

  function OptionalText(o: Option<string>): (j: Json) {
    if o.Some? then Text(o.value) else Null
  }

  function OptionalDate(o: Option<Date>): (j: Json) {
    if o.Some? then Text(IsoText(o.value)) else Null
  }

  function PartyPayload(p: Party): (j: Json) {
    Object([
      Member("city", Text(p.city)),
      Member("contact_email", OptionalText(p.contactEmail)),
      Member("contact_name", OptionalText(p.contactName)),
      Member("contact_phone", OptionalText(p.contactPhone)),
      Member("country_code", Text(p.countryCode)),
      Member("endpoint", Text(p.endpoint)),
      Member("endpoint_scheme", Text(p.endpointScheme)),
      Member("legal_form", OptionalText(p.legalForm)),
      Member("legal_identifier", OptionalText(p.legalIdentifier)),
      Member("party_identifier", OptionalText(p.partyIdentifier)),
      Member("postal_code", Text(p.postalCode)),
      Member("registration_name", Text(p.registrationName)),
      Member("street", Text(p.street)),
      Member("tax_identifier", OptionalText(p.taxIdentifier)),
      Member("trading_name", OptionalText(p.tradingName))])
  }

  function LinePayload(line: Line): (j: Json) {
    Object([
      Member("classification_code", OptionalText(line.classificationCode)),
      Member("classification_list", OptionalText(line.classificationList)),
      Member("description", OptionalText(line.description)),
      Member("identifier", Text(line.identifier)),
      Member("name", Text(line.name)),
      Member("note", OptionalText(line.note)),
      Member("order_line_identifier", OptionalText(line.orderLineIdentifier)),
      Member("period_end", OptionalDate(line.periodEnd)),
      Member("period_start", OptionalDate(line.periodStart)),
      Member("price", Text(DecimalText(line.price))),
      Member("quantity", Text(DecimalText(line.quantity))),
      Member("seller_item_identifier", OptionalText(line.sellerItemIdentifier)),
      Member("unit_code", Text(line.unitCode)),
      Member("vat_category", Text(line.vatCategory)),
      Member("vat_rate", Text(DecimalText(line.vatRate)))])
  }

  function LinePayloads(lines: seq<Line>): (js: seq<Json>)
    ensures |js| == |lines|
    ensures forall i :: 0 <= i < |lines| ==> js[i] == LinePayload(lines[i])
  {
    seq(|lines|, i requires 0 <= i < |lines| => LinePayload(lines[i]))
  }

  function Payload(inv: Invoice): (j: Json) {
    Object([
      Member("invoice", Object([
        Member("buyer", PartyPayload(inv.buyer)),
        Member("buyer_reference", Text(inv.buyerReference)),
        Member("currency", Text(inv.currency)),
        Member("customization_id", Text(inv.customizationId)),
        Member("identifier", Text(inv.identifier)),
        Member("invoice_type_code", Text(inv.invoiceTypeCode)),
        Member("issue_date", Text(IsoText(inv.issueDate))),
        Member("lines", List(LinePayloads(inv.lines))),
        Member("note", OptionalText(inv.note)),
        Member("payee_account_identifier", Text(inv.payeeAccountIdentifier)),
        Member("payment_due_date", OptionalDate(inv.paymentDueDate)),
        Member("payment_means_code", Text(inv.paymentMeansCode)),
        Member("payment_terms", Text(inv.paymentTerms)),
        Member("profile_id", Text(inv.profileId)),
        Member("seller", PartyPayload(inv.seller))])),
      Member("model", Text("xrechnung-ubl-3.0.2-v1"))])
  }

  // ---------------------------------------------------------------- equality of invoices

  /** Equal in every field, numbers compared by value: equality of the source's dataclasses. */
  predicate SameLine(a: Line, b: Line) {
    && a.(quantity := b.quantity, price := b.price, vatRate := b.vatRate) == b
    && SameNumber(a.quantity, b.quantity) && SameNumber(a.price, b.price) && SameNumber(a.vatRate, b.vatRate)
  }

  predicate SameLines(a: seq<Line>, b: seq<Line>) {
    |a| == |b| && forall i :: 0 <= i < |a| ==> SameLine(a[i], b[i])
  }

  predicate SameInvoice(a: Invoice, b: Invoice) {
    a.(lines := b.lines) == b && SameLines(a.lines, b.lines)
  }

  // ---------------------------------------------------------------- payloads

  lemma {:induction false} DatesPrintApart(a: Option<Date>, b: Option<Date>)
    requires a.Some? ==> ValidDate(a.value)
    requires b.Some? ==> ValidDate(b.value)
    ensures OptionalDate(a) == OptionalDate(b) <==> a == b
  {
    hide IsoText, ParseIso;
    if a.Some? { DateRoundTrip(a.value); }
    if b.Some? { DateRoundTrip(b.value); }
  }

  lemma {:induction false} PartyPayloadInjective(a: Party, b: Party)
    ensures PartyPayload(a) == PartyPayload(b) <==> a == b
  {
    if PartyPayload(a) == PartyPayload(b) {
      var x, y := PartyPayload(a).members, PartyPayload(b).members;
      assert x[0].value == y[0].value && x[1].value == y[1].value && x[2].value == y[2].value;
      assert x[3].value == y[3].value && x[4].value == y[4].value && x[5].value == y[5].value;
      assert x[6].value == y[6].value && x[7].value == y[7].value && x[8].value == y[8].value;
      assert x[9].value == y[9].value && x[10].value == y[10].value && x[11].value == y[11].value;
      assert x[12].value == y[12].value && x[13].value == y[13].value && x[14].value == y[14].value;
    }
  }

  lemma {:induction false} LinePayloadSame(a: Line, b: Line)
    requires ValidLine(a) && ValidLine(b)
    ensures LinePayload(a) == LinePayload(b) <==> SameLine(a, b)
  {
    hide ValidText, ValidPositive, ValidNonNegative, SameNumber, DecimalText, OptionalDate;
    LineNumbersSame(a, b);
    DatesPrintApart(a.periodStart, b.periodStart);
    DatesPrintApart(a.periodEnd, b.periodEnd);
    if LinePayload(a) == LinePayload(b) {
      var x, y := LinePayload(a).members, LinePayload(b).members;
      assert x[0].value == y[0].value && x[1].value == y[1].value && x[2].value == y[2].value;
      assert x[3].value == y[3].value && x[4].value == y[4].value && x[5].value == y[5].value;
      assert x[6].value == y[6].value && x[7].value == y[7].value && x[8].value == y[8].value;
      assert x[9].value == y[9].value && x[10].value == y[10].value && x[11].value == y[11].value;
      assert x[12].value == y[12].value && x[13].value == y[13].value && x[14].value == y[14].value;
    }
  }

  lemma {:induction false} LineNumbersSame(a: Line, b: Line)
    requires ValidLine(a) && ValidLine(b)
    ensures DecimalText(a.quantity) == DecimalText(b.quantity) <==> SameNumber(a.quantity, b.quantity)
    ensures DecimalText(a.price) == DecimalText(b.price) <==> SameNumber(a.price, b.price)
    ensures DecimalText(a.vatRate) == DecimalText(b.vatRate) <==> SameNumber(a.vatRate, b.vatRate)
  {
    hide ValidText, SameNumber, DecimalText;
    DecimalTextInjective(a.quantity, b.quantity);
    DecimalTextInjective(a.price, b.price);
    DecimalTextInjective(a.vatRate, b.vatRate);
  }

  lemma {:induction false} LinePayloadsSame(a: seq<Line>, b: seq<Line>)
    requires AllValid(a) && AllValid(b)
    ensures LinePayloads(a) == LinePayloads(b) <==> SameLines(a, b)
  {
    hide ValidLine, LinePayload, SameLine;
    if |a| == |b| {
      forall i | 0 <= i < |a| ensures LinePayloads(a)[i] == LinePayloads(b)[i] <==> SameLine(a[i], b[i]) {
        LinePayloadSame(a[i], b[i]);
      }
    }
  }

  /** Fingerprints of valid invoices agree exactly when the invoices are equal, numbers by value. */
  lemma {:induction false} FingerprintsAgree(a: Invoice, b: Invoice)
    requires ValidInvoice(a) && ValidInvoice(b)
    ensures Payload(a) == Payload(b) <==> SameInvoice(a, b)
  {
    hide ValidText, ValidParty, SameLines, PartyPayload, LinePayloads, IsoText, ValidLine, OneRate;
    LinePayloadsSame(a.lines, b.lines);
    PartyPayloadInjective(a.seller, b.seller);
    PartyPayloadInjective(a.buyer, b.buyer);
    DatesPrintApart(a.paymentDueDate, b.paymentDueDate);
    DatesPrintApart(Some(a.issueDate), Some(b.issueDate));
    if Payload(a) == Payload(b) {
      var x, y := Payload(a).members[0].value.members, Payload(b).members[0].value.members;
      assert x[0].value == y[0].value && x[1].value == y[1].value && x[2].value == y[2].value;
      assert x[3].value == y[3].value && x[4].value == y[4].value && x[5].value == y[5].value;
      assert x[6].value == y[6].value && x[7].value == y[7].value && x[8].value == y[8].value;
      assert x[9].value == y[9].value && x[10].value == y[10].value && x[11].value == y[11].value;
      assert x[12].value == y[12].value && x[13].value == y[13].value && x[14].value == y[14].value;
    }
  }

  /** The text that is hashed. */
  function FingerprintText(inv: Invoice): (text: string) {
    Print(Payload(inv))
  }

  /** The hashed texts of valid invoices are equal exactly when the invoices are, numbers by value. */
  lemma {:induction false} FingerprintTextsAgree(a: Invoice, b: Invoice)
    requires ValidInvoice(a) && ValidInvoice(b)
    ensures FingerprintText(a) == FingerprintText(b) <==> SameInvoice(a, b)
  {
    hide Print, Payload, ValidInvoice, SameInvoice;
    PrintInjective(Payload(a), Payload(b));
    FingerprintsAgree(a, b);
  }
}
