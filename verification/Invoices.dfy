/** The typed invoice and its validation rules. */
module Invoices {
  import opened Basics
  import opened Texts
  import opened Decimals
  import opened Calendar
  import opened Money

  datatype Party = Party(
    endpoint: string,
    endpointScheme: string,
    registrationName: string,
    street: string,
    city: string,
    postalCode: string,
    countryCode: string,
    tradingName: Option<string>,
    taxIdentifier: Option<string>,
    legalIdentifier: Option<string>,
    legalForm: Option<string>,
    partyIdentifier: Option<string>,
    contactName: Option<string>,
    contactPhone: Option<string>,
    contactEmail: Option<string>)

  datatype Line = Line(
    identifier: string,
    quantity: Dec,
    unitCode: string,
    price: Dec,
    name: string,
    vatCategory: string,
    vatRate: Dec,
    note: Option<string>,
    description: Option<string>,
    periodStart: Option<Date>,
    periodEnd: Option<Date>,
    orderLineIdentifier: Option<string>,
    sellerItemIdentifier: Option<string>,
    classificationCode: Option<string>,
    classificationList: Option<string>)

  datatype Invoice = Invoice(
    customizationId: string,
    profileId: string,
    identifier: string,
    issueDate: Date,
    invoiceTypeCode: string,
    currency: string,
    buyerReference: string,
    seller: Party,
    buyer: Party,
    paymentMeansCode: string,
    payeeAccountIdentifier: string,
    paymentTerms: string,
    lines: seq<Line>,
    note: Option<string>,
    paymentDueDate: Option<Date>)

  predicate ValidParty(p: Party) {
    && ValidText(p.endpoint, 1000)
    && ValidText(p.endpointScheme, 1000)
    && ValidText(p.registrationName, 1000)
    && ValidText(p.street, 1000)
    && ValidText(p.city, 1000)
    && ValidText(p.postalCode, 1000)
    && ValidText(p.countryCode, 1000)
    && ValidOptional(p.tradingName, 1000)
    && ValidOptional(p.taxIdentifier, 1000)
    && ValidOptional(p.legalIdentifier, 1000)
    && ValidOptional(p.legalForm, 1000)
    && ValidOptional(p.partyIdentifier, 1000)
    && ValidOptional(p.contactName, 1000)
    && ValidOptional(p.contactPhone, 1000)
    && ValidOptional(p.contactEmail, 1000)
    && |p.countryCode| == 2 && IsLetter(p.countryCode[0]) && IsLetter(p.countryCode[1])
    && (p.endpointScheme == "EM" ==> '@' in p.endpoint)
  }

  predicate ValidPeriod(start: Option<Date>, end: Option<Date>) {
    && (start.Some? <==> end.Some?)
    && (start.Some? ==> ValidDate(start.value) && ValidDate(end.value) && NotAfter(start.value, end.value))
  }

  predicate ValidLine(line: Line) {
    && ValidText(line.identifier, 1000)
    && ValidText(line.unitCode, 1000)
    && ValidText(line.name, 1000)
    && line.vatCategory == "S"
    && ValidOptional(line.note, 5000)
    && ValidOptional(line.description, 5000)
    && ValidOptional(line.orderLineIdentifier, 5000)
    && ValidOptional(line.sellerItemIdentifier, 5000)
    && ValidOptional(line.classificationCode, 5000)
    && ValidOptional(line.classificationList, 5000)
    && ValidPositive(line.quantity)
    && ValidNonNegative(line.price)
    && ValidPositive(line.vatRate)
    && ValidPeriod(line.periodStart, line.periodEnd)
    && (line.classificationCode.Some? <==> line.classificationList.Some?)
  }

  predicate ValidHeader(inv: Invoice) {
    && ValidText(inv.customizationId, 5000)
    && ValidText(inv.profileId, 5000)
    && ValidText(inv.identifier, 5000)
    && ValidText(inv.invoiceTypeCode, 5000)
    && inv.currency == "EUR"
    && ValidText(inv.buyerReference, 5000)
    && ValidText(inv.paymentMeansCode, 5000)
    && ValidText(inv.payeeAccountIdentifier, 5000)
    && ValidText(inv.paymentTerms, 5000)
    && ValidOptional(inv.note, 5000)
    && ValidDate(inv.issueDate)
    && (inv.paymentDueDate.Some? ==>
          ValidDate(inv.paymentDueDate.value) && NotAfter(inv.issueDate, inv.paymentDueDate.value))
  }

  predicate ValidLines(lines: seq<Line>) {
    && 1 <= |lines| <= 100
    && (forall i :: 0 <= i < |lines| ==> ValidLine(lines[i]))
    && (forall i, j :: 0 <= i < j < |lines| ==> lines[i].identifier != lines[j].identifier)
    && OneRate(lines)
  }

  predicate OneRate(lines: seq<Line>) {
    forall i :: 0 <= i < |lines| ==> SameNumber(lines[0].vatRate, lines[i].vatRate)
  }

  /** Invoice.validate accepts. Dates are calendar dates by construction in the source. */
  predicate ValidInvoice(inv: Invoice) {
    ValidHeader(inv) && ValidParty(inv.seller) && ValidParty(inv.buyer) && ValidLines(inv.lines)
  }

  /**
   The validation loop over the lines: each is checked in order while the identifiers and the
   normalised rates seen so far are collected in sets.
   */
  method ValidateLines(lines: seq<Line>) returns (ok: bool)
    ensures ok <==> ValidLines(lines)
  {
    hide ValidText, ValidOptional, ValidPeriod, Normalize, SameNumber, InBounds;
    if |lines| < 1 || |lines| > 100 {
      return false;
    }
    var identifiers: set<string> := {};
    var rates: set<Dec> := {};
    for i := 0 to |lines|
      invariant forall k :: 0 <= k < i ==> ValidLine(lines[k])
      invariant identifiers == Identifiers(lines[..i])
      invariant forall j, k :: 0 <= j < k < i ==> lines[j].identifier != lines[k].identifier
      invariant rates == Rates(lines[..i])
    {
      assert lines[..i + 1] == lines[..i] + [lines[i]];
      if !ValidLine(lines[i]) {
        return false;
      }
      if lines[i].identifier in identifiers {
        var k :| 0 <= k < i && lines[k].identifier == lines[i].identifier;
        return false;
      }
      identifiers := identifiers + {lines[i].identifier};
      rates := rates + {Normalize(lines[i].vatRate)};
    }
    assert lines[..|lines|] == lines;
    SingleRate(lines);
    ok := |rates| == 1;
  }

  function Identifiers(lines: seq<Line>): (s: set<string>) {
    set k | 0 <= k < |lines| :: lines[k].identifier
  }

  function Rates(lines: seq<Line>): (s: set<Dec>) {
    set k | 0 <= k < |lines| :: Normalize(lines[k].vatRate)
  }

  lemma {:induction false} SingleRate(lines: seq<Line>)
    requires |lines| >= 1
    requires forall k :: 0 <= k < |lines| ==> ValidPositive(lines[k].vatRate)
    ensures |Rates(lines)| == 1 <==> OneRate(lines)
  {
    var rates, first := Rates(lines), Normalize(lines[0].vatRate);
    assert first in rates;
    if OneRate(lines) {
      assert rates == {first};
    } else if |rates| == 1 {
      var k :| 0 <= k < |lines| && !SameNumber(lines[0].vatRate, lines[k].vatRate);
      assert Normalize(lines[k].vatRate) in rates;
      assert |{first, Normalize(lines[k].vatRate)}| == 2;
      SubsetSize({first, Normalize(lines[k].vatRate)}, rates);
      assert false;
    }
  }

  lemma {:induction false} SubsetSize<T>(a: set<T>, b: set<T>)
    requires a <= b
    ensures |a| <= |b|
  {
    if a != {} {
      var x :| x in a;
      SubsetSize(a - {x}, b - {x});
    }
  }

  method Validate(inv: Invoice) returns (ok: bool)
    ensures ok <==> ValidInvoice(inv)
  {
    if !ValidHeader(inv) || !ValidParty(inv.seller) || !ValidParty(inv.buyer) {
      return false;
    }
    ok := ValidateLines(inv.lines);
  }
}
