/** Equality of written documents against equality of the invoices they were written from. */
module Documents {
  import opened Basics
  import opened Digits
  import opened Texts
  import opened Decimals
  import opened Calendar
  import opened Money
  import opened Rounding
  import opened Invoices
  import opened Totals
  import opened Trees
  import opened Serialize
  import opened Parse
  import opened PartyRoundTrip
  import opened LineRoundTrip
  import opened InvoiceRoundTrip
  import opened Fingerprint

  lemma {:induction false} AttributedSame(tag: Tag, attribute: Attribute, s: string, x: string, t: string, y: string)
    requires Attributed(tag, s, attribute, x) == Attributed(tag, t, attribute, y)
    ensures s == t && x == y
  {
    assert Attributed(tag, s, attribute, x).attributes[attribute] == x;
    assert Attributed(tag, t, attribute, y).attributes[attribute] == y;
  }

  lemma {:induction false} ValidPartyOptionals(p: Party)
    requires ValidParty(p)
    ensures NoEmptyOptionals(p)
  {
  }

  /** A party element determines the party. */
  lemma {:induction false} PartyElementInjective(a: Party, b: Party)
    requires ValidParty(a) && ValidParty(b) && PartyElement(a) == PartyElement(b)
    ensures a == b
  {
    hide ValidParty, PartyElement, Find, Optional, NoEmptyOptionals;
    ValidPartyOptionals(a);
    ValidPartyOptionals(b);
    PartyRequired(a);
    PartyRequired(b);
    PartyCodes(a);
    PartyCodes(b);
    AttributedSame(CbcEndpointID, SchemeID, a.endpoint, a.endpointScheme, b.endpoint, b.endpointScheme);
    PartyLegal(a);
    PartyLegal(b);
    PartyContact(a);
    PartyContact(b);
    PartyNames(a);
    PartyNames(b);
  }

  lemma {:induction false} PartyNames(p: Party)
    requires NoEmptyOptionals(p)
    ensures Optional(PartyElement(p), [CacPartyName, CbcName]) == p.tradingName
    ensures Optional(PartyElement(p), [CacPartyTaxScheme, CbcCompanyID]) == p.taxIdentifier
    ensures Optional(PartyElement(p), [CacPartyIdentification, CbcID]) == p.partyIdentifier
  {
    hide PartyElement, Optional;
    TradingNameField(p);
    TaxIdentifierField(p);
    PartyIdentifierField(p);
  }

  lemma {:induction false} DateTexts(a: Date, b: Date)
    requires ValidDate(a) && ValidDate(b) && IsoText(a) == IsoText(b)
    ensures a == b
  {
    hide IsoText, ParseIso;
    DateRoundTrip(a);
    DateRoundTrip(b);
  }

  lemma {:induction false} PeriodTexts(a: Line, b: Line)
    requires ValidLine(a) && ValidLine(b) && StartText(a) == StartText(b) && EndText(a) == EndText(b)
    ensures a.periodStart == b.periodStart && a.periodEnd == b.periodEnd
  {
    hide ValidText, IsoText, ParseIso;
    if a.periodStart.Some? && b.periodStart.Some? {
      DateTexts(a.periodStart.value, b.periodStart.value);
      DateTexts(a.periodEnd.value, b.periodEnd.value);
    }
  }

  lemma {:induction false} AmountText(line: Line, currency: string)
    requires ValidLine(line)
    ensures Find(LineElement(line, currency), [CbcLineExtensionAmount])
         == Some(Attributed(CbcLineExtensionAmount, MoneyText(LineAmount(line), line.price.negative), CurrencyID, currency))
  {
    hide ValidLine, LineElement, Find, MoneyText, LineAmount;
    LineField(line, currency, CbcLineExtensionAmount,
      Attributed(CbcLineExtensionAmount, MoneyText(LineAmount(line), line.price.negative), CurrencyID, currency));
  }

  lemma {:induction false} SignsMatch(a: Line, b: Line)
    requires ValidLine(a) && ValidLine(b)
    requires MoneyText(LineAmount(a), a.price.negative) == MoneyText(LineAmount(b), b.price.negative)
    ensures a.price.negative == b.price.negative
  {
    hide ValidText, MoneyText, LineCents, ParseDecimal, Quantize;
    AmountBounds(a);
    AmountBounds(b);
    MoneyRoundTrip(LineAmount(a), a.price.negative);
    MoneyRoundTrip(LineAmount(b), b.price.negative);
  }

  /** A line element determines the line up to number representation, and the sign of the price. */
  lemma {:induction false} LineElementInjective(a: Line, b: Line, currency: string)
    requires ValidLine(a) && ValidLine(b) && LineElement(a, currency) == LineElement(b, currency)
    ensures SameLine(a, b) && a.price.negative == b.price.negative
  {
    hide ValidLine, LineElement, Find, Optional, ReadClassificationList, DecimalText, MoneyText, LineAmount, SameNumber, IsoText,
      StartText, EndText;
    LineRequired(a, currency);
    LineRequired(b, currency);
    AttributedSame(CbcInvoicedQuantity, UnitCode, DecimalText(a.quantity), a.unitCode, DecimalText(b.quantity), b.unitCode);
    LinePrice(a, currency);
    LinePrice(b, currency);
    LineTax(a, currency);
    LineTax(b, currency);
    AmountText(a, currency);
    AmountText(b, currency);
    SignsMatch(a, b);
    LineNumbersSame(a, b);
    LineElementOptionals(a, b, currency);
    LineElementPeriods(a, b, currency);
  }

  lemma {:induction false} LineElementPeriods(a: Line, b: Line, currency: string)
    requires ValidLine(a) && ValidLine(b) && LineElement(a, currency) == LineElement(b, currency)
    ensures a.periodStart == b.periodStart && a.periodEnd == b.periodEnd
  {
    hide ValidLine, LineElement, Optional, StartText, EndText;
    LinePeriod(a, currency);
    LinePeriod(b, currency);
    PeriodTexts(a, b);
  }

  lemma {:induction false} LineElementOptionals(a: Line, b: Line, currency: string)
    requires ValidLine(a) && ValidLine(b) && LineElement(a, currency) == LineElement(b, currency)
    ensures a.note == b.note && a.orderLineIdentifier == b.orderLineIdentifier && a.description == b.description
    ensures a.sellerItemIdentifier == b.sellerItemIdentifier
    ensures a.classificationCode == b.classificationCode && a.classificationList == b.classificationList
  {
    hide ValidLine, LineElement, Optional, ReadClassificationList;
    LineNote(a, currency);
    LineNote(b, currency);
    LineReferences(a, currency);
    LineReferences(b, currency);
    LineSellerItem(a, currency);
    LineSellerItem(b, currency);
    LineClassification(a, currency);
    LineClassification(b, currency);
  }

  lemma {:induction false} AssembleSame(order: seq<Tag>, p: Tag -> seq<Element>, q: Tag -> seq<Element>)
    requires forall t :: t in order ==> p(t) == q(t)
    ensures Assemble(order, p) == Assemble(order, q)
  {
    if order != [] {
      assert order == order[..|order| - 1] + [order[|order| - 1]];
      AssembleSame(order[..|order| - 1], p, q);
    }
  }

  /** Equal lines with equally signed prices are written alike. */
  lemma {:induction false} SameLinesWriteAlike(a: Line, b: Line, currency: string)
    requires ValidLine(a) && ValidLine(b) && SameLine(a, b) && a.price.negative == b.price.negative
    ensures LineElement(a, currency) == LineElement(b, currency)
  {
    hide ValidLine, LineAmount, MoneyText, DecimalText, IsoText, SameNumber, Assemble;
    LineNumbersSame(a, b);
    SameAmounts(a, b);
    ItemsWriteAlike(a, b);
    AssembleSame(LINE_ORDER, t => LinePart(a, currency, t), t => LinePart(b, currency, t));
  }

  lemma {:induction false} SameAmounts(a: Line, b: Line)
    requires ValidLine(a) && ValidLine(b) && SameLine(a, b)
    ensures LineAmount(a) == LineAmount(b) && TaxAmount(a) == TaxAmount(b)
  {
    hide ValidText, SameNumber, LineCents, TaxCents;
    SameNumberMicros(a.quantity, b.quantity);
    SameNumberMicros(a.price, b.price);
    SameNumberMicros(a.vatRate, b.vatRate);
  }

  lemma {:induction false} ItemsWriteAlike(a: Line, b: Line)
    requires ValidLine(a) && ValidLine(b) && SameLine(a, b)
    ensures ItemElement(a) == ItemElement(b)
  {
    hide ValidLine, DecimalText, SameNumber, Assemble;
    LineNumbersSame(a, b);
    AssembleSame(TAX_CATEGORY_ORDER, t => TaxCategoryPart(a.vatCategory, a.vatRate, t), t => TaxCategoryPart(b.vatCategory, b.vatRate, t));
    AssembleSame(ITEM_ORDER, t => ItemPart(a, t), t => ItemPart(b, t));
  }

  // ---------------------------------------------------------------- documents

  predicate SameSigns(a: seq<Line>, b: seq<Line>) {
    |a| == |b| && forall i :: 0 <= i < |a| ==> a[i].price.negative == b[i].price.negative
  }

  lemma {:induction false} LineElementsInjective(a: seq<Line>, b: seq<Line>, currency: string)
    requires AllValid(a) && AllValid(b) && LineElements(a, currency) == LineElements(b, currency)
    ensures SameLines(a, b) && SameSigns(a, b)
  {
    hide ValidLine, LineElement, SameLine;
    forall i | 0 <= i < |a| ensures SameLine(a[i], b[i]) && a[i].price.negative == b[i].price.negative {
      assert LineElements(a, currency)[i] == LineElements(b, currency)[i];
      LineElementInjective(a[i], b[i], currency);
    }
  }

  lemma {:induction false} HeaderSame(a: Invoice, b: Invoice, s: Sums, t: Sums)
    requires ValidInvoice(a) && ValidInvoice(b) && Document(a, s) == Document(b, t)
    ensures a.(lines := b.lines, seller := b.seller, buyer := b.buyer) == b
  {
    hide ValidText, ValidParty, ValidLine, OneRate, Document, Find, Optional, IsoText, DueText, ReadOptionalDate;
    RootTexts(a, s);
    RootTexts(b, t);
    RootCodes(a, s);
    RootCodes(b, t);
    DateTexts(a.issueDate, b.issueDate);
    RootPayment(a, s);
    RootPayment(b, t);
    RootAccount(a, s);
    RootAccount(b, t);
    HeaderFacts(a);
    HeaderFacts(b);
    RootTerms(a, s);
    RootTerms(b, t);
    RootDueDate(a, s);
    RootDueDate(b, t);
  }

  lemma {:induction false} PartiesSame(a: Invoice, b: Invoice, s: Sums, t: Sums)
    requires ValidInvoice(a) && ValidInvoice(b) && Document(a, s) == Document(b, t)
    ensures a.seller == b.seller && a.buyer == b.buyer
  {
    hide ValidHeader, ValidParty, ValidLine, OneRate, Document, Find, PartyElement;
    RootParties(a, s);
    RootParties(b, t);
    PartyElementInjective(a.seller, b.seller);
    PartyElementInjective(a.buyer, b.buyer);
  }

  /** A written document determines the invoice up to number representation, and the price signs. */
  lemma {:induction false} DocumentInjective(a: Invoice, b: Invoice, s: Sums, t: Sums)
    requires ValidInvoice(a) && ValidInvoice(b) && Document(a, s) == Document(b, t)
    ensures SameInvoice(a, b) && SameSigns(a.lines, b.lines)
  {
    hide ValidHeader, ValidParty, ValidLine, OneRate, Document, FindAll, LineElements, SameLines, SameSigns;
    HeaderSame(a, b, s, t);
    PartiesSame(a, b, s, t);
    LinesFound(a, s);
    LinesFound(b, t);
    LineElementsInjective(a.lines, b.lines, a.currency);
  }

  lemma {:induction false} SameTotals(a: seq<Line>, b: seq<Line>)
    requires AllValid(a) && AllValid(b) && SameLines(a, b)
    ensures LineAmounts(a) == LineAmounts(b) && TaxAmounts(a) == TaxAmounts(b)
    ensures TotalsFit(a) <==> TotalsFit(b)
    ensures TotalsFit(a) ==> SumsOf(a) == SumsOf(b)
  {
    hide ValidLine, SameLine, LineAmount, TaxAmount, RoundedSum, RoundContext;
    forall i | 0 <= i < |a| ensures LineAmount(a[i]) == LineAmount(b[i]) && TaxAmount(a[i]) == TaxAmount(b[i]) {
      SameAmounts(a[i], b[i]);
    }
    assert LineAmounts(a) == LineAmounts(b);
    assert TaxAmounts(a) == TaxAmounts(b);
  }

  lemma {:induction false} SameLineElements(a: seq<Line>, b: seq<Line>, currency: string)
    requires AllValid(a) && AllValid(b) && SameLines(a, b) && SameSigns(a, b)
    ensures LineElements(a, currency) == LineElements(b, currency)
  {
    hide ValidLine, SameLine, LineElement;
    forall i | 0 <= i < |a| ensures LineElement(a[i], currency) == LineElement(b[i], currency) {
      SameLinesWriteAlike(a[i], b[i], currency);
    }
  }

  lemma {:induction false} SameDocuments(a: Invoice, b: Invoice, s: Sums)
    requires ValidInvoice(a) && ValidInvoice(b) && SameInvoice(a, b) && SameSigns(a.lines, b.lines)
    ensures Document(a, s) == Document(b, s)
  {
    hide ValidHeader, ValidParty, ValidLine, OneRate, SameNumber, DecimalText, LineElements, PartyElement, MoneyText, IsoText, Assemble,
      SameSigns;
    SameLineElements(a.lines, b.lines, a.currency);
    LineNumbersSame(a.lines[0], b.lines[0]);
    assert SameLine(a.lines[0], b.lines[0]);
    TaxCategorySame(a.lines[0].vatRate, b.lines[0].vatRate);
    PaymentSame(a, b);
    MonetarySame(a, b, s);
    AssembleSame(ROOT_ORDER, t => RootPart(a, s, t), t => RootPart(b, s, t));
  }

  lemma {:induction false} TaxCategorySame(x: Dec, y: Dec)
    requires DecimalText(x) == DecimalText(y)
    ensures TaxCategory(CacTaxCategory, "S", x) == TaxCategory(CacTaxCategory, "S", y)
  {
    hide DecimalText, Assemble;
    AssembleSame(TAX_CATEGORY_ORDER, t => TaxCategoryPart("S", x, t), t => TaxCategoryPart("S", y, t));
  }

  lemma {:induction false} PaymentSame(a: Invoice, b: Invoice)
    requires a.(lines := b.lines) == b
    ensures PaymentElement(a) == PaymentElement(b)
  {
    hide IsoText, Assemble;
    AssembleSame(PAYMENT_ORDER, t => PaymentPart(a, t), t => PaymentPart(b, t));
  }

  lemma {:induction false} MonetarySame(a: Invoice, b: Invoice, s: Sums)
    requires a.(lines := b.lines) == b
    ensures MonetaryElement(a, s) == MonetaryElement(b, s)
  {
    hide MoneyText, Assemble;
    AssembleSame(MONETARY_ORDER, t => MonetaryPart(a, s, t), t => MonetaryPart(b, s, t));
  }

  /**
   Two writable invoices have equal documents exactly when their fingerprints agree and their
   prices carry the same signs; a negative zero price is the one thing a document shows and a
   fingerprint does not.
   */
  lemma {:induction false} DocumentsAndFingerprints(a: Invoice, b: Invoice)
    requires Writable(a) && Writable(b)
    ensures SerializeInvoice(a) == SerializeInvoice(b)
        <==> Payload(a) == Payload(b) && SameSigns(a.lines, b.lines)
  {
    hide ValidInvoice, Document, TotalsFit, SumsOf, Payload, SameInvoice, SameSigns;
    FingerprintsAgree(a, b);
    LinesOf(a);
    LinesOf(b);
    if SerializeInvoice(a) == SerializeInvoice(b) {
      DocumentInjective(a, b, SumsOf(a.lines), SumsOf(b.lines));
    }
    if SameInvoice(a, b) && SameSigns(a.lines, b.lines) {
      SameTotalsOf(a, b);
      SameDocuments(a, b, SumsOf(a.lines));
    }
  }

  lemma {:induction false} SameTotalsOf(a: Invoice, b: Invoice)
    requires Writable(a) && Writable(b) && SameInvoice(a, b)
    ensures AllValid(a.lines) && AllValid(b.lines) && SumsOf(a.lines) == SumsOf(b.lines)
  {
    hide ValidHeader, ValidParty, ValidLine, OneRate, TotalsFit, SumsOf, SameLine;
    SameTotals(a.lines, b.lines);
  }

  // ---------------------------------------------------------------- invoices as they are read back

  /** Reading back keeps an invoice by value; it keeps the signs exactly when no price is a negative zero. */
  lemma {:induction false} CanonicalIsSame(inv: Invoice)
    requires ValidInvoice(inv)
    ensures SameInvoice(CanonicalInvoice(inv), inv)
    ensures SameSigns(CanonicalInvoice(inv).lines, inv.lines) <==> forall i :: 0 <= i < |inv.lines| ==> !inv.lines[i].price.negative
  {
    hide ValidHeader, ValidParty, OneRate, Canonical, SameNumber, ValidText, ValidPeriod, ValidOptional;
    LinesOf(inv);
    forall i | 0 <= i < |inv.lines|
      ensures SameLine(CanonicalLines(inv.lines)[i], inv.lines[i]) && !CanonicalLines(inv.lines)[i].price.negative
    {
      LineIsSame(inv.lines[i]);
    }
  }

  lemma {:induction false} LineIsSame(line: Line)
    requires ValidLine(line)
    ensures SameLine(CanonicalLine(line), line) && !CanonicalLine(line).price.negative
  {
    hide ValidText, ValidPeriod, ValidOptional, SameNumber;
    SameNumberMicros(Canonical(line.quantity), line.quantity);
    SameNumberMicros(Canonical(line.price), line.price);
    SameNumberMicros(Canonical(line.vatRate), line.vatRate);
  }
}
