/** Reading back a written invoice, and what equality of documents means for invoices. */
module InvoiceRoundTrip {
  import opened Basics
  import opened Digits
  import opened Texts
  import opened Decimals
  import opened Calendar
  import opened Money
  import opened Rounding
  import opened Invoices
  import opened Totals
  import opened Trees
  import opened Serialize
  import opened Parse
  import opened PartyRoundTrip
  import opened LineRoundTrip

  // ---------------------------------------------------------------- lookups

  lemma {:induction false} RootCovers(inv: Invoice, sums: Sums)
    requires |inv.lines| >= 1 && AllValid(inv.lines)
    ensures Covers(ROOT_ORDER, t => RootPart(inv, sums, t))
  {
    hide LineElements, PartyElement, PaymentElement, MonetaryElement, TaxTotalElement, IsoText, AllValid;
  }

  lemma {:induction false} RootHomogeneous(inv: Invoice, sums: Sums)
    requires |inv.lines| >= 1 && AllValid(inv.lines)
    ensures Homogeneous(t => RootPart(inv, sums, t))
  {
    hide LineElements, PartyElement, IsoText, AllValid;
  }

  lemma {:induction false} RootDistinct()
    ensures Distinct(ROOT_ORDER)
  {
  }

  lemma {:induction false} RootSelect(inv: Invoice, sums: Sums, tag: Tag)
    requires |inv.lines| >= 1 && AllValid(inv.lines)
    ensures Select(Document(inv, sums).children, tag) == RootPart(inv, sums, tag)
  {
    hide RootPart, AllValid, Distinct, Homogeneous, Covers;
    RootCovers(inv, sums);
    RootHomogeneous(inv, sums);
    RootDistinct();
    SelectAssembled(ROOT_ORDER, t => RootPart(inv, sums, t), tag);
  }

  lemma {:induction false} RootField(inv: Invoice, sums: Sums, tag: Tag, leaf: Element)
    requires |inv.lines| >= 1 && AllValid(inv.lines) && RootPart(inv, sums, tag) == [leaf]
    ensures Find(Document(inv, sums), [tag]) == Some(leaf)
  {
    hide RootPart, AllValid, Document;
    RootSelect(inv, sums, tag);
    FindOne(Document(inv, sums), tag);
  }

  lemma {:induction false} RootNested(inv: Invoice, sums: Sums, outer: Tag, middle: Element, inner: Tag, leaf: Element)
    requires |inv.lines| >= 1 && AllValid(inv.lines)
    requires RootPart(inv, sums, outer) == [middle] && Select(middle.children, inner) == [leaf]
    ensures Find(Document(inv, sums), [outer, inner]) == Some(leaf)
  {
    hide RootPart, AllValid, Document;
    RootSelect(inv, sums, outer);
    Walk(Document(inv, sums), outer, middle, inner, leaf);
  }

  lemma {:induction false} PaymentSelect(inv: Invoice, tag: Tag)
    ensures Select(PaymentElement(inv).children, tag) == PaymentPart(inv, tag)
  {
    hide IsoText;
    SelectAssembled(PAYMENT_ORDER, t => PaymentPart(inv, t), tag);
  }

  lemma {:induction false} MonetarySelect(inv: Invoice, sums: Sums, tag: Tag)
    ensures Select(MonetaryElement(inv, sums).children, tag) == MonetaryPart(inv, sums, tag)
  {
    hide MoneyText;
    SelectAssembled(MONETARY_ORDER, t => MonetaryPart(inv, sums, t), tag);
  }

  // ---------------------------------------------------------------- fields

  lemma {:induction false} RootTexts(inv: Invoice, sums: Sums)
    requires |inv.lines| >= 1 && AllValid(inv.lines)
    ensures var e := Document(inv, sums);
      && Find(e, [CbcDocumentCurrencyCode]) == Some(Leaf(CbcDocumentCurrencyCode, inv.currency))
      && Find(e, [CbcCustomizationID]) == Some(Leaf(CbcCustomizationID, inv.customizationId))
      && Find(e, [CbcProfileID]) == Some(Leaf(CbcProfileID, inv.profileId))
      && Find(e, [CbcID]) == Some(Leaf(CbcID, inv.identifier))
  {
    hide AllValid, Document, Find;
    RootField(inv, sums, CbcDocumentCurrencyCode, Leaf(CbcDocumentCurrencyCode, inv.currency));
    RootField(inv, sums, CbcCustomizationID, Leaf(CbcCustomizationID, inv.customizationId));
    RootField(inv, sums, CbcProfileID, Leaf(CbcProfileID, inv.profileId));
    RootField(inv, sums, CbcID, Leaf(CbcID, inv.identifier));
  }

  lemma {:induction false} RootCodes(inv: Invoice, sums: Sums)
    requires |inv.lines| >= 1 && AllValid(inv.lines)
    ensures var e := Document(inv, sums);
      && Find(e, [CbcIssueDate]) == Some(Leaf(CbcIssueDate, IsoText(inv.issueDate)))
      && Find(e, [CbcInvoiceTypeCode]) == Some(Leaf(CbcInvoiceTypeCode, inv.invoiceTypeCode))
      && Find(e, [CbcBuyerReference]) == Some(Leaf(CbcBuyerReference, inv.buyerReference))
  {
    hide AllValid, Document, Find, IsoText;
    RootField(inv, sums, CbcIssueDate, Leaf(CbcIssueDate, IsoText(inv.issueDate)));
    RootField(inv, sums, CbcInvoiceTypeCode, Leaf(CbcInvoiceTypeCode, inv.invoiceTypeCode));
    RootField(inv, sums, CbcBuyerReference, Leaf(CbcBuyerReference, inv.buyerReference));
  }

  lemma {:induction false} RootParties(inv: Invoice, sums: Sums)
    requires |inv.lines| >= 1 && AllValid(inv.lines)
    ensures var e := Document(inv, sums);
      && Find(e, [CacAccountingSupplierParty, CacParty]) == Some(PartyElement(inv.seller))
      && Find(e, [CacAccountingCustomerParty, CacParty]) == Some(PartyElement(inv.buyer))
  {
    hide AllValid, Document, Find, Select, Assemble;
    var seller, buyer := PartyElement(inv.seller), PartyElement(inv.buyer);
    SelectSingle(seller);
    SelectSingle(buyer);
    RootNested(inv, sums, CacAccountingSupplierParty, Node(CacAccountingSupplierParty, [seller]), CacParty, seller);
    RootNested(inv, sums, CacAccountingCustomerParty, Node(CacAccountingCustomerParty, [buyer]), CacParty, buyer);
  }

  lemma {:induction false} RootTerms(inv: Invoice, sums: Sums)
    requires |inv.lines| >= 1 && AllValid(inv.lines) && inv.note != Some("")
    ensures var e := Document(inv, sums);
      && Find(e, [CacPaymentTerms, CbcNote]) == Some(Leaf(CbcNote, inv.paymentTerms))
      && Optional(e, [CbcNote]) == inv.note
  {
    hide AllValid, Document, Find, Select;
    var leaf := Leaf(CbcNote, inv.paymentTerms);
    SelectSingle(leaf);
    RootNested(inv, sums, CacPaymentTerms, Node(CacPaymentTerms, [leaf]), CbcNote, leaf);
    RootSelect(inv, sums, CbcNote);
    FindOne(Document(inv, sums), CbcNote);
  }

  lemma {:induction false} RootPayment(inv: Invoice, sums: Sums)
    requires |inv.lines| >= 1 && AllValid(inv.lines)
    ensures Find(Document(inv, sums), [CacPaymentMeans, CbcPaymentMeansCode])
         == Some(Leaf(CbcPaymentMeansCode, inv.paymentMeansCode))
  {
    hide AllValid, Document, Find, Select, PaymentElement;
    PaymentSelect(inv, CbcPaymentMeansCode);
    RootNested(inv, sums, CacPaymentMeans, PaymentElement(inv), CbcPaymentMeansCode, Leaf(CbcPaymentMeansCode, inv.paymentMeansCode));
  }

  lemma {:induction false} RootAccount(inv: Invoice, sums: Sums)
    requires |inv.lines| >= 1 && AllValid(inv.lines)
    ensures Find(Document(inv, sums), [CacPaymentMeans, CacPayeeFinancialAccount, CbcID])
         == Some(Leaf(CbcID, inv.payeeAccountIdentifier))
  {
    hide AllValid, Document, Find, Select, PaymentElement;
    var leaf := Leaf(CbcID, inv.payeeAccountIdentifier);
    SelectSingle(leaf);
    PaymentSelect(inv, CacPayeeFinancialAccount);
    RootSelect(inv, sums, CacPaymentMeans);
    WalkThree(Document(inv, sums), CacPaymentMeans, PaymentElement(inv), CacPayeeFinancialAccount,
      Node(CacPayeeFinancialAccount, [leaf]), CbcID, leaf);
  }

  function DueText(inv: Invoice): (o: Option<string>) {
    if inv.paymentDueDate.Some? then Some(IsoText(inv.paymentDueDate.value)) else None
  }

  lemma {:induction false} RootDueDate(inv: Invoice, sums: Sums)
    requires |inv.lines| >= 1 && AllValid(inv.lines)
    requires inv.paymentDueDate.Some? ==> ValidDate(inv.paymentDueDate.value)
    ensures Optional(Document(inv, sums), [CacPaymentMeans, CbcPaymentDueDate]) == DueText(inv)
    ensures ReadOptionalDate(DueText(inv)) == Ok(inv.paymentDueDate)
  {
    hide AllValid, Document, Optional, Select, PaymentElement, IsoText;
    PaymentSelect(inv, CbcPaymentDueDate);
    RootSelect(inv, sums, CacPaymentMeans);
    WalkOptional(Document(inv, sums), CacPaymentMeans, PaymentElement(inv), CbcPaymentDueDate, DueText(inv));
    if inv.paymentDueDate.Some? {
      DateRoundTrip(inv.paymentDueDate.value);
    }
  }

  lemma {:induction false} RootTotals(inv: Invoice, sums: Sums)
    requires |inv.lines| >= 1 && AllValid(inv.lines)
    ensures var e := Document(inv, sums);
      && Find(e, [CacLegalMonetaryTotal, CbcLineExtensionAmount]) == Some(Amount(CbcLineExtensionAmount, sums.line, inv))
      && Find(e, [CacLegalMonetaryTotal, CbcPayableAmount]) == Some(Amount(CbcPayableAmount, sums.payable, inv))
  {
    hide AllValid, Document, Find, Select, MonetaryElement, Amount;
    MonetarySelect(inv, sums, CbcLineExtensionAmount);
    MonetarySelect(inv, sums, CbcPayableAmount);
    RootNested(inv, sums, CacLegalMonetaryTotal, MonetaryElement(inv, sums), CbcLineExtensionAmount,
      Amount(CbcLineExtensionAmount, sums.line, inv));
    RootNested(inv, sums, CacLegalMonetaryTotal, MonetaryElement(inv, sums), CbcPayableAmount,
      Amount(CbcPayableAmount, sums.payable, inv));
  }

  lemma {:induction false} RootTax(inv: Invoice, sums: Sums)
    requires |inv.lines| >= 1 && AllValid(inv.lines)
    ensures Find(Document(inv, sums), [CacTaxTotal, CbcTaxAmount]) == Some(Amount(CbcTaxAmount, sums.tax, inv))
  {
    hide AllValid, Document, Find, Select, TaxCategory, MoneyText;
    var tax := Amount(CbcTaxAmount, sums.tax, inv);
    var subtotal := TaxTotalElement(inv, sums).children[1];
    assert TaxTotalElement(inv, sums).children == [tax, subtotal];
    SelectPair(tax, subtotal, CbcTaxAmount);
    RootNested(inv, sums, CacTaxTotal, TaxTotalElement(inv, sums), CbcTaxAmount, tax);
  }

  // ---------------------------------------------------------------- lines

  function CanonicalLines(lines: seq<Line>): (r: seq<Line>)
    requires AllValid(lines)
    ensures |r| == |lines| && AllValid(r)
    ensures forall i :: 0 <= i < |lines| ==> r[i] == CanonicalLine(lines[i])
  {
    if lines == [] then [] else [CanonicalLine(lines[0])] + CanonicalLines(lines[1..])
  }

  predicate ReadableLines(lines: seq<Line>) {
    forall i :: 0 <= i < |lines| ==> ReadableLine(lines[i])
  }

  lemma {:induction false} LinesReadBack(lines: seq<Line>, currency: string)
    requires AllValid(lines)
    ensures ReadLines(LineElements(lines, currency), currency)
         == if ReadableLines(lines) then Ok(CanonicalLines(lines)) else Err(ModelError)
  {
    hide ValidLine, LineElement, ReadLine, CanonicalLine, ReadableLine;
    if lines != [] {
      assert LineElements(lines, currency)[1..] == LineElements(lines[1..], currency);
      LineReadsBack(lines[0], currency);
      LinesReadBack(lines[1..], currency);
      assert ReadableLines(lines) <==> ReadableLine(lines[0]) && ReadableLines(lines[1..]) by {
        assert lines == [lines[0]] + lines[1..];
      }
    }
  }

  lemma {:induction false} LinesFound(inv: Invoice, sums: Sums)
    requires |inv.lines| >= 1 && AllValid(inv.lines)
    ensures FindAll(Document(inv, sums), [CacInvoiceLine]) == LineElements(inv.lines, inv.currency)
  {
    hide AllValid, Document, LineElements, FindAll, Select, RootPart;
    RootSelect(inv, sums, CacInvoiceLine);
    RootLines(inv, sums);
    FindAllOne(Document(inv, sums), CacInvoiceLine);
  }

  lemma {:induction false} RootLines(inv: Invoice, sums: Sums)
    requires |inv.lines| >= 1 && AllValid(inv.lines)
    ensures RootPart(inv, sums, CacInvoiceLine) == LineElements(inv.lines, inv.currency)
  {
    hide AllValid, LineElements;
  }

  // ---------------------------------------------------------------- the round trip

  function CanonicalInvoice(inv: Invoice): (r: Invoice)
    requires ValidInvoice(inv)
  {
    inv.(lines := CanonicalLines(inv.lines))
  }

  /** No text that the parser requires consists of white space only. */
  predicate ReadableHeader(inv: Invoice) {
    && !Blank(inv.customizationId) && !Blank(inv.profileId) && !Blank(inv.identifier)
    && !Blank(inv.invoiceTypeCode) && !Blank(inv.buyerReference) && !Blank(inv.paymentMeansCode)
    && !Blank(inv.payeeAccountIdentifier) && !Blank(inv.paymentTerms)
  }

  predicate Readable(inv: Invoice) {
    ReadableHeader(inv) && ReadableParty(inv.seller) && ReadableParty(inv.buyer) && ReadableLines(inv.lines)
  }

  lemma {:induction false} FieldsReadBack(inv: Invoice, sums: Sums)
    requires ValidInvoice(inv)
    ensures ReadInvoice(Document(inv, sums)) == if Readable(inv) then Ok(CanonicalInvoice(inv)) else Err(ModelError)
  {
    hide ValidLine, ValidText, ValidParty, Document, Find, FindAll, LineElements, PartyElement, ReadParty, ReadLines,
      ReadOptionalDate, ParseIso, IsoText, DueText, CanonicalLines, ReadableParty, ReadableLines, OneRate;
    RootTexts(inv, sums);
    RootCodes(inv, sums);
    RootParties(inv, sums);
    RootPayment(inv, sums);
    RootAccount(inv, sums);
    HeaderFacts(inv);
    RootTerms(inv, sums);
    RootDueDate(inv, sums);
    PartyReadsBack(inv.seller);
    PartyReadsBack(inv.buyer);
    LinesFound(inv, sums);
    LinesReadBack(inv.lines, inv.currency);
  }

  lemma {:induction false} HeaderFacts(inv: Invoice)
    requires ValidHeader(inv)
    ensures !Blank(inv.currency) && inv.note != Some("")
    ensures !Blank(IsoText(inv.issueDate)) && ReadDate(IsoText(inv.issueDate)) == Ok(inv.issueDate)
  {
    hide IsoText, ParseIso;
    assert !IsSpace(inv.currency[0]);
    DateRoundTrip(inv.issueDate);
    DateNotBlank(inv.issueDate);
  }

  lemma {:induction false} DateNotBlank(d: Date)
    ensures !Blank(IsoText(d))
  {
    hide Padded;
    DigitsAreNotBlank(IsoText(d));
  }

  /** The same number in another representation gives the same amounts. */
  lemma {:induction false} CanonicalAmounts(lines: seq<Line>)
    requires AllValid(lines)
    ensures LineAmounts(CanonicalLines(lines)) == LineAmounts(lines)
    ensures TaxAmounts(CanonicalLines(lines)) == TaxAmounts(lines)
  {
    hide LineCents, TaxCents, Canonical;
  }

  lemma {:induction false} SameNumberTransitive(a: Dec, b: Dec)
    requires ValidNonNegative(a) && ValidNonNegative(b) && SameNumber(a, b)
    ensures SameNumber(Canonical(a), Canonical(b)) && SameNumber(a, Canonical(a))
  {
    hide SameNumber, Canonical;
    SameNumberMicros(a, b);
    SameNumberMicros(Canonical(a), Canonical(b));
    SameNumberMicros(a, Canonical(a));
  }

  lemma {:induction false} CanonicalIsValid(inv: Invoice)
    requires ValidInvoice(inv)
    ensures ValidInvoice(CanonicalInvoice(inv))
  {
    hide ValidHeader, ValidParty, ValidText, ValidPeriod, SameNumber, Canonical;
    var lines, rest := inv.lines, CanonicalLines(inv.lines);
    forall i | 0 <= i < |rest| ensures SameNumber(rest[0].vatRate, rest[i].vatRate) {
      SameNumberTransitive(lines[0].vatRate, lines[i].vatRate);
    }
    HeaderIgnoresLines(inv);
  }

  lemma {:induction false} HeaderIgnoresLines(inv: Invoice)
    requires ValidInvoice(inv)
    ensures ValidHeader(CanonicalInvoice(inv))
  {
    hide ValidText, ValidOptional, ValidLines, CanonicalLines;
  }

  lemma {:induction false} TotalCheck(cents: nat)
    requires cents < CONTEXT_LIMIT
    ensures var text := MoneyText(cents, false);
      !Blank(text) && ReadDecimal(text).Ok? && CheckAmount(ReadDecimal(text).value, Cents(Some(cents))) == Ok(())
  {
    hide MoneyText, Quantize;
    MoneyRoundTrip(cents, false);
  }

  lemma {:induction false} TotalsReadBack(inv: Invoice, lines: seq<Line>)
    requires Writable(inv) && AllValid(lines)
    requires LineAmounts(lines) == LineAmounts(inv.lines) && TaxAmounts(lines) == TaxAmounts(inv.lines)
    ensures var e, sums := Document(inv, SumsOf(inv.lines)), SumsOf(inv.lines);
      && RequiredDecimal(e, [CacLegalMonetaryTotal, CbcLineExtensionAmount]).Ok?
      && CheckAmount(RequiredDecimal(e, [CacLegalMonetaryTotal, CbcLineExtensionAmount]).value, Cents(LineTotal(lines))) == Ok(())
      && RequiredDecimal(e, [CacTaxTotal, CbcTaxAmount]).Ok?
      && CheckAmount(RequiredDecimal(e, [CacTaxTotal, CbcTaxAmount]).value, Cents(TaxTotal(lines))) == Ok(())
      && RequiredDecimal(e, [CacLegalMonetaryTotal, CbcPayableAmount]).Ok?
      && CheckAmount(RequiredDecimal(e, [CacLegalMonetaryTotal, CbcPayableAmount]).value, Cents(PayableTotal(lines))) == Ok(())
  {
    hide Document, Find, MoneyText, ValidInvoice, LineAmounts, TaxAmounts, RoundedSum, RoundContext, ReadDecimal, CheckAmount, AllValid;
    LinesOf(inv);
    var sums := SumsOf(inv.lines);
    RootTotals(inv, sums);
    RootTax(inv, sums);
    TotalCheck(sums.line);
    TotalCheck(sums.tax);
    TotalCheck(sums.payable);
  }

  lemma {:induction false} LinesOf(inv: Invoice)
    requires ValidInvoice(inv)
    ensures |inv.lines| >= 1 && AllValid(inv.lines)
  {
  }

  /**
   Writing and reading: a writable invoice comes back numerically equal, with every total check
   passing, exactly when none of its required texts is blank; otherwise reading reports a model error.
   */
  lemma {:induction false} WriteThenRead(inv: Invoice)
    requires Writable(inv)
    ensures ParseInvoice(SerializeInvoice(inv).value)
         == if Readable(inv) then Ok(CanonicalInvoice(inv)) else Err(ModelError)
  {
    hide ValidInvoice, Document, ReadInvoice, RequiredDecimal, CheckAmount, TotalsFit, LineTotal, TaxTotal, PayableTotal, Cents,
      CanonicalLines, SumsOf, Readable;
    LinesOf(inv);
    FieldsReadBack(inv, SumsOf(inv.lines));
    DocumentTag(inv, SumsOf(inv.lines));
    CanonicalIsValid(inv);
    CanonicalAmounts(inv.lines);
    TotalsReadBack(inv, CanonicalLines(inv.lines));
  }

  lemma {:induction false} DocumentTag(inv: Invoice, sums: Sums)
    requires ValidInvoice(inv)
    ensures Document(inv, sums).tag == UblInvoice
  {
  }

  // ---------------------------------------------------------------- what has been read

  lemma {:induction false} ReadPartyIsReadable(e: Element)
    ensures ReadParty(e).Ok? ==> ReadableParty(ReadParty(e).value)
  {
    hide Find, Blank, Optional, AttributeOf, TextOf;
  }

  lemma {:induction false} ReadLineIsReadable(e: Element, currency: string)
    ensures ReadLine(e, currency).Ok? ==> ReadableLine(ReadLine(e, currency).value)
  {
    hide Find, Blank, Optional, AttributeOf, TextOf, ReadDecimal, RequiredDecimal, CheckAmount, LineExtension;
  }

  lemma {:induction false} ReadLinesAreReadable(es: seq<Element>, currency: string)
    ensures ReadLines(es, currency).Ok? ==> ReadableLines(ReadLines(es, currency).value)
  {
    hide ReadLine, ReadableLine;
    if es != [] {
      ReadLineIsReadable(es[0], currency);
      ReadLinesAreReadable(es[1..], currency);
    }
  }

  lemma {:induction false} ReadIsReadable(root: Element)
    ensures ReadInvoice(root).Ok? ==> Readable(ReadInvoice(root).value)
  {
    hide Find, FindAll, Blank, Optional, AttributeOf, TextOf, ReadDate, ReadOptionalDate, ReadParty, ReadLines, ReadableParty, ReadableLines;
    var supplier, customer :=
      Find(root, [CacAccountingSupplierParty, CacParty]), Find(root, [CacAccountingCustomerParty, CacParty]);
    if supplier.Some? && customer.Some? {
      ReadPartyIsReadable(supplier.value);
      ReadPartyIsReadable(customer.value);
    }
    if ReadInvoice(root).Ok? {
      ReadLinesAreReadable(FindAll(root, [CacInvoiceLine]), ReadInvoice(root).value.currency);
    }
  }

  /** Whatever has been read from a document can be written, and read again. */
  lemma {:induction false} ParsedIsWritable(root: Element)
    ensures ParseInvoice(root).Ok? ==> Writable(ParseInvoice(root).value) && Readable(ParseInvoice(root).value)
  {
    hide ReadInvoice, ValidInvoice, Readable, RequiredDecimal, LineTotal, TaxTotal;
    ReadIsReadable(root);
    if ParseInvoice(root).Ok? {
      LinesOf(ParseInvoice(root).value);
    }
  }

  /** Read, written and read again, an invoice keeps every field, and its numbers become canonical. */
  lemma {:induction false} ReadWriteRead(root: Element)
    requires ParseInvoice(root).Ok?
    ensures var inv := ParseInvoice(root).value; var written := SerializeInvoice(inv);
      written.Some? && ParseInvoice(written.value) == Ok(CanonicalInvoice(inv))
  {
    hide ParseInvoice, ValidInvoice, Readable, TotalsFit, Document, SumsOf, CanonicalInvoice;
    ParsedIsWritable(root);
    WriteThenRead(ParseInvoice(root).value);
  }
}
