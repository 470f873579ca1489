/** Reading back a written line: its fields, and its reported amount against the recomputed one. */
module LineRoundTrip {
  import opened Basics
  import opened Digits
  import opened Texts
  import opened Decimals
  import opened Calendar
  import opened Money
  import opened Rounding
  import opened Invoices
  import opened Totals
  import opened Trees
  import opened Serialize
  import opened Parse
  import opened PartyRoundTrip

  // ---------------------------------------------------------------- lookups

  lemma {:induction false} LineOrder(line: Line, currency: string)
    requires ValidLine(line)
    ensures Covers(LINE_ORDER, t => LinePart(line, currency, t))
  {
    hide ValidLine, LineAmount, MoneyText, DecimalText, IsoText;
  }

  lemma {:induction false} LineHomogeneous(line: Line, currency: string)
    requires ValidLine(line)
    ensures Homogeneous(t => LinePart(line, currency, t))
  {
    hide ValidLine, LineAmount, MoneyText, DecimalText, IsoText;
  }

  lemma {:induction false} LineSelect(line: Line, currency: string, tag: Tag)
    requires ValidLine(line)
    ensures Select(LineElement(line, currency).children, tag) == LinePart(line, currency, tag)
  {
    hide ValidLine, LineAmount, MoneyText, DecimalText, IsoText, LinePart;
    LineOrder(line, currency);
    LineHomogeneous(line, currency);
    assert Distinct(LINE_ORDER);
    SelectAssembled(LINE_ORDER, t => LinePart(line, currency, t), tag);
  }

  lemma {:induction false} ItemSelect(line: Line, tag: Tag)
    ensures Select(ItemElement(line).children, tag) == ItemPart(line, tag)
  {
    hide TaxCategory;
    ItemOrder(line);
    assert Distinct(ITEM_ORDER);
    SelectAssembled(ITEM_ORDER, t => ItemPart(line, t), tag);
  }

  lemma {:induction false} ItemOrder(line: Line)
    ensures Covers(ITEM_ORDER, t => ItemPart(line, t)) && Homogeneous(t => ItemPart(line, t))
  {
    hide Assemble;
  }

  lemma {:induction false} TaxCategorySelect(tag: Tag, category: string, rate: Dec, inner: Tag)
    ensures Select(TaxCategory(tag, category, rate).children, inner) == TaxCategoryPart(category, rate, inner)
  {
    hide DecimalText;
    SelectAssembled(TAX_CATEGORY_ORDER, t => TaxCategoryPart(category, rate, t), inner);
  }

  /** A field held directly by a child of the line. */
  lemma {:induction false} LineField(line: Line, currency: string, tag: Tag, leaf: Element)
    requires ValidLine(line) && LinePart(line, currency, tag) == [leaf]
    ensures Find(LineElement(line, currency), [tag]) == Some(leaf)
  {
    hide ValidLine, LinePart, LineElement;
    LineSelect(line, currency, tag);
    FindOne(LineElement(line, currency), tag);
  }

  lemma {:induction false} LineNested(line: Line, currency: string, outer: Tag, middle: Element, inner: Tag, leaf: Element)
    requires ValidLine(line) && LinePart(line, currency, outer) == [middle] && Select(middle.children, inner) == [leaf]
    ensures Find(LineElement(line, currency), [outer, inner]) == Some(leaf)
  {
    hide ValidLine, LinePart, LineElement;
    LineSelect(line, currency, outer);
    Walk(LineElement(line, currency), outer, middle, inner, leaf);
  }

  lemma {:induction false} LineWrapped(line: Line, currency: string, outer: Tag, middle: Element, inner: Tag, o: Option<string>)
    requires ValidLine(line) && o != Some("")
    requires LinePart(line, currency, outer) == (if o.Some? then [middle] else [])
    requires o.Some? ==> Select(middle.children, inner) == [Leaf(inner, o.value)]
    ensures Optional(LineElement(line, currency), [outer, inner]) == o
  {
    hide ValidLine, LinePart, LineElement;
    LineSelect(line, currency, outer);
    WalkWrapped(LineElement(line, currency), outer, middle, inner, o);
  }

  lemma {:induction false} ItemInLine(line: Line, currency: string)
    requires ValidLine(line)
    ensures Select(LineElement(line, currency).children, CacItem) == [ItemElement(line)]
  {
    hide ValidLine, LineElement, ItemElement;
    LineSelect(line, currency, CacItem);
  }

  lemma {:induction false} ItemField(line: Line, currency: string, tag: Tag, leaf: Element)
    requires ValidLine(line) && ItemPart(line, tag) == [leaf]
    ensures Find(LineElement(line, currency), [CacItem, tag]) == Some(leaf)
  {
    hide ValidLine, LineElement, ItemElement, ItemPart;
    ItemInLine(line, currency);
    ItemSelect(line, tag);
    Walk(LineElement(line, currency), CacItem, ItemElement(line), tag, leaf);
  }

  lemma {:induction false} ItemOptional(line: Line, currency: string, tag: Tag, o: Option<string>)
    requires ValidLine(line) && ItemPart(line, tag) == Maybe(tag, o) && o != Some("")
    ensures Optional(LineElement(line, currency), [CacItem, tag]) == o
  {
    hide ValidLine, LineElement, ItemElement, ItemPart;
    ItemInLine(line, currency);
    ItemSelect(line, tag);
    WalkOptional(LineElement(line, currency), CacItem, ItemElement(line), tag, o);
  }

  lemma {:induction false} ItemNested(line: Line, currency: string, outer: Tag, middle: Element, inner: Tag, leaf: Element)
    requires ValidLine(line) && ItemPart(line, outer) == [middle] && Select(middle.children, inner) == [leaf]
    ensures Find(LineElement(line, currency), [CacItem, outer, inner]) == Some(leaf)
  {
    hide ValidLine, LineElement, ItemElement, ItemPart;
    ItemInLine(line, currency);
    ItemSelect(line, outer);
    WalkThree(LineElement(line, currency), CacItem, ItemElement(line), outer, middle, inner, leaf);
  }

  lemma {:induction false} ItemMissing(line: Line, currency: string, outer: Tag, inner: Tag)
    requires ValidLine(line) && ItemPart(line, outer) == []
    ensures Find(LineElement(line, currency), [CacItem, outer, inner]) == None
  {
    hide ValidLine, LineElement, ItemElement, ItemPart;
    ItemInLine(line, currency);
    ItemSelect(line, outer);
    FindThree(LineElement(line, currency), CacItem, outer, inner, ItemElement(line));
  }

  // ---------------------------------------------------------------- numbers

  lemma {:induction false} LastIsDigit(d: Dec)
    ensures IsDigit(FixedText(d)[|FixedText(d)| - 1])
  {
  }

  lemma {:induction false} DigitsAreNotBlank(s: string)
    requires |s| >= 1 && IsDigit(s[|s| - 1])
    ensures !Blank(s)
  {
    assert !IsSpace(s[|s| - 1]);
  }

  lemma {:induction false} DecimalTextNotBlank(d: Dec)
    ensures !Blank(DecimalText(d))
  {
    hide FixedText;
    LastIsDigit(Normalize(d));
    DigitsAreNotBlank(DecimalText(d));
  }

  /** Money text reads back as the same number of cents, so the quantised value is unchanged. */
  lemma {:induction false} MoneyRoundTrip(cents: nat, negative: bool)
    requires cents < CONTEXT_LIMIT
    ensures !Blank(MoneyText(cents, negative))
    ensures ReadDecimal(MoneyText(cents, negative)) == Ok(Dec(negative, cents, -2))
    ensures Quantize(Dec(negative, cents, -2), HalfEven) == Some(Dec(negative, cents, -2))
  {
    hide FixedText, ParseDecimal, Blank, Quantize;
    var d := Dec(negative, cents, -2);
    ParseFixed(d);
    LastIsDigit(d);
    DigitsAreNotBlank(FixedText(d));
    CentsAreQuantized(d);
  }

  lemma {:induction false} ZeroAmount(quantity: nat)
    ensures LineCents(quantity, 0) == 0
  {
  }

  // ---------------------------------------------------------------- fields

  /** The line as it is read back: numbers in canonical representation. */
  function CanonicalLine(line: Line): (r: Line)
    requires ValidLine(line)
    ensures ValidLine(r)
  {
    line.(quantity := Canonical(line.quantity), price := Canonical(line.price), vatRate := Canonical(line.vatRate))
  }

  predicate ReadableLine(line: Line) {
    !Blank(line.identifier) && !Blank(line.name)
  }

  lemma {:induction false} LineRequired(line: Line, currency: string)
    requires ValidLine(line)
    ensures var e := LineElement(line, currency);
      && Find(e, [CbcID]) == Some(Leaf(CbcID, line.identifier))
      && Find(e, [CacItem, CbcName]) == Some(Leaf(CbcName, line.name))
      && Find(e, [CbcInvoicedQuantity])
         == Some(Attributed(CbcInvoicedQuantity, DecimalText(line.quantity), UnitCode, line.unitCode))
  {
    hide ValidLine, LineElement, Find, DecimalText;
    LineField(line, currency, CbcID, Leaf(CbcID, line.identifier));
    ItemField(line, currency, CbcName, Leaf(CbcName, line.name));
    LineField(line, currency, CbcInvoicedQuantity,
      Attributed(CbcInvoicedQuantity, DecimalText(line.quantity), UnitCode, line.unitCode));
  }

  lemma {:induction false} LinePrice(line: Line, currency: string)
    requires ValidLine(line)
    ensures Find(LineElement(line, currency), [CacPrice, CbcPriceAmount])
         == Some(Attributed(CbcPriceAmount, DecimalText(line.price), CurrencyID, currency))
  {
    hide ValidLine, LineElement, Find, Select, DecimalText;
    var leaf := Attributed(CbcPriceAmount, DecimalText(line.price), CurrencyID, currency);
    SelectSingle(leaf);
    LineNested(line, currency, CacPrice, Node(CacPrice, [leaf]), CbcPriceAmount, leaf);
  }

  lemma {:induction false} LineTax(line: Line, currency: string)
    requires ValidLine(line)
    ensures var e := LineElement(line, currency);
      && Find(e, [CacItem, CacClassifiedTaxCategory, CbcID]) == Some(Leaf(CbcID, line.vatCategory))
      && Find(e, [CacItem, CacClassifiedTaxCategory, CbcPercent]) == Some(Leaf(CbcPercent, DecimalText(line.vatRate)))
  {
    hide ValidLine, LineElement, Find, Select, TaxCategory, DecimalText;
    var category := TaxCategory(CacClassifiedTaxCategory, line.vatCategory, line.vatRate);
    TaxCategorySelect(CacClassifiedTaxCategory, line.vatCategory, line.vatRate, CbcID);
    TaxCategorySelect(CacClassifiedTaxCategory, line.vatCategory, line.vatRate, CbcPercent);
    ItemNested(line, currency, CacClassifiedTaxCategory, category, CbcID, Leaf(CbcID, line.vatCategory));
    ItemNested(line, currency, CacClassifiedTaxCategory, category, CbcPercent, Leaf(CbcPercent, DecimalText(line.vatRate)));
  }

  function StartText(line: Line): (o: Option<string>) {
    if line.periodStart.Some? && line.periodEnd.Some? then Some(IsoText(line.periodStart.value)) else None
  }

  function EndText(line: Line): (o: Option<string>) {
    if line.periodStart.Some? && line.periodEnd.Some? then Some(IsoText(line.periodEnd.value)) else None
  }

  lemma {:induction false} LinePeriod(line: Line, currency: string)
    requires ValidLine(line)
    ensures var e := LineElement(line, currency);
      && Optional(e, [CacInvoicePeriod, CbcStartDate]) == StartText(line)
      && Optional(e, [CacInvoicePeriod, CbcEndDate]) == EndText(line)
  {
    hide ValidLine, LineElement, Optional, Select, IsoText;
    var start := Leaf(CbcStartDate, if StartText(line).Some? then StartText(line).value else "");
    var end := Leaf(CbcEndDate, if EndText(line).Some? then EndText(line).value else "");
    SelectPair(start, end, CbcStartDate);
    SelectSecond(start, end);
    LineWrapped(line, currency, CacInvoicePeriod, Node(CacInvoicePeriod, [start, end]), CbcStartDate, StartText(line));
    LineWrapped(line, currency, CacInvoicePeriod, Node(CacInvoicePeriod, [start, end]), CbcEndDate, EndText(line));
  }

  lemma {:induction false} PeriodReadsBack(line: Line)
    requires ValidLine(line)
    ensures ReadOptionalDate(StartText(line)) == Ok(line.periodStart)
    ensures ReadOptionalDate(EndText(line)) == Ok(line.periodEnd)
  {
    hide IsoText, ParseIso;
    if line.periodStart.Some? {
      DateRoundTrip(line.periodStart.value);
      DateRoundTrip(line.periodEnd.value);
    }
  }

  lemma {:induction false} LineNote(line: Line, currency: string)
    requires ValidLine(line)
    ensures Optional(LineElement(line, currency), [CbcNote]) == line.note
  {
    hide LineElement;
    LineSelect(line, currency, CbcNote);
    FindOne(LineElement(line, currency), CbcNote);
  }

  lemma {:induction false} OrderPart(line: Line, currency: string)
    requires ValidLine(line)
    ensures LinePart(line, currency, CacOrderLineReference) ==
      if line.orderLineIdentifier.Some? then [Node(CacOrderLineReference, [Leaf(CbcLineID, line.orderLineIdentifier.value)])] else []
    ensures line.orderLineIdentifier != Some("")
  {
    hide ItemElement, LineAmount, MoneyText, DecimalText, IsoText, Maybe, InBounds, ValidPeriod;
  }

  lemma {:induction false} OrderReference(line: Line, currency: string)
    requires ValidLine(line)
    ensures Optional(LineElement(line, currency), [CacOrderLineReference, CbcLineID]) == line.orderLineIdentifier
  {
    hide LineElement, Optional, Select, LinePart, ValidLine;
    OrderPart(line, currency);
    var leaf := Leaf(CbcLineID, if line.orderLineIdentifier.Some? then line.orderLineIdentifier.value else "");
    SelectSingle(leaf);
    LineWrapped(line, currency, CacOrderLineReference, Node(CacOrderLineReference, [leaf]), CbcLineID, line.orderLineIdentifier);
  }

  lemma {:induction false} LineReferences(line: Line, currency: string)
    requires ValidLine(line)
    ensures var e := LineElement(line, currency);
      && Optional(e, [CacOrderLineReference, CbcLineID]) == line.orderLineIdentifier
      && Optional(e, [CacItem, CbcDescription]) == line.description
  {
    hide LineElement, Optional, Select, Maybe, LinePart;
    OrderReference(line, currency);
    ItemOptional(line, currency, CbcDescription, line.description);
  }

  lemma {:induction false} LineSellerItem(line: Line, currency: string)
    requires ValidLine(line)
    ensures Optional(LineElement(line, currency), [CacItem, CacSellersItemIdentification, CbcID]) == line.sellerItemIdentifier
  {
    hide LineElement, Find, Select;
    if line.sellerItemIdentifier.Some? {
      var leaf := Leaf(CbcID, line.sellerItemIdentifier.value);
      SelectSingle(leaf);
      ItemNested(line, currency, CacSellersItemIdentification, Node(CacSellersItemIdentification, [leaf]), CbcID, leaf);
    } else {
      ItemMissing(line, currency, CacSellersItemIdentification, CbcID);
    }
  }

  lemma {:induction false} LineClassification(line: Line, currency: string)
    requires ValidLine(line)
    ensures var e := LineElement(line, currency);
      && Optional(e, CLASSIFICATION_PATH) == line.classificationCode
      && ReadClassificationList(e) == line.classificationList
  {
    hide LineElement, Find, Select;
    if line.classificationCode.Some? {
      var leaf := Attributed(CbcItemClassificationCode, line.classificationCode.value, ListID, line.classificationList.value);
      SelectSingle(leaf);
      ItemNested(line, currency, CacCommodityClassification, Node(CacCommodityClassification, [leaf]),
        CbcItemClassificationCode, leaf);
    } else {
      ItemMissing(line, currency, CacCommodityClassification, CbcItemClassificationCode);
    }
  }

  /** The fields of a valid line come back, numbers in canonical form, unless required text is blank. */
  lemma {:induction false} LineFieldsRoundTrip(line: Line, currency: string)
    requires ValidLine(line)
    ensures ReadLineFields(LineElement(line, currency))
         == if ReadableLine(line) then Ok(CanonicalLine(line)) else Err(ModelError)
  {
    hide LineElement, Find, DecimalText, ParseDecimal, Canonical, IsoText, StartText, EndText, ReadOptionalDate,
      ReadClassificationList, ValidText, ValidPositive, ValidNonNegative, ValidPeriod;
    LineRequired(line, currency);
    LinePrice(line, currency);
    LineTax(line, currency);
    DecimalTextNotBlank(line.vatRate);
    LinePeriod(line, currency);
    PeriodReadsBack(line);
    LineNote(line, currency);
    LineReferences(line, currency);
    LineSellerItem(line, currency);
    LineClassification(line, currency);
    LineNumbers(line);
  }

  lemma {:induction false} LineNumbers(line: Line)
    requires ValidLine(line)
    ensures ReadDecimal(DecimalText(line.quantity)) == Ok(Canonical(line.quantity))
    ensures ReadDecimal(DecimalText(line.price)) == Ok(Canonical(line.price))
    ensures ReadDecimal(DecimalText(line.vatRate)) == Ok(Canonical(line.vatRate))
    ensures !Blank(line.vatCategory)
  {
    hide DecimalText, ParseDecimal, Canonical;
    DecimalRoundTrip(line.quantity);
    DecimalRoundTrip(line.price);
    DecimalRoundTrip(line.vatRate);
    assert !IsSpace(line.vatCategory[0]);
  }

  /** The amount that was reported is the amount that the read-back numbers give. */
  lemma {:induction false} AmountReadsBack(line: Line)
    requires ValidLine(line)
    ensures var text := MoneyText(LineAmount(line), line.price.negative);
      !Blank(text) && ReadDecimal(text).Ok? &&
      CheckAmount(ReadDecimal(text).value, LineExtension(Canonical(line.quantity), Canonical(line.price))) == Ok(())
  {
    hide MoneyText, LineExtension, Quantize, LineCents, Canonical, ParseDecimal;
    AmountBounds(line);
    MoneyRoundTrip(LineAmount(line), line.price.negative);
    LineExtensionValue(Canonical(line.quantity), Canonical(line.price));
    if line.price.negative || Canonical(line.price).negative {
      ZeroMicros(line.price);
      ZeroMicros(Canonical(line.price));
      ZeroAmount(Micros(line.quantity));
    }
  }

  lemma {:induction false} LineReadsBack(line: Line, currency: string)
    requires ValidLine(line)
    ensures ReadLine(LineElement(line, currency), currency)
         == if ReadableLine(line) then Ok(CanonicalLine(line)) else Err(ModelError)
  {
    hide ValidLine, LineElement, Find, MoneyText, ReadLineFields, ReadDecimal, CheckAmount, LineExtension, LineAmount, Canonical;
    var leaf := Attributed(CbcLineExtensionAmount, MoneyText(LineAmount(line), line.price.negative), CurrencyID, currency);
    LineField(line, currency, CbcLineExtensionAmount, leaf);
    LineFieldsRoundTrip(line, currency);
    AmountReadsBack(line);
  }
}
