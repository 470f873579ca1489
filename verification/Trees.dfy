/** Element trees, the tags the invoice format uses, and path lookup. */
module Trees {
  import opened Basics

  /** Qualified names: Cbc and Cac are the two UBL component namespaces. */
  datatype Tag =
    | UblInvoice
    | CbcCustomizationID | CbcProfileID | CbcID | CbcIssueDate | CbcInvoiceTypeCode | CbcNote
    | CbcDocumentCurrencyCode | CbcBuyerReference | CbcPaymentMeansCode | CbcPaymentDueDate
    | CbcTaxAmount | CbcTaxableAmount | CbcPercent
    | CbcLineExtensionAmount | CbcTaxExclusiveAmount | CbcTaxInclusiveAmount | CbcPayableAmount
    | CbcInvoicedQuantity | CbcStartDate | CbcEndDate | CbcLineID | CbcDescription | CbcName
    | CbcItemClassificationCode | CbcPriceAmount
    | CbcEndpointID | CbcStreetName | CbcCityName | CbcPostalZone | CbcIdentificationCode
    | CbcCompanyID | CbcRegistrationName | CbcCompanyLegalForm | CbcTelephone | CbcElectronicMail
    | CacAccountingSupplierParty | CacAccountingCustomerParty | CacParty | CacPartyIdentification
    | CacPartyName | CacPostalAddress | CacCountry | CacPartyTaxScheme | CacTaxScheme
    | CacPartyLegalEntity | CacContact | CacPaymentMeans | CacPayeeFinancialAccount | CacPaymentTerms
    | CacTaxTotal | CacTaxSubtotal | CacTaxCategory | CacLegalMonetaryTotal | CacInvoiceLine
    | CacInvoicePeriod | CacOrderLineReference | CacItem | CacSellersItemIdentification
    | CacCommodityClassification | CacClassifiedTaxCategory | CacPrice
    | OtherTag(space: string, local: string)

  datatype Attribute = SchemeID | UnitCode | CurrencyID | ListID | OtherAttribute(name: string)

  datatype Element = Element(
    tag: Tag,
    attributes: map<Attribute, string>,
    text: Option<string>,
    children: seq<Element>)

  function Leaf(tag: Tag, text: string): (e: Element) {
    Element(tag, map[], Some(text), [])
  }

  function Attributed(tag: Tag, text: string, attribute: Attribute, value: string): (e: Element) {
    Element(tag, map[attribute := value], Some(text), [])
  }

  function Node(tag: Tag, children: seq<Element>): (e: Element) {
    Element(tag, map[], None, children)
  }

  /** A leaf for a present value, nothing otherwise. */
  function Maybe(tag: Tag, text: Option<string>): (es: seq<Element>) {
    if text.Some? then [Leaf(tag, text.value)] else []
  }

  /** The elements with the given tag, in document order. */
  function Select(es: seq<Element>, tag: Tag): (r: seq<Element>)
    ensures forall e :: e in r ==> e in es && e.tag == tag
  {
    if es == [] then []
    else if es[0].tag == tag then [es[0]] + Select(es[1..], tag)
    else Select(es[1..], tag)
  }

  /** ElementTree.findall along a path of tags. */
  function FindAll(e: Element, path: seq<Tag>): (r: seq<Element>)
    decreases |path|, 1, 0
  {
    if path == [] then [e] else FindAllUnder(Select(e.children, path[0]), path[1..])
  }

  function FindAllUnder(es: seq<Element>, path: seq<Tag>): (r: seq<Element>)
    decreases |path|, 2, |es|
  {
    if es == [] then [] else FindAll(es[0], path) + FindAllUnder(es[1..], path)
  }

  /** ElementTree.find: the first match. */
  function Find(e: Element, path: seq<Tag>): (r: Option<Element>) {
    var all := FindAll(e, path);
    if all == [] then None else Some(all[0])
  }

  // ---------------------------------------------------------------- lookup lemmas

  lemma {:induction false} FindStep(e: Element, tag: Tag, rest: seq<Tag>, child: Element)
    requires Select(e.children, tag) == [child]
    ensures Find(e, [tag] + rest) == Find(child, rest)
  {
    var path := [tag] + rest;
    assert path[0] == tag && path[1..] == rest;
    assert [child][1..] == [];
    assert FindAllUnder([child], rest) == FindAll(child, rest);
    assert FindAll(e, path) == FindAll(child, rest);
  }

  /** The first element with the tag, if any. */
  function Child(e: Element, tag: Tag): (r: Option<Element>) {
    var found := Select(e.children, tag);
    if found == [] then None else Some(found[0])
  }

  /** When at most one child carries each inner tag, find walks straight down. */
  lemma {:induction false} FindOne(e: Element, tag: Tag)
    requires |Select(e.children, tag)| <= 1
    ensures Find(e, [tag]) == Child(e, tag)
  {
    var found := Select(e.children, tag);
    assert [tag] + [] == [tag];
    if found == [] {
      FindNone(e, tag, []);
    } else {
      assert found == [found[0]];
      FindStep(e, tag, [], found[0]);
      assert FindAll(found[0], []) == [found[0]];
    }
  }

  lemma {:induction false} FindTwo(e: Element, outer: Tag, inner: Tag)
    requires |Select(e.children, outer)| <= 1
    requires Child(e, outer).Some? ==> |Select(Child(e, outer).value.children, inner)| <= 1
    ensures Find(e, [outer, inner]) ==
      if Child(e, outer).Some? then Child(Child(e, outer).value, inner) else None
  {
    assert [outer] + [inner] == [outer, inner];
    if Child(e, outer).Some? {
      assert Select(e.children, outer) == [Child(e, outer).value];
      FindStep(e, outer, [inner], Child(e, outer).value);
      FindOne(Child(e, outer).value, inner);
    } else {
      FindNone(e, outer, [inner]);
    }
  }

  lemma {:induction false} FindThree(e: Element, outer: Tag, middle: Tag, inner: Tag, child: Element)
    requires Select(e.children, outer) == [child]
    requires |Select(child.children, middle)| <= 1
    requires Child(child, middle).Some? ==> |Select(Child(child, middle).value.children, inner)| <= 1
    ensures Find(e, [outer, middle, inner]) ==
      if Child(child, middle).Some? then Child(Child(child, middle).value, inner) else None
  {
    assert [outer] + [middle, inner] == [outer, middle, inner];
    FindStep(e, outer, [middle, inner], child);
    FindTwo(child, middle, inner);
  }

  lemma {:induction false} FindAllUnderNothing(es: seq<Element>)
    ensures FindAllUnder(es, []) == es
  {
    if es != [] {
      FindAllUnderNothing(es[1..]);
      assert es == [es[0]] + es[1..];
    }
  }

  lemma {:induction false} FindAllOne(e: Element, tag: Tag)
    ensures FindAll(e, [tag]) == Select(e.children, tag)
  {
    FindAllUnderNothing(Select(e.children, tag));
    assert [tag][1..] == [];
  }

  lemma {:induction false} FindNone(e: Element, tag: Tag, rest: seq<Tag>)
    requires Select(e.children, tag) == []
    ensures Find(e, [tag] + rest) == None
  {
    var path := [tag] + rest;
    assert path[0] == tag && path[1..] == rest;
    assert FindAll(e, path) == [];
  }

  lemma {:induction false} SelectAppend(a: seq<Element>, b: seq<Element>, tag: Tag)
    ensures Select(a + b, tag) == Select(a, tag) + Select(b, tag)
  {
    if a == [] {
      assert a + b == b;
    } else {
      assert (a + b)[1..] == a[1..] + b;
      SelectAppend(a[1..], b, tag);
    }
  }

  lemma {:induction false} SelectPair(a: Element, b: Element, tag: Tag)
    requires a.tag != b.tag && a.tag == tag
    ensures Select([a, b], tag) == [a]
  {
    assert [a, b][1..] == [b];
    assert Select([b], tag) == [];
  }

  lemma {:induction false} SelectSecond(a: Element, b: Element)
    requires a.tag != b.tag
    ensures Select([a, b], b.tag) == [b]
  {
    assert [a, b][1..] == [b];
    SelectSingle(b);
  }

  lemma {:induction false} SelectSingle(a: Element)
    ensures Select([a], a.tag) == [a]
  {
  }

  lemma {:induction false} SelectUniform(es: seq<Element>, tag: Tag, wanted: Tag)
    requires forall i :: 0 <= i < |es| ==> es[i].tag == tag
    ensures Select(es, wanted) == if tag == wanted then es else []
  {
    if es != [] {
      SelectUniform(es[1..], tag, wanted);
    }
  }

  // ---------------------------------------------------------------- element order

  /** Children laid out in a fixed tag order; part gives the elements of each tag. */
  function Assemble(order: seq<Tag>, part: Tag -> seq<Element>): (r: seq<Element>) {
    if order == [] then [] else Assemble(order[..|order| - 1], part) + part(order[|order| - 1])
  }

  /** Every element of a part carries the part's tag. */
  ghost predicate Homogeneous(part: Tag -> seq<Element>) {
    forall t, i :: 0 <= i < |part(t)| ==> part(t)[i].tag == t
  }

  /** Only tags of the order have a part. */
  ghost predicate Covers(order: seq<Tag>, part: Tag -> seq<Element>) {
    forall t :: part(t) != [] ==> t in order
  }

  lemma {:induction false} SelectPrefix(order: seq<Tag>, part: Tag -> seq<Element>, tag: Tag)
    requires Distinct(order) && Homogeneous(part)
    ensures Select(Assemble(order, part), tag) == if tag in order then part(tag) else []
  {
    hide Select;
    if order == [] {
      SelectNothing(tag);
    } else {
      var init, last := order[..|order| - 1], order[|order| - 1];
      assert order == init + [last];
      SelectPrefix(init, part, tag);
      SelectAppend(Assemble(init, part), part(last), tag);
      SelectUniform(part(last), last, tag);
    }
  }

  lemma {:induction false} SelectNothing(tag: Tag)
    ensures Select([], tag) == []
  {
  }

  /** Looking up a tag among assembled children gives exactly that tag's part. */
  lemma {:induction false} SelectAssembled(order: seq<Tag>, part: Tag -> seq<Element>, tag: Tag)
    requires Distinct(order) && Homogeneous(part) && Covers(order, part)
    ensures Select(Assemble(order, part), tag) == part(tag)
  {
    SelectPrefix(order, part, tag);
  }
}
