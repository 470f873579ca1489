/** Reading back a written party: every lookup of the parser finds the field that was serialised. */
module PartyRoundTrip {
  import opened Basics
  import opened Texts
  import opened Invoices
  import opened Trees
  import opened Serialize
  import opened Parse

  // ---------------------------------------------------------------- lookups in general

  lemma {:induction false} Walk(e: Element, outer: Tag, middle: Element, inner: Tag, found: Element)
    requires Select(e.children, outer) == [middle]
    requires Select(middle.children, inner) == [found]
    ensures Find(e, [outer, inner]) == Some(found)
  {
    FindTwo(e, outer, inner);
  }

  lemma {:induction false} WalkThree(
    e: Element, outer: Tag, first: Element, middle: Tag, second: Element, inner: Tag, found: Element)
    requires Select(e.children, outer) == [first]
    requires Select(first.children, middle) == [second]
    requires Select(second.children, inner) == [found]
    ensures Find(e, [outer, middle, inner]) == Some(found)
  {
    FindThree(e, outer, middle, inner, first);
  }

  lemma {:induction false} WalkOptional(e: Element, outer: Tag, middle: Element, inner: Tag, o: Option<string>)
    requires Select(e.children, outer) == [middle]
    requires Select(middle.children, inner) == Maybe(inner, o)
    requires o != Some("")
    ensures Optional(e, [outer, inner]) == o
  {
    FindTwo(e, outer, inner);
  }

  /** An optional field that has an element of its own around it. */
  lemma {:induction false} WalkWrapped(e: Element, outer: Tag, middle: Element, inner: Tag, o: Option<string>)
    requires Select(e.children, outer) == if o.Some? then [middle] else []
    requires o.Some? ==> Select(middle.children, inner) == [Leaf(inner, o.value)]
    requires o != Some("")
    ensures Optional(e, [outer, inner]) == o
  {
    FindTwo(e, outer, inner);
  }

  // ---------------------------------------------------------------- parties

  lemma {:induction false} PartyCovers(p: Party)
    ensures Covers(PARTY_ORDER, t => PartyPart(p, t))
  {
  }

  lemma {:induction false} PartyHomogeneous(p: Party)
    ensures Homogeneous(t => PartyPart(p, t))
  {
  }

  lemma {:induction false} PartySelect(p: Party, tag: Tag)
    ensures Select(PartyElement(p).children, tag) == PartyPart(p, tag)
  {
    var part := t => PartyPart(p, t);
    PartyCovers(p);
    PartyHomogeneous(p);
    assert Distinct(PARTY_ORDER);
    SelectAssembled(PARTY_ORDER, part, tag);
  }

  lemma {:induction false} PartyNode(p: Party, tag: Tag, node: Element)
    requires PartyPart(p, tag) == [node]
    ensures Select(PartyElement(p).children, tag) == [node]
  {
    PartySelect(p, tag);
  }

  lemma {:induction false} AddressSelect(p: Party, tag: Tag)
    ensures Select(AddressElement(p).children, tag) == AddressPart(p, tag)
  {
    SelectAssembled(ADDRESS_ORDER, t => AddressPart(p, t), tag);
  }

  lemma {:induction false} AddressField(p: Party, tag: Tag, leaf: Element)
    requires AddressPart(p, tag) == [leaf]
    ensures Find(PartyElement(p), [CacPostalAddress, tag]) == Some(leaf)
  {
    PartyNode(p, CacPostalAddress, AddressElement(p));
    AddressSelect(p, tag);
    Walk(PartyElement(p), CacPostalAddress, AddressElement(p), tag, leaf);
  }

  lemma {:induction false} CountryField(p: Party, country: Element, leaf: Element)
    requires AddressPart(p, CacCountry) == [country] && Select(country.children, CbcIdentificationCode) == [leaf]
    ensures Find(PartyElement(p), [CacPostalAddress, CacCountry, CbcIdentificationCode]) == Some(leaf)
  {
    PartyNode(p, CacPostalAddress, AddressElement(p));
    AddressSelect(p, CacCountry);
    WalkThree(PartyElement(p), CacPostalAddress, AddressElement(p), CacCountry, country, CbcIdentificationCode, leaf);
  }

  lemma {:induction false} LegalSelect(p: Party, tag: Tag)
    ensures Select(LegalElement(p).children, tag) == LegalPart(p, tag)
  {
    SelectAssembled(LEGAL_ORDER, t => LegalPart(p, t), tag);
  }

  lemma {:induction false} LegalField(p: Party, tag: Tag, leaf: Element)
    requires LegalPart(p, tag) == [leaf]
    ensures Find(PartyElement(p), [CacPartyLegalEntity, tag]) == Some(leaf)
  {
    PartyNode(p, CacPartyLegalEntity, LegalElement(p));
    LegalSelect(p, tag);
    Walk(PartyElement(p), CacPartyLegalEntity, LegalElement(p), tag, leaf);
  }

  lemma {:induction false} LegalOptional(p: Party, tag: Tag, o: Option<string>)
    requires LegalPart(p, tag) == Maybe(tag, o) && o != Some("")
    ensures Optional(PartyElement(p), [CacPartyLegalEntity, tag]) == o
  {
    PartyNode(p, CacPartyLegalEntity, LegalElement(p));
    LegalSelect(p, tag);
    WalkOptional(PartyElement(p), CacPartyLegalEntity, LegalElement(p), tag, o);
  }

  lemma {:induction false} ContactSelect(p: Party, tag: Tag)
    ensures Select(ContactElement(p).children, tag) == ContactPart(p, tag)
  {
    SelectAssembled(CONTACT_ORDER, t => ContactPart(p, t), tag);
  }

  predicate HasContact(p: Party) {
    Truthy(p.contactName) || Truthy(p.contactPhone) || Truthy(p.contactEmail)
  }

  lemma {:induction false} ContactPresent(p: Party, tag: Tag, o: Option<string>)
    requires HasContact(p)
    requires ContactPart(p, tag) == Maybe(tag, o) && o != Some("")
    ensures Optional(PartyElement(p), [CacContact, tag]) == o
  {
    PartyNode(p, CacContact, ContactElement(p));
    ContactSelect(p, tag);
    WalkOptional(PartyElement(p), CacContact, ContactElement(p), tag, o);
  }

  lemma {:induction false} ContactAbsent(p: Party, tag: Tag)
    requires !HasContact(p)
    ensures Optional(PartyElement(p), [CacContact, tag]) == None
  {
    PartySelect(p, CacContact);
    FindTwo(PartyElement(p), CacContact, tag);
  }

  lemma {:induction false} ContactOptional(p: Party, tag: Tag, o: Option<string>)
    requires p.contactName != Some("") && p.contactPhone != Some("") && p.contactEmail != Some("")
    requires ContactPart(p, tag) == Maybe(tag, o)
    ensures Optional(PartyElement(p), [CacContact, tag]) == o
  {
    if HasContact(p) {
      ContactPresent(p, tag, o);
    } else {
      ContactAbsent(p, tag);
    }
  }

  lemma {:induction false} EndpointField(p: Party, leaf: Element)
    requires PartyPart(p, CbcEndpointID) == [leaf]
    ensures Find(PartyElement(p), [CbcEndpointID]) == Some(leaf)
  {
    PartyNode(p, CbcEndpointID, leaf);
    FindOne(PartyElement(p), CbcEndpointID);
  }

  /** The three identifiers of a party that are wrapped in an element of their own. */
  lemma {:induction false} WrappedField(p: Party, outer: Tag, inner: Tag, o: Option<string>, middle: Element)
    requires PartyPart(p, outer) == (if o.Some? then [middle] else [])
    requires o.Some? ==> Select(middle.children, inner) == [Leaf(inner, o.value)]
    requires o != Some("")
    ensures Optional(PartyElement(p), [outer, inner]) == o
  {
    PartySelect(p, outer);
    WalkWrapped(PartyElement(p), outer, middle, inner, o);
  }

  /** The text fields of a party that are read back only when they are not all white space. */
  predicate ReadableParty(p: Party) {
    !Blank(p.registrationName) && !Blank(p.street) && !Blank(p.city) && !Blank(p.postalCode)
  }

  lemma {:induction false} PartyRequired(p: Party)
    ensures var e := PartyElement(p);
      && Find(e, [CacPartyLegalEntity, CbcRegistrationName]) == Some(Leaf(CbcRegistrationName, p.registrationName))
      && Find(e, [CacPostalAddress, CbcStreetName]) == Some(Leaf(CbcStreetName, p.street))
      && Find(e, [CacPostalAddress, CbcCityName]) == Some(Leaf(CbcCityName, p.city))
      && Find(e, [CacPostalAddress, CbcPostalZone]) == Some(Leaf(CbcPostalZone, p.postalCode))
  {
    hide PartyElement, Find, Select, Assemble;
    LegalField(p, CbcRegistrationName, Leaf(CbcRegistrationName, p.registrationName));
    AddressField(p, CbcStreetName, Leaf(CbcStreetName, p.street));
    AddressField(p, CbcCityName, Leaf(CbcCityName, p.city));
    AddressField(p, CbcPostalZone, Leaf(CbcPostalZone, p.postalCode));
  }

  lemma {:induction false} PartyCodes(p: Party)
    ensures var e := PartyElement(p);
      && Find(e, [CacPostalAddress, CacCountry, CbcIdentificationCode]) == Some(Leaf(CbcIdentificationCode, p.countryCode))
      && Find(e, [CbcEndpointID]) == Some(Attributed(CbcEndpointID, p.endpoint, SchemeID, p.endpointScheme))
  {
    hide PartyElement, Find, Select, Assemble;
    var code := Leaf(CbcIdentificationCode, p.countryCode);
    SelectSingle(code);
    CountryField(p, Node(CacCountry, [code]), code);
    EndpointField(p, Attributed(CbcEndpointID, p.endpoint, SchemeID, p.endpointScheme));
  }

  /** Optional text is never present and empty, as validation ensures. */
  predicate NoEmptyOptionals(p: Party) {
    && p.tradingName != Some("") && p.taxIdentifier != Some("") && p.legalIdentifier != Some("")
    && p.legalForm != Some("") && p.partyIdentifier != Some("")
    && p.contactName != Some("") && p.contactPhone != Some("") && p.contactEmail != Some("")
  }

  lemma {:induction false} PartyLegal(p: Party)
    requires NoEmptyOptionals(p)
    ensures var e := PartyElement(p);
      && Optional(e, [CacPartyLegalEntity, CbcCompanyID]) == p.legalIdentifier
      && Optional(e, [CacPartyLegalEntity, CbcCompanyLegalForm]) == p.legalForm
  {
    hide PartyElement, Find, Select, Assemble, Maybe;
    LegalOptional(p, CbcCompanyID, p.legalIdentifier);
    LegalOptional(p, CbcCompanyLegalForm, p.legalForm);
  }

  lemma {:induction false} PartyContact(p: Party)
    requires NoEmptyOptionals(p)
    ensures var e := PartyElement(p);
      && Optional(e, [CacContact, CbcName]) == p.contactName
      && Optional(e, [CacContact, CbcTelephone]) == p.contactPhone
      && Optional(e, [CacContact, CbcElectronicMail]) == p.contactEmail
  {
    hide PartyElement, Find, Select, Assemble, Maybe;
    ContactOptional(p, CbcName, p.contactName);
    ContactOptional(p, CbcTelephone, p.contactPhone);
    ContactOptional(p, CbcElectronicMail, p.contactEmail);
  }

  lemma {:induction false} TradingNameField(p: Party)
    requires p.tradingName != Some("")
    ensures Optional(PartyElement(p), [CacPartyName, CbcName]) == p.tradingName
  {
    hide PartyElement, Find, Select, Assemble;
    var leaf := Leaf(CbcName, if p.tradingName.Some? then p.tradingName.value else "");
    SelectSingle(leaf);
    WrappedField(p, CacPartyName, CbcName, p.tradingName, Node(CacPartyName, [leaf]));
  }

  lemma {:induction false} TaxPart(p: Party)
    ensures PartyPart(p, CacPartyTaxScheme) ==
      if p.taxIdentifier.Some? then
        [Node(CacPartyTaxScheme, [Leaf(CbcCompanyID, p.taxIdentifier.value), Node(CacTaxScheme, [Leaf(CbcID, "VAT")])])]
      else []
  {
    hide AddressElement, LegalElement, ContactElement;
  }

  lemma {:induction false} TaxIdentifierField(p: Party)
    requires p.taxIdentifier != Some("")
    ensures Optional(PartyElement(p), [CacPartyTaxScheme, CbcCompanyID]) == p.taxIdentifier
  {
    hide PartyElement, Find, Select, Assemble, PartyPart, Optional;
    TaxPart(p);
    var leaf := Leaf(CbcCompanyID, if p.taxIdentifier.Some? then p.taxIdentifier.value else "");
    var scheme := Node(CacTaxScheme, [Leaf(CbcID, "VAT")]);
    SelectPair(leaf, scheme, CbcCompanyID);
    WrappedField(p, CacPartyTaxScheme, CbcCompanyID, p.taxIdentifier, Node(CacPartyTaxScheme, [leaf, scheme]));
  }

  lemma {:induction false} PartyIdentifierField(p: Party)
    requires p.partyIdentifier != Some("")
    ensures Optional(PartyElement(p), [CacPartyIdentification, CbcID]) == p.partyIdentifier
  {
    hide PartyElement, Find, Select, Assemble;
    var leaf := Leaf(CbcID, if p.partyIdentifier.Some? then p.partyIdentifier.value else "");
    SelectSingle(leaf);
    WrappedField(p, CacPartyIdentification, CbcID, p.partyIdentifier, Node(CacPartyIdentification, [leaf]));
  }

  /** A valid party comes back unchanged exactly when its required text is not blank. */
  lemma {:induction false} PartyReadsBack(p: Party)
    requires ValidParty(p)
    ensures ReadParty(PartyElement(p)) == if ReadableParty(p) then Ok(p) else Err(ModelError)
  {
    hide PartyElement, Find, Select, Assemble;
    PartyRequired(p);
    PartyCodes(p);
    PartyLegal(p);
    PartyContact(p);
    TradingNameField(p);
    TaxIdentifierField(p);
    PartyIdentifierField(p);
  }
}
