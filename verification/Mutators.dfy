/** The named invoice mutators, and why a mutation of a suitable invoice never fails. */
module Mutators {
  import opened Basics
  import opened Digits
  import opened Texts
  import opened Decimals
  import opened Calendar
  import opened Invoices
  import opened Totals
  import opened PartyRoundTrip
  import opened LineRoundTrip
  import opened InvoiceRoundTrip

  datatype Mutator =
    | InvoiceId
    | BuyerReference
    | InvoiceNoteUnicode
    | SellerEndpoint
    | BuyerEndpoint
    | SellerName
    | BuyerName
    | PaymentTerms
    | LineOrder
    | LineDescription
    | LineIdentifier
    | QuantityScale
    | PriceScale
    | VatRate
    | LineNote
    | SellerIdentifier
    | AddressVariant
    | AddLine
    | RemoveOptionals
    | DueDate

  const NINETEEN := Dec(false, 19, 0)
  const SEVEN := Dec(false, 7, 0)

  function ReplaceFirst(lines: seq<Line>, line: Line): (r: seq<Line>)
    requires |lines| >= 1
  {
    [line] + lines[1..]
  }

  function Reversed(lines: seq<Line>): (r: seq<Line>) {
    seq(|lines|, i requires 0 <= i < |lines| => lines[|lines| - 1 - i])
  }

  function WithRate(lines: seq<Line>, rate: Dec): (r: seq<Line>) {
    seq(|lines|, i requires 0 <= i < |lines| => lines[i].(vatRate := rate))
  }

  function Bare(line: Line): (r: Line) {
    line.(note := None, description := None, periodStart := None, periodEnd := None,
      orderLineIdentifier := None, sellerItemIdentifier := None, classificationCode := None, classificationList := None)
  }

  /** The line that add-line appends. */
  function AddedLine(line: Line, token: nat): (r: Line) {
    Bare(line).(identifier := "ZUSATZ-" + Padded(token, 8), quantity := ONE, price := Dec(false, 100, -2),
      name := "Zusatzposition " + NatText(token))
  }

  /** Decimal(token % 7 + 2) / Decimal(4). */
  function ScaledQuantity(token: nat): (d: Dec) {
    Normalize(Dec(false, 25 * (token % 7 + 2), -2))
  }

  function ScaledPrice(token: nat): (d: Dec) {
    Dec(false, token % 997 + 101, -2)
  }

  /** The mutators that replace header fields. */
  function MutatedHeader(inv: Invoice, m: Mutator, token: nat): (r: Invoice) {
    match m
    case InvoiceId => inv.(identifier := "RP-" + Padded(token, 8))
    case BuyerReference => inv.(buyerReference := "LEITWEG-ID-" + Padded(token, 8))
    case InvoiceNoteUnicode =>
      inv.(note := Some("Pr\U{FC}fung \U{2116} " + NatText(token) + " \U{2013} g\U{FC}ltige Unicode-Zeichen"))
    case PaymentTerms => inv.(paymentTerms := "Zahlbar innerhalb von " + NatText(token % 28 + 1) + " Tagen.")
    case _ => inv
  }

  /** The mutators that change a party. */
  function MutatedParty(inv: Invoice, m: Mutator, token: nat): (r: Invoice) {
    match m
    case SellerEndpoint => inv.(seller := inv.seller.(endpoint := "seller-" + NatText(token) + "@example.invalid"))
    case BuyerEndpoint => inv.(buyer := inv.buyer.(endpoint := "buyer-" + NatText(token) + "@example.invalid"))
    case SellerName =>
      inv.(seller := inv.seller.(tradingName := Some("Musterlieferant " + NatText(token)),
        registrationName := "Musterlieferant GmbH " + NatText(token)))
    case BuyerName => inv.(buyer := inv.buyer.(registrationName := "Musterkunde " + NatText(token)))
    case SellerIdentifier => inv.(seller := inv.seller.(partyIdentifier := Some("DE-RP-" + Padded(token, 8))))
    case AddressVariant =>
      inv.(seller := inv.seller.(street := "Pr\U{FC}fstra\U{DF}e " + NatText(token % 200 + 1), city := "K\U{F6}ln", postalCode := "50667"))
    case _ => inv
  }

  /** The mutators that change the first line without renaming it. */
  function MutatedFirst(first: Line, m: Mutator, token: nat): (r: Line) {
    match m
    case LineDescription => first.(description := Some("Leistung \U{2013} Variante " + NatText(token)))
    case QuantityScale => first.(quantity := ScaledQuantity(token))
    case PriceScale => first.(price := ScaledPrice(token))
    case LineNote => first.(note := Some("Hinweis zur Position " + NatText(token)))
    case RemoveOptionals => Bare(first)
    case _ => first
  }

  /** The mutators that change the lines. */
  function MutatedLines(lines: seq<Line>, m: Mutator, token: nat): (r: seq<Line>)
    requires |lines| >= 1
  {
    var first := lines[0];
    match m
    case LineOrder => Reversed(lines)
    case LineIdentifier => ReplaceFirst(lines, first.(identifier := "POSITION-" + Padded(token, 8)))
    case VatRate => WithRate(lines, if SameNumber(first.vatRate, NINETEEN) then SEVEN else NINETEEN)
    case AddLine => lines + [AddedLine(first, token)]
    case _ => ReplaceFirst(lines, MutatedFirst(first, m, token))
  }

  predicate ChangesLines(m: Mutator) {
    m in {LineOrder, LineDescription, LineIdentifier, QuantityScale, PriceScale, VatRate, LineNote, AddLine, RemoveOptionals}
  }

  predicate ChangesParty(m: Mutator) {
    m in {SellerEndpoint, BuyerEndpoint, SellerName, BuyerName, SellerIdentifier, AddressVariant}
  }

  /** The mutator by itself; None is the OverflowError of a due date past the year 9999. */
  function Mutated(inv: Invoice, m: Mutator, token: nat): (r: Option<Invoice>)
    requires |inv.lines| >= 1 && ValidDate(inv.issueDate)
  {
    if m.DueDate? then
      var due := AddDays(inv.issueDate, token % 28 + 1);
      if due.Some? then Some(inv.(paymentDueDate := due)) else None
    else if m.RemoveOptionals? then Some(inv.(note := None, lines := MutatedLines(inv.lines, m, token)))
    else if ChangesLines(m) then Some(inv.(lines := MutatedLines(inv.lines, m, token)))
    else if ChangesParty(m) then Some(MutatedParty(inv, m, token))
    else Some(MutatedHeader(inv, m, token))
  }

  /** mutate: the invoice is validated before and after. */
  function Mutate(inv: Invoice, m: Mutator, token: nat): (r: Option<Invoice>) {
    if !ValidInvoice(inv) then None
    else
      var mutated := Mutated(inv, m, token);
      if mutated.Some? && ValidInvoice(mutated.value) then mutated else None
  }

  // ---------------------------------------------------------------- texts

  /** Tokens have at most thirty digits: the largest is below 2^95. */
  predicate SmallToken(token: nat) {
    token < Pow10(30)
  }

  predicate NoControls(s: string) {
    forall i :: 0 <= i < |s| ==> !IsControl(s[i])
  }

  /** Acceptable as a required text, also to the parser. */
  predicate Fine(s: string, limit: nat) {
    ValidText(s, limit) && !Blank(s)
  }

  lemma {:induction false} LabelFine(prefix: string, digits: string, suffix: string, limit: nat)
    requires NoControls(prefix) && NoControls(suffix) && AllDigits(digits) && digits != ""
    requires |prefix| + |digits| + |suffix| <= limit
    ensures Fine(prefix + digits + suffix, limit)
    ensures Fine(prefix + digits, limit)
  {
    var s := prefix + digits + suffix;
    assert s[|prefix|] == digits[0] && (prefix + digits)[|prefix|] == digits[0];
    assert IsDigit(digits[0]) && !IsSpace(digits[0]);
  }

  lemma {:induction false} TokenTexts(token: nat)
    requires SmallToken(token)
    ensures |NatText(token)| <= 30 && |Padded(token, 8)| <= 30
    ensures NatText(token) != "" && Padded(token, 8) != ""
    ensures AllDigits(NatText(token)) && AllDigits(Padded(token, 8))
  {
    hide NatText, Pow10;
    NatTextLength(token, 30);
  }

  lemma {:induction false} SmallNumber(n: nat)
    requires n < 1_000_000_000
    ensures SmallToken(n)
  {
    assert Pow10(9) == 1_000_000_000;
    Pow10Add(9, 21);
    Grow(Pow10(9), Pow10(21));
  }

  lemma {:induction false} Grow(a: nat, b: nat)
    requires b >= 1
    ensures a <= a * b
  {
  }

  // ---------------------------------------------------------------- what generation needs of an invoice

  predicate NoneStarts(lines: seq<Line>, prefix: string) {
    forall i :: 0 <= i < |lines| ==> !(prefix <= lines[i].identifier)
  }

  predicate Modest(lines: seq<Line>) {
    forall i :: 0 <= i < |lines| ==> InBounds(lines[i].vatRate) && Micros(lines[i].vatRate) <= MODEST_RATE
  }

  predicate LinesReady(lines: seq<Line>, used: set<Mutator>) {
    && ValidLines(lines) && ReadableLines(lines)
    && (LineIdentifier !in used ==> NoneStarts(lines, "POSITION-"))
    && (AddLine !in used ==> NoneStarts(lines, "ZUSATZ-") && |lines| < 100)
  }

  predicate PartiesReady(inv: Invoice) {
    ValidParty(inv.seller) && ValidParty(inv.buyer) && ReadableParty(inv.seller) && ReadableParty(inv.buyer)
  }

  predicate HeaderReady(inv: Invoice) {
    ValidHeader(inv) && ReadableHeader(inv)
  }

  predicate DateReady(issued: Date, used: set<Mutator>) {
    DueDate !in used && ValidDate(issued) ==> AddDays(issued, 28).Some?
  }

  /** The invoice can take every mutator that was not used yet. */
  predicate Ready(inv: Invoice, used: set<Mutator>) {
    HeaderReady(inv) && DateReady(inv.issueDate, used) && PartiesReady(inv) && LinesReady(inv.lines, used)
  }

  lemma {:induction false} ReadyIsValid(inv: Invoice, used: set<Mutator>)
    requires Ready(inv, used)
    ensures ValidInvoice(inv) && Readable(inv) && |inv.lines| >= 1 && ValidDate(inv.issueDate)
  {
    hide ValidParty, ReadableParty, ReadableLines, ReadableHeader, AddDays;
  }

  /** Header fields that a mutator sets are fine, the others are as before. */
  predicate HeaderKept(a: Invoice, b: Invoice) {
    && b == a.(identifier := b.identifier, buyerReference := b.buyerReference, note := b.note, paymentTerms := b.paymentTerms)
    && (b.identifier == a.identifier || Fine(b.identifier, 5000))
    && (b.buyerReference == a.buyerReference || Fine(b.buyerReference, 5000))
    && (b.paymentTerms == a.paymentTerms || Fine(b.paymentTerms, 5000))
    && (b.note == a.note || (b.note.Some? && Fine(b.note.value, 5000)))
  }

  lemma {:induction false} KeptHeaderIsReady(a: Invoice, b: Invoice)
    requires HeaderReady(a) && HeaderKept(a, b)
    ensures HeaderReady(b)
  {
    hide ValidText, Blank, AddDays;
  }

  lemma {:induction false} NumbersKept(inv: Invoice, token: nat)
    requires SmallToken(token)
    ensures HeaderKept(inv, MutatedHeader(inv, InvoiceId, token)) && HeaderKept(inv, MutatedHeader(inv, BuyerReference, token))
  {
    hide Padded, NatText, SmallToken, Fine;
    TokenTexts(token);
    LabelFine("RP-", Padded(token, 8), "", 5000);
    LabelFine("LEITWEG-ID-", Padded(token, 8), "", 5000);
  }

  lemma {:induction false} NoteKept(inv: Invoice, token: nat)
    requires SmallToken(token)
    ensures HeaderKept(inv, MutatedHeader(inv, InvoiceNoteUnicode, token))
  {
    hide Padded, NatText, SmallToken, Fine;
    TokenTexts(token);
    LabelFine("Pr\U{FC}fung \U{2116} ", NatText(token), " \U{2013} g\U{FC}ltige Unicode-Zeichen", 5000);
  }

  lemma {:induction false} TermsKept(inv: Invoice, token: nat)
    ensures HeaderKept(inv, MutatedHeader(inv, PaymentTerms, token))
  {
    hide Padded, NatText, SmallToken, Fine;
    SmallNumber(token % 28 + 1);
    TokenTexts(token % 28 + 1);
    LabelFine("Zahlbar innerhalb von ", NatText(token % 28 + 1), " Tagen.", 5000);
  }

  lemma {:induction false} HeaderStays(inv: Invoice, m: Mutator, token: nat)
    requires HeaderReady(inv) && SmallToken(token)
    ensures HeaderReady(MutatedHeader(inv, m, token))
  {
    hide Padded, NatText, SmallToken, HeaderKept, HeaderReady;
    NumbersKept(inv, token);
    NoteKept(inv, token);
    TermsKept(inv, token);
    match m {
      case InvoiceId | BuyerReference | InvoiceNoteUnicode | PaymentTerms => KeptHeaderIsReady(inv, MutatedHeader(inv, m, token));
      case _ =>
    }
  }

  lemma {:induction false} DueDateStays(inv: Invoice, token: nat)
    requires HeaderReady(inv)
    ensures ValidDate(inv.issueDate)
    ensures AddDays(inv.issueDate, token % 28 + 1).Some? ==> HeaderReady(inv.(paymentDueDate := AddDays(inv.issueDate, token % 28 + 1)))
  {
    hide ValidText, Blank;
  }

  lemma {:induction false} DateSuffices(issued: Date, used: set<Mutator>, token: nat)
    requires DateReady(issued, used) && ValidDate(issued) && DueDate !in used
    ensures AddDays(issued, token % 28 + 1).Some?
  {
    AddDaysPrefix(issued, token % 28 + 1, 28);
  }

  /** Fields that a mutator sets are fine, the others are as before. */
  predicate PartyKept(p: Party, q: Party) {
    && q == p.(endpoint := q.endpoint, registrationName := q.registrationName, tradingName := q.tradingName,
         partyIdentifier := q.partyIdentifier, street := q.street, city := q.city, postalCode := q.postalCode)
    && (q.endpoint == p.endpoint || (Fine(q.endpoint, 1000) && '@' in q.endpoint))
    && (q.registrationName == p.registrationName || Fine(q.registrationName, 1000))
    && (q.street == p.street || Fine(q.street, 1000))
    && (q.city == p.city || Fine(q.city, 1000))
    && (q.postalCode == p.postalCode || Fine(q.postalCode, 1000))
    && (q.tradingName == p.tradingName || (q.tradingName.Some? && Fine(q.tradingName.value, 1000)))
    && (q.partyIdentifier == p.partyIdentifier || (q.partyIdentifier.Some? && Fine(q.partyIdentifier.value, 1000)))
  }

  lemma {:induction false} KeptIsReady(p: Party, q: Party)
    requires ValidParty(p) && ReadableParty(p) && PartyKept(p, q)
    ensures ValidParty(q) && ReadableParty(q)
  {
    hide ValidText, Blank, IsLetter;
  }

  lemma {:induction false} BuyerKept(inv: Invoice, m: Mutator, token: nat)
    requires SmallToken(token)
    ensures PartyKept(inv.buyer, MutatedParty(inv, m, token).buyer)
  {
    hide Padded, NatText, SmallToken, Fine;
    TokenTexts(token);
    if m.BuyerEndpoint? {
      EndpointFine("buyer-", NatText(token));
    } else if m.BuyerName? {
      LabelFine("Musterkunde ", NatText(token), "", 1000);
    }
  }

  lemma {:induction false} SellerKept(inv: Invoice, m: Mutator, token: nat)
    requires SmallToken(token)
    ensures PartyKept(inv.seller, MutatedParty(inv, m, token).seller)
  {
    hide Padded, NatText, SmallToken, Fine;
    TokenTexts(token);
    match m {
      case SellerEndpoint => EndpointFine("seller-", NatText(token));
      case SellerName =>
        LabelFine("Musterlieferant ", NatText(token), "", 1000);
        LabelFine("Musterlieferant GmbH ", NatText(token), "", 1000);
      case SellerIdentifier => LabelFine("DE-RP-", Padded(token, 8), "", 1000);
      case AddressVariant => AddressKept(inv, token);
      case _ =>
    }
  }

  lemma {:induction false} AddressKept(inv: Invoice, token: nat)
    ensures PartyKept(inv.seller, MutatedParty(inv, AddressVariant, token).seller)
  {
    hide NatText, SmallToken, Fine;
    SmallNumber(token % 200 + 1);
    TokenTexts(token % 200 + 1);
    LabelFine("Pr\U{FC}fstra\U{DF}e ", NatText(token % 200 + 1), "", 1000);
    AddressFine();
  }

  lemma {:induction false} PartyStays(inv: Invoice, m: Mutator, token: nat)
    requires PartiesReady(inv) && SmallToken(token)
    ensures PartiesReady(MutatedParty(inv, m, token))
  {
    hide SmallToken, PartyKept, ValidParty, ReadableParty, MutatedParty;
    SellerKept(inv, m, token);
    BuyerKept(inv, m, token);
    KeptIsReady(inv.seller, MutatedParty(inv, m, token).seller);
    KeptIsReady(inv.buyer, MutatedParty(inv, m, token).buyer);
  }

  lemma {:induction false} AddressFine()
    ensures Fine("K\U{F6}ln", 1000) && Fine("50667", 1000)
  {
    assert !IsSpace("K\U{F6}ln"[0]) && !IsSpace("50667"[0]);
  }

  lemma {:induction false} EndpointFine(prefix: string, digits: string)
    requires NoControls(prefix) && AllDigits(digits) && digits != "" && |prefix| + |digits| <= 100
    ensures Fine(prefix + digits + "@example.invalid", 1000)
    ensures '@' in prefix + digits + "@example.invalid"
  {
    LabelFine(prefix, digits, "@example.invalid", 1000);
    assert (prefix + digits + "@example.invalid")[|prefix| + |digits|] == '@';
  }

  // ---------------------------------------------------------------- lines

  lemma {:induction false} RateEquivalence(a: Dec, b: Dec, c: Dec)
    requires SameNumber(a, b) && SameNumber(a, c)
    ensures SameNumber(b, c) && SameNumber(a, a)
  {
    hide Normalize;
  }

  lemma {:induction false} FirstReplaced(lines: seq<Line>, line: Line, used: set<Mutator>)
    requires LinesReady(lines, used)
    requires ValidLine(line) && ReadableLine(line) && line.vatRate == lines[0].vatRate && line.identifier == lines[0].identifier
    ensures LinesReady(ReplaceFirst(lines, line), used)
  {
    hide ValidLine, ReadableLine, SameNumber, InBounds, Micros;
    var r := ReplaceFirst(lines, line);
    assert forall i :: 0 <= i < |r| ==> r[i] == if i == 0 then line else lines[i];
  }

  lemma {:induction false} FirstRenamed(lines: seq<Line>, identifier: string, used: set<Mutator>)
    requires LinesReady(lines, used) && LineIdentifier !in used
    requires "POSITION-" <= identifier && Fine(identifier, 1000)
    ensures LinesReady(ReplaceFirst(lines, lines[0].(identifier := identifier)), used + {LineIdentifier})
  {
    hide SameNumber, InBounds, Micros, ValidOptional, ValidPeriod, ValidText, Blank, ValidPositive, ValidNonNegative;
    var r := ReplaceFirst(lines, lines[0].(identifier := identifier));
    assert identifier[0] == 'P' && !("ZUSATZ-" <= identifier);
    assert forall i :: 0 <= i < |r| ==> r[i] == if i == 0 then lines[0].(identifier := identifier) else lines[i];
  }

  lemma {:induction false} ReversedReady(lines: seq<Line>, used: set<Mutator>)
    requires LinesReady(lines, used)
    ensures LinesReady(Reversed(lines), used)
  {
    hide ValidLine, ReadableLine, SameNumber, InBounds, Micros;
    var r := Reversed(lines);
    assert forall i :: 0 <= i < |r| ==> r[i] == lines[|lines| - 1 - i];
    forall i | 0 <= i < |r| ensures SameNumber(r[0].vatRate, r[i].vatRate) {
      RateEquivalence(lines[0].vatRate, r[0].vatRate, r[i].vatRate);
    }
  }

  lemma {:induction false} RateReady(rate: Dec)
    requires rate == NINETEEN || rate == SEVEN
    ensures ValidPositive(rate) && InBounds(rate) && Micros(rate) <= MODEST_RATE && SameNumber(rate, rate)
  {
    assert Pow10(6) == 1_000_000;
  }

  lemma {:induction false} RatedReady(lines: seq<Line>, rate: Dec, used: set<Mutator>)
    requires LinesReady(lines, used) && (rate == NINETEEN || rate == SEVEN)
    ensures LinesReady(WithRate(lines, rate), used)
  {
    hide SameNumber, InBounds, Micros, ValidOptional, ValidPeriod, ValidText, Blank, ValidPositive, ValidNonNegative;
    RateReady(rate);
    var r := WithRate(lines, rate);
    assert forall i :: 0 <= i < |r| ==> r[i] == lines[i].(vatRate := rate);
  }

  lemma {:induction false} AddedReady(lines: seq<Line>, added: Line, used: set<Mutator>)
    requires LinesReady(lines, used) && AddLine !in used
    requires ValidLine(added) && ReadableLine(added) && "ZUSATZ-" <= added.identifier && added.vatRate == lines[0].vatRate
    ensures LinesReady(lines + [added], used + {AddLine})
  {
    hide ValidLine, ReadableLine, SameNumber, InBounds, Micros;
    var r := lines + [added];
    assert added.identifier[0] == 'Z' && !("POSITION-" <= added.identifier);
    assert forall i :: 0 <= i < |r| ==> r[i] == if i < |lines| then lines[i] else added;
  }

  lemma {:induction false} NumbersFine(token: nat)
    ensures ValidPositive(ScaledQuantity(token)) && ValidNonNegative(ScaledPrice(token))
    ensures ValidPositive(ONE) && ValidNonNegative(Dec(false, 100, -2))
    ensures 4 * Micros(ScaledQuantity(token)) == (token % 7 + 2) * 1_000_000
  {
    assert Pow10(4) == 10_000;
    assert Pow10(6) == 1_000_000;
  }

  lemma {:induction false} FirstLineFine(line: Line, m: Mutator, token: nat)
    requires ValidLine(line) && ReadableLine(line) && SmallToken(token)
    ensures var r := MutatedFirst(line, m, token);
      ValidLine(r) && ReadableLine(r) && r.vatRate == line.vatRate && r.identifier == line.identifier
  {
    hide ValidText, Blank, NatText, Padded, InBounds, ScaledQuantity, ScaledPrice, SmallToken;
    TokenTexts(token);
    NumbersFine(token);
    LabelFine("Leistung \U{2013} Variante ", NatText(token), "", 5000);
    LabelFine("Hinweis zur Position ", NatText(token), "", 5000);
  }

  lemma {:induction false} AddedFine(line: Line, token: nat)
    requires ValidLine(line) && ReadableLine(line) && SmallToken(token)
    ensures var r := AddedLine(line, token);
      ValidLine(r) && ReadableLine(r) && "ZUSATZ-" <= r.identifier && r.vatRate == line.vatRate
  {
    hide ValidText, Blank, NatText, Padded, InBounds, SmallToken;
    TokenTexts(token);
    NumbersFine(token);
    LabelFine("ZUSATZ-", Padded(token, 8), "", 1000);
    LabelFine("Zusatzposition ", NatText(token), "", 1000);
  }

  lemma {:induction false} LinesStay(lines: seq<Line>, m: Mutator, token: nat, used: set<Mutator>)
    requires LinesReady(lines, used) && m !in used && SmallToken(token)
    ensures LinesReady(MutatedLines(lines, m, token), used + {m})
  {
    hide ValidLine, ReadableLine, NatText, Padded, SmallToken, ReplaceFirst, Reversed, WithRate, AddedLine, MutatedFirst, SameNumber,
      Fine, ScaledQuantity, ScaledPrice;
    var first := lines[0];
    assert ValidLine(first) && ReadableLine(first);
    match m {
      case LineOrder => ReversedReady(lines, used);
      case LineIdentifier =>
        TokenTexts(token);
        LabelFine("POSITION-", Padded(token, 8), "", 1000);
        FirstRenamed(lines, "POSITION-" + Padded(token, 8), used);
      case VatRate => RatedReady(lines, if SameNumber(first.vatRate, NINETEEN) then SEVEN else NINETEEN, used);
      case AddLine =>
        AddedFine(first, token);
        AddedReady(lines, AddedLine(first, token), used);
      case _ =>
        FirstLineFine(first, m, token);
        FirstReplaced(lines, MutatedFirst(first, m, token), used);
    }
    StillReady(MutatedLines(lines, m, token), used, m);
  }

  lemma {:induction false} StillReady(lines: seq<Line>, used: set<Mutator>, m: Mutator)
    ensures LinesReady(lines, used) ==> LinesReady(lines, used + {m})
  {
    hide ValidLines, ReadableLines, NoneStarts;
  }

  /** Only invoice-id changes the identifier of the invoice. */
  lemma {:induction false} IdentifierAfter(inv: Invoice, m: Mutator, token: nat)
    requires |inv.lines| >= 1 && ValidDate(inv.issueDate) && Mutated(inv, m, token).Some?
    ensures Mutated(inv, m, token).value.identifier == if m.InvoiceId? then "RP-" + Padded(token, 8) else inv.identifier
  {
    hide MutatedLines, NatText, Padded, AddDays;
  }

  /** A ready invoice takes every unused mutator, and stays ready for the others. */
  lemma {:induction false} MutateSucceeds(inv: Invoice, m: Mutator, token: nat, used: set<Mutator>)
    requires Ready(inv, used) && m !in used && SmallToken(token)
    ensures Mutate(inv, m, token).Some? && Ready(Mutate(inv, m, token).value, used + {m})
    ensures Mutate(inv, m, token).value.identifier == if m.InvoiceId? then "RP-" + Padded(token, 8) else inv.identifier
    ensures Modest(inv.lines) ==> Modest(Mutate(inv, m, token).value.lines)
  {
    hide ValidInvoice, HeaderReady, PartiesReady, LinesReady, NatText, Padded, SmallToken, Mutated, MutatedHeader, MutatedParty, MutatedLines,
      Modest, DateReady;
    ReadyIsValid(inv, used);
    StillReady(inv.lines, used, m);
    HeaderStays(inv, m, token);
    PartyStays(inv, m, token);
    DueDateStays(inv, token);
    if m.DueDate? {
      DateSuffices(inv.issueDate, used, token);
    }
    LinesStay(inv.lines, m, token, used);
    NoteRemoved(inv);
    Untouched(inv, m, token, used);
    ReadyIsValid(Mutated(inv, m, token).value, used + {m});
    IdentifierAfter(inv, m, token);
    ModestAfter(inv, m, token);
  }

  lemma {:induction false} ModestAfter(inv: Invoice, m: Mutator, token: nat)
    requires |inv.lines| >= 1 && ValidDate(inv.issueDate) && Mutated(inv, m, token).Some?
    ensures Modest(inv.lines) ==> Modest(Mutated(inv, m, token).value.lines)
  {
    hide NatText, Padded, AddDays, SameNumber, MutatedLines, Modest;
    ModestLines(inv.lines, m, token);
    PartiesFromLines(inv, m, token);
  }

  /** New rates are nineteen and seven percent, the others are rates of the invoice. */
  lemma {:induction false} ModestLines(lines: seq<Line>, m: Mutator, token: nat)
    requires |lines| >= 1
    ensures Modest(lines) ==> Modest(MutatedLines(lines, m, token))
  {
    hide NatText, Padded, InBounds, Micros, SameNumber;
    RateReady(NINETEEN);
    RateReady(SEVEN);
    var r := MutatedLines(lines, m, token);
    forall i | 0 <= i < |r| ensures r[i].vatRate in {NINETEEN, SEVEN} || exists j :: 0 <= j < |lines| && r[i].vatRate == lines[j].vatRate {
      RateFrom(lines, m, token, i);
    }
  }

  lemma {:induction false} RateFrom(lines: seq<Line>, m: Mutator, token: nat, i: nat)
    requires |lines| >= 1 && i < |MutatedLines(lines, m, token)|
    ensures var rate := MutatedLines(lines, m, token)[i].vatRate;
      rate in {NINETEEN, SEVEN} || exists j :: 0 <= j < |lines| && rate == lines[j].vatRate
  {
    hide NatText, Padded, InBounds, Micros, SameNumber;
    var rate := MutatedLines(lines, m, token)[i].vatRate;
    if m.LineOrder? {
      assert rate == lines[|lines| - 1 - i].vatRate;
    } else if m.AddLine? && i == |lines| {
      assert rate == lines[0].vatRate;
    } else if !m.VatRate? {
      assert rate == lines[i].vatRate;
    }
  }

  lemma {:induction false} NoteRemoved(inv: Invoice)
    requires HeaderReady(inv)
    ensures HeaderReady(inv.(note := None))
  {
    hide ValidText, Blank, AddDays;
  }

  /** Each kind of mutator leaves the parts it does not concern as they were. */
  lemma {:induction false} Untouched(inv: Invoice, m: Mutator, token: nat, used: set<Mutator>)
    requires |inv.lines| >= 1 && ValidDate(inv.issueDate)
    requires HeaderReady(inv) && PartiesReady(inv) && LinesReady(inv.lines, used + {m})
    requires HeaderReady(MutatedHeader(inv, m, token)) && PartiesReady(MutatedParty(inv, m, token))
    requires LinesReady(MutatedLines(inv.lines, m, token), used + {m})
    requires DateReady(inv.issueDate, used) && (m.DueDate? ==> AddDays(inv.issueDate, token % 28 + 1).Some?)
    requires m.DueDate? ==> HeaderReady(inv.(paymentDueDate := AddDays(inv.issueDate, token % 28 + 1)))
    requires HeaderReady(inv.(note := None))
    ensures Mutated(inv, m, token).Some? && Ready(Mutated(inv, m, token).value, used + {m})
  {
    hide ValidParty, ValidText, Blank, ReadableParty, AddDays, NatText, Padded, LinesReady, MutatedLines, HeaderReady, PartiesReady;
    PartiesFromLines(inv, m, token);
    var r := Mutated(inv, m, token).value;
    HeaderOnly(inv, r);
    PartiesOnly(inv, r);
  }

  lemma {:induction false} PartiesFromLines(inv: Invoice, m: Mutator, token: nat)
    ensures MutatedHeader(inv, m, token).lines == inv.lines && MutatedParty(inv, m, token).lines == inv.lines
    ensures SameParties(inv, MutatedHeader(inv, m, token)) && SameHeader(inv, MutatedParty(inv, m, token))
  {
    hide NatText, Padded;
    PartyMutatorsKeepHeader(inv, m, token);
  }

  lemma {:induction false} PartyMutatorsKeepHeader(inv: Invoice, m: Mutator, token: nat)
    ensures MutatedParty(inv, m, token).lines == inv.lines && SameHeader(inv, MutatedParty(inv, m, token))
  {
    hide NatText, Padded;
  }

  predicate SameParties(a: Invoice, b: Invoice) {
    a.seller == b.seller && a.buyer == b.buyer
  }

  /** Equal but for the parties and the lines. */
  predicate SameHeader(a: Invoice, b: Invoice) {
    a.(seller := b.seller, buyer := b.buyer, lines := b.lines) == b
  }

  lemma {:induction false} HeaderOnly(a: Invoice, b: Invoice)
    ensures HeaderReady(a) && SameHeader(a, b) ==> HeaderReady(b)
    ensures HeaderReady(a.(note := None)) && SameHeader(a.(note := None), b) ==> HeaderReady(b)
  {
    hide ValidText, ValidOptional, Blank, AddDays;
  }

  lemma {:induction false} PartiesOnly(a: Invoice, b: Invoice)
    ensures PartiesReady(a) && SameParties(a, b) ==> PartiesReady(b)
  {
    hide ValidParty, ReadableParty;
  }

  // ---------------------------------------------------------------- exactly when a mutator fails

  /** What the three mutators that can fail on a valid invoice ask of it. */
  predicate Takes(inv: Invoice, m: Mutator, token: nat) {
    match m
    case DueDate => ValidDate(inv.issueDate) && AddDays(inv.issueDate, token % 28 + 1).Some?
    case LineIdentifier => forall i :: 1 <= i < |inv.lines| ==> inv.lines[i].identifier != "POSITION-" + Padded(token, 8)
    case AddLine => |inv.lines| < 100 && forall i :: 0 <= i < |inv.lines| ==> inv.lines[i].identifier != "ZUSATZ-" + Padded(token, 8)
    case _ => true
  }

  const SELECTIVE: set<Mutator> := {DueDate, LineIdentifier, AddLine}

  lemma {:induction false} ValidIsReady(inv: Invoice)
    requires ValidInvoice(inv) && Readable(inv)
    ensures Ready(inv, SELECTIVE)
  {
    hide ValidHeader, ValidParty, ValidLine, ReadableHeader, ReadableParty, ReadableLine, OneRate;
  }

  lemma {:induction false} DueDateExact(inv: Invoice, token: nat)
    requires Ready(inv, SELECTIVE) && ValidInvoice(inv)
    ensures Mutate(inv, DueDate, token).Some? <==> Takes(inv, DueDate, token)
    ensures Mutate(inv, DueDate, token).Some? ==> Ready(Mutate(inv, DueDate, token).value, SELECTIVE)
  {
    hide HeaderReady, PartiesReady, LinesReady, ValidInvoice, AddDays;
    DueDateStays(inv, token);
    ReadyIsValid(inv, SELECTIVE);
    if Takes(inv, DueDate, token) {
      var next := inv.(paymentDueDate := AddDays(inv.issueDate, token % 28 + 1));
      PartiesOnly(inv, next);
      ReadyIsValid(next, SELECTIVE);
    }
  }

  /** Renaming the first line is valid unless another line has that identifier. */
  lemma {:induction false} RenamedExact(lines: seq<Line>, identifier: string)
    requires LinesReady(lines, SELECTIVE) && Fine(identifier, 1000)
    ensures var r := ReplaceFirst(lines, lines[0].(identifier := identifier));
      && (ValidLines(r) <==> forall i :: 1 <= i < |lines| ==> lines[i].identifier != identifier)
      && (ValidLines(r) ==> LinesReady(r, SELECTIVE))
  {
    hide SameNumber, InBounds, Micros, ValidOptional, ValidPeriod, ValidText, Blank, ValidPositive, ValidNonNegative;
    var r := ReplaceFirst(lines, lines[0].(identifier := identifier));
    assert forall i :: 0 <= i < |r| ==> r[i] == if i == 0 then lines[0].(identifier := identifier) else lines[i];
    if i :| 1 <= i < |lines| && lines[i].identifier == identifier {
      assert r[0].identifier == r[i].identifier;
    }
  }

  /** Appending a line is valid unless there are a hundred, or another one has its identifier. */
  lemma {:induction false} AppendedExact(lines: seq<Line>, added: Line)
    requires LinesReady(lines, SELECTIVE) && ValidLine(added) && ReadableLine(added) && added.vatRate == lines[0].vatRate
    ensures var r := lines + [added];
      && (ValidLines(r) <==> |lines| < 100 && forall i :: 0 <= i < |lines| ==> lines[i].identifier != added.identifier)
      && (ValidLines(r) ==> LinesReady(r, SELECTIVE))
  {
    hide ValidLine, ReadableLine, SameNumber, InBounds, Micros;
    var r := lines + [added];
    assert forall i :: 0 <= i < |r| ==> r[i] == if i < |lines| then lines[i] else added;
    if i :| 0 <= i < |lines| && lines[i].identifier == added.identifier {
      assert r[i].identifier == r[|lines|].identifier;
    }
  }

  lemma {:induction false} LinesOnly(inv: Invoice, lines: seq<Line>)
    requires Ready(inv, SELECTIVE) && ValidInvoice(inv)
    ensures ValidInvoice(inv.(lines := lines)) <==> ValidLines(lines)
    ensures LinesReady(lines, SELECTIVE) ==> Ready(inv.(lines := lines), SELECTIVE)
  {
    hide ValidText, ValidOptional, ValidParty, ValidLines, ReadableLines, Blank, ReadableParty;
  }

  /** When a mutator of lines succeeds is when the mutated lines are valid. */
  lemma {:induction false} LinesDecide(inv: Invoice, m: Mutator, token: nat)
    requires Ready(inv, SELECTIVE) && ValidInvoice(inv) && |inv.lines| >= 1 && m in {LineIdentifier, AddLine}
    requires ValidLines(MutatedLines(inv.lines, m, token)) ==> LinesReady(MutatedLines(inv.lines, m, token), SELECTIVE)
    ensures Mutate(inv, m, token).Some? <==> ValidLines(MutatedLines(inv.lines, m, token))
    ensures Mutate(inv, m, token).Some? ==> Ready(Mutate(inv, m, token).value, SELECTIVE)
  {
    hide Ready, ValidInvoice, LinesReady, ValidLines, MutatedLines;
    ReadyIsValid(inv, SELECTIVE);
    LinesOnly(inv, MutatedLines(inv.lines, m, token));
  }

  lemma {:induction false} RenameDecides(lines: seq<Line>, token: nat)
    requires LinesReady(lines, SELECTIVE) && SmallToken(token)
    ensures var r := MutatedLines(lines, LineIdentifier, token);
      && (ValidLines(r) <==> forall i :: 1 <= i < |lines| ==> lines[i].identifier != "POSITION-" + Padded(token, 8))
      && (ValidLines(r) ==> LinesReady(r, SELECTIVE))
  {
    hide LinesReady, ValidLines, NatText, Padded, SmallToken, Fine, ReplaceFirst;
    TokenTexts(token);
    LabelFine("POSITION-", Padded(token, 8), "", 1000);
    RenamedExact(lines, "POSITION-" + Padded(token, 8));
  }

  lemma {:induction false} AddDecides(lines: seq<Line>, token: nat)
    requires LinesReady(lines, SELECTIVE) && SmallToken(token)
    ensures var r := MutatedLines(lines, AddLine, token);
      && (ValidLines(r) <==> |lines| < 100 && forall i :: 0 <= i < |lines| ==> lines[i].identifier != "ZUSATZ-" + Padded(token, 8))
      && (ValidLines(r) ==> LinesReady(r, SELECTIVE))
  {
    hide LinesReady, ValidLines, NatText, Padded, SmallToken, ValidLine, ReadableLine;
    FirstIsReady(lines);
    AddedFine(lines[0], token);
    AppendedExact(lines, AddedLine(lines[0], token));
  }

  lemma {:induction false} LinesExact(inv: Invoice, m: Mutator, token: nat)
    requires Ready(inv, SELECTIVE) && ValidInvoice(inv) && m in {LineIdentifier, AddLine} && SmallToken(token)
    ensures Mutate(inv, m, token).Some? <==> Takes(inv, m, token)
    ensures Mutate(inv, m, token).Some? ==> Ready(Mutate(inv, m, token).value, SELECTIVE)
  {
    hide HeaderReady, PartiesReady, LinesReady, ValidInvoice, ValidLines, Padded, SmallToken, MutatedLines, Mutate;
    ReadyIsValid(inv, SELECTIVE);
    if m.LineIdentifier? {
      RenameDecides(inv.lines, token);
    } else {
      AddDecides(inv.lines, token);
    }
    LinesDecide(inv, m, token);
  }

  lemma {:induction false} FirstIsReady(lines: seq<Line>)
    requires LinesReady(lines, SELECTIVE)
    ensures |lines| >= 1 && ValidLine(lines[0]) && ReadableLine(lines[0])
  {
    hide ValidLine, ReadableLine, OneRate;
  }

  /**
   A mutator fails on a valid invoice, read from a document, exactly when a due date would lie past
   the year 9999, a renamed or added line would take the identifier of another one, or a line would
   be the hundred-and-first. Otherwise the result is such an invoice again.
   */
  lemma {:induction false} MutateExact(inv: Invoice, m: Mutator, token: nat)
    requires ValidInvoice(inv) && Readable(inv) && SmallToken(token)
    ensures Mutate(inv, m, token).Some? <==> Takes(inv, m, token)
    ensures var next := Mutate(inv, m, token);
      next.Some? ==>
        && ValidInvoice(next.value) && Readable(next.value)
        && next.value.identifier == if m.InvoiceId? then "RP-" + Padded(token, 8) else inv.identifier
  {
    hide ValidInvoice, Readable, Ready, NatText, Padded, SmallToken, Mutated;
    ValidIsReady(inv);
    ReadyIsValid(inv, SELECTIVE);
    if m.DueDate? {
      DueDateExact(inv, token);
    } else if m in {LineIdentifier, AddLine} {
      LinesExact(inv, m, token);
    } else {
      MutateSucceeds(inv, m, token, SELECTIVE);
      ReadyIsValid(Mutate(inv, m, token).value, SELECTIVE + {m});
    }
    if Mutate(inv, m, token).Some? {
      var used := if m in SELECTIVE then SELECTIVE else SELECTIVE + {m};
      ReadyIsValid(Mutate(inv, m, token).value, used);
      IdentifierAfter(inv, m, token);
    }
  }
}
