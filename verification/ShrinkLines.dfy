/**
 Invoices with several lines: short texts are not enough. Where the removal of one line leaves
 what the removal of a later one still has to be reduced to, shrinking can end too early.
 */
module ShrinkLines {
  import opened Basics
  import opened Texts
  import opened Decimals
  import opened Invoices
  import opened Trees
  import opened Json
  import opened Serialize
  import opened Totals
  import opened Fingerprint
  import opened Reductions
  import opened Enumerate
  import opened OneStepReductions
  import opened Measure
  import opened ShrinkTotal
  import opened ShrinkGreedy
  import opened ShrinkSkips
  import opened ShrinkParts
  import opened ShrinkShort
  import opened ShrinkLineTexts
  import opened ShrinkExample

  /** The invoice without its i-th line. */
  function Without(inv: Invoice, i: nat): (r: Invoice)
    requires i < |inv.lines|
  {
    inv.(lines := inv.lines[..i] + inv.lines[i + 1..])
  }

  // ---------------------------------------------------------------- removals in a frontier

  lemma {:induction false} SameRate(a: Line, b: Line, c: Line)
    requires ValidLine(a) && ValidLine(b) && ValidLine(c)
    requires SameNumber(a.vatRate, b.vatRate) && SameNumber(a.vatRate, c.vatRate)
    ensures SameNumber(b.vatRate, c.vatRate)
  {
    hide ValidText, SameNumber;
    SameNumberMicros(a.vatRate, b.vatRate);
    SameNumberMicros(a.vatRate, c.vatRate);
    SameNumberMicros(b.vatRate, c.vatRate);
  }

  lemma {:induction false} WithoutIsValid(inv: Invoice, i: nat)
    requires ValidInvoice(inv) && i < |inv.lines| && |inv.lines| > 1
    ensures ValidInvoice(Without(inv, i)) && |Without(inv, i).lines| == |inv.lines| - 1
  {
    hide ValidText, ValidParty, ValidLine, SameNumber;
    var lines, rest := inv.lines, Without(inv, i).lines;
    forall k | 0 <= k < |rest| ensures ValidLine(rest[k]) && SameNumber(rest[0].vatRate, rest[k].vatRate) {
      assert rest[k] == lines[if k < i then k else k + 1];
      assert rest[0] == lines[if 0 < i then 0 else 1];
      SameRate(lines[0], rest[0], rest[k]);
    }
    forall k, l | 0 <= k < l < |rest| ensures rest[k].identifier != rest[l].identifier {
      assert rest[k] == lines[if k < i then k else k + 1] && rest[l] == lines[if l < i then l else l + 1];
    }
  }

  lemma {:induction false} OthersKeepCount(inv: Invoice, op: Operation)
    requires Enabled(inv, op) && !op.RemoveLine?
    ensures |Apply(inv, op).lines| == |inv.lines|
  {
    hide TextEnabled, NumberEnabled, PartyOptionalOf, PartyTextOf, WithoutPartyOptional, WithPartyText, ReduceText, Reduced;
  }

  /** Removing another line leaves other identifiers. */
  lemma {:induction false} RemovalsDiffer(inv: Invoice, a: nat, b: nat)
    requires ValidInvoice(inv) && a < b < |inv.lines|
    ensures !SameInvoice(Without(inv, a), Without(inv, b)) && !SameInvoice(Without(inv, b), Without(inv, a))
  {
    hide ValidHeader, ValidParty, ValidLine, SameNumber;
    assert Without(inv, a).lines[a] == inv.lines[a + 1] && Without(inv, b).lines[a] == inv.lines[a];
    assert !SameLine(inv.lines[a], inv.lines[a + 1]) && !SameLine(inv.lines[a + 1], inv.lines[a]);
  }

  /** The frontier removes every line. */
  lemma {:induction false} RemovalListed(inv: Invoice, b: nat) returns (i: nat)
    requires ValidInvoice(inv) && b < |inv.lines| && |inv.lines| > 1
    ensures LeadsTo(inv, i, Without(inv, b)) && OneStep(inv)[i].operation == RemoveLine(b)
  {
    hide ValidInvoice, OneStep, SameInvoice, TextEnabled, NumberEnabled, InvoiceMeasure;
    WithoutIsValid(inv, b);
    var op := RemoveLine(b);
    assert Enabled(inv, op) && Apply(inv, op) == Without(inv, b);
    OneStepComplete(inv, op);
    var r :| r in OneStep(inv) && SameInvoice(r.invoice, Apply(inv, op));
    i :| i < |OneStep(inv)| && OneStep(inv)[i] == r;
    OneStepSound(inv, r);
    SameCount(r.invoice, Without(inv, b));
    if !r.operation.RemoveLine? {
      OthersKeepCount(inv, r.operation);
    }
    var c := r.operation.index;
    if c < b {
      RemovalsDiffer(inv, c, b);
    } else if b < c {
      RemovalsDiffer(inv, b, c);
    }
  }

  lemma {:induction false} SameCount(a: Invoice, b: Invoice)
    requires SameInvoice(a, b)
    ensures |a.lines| == |b.lines|
  {
  }

  // ---------------------------------------------------------------- later lines are removed first

  function RemovalKey(): (key: Key) {
    (op: Operation) => if op.RemoveLine? then Some(0 - op.index as int) else None
  }

  lemma {:induction false} OthersRemoveNothing(inv: Invoice)
    ensures NoneHas(HeaderOps(inv), RemovalKey()) && NoneHas(AllLineOps(inv.lines), RemovalKey())
    ensures NoneHas(PartyOps(inv.seller, Seller), RemovalKey()) && NoneHas(PartyOps(inv.buyer, Buyer), RemovalKey())
    ensures NoneHas(Flatten(Map(INVOICE_TEXTS, f => InvoiceTextOps(inv, f))), RemovalKey())
  {
    hide PartyOps, AllLineOps, Flatten, Map, InvoiceTextOps, TextEnabled, LineEnabled;
    var sections: seq<seq<Operation>> := [PartyOps(inv.seller, Seller), PartyOps(inv.buyer, Buyer),
      Flatten(Map(INVOICE_TEXTS, f => InvoiceTextOps(inv, f))), AllLineOps(inv.lines)];
    forall n, k | 0 <= n < 4 && 0 <= k < |sections[n]| ensures !sections[n][k].RemoveLine? {
      var op := sections[n][k];
      assert op in sections[n];
      PartyOpsExact(inv.seller, Seller, op);
      PartyOpsExact(inv.buyer, Buyer, op);
      InvoiceTextOpsExact(inv, op);
      LineOpsNeverHeader(inv, op);
    }
    assert sections[0] == PartyOps(inv.seller, Seller) && sections[1] == PartyOps(inv.buyer, Buyer);
    assert sections[2] == Flatten(Map(INVOICE_TEXTS, f => InvoiceTextOps(inv, f))) && sections[3] == AllLineOps(inv.lines);
  }

  lemma {:induction false} OperationsFall(inv: Invoice)
    ensures AscendingOps(Operations(inv), RemovalKey())
  {
    hide HeaderOps, PartyOps, AllLineOps, Flatten, Map, InvoiceTextOps, NoneHas, AscendingOps, RemovalKey;
    OthersRemoveNothing(inv);
    var header, removals := HeaderOps(inv), RemovalOps(inv.lines);
    var seller, buyer := PartyOps(inv.seller, Seller), PartyOps(inv.buyer, Buyer);
    var texts, lines := Flatten(Map(INVOICE_TEXTS, f => InvoiceTextOps(inv, f))), AllLineOps(inv.lines);
    NoneBoth(seller, buyer, RemovalKey());
    NoneBoth(seller + buyer, texts, RemovalKey());
    NoneBoth(seller + buyer + texts, lines, RemovalKey());
    RemovalsFall(inv.lines);
    AscendingBetween(header, removals, seller + buyer + texts + lines, RemovalKey());
    assert Operations(inv) == header + removals + (seller + buyer + texts + lines);
  }

  lemma {:induction false} RemovalsFall(lines: seq<Line>)
    ensures AscendingOps(RemovalOps(lines), RemovalKey())
  {
  }

  /** A later line is removed before an earlier one. */
  lemma {:induction false} LaterFirst(inv: Invoice, i: nat, j: nat)
    requires i < |OneStep(inv)| && j < |OneStep(inv)| && OneStep(inv)[i].operation.RemoveLine? && OneStep(inv)[j].operation.RemoveLine?
    requires OneStep(inv)[j].operation.index < OneStep(inv)[i].operation.index
    ensures i < j
  {
    hide OneStep, Operations;
    OperationsFall(inv);
    FrontierAscends(inv, RemovalKey());
    assert RemovalKey()(OneStep(inv)[i].operation).Some? && RemovalKey()(OneStep(inv)[j].operation).Some?;
  }

  // ---------------------------------------------------------------- the skip

  /**
   If the invoice without line b can be reduced in one step to the invoice without an earlier line
   a, some oracles lead to a result that is not 1-minimal, however short the texts are: line b is
   removed first, and what removes line a is deferred for ever.
   */
  lemma {:induction false} LinesSkip(inv: Invoice, a: nat, b: nat, y: Element)
    requires ValidInvoice(inv) && Modest(inv) && a < b < |inv.lines|
    requires IsDoc(Without(inv, a), y) && Offers(Without(inv, b), y)
    ensures !AlwaysMinimal(inv)
  {
    hide ValidInvoice, Modest, OneStep, SerializeInvoice, FrontierWritten, SkipFrom, AlwaysMinimal;
    var i := RemovalListed(inv, b);
    var j := RemovalListed(inv, a);
    LaterFirst(inv, i, j);
    var q := Without(inv, b);
    ModestFrontier(inv, i, q);
    ModestIsWritten(inv);
    var n: nat :| OffersAt(q, n, y);
    ModestFrontier(q, n, OneStep(q)[n].invoice);
    ShortSkip(inv, q, i, j, n, y);
    AlwaysMinimalUnlessSkip(inv);
  }

  /**
   What is needed for any number of lines: short texts everywhere, but for identifiers whose half or
   A names another line, and no line that an earlier one can be reduced to in one step.
   */
  lemma {:induction false} MinimalNeeds(inv: Invoice)
    requires ValidInvoice(inv) && Modest(inv) && AlwaysMinimal(inv)
    ensures forall field :: Located(inv, field) ==> IsMail(inv, field) || |FieldText(inv, field)| <= 2
    ensures forall k: nat, f :: k < |inv.lines| ==> TextFits(inv, k, f)
    ensures forall a: nat, b: nat, y :: a < b < |inv.lines| && IsDoc(Without(inv, a), y) ==> !Offers(Without(inv, b), y)
  {
    hide ValidInvoice, Modest, AlwaysMinimal, FieldText, IsMail, Without, IsDoc, Offers, SkipFrom, TextFits;
    AlwaysMinimalUnlessSkip(inv);
    forall field | Located(inv, field) ensures IsMail(inv, field) || |FieldText(inv, field)| <= 2 {
      if !IsMail(inv, field) && |FieldText(inv, field)| >= 3 {
        var path, y := LongTextSkips(inv, field);
      }
    }
    forall k: nat, f | k < |inv.lines| ensures TextFits(inv, k, f) {
      NeedsFit(inv, k, f);
    }
    forall a: nat, b: nat, y | a < b < |inv.lines| && IsDoc(Without(inv, a), y) ensures !Offers(Without(inv, b), y) {
      if Offers(Without(inv, b), y) {
        LinesSkip(inv, a, b, y);
      }
    }
  }

  /** The text is short, or an identifier that cannot be reduced to its half or to A. */
  predicate TextFits(inv: Invoice, k: nat, f: LineText)
    requires k < |inv.lines|
  {
    var s := TextAt(inv, k, f);
    |s| <= 2 || !Free(inv, k, f, ReduceText(s, KeepPrefixHalf)) || !Free(inv, k, f, "A")
  }

  lemma {:induction false} NeedsFit(inv: Invoice, k: nat, f: LineText)
    requires ValidInvoice(inv) && Modest(inv) && AlwaysMinimal(inv) && k < |inv.lines|
    ensures TextFits(inv, k, f)
  {
    hide ValidInvoice, Modest, AlwaysMinimal, SkipFrom, TextAt, Free, ReduceText;
    if !TextFits(inv, k, f) {
      var path, y := LineTextSkips(inv, k, f);
      AlwaysMinimalUnlessSkip(inv);
    }
  }

  // ---------------------------------------------------------------- two lines

  /** Two lines that differ only in their identifiers, 2A and 2. */
  const TWO_LINES: Invoice := WithTerms("5").(lines := [BARE_LINE.(identifier := "2A"), BARE_LINE.(identifier := "2")])

  lemma {:induction false} TwoLinesValid()
    ensures ValidInvoice(TWO_LINES) && Modest(TWO_LINES)
  {
    hide ValidText, ValidParty, SameNumber, TotalsFit;
    ShortText("5");
    WithTermsWritable("5");
    BareLine();
    ShortText("2A");
    ShortText("2");
    OneIsValid();
    SameNumberReflexive(ONE);
    assert |"2A"| != |"2"|;
  }

  lemma {:induction false} EachIsShort(identifier: string)
    requires |identifier| <= 2
    ensures ShortTexts(WithTerms("5").(lines := [BARE_LINE.(identifier := identifier)]))
  {
  }

  lemma {:induction false} KeepsHalf()
    ensures ReduceText("2A", KeepPrefixHalf) == "2" && TextEnabled("2A", KeepPrefixHalf)
  {
    var s := "2A";
    assert s[..1] == "2" && |s| == 2;
    assert Rank(KeepPrefixHalf) == 0 && TEXT_OPS[0] == KeepPrefixHalf;
  }

  /** Each of the two lines alone is always shrunk to the end; together they are not. */
  lemma {:induction false} TwoLinesNotMinimal()
    ensures ValidInvoice(TWO_LINES) && Modest(TWO_LINES)
    ensures ShortTexts(Without(TWO_LINES, 0)) && ShortTexts(Without(TWO_LINES, 1))
    ensures AlwaysMinimal(Without(TWO_LINES, 0)) && AlwaysMinimal(Without(TWO_LINES, 1))
    ensures !AlwaysMinimal(TWO_LINES)
  {
    hide ValidInvoice, Modest, OneStep, SerializeInvoice, AlwaysMinimal, ShortTexts, TextEnabled, ReduceText;
    TwoLinesValid();
    var one, two := Without(TWO_LINES, 1), Without(TWO_LINES, 0);
    assert one == WithTerms("5").(lines := [BARE_LINE.(identifier := "2A")]);
    assert two == WithTerms("5").(lines := [BARE_LINE.(identifier := "2")]);
    EachIsShort("2A");
    EachIsShort("2");
    ShortIsMinimal(one);
    ShortIsMinimal(two);
    WithoutIsValid(TWO_LINES, 0);
    WithoutIsValid(TWO_LINES, 1);
    KeepsHalf();
    var n := TextListed(one, OfLine(IdentifierText), KeepPrefixHalf);
    assert WithField(one, OfLine(IdentifierText), "2") == two;
    var i := RemovalListed(TWO_LINES, 0);
    ModestFrontier(TWO_LINES, i, two);
    var y := SerializeInvoice(two).value;
    assert OffersAt(one, n, y);
    LinesSkip(TWO_LINES, 0, 1, y);
  }
}
