/** Inputs on which the program does something else than its documentation says. */
module Departures {
  import opened Basics
  import opened Texts
  import opened Digits
  import opened Decimals
  import opened Money
  import opened Rounding
  import opened Invoices
  import opened Totals
  import opened Trees
  import opened Serialize
  import opened InvoiceRoundTrip
  import opened Json
  import opened JsonFields
  import opened Fingerprint
  import opened Documents
  import opened Parse
  import opened Enumerate
  import opened Measure
  import opened Files
  import opened Materialize
  import opened Calendar
  import opened PartyRoundTrip
  import Mutators
  import Schedule
  import Reductions
  import ShrinkParts
  import ShrinkShort
  import ShrinkExample
  import opened Observed
  import opened Shrink
  import opened ShrinkGreedy
  import opened ShrinkExit
  import opened ShrinkTotal
  import opened Corpus
  import opened CampaignFacts
  import opened CampaignOutcome
  import opened CampaignAborts
  import CampaignCapsules
  import CampaignMinimal
  import Packing
  import Provenance
  import Reporting
  import Replay

  // ---------------------------------------------------------------- negative zero

  function Priced(price: Dec): (inv: Invoice) {
    ShrinkExample.WithTerms("t").(lines := [ShrinkExample.BARE_LINE.(price := price)])
  }

  const ZERO := Dec(false, 0, 0)
  const NEGATIVE_ZERO := Dec(true, 0, 0)

  lemma {:induction false} PricedIsWritable(price: Dec)
    requires price == ZERO || price == NEGATIVE_ZERO
    ensures Writable(Priced(price)) && ValidNonNegative(price)
  {
    hide ValidText, ValidParty, TotalsFit, ValidHeader;
    var plain := ShrinkExample.WithTerms("t");
    assert ShrinkExample.PlainTerms("t");
    ShrinkExample.WithTermsWritable("t");
    ShrinkExample.BareLine();
    ShrinkExample.OneIsValid();
    assert ValidHeader(Priced(price)) by { HeaderIgnores(plain, price); }
    var line := ShrinkExample.BARE_LINE.(price := price);
    assert Micros(price) == 0;
    assert ValidLine(line);
    SameNumberReflexive(ONE);
    ModestRatesFit([line]);
  }

  lemma {:induction false} HeaderIgnores(inv: Invoice, price: Dec)
    requires ValidHeader(inv) && inv == ShrinkExample.WithTerms("t")
    ensures ValidHeader(Priced(price))
  {
    hide ValidText;
  }

  /** Prices 0 and -0: the fingerprints are equal and the documents are not. */
  lemma {:induction false} NegativeZeroPrice()
    ensures Writable(Priced(ZERO)) && Writable(Priced(NEGATIVE_ZERO))
    ensures Payload(Priced(ZERO)) == Payload(Priced(NEGATIVE_ZERO))
    ensures SerializeInvoice(Priced(ZERO)) != SerializeInvoice(Priced(NEGATIVE_ZERO))
  {
    hide Writable, Payload, SerializeInvoice, ValidInvoice;
    PricedIsWritable(ZERO);
    PricedIsWritable(NEGATIVE_ZERO);
    var a, b := Priced(ZERO), Priced(NEGATIVE_ZERO);
    assert ValidInvoice(a) && ValidInvoice(b) by {
      ShrinkExample.WritableIsValid(a);
      ShrinkExample.WritableIsValid(b);
    }
    SameNumberMicros(ZERO, NEGATIVE_ZERO);
    SameNumberReflexive(ONE);
    assert SameLine(a.lines[0], b.lines[0]);
    FingerprintsAgree(a, b);
    DocumentsAndFingerprints(a, b);
    assert a.lines[0].price.negative != b.lines[0].price.negative;
  }

  // ---------------------------------------------------------------- double rounding

  /** 999999999.999999 pieces at 999995000.000001. */
  const PIECES := Dec(false, 999_999_999_999_999, -6)
  const PIECE_PRICE := Dec(false, 999_995_000_000_001, -6)

  /**
   The exact amount is 999995000000000000.004999999999, which is nearest to ….00; the context
   rounds it to ….005 first, and a cent too much is charged.
   */
  lemma {:induction false} OneCentTooMuch()
    ensures ValidPositive(PIECES) && ValidPositive(PIECE_PRICE)
    ensures Micros(PIECES) * Micros(PIECE_PRICE) == 999_995_000_000_000_000_004_999_999_999
    ensures HalfUpDiv(999_995_000_000_000_000_004_999_999_999, 10_000_000_000) == 99_999_500_000_000_000_000
    ensures LineExtension(PIECES, PIECE_PRICE) == Some(Dec(false, 99_999_500_000_000_000_001, -2))
  {
    hide LineExtension, RoundContext;
    assert Pow10(0) == 1;
    assert Micros(PIECES) == 999_999_999_999_999 && Micros(PIECE_PRICE) == 999_995_000_000_001;
    PiecesRounded();
    LineExtensionValue(PIECES, PIECE_PRICE);
  }

  lemma {:induction false} PiecesRounded()
    ensures LineCents(999_999_999_999_999, 999_995_000_000_001) == 99_999_500_000_000_000_001
  {
    hide RoundContext;
    var exact: nat := 999_995_000_000_000_000_004_999_999_999;
    ProductContext(exact);
    assert RoundContext(exact) == 999_995_000_000_000_000_005_000_000_000;
  }

  // ---------------------------------------------------------------- records without a kind

  const HASH: string := seq(64, _ => '0')

  lemma {:induction false} HashIsFine()
    ensures Provenance.IsSha256(HASH) && |HASH| == 64
  {
    assert "sha256:"[0] == 's';
    assert HASH[..7][0] == '0';
    forall i | 0 <= i < 64 ensures Provenance.IsHexDigit(HASH[i]) {
      assert HASH[i] == '0';
    }
  }

  /** A synthetic finding of the JSON predicate whose importer exited normally. */
  const JSON_FINDING := Reporting.FindingRecord(
    "case-000000", "stdout-json", "profile", HASH, HASH, HASH, "exited", Some(0), [], ["invoice-id@1:0"], true, 1, true, None)

  /** The record passes its own check and cannot be written. */
  lemma {:induction false} JsonFindingIsUnwritable()
    ensures Reporting.ValidRecord(JSON_FINDING) && Reporting.FindingJson(JSON_FINDING).None?
  {
    hide Provenance.IsSha256, Provenance.ValidRecord;
    HashIsFine();
    assert |HASH| == 64;
    Reporting.UnwritableRecords(JSON_FINDING);
  }

  // ---------------------------------------------------------------- reductions to white space

  /** Payment terms of a blank and a letter. */
  const BLANK_AND_LETTER: string := " X"

  lemma {:induction false} BlankTermsValid(terms: string)
    requires terms == BLANK_AND_LETTER || terms == " "
    ensures ValidInvoice(ShrinkExample.WithTerms(terms)) && TotalsFit(ShrinkExample.WithTerms(terms).lines)
  {
    hide ValidParty, ValidLine, ValidText, TotalsFit, OneRate;
    assert ShrinkExample.PlainTerms("t");
    ShrinkExample.WithTermsWritable("t");
    BlankText(terms);
    assert ShrinkExample.WithTerms(terms).lines == ShrinkExample.WithTerms("t").lines;
  }

  lemma {:induction false} BlankText(terms: string)
    requires terms == BLANK_AND_LETTER || terms == " "
    ensures ValidText(terms, 5000)
  {
    assert BLANK_AND_LETTER[0] == ' ' && BLANK_AND_LETTER[1] == 'X';
  }

  /**
   Halving the terms leaves a blank: a declared reduction, valid and writable, whose document can
   not be read back. A finding that is shrunk to it can not be packed.
   */
  lemma {:induction false} BlankReduction() returns (i: nat)
    ensures i < |OneStep(ShrinkExample.WithTerms(BLANK_AND_LETTER))|
    ensures OneStep(ShrinkExample.WithTerms(BLANK_AND_LETTER))[i].invoice == ShrinkExample.WithTerms(" ")
    ensures SerializeInvoice(ShrinkExample.WithTerms(" ")).Some?
    ensures ParseInvoice(SerializeInvoice(ShrinkExample.WithTerms(" ")).value).Err?
    ensures forall p, r :: !Packing.Packable(p, r, ShrinkExample.WithTerms(" "))
  {
    hide ValidInvoice, OneStep, TotalsFit, Document, SumsOf, ParseInvoice;
    var inv, blank := ShrinkExample.WithTerms(BLANK_AND_LETTER), ShrinkExample.WithTerms(" ");
    BlankTermsValid(BLANK_AND_LETTER);
    BlankTermsValid(" ");
    var field := ShrinkParts.OfInvoice(Reductions.PaymentTerms);
    assert BLANK_AND_LETTER[..1] == " ";
    i := ShrinkShort.TextListed(inv, field, Reductions.KeepPrefixHalf);
    assert !InvoiceRoundTrip.Readable(blank) by { assert Blank(" "); }
    WriteThenRead(blank);
  }

  // ---------------------------------------------------------------- a campaign that ends at white space

  /** The invoice before and after. */
  const BEFORE_BLANK: Invoice := ShrinkExample.WithTerms(BLANK_AND_LETTER)
  const BLANKED: Invoice := ShrinkExample.WithTerms(" ")

  lemma {:induction false} BlankedDiffer(other: Invoice, x: Element)
    requires IsDoc(other, x) && IsDoc(BLANKED, x)
    ensures !InvoiceRoundTrip.Readable(other)
  {
    hide IsDoc, ValidInvoice, InvoiceMeasure, Payload, SameLines;
    SameDocument(BLANKED, other, x);
    assert Blank(" ");
  }

  lemma {:induction false} NotBlank(s: string)
    requires s != "" && !IsSpace(s[0])
    ensures !Blank(s)
  {
  }

  lemma {:induction false} ReadableBefore()
    ensures InvoiceRoundTrip.Readable(BEFORE_BLANK)
  {
    hide Blank;
    NotBlank("a");
    NotBlank("b");
    NotBlank("c");
    NotBlank("d");
    NotBlank("e");
    NotBlank("f");
    NotBlank("i");
    NotBlank("k");
    NotBlank("n");
    NotBlank("p");
    NotBlank("r");
    NotBlank("1");
    NotBlank("3");
    NotBlank("5");
    assert !Blank(BLANK_AND_LETTER) by { LetterIsNoBlank(); }
  }

  lemma {:induction false} LetterIsNoBlank()
    ensures !Blank(BLANK_AND_LETTER)
  {
    assert BLANK_AND_LETTER[1] == 'X';
  }

  lemma {:induction false} OneIsCanonical()
    ensures ValidNonNegative(ONE) && Canonical(ONE) == ONE
  {
  }

  /** The document with the terms of a blank and a letter is read back as it was written. */
  lemma {:induction false} BeforeReadsBack(x: Element)
    requires IsDoc(BEFORE_BLANK, x)
    ensures ParseInvoice(x) == Ok(BEFORE_BLANK)
  {
    hide ParseInvoice, ValidInvoice, Document, SumsOf, TotalsFit, InvoiceRoundTrip.Readable, Canonical;
    WriteThenRead(BEFORE_BLANK);
    ReadableBefore();
    OneIsCanonical();
    var lines := [ShrinkExample.BARE_LINE];
    assert BEFORE_BLANK.lines == lines;
    assert CanonicalLines(lines) == lines;
  }

  lemma {:induction false} BlankTextsAreShort()
    ensures ShrinkParts.OneLine(BEFORE_BLANK) && ShrinkShort.ShortTexts(BEFORE_BLANK) && ShrinkTotal.Modest(BEFORE_BLANK)
  {
    hide ValidText;
    ShrinkExample.BareLine();
    ShrinkExample.OneIsValid();
    assert |BLANK_AND_LETTER| == 2;
  }

  /** Neither document loses the other: the blank one is a reduction of the other. */
  lemma {:induction false} NotMinimalBefore(valid: Element -> bool, preserves: Element -> bool, x: Element)
    requires IsDoc(BLANKED, x) && valid(x) && preserves(x)
    ensures !OneMinimal(BEFORE_BLANK, valid, preserves)
  {
    hide OneStep, IsDoc, ParseInvoice;
    var i := BlankReduction();
    assert OneStep(BEFORE_BLANK)[i] in OneStep(BEFORE_BLANK);
    WrittenAs(BLANKED, x);
  }

  lemma {:induction false} WrittenAs(inv: Invoice, x: Element)
    requires IsDoc(inv, x)
    ensures SerializeInvoice(inv) == Some(x)
  {
  }

  /** The document of a result was preserved; a result as large as the start is the start. */
  lemma {:induction false} ResultDocument(inv: Invoice, o: Oracles) returns (x: Element, n: nat)
    requires Shrunk(inv, o, true).Some?
    ensures IsDoc(Shrunk(inv, o, true).value.current, x) && o.finding(n, x) == Preserved
    ensures var current := Shrunk(inv, o, true).value.current; InvoiceMeasure(current) == InvoiceMeasure(inv) ==> current == inv
  {
    hide Shrunk, SerializeInvoice, OneStep, InvoiceMeasure, Sound, ShrinkExit.Exit, IsDoc;
    ShrinkResult(inv, o, true);
    var f := Shrunk(inv, o, true).value;
    n :| n < |f.asked| && SerializeInvoice(f.current) == Some(f.asked[n]) && o.finding(n, f.asked[n]) == Preserved;
    x := f.asked[n];
    IsWritten(f.current, x);
    assert InvoiceMeasure(f.current) == InvoiceMeasure(inv) ==> f.accepted == [];
  }

  /** A 1-minimal result whose document is one of the two is the blank one. */
  lemma {:induction false} ResultIsBlank(current: Invoice, x: Element, y: Element, z: Element, valid: Element -> bool, preserves: Element -> bool)
    requires IsDoc(BEFORE_BLANK, x) && IsDoc(BLANKED, y) && IsDoc(current, z) && z in {x, y}
    requires InvoiceMeasure(current) == InvoiceMeasure(BEFORE_BLANK) ==> current == BEFORE_BLANK
    requires valid(y) && preserves(y) && OneMinimal(current, valid, preserves)
    ensures !InvoiceRoundTrip.Readable(current)
  {
    hide ValidInvoice, IsDoc, InvoiceMeasure, OneMinimal, InvoiceRoundTrip.Readable, SameInvoice, Payload;
    if z == x {
      SameDocument(BEFORE_BLANK, current, x);
      NotMinimalBefore(valid, preserves, y);
    } else {
      BlankedDiffer(current, y);
    }
  }

  /** Shrinking returned an invoice that cannot be read back. */
  predicate EndsUnreadable(f: Option<State>) {
    f.Some? && !InvoiceRoundTrip.Readable(f.value.current)
  }

  /** An importer that fails on the two documents only: the finding is shrunk to white space. */
  lemma {:induction false} EndsBlank(w: World, fails: Element -> bool, x: Element, y: Element, base: nat)
    requires IsDoc(BEFORE_BLANK, x) && IsDoc(BLANKED, y)
    requires FailsOn(w, fails) && forall z :: fails(z) <==> z == x || z == y
    ensures MinimizesInvoice(w, BEFORE_BLANK, base, TARGET, SHOWN)
    ensures EndsUnreadable(Shrunk(BEFORE_BLANK, OraclesFrom(w, base, TARGET, SHOWN), true))
  {
    hide FailsOn, Decisive, Judge, PreservedBy, Shrunk, SerializeInvoice, OneStep, ValidInvoice, IsDoc, OneMinimal, NoRefusal,
      InvoiceRoundTrip.Readable, Begin, VerdictAt, InvoiceMeasure;
    var o, preserves := OraclesFrom(w, base, TARGET, SHOWN), PreservedBy(w, TARGET, SHOWN);
    WorldIsDecisive(w, fails);
    SteadyIsFunctional(w, base, TARGET, SHOWN);
    forall z ensures Judge(w, z) && preserves(z) == fails(z) {
      FailureIsShown(w, fails, 0, z);
    }
    WrittenAs(BEFORE_BLANK, x);
    BeginsAt(BEFORE_BLANK, o, x);
    BlankTextsAreShort();
    CampaignMinimal.ShortMinimizes(w, BEFORE_BLANK, base, TARGET, SHOWN);
    var z, n := ResultDocument(BEFORE_BLANK, o);
    assert preserves(z);
    ResultIsBlank(Shrunk(BEFORE_BLANK, o, true).value.current, x, y, z, JudgedBy(w), preserves);
  }

  lemma {:induction false} IsWritten(inv: Invoice, x: Element)
    requires SerializeInvoice(inv) == Some(x)
    ensures IsDoc(inv, x)
  {
  }

  lemma {:induction false} BeginsAt(inv: Invoice, o: Oracles, x: Element)
    requires SerializeInvoice(inv) == Some(x) && o.valid(x) && o.finding(0, x) == Preserved
    ensures Begin(inv, o).Some?
  {
    hide SerializeInvoice;
  }

  /**
   A finding that no campaign can report: the importer fails on the document with terms " X" and on
   the one with terms " ". The finding is shrunk to the blank, which is 1-minimal, and packing refuses it.
   */
  lemma {:induction false} BlankFinding(p: Packing.Packer, c: Candidate, base: nat, reproductions: nat) returns (w: World)
    requires Packing.ProperHashes(p) && Packing.ProperCandidate(c) && 1 <= reproductions <= 100
    requires SerializeInvoice(BEFORE_BLANK) == Some(c.xml)
    ensures AcceptsEvery(w) && Decisive(w, TARGET) && ByCrash(w) && CampaignCapsules.PacksAs(w, p)
    ensures AnsweredAt(w, base, c.xml, true) && MinimizesFrom(w, c.xml, base, TARGET, SHOWN)
    ensures !Reports(w, c, base, TARGET, SHOWN, reproductions)
  {
    hide SerializeInvoice, ParseInvoice, Packing.ProperHashes, Packing.ProperCandidate, AcceptsEvery, Decisive, ByCrash, IsDoc, FailsOn, WorldOf,
      MinimizesInvoice, Reports, EndsUnreadable, Shrunk, Packing.Pack, AnsweredAt;
    var i := BlankReduction();
    var y := SerializeInvoice(BLANKED).value;
    IsWritten(BEFORE_BLANK, c.xml);
    IsWritten(BLANKED, y);
    var fails := (z: Element) => z == c.xml || z == y;
    var pack := (c, r) => Packing.Pack(p, c, r);
    w := WorldOf(fails, pack);
    WorldFails(fails, pack);
    WorldIsDecisive(w, fails);
    FailureIsShown(w, fails, base, c.xml);
    BeforeReadsBack(c.xml);
    EndsBlank(w, fails, c.xml, y, base);
    BlankIsRefused(w, p, c, base, reproductions);
  }

  lemma {:induction false} BlankIsRefused(w: World, p: Packing.Packer, c: Candidate, base: nat, reproductions: nat)
    requires CampaignCapsules.PacksAs(w, p) && Packing.ProperHashes(p) && Packing.ProperCandidate(c)
    requires Decisive(w, TARGET) && 1 <= reproductions <= 100
    requires ParseInvoice(c.xml) == Ok(BEFORE_BLANK) && MinimizesInvoice(w, BEFORE_BLANK, base, TARGET, SHOWN)
    requires EndsUnreadable(Shrunk(BEFORE_BLANK, OraclesFrom(w, base, TARGET, SHOWN), true))
    ensures !Reports(w, c, base, TARGET, SHOWN, reproductions)
  {
    hide SerializeInvoice, ParseInvoice, Packing.ProperHashes, Packing.ProperCandidate, Shrunk, Reports, InvoiceRoundTrip.Readable,
      CampaignCapsules.PacksAs, OraclesFrom, Replay.ReplayJson, Replay.Constructed;
    CampaignCapsules.ReportsExactly(w, p, c, base, TARGET, SHOWN, reproductions);
  }

  // ---------------------------------------------------------------- replays

  const POLICY := Replay.Policy(Replay.Seconds(1000), Replay.Seconds(1000), 1, 1, 0, 1, 0, 0, Replay.Seconds(10))

  /** A pointer without the leading slash. */
  const BAD_POINTER := Replay.Specification(
    Replay.LocalTarget(["run"], "file", None), Replay.StdoutJson("status", Null), POLICY)

  /** An input mode that the reader does not know. */
  const BAD_MODE := Replay.Specification(Replay.LocalTarget(["run"], "pipe", None), Replay.Crash, POLICY)

  lemma {:induction false} PolicyPrints()
    ensures Replay.PolicyValues(POLICY).Some?
  {
    hide Replay.Milliseconds, Replay.Seconds;
    Replay.WholeMilliseconds(1000);
    Replay.WholeMilliseconds(10);
  }

  /** Both can be constructed and printed, and neither can be read back. */
  lemma {:induction false} ReplaysOneWay(s: Replay.Specification)
    requires s == BAD_POINTER || s == BAD_MODE
    ensures Replay.Constructed(s) && Replay.ReplayJson(s).Some?
    ensures Replay.ReadReplay(Replay.ReplayJson(s).value).None?
  {
    hide Replay.PolicyValues, Named, Fields, Replay.ReadReplay, Replay.SnapPolicy;
    PolicyPrints();
    assert "run" != "" && "status"[0] == 's' && "/"[0] == '/';
    assert "pipe"[0] != "stdin"[0] && "pipe"[0] != "file"[0];
    Replay.ReplayReadsBack(s);
  }

  // ---------------------------------------------------------------- seeds without a corpus

  /** A seed issued on the last day of the calendar. */
  const LATE_SEED: Invoice := ShrinkExample.WithTerms("t").(issueDate := Date(9999, 12, 31))

  lemma {:induction false} LateSeedIsFine()
    ensures ValidInvoice(LATE_SEED) && InvoiceRoundTrip.Readable(LATE_SEED)
  {
    hide ValidText, ValidParty, ValidLine, OneRate, TotalsFit, Blank, InvoiceRoundTrip.ReadableLines, ReadableParty;
    assert ShrinkExample.PlainTerms("t");
    ShrinkExample.WithTermsWritable("t");
    ReadableBefore();
    NotBlank("t");
  }

  /** The twentieth candidate moves the due date, past the end of the calendar. */
  lemma {:induction false} LateSeedStops(hashes: Hashes, campaignSeed: nat)
    ensures !Generates(LATE_SEED, hashes, campaignSeed, 19)
  {
    hide InvoiceAt, SerializeInvoice, Payload, Mutators.Mutate;
    OperationsShape(hashes, campaignSeed, 19);
    assert Schedule.Primary(19) == Mutators.DueDate;
    var ops := OperationsAt(hashes, campaignSeed, 19);
    LastDay(ops[0].token % 28 + 1);
  }

  lemma {:induction false} LastDay(n: nat)
    requires n >= 1
    ensures ValidDate(Date(9999, 12, 31)) && AddDays(Date(9999, 12, 31), n).None?
  {
  }

  /** No corpus of twenty or more candidates can be generated from it, whatever the campaign seed. */
  method LateSeedFails(hashes: Hashes, count: nat, campaignSeed: nat) returns (r: Option<seq<Candidate>>)
    requires count >= 20
    ensures ValidInvoice(LATE_SEED) && InvoiceRoundTrip.Readable(LATE_SEED) && r.None?
  {
    hide ValidInvoice, InvoiceRoundTrip.Readable, Generates, IsShard, DistinctFingerprints, GoodSeed;
    LateSeedIsFine();
    LateSeedStops(hashes, campaignSeed);
    r := GenerateCandidates(LATE_SEED, hashes, count, campaignSeed, 0, 1);
    assert 19 < ShardSize(count, 0, 1);
    assert !GeneratesAt(LATE_SEED, hashes, campaignSeed, 0, 1, 19);
  }

  // ---------------------------------------------------------------- corpora that cannot be resumed

  /**
   Without faults a first run writes the whole corpus, and resuming it at once fails if and only
   if a file is too large.
   */
  method WriteAndResume(fs: FileSystem, out: Path, files: seq<CorpusFile>, manifest: seq<bv8>) returns (written: bool, resumed: bool)
    requires FreshOutput(fs.nodes, out) && DistinctNumbers(files) && forall n :: !fs.faults(n)
    modifies fs
    ensures written && Complete(fs.nodes, out, files, manifest)
    ensures resumed <==> !TooLarge(files, manifest)
  {
    hide CasePath, CasesPath, ManifestPath, WellFormed, Complete, Resumable, Comparable;
    ghost var base := fs.nodes;
    BetweenSelf(base, out, files, manifest);
    FirstRun(base, out, files, manifest);
    written := MaterializeCorpus(fs, out, files, manifest, false);
    ghost var first := fs.nodes;
    SecondRun(base, first, out, files, manifest);
    resumed := MaterializeCorpus(fs, out, files, manifest, true);
    CompleteStays(first, fs.nodes, out, files, manifest);
  }

  lemma {:induction false} SecondRun(base: Tree, t: Tree, out: Path, files: seq<CorpusFile>, manifest: seq<bv8>)
    requires FreshOutput(base, out) && DistinctNumbers(files) && Between(base, t, out, files, manifest)
    requires Complete(t, out, files, manifest)
    ensures Resumable(t, out, files, manifest, true) <==> !TooLarge(files, manifest)
  {
    hide CasePath, CasesPath, ManifestPath, WellFormed, Resumable, Between, FreshOutput;
    ResumableExact(base, t, out, files, manifest);
    assert Planned(out, files, manifest, out, Directory);
    assert Planned(out, files, manifest, ManifestPath(out), File(manifest));
    forall i | 0 <= i < |files| ensures CasePath(out, files[i].index) in t {
      CaseIsPlanned(out, files, manifest, i);
    }
  }

  lemma {:induction false} CompleteStays(a: Tree, b: Tree, out: Path, files: seq<CorpusFile>, manifest: seq<bv8>)
    requires Complete(a, out, files, manifest) && Keeps(a, b)
    ensures Complete(b, out, files, manifest)
  {
    hide Planned;
  }

  const LARGE_FILE: CorpusFile := CorpusFile(0, seq(CASE_LIMIT + 1, _ => 0))

  /** One document of two mebibytes and a byte: it is written, and the corpus can never be resumed. */
  method LargeFileStays(fs: FileSystem) returns (written: bool, resumed: bool)
    requires fs.nodes == map[[] := Directory] && forall n :: !fs.faults(n)
    modifies fs
    ensures written && !resumed
    ensures HasFile(fs.nodes, CasePath(["out"], 0), LARGE_FILE.data)
  {
    hide CasePath, CasesPath, ManifestPath;
    var out: Path := ["out"];
    assert Parent(out) == [];
    assert |LARGE_FILE.data| > CASE_LIMIT;
    assert [LARGE_FILE][0] == LARGE_FILE;
    written, resumed := WriteAndResume(fs, out, [LARGE_FILE], []);
    CaseIsPlanned(out, [LARGE_FILE], [], 0);
  }
}
