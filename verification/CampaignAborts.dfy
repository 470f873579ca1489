/**
 Campaigns that abort: for every skip a pointwise validator and a steady importer, judged by the
 crash predicate, with which the finding is lost; and this for every candidate of every corpus.
 */
module CampaignAborts {
  import opened Basics
  import opened Texts
  import opened Digits
  import opened Decimals
  import opened Invoices
  import opened Totals
  import opened Trees
  import opened Serialize
  import opened Parse
  import opened InvoiceRoundTrip
  import opened LineRoundTrip
  import opened Json
  import opened Fingerprint
  import opened Documents
  import opened Reductions
  import opened Enumerate
  import opened Measure
  import opened Shrink
  import opened ShrinkRuns
  import opened ShrinkExit
  import opened ShrinkTotal
  import opened ShrinkGreedy
  import opened ShrinkSkips
  import opened ShrinkParts
  import opened ShrinkShort
  import opened Observed
  import opened Corpus
  import opened CampaignFacts
  import opened CampaignOutcome
  import opened CampaignCorpus
  import opened CampaignMinimal
  import Capsule

  // ---------------------------------------------------------------- a world for given answers

  const TARGET: string := seq(64, _ => '0')

  /** A process that exits with this code and writes nothing. */
  function ExitWith(code: int): (o: Observation) {
    Observation("exited", Some(code), "", "", None)
  }

  const SHOWN := Signature("crash-or-nonzero", "exited", Some(1), [], Some(""), Some(""), None)

  /** CrashPredicate.evaluate. */
  function CrashOrNonzero(result: TargetResult): (e: Evaluation) {
    var seen := result.observation;
    Evaluation(seen.termination == "exited" && seen.returncode !in {None, Some(0)}, "crash-or-nonzero", [])
  }

  /** The campaign uses the crash predicate. */
  ghost predicate ByCrash(w: World) {
    && (forall r, x, valid :: w.evaluate(r, x, valid) == Some(CrashOrNonzero(r)))
    && w.outputSensitive && !w.outputValidity
  }

  /** The validator accepts every document. */
  ghost predicate AcceptsEvery(w: World) {
    Pointwise(w) && forall x :: Judge(w, x)
  }

  /** A validator that accepts every document, and an importer that exits with 1 on the given ones and with 0 on the others. */
  function WorldOf(fails: Element -> bool, pack: (Candidate, Record) -> Option<Capsule.Capsule>): (w: World) {
    World(
      (cases: map<string, Element>) => map id | id in cases :: true,
      (n: nat, x: Element) => TargetResult(TARGET, ExitWith(if fails(x) then 1 else 0)),
      (r: TargetResult, x: Element, valid: Option<bool>) => Some(CrashOrNonzero(r)),
      true,
      false,
      pack)
  }

  /** What is claimed of such a world: it is an importer that fails on certain documents only. */
  ghost predicate FailsOn(w: World, fails: Element -> bool) {
    && AcceptsEvery(w) && Decisive(w, TARGET) && ByCrash(w)
    && forall n: nat, x :: w.importer(n, x) == TargetResult(TARGET, ExitWith(if fails(x) then 1 else 0))
  }

  lemma {:induction false} WorldFails(fails: Element -> bool, pack: (Candidate, Record) -> Option<Capsule.Capsule>)
    ensures FailsOn(WorldOf(fails, pack), fails) && WorldOf(fails, pack).pack == pack
  {
  }

  lemma {:induction false} FailureIsShown(w: World, fails: Element -> bool, n: nat, x: Element)
    requires FailsOn(w, fails)
    ensures AnsweredAt(w, n, x, fails(x)) && w.importer(n, x).targetDigest == TARGET
    ensures fails(x) ==> SignatureAt(w, n, x) == Some(SHOWN)
    ensures PreservedBy(w, TARGET, SHOWN)(x) == fails(x) && Judge(w, x)
  {
    assert w.evaluate(w.importer(n, x), x, None) == Some(CrashOrNonzero(w.importer(n, x)));
    assert w.evaluate(w.importer(0, x), x, None) == Some(CrashOrNonzero(w.importer(0, x)));
  }

  // ---------------------------------------------------------------- a skip loses the finding

  lemma {:induction false} SkipIsPath(path: seq<Invoice>, y: Element)
    requires Skip(path, y)
    ensures path != []
  {
    hide ValidInvoice, SerializeInvoice, FrontierWritten, Linked, NoShortCut, DefersAt, Offers;
  }

  lemma {:induction false} SameExactly(path: seq<Invoice>, y: Element, a: Element -> bool, b: Element -> bool)
    requires Exactly(path, y, a) && forall x :: a(x) == b(x)
    ensures Exactly(path, y, b)
  {
    hide OnPath, Offers;
  }

  /**
   An importer that fails on the documents of a skip, and on nothing else that it offers: the
   invoice at its start passes the initial check, and the independent check fails or is not reached.
   */
  lemma {:induction false} SkipMayAbort(path: seq<Invoice>, y: Element, w: World, fails: Element -> bool, base: nat)
    requires Skip(path, y) && Exactly(path, y, fails) && FailsOn(w, fails)
    ensures path != [] && Begin(path[0], OraclesFrom(w, base, TARGET, SHOWN)).Some?
    ensures !MinimizesInvoice(w, path[0], base, TARGET, SHOWN)
  {
    hide Judge, PreservedBy, Shrunk, SerializeInvoice, OneStep, ValidInvoice, Skip, OnPath, OneMinimal, Begin, Run, Functional, Exactly,
      FailsOn;
    SkipIsPath(path, y);
    var o, preserves := OraclesFrom(w, base, TARGET, SHOWN), PreservedBy(w, TARGET, SHOWN);
    forall x ensures Both(o.valid, preserves)(x) == fails(x) && Judge(w, x) {
      FailureIsShown(w, fails, 0, x);
    }
    SameExactly(path, y, fails, Both(o.valid, preserves));
    WorldIsDecisive(w, fails);
    SteadyIsFunctional(w, base, TARGET, SHOWN);
    SkipMissesUnder(path, y, o, preserves);
    ShrunkBegins(path[0], o);
    SameMinimality(path[|path| - 1], o.valid, JudgedBy(w), preserves);
  }

  lemma {:induction false} WorldIsDecisive(w: World, fails: Element -> bool)
    requires FailsOn(w, fails)
    ensures AcceptsEvery(w) && Decisive(w, TARGET) && ByCrash(w)
  {
    hide Decisive, AcceptsEvery, ByCrash;
  }

  lemma {:induction false} SameMinimality(inv: Invoice, a: Element -> bool, b: Element -> bool, preserves: Element -> bool)
    requires forall x :: a(x) == b(x)
    ensures OneMinimal(inv, a, preserves) <==> OneMinimal(inv, b, preserves)
  {
    hide SerializeInvoice, OneStep;
  }

  // ---------------------------------------------------------------- reducible texts

  /** Such a world exists for a reducible text of three or more characters: of the header or a party, or of the only line. */
  lemma {:induction false} LongMayAbort(inv: Invoice, field: TextField, pack: (Candidate, Record) -> Option<Capsule.Capsule>, base: nat)
    returns (w: World, fails: Element -> bool)
    requires Located(inv, field) && ValidInvoice(inv) && Modest(inv) && !IsMail(inv, field) && |FieldText(inv, field)| >= 3
    ensures FailsOn(w, fails) && w.pack == pack
    ensures Begin(inv, OraclesFrom(w, base, TARGET, SHOWN)).Some?
    ensures !MinimizesInvoice(w, inv, base, TARGET, SHOWN)
  {
    hide ValidInvoice, Modest, Skip, FieldText, IsMail, MinimizesInvoice, Begin, WorldOf, FailsOn, OnPath, ReduceText, WithField;
    var path, y := LongTextSkips(inv, field);
    fails := PathOracle(path, y);
    w := WorldOf(fails, pack);
    WorldFails(fails, pack);
    SkipMayAbort(path, y, w, fails, base);
  }

  // ---------------------------------------------------------------- generated candidates

  /** The half of a number's text is not the text of a number close to it. */
  lemma {:induction false} HalfIsFar(a: nat, b: nat, m: nat)
    requires a < b + 4_294_967_296 && m + 10 <= |Padded(a, 8)| && |Padded(a, 8)| >= 18
    ensures Padded(a, 8)[..m] != Padded(b, 8)
  {
    hide Padded;
    var s := Padded(a, 8);
    var head, tail := s[..m], s[m..];
    assert s == head + tail;
    NatOfConcat(head, tail);
    if head == Padded(b, 8) {
      var p := Pow10(|tail|);
      BigTail(|tail|);
      assert a >= b * p;
      if b == 0 {
        ShortNumber(a);
      } else {
        Multiple(b, p);
      }
    }
  }

  lemma {:induction false} BigTail(n: nat)
    requires n >= 10
    ensures Pow10(n) >= 10_000_000_000
  {
    Pow10Add(10, n - 10);
    assert Pow10(10) == 10_000_000_000;
  }

  lemma {:induction false} Multiple(b: nat, p: nat)
    requires b >= 1 && p >= 10_000_000_000
    ensures b * p >= b + 9_999_999_999
  {
    assert b * p == p + (b - 1) * p;
    assert (b - 1) * p >= b - 1;
  }

  lemma {:induction false} ShortNumber(a: nat)
    requires a < 4_294_967_296
    ensures |Padded(a, 8)| <= 10
  {
    assert Pow10(10) == 10_000_000_000;
    NatTextLength(a, 10);
  }

  /** The importer fails on the documents of the skip and on the candidate itself. */
  ghost function FailsAt(path: seq<Invoice>, y: Element, x0: Element): (fails: Element -> bool) {
    x => OnPath(path, y, x) || x == x0
  }

  /** The candidate's own document is never offered: it is as large as the start of the path. */
  lemma {:induction false} StartIsNotOffered(path: seq<Invoice>, y: Element, x0: Element, own: Invoice)
    requires Skip(path, y) && IsDoc(own, x0) && path != [] && InvoiceMeasure(own) == InvoiceMeasure(path[0])
    ensures Exactly(path, y, FailsAt(path, y, x0))
  {
    hide ValidInvoice, InvoiceMeasure, IsDoc, Offers, OnPath, FrontierWritten, Linked, NoShortCut, DefersAt, SerializeInvoice;
    var fails := FailsAt(path, y, x0);
    forall l: nat, x | l < |path| && Offers(path[l], x) && fails(x) ensures OnPath(path, y, x) {
      if x == x0 {
        PathGoesDown(path, 0, l);
        OfferedIsSmaller(path[l], x, own);
      }
    }
  }

  /** A document with another invoice number is not on the path. */
  lemma {:induction false} OtherDocument(p: Invoice, q: Invoice, least: Invoice, y: Element, other: Invoice, x: Element)
    requires IsDoc(least, y) && IsDoc(other, x)
    requires other.identifier != p.identifier && other.identifier != q.identifier && other.identifier != least.identifier
    ensures !OnPath([p, q], y, x)
  {
    hide IsDoc, ValidInvoice, InvoiceMeasure, Payload, SameLines;
    var path := [p, q];
    if l: nat :| l < |path| && IsDoc(path[l], x) {
      SameDocument(path[l], other, x);
    }
    if x == y {
      SameDocument(least, other, x);
    }
  }

  /** What the campaign reads back for a candidate, and the invoice that was written. */
  ghost predicate StartsFrom(c: Candidate, inv: Invoice, own: Invoice, number: string) {
    && ParseInvoice(c.xml) == Ok(inv) && ValidInvoice(inv) && Modest(inv)
    && IsDoc(own, c.xml) && InvoiceMeasure(own) == InvoiceMeasure(inv)
    && inv.identifier == own.identifier == number
  }

  function Number(campaignSeed: nat, index: nat): (s: string) {
    "RP-" + Padded(UniqueToken(campaignSeed, index), 8)
  }

  lemma {:induction false} CandidateStarts(c: Candidate, seed: Invoice, hashes: Hashes, campaignSeed: nat, index: nat)
    requires GoodSeed(seed) && campaignSeed < CAMPAIGN_SEEDS && index < TOKEN_SHIFT
    requires IsCandidate(c, seed, hashes, campaignSeed, index)
    ensures var own := InvoiceAt(seed, hashes, campaignSeed, index);
      own.Some? && StartsFrom(c, CanonicalInvoice(own.value), own.value, Number(campaignSeed, index))
  {
    hide GoodSeed, InvoiceAt, ValidInvoice, ParseInvoice, Readable, TotalsFit, Padded, UniqueToken, ModestRates, Payload, OperationsAt,
      InvoiceMeasure, SameInvoice;
    CandidateStart(c, seed, hashes, campaignSeed, index);
    CandidateExists(seed, hashes, campaignSeed, index);
    CandidateReadsBack(c, seed, hashes, campaignSeed, index);
    var own := InvoiceAt(seed, hashes, campaignSeed, index).value;
    CanonicalIsSame(own);
    MeasureSame(CanonicalInvoice(own), own);
  }

  lemma {:induction false} DropThree(s: string, m: nat)
    requires 3 <= m <= |s|
    ensures s[..m][3..] == s[3..][..m - 3]
  {
  }

  /** The number of one candidate is neither that of another nor its first half, nor A. */
  lemma {:induction false} NumbersApart(campaignSeed: nat, i: nat, k: nat)
    requires i < TOKEN_SHIFT && k < TOKEN_SHIFT && i != k
    ensures |Number(campaignSeed, i)| >= 11
    ensures Number(campaignSeed, k) != Number(campaignSeed, i)
    ensures Number(campaignSeed, k) != ReduceText(Number(campaignSeed, i), KeepPrefixHalf)
    ensures Number(campaignSeed, k) != "A"
  {
    hide Padded;
    var a, b := UniqueToken(campaignSeed, i), UniqueToken(campaignSeed, k);
    TokensAreUnique(campaignSeed, i, campaignSeed, k);
    assert Number(campaignSeed, i)[3..] == Padded(a, 8) && Number(campaignSeed, k)[3..] == Padded(b, 8);
    if Number(campaignSeed, i) == Number(campaignSeed, k) {
      IdentifiersDiffer(a, b);
    }
    var n := |Number(campaignSeed, i)|;
    DropThree(Number(campaignSeed, i), (n + 1) / 2);
    if Number(campaignSeed, i)[..(n + 1) / 2] == Number(campaignSeed, k) {
      HalfIsFar(a, b, (n + 1) / 2 - 3);
    }
  }

  /** The skip of a candidate: its number is halved, and A is deferred. Other candidates are not on it. */
  ghost predicate NumberSkip(inv: Invoice, path: seq<Invoice>, y: Element) {
    && Skip(path, y) && |inv.identifier| >= 2
    && path == [inv, inv.(identifier := ReduceText(inv.identifier, KeepPrefixHalf))]
    && IsDoc(inv.(identifier := "A"), y)
  }

  lemma {:induction false} NumberSkips(inv: Invoice) returns (path: seq<Invoice>, y: Element)
    requires ValidInvoice(inv) && Modest(inv) && |inv.identifier| >= 3
    ensures NumberSkip(inv, path, y)
  {
    hide ValidInvoice, Modest, Skip, ReduceText, IsDoc;
    path, y := LongTextSkips(inv, OfInvoice(InvoiceIdentifier));
  }

  lemma {:induction false} OthersPass(cs: seq<Candidate>, seed: Invoice, hashes: Hashes, campaignSeed: nat, i: nat, k: nat,
    inv: Invoice, path: seq<Invoice>, y: Element)
    requires GoodSeed(seed) && campaignSeed < CAMPAIGN_SEEDS && |cs| < TOKEN_SHIFT && Numbered(cs, seed, hashes, campaignSeed)
    requires i < |cs| && k < |cs| && i != k
    requires inv.identifier == Number(campaignSeed, i) && NumberSkip(inv, path, y)
    ensures !OnPath(path, y, cs[k].xml)
  {
    hide GoodSeed, InvoiceAt, ValidInvoice, ParseInvoice, IsCandidate, Modest, Skip, ReduceText, IsDoc, InvoiceMeasure, Number, OnPath;
    NumbersApart(campaignSeed, i, k);
    CandidateStarts(cs[k], seed, hashes, campaignSeed, k);
    var own := InvoiceAt(seed, hashes, campaignSeed, k).value;
    OtherDocument(inv, path[1], inv.(identifier := "A"), y, own, cs[k].xml);
  }

  /**
   No generated candidate is safe. For every candidate of every corpus there are a validator that
   accepts every document and an importer that crashes on this candidate, on no other one, and on
   two documents that it is reduced to: the campaign reaches it as its first match, and aborts.
   */
  lemma {:induction false} NoCandidateIsSafe(seedXml: Element, cs: seq<Candidate>, seed: Invoice, hashes: Hashes, campaignSeed: nat,
    count: nat, i: nat, pack: (Candidate, Record) -> Option<Capsule.Capsule>, reproductions: nat)
    returns (w: World)
    requires GoodSeed(seed) && ArgumentsOk(count, campaignSeed, 0, 1)
    requires IsShard(cs, seed, hashes, campaignSeed, count, 0, 1) && i < |cs|
    ensures AcceptsEvery(w) && Decisive(w, TARGET) && ByCrash(w) && w.pack == pack
    ensures FirstMatch(w, cs, i) && !MinimizesFrom(w, cs[i].xml, i + 1, TARGET, SHOWN)
    ensures !Completes(w, seedXml, cs, reproductions)
  {
    hide GoodSeed, InvoiceAt, ValidInvoice, ParseInvoice, IsCandidate, Modest, NumberSkip, IsDoc, InvoiceMeasure, Number, FailsAt, FailsOn,
      WorldOf, Begin, MinimizesInvoice, Completes, FirstMatch, SignatureAt, IsShard, Numbered;
    ShardIsNumbered(cs, seed, hashes, campaignSeed, count);
    var path, y, inv := CandidateSkips(cs, seed, hashes, campaignSeed, i);
    var fails := FailsAt(path, y, cs[i].xml);
    w := WorldOf(fails, pack);
    WorldFails(fails, pack);
    WorldIsDecisive(w, fails);
    NumberSkipAborts(inv, path, y, w, fails, i + 1);
    OnlyThisFails(cs, seed, hashes, campaignSeed, i, inv, path, y);
    FirstFailure(w, fails, cs, i);
    FirstMatchAborts(w, seedXml, cs, i, reproductions);
  }

  /** The skip of a candidate, from the invoice that the campaign reads back. */
  lemma {:induction false} CandidateSkips(cs: seq<Candidate>, seed: Invoice, hashes: Hashes, campaignSeed: nat, i: nat)
    returns (path: seq<Invoice>, y: Element, inv: Invoice)
    requires GoodSeed(seed) && campaignSeed < CAMPAIGN_SEEDS && |cs| < TOKEN_SHIFT && Numbered(cs, seed, hashes, campaignSeed) && i < |cs|
    ensures ParseInvoice(cs[i].xml) == Ok(inv) && inv.identifier == Number(campaignSeed, i) && NumberSkip(inv, path, y)
    ensures Exactly(path, y, FailsAt(path, y, cs[i].xml))
  {
    hide GoodSeed, InvoiceAt, ParseInvoice, IsCandidate, NumberSkip, InvoiceMeasure, Number, FailsAt, Exactly, CanonicalInvoice, ValidInvoice,
      Modest, IsDoc;
    CandidateStarts(cs[i], seed, hashes, campaignSeed, i);
    var own := InvoiceAt(seed, hashes, campaignSeed, i).value;
    inv := ParseInvoice(cs[i].xml).value;
    NumberIsLong(campaignSeed, i);
    path, y := StartSkips(cs[i], inv, own, Number(campaignSeed, i));
  }

  lemma {:induction false} StartSkips(c: Candidate, inv: Invoice, own: Invoice, number: string) returns (path: seq<Invoice>, y: Element)
    requires StartsFrom(c, inv, own, number) && |number| >= 11
    ensures NumberSkip(inv, path, y) && Exactly(path, y, FailsAt(path, y, c.xml))
  {
    hide ParseInvoice, ValidInvoice, Modest, Skip, InvoiceMeasure, FailsAt, Exactly, IsDoc, ReduceText;
    path, y := NumberSkips(inv);
    StartIsNotOffered(path, y, c.xml, own);
  }

  lemma {:induction false} NumberSkipAborts(inv: Invoice, path: seq<Invoice>, y: Element, w: World, fails: Element -> bool, base: nat)
    requires NumberSkip(inv, path, y) && Exactly(path, y, fails) && FailsOn(w, fails)
    ensures !MinimizesInvoice(w, inv, base, TARGET, SHOWN)
  {
    hide Skip, Exactly, FailsOn, MinimizesInvoice, IsDoc, ReduceText, Begin;
    SkipMayAbort(path, y, w, fails, base);
  }

  lemma {:induction false} OnlyThisFails(cs: seq<Candidate>, seed: Invoice, hashes: Hashes, campaignSeed: nat, i: nat,
    inv: Invoice, path: seq<Invoice>, y: Element)
    requires GoodSeed(seed) && campaignSeed < CAMPAIGN_SEEDS && |cs| < TOKEN_SHIFT && Numbered(cs, seed, hashes, campaignSeed)
    requires i < |cs| && inv.identifier == Number(campaignSeed, i) && NumberSkip(inv, path, y)
    ensures forall k :: 0 <= k < |cs| ==> (FailsAt(path, y, cs[i].xml)(cs[k].xml) <==> k == i)
  {
    hide GoodSeed, Numbered, Number, NumberSkip, OnPath;
    forall k | 0 <= k < |cs| && k != i ensures !FailsAt(path, y, cs[i].xml)(cs[k].xml) {
      OthersPass(cs, seed, hashes, campaignSeed, i, k, inv, path, y);
      OthersDiffer(cs, seed, hashes, campaignSeed, i, k);
    }
  }

  /** The only candidate that fails is the first match. */
  lemma {:induction false} FirstFailure(w: World, fails: Element -> bool, cs: seq<Candidate>, i: nat)
    requires FailsOn(w, fails) && i < |cs| && forall k :: 0 <= k < |cs| ==> (fails(cs[k].xml) <==> k == i)
    ensures FirstMatch(w, cs, i) && SignatureAt(w, i, cs[i].xml) == Some(SHOWN) && w.importer(i, cs[i].xml).targetDigest == TARGET
  {
    hide FailsOn, AnsweredAt, SignatureAt;
    forall k | 0 <= k < i ensures AnsweredAt(w, k, cs[k].xml, false) {
      FailureIsShown(w, fails, k, cs[k].xml);
    }
    FailureIsShown(w, fails, i, cs[i].xml);
  }

  lemma {:induction false} NumberIsLong(campaignSeed: nat, i: nat)
    ensures |Number(campaignSeed, i)| >= 11
  {
  }

  /** Different candidates have different documents. */
  lemma {:induction false} OthersDiffer(cs: seq<Candidate>, seed: Invoice, hashes: Hashes, campaignSeed: nat, i: nat, k: nat)
    requires GoodSeed(seed) && campaignSeed < CAMPAIGN_SEEDS && |cs| < TOKEN_SHIFT && Numbered(cs, seed, hashes, campaignSeed)
    requires i < |cs| && k < |cs| && i != k
    ensures cs[i].xml != cs[k].xml
  {
    hide GoodSeed, InvoiceAt, ValidInvoice, ParseInvoice, IsCandidate, Modest, ReduceText, IsDoc, InvoiceMeasure, Number;
    CandidateStarts(cs[i], seed, hashes, campaignSeed, i);
    CandidateStarts(cs[k], seed, hashes, campaignSeed, k);
    NumbersApart(campaignSeed, i, k);
  }

  lemma {:induction false} FirstMatchAborts(w: World, seedXml: Element, cs: seq<Candidate>, i: nat, reproductions: nat)
    requires FirstMatch(w, cs, i) && SignatureAt(w, i, cs[i].xml) == Some(SHOWN)
    requires w.importer(i, cs[i].xml).targetDigest == TARGET && !MinimizesFrom(w, cs[i].xml, i + 1, TARGET, SHOWN)
    ensures !Completes(w, seedXml, cs, reproductions)
  {
    hide MinimizesFrom, PacksFrom, CorpusDocs, Judge, AnsweredAt;
    if |cs| <= 10000 && 1 <= reproductions <= 100 {
      MatchIsNoPass(w, i, cs[i].xml);
      CompletesAt(w, seedXml, cs, reproductions, i);
    }
  }

  lemma {:induction false} MatchIsNoPass(w: World, n: nat, x: Element)
    ensures AnsweredAt(w, n, x, true) ==> !AnsweredAt(w, n, x, false)
  {
    hide Evaluated;
  }
}
