/**
 The independent minimality check of the campaign, seen from the shrinker: when it lets a finding
 through, and for which invoices it cannot stop one.
 */
module CampaignMinimal {
  import opened Basics
  import opened Texts
  import opened Digits
  import opened Decimals
  import opened Invoices
  import opened Totals
  import opened Trees
  import opened Serialize
  import opened Parse
  import opened InvoiceRoundTrip
  import opened LineRoundTrip
  import opened Fingerprint
  import opened Documents
  import opened Reductions
  import opened Enumerate
  import opened Measure
  import opened Shrink
  import opened ShrinkRuns
  import opened ShrinkExit
  import opened ShrinkTotal
  import opened ShrinkGreedy
  import opened ShrinkSkips
  import opened ShrinkParts
  import opened ShrinkShort
  import opened Observed
  import opened Corpus
  import opened CampaignFacts
  import opened CampaignOutcome
  import opened CampaignCorpus
  import Capsule

  /**
   With a steady importer whose runs can all be evaluated, a matched invoice passes the independent
   check if and only if shrinking returns and missed no deferred reduction.
   */
  lemma {:induction false} MinimizesUnlessMissed(w: World, inv: Invoice, base: nat, digest: string, signature: Signature)
    requires Decisive(w, digest)
    ensures var o := OraclesFrom(w, base, digest, signature); var f := Shrunk(inv, o, true);
      MinimizesInvoice(w, inv, base, digest, signature) <==>
        f.Some? && !exists r :: Missed(f.value, r, o.valid, PreservedBy(w, digest, signature))
  {
    hide Decisive, Judge, PreservedBy, Missed, Shrunk, SerializeInvoice, OneStep, NoRefusal;
    SteadyIsFunctional(w, base, digest, signature);
    var o := OraclesFrom(w, base, digest, signature);
    if Shrunk(inv, o, true).Some? {
      NothingRefused(w, Shrunk(inv, o, true).value.current, digest, signature);
      MinimalUnlessMissed(inv, o, PreservedBy(w, digest, signature), true);
    }
  }

  lemma {:induction false} NothingRefused(w: World, inv: Invoice, digest: string, signature: Signature)
    requires Decisive(w, digest)
    ensures NoRefusal(w, inv, digest, signature)
  {
    hide OneStep, SerializeInvoice, VerdictAt, Judge, Decisive;
    forall k: nat ensures !Answers(w, inv, k, digest, signature, Raised) {
      if Answers(w, inv, k, digest, signature, Raised) {
        DecisiveVerdict(w, 0, SerializeInvoice(OneStep(inv)[k].invoice).value, digest, signature);
      }
    }
  }

  /** One line and short texts: every matched invoice that passes the initial check is reported. */
  lemma {:induction false} ShortMinimizes(w: World, inv: Invoice, base: nat, digest: string, signature: Signature)
    requires Decisive(w, digest) && OneLine(inv) && ShortTexts(inv) && (ValidInvoice(inv) ==> Modest(inv))
    ensures MinimizesInvoice(w, inv, base, digest, signature) <==> Begin(inv, OraclesFrom(w, base, digest, signature)).Some?
  {
    hide Decisive, Judge, PreservedBy, Shrunk, SerializeInvoice, OneStep, ValidInvoice, ShortTexts, Begin, Functional, Modest, VerdictAt,
      NoRefusal;
    SteadyIsFunctional(w, base, digest, signature);
    ShortIsMinimal(inv);
    var o := OraclesFrom(w, base, digest, signature);
    NeverRaisesWhenFunctional(o, PreservedBy(w, digest, signature));
    ShrinkReturns(inv, o, true);
    if Shrunk(inv, o, true).Some? {
      NothingRefused(w, Shrunk(inv, o, true).value.current, digest, signature);
    }
  }

  lemma {:induction false} NeverRaisesWhenFunctional(o: Oracles, preserves: Element -> bool)
    requires Functional(o, preserves)
    ensures NeverRaises(o)
  {
  }

  // ---------------------------------------------------------------- generated candidates

  lemma {:induction false} CanonicalRates(lines: seq<Line>)
    requires AllValid(lines) && ModestRates(lines)
    ensures ModestRates(CanonicalLines(lines))
  {
    hide Canonical, ValidText, ValidPeriod;
  }

  /** The invoice that a campaign reads back from a generated document is valid, modest, and has a long number. */
  lemma {:induction false} CandidateStart(c: Candidate, seed: Invoice, hashes: Hashes, campaignSeed: nat, index: nat)
    requires GoodSeed(seed) && campaignSeed < CAMPAIGN_SEEDS && index < TOKEN_SHIFT
    requires IsCandidate(c, seed, hashes, campaignSeed, index)
    ensures ParseInvoice(c.xml).Ok?
    ensures var inv := ParseInvoice(c.xml).value;
      ValidInvoice(inv) && Modest(inv) && |inv.identifier| >= 3
  {
    hide GoodSeed, InvoiceAt, ValidInvoice, ParseInvoice, IsCandidate, Readable, TotalsFit, Padded, UniqueToken, ModestRates;
    CandidateExists(seed, hashes, campaignSeed, index);
    CandidateReadsBack(c, seed, hashes, campaignSeed, index);
    var inv := InvoiceAt(seed, hashes, campaignSeed, index).value;
    CanonicalIsValid(inv);
    CanonicalRates(inv.lines);
    LinesOf(CanonicalInvoice(inv));
  }

  /** The document that the campaign starts to shrink from is the candidate's own, unless a price is a negative zero. */
  lemma {:induction false} CandidateIsRewritten(c: Candidate, seed: Invoice, hashes: Hashes, campaignSeed: nat, index: nat)
    requires GoodSeed(seed) && campaignSeed < CAMPAIGN_SEEDS && index < TOKEN_SHIFT
    requires IsCandidate(c, seed, hashes, campaignSeed, index)
    ensures ParseInvoice(c.xml).Ok?
    ensures SerializeInvoice(ParseInvoice(c.xml).value) == Some(c.xml) <==>
      forall i :: 0 <= i < |InvoiceAt(seed, hashes, campaignSeed, index).value.lines| ==>
        !InvoiceAt(seed, hashes, campaignSeed, index).value.lines[i].price.negative
  {
    hide GoodSeed, InvoiceAt, ValidInvoice, ParseInvoice, Readable, TotalsFit, Padded, UniqueToken, ModestRates, Payload, OperationsAt, Document,
      SameInvoice, SumsOf;
    CandidateExists(seed, hashes, campaignSeed, index);
    CandidateReadsBack(c, seed, hashes, campaignSeed, index);
    var inv := InvoiceAt(seed, hashes, campaignSeed, index).value;
    CanonicalIsValid(inv);
    CanonicalRates(inv.lines);
    LinesOf(inv);
    LinesOf(CanonicalInvoice(inv));
    AtMostHundred(CanonicalInvoice(inv));
    ModestRatesFit(CanonicalInvoice(inv).lines);
    CanonicalIsSame(inv);
    FingerprintsAgree(CanonicalInvoice(inv), inv);
    DocumentsAndFingerprints(CanonicalInvoice(inv), inv);
  }
}
