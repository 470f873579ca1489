/** A generated corpus is one that a campaign can run on. */
module CampaignCorpus {
  import opened Basics
  import opened Digits
  import opened Invoices
  import opened Trees
  import opened Serialize
  import opened Parse
  import opened InvoiceRoundTrip
  import opened Fingerprint
  import opened Documents
  import opened Corpus
  import opened CampaignFacts

  /** Every generated document is read back as its invoice, up to the writing of its numbers. */
  lemma {:induction false} CandidateReadsBack(c: Candidate, seed: Invoice, hashes: Hashes, campaignSeed: nat, index: nat)
    requires GoodSeed(seed) && campaignSeed < CAMPAIGN_SEEDS && index < TOKEN_SHIFT
    requires IsCandidate(c, seed, hashes, campaignSeed, index)
    ensures var inv := InvoiceAt(seed, hashes, campaignSeed, index).value;
      Writable(inv) && ParseInvoice(c.xml) == Ok(CanonicalInvoice(inv))
  {
    hide GoodSeed, InvoiceAt, ValidInvoice, Readable, ParseInvoice, Payload, OperationsAt, UniqueToken;
    CandidateExists(seed, hashes, campaignSeed, index);
    WriteThenRead(InvoiceAt(seed, hashes, campaignSeed, index).value);
  }

  lemma {:induction false} SeedDocumentDiffers(seedXml: Element, c: Candidate, seed: Invoice, hashes: Hashes, campaignSeed: nat, index: nat)
    requires GoodSeed(seed) && campaignSeed < CAMPAIGN_SEEDS && index < TOKEN_SHIFT
    requires IsCandidate(c, seed, hashes, campaignSeed, index) && ParseInvoice(seedXml) == Ok(seed)
    ensures seedXml != c.xml
  {
    hide InvoiceAt, ValidInvoice, Readable, ParseInvoice, IsCandidate, UniqueToken, Padded;
    CandidateExists(seed, hashes, campaignSeed, index);
    CandidateReadsBack(c, seed, hashes, campaignSeed, index);
    assert "RP-" <= "RP-" + Padded(UniqueToken(campaignSeed, index), 8);
  }

  lemma {:induction false} DocumentsDiffer(a: Candidate, b: Candidate, seed: Invoice, hashes: Hashes, campaignSeed: nat, i: nat, j: nat)
    requires IsCandidate(a, seed, hashes, campaignSeed, i) && IsCandidate(b, seed, hashes, campaignSeed, j)
    requires a.fingerprint != b.fingerprint
    ensures a.xml != b.xml
  {
    hide InvoiceAt, ValidInvoice, Payload, OperationsAt, Document;
    var x, y := InvoiceAt(seed, hashes, campaignSeed, i).value, InvoiceAt(seed, hashes, campaignSeed, j).value;
    DocumentsAndFingerprints(x, y);
  }

  lemma {:induction false} ShardMember(cs: seq<Candidate>, seed: Invoice, hashes: Hashes, campaignSeed: nat, count: nat, i: nat)
    requires IsShard(cs, seed, hashes, campaignSeed, count, 0, 1) && i < |cs|
    ensures IsCandidate(cs[i], seed, hashes, campaignSeed, i) && |cs| == count
  {
    hide IsCandidate;
    assert IsCandidate(cs[i], seed, hashes, campaignSeed, 0 + i * 1);
  }

  ghost predicate Numbered(cs: seq<Candidate>, seed: Invoice, hashes: Hashes, campaignSeed: nat) {
    forall i :: 0 <= i < |cs| ==> IsCandidate(cs[i], seed, hashes, campaignSeed, i) && cs[i].index == i
  }

  lemma {:induction false} ShardIsNumbered(cs: seq<Candidate>, seed: Invoice, hashes: Hashes, campaignSeed: nat, count: nat)
    requires IsShard(cs, seed, hashes, campaignSeed, count, 0, 1)
    ensures Numbered(cs, seed, hashes, campaignSeed)
    ensures |cs| == count
  {
    hide IsCandidate, AreCandidates;
    forall i | 0 <= i < |cs| ensures IsCandidate(cs[i], seed, hashes, campaignSeed, i) && cs[i].index == i {
      ShardMember(cs, seed, hashes, campaignSeed, count, i);
      IndexOf(cs[i], seed, hashes, campaignSeed, i);
    }
  }

  lemma {:induction false} NumbersAreDistinct(cs: seq<Candidate>, seed: Invoice, hashes: Hashes, campaignSeed: nat)
    requires Numbered(cs, seed, hashes, campaignSeed)
    ensures Distinct(Map(cs, (c: Candidate) => c.index))
  {
    hide IsCandidate;
  }

  lemma {:induction false} DocumentsAreDistinct(seedXml: Element, cs: seq<Candidate>, seed: Invoice, hashes: Hashes, campaignSeed: nat)
    requires ParseInvoice(seedXml) == Ok(seed) && GoodSeed(seed) && campaignSeed < CAMPAIGN_SEEDS && |cs| < TOKEN_SHIFT
    requires Numbered(cs, seed, hashes, campaignSeed) && DistinctFingerprints(cs, seed)
    ensures Distinct(CorpusDocs(seedXml, cs))
  {
    hide GoodSeed, IsCandidate, ParseInvoice, Payload;
    var docs := CorpusDocs(seedXml, cs);
    forall i, j | 0 <= i < j < |docs| ensures docs[i] != docs[j] {
      if i == 0 {
        SeedDocumentDiffers(seedXml, cs[j - 1], seed, hashes, campaignSeed, j - 1);
      } else {
        DocumentsDiffer(cs[i - 1], cs[j - 1], seed, hashes, campaignSeed, i - 1, j - 1);
      }
    }
  }

  /** The corpus of a campaign meets what run_campaign relies on: distinct numbers and distinct documents. */
  lemma {:induction false} GeneratedCorpusIsDistinct(seedXml: Element, cs: seq<Candidate>, seed: Invoice, hashes: Hashes,
    campaignSeed: nat, count: nat)
    requires ParseInvoice(seedXml) == Ok(seed) && GoodSeed(seed) && ArgumentsOk(count, campaignSeed, 0, 1)
    requires IsShard(cs, seed, hashes, campaignSeed, count, 0, 1) && DistinctFingerprints(cs, seed)
    ensures DistinctCorpus(seedXml, cs)
  {
    hide GoodSeed, ParseInvoice, IsShard, Numbered, DistinctFingerprints, CorpusDocs, Distinct;
    ShardIsNumbered(cs, seed, hashes, campaignSeed, count);
    NumbersAreDistinct(cs, seed, hashes, campaignSeed);
    DocumentsAreDistinct(seedXml, cs, seed, hashes, campaignSeed);
  }

  lemma {:induction false} IndexOf(c: Candidate, seed: Invoice, hashes: Hashes, campaignSeed: nat, index: nat)
    requires IsCandidate(c, seed, hashes, campaignSeed, index)
    ensures c.index == index
  {
    hide InvoiceAt, SerializeInvoice, Payload, OperationsAt;
  }
}
