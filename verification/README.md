# Rechnungsprobe: a verified model

Rechnungsprobe generates variants of one valid electronic invoice, runs an importer on them, and
shrinks the first variant on which the importer fails. This project models the deterministic middle
of that program and proves what it promises. `dafny verify dfyconfig.toml` checks everything.

## What is modelled

**The invoice** (`Invoices`, `Decimals`, `Rounding`, `Money`, `Totals`, `Calendar`, `Texts`). Decimal
numbers are sign, coefficient and exponent, as Python's decimal module keeps them; every product, sum
and quantisation goes through an explicit 28-digit, half-even context step before cents are rounded
half up. `Rounding` does this arithmetic on the represented numbers and shows that it depends on their
values only; `Money` and `Totals` then reason in whole millionths and cents.

**Documents** (`Trees`, `Serialize`, `Writer`, `Parse`, `PartyRoundTrip`, `LineRoundTrip`, `InvoiceRoundTrip`,
`Fingerprint`, `Documents`). XML is an element tree. Every parent has a table of its children in
document order; `Writer` appends them step by step as the source does and is proved to produce that
layout, and reading follows the paths of the source. Fingerprints are hashes of the printed
canonical payload (`JsonText`).

**The shrinker** (`Reductions`, `Measure`, `Enumerate`, `OneStepReductions`, `Shrink`, `ShrinkRuns`,
`ShrinkExit`, `ShrinkTotal`). About thirty kinds of reduction, the loops that collect them, and the
greedy loop as a function of two oracles. The finding oracle may answer every call differently and
may raise.

**When shrinking is minimal** (`ShrinkGreedy`, `ShrinkSkips`, `ShrinkParts`, `ShrinkShort`,
`ShrinkLineTexts`, `ShrinkLines`, `ShrinkExample`). A run is a greedy path through the graph of
reductions. A *skip* is a path without short cuts on which some document is offered for the first time
behind the step taken, and offered again at the end. Results are 1-minimal under all oracles that
answer by the document exactly when no skip starts at the invoice. For an invoice with one line that
is a matter of the lengths of its texts; with several lines short texts are needed, and not enough.

**The campaign** (`Observed`, `CampaignFacts`, `CampaignOutcome`, `Campaign`, `CampaignMinimal`,
`CampaignAborts`). A class with the validity cache and the workspace counters, whose methods are the callbacks, the
shrinker, the independent minimality check, the reproductions, the packing, and the run over all
candidates. Ghost fields record what was submitted to the validator and what the importer ran on. The
predicate may refuse what the importer wrote. The contracts say what is true of every record and of
every aborted run, and, for an importer that answers by the document, exactly when a record is written.

**From findings to capsules** (`Packing`, `CampaignCapsules`). How a campaign turns what it observed
into a record with provenance and packs it; which records can be packed; and that what a campaign
packed verifies.

**The corpus** (`Mutators`, `MutatorTotals`, `Schedule`, `Corpus`, `Sharding`, `CorpusManifest`,
`CampaignCorpus`, `Materialize`, `CorpusFiles`). Mutators, the schedule of pairs, generation, shards,
the coverage gate, the manifest, and writing the directory with interruptions and resumption over a
small file system (`Files`).

**Bounded scanners** (`JsonScan`, `XmlPreflight`), **the archive extractor** (`Archive`,
`Extraction`), **process accounting** (`OutputBudget`, `DirectoryScan`), and **capsules**
(`JsonFields`, `Provenance`, `Reporting`, `Replay`, `Capsule`).

Code that works step by step is imperative here too: loops with invariants, and the classes
`Campaign.Session`, `XmlPreflight.Preflight`, `OutputBudget.SharedOutput` and `Files.FileSystem`,
whose methods are proved against functions of the old state.

## What turned out to be different from the documentation

`Departures` holds the inputs.

- `shrink_invoice` says it reaches a 1-minimal invoice. It puts a whole frontier into the checked set
  but stops at the first accepted candidate, so a later candidate can be skipped for ever
  (`ShrinkExample.NotAlwaysMinimal`). `ShrinkSkips.AlwaysMinimalUnlessSkip` is the exact condition on
  the start invoice, `ShrinkShort.MinimalIfShort` its closed form for one line: no reducible text,
  mail addresses apart, may have more than two characters. With several lines that is not enough:
  two lines named 2A and 2 (`ShrinkLines.TwoLinesNotMinimal`). `ShrinkExit.VariantIsMinimal` shows
  that marking only tried candidates would suffice.
- The separate check of the campaign keeps every emitted finding minimal, but at the price of the
  finding: when the shrinker missed a reduction the campaign aborts (`Campaign.Session.Report`,
  `CampaignMinimal.MinimizesUnlessMissed`). For every candidate of every generated corpus there is an
  importer that crashes on it first and with which the campaign aborts, although the validator accepts
  every document (`CampaignAborts.NoCandidateIsSafe`).
- Nor does every 1-minimal, reproduced finding end in a report: packing can still refuse it, and
  aborts the campaign. It does for every finding of the JSON predicate on a process that exited
  (`CampaignCapsules.JsonNeverReported`), and for a finding shrunk to white space
  (`Departures.BlankFinding`). `CampaignCapsules.ReportsExactly` with `Packing.PackExact` is the
  exact condition.
- Equal fingerprints do not imply equal documents: a price of negative zero is written with its sign
  in the line amount (`Departures.NegativeZeroPrice`). `Documents.DocumentsAndFingerprints` is the
  exact condition.
- A valid invoice need not be writable: with VAT rates far above ten million percent the totals exceed
  28 digits and quantisation raises (`Totals.TotalsMayNotExist`; exactly when: `Totals.TotalsAreExact`).
- A line amount is rounded twice, which can charge a cent too much (`Departures.OneCentTooMuch`;
  exactly when: `Money.DoubleRounding`), and so is its tax (exactly when: `Money.TaxDoubleRounding`).
- A corpus cannot be generated from every seed that is accepted: with an issue date at the end of the
  year 9999 the due-date mutator overflows (`Departures.LateSeedFails`; exactly which seeds and
  indices: `Corpus.GenerateCandidates`, `Mutators.MutateExact`).
- A corpus file above the size that a comparison reads can be written but never resumed
  (`Departures.LargeFileStays`; exactly when: `Departures.WriteAndResume`, `Materialize.ResumableExact`).
- A finding of the JSON predicate whose process exited normally has no declared kind, so no report and
  no capsule can be written for it (`Departures.JsonFindingIsUnwritable`; exactly which:
  `Reporting.UnwritableRecords`).
- A replay with an unknown input mode or a pointer without a leading slash can be printed but not read
  back (`Departures.ReplaysOneWay`; exactly when: `Replay.ReplayReadsBack`).

## Model

| member | source | states |
|---|---|---|
| `Decimals.DecimalRoundTrip` | src/rechnungsprobe/model.py:431-435 | the plain text of a validated decimal parses back to the same number in canonical form |
| `Decimals.DecimalTextInjective` | src/rechnungsprobe/model.py:431-435 | two validated decimals have the same text if and only if they are numerically equal |
| `Decimals.SameNumberMicros` | src/rechnungsprobe/model.py:239-250 | numeric equality of decimals, by which the VAT rates are compared, is equality of their values in millionths |
| `Rounding.LineExtensionValue` | src/rechnungsprobe/model.py:148-150 | the product under the 28-digit context, quantised half up, never raises in bounds and depends on the values of quantity and price only, except for the sign of a zero |
| `Rounding.TaxExtensionValue` | src/rechnungsprobe/model.py:204-215 | the tax of one line, likewise, for every amount a line can have |
| `Rounding.QuantizeValidated` | src/rechnungsprobe/shrink.py:270-274 | quantising a validated number to cents cannot raise, stays in bounds, and rounds half to even |
| `Money.LineAmountError` | src/rechnungsprobe/model.py:148-150 | a line amount is within half a cent plus 5e-10 of quantity times price, and is exactly half-up rounding below 1e16 |
| `Money.DoubleRounding` | src/rechnungsprobe/model.py:148-150 | double rounding changes a line amount if and only if the product has more than 28 digits and lies just below a half cent, within reach of the context step |
| `Departures.OneCentTooMuch` | src/rechnungsprobe/model.py:148-150 | 999999999.999999 pieces at 999995000.000001 cost a cent more than the exact amount rounded half up |
| `Money.TaxDoubleRounding` | src/rechnungsprobe/model.py:204-215 | double rounding changes the tax of a line if and only if the product has more than 28 digits and lies just below a half cent, within reach of the context step, whose unit grows with the digits |
| `Money.TotalExact` | src/rechnungsprobe/model.py:200-219 | summing under the context and quantising gives the exact sum if that has at most 28 digits, and raises otherwise |
| `Totals.TotalsAreExact` | src/rechnungsprobe/model.py:200-219 | the three totals exist if and only if the payable amount has at most 28 digits, and are then the exact sums of the rounded line amounts and taxes |
| `Totals.ModestRatesFit` | src/rechnungsprobe/model.py:200-219 | with rates up to 1e7 all totals of up to one hundred valid lines exist |
| `Totals.TotalsMayNotExist` | src/rechnungsprobe/model.py:204-219 | ten valid lines at the validated bounds whose totals cannot be quantised |
| `Totals.VatDrift` | src/rechnungsprobe/model.py:200-219 | with one rate, the tax total is within half a cent per line of the rate applied to the line total |
| `Totals.RemoveLineConserves` | src/rechnungsprobe/model.py:200-219 | removing a line lowers both sums by exactly that line's share and never makes a total raise |
| `Totals.TotalsIgnoreOrder` | src/rechnungsprobe/mutators.py:66-67 | all totals are the same for every permutation of the lines, so line-order preserves them |
| `Calendar.DateRoundTrip` | src/rechnungsprobe/model.py:56-60 | the ISO text of a date is read back as that date |
| `Calendar.AddDaysPrefix` | src/rechnungsprobe/mutators.py:158-162 | if adding n days stays within the calendar, so does adding fewer |
| `Invoices.ValidateLines` | src/rechnungsprobe/model.py:236-250 | the loop with its two sets accepts exactly: 1 to 100 valid lines, distinct identifiers, one rate |
| `Invoices.Validate` | src/rechnungsprobe/model.py:221-252 | validation accepts exactly the valid invoices |
| `PartyRoundTrip.PartyReadsBack` | src/rechnungsprobe/model.py:255-287 | a written party is read back unchanged, or refused exactly when one of four required texts is blank |
| `LineRoundTrip.LineReadsBack` | src/rechnungsprobe/model.py:290-354 | a written line is read back numerically equal with its amount check passing, or refused exactly when its identifier or name is blank |
| `LineRoundTrip.MoneyRoundTrip` | src/rechnungsprobe/model.py:438-439 | a money text is read back as the same number of cents and survives the quantisation of the total check |
| `InvoiceRoundTrip.WriteThenRead` | src/rechnungsprobe/model.py:357-412 | parsing a serialised invoice gives a numerically equal invoice with no total check firing, exactly when no required text is blank |
| `InvoiceRoundTrip.ParsedIsWritable` | src/rechnungsprobe/model.py:357-412 | whatever has been read from a document is valid, has totals, has no blank required text, and so can be written |
| `InvoiceRoundTrip.ReadWriteRead` | src/rechnungsprobe/model.py:357-614 | any document that can be read, written back and read again gives the same invoice with canonical numbers |
| `Writer.PartyOf` | src/rechnungsprobe/model.py:442-481 | appending the party's elements one by one, optional ones only when present, gives exactly the specified layout |
| `Writer.LineOf` | src/rechnungsprobe/model.py:547-601 | the same for one invoice line |
| `Writer.MonetaryOf` | src/rechnungsprobe/model.py:532-545 | the loop over the four totals puts each amount under its own name, in order |
| `Writer.WriteInvoice` | src/rechnungsprobe/model.py:484-614 | validating, totalling and writing step by step yields the specified document, and fails exactly when validation or a total fails |
| `Fingerprint.FingerprintsAgree` | src/rechnungsprobe/model.py:617-643 | payloads of valid invoices are equal if and only if the invoices are, numbers by value |
| `Fingerprint.FingerprintTextsAgree` | src/rechnungsprobe/model.py:635-643 | so are the printed texts that are hashed |
| `Documents.DocumentInjective` | src/rechnungsprobe/model.py:484-614 | the element tree determines the invoice up to the writing of its numbers |
| `Documents.DocumentsAndFingerprints` | src/rechnungsprobe/model.py:484-643 | documents are equal if and only if fingerprints are and prices carry the same signs |
| `Departures.NegativeZeroPrice` | src/rechnungsprobe/model.py:617-643 | prices 0 and -0: equal fingerprints, different documents |
| `JsonText.PrintExact` | src/rechnungsprobe/reporting.py:193-207 | two printed values before a delimiter are equal only if the values and the rest of the text are |
| `JsonText.PrintInjective` | src/rechnungsprobe/model.py:637-643 | compact JSON printing is injective |
| `OneStepReductions.TextReductions` | src/rechnungsprobe/shrink.py:68-83 | the generator yields exactly the enabled text reductions, in order, without repeating a text |
| `OneStepReductions.PartyReductions` | src/rechnungsprobe/shrink.py:122-159 | the loops over party fields collect exactly the specified operations in order |
| `OneStepReductions.LineReductions` | src/rechnungsprobe/shrink.py:206-283 | the loops over the optional fields, the period, the classification, the texts and the numbers of one line collect its operations in order |
| `OneStepReductions.NumberReductions` | src/rechnungsprobe/shrink.py:266-283 | the nested loops over quantity and price, and over one and whole cents, yield exactly the operations that change the number |
| `OneStepReductions.CollectOperations` | src/rechnungsprobe/shrink.py:286-332 | all loops together collect the operation list of the invoice |
| `OneStepReductions.OneStepReductions` | src/rechnungsprobe/shrink.py:286-341 | the collected operations are applied, and the filter loop keeps the first valid reduction of each fingerprint; an invalid invoice is refused |
| `Enumerate.OperationsExact` | src/rechnungsprobe/shrink.py:286-332 | an operation is listed if and only if it is enabled for the invoice |
| `OneStepReductions.OneStepSound` | src/rechnungsprobe/shrink.py:286-341 | every reduction is an enabled operation applied, valid, and strictly smaller |
| `OneStepReductions.OneStepComplete` | src/rechnungsprobe/shrink.py:333-341 | every enabled operation with a valid result is represented by an equal invoice |
| `Measure.EveryStepShrinks` | src/rechnungsprobe/shrink.py:68-341 | every enabled operation strictly lowers one natural-number measure |
| `Measure.MeasureSame` | src/rechnungsprobe/shrink.py:286-341 | numerically equal invoices have equal measure, so no document is visited twice |
| `ShrinkRuns.TryIsHonest` | src/rechnungsprobe/shrink.py:395-401 | trying a frontier records truthfully what happened to each document, asks about none twice, and changes no earlier entry |
| `ShrinkExit.RunExits` | src/rechnungsprobe/shrink.py:376-403 | every run of the loop ends in a sound exit state reached by the accepted operations, in at most as many steps as the measure went down |
| `ShrinkExit.ShrinkResult` | src/rechnungsprobe/shrink.py:344-409 | the result is valid, was shown to preserve the finding, is reached by the accepted operations in order, and every one-step reduction was tried and rejected or is deferred |
| `ShrinkExit.MinimalUnlessMissed` | src/rechnungsprobe/shrink.py:379-403 | whatever the run was: its result is 1-minimal if and only if no deferred reduction of it would have been accepted |
| `ShrinkGreedy.ShrinkIsGreedy` | src/rechnungsprobe/shrink.py:376-403 | with a finding check that depends on the document, an invoice is returned if and only if a greedy path leads to it: each step takes the first accepted document that no earlier frontier offered, until there is none |
| `ShrinkSkips.MinimalWithoutSkip` | src/rechnungsprobe/shrink.py:379-403 | condition on the two oracles: if they do not accept all documents of some skip from the start, the result is 1-minimal |
| `ShrinkSkips.SkipMissesUnder` | src/rechnungsprobe/shrink.py:379-403 | conversely, oracles that accept the documents of a skip and nothing else that it offers make the run follow it and end in an invoice that is not 1-minimal |
| `ShrinkSkips.AlwaysMinimalUnlessSkip` | src/rechnungsprobe/shrink.py:379-403 | condition on the start invoice: the result is 1-minimal under all oracles that depend on the document if and only if no skip starts there |
| `ShrinkParts.StepLowers` | src/rechnungsprobe/shrink.py:68-341 | every reduction of an invoice with one line lowers the weight of one part of it and leaves all others alone |
| `ShrinkParts.OneStepInOrder` | src/rechnungsprobe/shrink.py:286-341 | the reductions are listed in the declared order of places, up to those of single lines if there are several |
| `ShrinkShort.ShortIsMinimal` | src/rechnungsprobe/shrink.py:358-409 | one line and no reducible text, mail addresses apart, of more than two characters: the result is 1-minimal under all such oracles |
| `ShrinkShort.LongTextSkips` | src/rechnungsprobe/shrink.py:68-83 | a longer text, of the header, of a party or of the only line, starts a skip: it is halved, and its replacement by A is deferred for ever |
| `ShrinkLineTexts.LineTextSkips` | src/rechnungsprobe/shrink.py:206-283 | so does a longer text of any line, unless it is an identifier whose half or A names another line |
| `ShrinkShort.MinimalIfShort` | src/rechnungsprobe/shrink.py:358-409 | with one line and modest rates both conditions are the same: minimal under all oracles if and only if the texts are short |
| `ShrinkLines.LinesSkip` | src/rechnungsprobe/shrink.py:297-307 | any number of lines: if removing one leaves what can be reduced to the result of removing an earlier one, some oracles lead to a result that is not 1-minimal |
| `ShrinkLines.MinimalNeeds` | src/rechnungsprobe/shrink.py:358-409 | what minimality under all oracles needs with any number of lines: short texts in header, parties and lines, identifiers that cannot be reduced apart, and no line one step above a later one |
| `ShrinkLines.TwoLinesNotMinimal` | src/rechnungsprobe/shrink.py:297-307 | two lines that differ only in their identifiers 2A and 2: each alone is always shrunk to the end, both together are not |
| `ShrinkExit.VariantIsMinimal` | src/rechnungsprobe/shrink.py:379-403 | marking only tried candidates as checked would make every result 1-minimal |
| `ShrinkExample.NotAlwaysMinimal` | src/rechnungsprobe/shrink.py:379-401 | payment terms XYZW with a finding on XYZW, XY and A: the run stops at XY, which is not 1-minimal |
| `ShrinkExample.MinimalForShortTerms` | src/rechnungsprobe/shrink.py:358-409 | for the invoices of the example, XYZW among them, this is payment terms of at most two characters |
| `ShrinkTotal.ShrinkReturns` | src/rechnungsprobe/shrink.py:358-409 | with rates up to 1e7 and a finding check that does not raise, shrinking raises exactly when the initial check does |
| `CampaignFacts.CollectPending` | src/rechnungsprobe/shrink.py:378-385 | the frontier loop yields the unchecked candidates and adds exactly their documents to the checked set |
| `CampaignFacts.FreshCount` | src/rechnungsprobe/shrink.py:383-384 | the checked set grows by one for each pending candidate, so attempts is its size |
| `CampaignFacts.MissingExact` | src/rechnungsprobe/campaign.py:350-354 | the documents sent to the validator are exactly the uncached ones, each once |
| `Observed.CaseIdsDiffer` | src/rechnungsprobe/campaign.py:358-361 | batch identifiers never clash |
| `Campaign.Session.ValidateChunk` | src/rechnungsprobe/campaign.py:356-366 | one batch: complete answers enter the cache under their digests, and a truthful cache stays truthful |
| `Campaign.Session.ValidateMissing` | src/rechnungsprobe/campaign.py:355-366 | chunks of 64 together submit every missing document once |
| `Campaign.Session.ValidateBatch` | src/rechnungsprobe/campaign.py:349-370 | the answers are the pointwise validator answers for any tuple, the cache stays truthful, and only new documents are submitted |
| `Campaign.Session.IsValid` | src/rechnungsprobe/campaign.py:337-347 | the one-document form, with the same guarantees |
| `Campaign.Session.RunAndEvaluate` | src/rechnungsprobe/campaign.py:188-229 | the importer is run once, on a document already known to be valid; its output is validated in a workspace of its own when the predicate asks for it, a wrong answer set counts as invalid, and the predicate may refuse the output |
| `Campaign.Session.Preserves` | src/rechnungsprobe/campaign.py:372-392 | answers whether this run shows the expected signature, and raises on another target digest or when the predicate does |
| `Campaign.Session.TryPending` | src/rechnungsprobe/shrink.py:395-401 | the loop over pending candidates ends like its specification, with the same importer calls |
| `Campaign.Session.Round` | src/rechnungsprobe/shrink.py:376-403 | one pass of the main loop is one unfolding of the specification; whatever the oracles answer, an accepted invoice is known to be valid |
| `Campaign.Session.ShrinkInvoice` | src/rechnungsprobe/shrink.py:358-409 | with batches or one by one, the method returns what the specification returns; under any validator and importer the result is known to be valid, the accepted operations lead to it, and attempts is the number of different documents on the way |
| `Campaign.Session.ConfirmAny` | src/rechnungsprobe/shrink.py:425-450 | every reduction is written, validated and run until one is confirmed; the answer names the first one, or refutes all; with a steady importer there is an answer exactly when the frontier can be written and no output is refused before a reduction is confirmed |
| `Campaign.Session.VerifyOneMinimal` | src/rechnungsprobe/shrink.py:412-450 | "minimal" only if every reduction was observed invalid or without the finding in this call, otherwise the first confirmed operation is named; with a steady importer it answers exactly when the initial check passes, the frontier can be written and no output is refused before a confirmed reduction, and "minimal" means 1-minimal |
| `CampaignFacts.AnswerIsExact` | src/rechnungsprobe/shrink.py:412-450 | with a truthful cache and a steady importer, the evidence behind either answer decides 1-minimality |
| `Campaign.Session.Reproduce` | src/rechnungsprobe/campaign.py:413-441 | all reproductions were on the reduced document, on the same target with the same signature and identical observations |
| `Campaign.Session.Report` | src/rechnungsprobe/campaign.py:394-483 | the recorded operations and attempts lead from the candidate to the reported invoice, the matched run showed the recorded signature, everything else was observed as recorded, and the capsule is the packed record; with a steady importer a finding is reported if and only if shrinking returns a 1-minimal invoice, no reduction is refused by the predicate, and the record is packed |
| `Campaign.Session.ValidateCorpus` | src/rechnungsprobe/campaign.py:153-173 | succeeds exactly when the validator accepts seed and candidates; all of them are then cached |
| `Campaign.Session.RunCampaign` | src/rechnungsprobe/campaign.py:265-492 | completed or aborted, the importer ran only on documents judged valid and none was submitted twice; at most one finding, of the first matching candidate and its run, packed; without one nothing matched; with a pointwise validator and one steady target it completes if and only if the arguments are legal, the corpus is valid, no output before the first match is refused, and the first match is shrunk to a 1-minimal invoice, checked and packed |
| `CampaignOutcome.MinimalRefusals` | src/rechnungsprobe/shrink.py:425-450 | on a 1-minimal invoice a refused output is never behind a confirmed reduction: the independent check answers exactly when nothing is refused |
| `CampaignCapsules.EmittedIsReported` | src/rechnungsprobe/campaign.py:394-483 | whatever the importer does, an emitted record has the invoice's document and fingerprint, the candidate's number and mutations, and observations that agree with it |
| `CampaignCapsules.ReportsExactly` | src/rechnungsprobe/campaign.py:394-483 | a matched candidate is reported if and only if it is shrunk to a 1-minimal invoice and the record is packable |
| `CampaignCapsules.FindingIsPackable` | src/rechnungsprobe/campaign.py:445-481 | under any importer, what was reported was packable |
| `CampaignCapsules.FindingVerifies` | src/rechnungsprobe/campaign.py:472-481 | the capsule of every reported finding verifies exactly within the readers' limits and with a well-formed replay, and gives back record, invoice and replay |
| `CampaignCapsules.JsonNeverReported` | src/rechnungsprobe/reporting.py:50-56 | a finding of the JSON predicate on a process that exited is never reported: the campaign aborts |
| `CampaignCapsules.GeneratedIsProper` | src/rechnungsprobe/provenance.py:36-81 | candidates of a corpus of legal size and seed have provenance and mutation labels within the limits |
| `Packing.PackExact` | src/rechnungsprobe/campaign.py:445-481 | a campaign's record passes the checks of provenance, record and capsule if and only if the reduced invoice can be read back, termination and details are within their limits, the predicate has a declared kind and is the replayed one, the replay can be printed, and the digest is one, and the container's |
| `Packing.PackedVerifies` | src/rechnungsprobe/capsule.py:99-279 | what was packed verifies exactly within the readers' limits and with a well-formed replay, and gives back record, invoice and snapped replay |
| `Departures.BlankReduction` | src/rechnungsprobe/campaign.py:409-481 | halving the payment terms " X" is a valid, writable reduction whose document cannot be read back, so no finding shrunk to it is packed |
| `Departures.BlankFinding` | src/rechnungsprobe/campaign.py:394-481 | an importer that crashes on the documents with terms " X" and " " and on no other: the finding is shrunk to a 1-minimal invoice, and never reported |
| `CampaignFacts.EmittedIsMinimal` | src/rechnungsprobe/campaign.py:400-483 | with a pointwise validator and a finding that depends on the document, an emitted record reports a valid, preserving, 1-minimal invoice |
| `CampaignMinimal.MinimizesUnlessMissed` | src/rechnungsprobe/campaign.py:400-407 | a matched invoice passes the independent check if and only if shrinking returns and missed no deferred reduction |
| `CampaignMinimal.ShortMinimizes` | src/rechnungsprobe/campaign.py:400-407 | with one line, short texts and modest rates, every invoice that passes the initial check passes it |
| `CampaignAborts.SkipMayAbort` | src/rechnungsprobe/campaign.py:394-407 | an importer that crashes on the documents of a skip, and on nothing else that it offers, passes the initial check and fails the independent one |
| `CampaignAborts.LongMayAbort` | src/rechnungsprobe/campaign.py:400-407 | with a longer text there is such an importer, under a validator that accepts every document |
| `CampaignAborts.NoCandidateIsSafe` | src/rechnungsprobe/campaign.py:265-407 | for every candidate of every corpus from a good seed there are a validator that accepts every document and an importer, judged by the crash predicate, whose first match is this candidate and with which the campaign aborts |
| `CampaignMinimal.CandidateIsRewritten` | src/rechnungsprobe/campaign.py:394-395 | the document that shrinking starts from is the candidate itself if and only if no price is a negative zero |
| `Mutators.MutateSucceeds` | src/rechnungsprobe/mutators.py:13-197 | each of the twenty mutators maps a suitable invoice to a valid one that is suitable for all mutators not used yet |
| `Mutators.MutateExact` | src/rechnungsprobe/mutators.py:189-197 | on any valid invoice read from a document a mutator fails exactly when a due date would lie past the year 9999, a renamed or added line would take another one's identifier, or there would be more than a hundred lines |
| `Mutators.NumbersFine` | src/rechnungsprobe/mutators.py:80-89 | the scaled quantity is a quarter of its numerator exactly, and both scaled numbers are in bounds |
| `MutatorTotals.TotalsKept` | src/rechnungsprobe/mutators.py:13-163 | sixteen of the twenty mutators leave line, tax and payable totals as they were |
| `MutatorTotals.AddedLineAddsOneEuro` | src/rechnungsprobe/mutators.py:124-140 | add-line adds one line, exactly one euro to the line total, and the tax on one euro |
| `Schedule.PairExact` | src/rechnungsprobe/corpus.py:71-90 | an index shows an ordered pair of mutators if and only if it has the pair's residue modulo 380 |
| `Schedule.EveryPairOnce` | src/rechnungsprobe/corpus.py:17-23 | any 380 consecutive indices after the first twenty show every ordered pair exactly once |
| `Corpus.OperationsShape` | src/rechnungsprobe/corpus.py:75-102 | one to three different mutators, exactly one of them invoice-id with the unique token |
| `Corpus.CandidateExists` | src/rechnungsprobe/corpus.py:71-104 | from a good seed every candidate is valid, writable, readable, and carries its own identifier |
| `Corpus.NeverCollides` | src/rechnungsprobe/corpus.py:106-107 | candidates never collide with each other, whatever the seed; from a good seed the collision error is unreachable |
| `Corpus.MutateSeed` | src/rechnungsprobe/corpus.py:82-102 | the step-by-step mutation of the seed gives the scheduled invoice and records its operations |
| `Corpus.GenerateCandidates` | src/rechnungsprobe/corpus.py:51-118 | one shard in order with distinct fingerprints; for any seed read from a document it succeeds exactly when the arguments are legal and, for every index of the shard, every mutation is taken, the totals exist and the result is not the seed; from a good seed for all legal arguments |
| `Departures.LateSeedFails` | src/rechnungsprobe/mutators.py:158-162 | a valid seed issued on 9999-12-31 gives no corpus of twenty or more candidates, whatever the campaign seed |
| `Sharding.ShardsMerge` | src/rechnungsprobe/corpus.py:71 | the shards partition the index range, and merging them by index gives the unsharded corpus |
| `Sharding.GateExact` | src/rechnungsprobe/gates.py:97-106 | the coverage gate passes if and only if there are at least 400 candidates |
| `CorpusManifest.CorpusManifest` | src/rechnungsprobe/corpus.py:121-180 | an empty corpus, a repeated index or a second provenance is refused; otherwise the loops over the sorted candidates give root, entries and buckets |
| `CorpusManifest.ManifestExact` | src/rechnungsprobe/corpus.py:121-180 | two corpora have the same manifest if and only if they have the same candidates, in any order |
| `CorpusManifest.ShardsShareManifest` | src/rechnungsprobe/corpus.py:121-180 | the shards put together in any order have the manifest of the unsharded corpus |
| `CorpusManifest.BucketsExact` | src/rechnungsprobe/corpus.py:141-145 | the listed buckets are exactly the ordered pairs that the corpus shows |
| `CampaignCorpus.CandidateReadsBack` | src/rechnungsprobe/campaign.py:394-395 | every generated document parses back to its invoice, so the shrinker can start from it |
| `CampaignCorpus.GeneratedCorpusIsDistinct` | src/rechnungsprobe/campaign.py:292-309 | a generated corpus has distinct numbers and documents, as the campaign relies on |
| `Materialize.MaterializeCorpus` | src/rechnungsprobe/corpus.py:188-252 | nothing that exists changes and only planned files are added; it succeeds only on a resumable directory, always if no operation fails, and then the corpus is complete |
| `Materialize.ResumableExact` | src/rechnungsprobe/corpus.py:183-252 | what interrupted runs leave can be resumed if and only if no file already there exceeds the comparison limit |
| `Departures.WriteAndResume` | src/rechnungsprobe/corpus.py:188-252 | without faults a first run writes the whole corpus, and resuming it fails if and only if a file is above the comparison limit |
| `Departures.LargeFileStays` | src/rechnungsprobe/corpus.py:183-252 | a document of two mebibytes and a byte is written and can never be resumed |
| `Materialize.ResumeUntilDone` | src/rechnungsprobe/corpus.py:188-252 | any sequence of interrupted and resumed runs keeps the tree between the original and the complete one; if no file is above the comparison limit, one of them completes it, at the latest when nothing fails any more |
| `Materialize.ResumeLikeOneRun` | src/rechnungsprobe/corpus.py:188-252 | the tree it completes is the one that a single run makes on a copy of the original tree |
| `CorpusFiles.MaterializeShard` | src/rechnungsprobe/corpus.py:188-252 | generation, manifest and writing as one operation: nothing that exists changes, a refusal before the first directory changes nothing, success leaves exactly the shard of the arguments under its manifest, and without faults it succeeds exactly when the shard can be generated and what is there can be resumed |
| `JsonScan.ScanLoop` | src/rechnungsprobe/reporting.py:268-293 | the one-pass scanner with its four variables computes the character-by-character specification |
| `JsonScan.ValueScans` | src/rechnungsprobe/reporting.py:268-293 | inside any document, a printed value moves the counters by its own tokens or is rejected for its nesting or tokens |
| `JsonScan.ScannerExact` | src/rechnungsprobe/reporting.py:268-293 | a printed document is accepted if and only if its nesting is at most 64 and its structural tokens at most 100000; the scan then ends outside strings at depth 0 |
| `JsonFields.StrictJsonExact` | src/rechnungsprobe/reporting.py:260-330 | the strict reader returns a printed value exactly when it is within all limits |
| `XmlPreflight.Preflight.Start` | src/rechnungsprobe/xmlsafe.py:62-81 | the start handler keeps both stacks as long as the depth and computes its specification |
| `XmlPreflight.Preflight.End` | src/rechnungsprobe/xmlsafe.py:83-87 | the end handler, likewise |
| `XmlPreflight.Preflight.Characters` | src/rechnungsprobe/xmlsafe.py:89-101 | the text handler, likewise |
| `XmlPreflight.Preflight.Parse` | src/rechnungsprobe/xmlsafe.py:103-117 | a whole event stream is accepted exactly when the specification accepts it |
| `XmlPreflight.PreflightExact` | src/rechnungsprobe/xmlsafe.py:42-117 | a document is accepted if and only if its depth, elements, attributes, text and attachments are within limits and no XInclude element occurs; both stacks are then empty |
| `XmlPreflight.ParseXml` | src/rechnungsprobe/xmlsafe.py:42-117 | the same for the whole check with the default limits: two mebibytes, depth, elements, attributes, text and XInclude |
| `Archive.Validate` | src/rechnungsprobe/security.py:98-126 | the validation pass accepts exactly the allowed archives |
| `Extraction.EnsureDirectory` | src/rechnungsprobe/security.py:133-143 | missing ancestors are created from the outside in and recorded; without faults it fails only on something else than a directory on the way; failure leaves a state that can be rolled back |
| `Extraction.CopyStream` | src/rechnungsprobe/security.py:156-165 | success means the file holds exactly the stream, of the declared size; without faults every such stream is copied |
| `Extraction.ExtractEntry` | src/rechnungsprobe/security.py:146-165 | one entry: without faults it is extracted if and only if no earlier file is where it needs a directory, its own path is free and its stream fits |
| `Extraction.Rollback` | src/rechnungsprobe/security.py:167-175 | removing files and then directories, newest first, always meets empty directories and restores the file system |
| `Extraction.SafeExtract` | src/rechnungsprobe/security.py:76-176 | on failure nothing has changed; on success exactly the declared files, directories and ancestors were added; without faults it succeeds if and only if destination and archive are acceptable, every stream has its declared size, and no file stands where an entry needs a directory |
| `Extraction.FilesAreBelow` | src/rechnungsprobe/security.py:146-155 | every extracted file lies strictly below the destination |
| `Extraction.DefaultsBoundExtraction` | src/rechnungsprobe/security.py:76-126 | with the default limits an extraction adds at most 512 files of at most 64 mebibytes in all |
| `OutputBudget.SharedOutput.Take` | src/rechnungsprobe/process.py:388-395 | the locked region extends the buffer by what fits, and stops the reader exactly when something was dropped |
| `OutputBudget.StepKeeps` | src/rechnungsprobe/process.py:381-485 | every step of either reader or the monitor keeps the accounting invariant |
| `OutputBudget.BudgetIsShared` | src/rechnungsprobe/process.py:375-408 | in every interleaving the captured data are prefixes and their lengths add up to the counter within the limit; the flag is set exactly when data was dropped, the budget is then full, and once both readers are done it is set exactly when more than the limit was written |
| `OutputBudget.VerdictIsHonest` | src/rechnungsprobe/process.py:424-485 | in every run whose readers have finished at the verdict, "exited" means nothing that was written is missing, and the output limit is reported if and only if more than the limit was written |
| `DirectoryScan.Attempt` | src/rechnungsprobe/process.py:275-308 | the worklist scan equals the recursive sums, flags only links, uninspectable entries or too many entries, and retries only when something vanished |
| `DirectoryScan.DirectoryUsage` | src/rechnungsprobe/process.py:270-310 | an unflagged result is the total of one complete attempt, never a mix; on an undisturbed tree it is flagged if and only if it must be |
| `DirectoryScan.FileLimitVerdict` | src/rechnungsprobe/process.py:442-452 | stopping early never changes the file-limit verdict |
| `Provenance.ReadsBack` | src/rechnungsprobe/provenance.py:121-230 | a printed provenance is read back exactly when it satisfies the invariant |
| `Reporting.FindingsReadBack` | src/rechnungsprobe/reporting.py:101-207 | a printed finding record is read back unchanged |
| `Departures.JsonFindingIsUnwritable` | src/rechnungsprobe/reporting.py:50-56 | a valid record of the JSON predicate with a normal exit cannot be printed |
| `Replay.WholeMilliseconds` | src/rechnungsprobe/replay.py:75-81 | whole milliseconds are printed as they were read |
| `Replay.SnapIsNearest` | src/rechnungsprobe/replay.py:75-81 | a time is accepted for a number of milliseconds if and only if it is within the tolerance of it |
| `Replay.ReplayReadsBack` | src/rechnungsprobe/replay.py:151-339 | a printed replay is read back with snapped times exactly when its input mode and pointer are well formed, and the snapped one prints the same |
| `Departures.ReplaysOneWay` | src/rechnungsprobe/replay.py:151-339 | a pointer without a slash and an unknown input mode are printed and not read back |
| `Capsule.ManifestReadsBack` | src/rechnungsprobe/capsule.py:128-141 | the manifest of a written capsule describes its members |
| `Capsule.CapsuleRoundTrip` | src/rechnungsprobe/capsule.py:99-279 | whatever can be packed verifies exactly when it is within the readers' limits and the replay is well formed, and gives back the same record, invoice and snapped replay |

## Left out

- Bytes: XML, JSON, ZIP and UTF-8 encodings, and newline normalisation by XML parsers; documents are trees, event streams, entry lists and strings.
- SHA-256 and HMAC: a hash stands for what is hashed, or is a parameter.
- Invoices.Validate: `str.isalpha` is modelled on Latin-1 letters, so country codes with other letters are refused here.
- Text: the Decimal constructor is modelled on ASCII digits, `date.fromisoformat` on its YYYY-MM-DD form; case folding of archive names is a parameter.
- ShrinkShort.MinimalIfShort: the closed form is for invoices with one line; for more lines `ShrinkSkips.AlwaysMinimalUnlessSkip` is the condition, and `ShrinkLines.MinimalNeeds` only what it needs.
- Decimal exponents outside the range of Python's context, and its exponent overflow.
- Writer.WriteInvoice: children are appended to a sequence and the element is built when they are complete; no element is changed after it was attached to its parent.
- Operation labels are a datatype instead of strings, until a record is packed.
- Campaign.Session.Report: packing is a function; writing the capsule file to disk is outside.
- Campaign.Session.RunCampaign: the capsule, the report files and the corpus files of the campaign directory are values here; writing them to disk, which can fail, is outside. The packing of records is a function of the environment, tied to `Packing.Pack` by `CampaignCapsules.PacksAs`; the texts of operation labels are a parameter.
- CorpusManifest.CorpusManifest: the manifest is a value, not its bytes; hashes stand for what they hash, and the hash of the seed document is a parameter.
- Extraction.SafeExtract: the returned paths are in archive order, not sorted; the compression ratio is compared without floating-point rounding; symbolic links exist in the tree but nothing creates one during extraction; faults during the rollback itself are not modelled.
- OutputBudget.VerdictIsHonest: timeouts, memory, processor and process limits are what the environment reports; killing the process tree is the end of its streams.
- Materialize.ResumeUntilDone: writing one file is one step, the output parent is a directory without links, and the bytes of documents and manifest are parameters; `CorpusFiles.MaterializeShard` ties them to the generated documents and the manifest by an encoding.
- Replay.SnapIsNearest: times are exact reals, without floating-point rounding.
- The JUnit rendering is a function and its well-formedness a parameter.
- JsonFields.StrictJsonExact: decoding by the standard library is modelled on printed texts only; malformed text is outside.
- The command line, profiles, the Java validator, local and container execution, comparison of runs, `execute_replay`, evidence hashing in the gates, and release tooling.
