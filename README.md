# Invoice memory engine — a Dafny model

This project models the engine that corrects an extracted invoice using
what it has learned about the invoice's vendor. The engine source is
`src/engine/engine.ts`, and `processInvoice` runs four stages in order
for one invoice:

1. **recall** selects the vendor's vendor memories and correction memories.
2. **apply** runs seven fixed rules on a copy of the invoice fields:
   - for Supplier GmbH, the service date from `Leistungsdatum`, and a PO
     number when exactly one order matches;
   - for Parts AG, the VAT-inclusive net/tax recomputation and currency
     recovery;
   - for Freight & Co, Skonto terms and the `FREIGHT` SKU;
   - for every vendor, duplicate detection.
3. **decide** computes a boosted confidence score and whether a human must
   review the invoice.
4. **learn** adjusts the correction-memory table from the human's recorded
   corrections: a row is created at 0.7 or 0.3, or an existing row's
   confidence moves by ±0.1, clamped to [0,1].

The audit entries of all stages form one trail, and the trail is written,
entry by entry, to the audit table.

The Postgres database becomes a class, `Engine.Store`, whose `seq` fields
are the tables:
- invoices, purchase orders, human corrections and vendor memories;
- the correction-memory table, with its serial-id counter;
- the audit table.

The stages that write to the database are methods with `modifies`
clauses; the two loops carry invariants:
- `Store.Learn` learns one human-correction record; its loop over the
  corrections is `Store.LearnCorrections`, and one read-then-insert-or-update
  is `Store.LearnCorrection`;
- `Store.AppendAuditEntries` is the loop that persists the trail;
- `Store.ProcessInvoice` fetches the invoice and calls `Store.RunStages`,
  which is `Store.Stages` (the four stages) followed by the audit loop.

`Store.ApplyMemory` writes nothing to the store. It is a straight-line
method that runs the seven rules in order. The working copy and the three
lists it builds are values, and each fired rule's pushes are the value
update `Rules.Record`.

Each method is proved equal to a pure specification function
(`Rules.ApplyRules`, `Learning.LearnStage`/`LearnAll`, `Engine.Run`). The
properties of the pipeline are lemmas about those functions (each rule's in
`Rules.<rule>Spec`, the whole run's in `Engine.RunSpec`).

Modules:
- `Wrappers`, `Arith`, `Seqs`: helpers shared by the other modules;
- `Model`: the data types of `src/types.ts` and `src/engine/types.ts`;
- `Text`: a small regex scanner, ASCII lowercasing, and JavaScript `split`;
- `Dates`: `parseInvoiceDate` and a day-number model of `new Date`;
- `Rules`, `RuleLemmas`, `RuleScenarios`: the apply stage;
- `Decision`: the decide stage;
- `Learning`: the learn stage;
- `Engine`: recall, the store and `processInvoice`.

Units:
- Money is integer cents.
- A tax rate is integer basis points (0.19 is 1900).
- Every confidence is integer hundredths (0.7 is 70). The thresholds are
  therefore 70 and 90, the learning step is 10, and the boosts are 5 and 3.

Messages:
- Each message string the source builds becomes a datatype value carrying
  the values the message interpolates: `Correction`, `Detail`,
  `MemoryUpdate`, `Reasoning`.
- All timestamps of one run are a single `now` parameter.

## Model

| member | source | states |
|---|---|---|
| `Model.FindInvoice` | src/engine/engine.ts:9-16 | the invoice found has the requested id and is stored; none is found only when no stored invoice has that id |
| `Engine.Store.FetchInvoice` | src/engine/engine.ts:9-16 | the store's lookup returns a stored invoice with that id, or nothing exactly when there is none |
| `Engine.RecallContext` | src/engine/engine.ts:18-33 | the recalled vendor and correction memories are exactly the rows of that vendor, and no more rows than the tables hold |
| `Engine.Store.RecallMemory` | src/engine/engine.ts:18-42 | the recalled context holds exactly the vendor's rows of both tables; one `recall` entry reports the two counts and the vendor |
| `Seqs.Select` | src/engine/engine.ts:106-112 | a filter keeps exactly the elements that satisfy the predicate, and never more than it was given |
| `Text.ToLower` | src/engine/engine.ts:132 | lowercasing keeps the length and maps every character on its own |
| `Text.FirstMatch` | src/engine/engine.ts:68 | a regex match is the leftmost position where the label and its capture match; no match means no position matches |
| `Text.Split` | src/engine/engine.ts:46-51 | `split` gives at least one part, and no part contains the separator |
| `Text.JoinSplit` | src/engine/engine.ts:46-51 | joining the parts of a split with the same separator gives back the text |
| `Text.SplitJoin` | src/engine/engine.ts:46-51 | splitting a join of separator-free parts gives back the parts |
| `Dates.ParseInvoiceDateIsDay` | src/engine/engine.ts:44-54 | a date that parses is the number of a real calendar day; `ParseInvoiceDateFormats` states which day for the two separated formats |
| `Dates.DayNumberNext` | src/engine/engine.ts:106-111 | the day after a real date has the next day number, within a month, across a month end and across a year end, so day differences across month and year ends are real day distances |
| `Dates.ParseDateText` | src/engine/engine.ts:53 | a date text is valid only when it has exactly three `-`-separated parts |
| `Dates.ParseDateTextIsDay` | src/engine/engine.ts:53 | a date text that parses denotes a real calendar day |
| `Dates.ReorderDigitGroups` | src/engine/engine.ts:46-52 | `d?m?y` with digit groups is rewritten as `y-m-d` |
| `Dates.ParseDigitGroups` | src/engine/engine.ts:48 | `y-m-d` of digit groups is the day those numbers denote, or invalid when they form no calendar date |
| `Dates.ParseInvoiceDateFormats` | src/engine/engine.ts:44-54 | the dotted `d.m.y` and dashed `d-m-y` forms both parse to the day that `y-m-d` names |
| `Dates.DottedDateDay` | src/engine/engine.ts:44-48 | a dotted date of a real calendar day parses to that day's number |
| `Dates.WithinDaysSymmetric` | src/engine/engine.ts:250-254 | the day-distance window is symmetric in its two dates |
| `Arith.RoundHalfAway` | src/engine/engine.ts:144-145 | rounding to the cent gives the integer nearest to the quotient, within half a unit; an exact half goes to the neighbour of larger magnitude, away from zero; it is non-negative when the quotient is |
| `Arith.RoundHalfAwayExamples` | src/engine/engine.ts:144-145 | 5/2 rounds to 3, −5/2 to −3, and 7/3 to 2 |
| `Rules.RecordBooked` | src/engine/engine.ts:78-89 | a fired rule adds exactly one correction, one applied memory and one `apply` entry that carries that correction; a rule that does not fire adds nothing |
| `Rules.ApplyRules` | src/engine/engine.ts:56-281 | there are as many proposed corrections as applied memories, at most 7; the `apply` entries are one per fired rule, each carrying its correction, followed by one summary entry with the count and the invoice id |
| `Engine.Store.ApplyMemory` | src/engine/engine.ts:56-281 | the seven rules in order, with their pushes as value updates, compute exactly `ApplyRules` on the store's orders and invoices; every entry is an `apply` entry, one more than the applied memories |
| `Rules.ServiceDateRuleSpec` | src/engine/engine.ts:66-92 | rule 1 fires exactly for Supplier GmbH with no service date and a `Leistungsdatum:` token, and then sets only the service date, to the token as `y-m-d` |
| `Rules.PoRuleSpec` | src/engine/engine.ts:94-128 | rule 2 fires exactly for Supplier GmbH with no PO number and exactly one candidate, and then sets only the PO number, to that of a stored order of the vendor matching the invoice |
| `Rules.VatRuleSpec` | src/engine/engine.ts:130-171 | when rule 3 fires it changes only net and tax, and they add up to the gross total |
| `Rules.CurrencyRuleSpec` | src/engine/engine.ts:173-194 | rule 4 fires exactly for Parts AG with no currency and a `Currency:` code, and then sets only the currency, to that code |
| `Rules.SkontoRuleSpec` | src/engine/engine.ts:197-212 | rule 5 fires exactly on a Freight & Co text mentioning Skonto, whatever terms are present, and sets only the terms |
| `Rules.FreightSkuRuleSpec` | src/engine/engine.ts:214-234 | rule 6 fires exactly for Freight & Co when the first line has no SKU and a shipping description, and then changes only that line's SKU, to `FREIGHT` |
| `Rules.DuplicateRuleSpec` | src/engine/engine.ts:237-270 | the duplicate check fires exactly when a stored invoice of the same vendor and number has another id and lies within the window, and then sets only the flag |
| `RuleLemmas.ServiceDateOutcome` | src/engine/engine.ts:66-92 | the service date is filled only for Supplier GmbH, only when absent, and only from a `Leistungsdatum:` token reordered to `y-m-d`; otherwise it is unchanged |
| `RuleLemmas.ServiceDateCorrectionFirst` | src/engine/engine.ts:66-92 | only rule 1 reports a service date, so its correction, if any, is the first one; it is there exactly when rule 1 fires |
| `RuleLemmas.PoNumberOutcome` | src/engine/engine.ts:94-128 | the PO number is set only for Supplier GmbH, only when absent, and only when exactly one candidate exists; with zero or several candidates it stays as it was |
| `RuleLemmas.PoCandidatesExactly` | src/engine/engine.ts:96-112 | the candidates are exactly the vendor's orders dated within 30 days inclusive that share a non-empty SKU with the invoice |
| `RuleLemmas.VatRuleGate` | src/engine/engine.ts:131-153 | the VAT rule fires exactly when the vendor is Parts AG, one of the three phrases occurs, gross and rate are both present, and the recomputed net or tax differs from the present one |
| `RuleLemmas.VatOutcome` | src/engine/engine.ts:130-171 | when the rule fires, net is gross/(1+rate) rounded to the cent, net + tax = gross, and at least one of them changed; otherwise both are unchanged |
| `RuleLemmas.VatIdempotent` | src/engine/engine.ts:143-151 | on its own output the recomputation finds nothing to change |
| `RuleLemmas.CurrencyOutcome` | src/engine/engine.ts:173-194 | the currency is filled only for Parts AG, only when absent, and only from a `Currency:` code; a recovered code has three upper-case letters |
| `RuleLemmas.DiscountTermsOutcome` | src/engine/engine.ts:197-212 | a Freight & Co text mentioning Skonto always sets the terms, with no "already present" guard; other invoices keep theirs |
| `RuleLemmas.FirstLineSkuOutcome` | src/engine/engine.ts:214-234 | only the first line's SKU can change: it is filled with `FREIGHT` only for Freight & Co, only when absent, and only for a shipping description |
| `RuleLemmas.IdentityFieldsKept` | src/engine/engine.ts:61-270 | no rule changes the invoice number, the invoice date, the gross total or the tax rate |
| `RuleLemmas.DuplicateOutcome` | src/engine/engine.ts:237-270 | the copy is flagged iff some stored invoice with the same vendor and number and another id is dated within 2 days inclusive (or the flag was already set) |
| `RuleLemmas.NotOwnDuplicate` | src/engine/engine.ts:248 | an invoice alone in the store never flags itself |
| `RuleLemmas.DuplicateSymmetric` | src/engine/engine.ts:237-259 | two stored invoices of one vendor and number within the window flag each other |
| `RuleLemmas.OtherVendorOnlyDuplicate` | src/engine/engine.ts:66-270 | for any other vendor only the duplicate flag can change, and at most one rule fires |
| `RuleScenarios.LeistungsdatumScenario` | src/engine/engine.ts:66-92 | `Leistungsdatum: 05.03.2024` gives service date `2024-03-05` and the first correction reports it |
| `RuleScenarios.VatScenario` | src/engine/engine.ts:130-171 | gross 119.00 at 19 % with "MwSt. inkl." gives net 100.00 and tax 19.00 |
| `RuleScenarios.DuplicateTwoDaysScenario` | src/engine/engine.ts:237-270 | the same vendor and number dated 01.03.2024 and 03.03.2024 flag each other |
| `RuleScenarios.PairNotFlagged` | src/engine/engine.ts:248-259 | with only two invoices stored, an invoice whose partner lies outside the window is not flagged |
| `RuleScenarios.DuplicateThreeDaysScenario` | src/engine/engine.ts:237-270 | dated 01.03.2024 and 04.03.2024, neither is flagged |
| `Decision.HighConfidenceCount` | src/engine/engine.ts:287 | the count of high-confidence memories is at most the number recalled |
| `Decision.HighConfidenceCountAppend` | src/engine/engine.ts:287 | one more memory raises the count by one exactly when its confidence is at least 0.7 |
| `Decision.Score` | src/engine/engine.ts:287-290 | the score is at most 1; below 1 it is base + 0.05·rules + 0.03·memories, and it is 1 only when that sum reaches 1 |
| `Decision.Decide` | src/engine/engine.ts:284-310 | the score is at most 1; below 1 it is base + 0.05·rules + 0.03·memories, and it is 1 only when that sum reaches 1; it is at least a base ≤ 1; review is needed iff the score is below 0.9; the reasoning has the rule count exactly when rules fired; there is one `decide` entry |
| `Decision.ScoreBounds` | src/engine/engine.ts:289-290 | the score never exceeds 1 and is never below a base of at most 1 |
| `Decision.ScoreMonotone` | src/engine/engine.ts:287-290 | the score is monotone non-decreasing in both counts |
| `Decision.ApprovalStable` | src/engine/engine.ts:287-293 | an auto-approved decision stays auto-approved when more rules fire |
| `Decision.DecisionThresholdExamples` | src/engine/engine.ts:289-293 | base 0.85 with one fired rule reaches 0.90 and needs no review |
| `Engine.VendorMemoriesCarriedOnly` | src/engine/engine.ts:284-293 | the decision does not depend on the recalled vendor memories |
| `Learning.FindHumanCorrection` | src/engine/engine.ts:316-332 | the record found has the invoice's id; no record means there is none for it |
| `Learning.FindRow` | src/engine/engine.ts:335-338 | the row found is the first row with the (vendor, field) key; none means no row has that key |
| `Learning.LearnOne` | src/engine/engine.ts:334-368 | one step appends one message and adds a row exactly when the (vendor, field) key has none; `LearnOneEffect` states the row it writes |
| `Learning.LearnAll` | src/engine/engine.ts:334-369 | the loop appends one message per correction and adds at most one row per correction; `LearnAllUpdates` and `LearnAllValid` state the rest |
| `Learning.LearnStage` | src/engine/engine.ts:312-378 | without a record nothing changes, no updates result and the one `learn` entry says so; with a record the one entry reports the correction count |
| `Learning.LearnOneEffect` | src/engine/engine.ts:334-368 | a missing row is appended with the reason, the `to` value, the next id and 0.7 or 0.3; an existing row changes only its confidence, to min(1, c+0.1) or max(0, c−0.1); one update message names the row's id |
| `Learning.LearnOneMessage` | src/engine/engine.ts:352-367 | each step appends exactly one message, for its vendor and field |
| `Learning.LearnOneKeepsKeys` | src/engine/engine.ts:334-368 | a step keeps every row's key and id, adds at most one row, and leaves a row for its key |
| `Learning.LearnOneValid` | src/engine/engine.ts:334-368 | a step keeps one row per key, confidences in [0,1], and ids ascending and below the counter |
| `Learning.LearnAllValid` | src/engine/engine.ts:334-369 | the whole loop keeps the table invariant, so no second row is created for an existing key |
| `Learning.LearnAllUpdates` | src/engine/engine.ts:334-369 | the loop emits exactly one memory-update message per correction, in order, for that correction's field |
| `Learning.LearnAllKeepsKeys` | src/engine/engine.ts:334-369 | the loop keeps every earlier row's key and id, and adds at most one row per correction |
| `Learning.LearnAllCovers` | src/engine/engine.ts:334-369 | after the loop every corrected field of the vendor has a row |
| `Learning.LearnAllOtherVendors` | src/engine/engine.ts:334-369 | another vendor's rows are untouched |
| `Learning.LearnAllSameField` | src/engine/engine.ts:334-369 | repeated corrections of one existing field move that row's confidence once per correction, and the row keeps its position |
| `Learning.AdjustBounds` | src/engine/engine.ts:356-359 | an adjustment keeps a confidence in [0,1]; an approval raises it strictly below 1, a rejection lowers it strictly above 0 |
| `Learning.RepeatClosedForm` | src/engine/engine.ts:356-359 | n approvals give min(1, c + 0.1n) and n rejections give max(0, c − 0.1n) |
| `Learning.CreateExample` | src/engine/engine.ts:340-354 | a first approved correction creates its row at 0.70; a rejected one at 0.30 |
| `Learning.AdjustExamples` | src/engine/engine.ts:356-359 | 0.70 → 0.80 and 0.95 → 1.00 on approval; 0.05 → 0.00 and 0.70 → 0.60 on rejection |
| `Engine.LearnStageFacts` | src/engine/engine.ts:312-378 | learning a record emits one update per correction and keeps a valid table valid |
| `Engine.Store.Learn` | src/engine/engine.ts:312-378 | the loop's inserts and updates leave the table, the id counter and the messages exactly as `LearnStage` states; a valid table stays valid |
| `Engine.Store.LearnCorrections` | src/engine/engine.ts:334-369 | the loop over the corrections leaves the table, the counter and the messages as `LearnAll` states |
| `Engine.Store.LearnCorrection` | src/engine/engine.ts:335-367 | one read-then-insert-or-update on the table, and its message, is one `LearnOne` step |
| `Model.AuditRows` | src/engine/engine.ts:398-403 | one persisted row per trail entry, in trail order, with the invoice id, step and details |
| `Engine.Store.AppendAuditEntries` | src/engine/engine.ts:398-403 | the audit table grows by exactly the rows of the trail, in order |
| `Model.StageConcatOrdered` | src/engine/engine.ts:384-396 | recall, apply, decide and learn entries concatenated in that order form a trail whose stages never go back |
| `Engine.RunSpec` | src/engine/engine.ts:380-415 | the trail is in stage order and starts with `recall` and ends with `learn`; its length is the number of proposed corrections + 4; the score is base + 0.05·proposed corrections + 0.03·the vendor's high-confidence memories, or 1 when that sum reaches 1; review iff score < 0.9; without a record the table is unchanged and no updates result; otherwise one update per correction; a valid table stays valid |
| `Engine.Store.Stages` | src/engine/engine.ts:384-396 | recall, apply, decide and learn on one invoice give the output, table and counter of `Run` |
| `Engine.Store.RunStages` | src/engine/engine.ts:384-403 | the stages followed by the audit loop give `Run`'s output and table, and the audit log grows by the rows of its trail |
| `Engine.Store.ProcessInvoice` | src/engine/engine.ts:380-415 | an unknown id gives nothing and changes neither the table nor the audit log; otherwise the output and the new table are those of `Run`, and the audit log grows by exactly the rows of the returned trail, in order; the trail is in stage order; the table invariant is kept |

## Left out

- Database I/O. The Postgres pool, SQL text and JSONB paths are replaced by the `seq` fields of `Engine.Store`:
  - `SELECT ... WHERE` becomes an ordered filter or a first-match lookup;
  - `INSERT` becomes an append;
  - `UPDATE` becomes a replacement at the row's position;
  - `updated_at`/`NOW()` are not modelled.
  `src/db.ts` is not part of this model.
- Data loading and the demo walkthrough (`src/load_sample_data.ts`, `src/demo_structured.ts`). They are file and console I/O and are not part of this model.
- Wall-clock timestamps: every entry of a run carries the one `now` string passed in. The persisted audit row has no timestamp, as in the table insert.
- Floating point. Money is integer cents, the tax rate is basis points and confidences are hundredths. Float artefacts (0.7 + 0.1 ≠ 0.8), `toFixed` text and `parseFloat` round-trips are not modelled. `RoundHalfAway` stands for `toFixed(2)` read back as a number, which rounds halves away from zero.
- Message text. Correction, detail, update and reasoning strings become datatype values carrying the interpolated values, not their formatting.
- JavaScript `Date` parsing. `new Date(text)` is modelled as `ParseDateText`: exactly three `-`-separated non-empty digit groups forming a Gregorian `y-m-d` give a day number; anything else is an invalid date. Time zones, other accepted formats and partial dates are not modelled. An invalid date makes every window comparison false, as `NaN` does.
- Regex engine. The two patterns are a hand-written leftmost-match scanner. `\s` is JavaScript's whitespace set.
- Unicode case mapping. `toLowerCase` is modelled on ASCII letters only.
- Concurrency. The read-then-write race on a confidence row between concurrent runs is not modelled; the model is single-threaded.
- In-place updates during `applyMemory`. The write to `lineItems[0].sku` and the pushes onto the proposed-correction, applied-memory and audit arrays (src/engine/engine.ts:61, 78-89, 218) are modelled as value updates, `Rules.Record` and field replacement. Aliasing between the working copy and those arrays is not modelled.
- `structuredClone` is value copying. Fields are immutable values, so the input invoice is never changed.
- `qty` and `unitPrice` are carried as integers and not read by any rule.
- An absent `duplicate` flag on an extracted invoice is modelled as `false`.
- Rules.VatRule: a tax rate of exactly −100 % makes the divisor zero. The source would then produce `Infinity`; the model does not fire the rule.
- The `appliedMemories` parameter of `learn` and the `proposedCorrections` parameter of `decide` are unused by the source and are not passed.
- `Engine.Store` starts with an empty correction-memory table and serial ids from 1; seeding that table is not modelled.
- Dates.ParseDateText: its contract states only the shape of a valid date text; `ParseDateTextIsDay` states that its result is a real calendar day's number, and `ParseDigitGroups` and `ParseInvoiceDateFormats` state which day.
