# Public-rental housing purchase review: a verified model of the decision core

The repository reviews applications to sell existing housing to a public-rental programme.
Scanned PDF bundles are read page by page. Each page is classified into one of about twenty
document kinds, the pages of one kind are merged into a per-document extraction record, and
the records are reconciled with each other. A rule engine then turns the reconciled review
result into a list of supplementary documents the applicant must still submit. A stage-1
exclusion check (location, housing type, other grounds) can end the review before that.

This Dafny project models the deterministic part of that pipeline, once the text and the
vision-model answers are given:

- the review record and its defaults, and `merge_results` over several files (`DataModels`);
- the enhanced rule engine with its corporation cascade and rules 1-34 (`EnhancedValidation`),
  and the older, stricter rule set (`LegacyValidation`), sharing the approval-date reader
  (`ApprovalDates`);
- the keyword classifiers, per-type merges and field normalisers of the PDF analysers
  (`UnifiedPdfAnalyzer`, `HighQualityProcessor`, `PdfProcessor` and the others);
- the result merges of the model clients: fill-only, later-wins, non-None-wins and None-wins
  (`UnifiedPdfAnalyzer`, `UltraUnifiedPdfAnalyzer`, `HighPerformanceClient`, `ImprovedGeminiClient`), and
  the two-pass comparison (`DualAnalysis`);
- the field-level validators (`AdvancedValidation`), the test-certificate validator, the
  stage-1 exclusion rules and engine, and the two-stage verdict;
- the single-call analyser's type mapping, text safety net, document mapping and final
  corrections (`SingleShotAnalyzer`), and the high-precision analyser's weighted keyword
  detection, page acceptance, field grading and averaging (`PrecisionPdfAnalyzer`);
- the pattern-based post-processing of extracted values (`LearningSystem`) and the
  announcement text parser (`AnnouncementParser`, on a small regular-expression matcher, `Regex`).

Shared modules give Python's behaviour where the source leans on it: `Text` (strip, lower,
substring search, joining, the printing of whole numbers), `Dates` (`datetime.strptime` for the formats the
source uses, and `str(date)`), `Numbers` (`float()` on digit strings, regex digit runs) and
`Values` (the loosely-typed JSON dictionaries the vision models return, with Python's `==`).

Python floats are modelled as exact reals (`real`), so tolerance tests and the printing of
floats can differ from IEEE doubles at boundary values; "## Left out" lists the members this
reaches.

Classes appear where the source updates an object in place: the validators' finding lists
(`EnhancedValidation.EnhancedValidator`, `LegacyValidation.LegacyValidator`,
`AdvancedValidation.AdvancedValidator`). Loops that update variables are methods with
invariants, each proved equal to a specification function about which the laws are proved.

Where a dictionary's iteration order decides the result, the order is a parameter that must
list the dictionary's keys once each.

One quirk of the source is modelled as written: a partial-owner finding of enhanced rule 3
already ends in the manual-check suffix, and the final report appends the suffix again, so
the reported reason carries it twice (`EnhancedValidation.PartialOwnerSuffixTwice`).

## Model

| member | source | states |
|---|---|---|
| DataModels.NewReviewResult | core/data_models.py:448-503 | a fresh review result carries the two given dates, an individual applicant without agent, every document absent, the consent/pledge/LH flags true, both match flags false and no findings |
| DataModels.DefaultDocumentsAbsent | core/data_models.py:47-57 | every record with an `exists` flag starts absent, MISSING and without issues |
| DataModels.OwnerScore | core/data_models.py:525-532 | the owner score counts the non-blank owner fields, at most five, and is zero exactly when all five are blank |
| DataModels.FirstWhereSpec | core/data_models.py:546-552 | the first-match choice is the fallback when nothing matches, else an element that matches with no match before it |
| DataModels.FirstPresent | core/data_models.py:546-552 | the `for r in results: if exists: ...; break` loop returns the first-match choice |
| DataModels.MaxScore | core/data_models.py:519-541 | the highest owner score among present applications bounds every score and is attained when non-negative |
| DataModels.FirstWithScoreFallback | core/data_models.py:519-541 | the earliest application with an attained score does not depend on the fallback |
| DataModels.BestFromIsFirstMax | core/data_models.py:519-541 | the strict-improvement fold keeps its choice when nothing scores higher, else ends on the earliest application with the maximal score |
| DataModels.SelectApplication | core/data_models.py:519-541 | the `best_score` / `best_result` loop computes that fold from score -1 |
| DataModels.Column | core/data_models.py:511-514 | one field of every result, in file order |
| DataModels.FirstTruthy | core/data_models.py:513-514 | `next(v for v in vs if v)` is a non-empty member of the list, or None when every value is empty |
| DataModels.MergeResults | core/data_models.py:505-553 | `merge_results` computes the merge specification |
| DataModels.MergeEmpty | core/data_models.py:507-508 | merging no files gives a fresh result with only the two dates |
| DataModels.MergeMeta | core/data_models.py:509-514 | the review date is the given one; the announcement date the given one unless empty, else the first file's; address and parcel are the first non-empty ones across files |
| DataModels.MergeRentalFirstPresent | core/data_models.py:546-552 | a document with an `exists` flag comes from the earliest file where it exists, else from the first file |
| DataModels.MergeApplicationBest | core/data_models.py:519-545 | the sale application is the first file's when none exists, else the earliest existing one with the most non-blank owner fields |
| DataModels.FirstWithScorePresent | core/data_models.py:519-541 | the chosen application exists and has the maximal score |
| EnhancedValidation.ManualItemsSnoc | core/enhanced_validation_engine.py:56-74 | appending one finding adds a manual-check record exactly when the finding asks for a manual check |
| EnhancedValidation.ManualItemsEmptyIff | core/enhanced_validation_engine.py:56-74 | there are no manual-check records exactly when no finding asks for one |
| EnhancedValidation.ParseAnnouncement | core/enhanced_validation_engine.py:47-51 | a parsed announcement date is a valid calendar date |
| EnhancedValidation.CheckDateValidity | core/enhanced_validation_engine.py:76-95 | a blank date gives (False, "manual_check"); confidence "high" exactly when one of the `%Y-%m-%d`, `%Y.%m.%d`, `%Y/%m/%d` formats parses the date, (False, "low") exactly when none does; valid exactly when the first format that parses gives a date not before the announcement |
| EnhancedValidation.CheckDateValidityFormats | core/enhanced_validation_engine.py:76-95 | a date written with `-`, `.` or `/` is accepted with confidence "high" and is valid exactly when it is not before the announcement |
| EnhancedValidation.ScanKeywords | core/enhanced_validation_engine.py:152-197 | the keyword loop finds a keyword exactly when some lower-cased keyword occurs in the text |
| EnhancedValidation.ScanSuffixes | core/enhanced_validation_engine.py:198-212 | the suffix loop finds a suffix exactly when the name ends in one |
| EnhancedValidation.DetectCorporationFlag | core/enhanced_validation_engine.py:148-212 | the cascade computes the corporation specification |
| EnhancedValidation.Prepared | core/enhanced_validation_engine.py:138-212 | the corporation flag after the cascade is the detected one, and a flag already set stays set |
| EnhancedValidation.Rule1 | core/enhanced_validation_engine.py:220-223 | rule 1 reports, as a hard finding, exactly when the sale application is missing |
| EnhancedValidation.Rule2 | core/enhanced_validation_engine.py:224-251 | rule 2 reports at most once and only for a present application; with a written date it reports, as a hard "high" finding, exactly when the date check says (False, "high"); without one it gives one manual check |
| EnhancedValidation.MissingOwnerFields | core/enhanced_validation_engine.py:252-302 | the labels of the blank owner fields number five minus the filled ones |
| EnhancedValidation.Rule3 | core/enhanced_validation_engine.py:252-302 | rule 3 is silent for corporations; for an individual it reports, as a manual check, exactly when fewer than three owner fields are filled |
| EnhancedValidation.Rule4 | core/enhanced_validation_engine.py:303-331 | rule 4 is silent for corporations; a rate is accepted exactly when at least 45, a rate in [42, 45) is a manual check; without a rate it reports exactly when no seal certificate exists |
| EnhancedValidation.Rule5 | core/enhanced_validation_engine.py:332-336 | rule 5 reports exactly when an agent exists without a matching ID card |
| EnhancedValidation.PresentValues | core/enhanced_validation_engine.py:337-354 | the present land areas, no more than were given |
| EnhancedValidation.Rule6 | core/enhanced_validation_engine.py:337-354 | rule 6 reports exactly when the match flag is unset and some read land area differs from the first by more than 0.1; silent with fewer than two areas |
| EnhancedValidation.LandAreasDisagree | core/enhanced_validation_engine.py:337-354 | when the application and land-ledger areas differ by more than 0.1, rule 6 reports exactly when the match flag is unset |
| EnhancedValidation.Rule7 | core/enhanced_validation_engine.py:355-400 | rule 7 is silent on a true match, reports exactly once on a false one, and is silent when either date does not parse; with the flag undetermined and both dates parsed it reports exactly when they fall in different year-months |
| EnhancedValidation.Rule7Match | core/enhanced_validation_engine.py:355-400 | a set match flag is kept; an undetermined one becomes true exactly when rule 7 reports nothing |
| EnhancedValidation.PerUnit | core/enhanced_validation_engine.py:402-410 | one hard finding per mismatched unit, named after the unit |
| EnhancedValidation.Rule8 | core/enhanced_validation_engine.py:402-410 | one hard rule-8 finding per mismatched rental unit, in order, named after the unit |
| EnhancedValidation.Rule9 | core/enhanced_validation_engine.py:411-414 | rule 9 reports exactly when an agent exists without a power of attorney |
| EnhancedValidation.Rule10 | core/enhanced_validation_engine.py:415-419 | rule 10 reports exactly when a present power of attorney with both land areas read does not match, and then gives exactly the location/land-area finding |
| EnhancedValidation.IssuesEntry | core/enhanced_validation_engine.py:420-435 | the issues joined with "; " give one hard finding, or none when there are no issues |
| EnhancedValidation.Rule11 | core/enhanced_validation_engine.py:420-435 | rule 11 reports exactly when a present power of attorney has some issue, and then one hard finding whose reason is the issues joined with "; "; silent without a power of attorney |
| EnhancedValidation.Rule12To14 | core/enhanced_validation_engine.py:436-452 | rules 12-14 are silent for corporations; for an individual they report exactly when the seal certificate is missing or some ID is not submitted, and the ID finding is filed under 14 for several owners, else 13 |
| EnhancedValidation.OwnerDocumentsReported | core/enhanced_validation_engine.py:436-452 | for an individual, the seal-certificate finding appears exactly when it is missing and an ID finding exactly when some ID is missing |
| EnhancedValidation.Rule15And17 | core/enhanced_validation_engine.py:453-471 | rules 15 and 17 report only for corporations, and for a corporation exactly when one of the six corporate documents or conditions is missing |
| EnhancedValidation.CorporateDocumentsReported | core/enhanced_validation_engine.py:458-463 | each of the business registration, the corporate seal certificate and the corporate registry has its "not submitted" finding exactly when it is missing |
| EnhancedValidation.ExecutiveIdsReported | core/enhanced_validation_engine.py:464-465 | an executive-ID finding appears exactly when some executive ID is missing |
| EnhancedValidation.ContractConsentReported | core/enhanced_validation_engine.py:467-470 | the consent gives "not submitted" exactly when missing and "signature missing" exactly when present without every executive signature |
| EnhancedValidation.ConsentIssues | core/enhanced_validation_engine.py:472-486 | no issues exactly when the consent form is clean; the owner and agent issues appear exactly when their signature is missing |
| EnhancedValidation.Rule16 | core/enhanced_validation_engine.py:472-486 | rule 16 reports at most once: the "not submitted" finding for a missing consent form, and for a present one exactly when an owner or a present agent has not filled it in |
| EnhancedValidation.Rule18 | core/enhanced_validation_engine.py:487-496 | rule 18 reports only for a realtor agent, and then exactly when the office registration or the business registration is missing or the seal does not match |
| EnhancedValidation.RealtorDocumentsReported | core/enhanced_validation_engine.py:487-496 | each realtor finding appears exactly when its document is missing or the seal does not match |
| EnhancedValidation.Rule19 | core/enhanced_validation_engine.py:497-511 | rule 19 reports at most once: the "not submitted" finding for a missing pledge, and for a present one exactly when one of its checks fails |
| EnhancedValidation.PledgeIssues | core/enhanced_validation_engine.py:497-511 | no issues exactly when the pledge is clean; the corporation-ID and realtor issues appear exactly when their check fails |
| EnhancedValidation.Rule20 | core/enhanced_validation_engine.py:512-539 | rule 20 reports exactly when the confirmation is missing ("not submitted") or has a written date that is not valid ("date error"); silent for a present confirmation without a written date |
| EnhancedValidation.Rule21 | core/enhanced_validation_engine.py:540-545 | rule 21 reports exactly when a required summary ledger is missing or the title ledger is missing |
| EnhancedValidation.LedgersReported | core/enhanced_validation_engine.py:540-545 | the summary-ledger finding appears exactly when a required summary is missing, the title-ledger one exactly when the title ledger is missing |
| EnhancedValidation.Rule22 | core/enhanced_validation_engine.py:546-550 | one hard rule-22 finding per unit whose area is out of range, in order, named after the unit |
| EnhancedValidation.Rule23 | core/enhanced_validation_engine.py:551-556 | rule 23 reports exactly when the layout plan is missing |
| EnhancedValidation.Rule24 | core/enhanced_validation_engine.py:557-572 | rule 24 reports at most once, on the land ledger: "not submitted" when missing, and otherwise exactly when it was issued before the announcement or parcels are missing |
| EnhancedValidation.Rule25 | core/enhanced_validation_engine.py:573-595 | rule 25 reports on the land-use plan: "not submitted" when missing, and otherwise exactly when parcels are missing or the land lies in an exclusion zone |
| EnhancedValidation.ExclusionZones | core/enhanced_validation_engine.py:573-595 | no zone exactly when the land lies in none of the four exclusion zones; each zone is listed exactly when its flag is set |
| EnhancedValidation.LandUsePlanReported | core/enhanced_validation_engine.py:573-595 | on a present plan, the missing-parcel and exclusion-zone findings each appear exactly when their condition holds |
| EnhancedValidation.Rule26 | core/enhanced_validation_engine.py:596-605 | rule 26 reports exactly when the land registry is missing ("not submitted") or lacks parcels ("parcels missing") |
| EnhancedValidation.Rule27 | core/enhanced_validation_engine.py:606-615 | rule 27 reports exactly when the building registry is missing ("not submitted") or lacks units ("units missing") |
| EnhancedValidation.Rule28 | core/enhanced_validation_engine.py:616-625 | rule 28 reports only when a trust is required, and then exactly when the trust contract or the sale-authority confirmation is missing or not fully signed and sealed |
| EnhancedValidation.TrustDocumentsReported | core/enhanced_validation_engine.py:616-625 | each trust finding appears exactly when its document is missing or, for the confirmation, not fully signed and sealed |
| EnhancedValidation.Rule29 | core/enhanced_validation_engine.py:626-692 | rule 29 reports on the as-built drawing: "not submitted" when missing; for a present drawing exactly when a required material is missing and either some material was read or extraction ran |
| EnhancedValidation.ExtractedMaterials | core/enhanced_validation_engine.py:626-692 | no material was read exactly when the list is empty; at most four are listed |
| EnhancedValidation.MissingMaterials | core/enhanced_validation_engine.py:626-692 | nothing is missing exactly when the materials are complete; at most four are listed |
| EnhancedValidation.MissingMaterialsListed | core/enhanced_validation_engine.py:626-692 | the exterior finish is listed exactly when blank; the piloti insulation is never listed without a piloti |
| EnhancedValidation.Evidence | core/enhanced_validation_engine.py:700-749 | a recorded heat-release or gas-toxicity test counts as found, and a present certificate as a file |
| EnhancedValidation.GatherEvidence | core/enhanced_validation_engine.py:700-749 | the three keyword scans compute the evidence |
| EnhancedValidation.MaterialIf | core/enhanced_validation_engine.py:766-800 | a material is listed exactly when its stripped name is not blank |
| EnhancedValidation.RequiredMaterials | core/enhanced_validation_engine.py:766-800 | at most four materials are required, and only the exterior finish can be stone |
| EnhancedValidation.ItemsFor | core/enhanced_validation_engine.py:801-835 | a stone exterior finish needs only a delivery confirmation; any other material needs the delivery confirmation, a certificate file and a valid or thermal-only certificate |
| EnhancedValidation.MaterialItemsEmpty | core/enhanced_validation_engine.py:801-835 | no items are missing exactly when no material misses any |
| EnhancedValidation.CollectMaterialItems | core/enhanced_validation_engine.py:801-835 | the material loop computes the missing items |
| EnhancedValidation.Rule30 | core/enhanced_validation_engine.py:836-858 | rule 30 gives at most one hard finding, and reports exactly when some material item is missing, or there is neither a certificate nor a delivery file; with no item the finding is the plain "not submitted" one |
| EnhancedValidation.Rule30ReasonListsItems | core/enhanced_validation_engine.py:836-858 | with missing items, rule 30 gives one finding whose reason joins the items without duplicates, and every item occurs in it |
| EnhancedValidation.ThermalOnlyIsReported | core/enhanced_validation_engine.py:743-762 | a certificate holding only a thermal-conductivity test is always reported, with its own reason |
| EnhancedValidation.CompleteEvidenceClears | core/enhanced_validation_engine.py:801-858 | a valid certificate with a delivery confirmation clears rule 30 |
| EnhancedValidation.NoDeliveryIsReported | core/enhanced_validation_engine.py:801-858 | without a delivery confirmation rule 30 always reports |
| EnhancedValidation.Rule31 | core/enhanced_validation_engine.py:860-864 | rule 31 reports exactly when a present title ledger leaves the worker-facility flag undetermined |
| EnhancedValidation.UnitAreas | core/enhanced_validation_engine.py:865-882 | the non-zero unit areas, each taken from some unit, empty exactly when every area is zero |
| EnhancedValidation.SeqMin | core/enhanced_validation_engine.py:865-882 | `min` is a member no greater than any other |
| EnhancedValidation.SeqMax | core/enhanced_validation_engine.py:865-882 | `max` is a member no smaller than any other |
| EnhancedValidation.UnitsWithArea | core/enhanced_validation_engine.py:865-882 | the units at one area are among the ledger's units |
| EnhancedValidation.Rule32 | core/enhanced_validation_engine.py:865-882 | rule 32 reports exactly when a present exclusive ledger has no unit area |
| EnhancedValidation.WithAreaRange | core/enhanced_validation_engine.py:865-882 | with some area, the min/max fields bracket every unit area; otherwise the ledger is unchanged |
| EnhancedValidation.Rule33 | core/enhanced_validation_engine.py:883-887 | rule 33 reports exactly when a present building registry leaves private-rental use undetermined |
| EnhancedValidation.Rule34 | core/enhanced_validation_engine.py:888-890 | rule 34 reports exactly when a present land ledger has neither a category nor restrictions |
| EnhancedValidation.ApplicationEntries | core/enhanced_validation_engine.py:220-400 | rules 1-7 file under 1-7, and a corporation gets no rule 3 or 4 finding |
| EnhancedValidation.PartyEntries | core/enhanced_validation_engine.py:402-486 | rules 8-17 file under 8-17; corporations get none of 12-14, individuals none of 15 and 17 |
| EnhancedValidation.BuildingEntries | core/enhanced_validation_engine.py:487-556 | rules 18-23 file under 18-23 |
| EnhancedValidation.LandEntries | core/enhanced_validation_engine.py:557-692 | rules 24-29 file under 24-29 |
| EnhancedValidation.LedgerEntries | core/enhanced_validation_engine.py:860-890 | rules 31-34 file under 31-34 |
| EnhancedValidation.Reported | core/enhanced_validation_engine.py:892-901 | every finding is reported once, in order; manual checks and only they carry the suffix |
| EnhancedValidation.Summary | core/enhanced_validation_engine.py:906-913 | the summary is the all-clear text exactly when nothing is missing |
| EnhancedValidation.Validated | core/enhanced_validation_engine.py:138-915 | the count equals the number of findings, the review is complete exactly when there are none, the summary agrees, the review date is today's |
| EnhancedValidation.EntriesGating | core/enhanced_validation_engine.py:138-890 | every finding is filed under rules 1-34; corporations get none of 3, 4, 12-14; individuals none of 15, 17 |
| EnhancedValidation.CleanReviewHasMandatoryDocuments | core/enhanced_validation_engine.py:138-890 | a review with no finding has every mandatory document present |
| EnhancedValidation.WrittenDateChecked | core/enhanced_validation_engine.py:224-251 | a written date in any of the three formats gives a hard rule-2 finding exactly when it precedes the announcement |
| EnhancedValidation.UnparseableDateIgnored | core/enhanced_validation_engine.py:224-251 | a written date that no format parses gives no rule-2 finding |
| EnhancedValidation.MissingWrittenDateIsManual | core/enhanced_validation_engine.py:224-251 | without a written or issue date rule 2 gives one manual check |
| EnhancedValidation.ApprovalDatesCompared | core/enhanced_validation_engine.py:355-400 | two ISO approval dates agree exactly when they share year and month, and only then is the match recorded |
| EnhancedValidation.PartialOwnerSuffixTwice | core/enhanced_validation_engine.py:286-302 | a partial-owner rule-3 reason is reported with the manual-check suffix twice |
| EnhancedValidation.EnhancedValidator.constructor | core/enhanced_validation_engine.py:47-54 | a new validator holds the dates and empty lists |
| EnhancedValidation.EnhancedValidator.AddSupplementary | core/enhanced_validation_engine.py:56-74 | `_add_supplementary` appends the finding, and a manual-check record exactly for a manual check |
| EnhancedValidation.EnhancedValidator.AddAll | core/enhanced_validation_engine.py:56-74 | appending a rule's findings one by one keeps the manual list in step |
| EnhancedValidation.EnhancedValidator.CheckTestCertificates | core/enhanced_validation_engine.py:693-858 | rule 30 appends exactly its specified finding |
| EnhancedValidation.EnhancedValidator.Validate | core/enhanced_validation_engine.py:138-915 | both lists are reset; the findings are exactly those of this call and the returned result is the specified one |
| LegacyValidation.Plain | core/validation_engine.py:57-63 | a finding becomes a plain supplementary document with the same name, reason and rule |
| LegacyValidation.IssuesDoc | core/validation_engine.py:231-246 | the issues joined with "; " give one document, or none without issues |
| LegacyValidation.CheckDateValidity | core/validation_engine.py:65-74 | a date is valid only when present and written `%Y-%m-%d` |
| LegacyValidation.Rule2 | core/validation_engine.py:133-141 | rule 2 reports exactly when a present application's issue date is not valid |
| LegacyValidation.MissingOwnerLabels | core/validation_engine.py:142-157 | no labels exactly when all five owner fields are non-empty |
| LegacyValidation.Rule3 | core/validation_engine.py:142-157 | rule 3 reports exactly when a present application's owner is not marked complete |
| LegacyValidation.Rule4 | core/validation_engine.py:158-169 | rule 4 reports exactly when a present application has an invalid seal with a rate below 45 or no seal certificate; the finding names the application for a low rate, the certificate otherwise |
| LegacyValidation.Rule6 | core/validation_engine.py:179-186 | rule 6 reports exactly when the land-area match flag is false |
| LegacyValidation.Rule10 | core/validation_engine.py:226-230 | rule 10 reports exactly when a present power of attorney's land area does not match |
| LegacyValidation.PoaIssues | core/validation_engine.py:231-246 | a power of attorney not after the announcement is flagged "before announcement"; there are no issues exactly when all five of its checks hold |
| LegacyValidation.Rule11 | core/validation_engine.py:231-246 | rule 11 reports exactly when a present power of attorney has some issue, with the issues joined by "; "; never for an absent one |
| LegacyValidation.Rule12To14 | core/validation_engine.py:247-258 | rule 12 reports exactly when the seal certificate is missing; rules 12-14 report exactly when it is or some ID is missing, and the last finding is the ID one exactly when IDs are missing, under 14 for several owners, else 13 |
| LegacyValidation.Rule15 | core/validation_engine.py:259-274 | rule 15 reports only for corporations, and for a corporation exactly when a corporate document or an executive ID is missing |
| LegacyValidation.CorporateDocumentsReported | core/validation_engine.py:259-274 | for a corporation, each of the three corporate documents has its "not submitted" document exactly when it is missing |
| LegacyValidation.Rule17 | core/validation_engine.py:299-313 | rule 17 reports only for corporations, at most once, exactly when the consent is missing ("not submitted") or not signed by every executive |
| LegacyValidation.Rule19 | core/validation_engine.py:328-348 | a missing pledge gives exactly the "not submitted" document; a present one is reported exactly when one of its checks fails |
| LegacyValidation.PledgeIssues | core/validation_engine.py:328-348 | no issues exactly when the pledge is clean |
| LegacyValidation.LhIssues | core/validation_engine.py:349-362 | the listed issues are exactly the false flags among name match, seal and date |
| LegacyValidation.Rule20 | core/validation_engine.py:349-362 | an absent confirmation gives exactly the "서류 미제출" document; a present one is reported exactly when some flag is false |
| LegacyValidation.LayoutIssues | core/validation_engine.py:381-397 | no issues exactly when every part of the layout plan is present |
| LegacyValidation.Rule23 | core/validation_engine.py:381-397 | one combined document exactly when the plan is missing or lacks a part |
| LegacyValidation.LandIssues | core/validation_engine.py:398-412 | no issues exactly when the land ledger is after the announcement, matches and lists every parcel |
| LegacyValidation.Rule24 | core/validation_engine.py:398-412 | rule 24 reports at most once, on the land ledger, exactly when it is missing or not after the announcement, not matching or missing parcels |
| LegacyValidation.Rule25 | core/validation_engine.py:413-435 | rule 25 gives "not submitted" for a missing plan, and reports exactly when the plan is missing, lacks parcels or lies in an exclusion zone |
| LegacyValidation.LandUsePlanReported | core/validation_engine.py:413-435 | on a present plan, the missing-parcel and exclusion-zone documents each appear exactly when their condition holds |
| LegacyValidation.Rule26 | core/validation_engine.py:436-446 | rule 26 reports exactly when the land registry is missing or lacks a parcel |
| LegacyValidation.Rule27 | core/validation_engine.py:447-457 | rule 27 reports exactly when the building registry is missing or lacks a unit |
| LegacyValidation.Summary | core/validation_engine.py:472-486 | the summary is the all-clear text exactly when nothing is missing |
| LegacyValidation.Validated | core/validation_engine.py:117-486 | the count equals the number of documents and the review is complete exactly when there are none |
| LegacyValidation.DashDateChecked | core/validation_engine.py:65-74 | a `%Y-%m-%d` date is valid exactly when not before the announcement |
| LegacyValidation.OtherSeparatorRejected | core/validation_engine.py:65-74 | a date written with another separator is never valid |
| LegacyValidation.MissingIssueDateFails | core/validation_engine.py:133-141 | without an issue date a present application always fails rule 2 |
| LegacyValidation.OwnerRulesIgnoreCorporation | core/validation_engine.py:247-258 | rules 12-14 do not read the corporation record |
| LegacyValidation.LandAreaStricter | core/validation_engine.py:179-186 | whenever the enhanced rule 6 reports, the legacy rule 6 does too |
| LegacyValidation.CorporateSealCertificateContrast | core/validation_engine.py:247-250 | a corporation without an individual seal certificate is asked for it by the legacy rules and not by the enhanced ones |
| LegacyValidation.Rule7Shared | core/validation_engine.py:187-212 | legacy rule 7 agrees with the enhanced one: ISO approval dates agree exactly when they share year and month |
| LegacyValidation.LegacyValidator.constructor | core/validation_engine.py:44-55 | a new validator holds the dates and an empty list |
| LegacyValidation.LegacyValidator.AddSupplementary | core/validation_engine.py:57-63 | `_add_supplementary` appends one document |
| LegacyValidation.LegacyValidator.AddAll | core/validation_engine.py:57-63 | appends the documents in order |
| LegacyValidation.LegacyValidator.Validate | core/validation_engine.py:117-486 | the list is reset; the documents are exactly those of this call and the result is the specified one |
| ApprovalDates.DigitRun12 | core/enhanced_validation_engine.py:112-118 | a greedy `\d{1,2}` takes one or two digits, none exactly when no digit starts the text |
| ApprovalDates.SkipSpace | core/enhanced_validation_engine.py:112-118 | `\s*` leaves a text that does not start with whitespace |
| ApprovalDates.ScanYmd | core/enhanced_validation_engine.py:112-118 | a matched year has four digits and month and day at most two |
| ApprovalDates.ScanMonthDay | core/enhanced_validation_engine.py:112-118 | after the year, the month and the day read have at most two digits |
| ApprovalDates.ScanDay | core/enhanced_validation_engine.py:112-118 | after the year and the month, the day read has at most two digits |
| ApprovalDates.DigitsReading | core/enhanced_validation_engine.py:119-135 | a digit reading yields month 1-12 and day 1-31 |
| ApprovalDates.Fallback | core/enhanced_validation_engine.py:112-135 | the pattern and digit fallbacks yield month 1-12 and day 1-31 |
| ApprovalDates.ParseApprovalYmd | core/enhanced_validation_engine.py:97-136 | a parsed date has month 1-12 and day 1-31; a missing or blank text gives None |
| ApprovalDates.SixDigitsAreTwentyYY | core/enhanced_validation_engine.py:119-135 | six digits are read as 20YY-MM-DD |
| ApprovalDates.EightDigitsAreYmd | core/enhanced_validation_engine.py:119-135 | eight digits are read as YYYY-MM-DD |
| ApprovalDates.IsoIsReadBack | core/enhanced_validation_engine.py:97-136 | an ISO date is read back as itself |
| ApprovalDates.NoFormatReadsDigits | core/enhanced_validation_engine.py:104-111 | no strptime format of the list accepts a bare digit string, so digits reach the digit fallback |
| ApprovalDates.YearThenLiteralFails | core/enhanced_validation_engine.py:104-111 | a year followed by a separator literal never matches a digit string |
| Dates.DaysInMonth | core/enhanced_validation_engine.py:85 | a month has 28 to 31 days, as the calendar check of `strptime` uses them |
| Dates.BeforeTotal | core/enhanced_validation_engine.py:86-89 | date order is total and asymmetric, so `>=` against the announcement is the negation of "before" |
| Dates.Strptime | core/enhanced_validation_engine.py:85 | `datetime.strptime` returns only valid calendar dates |
| Dates.FirstParse | core/enhanced_validation_engine.py:83-92 | trying the formats in order gives the first format's date that parses, and None exactly when none parses |
| Dates.ParseFormatRoundTrip | core/enhanced_validation_engine.py:83-92 | a date printed with a non-digit separator is read back as itself by the matching format |
| Dates.IsoRoundTrip | core/enhanced_validation_engine.py:47-48 | `strptime(str(d), "%Y-%m-%d")` is `d` |
| Dates.FormatWith | core/enhanced_validation_engine.py:83-92 | a printed date has ten characters with the separator at positions 4 and 7 |
| Text.Lower | core/enhanced_validation_engine.py:152-197 | `.lower()` keeps the length and lowers each ASCII capital |
| Text.LowerIdempotent | core/advanced_validator.py:615-623 | lowering twice is lowering once |
| Text.LowerConcat | core/enhanced_validation_engine.py:152-197 | lowering distributes over concatenation |
| Text.ContainsIff | core/enhanced_validation_engine.py:152-197 | `t in s` holds exactly when `t` occurs at some position of `s` |
| Text.ContainsTrans | core/enhanced_validation_engine.py:152-197 | a text containing `t` contains everything `t` contains |
| Text.FirstHit | core/pdf_processor.py:103-113 | the first keyword found in the text, none exactly when no keyword occurs |
| Text.Strip | core/enhanced_validation_engine.py:101-103 | `.strip()` leaves no whitespace at either end |
| Text.StripEmptyIff | core/enhanced_validation_engine.py:101-103 | a stripped text is empty exactly when the text is all whitespace |
| Text.StripIdempotent | core/enhanced_validation_engine.py:101-107 | stripping twice is stripping once |
| Text.Without | core/advanced_validator.py:615-623 | removing a set of characters leaves none of them and adds nothing |
| Text.WithoutIdempotent | core/advanced_validator.py:615-623 | removing the same characters twice is removing them once |
| Text.NatToStringRoundTrip | core/enhanced_validation_engine.py:119-122 | `int(str(n))` is `n` |
| Text.NatToString | core/enhanced_validation_engine.py:905-911 | `str(n)` is a digit string without leading zero |
| Text.Join | core/enhanced_validation_engine.py:420-435 | joining nothing is empty and joining one part is that part |
| Text.JoinContainsPart | core/enhanced_validation_engine.py:420-435 | every part occurs in the joined text |
| Text.DedupSpec | core/enhanced_validation_engine.py:836-851 | order-preserving de-duplication keeps exactly the same elements, each once |
| Text.DedupOfDistinct | core/enhanced_validation_engine.py:836-851 | de-duplicating a list without repeats changes nothing |
| Text.DedupIdempotent | core/enhanced_validation_engine.py:836-851 | de-duplicating twice is de-duplicating once |
| Text.DedupEmptyIff | core/enhanced_validation_engine.py:836-851 | de-duplication is empty exactly when the list is |
| Numbers.ParseFloat | backup/unified_pdf_analyzer.py:1734-1746 | `float()` of a digit string is non-negative without a leading minus; "", "." and "-" are rejected |
| Numbers.ParseFloatOfNat | core/advanced_validator.py:597-613 | `float(str(n))` is `n` |
| Numbers.TakeWhile | core/advanced_validator.py:597-613 | the longest prefix inside the class |
| Numbers.FirstRun | core/advanced_validator.py:597-613 | `re.search("[cls]+")` is empty exactly when no character of the class occurs |
| Numbers.DigitRuns | core/advanced_validator.py:567-595 | `re.findall(r"\d+")` yields non-empty digit runs |
| PdfProcessor.DetectDocumentType | core/pdf_processor.py:103-113 | the building ledger wins on 건축물대장 or 표제부; the registry wins next on 등기사항전부증명서 or 갑구; None exactly when none of the six keywords occurs |
| PdfProcessor.Extract | core/pdf_processor.py:61-101 | at most 30 pages (`MAX_PAGES`), their texts joined by newlines, one image each; text exists exactly when some page's stripped text exceeds 50 characters, and then the method is "mixed" |
| PdfProcessor.ReadPages | core/pdf_processor.py:69-83 | the page loop collects the texts of the first `total` pages in order, one image per page, and raises the flag exactly when some page passes the test |
| PdfProcessor.HandOff | core/pdf_processor.py:176-198 | the text is handed on exactly when text exists and its stripped form exceeds 200 characters; else the images, or nothing without images |
| HighQualityProcessor.Hits | core/high_quality_pdf_processor.py:277-286 | a keyword count never exceeds the keyword list |
| HighQualityProcessor.Ratio | core/high_quality_pdf_processor.py:277-286 | a type's score lies in [0, 1] and is positive exactly when some keyword matches |
| HighQualityProcessor.CountHits | core/high_quality_pdf_processor.py:277-286 | the keyword loop counts the hits |
| HighQualityProcessor.BestEntry | core/high_quality_pdf_processor.py:288-296 | the argmax is the first entry of maximal score, and none exactly when every score is zero |
| HighQualityProcessor.Refine | core/high_quality_pdf_processor.py:299-314 | a ledger winner stays a ledger and is the summary exactly when 총괄표제부 appears; a registry winner stays a registry; others are kept |
| HighQualityProcessor.DetectDocumentType | core/high_quality_pdf_processor.py:264-316 | UNKNOWN with 0.0 exactly when no type scores; otherwise the refined first argmax with its score in (0, 1] |
| HighQualityProcessor.NoUnknownEntry | core/high_quality_pdf_processor.py:299-314 | refining a table entry never yields UNKNOWN |
| HighQualityProcessor.OfType | core/high_quality_pdf_processor.py:453-461 | a group holds exactly the pages of its type |
| HighQualityProcessor.GroupByDocumentType | core/high_quality_pdf_processor.py:453-461 | the groups are exactly the detected types, each holding its pages in page order |
| HighQualityProcessor.GroupsPartition | core/high_quality_pdf_processor.py:453-461 | two different groups together hold no more pages than were given |
| AdvancedValidation.ExtractNumber | core/advanced_validator.py:597-613 | the number read from a text is non-negative, and an empty text gives none |
| AdvancedValidation.NormalizeString | core/advanced_validator.py:615-623 | the normalised text holds no whitespace, no - _ . , and no capital |
| AdvancedValidation.NormalizeIdempotent | core/advanced_validator.py:615-623 | normalising twice is normalising once |
| AdvancedValidation.ParseDate | core/advanced_validator.py:567-595 | a parsed date is a valid calendar date |
| AdvancedValidation.ValidateDateFormat | core/advanced_validator.py:115-150 | a missing value is a manual check; a present one is valid exactly when its stripped form has a date shape, with confidence high, else low |
| AdvancedValidation.ValidateDateAfterAnnouncement | core/advanced_validator.py:152-196 | a format failure is returned unchanged; the date is valid exactly when its format is valid, it parses and it is not before the announcement |
| AdvancedValidation.IsoDateAccepted | core/advanced_validator.py:152-196 | an ISO date is accepted exactly when not before the announcement |
| AdvancedValidation.ValidateAreaFormat | core/advanced_validator.py:198-230 | a present area is valid exactly when its stripped form has an area shape |
| AdvancedValidation.ValidateExclusiveAreaRange | core/advanced_validator.py:232-274 | a present area is valid exactly when the number read from it lies in [16, 85], bounds included; no number is a manual check |
| AdvancedValidation.RangeIgnoresFormat | core/advanced_validator.py:198-274 | free text "약 50평" fails the format check yet passes the range check |
| AdvancedValidation.FiftyInText | core/advanced_validator.py:597-613 | the number read from "약 50평" is 50 |
| AdvancedValidation.ValidatePhoneFormat | core/advanced_validator.py:276-308 | a present number is valid exactly when the cleaned or the raw text matches a phone pattern |
| AdvancedValidation.ValidateEmailFormat | core/advanced_validator.py:310-340 | a present address is valid exactly when its stripped form has an e-mail shape |
| AdvancedValidation.ValidateSealMatch | core/advanced_validator.py:349-397 | no rate is a manual check; valid exactly when at least 45, high confidence from 70 and medium below; [42, 45) is a manual check; below 42 is a confident failure |
| AdvancedValidation.NonNull | core/advanced_validator.py:417 | exactly the given values that are present |
| AdvancedValidation.NumbersIn | core/advanced_validator.py:431-435 | the numbers read are non-negative and no more than the values |
| AdvancedValidation.ValidateCrossMatch | core/advanced_validator.py:403-486 | fewer than two values is a manual check; two or more numbers agree exactly when each is within the relative tolerance of the first; otherwise the texts must normalise alike |
| AdvancedValidation.CompareDualResults | core/advanced_validator.py:492-561 | both missing is consistent and a manual check; one missing is inconsistent with the present value final; equal normalised texts are consistent with high confidence; consistency is exactly normalised equality or close numbers |
| AdvancedValidation.DualConsistencySymmetric | core/advanced_validator.py:492-561 | consistency does not depend on which pass came first |
| AdvancedValidation.ManualOf | core/advanced_validator.py:629-633 | the manual-check items are exactly the recorded items with MANUAL_CHECK confidence |
| AdvancedValidation.CountValid | core/advanced_validator.py:639-656 | the valid count is at most the number of items |
| AdvancedValidation.CountHigh | core/advanced_validator.py:639-656 | the high-confidence count is at most the number of items |
| AdvancedValidation.Inconsistent | core/advanced_validator.py:667-674 | exactly the inconsistent dual results |
| AdvancedValidation.AdvancedValidator.constructor | core/advanced_validator.py:104-112 | a new validator holds the announcement date and empty lists |
| AdvancedValidation.AdvancedValidator.AddValidation | core/advanced_validator.py:629-633 | the item is always recorded, and also listed for manual check exactly when its confidence is MANUAL_CHECK |
| AdvancedValidation.AdvancedValidator.AddDualValidation | core/advanced_validator.py:635-637 | the dual result is recorded and nothing else changes |
| AdvancedValidation.AdvancedValidator.Report | core/advanced_validator.py:639-686 | totals count the items, invalid = total - valid, the manual and inconsistent lists are exact, and the rate is "N/A" exactly when there is no validation |
| ImprovedGeminiClient.MergeValue | core/improved_gemini_client.py:314-344 | two dicts merge key by key; otherwise a value is None exactly when either pass gave None, and a present second value leaves the first |
| ImprovedGeminiClient.MergeNested | core/improved_gemini_client.py:320-338 | the merge keeps the first pass's keys; a key missing from the second pass, or None in the first, becomes None |
| ImprovedGeminiClient.MergeAnalyses | core/improved_gemini_client.py:314-344 | an empty pass yields the other one, otherwise the None-wins merge |
| ImprovedGeminiClient.MergeSelf | core/improved_gemini_client.py:320-338 | merging an analysis with itself changes nothing |
| ImprovedGeminiClient.MergeIdempotent | core/improved_gemini_client.py:320-338 | merging the merge with the second pass again changes nothing |
| HighPerformanceClient.DeepMerge | core/high_performance_gemini_client.py:1097-1107 | the keys are the base's plus the update's non-None ones; a None update keeps the base value, a non-dict update wins, two dicts merge recursively |
| HighPerformanceClient.DeepMergeSelf | core/high_performance_gemini_client.py:1097-1107 | deep-merging a dict into itself changes nothing |
| HighPerformanceClient.DeepMergeIdempotent | core/high_performance_gemini_client.py:1097-1107 | applying the same update twice is applying it once |
| HighPerformanceClient.SectionOf | core/high_performance_gemini_client.py:1024-1068 | title and summary pages both fill the title section; each other page type has its own section |
| HighPerformanceClient.MergeResults | core/high_performance_gemini_client.py:987-1095 | the page loop computes the left fold of the page merge |
| HighPerformanceClient.FailureIsFinal | core/high_performance_gemini_client.py:987-1095 | once a page fails, the whole merge fails |
| HighPerformanceClient.FoundOf | core/high_performance_gemini_client.py:1016-1022 | the found documents list no UNKNOWN page |
| HighPerformanceClient.MergedContents | core/high_performance_gemini_client.py:1006-1068 | a successful merge lists exactly the found documents of the contributing pages, their units in order, and the twelve sections |
| HighPerformanceClient.StepContents | core/high_performance_gemini_client.py:1006-1068 | one page adds its found entry when its type is known and its units when it is an exclusive-portion page, and keeps the twelve sections |
| HighPerformanceClient.SkippedPageIgnored | core/high_performance_gemini_client.py:1006-1014 | a page with an error, no data or a parse error changes nothing |
| HighPerformanceClient.ApplyApplication | core/high_performance_gemini_client.py:1122-1147 | the application is present exactly when its section is a non-empty dict |
| HighPerformanceClient.ApplyTitle | core/high_performance_gemini_client.py:1148-1164 | the title ledger is present exactly when its section is non-empty, and the address is taken from it only when not yet set |
| HighPerformanceClient.ApplyRegistry | core/high_performance_gemini_client.py:1165-1176 | the registry is present exactly when its section is non-empty |
| HighPerformanceClient.ApplyLandUse | core/high_performance_gemini_client.py:1177-1186 | the land-use plan is present exactly when its section is non-empty |
| HighPerformanceClient.ConvertToReviewResult | core/high_performance_gemini_client.py:1109-1186 | the four present flags follow their sections, the dates are the given ones and every other record keeps its default |
| HighPerformanceClient.ApplicationAddressFirst | core/high_performance_gemini_client.py:1136-1164 | an address from the application is not overwritten by the title ledger's |
| DualAnalysis.NestedValue | core/dual_analysis_client.py:426-437 | the empty path gives the value itself; a missing segment gives None |
| DualAnalysis.GetNestedValue | core/dual_analysis_client.py:426-437 | the walking loop computes the nested value |
| DualAnalysis.NestedValueOfMissing | core/dual_analysis_client.py:426-437 | a path that reaches None stays None however it continues |
| DualAnalysis.RenderOpt | core/dual_analysis_client.py:379-383 | a value is rendered exactly when it is not None |
| DualAnalysis.InconsistenciesOf | core/dual_analysis_client.py:373-393 | at most one inconsistency per compared field |
| DualAnalysis.InconsistenciesExact | core/dual_analysis_client.py:373-393 | the listed inconsistencies are exactly those of the compared fields that disagree |
| DualAnalysis.DualsOf | core/dual_analysis_client.py:373-389 | one dual result per compared field, in comparison order |
| DualAnalysis.CompareOne | core/dual_analysis_client.py:375-382 | the values at the field's path in both analyses, and their dual result |
| DualAnalysis.CompareEach | core/dual_analysis_client.py:373-393 | on a validator with no dual results yet, the loop records the dual results of the comparisons in order, changes nothing else on it, and lists the inconsistencies |
| DualAnalysis.CompareFields | core/dual_analysis_client.py:345-414 | every listed field is compared in order on a fresh validator; the inconsistencies are exactly the disagreeing ones; consistent + inconsistent = compared |
| DualAnalysis.NotesOf | core/dual_analysis_client.py:455-466 | there is no note exactly when every dual result is consistent |
| DualAnalysis.Base | core/dual_analysis_client.py:447 | the first analysis if non-empty, else the second |
| DualAnalysis.MergeResults | core/dual_analysis_client.py:439-470 | the review date is overwritten, other keys are kept, and the summary is annotated exactly when some field disagrees |
| UnifiedPdfAnalyzer.Hits | backup/unified_pdf_analyzer.py:714-736 | the number of keywords found, space-stripped, in the squeezed text, at most the number of keywords |
| UnifiedPdfAnalyzer.RuleScore | backup/unified_pdf_analyzer.py:714-739 | a detection rule's score is never negative |
| UnifiedPdfAnalyzer.ScoreRule | backup/unified_pdf_analyzer.py:714-739 | the must/must-not/should counting loops compute the rule score |
| UnifiedPdfAnalyzer.BestCandidate | backup/unified_pdf_analyzer.py:660-743 | the fallback checks and the rule loop, replacing the best only by a strictly greater score, compute the first-maximum choice |
| UnifiedPdfAnalyzer.DetectDocumentType | backup/unified_pdf_analyzer.py:656-745 | the detector returns the specified choice; it is UNKNOWN exactly when the score is 0.0, exactly when every candidate scores 0 |
| UnifiedPdfAnalyzer.ClassifyPage | backup/unified_pdf_analyzer.py:486-490 | a page with fewer than 40 non-space characters is UNKNOWN with confidence 0.0; otherwise the detector decides |
| UnifiedPdfAnalyzer.NoUnknownCandidate | backup/unified_pdf_analyzer.py:103-189 | no fallback and no detection rule names UNKNOWN |
| UnifiedPdfAnalyzer.TablesArePositive | backup/unified_pdf_analyzer.py:103-189 | every detection rule has a must-have keyword and every fallback a positive score |
| UnifiedPdfAnalyzer.AllHitsMeansEvery | backup/unified_pdf_analyzer.py:714-720 | all keywords hit exactly when each space-stripped keyword occurs in the text |
| UnifiedPdfAnalyzer.RuleScoreMeaning | backup/unified_pdf_analyzer.py:714-739 | a rule scores above 0 exactly when every must-have keyword is present and no must-not-have one is; the score is then (must + should hits) / (must + should), at most 1 |
| UnifiedPdfAnalyzer.CandidateScoreNonNegative | backup/unified_pdf_analyzer.py:660-739 | every candidate score is at least 0 |
| UnifiedPdfAnalyzer.BestIsFirstMax | backup/unified_pdf_analyzer.py:660-743 | the best score bounds every candidate's; a zero best is UNKNOWN; a positive best is the earliest candidate reaching it |
| UnifiedPdfAnalyzer.DetectionUnknownIff | backup/unified_pdf_analyzer.py:656-745 | detection gives UNKNOWN exactly when its score is 0.0, exactly when no candidate scores |
| UnifiedPdfAnalyzer.Keys | backup/unified_pdf_analyzer.py:996-1061 | the keys of the ordered mapping table, in order |
| UnifiedPdfAnalyzer.MapWith | backup/unified_pdf_analyzer.py:990-1066 | a non-string or empty value is UNKNOWN; a string containing no table key is LAND_REGISTRY when it mentions 토지 with 등기 or 등본, else UNKNOWN |
| UnifiedPdfAnalyzer.MapWithFirstKey | backup/unified_pdf_analyzer.py:1062-1064 | the first table key contained in the normalised string decides the type |
| UnifiedPdfAnalyzer.MapWithUnknownIff | backup/unified_pdf_analyzer.py:990-1066 | mapping gives UNKNOWN exactly for non-strings, empty strings, and strings with no key and no land-registry hint |
| UnifiedPdfAnalyzer.MapTypeString | backup/unified_pdf_analyzer.py:990-1066 | with the source table, UNKNOWN exactly for a non-string or empty value, or a string with no table key and no land-registry hint |
| UnifiedPdfAnalyzer.FirstUsable | backup/unified_pdf_analyzer.py:1720-1731 | the index of the first usable key, or -1 when none is usable |
| UnifiedPdfAnalyzer.GetFirst | backup/unified_pdf_analyzer.py:1720-1731 | None exactly when no key holds a usable value (not None, not blank or a null word, not a zero outside area/count keys); else the value of the first usable key |
| UnifiedPdfAnalyzer.FloatChars | backup/unified_pdf_analyzer.py:1741 | the filter keeps only digits, "." and "-", never lengthening the text |
| UnifiedPdfAnalyzer.ParseFloatValue | backup/unified_pdf_analyzer.py:1734-1746 | None, lists and dicts give None; a number gives itself as a float |
| UnifiedPdfAnalyzer.FloatCharsOfFloatChars | backup/unified_pdf_analyzer.py:1741 | the filter leaves text made only of kept characters unchanged |
| UnifiedPdfAnalyzer.FloatCharsConcat | backup/unified_pdf_analyzer.py:1741 | the filter works character by character over a concatenation |
| UnifiedPdfAnalyzer.FloatCharsOfNone | backup/unified_pdf_analyzer.py:1741 | text with no kept character filters to empty |
| UnifiedPdfAnalyzer.WithoutCommaOfDigits | backup/unified_pdf_analyzer.py:1741 | removing commas leaves a digit string unchanged |
| UnifiedPdfAnalyzer.ParseFloatReadsNumberWithUnit | backup/unified_pdf_analyzer.py:1734-1746 | a whole number followed by a unit without digits, dots or minus signs parses to that number |
| UnifiedPdfAnalyzer.LabelAt | backup/unified_pdf_analyzer.py:333 | the length of the owner label (소유자, 소유주, 성명, 상호) at a position, 0 exactly when none starts there |
| UnifiedPdfAnalyzer.ColonSpaceRun | backup/unified_pdf_analyzer.py:333 | the longest prefix of colons and spaces |
| UnifiedPdfAnalyzer.SectionAt | backup/unified_pdf_analyzer.py:333-335 | an owner section is 1 to 100 characters of the text |
| UnifiedPdfAnalyzer.OwnerSectionFrom | backup/unified_pdf_analyzer.py:333-335 | the first matching owner section is part of the text |
| UnifiedPdfAnalyzer.SuffixesAreKeywords | backup/unified_pdf_analyzer.py:268-286 | every business-name suffix of step 3 is already a corporate keyword |
| UnifiedPdfAnalyzer.SectionKeysAreKeywords | backup/unified_pdf_analyzer.py:336-340 | every owner-section keyword is already a corporate keyword |
| UnifiedPdfAnalyzer.KeywordStageOf | backup/unified_pdf_analyzer.py:320-323 | a corporate keyword in the normalised text triggers the keyword stage |
| UnifiedPdfAnalyzer.NameSuffixStageSubsumed | backup/unified_pdf_analyzer.py:347-379 | name detection holds exactly when the name is non-empty and the keyword or pattern stage fires; the suffix stage adds nothing |
| UnifiedPdfAnalyzer.TextOwnerStageSubsumed | backup/unified_pdf_analyzer.py:309-345 | text detection holds exactly when the text is non-empty and the keyword or pattern stage fires; the owner-section stage adds nothing |
| UnifiedPdfAnalyzer.StockCompanyIsCorporation | backup/unified_pdf_analyzer.py:347-363 | any name containing 주식회사 is a corporation |
| UnifiedPdfAnalyzer.PlaceholdersAreShort | backup/unified_pdf_analyzer.py:2537 | every as-built placeholder has at most five characters |
| UnifiedPdfAnalyzer.LongNamesAreReal | backup/unified_pdf_analyzer.py:2539-2549 | a truthy material of eight or more characters is real |
| UnifiedPdfAnalyzer.PlaceholdersAreRejected | backup/unified_pdf_analyzer.py:2539-2549 | a placeholder word, None and "" are not real materials |
| UnifiedPdfAnalyzer.Types | backup/unified_pdf_analyzer.py:1688-1691 | the document types in input order |
| UnifiedPdfAnalyzer.Group | backup/unified_pdf_analyzer.py:1688-1691 | a type's group holds only input documents of that type |
| UnifiedPdfAnalyzer.Fill | backup/unified_pdf_analyzer.py:1707-1711 | filling adds exactly the keys the new record writes (values other than None, "" and []) |
| UnifiedPdfAnalyzer.MaxConfidence | backup/unified_pdf_analyzer.py:1716 | the merged confidence bounds every page's and is one of them |
| UnifiedPdfAnalyzer.FillFrom | backup/unified_pdf_analyzer.py:1707-1711 | the key loop computes the fill-only merge of one record |
| UnifiedPdfAnalyzer.MergeGroupOf | backup/unified_pdf_analyzer.py:1694-1717 | the group loop computes the merged document |
| UnifiedPdfAnalyzer.GroupByType | backup/unified_pdf_analyzer.py:1687-1691 | the dictionary holds exactly the types seen, first-seen order, each with its non-empty group |
| UnifiedPdfAnalyzer.MergeDocumentsByType | backup/unified_pdf_analyzer.py:1685-1717 | one merged document per type in first-seen order, each the merge of that type's group |
| UnifiedPdfAnalyzer.GroupEmpty | backup/unified_pdf_analyzer.py:1688-1691 | an absent type has an empty group |
| UnifiedPdfAnalyzer.GroupOfOther | backup/unified_pdf_analyzer.py:1688-1691 | appending a document extends only its own type's group |
| UnifiedPdfAnalyzer.FillAllHasNoHoles | backup/unified_pdf_analyzer.py:1707-1711 | the merged data never holds None, "" or [] |
| UnifiedPdfAnalyzer.FillAllAbsent | backup/unified_pdf_analyzer.py:1707-1711 | a key no page provides is absent from the merge |
| UnifiedPdfAnalyzer.FillAllFirstWins | backup/unified_pdf_analyzer.py:1707-1711 | a key takes the value of the first page that provides it |
| UnifiedPdfAnalyzer.GroupNonEmptyIff | backup/unified_pdf_analyzer.py:1688-1691 | a group is non-empty exactly when the type occurs |
| UnifiedPdfAnalyzer.MergeGroupFacts | backup/unified_pdf_analyzer.py:1692-1717 | a merged document has the group's type and maximal confidence; a single page passes unchanged; otherwise the data is the fill-only merge and the pages are the sorted concatenation |
| UnifiedPdfAnalyzer.OnePerType | backup/unified_pdf_analyzer.py:1685-1717 | the merge lists each occurring type exactly once and no other |
| UnifiedResult.Picked | backup/unified_pdf_analyzer.py:2198-2202 | a field is overwritten only by a truthy first usable value, stripped |
| UnifiedResult.Opened | backup/unified_pdf_analyzer.py:2064-2065 | opening a record sets its presence and VALID status and keeps its issue date and issues |
| UnifiedResult.Trunc | backup/unified_pdf_analyzer.py:2382 | `int()` of a float truncates toward zero |
| UnifiedResult.IntLiteral | backup/unified_pdf_analyzer.py:2382 | `int()` of a digit string is its value |
| UnifiedResult.PyInt | backup/unified_pdf_analyzer.py:2382 | `int()` of an int is itself; of None, a list or a dict it fails |
| UnifiedResult.NameCandidate | backup/unified_pdf_analyzer.py:2077-2101 | the corporation-name fallback is used only when it found a non-empty name, which becomes the candidate |
| UnifiedResult.BeforeDash | backup/unified_pdf_analyzer.py:2124 | the part before the first dash, a prefix without dashes |
| UnifiedResult.BirthText | backup/unified_pdf_analyzer.py:2120-2126 | a resident number with a dash gives at most its first six characters, without the dash |
| UnifiedResult.FilledCount | backup/unified_pdf_analyzer.py:2174-2180 | the number of filled owner fields, at most five |
| UnifiedResult.BirthField | backup/unified_pdf_analyzer.py:2120-2126 | the birth date changes only to the birth text of a truthy value |
| UnifiedResult.TextField | backup/unified_pdf_analyzer.py:2103-2138 | a text field changes only to the stripped text of a truthy value |
| UnifiedResult.EmailField | backup/unified_pdf_analyzer.py:2167-2171 | the e-mail changes only to a text containing "@" |
| UnifiedResult.Completed | backup/unified_pdf_analyzer.py:2173-2183 | the owner is complete exactly when three fields are filled, or one when the application is present; nothing else changes |
| UnifiedResult.OwnerFrom | backup/unified_pdf_analyzer.py:2073-2183 | the owner's name is the stripped candidate when truthy, and completeness follows the filled count |
| UnifiedResult.ApplicationFrom | backup/unified_pdf_analyzer.py:2064-2225 | the application is present as reported and VALID; the seal is assumed unless explicitly false and the agent's ID card likewise; when not reported both are kept |
| UnifiedResult.PropertyFrom | backup/unified_pdf_analyzer.py:2186-2190 | a property address already set is never overwritten |
| UnifiedResult.ApplicantTypeFrom | backup/unified_pdf_analyzer.py:2226-2233 | an owner name containing a non-individual keyword makes the applicant a corporation displayed by that name; otherwise nothing changes |
| UnifiedResult.HousingApplicationApplied | backup/unified_pdf_analyzer.py:2056-2233 | only the application, corporation flag, property address and applicant type change; the flag is never cleared and is set by `is_corporation` true or a corporate owner name; an address already set is kept |
| UnifiedResult.UnitNumber | backup/unified_pdf_analyzer.py:2245 | a unit without a truthy unit, unit_number or 호 has the empty number |
| UnifiedResult.UnitDicts | backup/unified_pdf_analyzer.py:2240-2244 | one unit record per list item; a non-list gives none |
| UnifiedResult.ExclusiveUnitOf | backup/unified_pdf_analyzer.py:2437-2439 | the exclusive area is the parsed area, or 0.0 when none parses |
| UnifiedResult.RentalStatusApplied | backup/unified_pdf_analyzer.py:2235-2247 | only the rental status changes; truthy units replace the list one for one with their numbers and parsed areas; otherwise the list is kept |
| UnifiedResult.ExclusiveApplied | backup/unified_pdf_analyzer.py:2428-2439 | only the exclusive ledger changes; truthy units replace the list one for one |
| UnifiedResult.PowerOfAttorneyApplied | backup/unified_pdf_analyzer.py:2249-2277 | the agent becomes present with an ID-card match unless explicitly false; the delegator seal is the truthiness of its value; a named delegatee becomes an individual agent of that name |
| UnifiedResult.PowerOfAttorneyRead | backup/unified_pdf_analyzer.py:2251-2269 | the power of attorney becomes present and valid, and the delegator seal is the truthiness of its value |
| UnifiedResult.AgentRead | backup/unified_pdf_analyzer.py:2270-2277 | the agent becomes present with an ID-card match unless explicitly false, and a named delegatee makes it an individual agent of that name |
| UnifiedResult.ConsentApplied | backup/unified_pdf_analyzer.py:2279-2293 | an unreported form has no signature or seal; a reported one without signature keys is signed; date validity is left to reconciliation |
| UnifiedResult.PledgeApplied | backup/unified_pdf_analyzer.py:2295-2306 | an unreported pledge has no submission or seal; the ID-number flag holds unless explicitly false |
| UnifiedResult.LhConfirmApplied | backup/unified_pdf_analyzer.py:2308-2345 | the owner names mismatch only when both are present and neither equal, contained in the other, nor sharing two leading characters; the seal holds unless explicitly false |
| UnifiedResult.SealCertificateApplied | backup/unified_pdf_analyzer.py:2350-2372 | a corporate certificate marks the corporation and its certificate; otherwise the owner's certificate is recorded and the seal check's certificate flag set |
| UnifiedResult.AgentIdCardApplied | backup/unified_pdf_analyzer.py:1826-1830 | a reported ID card makes the agent present with a matching ID; otherwise nothing changes |
| UnifiedResult.BusinessRegistrationApplied | backup/unified_pdf_analyzer.py:1833-1837 | a reported business registration marks the applicant a corporation; otherwise nothing changes |
| UnifiedResult.BuildingCount | backup/unified_pdf_analyzer.py:2379-2384 | a non-None building count yields at least one building; None keeps the current count |
| UnifiedResult.SummaryApplied | backup/unified_pdf_analyzer.py:2374-2384 | the summary ledger becomes required and keeps a count of at least one |
| UnifiedResult.OptFlag | backup/unified_pdf_analyzer.py:2395-2396 | a stored flag is None exactly for None and the boolean itself for a boolean |
| UnifiedResult.BasementOf | backup/unified_pdf_analyzer.py:2398-2403 | no basement floors means no basement and zero floors; a number means a basement exactly when it is positive |
| UnifiedResult.CountsOf | backup/unified_pdf_analyzer.py:2410-2419 | a falsy elevator count leaves the elevator fields alone |
| UnifiedResult.TitleApplied | backup/unified_pdf_analyzer.py:2386-2426 | only the title ledger and the address change; basement units only when explicitly true; the seismic flag only when given; an address already set is kept |
| UnifiedResult.LayoutApplied | backup/unified_pdf_analyzer.py:2441-2450 | an unreported layout has no plans; a reported one without the site-plan keys has a site plan |
| UnifiedResult.Stripped | backup/unified_pdf_analyzer.py:2467 | each restriction is its stripped text, in order |
| UnifiedResult.LandLedgerApplied | backup/unified_pdf_analyzer.py:2452-2477 | all parcels count as submitted only when reported, and by default then; a parsed land area is stored; the match flag is untouched |
| UnifiedResult.ZoneFlag | backup/unified_pdf_analyzer.py:2493-2500 | a zone flag changes only when its key is given |
| UnifiedResult.LandUsePlanApplied | backup/unified_pdf_analyzer.py:2479-2500 | all parcels count as submitted only when reported; zone flags change only when given |
| UnifiedResult.BuildingRegistryApplied | backup/unified_pdf_analyzer.py:2502-2522 | all units count only when reported; the private-rental statement is the explicit flag, or true when a private-rental key holds a usable value |
| UnifiedResult.LandRegistryApplied | backup/unified_pdf_analyzer.py:2524-2534 | all parcels count only when reported, and by default then |
| UnifiedResult.MaterialField | backup/unified_pdf_analyzer.py:2555-2566 | a material changes only to the stripped text of a real material |
| UnifiedResult.AsBuiltApplied | backup/unified_pdf_analyzer.py:2550-2573 | any extracted material marks materials as extracted; the exterior finish changes only to a real material |
| UnifiedResult.DetectedEntries | backup/unified_pdf_analyzer.py:2594-2596 | one rendered entry per detected test |
| UnifiedResult.NamesOf | backup/unified_pdf_analyzer.py:2678-2681 | material names from a list are never empty |
| UnifiedResult.MaterialCandidates | backup/unified_pdf_analyzer.py:2676-2683 | material candidates are never empty |
| UnifiedResult.AppendNew | backup/unified_pdf_analyzer.py:2678-2683 | appending keeps the existing list as a prefix and ends with exactly the old and new names |
| UnifiedResult.CertificateRead | backup/unified_pdf_analyzer.py:2575-2683 | a test certificate is present; each test flag is its explicit true or a keyword in the detected tests; a delivery confirmation is never cleared; materials are appended without duplicates |
| UnifiedResult.TestCertificateApplied | backup/unified_pdf_analyzer.py:2575-2683 | only the certificate record changes, as read |
| UnifiedResult.DeliveryRead | backup/unified_pdf_analyzer.py:2685-2699 | the delivery confirmation holds exactly when `exists` (default true) is true; its materials are appended; the test flags are kept |
| UnifiedResult.DeliveryConfirmationApplied | backup/unified_pdf_analyzer.py:2685-2699 | only the certificate record changes, as read |
| UnifiedResult.AppendNewSnoc | backup/unified_pdf_analyzer.py:2678-2681 | one more name is appended exactly when not yet listed |
| UnifiedResult.AppendNames | backup/unified_pdf_analyzer.py:2678-2681 | the list loop appends the new names |
| UnifiedResult.AppendMaterials | backup/unified_pdf_analyzer.py:2676-2683 | the material step appends the candidates |
| UnifiedResult.DataOf | backup/unified_pdf_analyzer.py:1774-1779 | a dict is used as is; anything other than a dict or list becomes {} |
| UnifiedResult.BuildResult | backup/unified_pdf_analyzer.py:1748-1847 | the document loop computes the applied and reconciled result |
| UnifiedResult.Present | backup/unified_pdf_analyzer.py:1861 | the present land areas, no more than given |
| UnifiedResult.LandAreasReconciled | backup/unified_pdf_analyzer.py:1856-1867 | the application's land-area match becomes true exactly when it was or the present areas agree; the other two flags are never cleared |
| UnifiedResult.NormDate | backup/unified_pdf_analyzer.py:1873-1884 | at most eight digits, exactly eight when the text has six or more digits |
| UnifiedResult.ParseToYmd | backup/unified_pdf_analyzer.py:1886-1912 | the empty string does not parse; a text with six or more digits always parses |
| UnifiedResult.ScanOrDigits | backup/unified_pdf_analyzer.py:1895-1911 | after the formats, a text with six or more digits always yields a date |
| UnifiedResult.PowerOfAttorneyReconciled | backup/unified_pdf_analyzer.py:1953-1970 | only the power of attorney changes; its land-area and after-announcement flags are never cleared |
| UnifiedResult.ConsentDateValid | backup/unified_pdf_analyzer.py:1974-1993 | a consent date is invalid exactly when it parses and lies before the announcement |
| UnifiedResult.ConsentReconciled | backup/unified_pdf_analyzer.py:1972-1993 | an absent consent form is untouched |
| UnifiedResult.DatedAgainst | backup/unified_pdf_analyzer.py:1995-2018 | a date flag changes only for a present record with a parsed date and an announcement, to whether the date is on or after it |
| UnifiedResult.LhReconciled | backup/unified_pdf_analyzer.py:1994-2005 | only the LH confirmation changes |
| UnifiedResult.LandLedgerReconciled | backup/unified_pdf_analyzer.py:2007-2018 | only the land ledger changes |
| UnifiedResult.MismatchedAmong | backup/unified_pdf_analyzer.py:2025-2034 | no more mismatched units than rental units |
| UnifiedResult.CollectMismatchedUnits | backup/unified_pdf_analyzer.py:2020-2037 | the unit loop computes the mismatched units |
| UnifiedResult.UnitsReconciled | backup/unified_pdf_analyzer.py:2020-2037 | only the mismatched-unit list changes, to the mismatches of the rental units against the exclusive ledger |
| UnifiedResult.SealReconciled | backup/unified_pdf_analyzer.py:2039-2046 | a present application with a seal makes the seal certificate present and the seal check's certificate flag true; otherwise nothing changes |
| UnifiedResult.IdsReconciled | backup/unified_pdf_analyzer.py:2047-2050 | IDs count as submitted exactly when they were, or a seal certificate exists, or there is at most one owner |
| UnifiedResult.StoneReconciled | backup/unified_pdf_analyzer.py:2051-2054 | the stone exception holds exactly when it did or a present as-built drawing's exterior finish mentions 석재 |
| UnifiedResult.ApprovalReconciled | backup/unified_pdf_analyzer.py:1869-1951 | only the approval-date match changes, to the comparison of the two stripped dates |
| UnifiedResult.DatesReconciled | backup/unified_pdf_analyzer.py:1953-2018 | only the four dated records change, and the land ledger only in its after-announcement flag |
| UnifiedResult.RecordsReconciled | backup/unified_pdf_analyzer.py:2020-2054 | the unit, seal, ID and stone steps together |
| UnifiedResult.Reconcile | backup/unified_pdf_analyzer.py:1849-2054 | the reconciler computes the composed reconciliation |
| UnifiedResult.TopUp | backup/unified_pdf_analyzer.py:533-547 | an owner field is filled from the extractor only when empty |
| UnifiedResult.ExtractorApplied | backup/unified_pdf_analyzer.py:521-567 | the extractor runs only for a present application missing name or address; it fills only empty fields, never clears the corporation or seal flags, and completeness becomes three filled fields |
| UnifiedResult.OwnerToppedUp | backup/unified_pdf_analyzer.py:527-567 | the extractor fills only empty owner fields, and completeness becomes three filled fields |
| UnifiedResult.PageType | backup/unified_pdf_analyzer.py:486-490 | short pages are UNKNOWN with 0.0 |
| UnifiedResult.MergedDocuments | backup/unified_pdf_analyzer.py:510 | one merged document per type |
| UnifiedResult.TextCorporation | backup/unified_pdf_analyzer.py:516-518 | a corporate keyword in the whole text marks a corporation; otherwise nothing changes |
| UnifiedResult.PageTypes | backup/unified_pdf_analyzer.py:483-499 | one classification per page |
| UnifiedResult.PageTypesAt | backup/unified_pdf_analyzer.py:483-499 | each page's classification is that of its own text |
| UnifiedResult.ClassifyOne | backup/unified_pdf_analyzer.py:486-490 | classifies one page |
| UnifiedResult.PageStep | backup/unified_pdf_analyzer.py:483-499 | one more page extends the combined text and the classifications |
| UnifiedResult.ClassifyPages | backup/unified_pdf_analyzer.py:478-499 | the page loop computes every page's classification and the combined text |
| UnifiedResult.MergeDocuments | backup/unified_pdf_analyzer.py:510 | the merge step computes the merged documents |
| UnifiedResult.Analyze | backup/unified_pdf_analyzer.py:454-590 | the pipeline computes the page classifications and the analysed result |
| UnifiedResult.PhoneRule | backup/unified_pdf_analyzer.py:2149-2156 | a phone is stored exactly when non-empty and not a null word; the 010 branch adds nothing |
| UnifiedResult.AppendNewIsDedup | backup/unified_pdf_analyzer.py:2678-2683 | on a list without duplicates, appending is de-duplication of the concatenation |
| UnifiedResult.ApplicationFirst | backup/unified_pdf_analyzer.py:1767-1771 | the ordering is a permutation that puts every sale application first |
| UnifiedResult.DeliveryBeforeTestCertificate | backup/unified_pdf_analyzer.py:1768-1771 | by the string order of type names, delivery confirmations are applied before test certificates |
| UnifiedResult.DocumentKeepsCorporation | backup/unified_pdf_analyzer.py:1773-1844 | no document clears the corporation flag |
| UnifiedResult.AllAppliedKeepsCorporation | backup/unified_pdf_analyzer.py:1773-1844 | once set, the corporation flag survives the remaining documents |
| UnifiedResult.Reconciled | backup/unified_pdf_analyzer.py:1849-2054 | reconciliation leaves the corporate documents alone, sets the land-area match exactly when it was set or the areas agree, and records the mismatches of the rental units against the exclusive ledger |
| UnifiedResult.BusinessRegistrationStep | backup/unified_pdf_analyzer.py:1833-1837 | a reported business registration sets the flag |
| UnifiedResult.BusinessRegistrationMakesCorporation | backup/unified_pdf_analyzer.py:1748-1847 | any reported business registration makes the built result a corporation |
| UnifiedResult.TextCorporationDecides | backup/unified_pdf_analyzer.py:501-518 | corporate text makes the analysed result a corporation whatever the documents say |
| UnifiedResult.SealCoversCertificate | backup/unified_pdf_analyzer.py:2039-2050 | a sealed present application yields a seal certificate, the certificate flag and all IDs submitted |
| UnifiedResult.SingleOwnerIds | backup/unified_pdf_analyzer.py:2047-2050 | a single owner always has all IDs submitted |
| UnifiedResult.StoneFinishException | backup/unified_pdf_analyzer.py:2051-2054 | a stone exterior finish on a present drawing grants the exception |
| UnifiedResult.ApprovalDatesMatch | backup/unified_pdf_analyzer.py:1918-1951 | a missing date never fails; a mismatch happens exactly when both dates are given and parsed, fall in different year-months, and their normalised digit strings differ in the first six digits |
| UnifiedResult.ApprovalDatesOfIso | backup/unified_pdf_analyzer.py:1886-1942 | two dates printed by `str(date)` match exactly when they share year and month |
| UnifiedResult.ApprovalMatchReflexive | backup/unified_pdf_analyzer.py:1918-1951 | a date matches itself |
| UnifiedResult.ExclusiveEntryLastWins | backup/unified_pdf_analyzer.py:2024 | the exclusive area map keeps the last unit with a given number |
| UnifiedResult.ExclusiveEntryNone | backup/unified_pdf_analyzer.py:2024 | a unit number is missing from the map exactly when empty or unlisted |
| UnifiedResult.MismatchedAmongIff | backup/unified_pdf_analyzer.py:2026-2034 | a unit is listed exactly when some rental unit of that number mismatches |
| UnifiedResult.MismatchedUnitsIff | backup/unified_pdf_analyzer.py:2020-2037 | listed exactly when the exclusive ledger has units and some rental unit of that number mismatches |
| TestCertificateValidator.DetectionSeesText | core/test_certificate_validator.py:176-205 | a heat, gas or thermal keyword occurring in the certificate text in any letter case is detected |
| TestCertificateValidator.DetectionSeesEntry | core/test_certificate_validator.py:176-205 | a keyword occurring in any one detected test name, in any letter case, is detected |
| TestCertificateValidator.DetectTestTypes | core/test_certificate_validator.py:176-197 | a heat-release, gas-toxicity or thermal keyword occurring in the certificate text in any letter case turns its component on, whatever tests were detected |
| TestCertificateValidator.Validated | core/test_certificate_validator.py:63-84 | valid exactly with heat release and gas toxicity; thermal-only, missing-both, missing-heat and missing-gas each hold exactly under their flag combination; other fields unchanged |
| TestCertificateValidator.SingleCertificate | core/test_certificate_validator.py:214-269 | each test flag is the AI's literal `True` (only for a non-empty analysis) or the text detection; the certificate is valid exactly with heat release and gas toxicity |
| TestCertificateValidator.AiFlagsKept | core/test_certificate_validator.py:241-257 | AI-reported heat release and gas toxicity make the certificate valid whatever the text says |
| TestCertificateValidator.CollectRequiredMaterials | core/test_certificate_validator.py:298-325 | the material loop yields exactly the required materials in drawing order |
| TestCertificateValidator.SelectedIsRequired | core/test_certificate_validator.py:306-325 | every material with a non-blank name, not a piloti material of a building without pilotis, is required |
| TestCertificateValidator.RequiredIsSelected | core/test_certificate_validator.py:306-325 | every required material comes from such an item, with the Korean label and the stripped name |
| TestCertificateValidator.StoneOnlyForExteriorFinish | core/test_certificate_validator.py:207-212 | the stone exception holds exactly for an exterior finish whose name has a stone keyword; an empty name is never stone |
| TestCertificateValidator.CheckCertificates | core/test_certificate_validator.py:327-341 | every submitted certificate is validated in order, and the any-valid flag holds exactly when one of them is valid |
| TestCertificateValidator.Checked | core/test_certificate_validator.py:346-406 | a stone material or any valid certificate leaves only the delivery reason; otherwise "not submitted" or the first certificate's invalidity comes first; a missing delivery confirmation is always demanded |
| TestCertificateValidator.CheckMaterials | core/test_certificate_validator.py:346-406 | the per-material loop checks each material and collects their reasons in order |
| TestCertificateValidator.ValidateAll | core/test_certificate_validator.py:271-440 | the whole validation equals the specification: required materials, certificates, per-material reasons, the no-material items and the summary |
| TestCertificateValidator.ReasonsEmptyIff | core/test_certificate_validator.py:402-406 | no supplement item is collected exactly when no material has a reason |
| TestCertificateValidator.PassedIff | core/test_certificate_validator.py:428-438 | passed exactly when no item remains; the reported items are the raw items de-duplicated, each once |
| TestCertificateValidator.PassedNeedsDelivery | core/test_certificate_validator.py:393-426 | without any delivery confirmation the check never passes, stone materials included |
| TestCertificateValidator.ValidAndDeliveredPasses | core/test_certificate_validator.py:346-429 | one valid certificate and one delivery confirmation make the check pass for any drawing |
| TestCertificateValidator.PassedNeedsValidOrStone | core/test_certificate_validator.py:346-429 | a passing check without a valid certificate has required materials, all of them stone |
| ExclusionRules.NewConfig | core/exclusion_rules.py:81-121 | an announcement built from its required fields takes the defaults: at least 15 units, 85 m2, the 2009/2015/2010 date thresholds, an empty rule list, and every housing type's band has min <= max |
| ExclusionRules.CreateDefaultConfig | core/exclusion_rules.py:557-576 | the default announcement of any region carries the 2025 default rule list and the announcement date 2025-07-04, with the default bands |
| ExclusionRules.Pad3Injective | core/exclusion_rules.py:123-541 | two different rule numbers never give the same three-digit suffix of a rule id |
| ExclusionRules.DefaultIdInjective | core/exclusion_rules.py:123-541 | the id scheme LOC_001-013, HSG_001-012, OTH_001-006 gives 31 distinct ids |
| ExclusionRules.LocationFacts | core/exclusion_rules.py:133-307 | the 13 location rules are LOC_001-LOC_013 in order, all active, each conditional one stating its exception |
| ExclusionRules.HousingFacts | core/exclusion_rules.py:309-464 | the 12 housing-condition rules are HSG_001-HSG_012 in order, all active, each conditional one stating its exception |
| ExclusionRules.OtherFacts | core/exclusion_rules.py:466-541 | the 6 other rules are OTH_001-OTH_006 in order, all active, each conditional one stating its exception |
| ExclusionRules.DefaultRulesFacts | core/exclusion_rules.py:123-541 | the default list has 31 rules with pairwise distinct ids, all active, and every conditional rule carries an exception condition |
| ExclusionEngine.GetFieldValue | core/exclusion_engine.py:237-276 | a path outside the engine's thirty-entry mapping reads as None; a known path reads None only for the four optional fields (city gas, water/sewage, seismic design, elevator); only `history.exclusion_count` reads as a number, the housing's own count |
| ExclusionEngine.UnknownFieldNeverViolates | core/exclusion_engine.py:237-282 | a rule whose check field the mapping does not know is never reported as violated |
| ExclusionEngine.DefaultFieldsKnown | core/exclusion_engine.py:243-274 | every check field of the 31 default rules is one of the paths the mapping resolves |
| ExclusionEngine.EvaluateCondition | core/exclusion_engine.py:278-282 | a None field value never violates any condition |
| ExclusionEngine.Clause | core/exclusion_engine.py:292-317 | a clause of a compound condition raises (making the whole condition false) only when it names `housing_type` without an `==` to split on |
| ExclusionEngine.Collect | core/exclusion_engine.py:291-319 | the clause results are collected unless some clause raised; skipped clauses add nothing |
| ExclusionEngine.EqTrueCondition | core/exclusion_engine.py:322-326 | the condition `== True` holds exactly when the value is the boolean True |
| ExclusionEngine.EqFalseCondition | core/exclusion_engine.py:322-328 | the condition `== False` holds exactly when the value is the boolean False |
| ExclusionEngine.AtLeastTwoCondition | core/exclusion_engine.py:331-333 | the condition `>= 2` holds exactly for a number of at least 2; a boolean value compares as 0 or 1 and never reaches it |
| ExclusionEngine.FlagClauses | core/exclusion_engine.py:312-317 | inside a compound condition, `== True` and `== False` compare by equality, so the integers 1 and 0 also match |
| ExclusionEngine.HousingTypeClause | core/exclusion_engine.py:294-297 | a `housing_type == 'w'` clause holds exactly when the housing type equals w |
| ExclusionEngine.PermitAtLeastClause | core/exclusion_engine.py:298-305 | a `permit_date >= 'w'` clause holds exactly when a non-empty permit date is present and is not before w in string order |
| ExclusionEngine.PermitBeforeClause | core/exclusion_engine.py:306-311 | a `permit_date < 'w'` clause holds exactly when a non-empty permit date is present and is before w in string order |
| ExclusionEngine.TwoClauses | core/exclusion_engine.py:288-319 | a two-clause compound condition whose clauses both append holds exactly when both results hold |
| ExclusionEngine.TrueAndHousingType | core/exclusion_engine.py:288-319 | `== True and housing_type == 'w'` holds exactly when the value equals True and the housing type is w |
| ExclusionEngine.FalseAndPermitAtLeast | core/exclusion_engine.py:288-319 | `== False and permit_date >= 'w'` holds exactly when the value equals False and a permit date not before w is present; a missing date makes it false |
| ExclusionEngine.FalseAndPermitBefore | core/exclusion_engine.py:288-319 | `== False and permit_date < 'w'` holds exactly when the value equals False and a permit date before w is present; a missing date makes it false |
| ExclusionEngine.PermitConditionsPartition | core/exclusion_engine.py:298-311 | the two permit-date conditions never hold together, and with a False value and a permit date one of them holds |
| ExclusionEngine.Loc011Violation | core/exclusion_rules.py:265-275 | LOC_011 is violated exactly when an entertainment facility is within 25 m and the housing type is 다자녀 |
| ExclusionEngine.Hsg006Violation | core/exclusion_rules.py:373-383 | HSG_006 is violated exactly for a non-compliant exterior with a permit dated 2019-11-07 or later |
| ExclusionEngine.Hsg007Violation | core/exclusion_rules.py:386-396 | HSG_007 is violated exactly for a non-compliant exterior with a permit dated before 2019-11-07 |
| ExclusionEngine.ExteriorRulesPartition | core/exclusion_rules.py:373-396 | a non-compliant exterior with a permit date violates exactly one of HSG_006 and HSG_007; otherwise neither |
| ExclusionEngine.CheckRule | core/exclusion_engine.py:193-235 | the result carries the rule's id, description and severity; it is excluded exactly when the condition is violated; `exception_applied` is always false; a manual check is required exactly for a violated rule with an exception condition or of CONDITIONAL severity; the evidence starts with the field path |
| ExclusionEngine.CheckedResults | core/exclusion_engine.py:153-158 | inactive rules leave no result; each active rule leaves one, in rule order |
| ExclusionEngine.Hits | core/exclusion_engine.py:160-164 | the excluded (or conditional) list holds exactly the violated results of that severity, in order |
| ExclusionEngine.Summarize | core/exclusion_engine.py:166-191 | the verdict is EXCLUDED iff some ABSOLUTE hit exists, else CONDITIONAL iff some CONDITIONAL hit exists, else PASSED; the counts are the list lengths and passed = checked - excluded - conditional |
| ExclusionEngine.ExclusionVerificationEngine.constructor | core/exclusion_engine.py:122-129 | without a configuration the engine uses the default announcement for 경기남부 |
| ExclusionEngine.ExclusionVerificationEngine.Verify | core/exclusion_engine.py:139-191 | the loop over the rules returns the stage-1 result of the configured rule list on the housing data |
| ExclusionEngine.CollectResults | core/exclusion_engine.py:149-163 | the loop keeps one check result per active rule in rule order, and the violated ones of each severity |
| ExclusionEngine.VerdictIff | core/exclusion_engine.py:153-178 | EXCLUDED iff some active ABSOLUTE rule is violated; CONDITIONAL iff none is but some active CONDITIONAL rule is; PASSED iff no active ABSOLUTE or CONDITIONAL rule is violated, so violated WARNING rules do not affect the verdict |
| ExclusionEngine.HitIffViolated | core/exclusion_engine.py:153-164 | the list for a severity is non-empty exactly when some active rule of that severity is violated |
| ExclusionEngine.TotalCountsActive | core/exclusion_engine.py:153-158 | `total_rules_checked` is the number of active rules |
| ExclusionEngine.AllActiveChecked | core/exclusion_engine.py:153-182 | when every rule is active, as in the default list, every rule is counted as checked |
| ExclusionEngine.PassedCount | core/exclusion_engine.py:180-185 | `passed_count` is the number of results that are not ABSOLUTE or CONDITIONAL hits, so it is never negative and violated WARNING rules count as passed; the three counts add up to the total |
| IntegratedVerification.Integrated | core/integrated_verification.py:97-192 | the verdict table: EXCLUDED ends the review without stage 2; CONDITIONAL stays CONDITIONAL and runs stage 2 only with documents and the skip flag off; PASSED is APPROVED without documents, otherwise APPROVED exactly when stage 2 completes and SUPPLEMENTARY when not; stage 1 is passed exactly on PASSED, stage 2 is passed exactly when its review is complete, and the stage-1 result and review date are carried through |
| IntegratedVerification.IntegratedVerificationSystem.constructor | core/integrated_verification.py:82-95 | the system takes the given configuration, or the default one for 경기남부, gives it to the exclusion engine, and builds the validator on its parsed announcement date with no correction date and no findings |
| IntegratedVerification.IntegratedVerificationSystem.Verify | core/integrated_verification.py:97-192 | the result is the verdict table applied to the exclusion engine's stage-1 result on the configured rules and to the validator's review of the document; the validator's lists change only when stage 2 runs, and then hold the findings reported in the stage-2 result |
| IntegratedVerification.IntegratedVerificationSystem.Decide | core/integrated_verification.py:120-192 | once stage 1 is known, the result is the verdict table with the validator as stage 2, and the validator keeps its invariant |
| IntegratedVerification.IntegratedVerificationSystem.RunStageTwo | core/integrated_verification.py:138-157 | one stage-2 run returns the validator's review of the document and leaves in its list exactly the findings that review reports |
| IntegratedVerification.ExcludedIff | core/integrated_verification.py:117-131 | the final verdict is EXCLUDED exactly when some active ABSOLUTE rule is violated, and stage 2 then never runs |
| IntegratedVerification.StageTwoReachedIff | core/integrated_verification.py:117-192 | the final verdict is APPROVED or SUPPLEMENTARY exactly when no active ABSOLUTE or CONDITIONAL rule is violated |
| IntegratedVerification.ApprovedIffNoFindings | core/integrated_verification.py:155-180 | with documents after a passed stage 1, the verdict is APPROVED exactly when the enhanced rule engine finds nothing, and SUPPLEMENTARY reports the positive number of findings |
| IntegratedVerification.ApprovedWithoutDocuments | core/integrated_verification.py:181-192 | without documents a passed stage 1 is a provisional APPROVED, with no stage-2 result and stage 2 not passed |
| IntegratedVerification.SkipOnlyAffectsConditional | core/integrated_verification.py:134-152 | the skip flag changes nothing unless stage 1 is CONDITIONAL |
| IntegratedVerification.DefaultAnnouncementParses | core/integrated_verification.py:88-95 | the default configuration's announcement date 2025-07-04 is a valid date, so the system built without a configuration always has a validator |
| IntegratedVerification.FirstArea | core/integrated_verification.py:315-319 | the area is absent exactly when every unit's area is zero, and otherwise is the first non-zero unit area |
| IntegratedVerification.ConvertAiResult | core/integrated_verification.py:282-322 | the conversion copies the seismic-design and elevator flags of the building ledger and the seizure flag of the registry, pins basement units and auction to false, passes the housing type through, takes the first non-zero unit area and the number of units when there are units, and leaves every other field at its default |
| IntegratedVerification.ConvertedPinnedNeverViolate | core/integrated_verification.py:292-303 | a `== True` rule on a field the conversion leaves false (the five zone flags, which it never sets, and basement units) is never violated by converted data |
| UltraUnifiedPdfAnalyzer.DetectWith | core/ultra_unified_pdf_analyzer.py:282-330 | a text with fewer than 20 characters besides spaces and newlines is never classified and scores 0.0 |
| UltraUnifiedPdfAnalyzer.DetectFirstKeyword | core/ultra_unified_pdf_analyzer.py:316-318 | on a long enough text the first keyword of the list that occurs decides the category and the score, whatever later keywords also occur |
| UltraUnifiedPdfAnalyzer.DetectUnknownIff | core/ultra_unified_pdf_analyzer.py:282-330 | the detector answers UNKNOWN exactly for a short text or one with no keyword and neither combination fallback, and UNKNOWN always scores 0.0 |
| UltraUnifiedPdfAnalyzer.KeywordScoresInRange | core/ultra_unified_pdf_analyzer.py:291-314 | every keyword of the list scores between 0.85 and 0.92 |
| UltraUnifiedPdfAnalyzer.DetectScoreRange | core/ultra_unified_pdf_analyzer.py:291-330 | a recognised page scores between 0.82 and 0.92, an unrecognised one exactly 0.0 |
| UltraUnifiedPdfAnalyzer.ClassifyPages | core/ultra_unified_pdf_analyzer.py:130-145 | each page gets the detector's answer unless it has fewer than 30 significant characters, in which case it is UNKNOWN with 0.0, and the unknown count is the number of such short pages |
| UltraUnifiedPdfAnalyzer.RecognisedPagesAreLong | core/ultra_unified_pdf_analyzer.py:135-139 | a page the first pass recognises has at least 30 significant characters |
| UltraUnifiedPdfAnalyzer.ShortPagesAtMostUnknown | core/ultra_unified_pdf_analyzer.py:132-139 | the unknown count never exceeds the number of pages left UNKNOWN, since long pages without a keyword are UNKNOWN too but not counted |
| UltraUnifiedPdfAnalyzer.MapTypeWith | core/ultra_unified_pdf_analyzer.py:541-620 | an answer that normalises to a stop word maps to UNKNOWN |
| UltraUnifiedPdfAnalyzer.MapTypeUnknownIff | core/ultra_unified_pdf_analyzer.py:541-620 | the mapping gives UNKNOWN exactly for an empty answer, a stop word, or an answer with no exact key and no partial rule that holds |
| UltraUnifiedPdfAnalyzer.MapTypeFirstExact | core/ultra_unified_pdf_analyzer.py:578-580 | the first exact key found in the normalised answer decides, before any partial rule |
| UltraUnifiedPdfAnalyzer.MapTypeFirstPartial | core/ultra_unified_pdf_analyzer.py:582-620 | without an exact key, the first partial rule that holds decides |
| UltraUnifiedPdfAnalyzer.MapTypeString | core/ultra_unified_pdf_analyzer.py:541-620 | with the source tables, UNKNOWN exactly for an answer normalising to nothing or a stop word, or holding no exact key and meeting no partial rule |
| UltraUnifiedPdfAnalyzer.MergeDocumentsByType | core/ultra_unified_pdf_analyzer.py:653-666 | one entry per category, in order of first appearance, each the first document of that category extended in turn by every later one |
| UltraUnifiedPdfAnalyzer.LaterMergeClosedForm | core/ultra_unified_pdf_analyzer.py:657-664 | a category's entry keeps the first document's category and carries all its pages in order, the later-wins overlay of the dicts and the highest confidence |
| UltraUnifiedPdfAnalyzer.OverlayKeys | core/ultra_unified_pdf_analyzer.py:662 | a key is in the merged dict exactly when some document of the category has it |
| UltraUnifiedPdfAnalyzer.LaterWins | core/ultra_unified_pdf_analyzer.py:662 | a key's merged value is the one the last document having that key gives |
| UltraUnifiedPdfAnalyzer.DetailData | core/ultra_unified_pdf_analyzer.py:633-651 | the kept answer always has `exists` set to true, and otherwise carries exactly the keys of the answer dict, or of the first list element when that is a dict, with their values |
| UltraFastPdfProcessor.Dpi | core/ultra_fast_pdf_processor.py:110-135 | every category is rendered at 100, 150 or 200 dpi: 200 exactly for the five hand-filled forms, 100 exactly for the eight register documents, 150 for the rest |
| UltraFastPdfProcessor.KeywordConfidence | core/ultra_fast_pdf_processor.py:282 | a keyword's confidence lies in [0.7, 0.95], is above 0.7 for a non-empty keyword, and reaches the 0.95 cap exactly from 13 characters on |
| UltraFastPdfProcessor.DetectWith | core/ultra_fast_pdf_processor.py:276-285 | the detected score lies in [0, 0.95]; a score of 0 only ever comes with UNKNOWN and a page of at most 30 significant characters |
| UltraFastPdfProcessor.DetectFirstKeyword | core/ultra_fast_pdf_processor.py:280-283 | the first keyword of the list found in the text without spaces and newlines decides the category, and its length the confidence |
| UltraFastPdfProcessor.DetectUnknownIff | core/ultra_fast_pdf_processor.py:276-285 | with a list naming no UNKNOWN entry, a page is UNKNOWN exactly when no keyword occurs, and then scores 0.3 exactly when it has more than 30 significant characters |
| UltraFastPdfProcessor.DetectionKeywordsProper | core/ultra_fast_pdf_processor.py:139-156 | the keyword list names no UNKNOWN category and no empty keyword |
| UltraFastPdfProcessor.DetectScoreRange | core/ultra_fast_pdf_processor.py:276-285 | with the real keyword list, a recognised page scores above 0.7 and at most 0.95, an unrecognised one 0.3 or 0 |
| UltraFastPdfProcessor.DetectPages | core/ultra_fast_pdf_processor.py:449-455 | the first pass covers the first 50 pages (all of a shorter file), each entry its 0-based index with the category and score detected on its own text |
| UltraFastPdfProcessor.FlattenChunks | core/ultra_fast_pdf_processor.py:470-475 | cutting the page entries into chunks of three loses, duplicates and reorders nothing |
| UltraFastPdfProcessor.WorkerPages | core/ultra_fast_pdf_processor.py:299-388 | a worker returns one page per entry of its chunk, numbered from 1, with the entry's category and the resolution of that category |
| UltraFastPdfProcessor.WithScores | core/ultra_fast_pdf_processor.py:493-494 | position k of the sorted pages takes the score of page entry k, by position and not by page number; pages beyond the entries keep their score |
| UltraFastPdfProcessor.AssemblePages | core/ultra_fast_pdf_processor.py:483-494 | the assembled pages are the completed chunks' pages put together, sorted by page number, then scored by position |
| UltraFastPdfProcessor.AssembledInOrder | core/ultra_fast_pdf_processor.py:492 | the assembled pages are in page-number order and, scores aside, are exactly the pages the completed chunks returned |
| UltraFastPdfProcessor.RemoveFirst | core/ultra_fast_pdf_processor.py:222-223 | removing a key from the access list shortens it by one when the key is there and leaves it as it is otherwise |
| UltraFastPdfProcessor.MoveToEnd | core/ultra_fast_pdf_processor.py:253-256 | moving a key to the most recent end keeps the access list free of repeats and adds only that key |
| UltraFastPdfProcessor.StoreKeepsConsistent | core/ultra_fast_pdf_processor.py:253-256 | storing a key and moving it to the most recent end keeps dict and access list holding the same keys, once each |
| UltraFastPdfProcessor.EvictKeepsConsistent | core/ultra_fast_pdf_processor.py:249-251 | evicting the least recently used key keeps dict and access list holding the same keys, once each |
| UltraFastPdfProcessor.UltraCache.constructor | core/ultra_fast_pdf_processor.py:195-203 | a new cache is empty and consistent |
| UltraFastPdfProcessor.UltraCache.Get | core/ultra_fast_pdf_processor.py:213-241 | a disabled cache answers None and changes nothing; a memory hit returns the entry and makes its key most recent; a disk hit is added to memory without eviction, growing it by one; a miss changes nothing; consistency is kept |
| UltraFastPdfProcessor.UltraCache.Set | core/ultra_fast_pdf_processor.py:243-259 | when the dict holds 10 or more entries the least recently used one is evicted first; the key then holds the new data and is most recent; consistency is kept, and a cache of at most 10 entries stays at most 10 |
| AsyncParallelAnalyzer.DetectByTextWith | core/async_parallel_analyzer.py:402-445 | a page with fewer than 30 significant characters is "미확인"; any other answer is the category of some keyword of the list |
| AsyncParallelAnalyzer.DetectByTextFirst | core/async_parallel_analyzer.py:441-443 | on a page with enough text the first keyword in list order found in the text without spaces and newlines decides the category |
| AsyncParallelAnalyzer.DetectByTextUnknownIff | core/async_parallel_analyzer.py:402-445 | with a list that never answers "미확인", a page is "미확인" exactly when it is short or contains none of the keywords |
| AsyncParallelAnalyzer.TextKeywordsAnalysed | core/async_parallel_analyzer.py:412-439 | the keyword list never answers "기타" or "미확인", so every text-detected page is sent for analysis |
| AsyncParallelAnalyzer.GroupMembers | core/async_parallel_analyzer.py:480-485 | the group of a category holds exactly the pages of that category, a page without an entry in the page-type map counting as "기타" |
| AsyncParallelAnalyzer.GroupedExtend | core/async_parallel_analyzer.py:483-485 | a page of a category met before is appended to that category's group, leaving the key order and the other groups as they are |
| AsyncParallelAnalyzer.GroupedStart | core/async_parallel_analyzer.py:483-485 | a page of a new category opens a one-page group, last in the key order |
| AsyncParallelAnalyzer.GroupPages | core/async_parallel_analyzer.py:480-485 | the grouping holds every category in order of first appearance, each with all its pages in page order and none empty |
| AsyncParallelAnalyzer.AnalysedTypes | core/async_parallel_analyzer.py:491-493 | the analysed categories are exactly those met other than "기타" and "미확인", in the same order |
| AsyncParallelAnalyzer.AnalysisTasks | core/async_parallel_analyzer.py:478-496 | one task per analysed category, in order of first appearance, each carrying all the pages of its category |
| AsyncParallelAnalyzer.TasksOfSpec | core/async_parallel_analyzer.py:478-496 | the tasks are the analysed categories in order, each paired with its own page list |
| AsyncParallelAnalyzer.TasksCoverAnalysedPages | core/async_parallel_analyzer.py:583-586 | no task is about "기타" or "미확인", and every other page lands in the task of its own category |
| AsyncParallelAnalyzer.TaskData | core/async_parallel_analyzer.py:508-513 | a dict answer is kept, a list starting with a dict gives that dict, any other answer gives an empty dict |
| AsyncParallelAnalyzer.TaskResult | core/async_parallel_analyzer.py:501-523 | an answered task carries its category, the page numbers of its pages, dict data and confidence 0.85; a failed one no pages, empty data and 0.5 |
| AsyncParallelAnalyzer.MergeDualResults | core/async_parallel_analyzer.py:544-563 | the merge returns one entry per first-pass result, in order, flagged exactly when the second pass has its category |
| AsyncParallelAnalyzer.DualMergedKeepsFirst | core/async_parallel_analyzer.py:551-563 | category, pages and confidence of each first-pass result are kept, so categories only the second pass found are dropped; a result whose category the second pass lacks, or whose data is not a dict, is returned unchanged |
| AsyncParallelAnalyzer.DualMergedFlags | core/async_parallel_analyzer.py:555-560 | a dict result whose category the second pass also has gets `_dual_checked` set to true and keeps every other key and value |
| LearningSystem.SearchFrom | core/learning_system.py:435 | a search answers the leftmost start at which the pattern matches, with the end and group span a backtracking engine gives there; no earlier start matches, and no answer means no start matches |
| LearningSystem.MatchedText | core/learning_system.py:437 | the text taken from a match (the group if the pattern has one, else the whole match) occurs in the searched text |
| LearningSystem.FirstMatch | core/learning_system.py:433-438 | the first pattern of the list that matches decides; nothing is read exactly when no pattern matches, and what is read occurs in the context text |
| LearningSystem.FieldKeysResolve | core/learning_system.py:328-343 | every known Korean field name maps to a key that has a default pattern |
| LearningSystem.SnakeKey | core/learning_system.py:343 | a lower-case underscore key (every default key is one) is its own field key |
| LearningSystem.FieldKey | core/learning_system.py:328-343 | a known Korean name maps to a key that has a default pattern; an unknown name becomes a key of the same length with no space and no upper-case ASCII letter, every other character lower-cased |
| LearningSystem.SeismicResolves | core/learning_system.py:136-146 | the seismic field's key leads to the default seismic pattern with its true and false word lists |
| LearningSystem.GuessBoolean | core/learning_system.py:475-489 | None gives None, a bool is returned as is, True only for a listed true word and False only for a listed false word (after lower-casing and stripping) |
| LearningSystem.GuessWordsDisjoint | core/learning_system.py:484-487 | no word is listed both as true and as false |
| LearningSystem.GuessPlainWord | core/learning_system.py:482-489 | a string already lower-case and trimmed is guessed True exactly when it is a listed true word, False exactly when a listed false word, None otherwise |
| LearningSystem.GuessListedWord | core/learning_system.py:482-489 | each listed word is guessed as its own truth value |
| LearningSystem.ExtractNumber | core/learning_system.py:443-473 | None gives (None, low); an int or bool gives itself with high confidence, a float its truncation; a medium reading is a non-negative number read from text; no number is read exactly when the confidence is low |
| LearningSystem.ExtractNumberOfDigits | core/learning_system.py:463-467 | a count written as plain digits is read back as that count, with medium confidence |
| LearningSystem.Interpret | core/learning_system.py:491-511 | True exactly when the match agrees with a true word, or with no false word and its first number is above zero; False exactly when it agrees with a false word and no true word |
| LearningSystem.InterpretNumber | core/learning_system.py:507-509 | a matched number above zero with no listed word agreeing is read as True |
| LearningSystem.FirstWord | core/learning_system.py:414-425 | the index of the first listed word occurring in the value ignoring case; none before it occurs, and -1 exactly when none occurs |
| LearningSystem.ExtractBoolean | core/learning_system.py:393-441 | a field without a pattern is guessed with low confidence; low confidence only ever carries the guess; a value in which some true word occurs is always read as True |
| LearningSystem.ExtractBooleanTrueFirst | core/learning_system.py:413-418 | a value in which some true word occurs is read as True, with high confidence exactly when the first such word equals it |
| LearningSystem.ExtractBooleanFalse | core/learning_system.py:413-425 | when a false word occurs in the value and a word list decided, the value is read as False exactly when no true word occurs in it |
| LearningSystem.ExtractBooleanNull | core/learning_system.py:427-430 | a value matching no word but equal to a listed null value is read as None with high confidence |
| LearningSystem.TrueWordOccurs | core/learning_system.py:414-418 | when the first true word occurring in the value is not equal to it, the value is read as True with medium confidence |
| LearningSystem.SeismicNegativesReadAsTrue | core/learning_system.py:144-150 | with the default patterns, "해당없음" and "미적용" for the seismic field are read as True with medium confidence |
| LearningSystem.SeismicExampleSaysFalse | core/learning_system.py:150 | the seismic pattern's own third example pairs "해당없음" with False |
| LearningSystem.FirstEqual | core/learning_system.py:415-416 | the index of the first listed word equal to the value ignoring case, -1 exactly when none is |
| LearningSystem.ExactWordDecides | core/learning_system.py:413-425 | in the corrected reader a value equal to a true word is True with high confidence, and one equal to a false word and no true word is False with high confidence |
| LearningSystem.ExtractBooleanFixed | core/learning_system.py:393-441 | the corrected reader gives low confidence only with the guess, and agrees with the reader as written for a field without a pattern or a value equal to no listed word |
| LearningSystem.SeismicNegativesFixed | core/learning_system.py:144-150 | with the corrected reader and the default patterns, "해당없음" and "미적용" for the seismic field are read as False with high confidence |
| LearningSystem.NotSeismicTrueWord | core/learning_system.py:144 | neither negative word equals a seismic true word |
| LearningSystem.Apply | core/learning_system.py:549-551 | a correction touches only its own field and keeps the record's keys |
| LearningSystem.CorrectFlag | core/learning_system.py:544-551 | the seismic and elevator corrections change no other field |
| LearningSystem.CorrectBasement | core/learning_system.py:554-567 | the basement correction changes no other field |
| LearningSystem.CorrectCounts | core/learning_system.py:580-589 | the parking loop keeps the record's keys and changes no field outside the parking fields |
| LearningSystem.PostProcessedFrame | core/learning_system.py:540-589 | processing changes nothing outside the building-ledger record, keeps that record's keys, and changes none of its fields but the six it corrects |
| LearningSystem.BasementForcedFalse | core/learning_system.py:561-567 | with raw text that never mentions "지하", the basement flag ends equal to False by Python `==` |
| LearningSystem.FlagCorrectionGated | core/learning_system.py:544-551 | a flag is changed only with confidence other than low, to the read value, differing from the original, with one log entry; and such a reading is always written |
| LearningSystem.CountCorrectionGated | core/learning_system.py:581-589 | a parking count is changed only with confidence other than low, to the read number, with one log entry |
| LearningSystem.CountsLogged | core/learning_system.py:580-589 | the parking loop extends the log by at most one entry per field, each naming a parking field with confidence other than low |
| LearningSystem.LearnedValues | core/learning_system.py:292-326 | learning touches only the field's own pattern; a True correction with raw text puts the text among the true words, appended once; a False one among the false words; otherwise the lists are unchanged |
| LearningSystem.LearnedKeepsDistinct | core/learning_system.py:308-314 | word lists without repeats stay without repeats after learning |
| LearningSystem.LearningDatabase.constructor | core/learning_system.py:71-75 | a database without saved files starts from the default patterns and empty histories |
| LearningSystem.LearningDatabase.LearnFromFeedback | core/learning_system.py:292-326 | the pattern map after the call is the learned map of the one before |
| LearningSystem.LearningDatabase.AddFeedback | core/learning_system.py:249-270 | the feedback is appended to the history, stamped with the given time, and then learned from |
| LearningSystem.LearningDatabase.LogError | core/learning_system.py:272-290 | one error entry is appended, stamped with the given time |
| LearningSystem.ResultPostProcessor.constructor | core/learning_system.py:521-524 | a fresh database with the default patterns and no corrections |
| LearningSystem.ResultPostProcessor.Process | core/learning_system.py:526-590 | the returned result and the corrections of this call are those of the processing function, the parking fields handled in order by the loop |
| LearningSystem.ResultPostProcessor.SubmitUserCorrection | core/learning_system.py:624-652 | the correction is added as feedback and learned from, and logged as a "user_correction" error with the raw text as context |
| Regex.MatchAt | core/announcement_parser.py:119 | a backtracking match from one position ends between that position and the end of the text, with every recorded span inside the text |
| Regex.MatchAtGroups | core/announcement_parser.py:119 | a match keeps the groups already recorded and records every group of the pattern, each with a span that fits the repetition numbered by it |
| Regex.TryEach | core/announcement_parser.py:119 | trying the rest of the pattern after each candidate end of a repetition, in order, ends inside the text with every span inside it |
| Regex.TryEachGroups | core/announcement_parser.py:119 | that trial keeps the groups already recorded and records every group, the repetition's own group included, each fitting its repetition |
| Regex.SearchFrom | core/announcement_parser.py:110 | `re.search` from a position: a match found starts at or after it, lies inside the text and matches the pattern there |
| Regex.SearchFromLeftmost | core/announcement_parser.py:110 | the match found starts at the leftmost position from which the pattern matches, and no match at all means no position from there on starts one |
| Regex.Search | core/announcement_parser.py:110 | `re.search`: a match found lies inside the text and matches the pattern there |
| Regex.SearchLeftmost | core/announcement_parser.py:110 | `re.search` finds the leftmost match, or none when no position of the text starts one |
| Regex.GroupTextFits | core/announcement_parser.py:119-121 | the text of a group of a match is a run of its repetition's class, within its length bounds (so `\d{4}` gives four digits) |
| Regex.FindAllFrom | core/announcement_parser.py:250 | `re.findall` from a position: every match reported is a match, in order, each starting after the previous one ended |
| Regex.FindAllEnds | core/announcement_parser.py:250 | no match starts before the first match reported, nor after the last one |
| Regex.FindAllGaps | core/announcement_parser.py:250 | no match starts between one reported match and the next |
| Regex.FindAll | core/announcement_parser.py:250 | `re.findall` over the whole text: matches in order, none overlapping |
| AnnouncementParser.ZFill | core/announcement_parser.py:198 | `str.zfill(width)`: the string left-padded with zeros to the width, unchanged when already as long |
| AnnouncementParser.ZFillKeepsValue | core/announcement_parser.py:198 | zero-padding a digit string keeps the number it spells |
| AnnouncementParser.DateText | core/announcement_parser.py:121 | `f"{y}-{m.zfill(2)}-{d.zfill(2)}"` of digit groups is a "YYYY-MM-DD" string starting with the year whose month and day spell the same numbers |
| AnnouncementParser.DateBy | core/announcement_parser.py:119-121 | a date pattern gives a "YYYY-MM-DD" string when it occurs, and nothing exactly when it does not occur |
| AnnouncementParser.NoticeDateOf | core/announcement_parser.py:117-131 | the announcement date is "YYYY-MM-DD" shaped, and missing exactly when none of its three patterns occurs |
| AnnouncementParser.ExtractDate | core/announcement_parser.py:115-141 | `_extract_date`: any date found is "YYYY-MM-DD" shaped; a type other than "공고", "시작" and "마감" gives nothing |
| AnnouncementParser.NoticeDateFound | core/announcement_parser.py:117-131 | no announcement date exactly when the end-of-line date, the date after "공고" and the 년/월/일 date in the first 500 characters are all absent |
| AnnouncementParser.NoticeDatePriority | core/announcement_parser.py:117-131 | the announcement date comes from the first of its three patterns that occurs, in that order |
| AnnouncementParser.StartDateFound | core/announcement_parser.py:132-135 | no application start exactly when no date follows "신청기간" |
| AnnouncementParser.EndDateFound | core/announcement_parser.py:136-139 | no application end exactly when no date follows a tilde |
| AnnouncementParser.StrippedMatch | core/announcement_parser.py:108-112 | a title pattern gives its stripped match, without edge whitespace, exactly when it occurs |
| AnnouncementParser.SearchAbsent | core/announcement_parser.py:110 | `re.search` finds nothing exactly when the pattern occurs nowhere in the text |
| AnnouncementParser.FirstStrippedMatch | core/announcement_parser.py:103-113 | the first of two patterns that occurs, stripped: no whitespace at either end, and nothing exactly when neither occurs |
| AnnouncementParser.ExtractTitle | core/announcement_parser.py:103-113 | `_extract_title`: a title found has no whitespace at either end |
| AnnouncementParser.ExtractTitleFound | core/announcement_parser.py:103-113 | no title exactly when neither title pattern occurs |
| AnnouncementParser.NumberBy | core/announcement_parser.py:158-161 | the number a `(\d+)` group spells, read from the leftmost match, else the default |
| AnnouncementParser.ExtractMinUnits | core/announcement_parser.py:156-161 | `_extract_min_units`: 15 when "N호 이상 건물" does not occur, else the number N of its leftmost occurrence |
| AnnouncementParser.ExtractHousingTypes | core/announcement_parser.py:143-154 | `_extract_housing_types`: a non-empty list of distinct known types |
| AnnouncementParser.HousingTypesNamed | core/announcement_parser.py:143-154 | all four types when the text names none, else each type is listed exactly when the text names it ("다세대" or "연립" for the apartment house) |
| AnnouncementParser.Bands | core/announcement_parser.py:163-181 | one possible band per area type, in the order 일반, 청년, 신혼신생아, 다자녀 |
| AnnouncementParser.TableSpec | core/announcement_parser.py:163-181 | the table of found bands holds exactly the found ones, each under its type's key |
| AnnouncementParser.ExtractAreaCriteria | core/announcement_parser.py:163-188 | `_extract_area_criteria`: never empty, and the default table (20-85, 16-60, 36-85, 46-85) when no band is stated |
| AnnouncementParser.AreaCriteriaFound | core/announcement_parser.py:165-181 | when some band is stated, the table holds a key exactly for each stated band, each with that band |
| AnnouncementParser.BandFound | core/announcement_parser.py:167-181 | an area type has a band exactly when its band pattern occurs |
| AnnouncementParser.CenturyYear | core/announcement_parser.py:196-197 | a two-digit year gets "20" in front; other years stay as written |
| AnnouncementParser.CenturyDate | core/announcement_parser.py:195-199 | the criterion date is "YYYY-MM-DD" shaped unless the year had three digits, and begins with the year read in the 2000s |
| AnnouncementParser.CriterionDate | core/announcement_parser.py:194-206 | a criterion date is found exactly when its pattern occurs, and is date shaped |
| AnnouncementParser.CriterionYear | core/announcement_parser.py:194-206 | the year of a criterion is "20" + a two-digit year, a four-digit year as written, a three-digit year left as it is |
| AnnouncementParser.ExtractConstructionCriteria | core/announcement_parser.py:190-211 | `_extract_construction_criteria`: a non-empty table over the construction-start and approval keys only, never the officetel key |
| AnnouncementParser.Criteria | core/announcement_parser.py:192-211 | each stated criterion is kept under its key and nothing else; the defaults 2009-01-01 and 2015-01-01 when none is stated |
| AnnouncementParser.ConstructionCriteriaSpec | core/announcement_parser.py:190-211 | defaults when neither pattern occurs, else a key exactly for each pattern that occurs; every value is a date string |
| AnnouncementParser.NonSpaceConcat | core/announcement_parser.py:253-254 | the words of a concatenation are the words of its parts |
| AnnouncementParser.StripKeepsWords | core/announcement_parser.py:253 | `str.strip` removes only whitespace |
| AnnouncementParser.CollapseSpaces | core/announcement_parser.py:254 | `re.sub(r'\s+', ' ', s)`: the only whitespace left is single spaces, and empty or edge whitespace exactly as in the input |
| AnnouncementParser.CollapseKeepsWords | core/announcement_parser.py:254 | collapsing whitespace keeps every other character, in order |
| AnnouncementParser.TidyContent | core/announcement_parser.py:253-254 | the tidied content is empty exactly when the content is blank, else has no edge whitespace and single spaces only, and keeps the words |
| AnnouncementParser.FormatItem | core/announcement_parser.py:256 | `f"({label}) {content}"` is a well-formed item carrying that label and content |
| AnnouncementParser.ItemOf | core/announcement_parser.py:252-256 | a match gives no item exactly when its content is blank, else a well-formed item with the match's label and the content's words |
| AnnouncementParser.ItemsOf | core/announcement_parser.py:252-256 | at most one well-formed item per match |
| AnnouncementParser.SplitIntoItems | core/announcement_parser.py:246-258 | `_split_into_items`: well-formed items, no more than the labels found |
| AnnouncementParser.SectionItems | core/announcement_parser.py:232-242 | a section's items are well formed, and none when its heading does not occur |
| AnnouncementParser.ExtractExclusionSections | core/announcement_parser.py:213-244 | `_extract_exclusion_sections`: every item of the three sections is well formed |
| AnnouncementParser.NoExclusionBlock | core/announcement_parser.py:221-228 | without a "매입제외주택" block all three sections are empty |
| AnnouncementParser.ConvertToRules | core/announcement_parser.py:260-262 | `_convert_to_rules` ignores the sections and returns the default rule list |
| AnnouncementParser.ParseFromText | core/announcement_parser.py:60-101 | `parse_from_text`: the region as given, the fallback title when none is found, a date-shaped announcement date when today's is, start and end empty or date shaped, non-empty type, area and construction tables, no officetel criterion |
| AnnouncementParser.ParsedRules | core/announcement_parser.py:88-89 | the rules of a parsed announcement are the default rules, whatever the text |
| AnnouncementParser.Get | core/announcement_parser.py:284-286 | `dict.get(key, default)` |
| AnnouncementParser.CreateConfigFromParsed | core/announcement_parser.py:264-294 | `create_config_from_parsed`: the id from date and region, the 85 m² ceiling, units and areas copied, the rules by the flag, each construction date or its default |
| AnnouncementParser.ConfigIdShape | core/announcement_parser.py:276 | for a "YYYY-MM-DD" date the config id is "YYYYMMDD_" followed by the region |
| AnnouncementParser.ParsedConfigRules | core/announcement_parser.py:270-273 | a config made from a parsed announcement carries the default rules whether or not they were asked for |
| AnnouncementParser.ParsedConfigDefaults | core/announcement_parser.py:284-287 | a config made from parsed text always has the default officetel date 2010-01-01, a non-empty area table and the 85 m² ceiling |
| KeywordTables.Lookup | ui/single_shot_analyzer.py:123 | `table[n]` for a dict written as its entries: nothing exactly when no entry carries the name, else the value of an entry that does |
| KeywordTables.LookupFirst | ui/single_shot_analyzer.py:123 | the value found is that of the first entry with the name |
| KeywordTables.FirstKeyword | ui/single_shot_analyzer.py:124-125 | scanning a table for the first key occurring in a string finds nothing exactly when no key occurs |
| KeywordTables.FirstKeywordAt | ui/single_shot_analyzer.py:124-125 | the first key in table order that occurs in the string decides |
| SingleShotAnalyzer.SpaceCharsExact | ui/single_shot_analyzer.py:117 | the characters `\s` stands for are exactly the whitespace characters |
| SingleShotAnalyzer.Normalize | ui/single_shot_analyzer.py:116-117 | `_n`: no whitespace, "-", "_", ASCII or full-width parenthesis, "·", ASCII or full-width colon or ideographic space is left, and the result is no longer than the input |
| SingleShotAnalyzer.NormalizeIsRemoval | ui/single_shot_analyzer.py:116-117 | `_n` only removes those characters and keeps every other in order; the trailing strip has nothing left to remove |
| SingleShotAnalyzer.NormalizeIdempotent | ui/single_shot_analyzer.py:116-117 | normalising twice is normalising once |
| SingleShotAnalyzer.MapTypeWith | ui/single_shot_analyzer.py:120-129 | `_mt` over its tables: an empty name is UNKNOWN |
| SingleShotAnalyzer.MapType | ui/single_shot_analyzer.py:120-129 | `_mt` with the source's `_NORM` and `_KW` tables: an empty name is UNKNOWN |
| SingleShotAnalyzer.ExactNameWins | ui/single_shot_analyzer.py:122-123 | a normalised name that is a key of the exact table gives that key's category |
| SingleShotAnalyzer.NormalizedKeywordWins | ui/single_shot_analyzer.py:124-125 | otherwise the first keyword occurring in the normalised name decides |
| SingleShotAnalyzer.RawKeywordWins | ui/single_shot_analyzer.py:126-128 | otherwise the first keyword occurring in the name with spaces removed decides |
| SingleShotAnalyzer.MapTypeUnknownIff | ui/single_shot_analyzer.py:120-129 | with tables of known categories, a name is UNKNOWN exactly when it is empty or none of the three steps finds anything |
| SingleShotAnalyzer.ContainsWithout | ui/single_shot_analyzer.py:117 | removing characters that a word does not contain keeps every occurrence of the word |
| SingleShotAnalyzer.RawStepSubsumed | ui/single_shot_analyzer.py:124-128 | with all-Hangul keywords, a keyword found after removing spaces is also found in the normalised name |
| SingleShotAnalyzer.HangulNotDropped | ui/single_shot_analyzer.py:117 | `_n` never removes a Hangul syllable |
| SingleShotAnalyzer.WithoutTwice | ui/single_shot_analyzer.py:117-126 | removing a set of characters and then a larger one is removing the larger one |
| SingleShotAnalyzer.MapTypeRawStepDead | ui/single_shot_analyzer.py:124-129 | with the source's tables the raw-string step never finds what the normalised step missed: such a name is UNKNOWN |
| SingleShotAnalyzer.KeywordsAreHangul | ui/single_shot_analyzer.py:60-93 | every `_KW` keyword is made of Hangul syllables |
| SingleShotAnalyzer.TablesKnown | ui/single_shot_analyzer.py:25-93 | no `_NORM` or `_KW` entry maps to UNKNOWN |
| SingleShotAnalyzer.DetectedWith | ui/single_shot_analyzer.py:132-134 | a category is detected exactly when one of its table entries has a keyword in the text |
| SingleShotAnalyzer.DetectedDistinct | ui/single_shot_analyzer.py:134 | a table whose categories differ detects each category once, as the dict's keys |
| SingleShotAnalyzer.SafetyTypesDistinct | ui/single_shot_analyzer.py:96-113 | the `_SAFETY` entries name distinct categories |
| SingleShotAnalyzer.TextDetected | ui/single_shot_analyzer.py:132-134 | `_td`: each category once, and exactly those with a keyword in the text stripped of spaces and newlines |
| SingleShotAnalyzer.GetOr | ui/single_shot_analyzer.py:361-367 | `dict.get(key, default)` |
| SingleShotAnalyzer.PagesOf | ui/single_shot_analyzer.py:365-366 | an integer `pages` becomes a one-page list |
| SingleShotAnalyzer.DataOf | ui/single_shot_analyzer.py:367-369 | the data always carries `exists: true`, and any other key comes from a dict `data` |
| SingleShotAnalyzer.Relabelled | ui/single_shot_analyzer.py:370-371 | a building registry whose raw name mentions "토지" becomes a land registry; nothing else changes, and nothing becomes UNKNOWN |
| SingleShotAnalyzer.DocumentOf | ui/single_shot_analyzer.py:359-372 | an item is dropped exactly when it is not a dict or its name maps to UNKNOWN; a kept one has the relabelled category, confidence 0.85 and `exists: true` |
| SingleShotAnalyzer.MappedByFrom | ui/single_shot_analyzer.py:357-373 | every document the mapping lists is what the item mapper gives for one of the raw items |
| SingleShotAnalyzer.MappedFromItems | ui/single_shot_analyzer.py:357-373 | every mapped document comes from one raw item |
| SingleShotAnalyzer.MappedWell | ui/single_shot_analyzer.py:357-373 | every mapped document has a known category, confidence 0.85 and `exists: true` |
| SingleShotAnalyzer.MapDocuments | ui/single_shot_analyzer.py:355-373 | `_map`: the loop yields the documents of the items kept, in order |
| SingleShotAnalyzer.TextDocument | ui/single_shot_analyzer.py:258-260 | a text-detected document has no pages and confidence 0.7 |
| SingleShotAnalyzer.Augment | ui/single_shot_analyzer.py:255-260 | the augmentation loop appends the text documents of `Augmented` |
| SingleShotAnalyzer.AddedSpec | ui/single_shot_analyzer.py:256-260 | each appended document is a text document of a detected category not already present |
| SingleShotAnalyzer.AddedCovers | ui/single_shot_analyzer.py:256-260 | every detected category not already present is appended |
| SingleShotAnalyzer.AddedDistinct | ui/single_shot_analyzer.py:256-260 | no category is appended twice |
| SingleShotAnalyzer.AugmentedTypesFrom | ui/single_shot_analyzer.py:255-260 | every category after augmentation was present or detected |
| SingleShotAnalyzer.AugmentedTypesCover | ui/single_shot_analyzer.py:255-260 | every present or detected category is there after augmentation |
| SingleShotAnalyzer.AugmentedKeepsDocuments | ui/single_shot_analyzer.py:255-260 | the documents from the model come first and unchanged; appended ones have new categories |
| SingleShotAnalyzer.FirstTrue | ui/single_shot_analyzer.py:418-422 | the index of the first true flag, or -1 when there is none |
| SingleShotAnalyzer.AcceptedFlags | ui/single_shot_analyzer.py:419-420 | one flag per key, telling whether the key's value is usable |
| SingleShotAnalyzer.OwnerField | ui/single_shot_analyzer.py:418-422 | an owner field changes only to a non-empty value |
| SingleShotAnalyzer.OwnerFieldFirst | ui/single_shot_analyzer.py:418-422 | the first key whose value is truthy, not blank and not "null" or "none" gives the field its stripped text |
| SingleShotAnalyzer.OwnerFieldKept | ui/single_shot_analyzer.py:418-422 | without such a key the field keeps its value |
| SingleShotAnalyzer.OwnerFilled | ui/single_shot_analyzer.py:411-422 | filling the owner fields leaves `is_complete` alone |
| SingleShotAnalyzer.DateField | ui/single_shot_analyzer.py:427-430 | a falsy date value keeps the field; a truthy one other than "null" or "none" sets it to its stripped text |
| SingleShotAnalyzer.PyFloat | ui/single_shot_analyzer.py:433-434 | `float(v)`: a number gives its value; None, a list or a dict gives nothing |
| SingleShotAnalyzer.LandAreaField | ui/single_shot_analyzer.py:431-434 | the land area changes only when the value is not None and converts, and then to the converted value |
| SingleShotAnalyzer.ApplicationFilled | ui/single_shot_analyzer.py:409-434 | the application's record and `is_complete` are kept; the seal flag is raised exactly when `has_seal` is True, never lowered |
| SingleShotAnalyzer.FixHousing | ui/single_shot_analyzer.py:409-434 | `_fix_housing` changes only the application and the corporation flag, and the flag is set exactly when it was or `is_corporation` is True |
| SingleShotAnalyzer.SlotIndex | ui/single_shot_analyzer.py:389-397 | every record the loop touches has its place in the list |
| SingleShotAnalyzer.WithBase | ui/single_shot_analyzer.py:398-400 | updating one record leaves the others, the application and the corporation record unchanged |
| SingleShotAnalyzer.MarkedValid | ui/single_shot_analyzer.py:376-400 | marking a record sets it present and VALID and keeps its date and issues |
| SingleShotAnalyzer.Refreshed | ui/single_shot_analyzer.py:398-400 | a record is present afterwards exactly when it was or its category is detected or among the documents; a present record is untouched |
| SingleShotAnalyzer.SlotsFixed | ui/single_shot_analyzer.py:389-400 | the record loop leaves the application and the corporation record alone |
| SingleShotAnalyzer.SlotsFixedBase | ui/single_shot_analyzer.py:389-400 | after the first k steps, exactly the first k records are refreshed |
| SingleShotAnalyzer.FirstOfType | ui/single_shot_analyzer.py:382-383 | the first document of a category, or -1 |
| SingleShotAnalyzer.ApplicationOpened | ui/single_shot_analyzer.py:378-380 | a text-detected application is marked present and VALID; nothing else changes |
| SingleShotAnalyzer.RecordsFrame | ui/single_shot_analyzer.py:376-407 | replacing the application and corporation records leaves the other records as they were |
| SingleShotAnalyzer.OpenedWith | ui/single_shot_analyzer.py:382-387 | opening the application from a document leaves it present, never lowers the corporation flag, and leaves the other records alone |
| SingleShotAnalyzer.ApplicationFixed | ui/single_shot_analyzer.py:377-387 | the application is present afterwards exactly when it was, or it is text-detected or among the documents; other records are untouched and the corporation flag only rises |
| SingleShotAnalyzer.Completeness | ui/single_shot_analyzer.py:405-407 | `is_complete` holds exactly when at least three owner fields are non-blank |
| SingleShotAnalyzer.CorporationRaised | ui/single_shot_analyzer.py:402-403 | the corporation flag is set exactly when it was or the text says corporation |
| SingleShotAnalyzer.FixApplication | ui/single_shot_analyzer.py:377-387 | the application step's loop computes `ApplicationFixed` |
| SingleShotAnalyzer.FixRecords | ui/single_shot_analyzer.py:389-400 | the record loop computes `SlotsFixed` over all seven records |
| SingleShotAnalyzer.Fix | ui/single_shot_analyzer.py:376-407 | `_fix` computes `Fixed` |
| SingleShotAnalyzer.FixedRecords | ui/single_shot_analyzer.py:389-400 | after `_fix` each of the seven records is its refreshed self |
| SingleShotAnalyzer.FixNeverClears | ui/single_shot_analyzer.py:376-400 | `_fix` never clears `exists`, leaves a present record untouched, and a detected or delivered category's record is present afterwards |
| SingleShotAnalyzer.FixedApplication | ui/single_shot_analyzer.py:377-387 | after `_fix` the application is present exactly when it was, or it is detected or delivered |
| SingleShotAnalyzer.FixedCorporation | ui/single_shot_analyzer.py:402-424 | `_fix` never lowers the corporation flag, and raises it when the text says corporation |
| SingleShotAnalyzer.FixedCompleteness | ui/single_shot_analyzer.py:405-407 | after `_fix` the owner is complete exactly when at least three owner fields are non-blank |
| PrecisionPdfAnalyzer.Best | backup/precision_pdf_analyzer.py:413-421 | the best confidence of the keyword scan is never negative |
| PrecisionPdfAnalyzer.BestIsMaximal | backup/precision_pdf_analyzer.py:416-421 | no keyword that occurs and is not excluded has a higher confidence than the one reported |
| PrecisionPdfAnalyzer.BestIsEarliest | backup/precision_pdf_analyzer.py:416-421 | the result is (UNKNOWN, 0.0) or comes from a hit that every earlier hit falls strictly short of: ties keep the earliest |
| PrecisionPdfAnalyzer.BestWithoutHits | backup/precision_pdf_analyzer.py:413-421 | without a hit the scan gives (UNKNOWN, 0.0) |
| PrecisionPdfAnalyzer.RegistryRelabelled | backup/precision_pdf_analyzer.py:423-426 | the land registry is reported exactly when it was found, or a building registry was found in a text mentioning "토지" but not "건물"; nothing becomes UNKNOWN |
| PrecisionPdfAnalyzer.DetectedByText | backup/precision_pdf_analyzer.py:371-428 | (UNKNOWN, 0.0) when fewer than 20 characters are left without spaces and newlines; otherwise the best confidence, with the registry relabelled |
| PrecisionPdfAnalyzer.DetectByText | backup/precision_pdf_analyzer.py:371-428 | `_detect_by_text`: the loop computes `DetectedByText` |
| PrecisionPdfAnalyzer.RulesKnown | backup/precision_pdf_analyzer.py:382-410 | every keyword rule names a known category with confidence at least 0.8 |
| PrecisionPdfAnalyzer.DetectedConfidentIsKnown | backup/precision_pdf_analyzer.py:371-428 | a positive confidence always comes with a known category and a text of at least 20 characters |
| PrecisionPdfAnalyzer.DetectedAtLeastEveryHit | backup/precision_pdf_analyzer.py:416-421 | any rule that hits bounds the reported confidence from below |
| PrecisionPdfAnalyzer.PageType | backup/precision_pdf_analyzer.py:352-367 | a page takes the text reading, then of a known category with confidence at least 0.7, exactly when its text has at least 50 characters and confidence at least 0.7; otherwise the image reading |
| PrecisionPdfAnalyzer.IdentifyAllPages | backup/precision_pdf_analyzer.py:346-369 | `_identify_all_pages`: one reading per page, in order, each the page's `PageType` |
| PrecisionPdfAnalyzer.MapTypeStringWith | backup/precision_pdf_analyzer.py:1003-1011 | a blank type name or one of "기타", "other", "unknown", "미확인" gives UNKNOWN |
| PrecisionPdfAnalyzer.ExactTypeWins | backup/precision_pdf_analyzer.py:1040-1043 | the first `mapping` key occurring in the cleaned name decides |
| PrecisionPdfAnalyzer.PartialTypeWins | backup/precision_pdf_analyzer.py:1045-1068 | with no `mapping` key in the name, the first partial keyword occurring decides |
| PrecisionPdfAnalyzer.MapTypeStringUnknownIff | backup/precision_pdf_analyzer.py:1003-1070 | with known categories in the tables, UNKNOWN exactly when the name is blank, a "no category" name, or holds no key of either table |
| PrecisionPdfAnalyzer.MapTypeString | backup/precision_pdf_analyzer.py:1003-1070 | with the source tables, UNKNOWN exactly for a blank or "no category" name, or one holding no key of either table |
| PrecisionPdfAnalyzer.TypeTablesKnown | backup/precision_pdf_analyzer.py:1013-1064 | no entry of `mapping` or `partial_rules` is UNKNOWN |
| PrecisionPdfAnalyzer.TextConfidence | backup/precision_pdf_analyzer.py:972-999 | a string is graded between 0.3 and 0.9; a date key gives 0.9 exactly when the value starts with a date and 0.6 otherwise; a key naming no date, name, phone or email gives 0.8 |
| PrecisionPdfAnalyzer.FieldConfidence | backup/precision_pdf_analyzer.py:956-1001 | `_estimate_field_confidence`: always within [0, 1]; None, "", [] and blank or placeholder strings give 0.0, a bool 0.9, a number 0.85, a non-empty list 0.85, a dict 0.7, any other string at least 0.3 |
| PrecisionPdfAnalyzer.FieldOf | backup/precision_pdf_analyzer.py:562-571 | a field is recorded from the vision answer with a confidence in [0, 1], and needs checking exactly when that is below 0.8: never for a bool or number, always for None or a dict |
| PrecisionPdfAnalyzer.FieldsOf | backup/precision_pdf_analyzer.py:558-571 | the fields are exactly the answer's keys other than "exists" and "document_type", each recorded from its value |
| PrecisionPdfAnalyzer.FieldOrder | backup/precision_pdf_analyzer.py:558-560 | the keys visited by the loop are exactly the answer's keys other than the two descriptive ones |
| PrecisionPdfAnalyzer.FieldOrderExact | backup/precision_pdf_analyzer.py:558-563 | in the answer's key order every field key is visited exactly once |
| PrecisionPdfAnalyzer.Confidences | backup/precision_pdf_analyzer.py:557-563 | every averaged confidence lies in [0, 1] |
| PrecisionPdfAnalyzer.ConfidencesFollowFields | backup/precision_pdf_analyzer.py:557-563 | the averaged confidences are those of the fields, one per field key, in key order |
| PrecisionPdfAnalyzer.SumBounds | backup/precision_pdf_analyzer.py:573 | a sum of n values in [0, 1] lies in [0, n] |
| PrecisionPdfAnalyzer.Mean | backup/precision_pdf_analyzer.py:573 | the overall confidence is 0.7 without fields and otherwise the mean, always in [0, 1] |
| PrecisionPdfAnalyzer.AnswerData | backup/precision_pdf_analyzer.py:547-554 | the raw data is the answer's dict, a list's first element when that is a dict, else empty, always with `exists: true` |
| PrecisionPdfAnalyzer.CollectFields | backup/precision_pdf_analyzer.py:557-571 | the loop over the answer's keys builds exactly `FieldsOf` and the confidences in key order |
| PrecisionPdfAnalyzer.ExtractDocumentFields | backup/precision_pdf_analyzer.py:528-581 | `_extract_document_fields`: empty without images; on an error, raw data `{exists: true}`, confidence 0.5 and the note "<type>: 추출 오류 - <error>"; otherwise the fields of the answer and their mean, always in [0, 1] |

## Left out

- PDF rasterisation, text extraction and image enhancement: the text of a page and the image reading of a page are parameters.
- Calls to the vision models, prompts, retries and back-off: the model's answer is a parameter (`Response`, the document list of `SingleShotAnalyzer.MapDocuments`, the AI documents of `UnifiedResult.Analyze`).
- JSON parsing: answers arrive already parsed as `Values.Value`; the iteration order of a parsed dict is a parameter where the source's result depends on it.
- Concurrency, rate limiting, thread and process pools, cache locking, and the disk layer of the cache: timing and parallelism are outside the model.
- Persistence of configurations and of the learning database, the UI, report formatting and print logging.
- The wall clock: today's date is a parameter.
- Python's `str.lower`, `\d` and `str.isdigit` are modelled on ASCII letters and digits only; other scripts are left as they are.
- Regular expressions are modelled by a small backtracking matcher for the constructs the source's patterns use (literals, repetitions of one character class, numbered groups, line and text ends, lookaheads of simple atoms); an exclusion pattern of `_detect_by_text` such as `총괄|전유` is modelled as its list of literal alternatives.
- `str()` of a list or dict (`DualAnalysis.Render`) is approximated: such values are rendered as a fixed marker rather than Python's repr.
- `float()` of a string is modelled for an optional minus followed by a decimal; a leading plus, exponents, underscores, `inf` and `nan` are read as failures.
- SingleShotAnalyzer.DocumentOf: `_mt` on a truthy `document_type` that is not a string raises in the source; the model renders such a value as text instead.
- SingleShotAnalyzer.PagesOf: entries of a `pages` list that are not integers are dropped, and a string or dict `pages` becomes an empty list.
- SingleShotAnalyzer.Fix: the composition of `analyze` with `_build_result` is not repeated here; `UnifiedResult.BuildResult` models `_build_result`.
- PrecisionPdfAnalyzer.ExtractDocumentFields: the exception is the message of a failed call given as a parameter; exceptions raised inside the field loop cannot happen in the model.
- PrecisionPdfAnalyzer.MapTypeString: `_map_type_string` is stated through `MapTypeStringWith` over its tables; the lemmas hold for any tables and for the source's.
- The regular-expression owner-name and corporation-name extractors used as text fallbacks by the unified analyser, and the owner-information extractor, are given as their results (`UnifiedResult.TextFallback`).
- IntegratedVerification.IntegratedVerificationSystem.constructor: requires a configuration's announcement date to be readable; the source would raise on an unreadable one.
- The page-type batch call of the parallel analyser and its AI analysis tasks are given as their results (`AsyncParallelAnalyzer.TaskResult` takes the answer as a parameter).
- UnifiedResult.UnitDicts: a `units` list entry that is not a dict raises AttributeError in the source (the `.get` calls of the unit loops), and so does a truthy `units` that is not a list (a TypeError for a number); nothing in `_build_result` catches either. The model reads such an entry as an empty dict and such a `units` as no units.
- UnifiedResult.RentalStatusApplied: inherits the `UnitDicts` reading; where the source would raise on a malformed `units`, the model records empty units or none.
- UnifiedResult.ExclusiveApplied: inherits the `UnitDicts` reading; where the source would raise on a malformed `units`, the model records empty units or none.
- Floating point: Python floats are exact reals in the model. Subtraction and division are exact, so a difference that IEEE doubles put just above or below a tolerance (0.1, 0.01, 1%) is decided by its exact value. `f"{x:.1f}"` (`Text.Fmt1`) rounds the exact decimal half away from zero, while Python rounds the binary value half to even. `str(x)` (`Text.FloatText`) prints at most six fractional digits, with no exponent form and no `nan`/`inf`. The members below carry these differences.
- EnhancedValidation.Rule4: the borderline and mismatch reasons print the rate with `Fmt1`; a rate of exactly 42.25 is printed "42.3" where Python prints "42.2".
- EnhancedValidation.Rule6: the 0.1 land-area tolerance is decided on exact reals; 165.3 against 165.2 is within it in the model, while the double difference 0.10000000000002274 exceeds it in the source.
- EnhancedValidation.LandAreasDisagree: states its premise on exact-real differences, so it inherits the `Rule6` tolerance difference.
- LegacyValidation.Rule4: the low-rate reason prints the rate with `FloatText`; a rate with more than six fractional digits (42.857142857142854) is cut to six ("42.857142") where Python prints them all.
- AdvancedValidation.ValidateExclusiveAreaRange: the out-of-range reason prints the area with `FloatText`; an area with more than six fractional digits is cut to six.
- AdvancedValidation.ValidateSealMatch: the shown value and the reasons print the rate with `Fmt1`; 42.25 is shown "42.3%" where Python shows "42.2%".
- AdvancedValidation.ValidateCrossMatch: the relative tolerance is decided on exact reals; 1.01 against 1.0 is within 1% in the model, while the double quotient 0.010000000000000009 is over it in the source.
- AdvancedValidation.CompareDualResults: the 1% test is decided on exact reals; 2.97 against 3.0 is inconsistent in the model, while the double quotient 0.009999999999999934 is under 0.01 in the source.
- AdvancedValidation.AdvancedValidator.Report: the high-confidence rate is printed with `Fmt1` on the exact ratio; 1 of 16 gives "6.3%" where Python gives "6.2%".
- DualAnalysis.RenderOpt: a JSON float is rendered with `FloatText`; 0.1234567 is rendered "0.123456" where `str` gives "0.1234567", and exponent forms are never produced.
- UnifiedResult.LandAreasReconciled: the 0.1 agreement is decided on exact reals; 165.3 and 165.2 agree in the model and not in the source.
- UnifiedResult.PowerOfAttorneyReconciled: the 0.01 land-area test is decided on exact reals; 100.01 against 100.0 matches in the model and not in the source.
- UnifiedResult.MismatchedAmong: the 0.01 unit-area test is decided on exact reals; 59.99 against 59.98 is not a mismatch in the model, while the source lists the unit.
- UnifiedResult.CollectMismatchedUnits: inherits the exact-real 0.01 test of `MismatchedAmong`.
- UnifiedResult.UnitsReconciled: inherits the exact-real 0.01 test of `MismatchedAmong`.
- UnifiedResult.MismatchedAmongIff: the law is stated over exact-real area differences, and so inherits the `MismatchedAmong` difference at 0.01.
- UnifiedResult.MismatchedUnitsIff: the law is stated over exact-real area differences, and so inherits the `MismatchedAmong` difference at 0.01.
- UnifiedResult.Reconciled: its land-area and mismatched-unit clauses inherit the exact-real tolerances of `LandAreasReconciled` and `MismatchedAmong`.
- The test files are not modelled; they were read as evidence of intended behaviour.

## Findings

| source | as written | input that shows it | evidently intended | confidence | as-written member | corrected member |
|---|---|---|---|---|---|---|
| core/learning_system.py:413-425 | the true words are searched as substrings before the false words, and the seismic true word "적용" occurs inside "미적용" while "해당" occurs inside "해당없음" | `seismic_design` = "해당없음" or "미적용" | both read as False, as the pattern's own example says | high, not executed | LearningSystem.SeismicNegativesReadAsTrue | LearningSystem.SeismicNegativesFixed |
