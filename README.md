# Breast-cancer detection system: the Convex backend, modelled in Dafny

The repository is a patient-record and scan-upload web application with a
simulated "AI" risk analysis. Its only logic is the Convex backend: four
tables (patients, scans, analyses, reports) reached through request handlers.
Every public handler first resolves the caller. The handlers that name one
record by id (getPatient, updatePatient, getScan, getAnalysis,
updateAnalysisStatus, and createScan/listScans through their patient) then
require `record.createdBy == caller`. The internal createAnalysis resolves no
caller, and listAnalyses checks no owner. The analysis handler picks one
entry of a fixed three-entry outcome table and inserts it as a new analysis
record.

This project models that backend.

- `schema.dfy` (module `Schema`): the four record shapes. The string-literal
  unions (scan type, risk level, status, report type) are datatypes. Each has
  a name/validator pair and a round-trip lemma.
- `database.dfy` (module `Database`): the store as a class `Store`. It holds
  one map per table and a creation counter `clock`. Every insert takes `clock`
  as the new document's id and advances it, so an id also stands for
  `_creationTime`, and "newest first" means "strictly decreasing id". The
  module also defines the error kinds, and `IndexScan`, which is an equality
  query on an index returned in descending creation order.
- `patients.dfy`, `scans.dfy`, `internal.dfy`, `analysis.dfy`: one module per
  handler file. Handlers that write the store are methods with `modifies db`
  that state the whole new store. generateUploadUrl is a mutation that writes
  nothing to the store, so it is a function. Queries are functions that read
  the store, so no query can change it.
- `scenarios.dfy`: two call sequences on a fresh store. One goes from
  registration to fetching an analysis. The other shows a second user listing
  the owner's analyses.

The caller is an `Option<UserId>`; `None` stands for an unauthenticated
request. Errors are `Unauthenticated`, `NotFoundOrDenied` (absent and "not
yours" are one error) and `ScanNotFound`. `ScanNotFound` belongs to
`analyzeImage`'s `if (!scan)` branch. That branch cannot be reached:
`AnalyzeImage` is proved never to return it.

Three behaviours of the handlers are easy to misread; the model follows the
code:

- `updatePatient` patches; it does not overwrite the whole record. An omitted
  `medicalHistory` is not part of the patch, so the old value survives
  (`Patients.Patched`).
- `analyzeImage` fetches the scan through `getScan`, which does check that the
  caller owns the scan. A foreign or missing scan gives `NotFoundOrDenied`,
  and nothing is inserted.
- `listAnalyses` returns every analysis recorded for the patient id,
  whoever created it. It checks neither the analyses' owner nor the
  patient's owner (`Analyses.ListAnalysesIgnoresCaller`,
  `Scenarios.CrossUserListing`).

## Model

| member | source | states |
|---|---|---|
| `Schema.ParseScanType` | breast_cancer_detection_system/convex/schema.ts:20 | the scanType validator accepts a string exactly when it is the name of mammography, ultrasound or mri |
| `Schema.ScanTypeRoundTrip` | breast_cancer_detection_system/convex/schema.ts:20 | validating a scan type's literal gives back that scan type |
| `Schema.ParseRiskLevel` | breast_cancer_detection_system/convex/schema.ts:30 | the riskLevel validator accepts exactly "low", "moderate" and "high" |
| `Schema.RiskLevelRoundTrip` | breast_cancer_detection_system/convex/schema.ts:30 | validating a risk level's literal gives back that risk level |
| `Schema.ParseStatus` | breast_cancer_detection_system/convex/schema.ts:37 | the status validator accepts exactly "pending", "reviewed" and "approved" |
| `Schema.StatusRoundTrip` | breast_cancer_detection_system/convex/schema.ts:37 | validating a status's literal gives back that status |
| `Schema.ParseReportType` | breast_cancer_detection_system/convex/schema.ts:46 | the reportType validator accepts exactly "preliminary" and "final" |
| `Schema.ReportTypeRoundTrip` | breast_cancer_detection_system/convex/schema.ts:46 | validating a report type's literal gives back that report type |
| `Database.Store.constructor` | breast_cancer_detection_system/convex/schema.ts:5-52 | a new store has four empty tables, a zero counter, and satisfies the id and link invariants |
| `Database.Store.NextId` | breast_cancer_detection_system/convex/patients.ts:20 | an insert's id is fresh in every table, and the counter advances by one |
| `Database.IndexScan` | breast_cancer_detection_system/convex/patients.ts:35-39 | an index query returns only stored documents whose key equals the queried value, each as stored, with ids strictly decreasing (newest first) |
| `Database.IndexScanComplete` | breast_cancer_detection_system/convex/scans.ts:57-61 | an index query misses no matching document |
| `Database.IndexScanCovers` | breast_cancer_detection_system/convex/analysis.ts:77-81 | every matching document is in the query result at once |
| `Database.NewestFirstIdsDistinct` | breast_cancer_detection_system/convex/patients.ts:38 | a newest-first result holds each document exactly once |
| `Patients.NewPatient` | breast_cancer_detection_system/convex/patients.ts:20-23 | the inserted patient carries exactly the given demographic fields and is owned by the caller |
| `Patients.Patched` | breast_cancer_detection_system/convex/patients.ts:76-83 | the patch overwrites the named fields, keeps medicalHistory when it is omitted, and never changes createdBy |
| `Patients.PatchedIdempotent` | breast_cancer_detection_system/convex/patients.ts:83 | applying the same update twice equals applying it once |
| `Patients.PatchedWithOwnFields` | breast_cancer_detection_system/convex/patients.ts:83 | patching a patient with its own fields leaves it unchanged |
| `Patients.PatchedLastWins` | breast_cancer_detection_system/convex/patients.ts:83 | a later update that names every field overrides an earlier one |
| `Patients.CreatePatient` | breast_cancer_detection_system/convex/patients.ts:14-23 | no caller: Unauthenticated, store untouched; otherwise exactly one new patient with a fresh id, other tables unchanged, and getPatient as the same caller returns it |
| `Patients.ListPatients` | breast_cancer_detection_system/convex/patients.ts:29-39 | no caller: Unauthenticated; otherwise exactly the caller's patients, as stored, newest first |
| `Patients.GetPatient` | breast_cancer_detection_system/convex/patients.ts:45-56 | succeeds if and only if the patient exists and the caller owns it, and then returns it as stored; otherwise the single NotFoundOrDenied error |
| `Patients.ListAgreesWithGet` | breast_cancer_detection_system/convex/patients.ts:35-56 | a patient is in the caller's list exactly when the caller can get it, and the listed document is the one get returns |
| `Patients.UpdatePatient` | breast_cancer_detection_system/convex/patients.ts:70-84 | succeeds if and only if the patient exists and the caller owns it; on failure nothing changes; on success only that patient is replaced, by its patched form |
| `Scans.NewScan` | breast_cancer_detection_system/convex/scans.ts:36-39 | the inserted scan carries exactly the given patient, image, type, date and notes, and is owned by the caller |
| `Scans.GenerateUploadUrl` | breast_cancer_detection_system/convex/scans.ts:7-12 | no caller: Unauthenticated; otherwise the blob store's upload URL |
| `Scans.OwnsPatient` | breast_cancer_detection_system/convex/scans.ts:31-34 | the patient check createScan and listScans share succeeds exactly when getPatient, asked by the same caller, succeeds |
| `Scans.CreateScan` | breast_cancer_detection_system/convex/scans.ts:24-40 | succeeds if and only if the caller owns the patient; on failure nothing is inserted; on success one new scan whose patient has the scan's owner |
| `Scans.WithUrls` | breast_cancer_detection_system/convex/scans.ts:63-68 | each scan is kept in order and gains the blob store's URL for its image |
| `Scans.ListScans` | breast_cancer_detection_system/convex/scans.ts:45-69 | fails with NotFoundOrDenied unless the caller owns the patient; otherwise exactly that patient's scans, newest first, each unchanged plus its image URL |
| `Scans.GetScan` | breast_cancer_detection_system/convex/scans.ts:74-89 | succeeds if and only if the scan exists and the caller owns it, and returns it with its image URL; otherwise NotFoundOrDenied |
| `Scans.ListedScansAreCallers` | breast_cancer_detection_system/convex/scans.ts:51-68 | in a linked store, every scan the caller can list is the caller's own scan and can be fetched by id |
| `Internal.NewAnalysis` | breast_cancer_detection_system/convex/internal.ts:16-19 | the inserted analysis stores every argument verbatim, has status pending and has no reviewer or review date |
| `Internal.NewAnalysisUnique` | breast_cancer_detection_system/convex/internal.ts:16-19 | a pending, unreviewed analysis is exactly the insert of its own argument fields |
| `Internal.CreateAnalysis` | breast_cancer_detection_system/convex/internal.ts:15-20 | without any authentication check, adds exactly one analysis under a fresh id and changes nothing else; the store stays linked when the arguments are consistent with the scan |
| `Analyses.OutcomeIndex` | breast_cancer_detection_system/convex/analysis.ts:29-48 | every risk level has an entry in the outcome table |
| `Analyses.OutcomeIndexInverts` | breast_cancer_detection_system/convex/analysis.ts:29-48 | no risk level occurs twice in the table |
| `Analyses.MockResultsConfidences` | breast_cancer_detection_system/convex/analysis.ts:30-47 | the table pairs low with 85, moderate with 72 and high with 91 |
| `Analyses.DecimalString` | breast_cancer_detection_system/convex/analysis.ts:61 | the confidence is rendered as decimal digits, at least one, with no leading zero |
| `Analyses.DecimalRoundTrip` | breast_cancer_detection_system/convex/analysis.ts:61 | reading the rendered digits back gives the number |
| `Analyses.Summary` | breast_cancer_detection_system/convex/analysis.ts:61 | the aiAnalysis text: "AI Analysis Complete - Risk Level: ", the risk level's literal, ", Confidence: ", the decimal confidence, "%"; it starts with that prefix and ends with "%" |
| `Analyses.SummaryDetermines` | breast_cancer_detection_system/convex/analysis.ts:61 | two outcomes with the same aiAnalysis text have the same risk level and confidence |
| `Analyses.TableConfidenceTexts` | breast_cancer_detection_system/convex/analysis.ts:61 | the table's confidences render as "85", "72" and "91" |
| `Analyses.SummaryTextLow` | breast_cancer_detection_system/convex/analysis.ts:61 | the low entry's aiAnalysis text is "AI Analysis Complete - Risk Level: low, Confidence: 85%" |
| `Analyses.SummaryTextModerate` | breast_cancer_detection_system/convex/analysis.ts:61 | the moderate entry's aiAnalysis text is "AI Analysis Complete - Risk Level: moderate, Confidence: 72%" |
| `Analyses.SummaryTextHigh` | breast_cancer_detection_system/convex/analysis.ts:61 | the high entry's aiAnalysis text is "AI Analysis Complete - Risk Level: high, Confidence: 91%" |
| `Analyses.Verdict` | breast_cancer_detection_system/convex/analysis.ts:54-63 | the arguments passed to createAnalysis: the scan id, the scan's patient, the drawn outcome's four fields, its summary, and the caller as owner |
| `Analyses.CannedVerdictByRisk` | breast_cancer_detection_system/convex/analysis.ts:29-61 | for any analysis taken from the table, its confidence, texts and summary are determined by its risk level |
| `Analyses.AnalyzeImage` | breast_cancer_detection_system/convex/analysis.ts:16-66 | no caller: Unauthenticated; a missing or foreign scan: NotFoundOrDenied; ScanNotFound never; both failures change nothing; on success one new pending analysis holding the drawn table entry, the scan's id and patient, and the caller as owner |
| `Analyses.ListAnalyses` | breast_cancer_detection_system/convex/analysis.ts:71-82 | no caller: Unauthenticated; otherwise every analysis with that patient id, as stored, newest first |
| `Analyses.ListAnalysesIgnoresCaller` | breast_cancer_detection_system/convex/analysis.ts:77-81 | any two authenticated callers get the same analysis listing |
| `Analyses.ListedAnalysesBelongToPatientOwner` | breast_cancer_detection_system/convex/analysis.ts:77-81 | in a linked store, every listed analysis belongs to the patient's owner, whoever is asking |
| `Analyses.GetAnalysis` | breast_cancer_detection_system/convex/analysis.ts:87-99 | succeeds if and only if the analysis exists and the caller created it, and returns it as stored; otherwise NotFoundOrDenied |
| `Analyses.Reviewed` | breast_cancer_detection_system/convex/analysis.ts:118-122 | the review patch sets any status, the reviewer and the review date, and keeps every other field |
| `Analyses.ReviewedLastWins` | breast_cancer_detection_system/convex/analysis.ts:118-122 | a second review replaces the first, so any status can follow any status, including approved back to pending |
| `Analyses.UpdateAnalysisStatus` | breast_cancer_detection_system/convex/analysis.ts:107-123 | succeeds if and only if the analysis exists and the caller created it; on failure nothing changes; on success only that analysis is replaced, by its reviewed form |
| `Scenarios.EndToEnd` | breast_cancer_detection_system/convex/analysis.ts:54-99 | after creating a patient, a mammography scan and an analysis, the same user fetches a pending, unreviewed analysis of their own that refers to the new scan and patient and holds the drawn table entry and its summary text verbatim |
| `Scenarios.CrossUserListing` | breast_cancer_detection_system/convex/analysis.ts:69-99 | another user cannot get the owner's patient, scan or analysis, yet listing the patient's analyses shows them the owner's record |

The store invariants are `Database.Store.Valid` and `Database.Store.Linked`.
`Valid` says every id was issued by the counter. `Linked` says:

- a scan's patient exists and has the scan's owner;
- an analysis's scan exists, and the analysis repeats that scan's patient and
  owner.

Every public mutation preserves both.

## Left out

- The presentation layer (`src/App.tsx`, `src/components/*.tsx`) and the
  generated `convex/_generated/api.d.ts`: views and type declarations, no
  backend logic.
- The blob store. `generateUploadUrl`'s URL is the parameter `issued`.
  `getUrl` is a parameter `StorageId -> Option<Url>`, treated as an
  uninterpreted function.
- `Math.random()`. The draw is the parameter `pick` in 0..2. Its uniform
  distribution is not modelled.
- The unused OpenAI client: an external network client that no handler calls.
- The auth provider's internals. The caller is an `Option<UserId>`.
- The wall clock behind `new Date().toISOString()`. It is the string
  parameter `now`.
- Reports: the record shape is modelled, but the backend has no operation on
  it, so no handler reads or writes `reports`.
- `confidence` is a JavaScript number. It is modelled as an integer, so
  fractional confidences and floating point are not modelled.
- `DecimalString` covers only non-negative integers, and matches JavaScript's
  rendering only below 10^21 (above that JavaScript uses exponent form). The
  table's confidences 85, 72 and 91 are far inside that range.
- Typed ids. Convex rejects an id of another table during argument validation.
  Here all ids are numbers from one counter, so such an id is simply absent
  and gives `NotFoundOrDenied`.
- `_creationTime` is a millisecond float in Convex. Here it is the id, taken
  from the counter.
- The indexes `patients.by_email`, `scans.by_created_by`, `analyses.by_scan` and
  `analyses.by_status`: no handler queries them.
- The wording of the error messages. They differ per table ("Patient not
  found or access denied", ...). Here each is one error kind.
- Upstream I/O failures of the store or the blob store, which the handlers only
  propagate.
- `analyzeImage` is an action. Its `getScan` query and its `createAnalysis`
  mutation run as two transactions, and another mutation could run between
  them. The model runs them back to back, since the behaviour here is
  sequential.
- The auth tables that the schema spreads in (`authTables`): they belong to
  the auth provider.
