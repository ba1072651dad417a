# miniqms readiness engine — a Dafny model

miniqms is a small quality-management system for ISO 9001:2015. Each tenant (a company) keeps its
processes, risks, problems, evidence, audits and reviews in a multi-tenant database. The heart
of the system is a **readiness-scoring engine**, which works through these steps:

- For every clause of the standard (4.1 to 10.3), it asks whether the tenant's records meet
  the clause's evidence requirement.
- It colours each clause green, amber or red, explains the colour in plain English and links
  to the module that fixes it.
- It folds the clauses into a readiness percentage.
- It ranks a short list of next best actions.

Around the engine sit:

- the dashboard and clause-ordering routes;
- the tenant-scoped database wrapper, whose point is that no tenant sees or touches another
  tenant's rows;
- idempotent seeding of the clause catalogue and of the default processes;
- blob-storage key handling for uploads;
- the quality-policy template segmenter that turns a text template into document paragraphs;
- the upload rules of the evidence and audit forms;
- the list codec of the process form;
- the password masking of the database diagnostics route.

This project models those parts in Dafny and proves what they promise. State the source
mutates becomes classes:

- the tenant store, `Db.Store`;
- the clause table, `Seed.ClauseTable`;
- the blob store, `Storage.BlobStore`;
- the form states `EvidenceForm.EvidenceFormState`, `AuditForm.AuditFormState` and
  `ProcessForm.ProcessFormState`.

Loops become methods proved against specification functions:

- the requirement loop of the clause status;
- the readiness count;
- the candidate scans of the action ranker;
- the in-place clause sort;
- the default-process loop;
- the blob deletion loops;
- the byte copy;
- the run builder and the line loop of the document segmenter.

Everything else is functions with lemmas about them.

Modules, one per source file, plus helpers:

| module | file | models |
|---|---|---|
| `Wrappers`, `Seqs`, `Text`, `Sorting` | `wrappers.dfy`, `seqs.dfy`, `text.dfy`, `sorting.dfy` | Option/Result, `filter`/`map`/`slice`, ASCII string methods, JavaScript's stable `Array.prototype.sort` |
| `Standards` | `standards.dfy` | `src/lib/standards.ts` |
| `Seed` | `seed.dfy` | `prisma/seed.ts` |
| `Records` | `records.dfy` | the rows the engine reads |
| `Compliance` | `compliance.dfy` | `src/lib/compliance.ts` |
| `Actions` | `actions.dfy` | `src/lib/actions.ts` |
| `Dashboard` | `dashboard.dfy` | `src/app/api/dashboard/route.ts` |
| `ClauseOrder` | `clause_order.dfy` | `src/app/api/clauses/route.ts` |
| `RiskExamples` | `risk_examples.dfy` | `src/lib/risk-examples.ts` |
| `Db` | `db.dfy` | `src/lib/db.ts` |
| `OnboardingProcesses` | `onboarding_processes.dfy` | `src/app/api/onboarding/processes/route.ts` |
| `Storage` | `storage.dfy` | `src/lib/storage.ts` |
| `StorageVercel` | `storage_vercel.dfy` | `src/lib/storage-vercel.ts` |
| `PolicyDocx` | `policy_docx.dfy` | `src/lib/generate-quality-policy-docx.ts` |
| `EvidenceForm` | `evidence_form.dfy` | `src/components/forms/EvidenceForm.tsx` |
| `AuditForm` | `audit_form.dfy` | `src/components/forms/AuditForm.tsx` |
| `ProcessForm` | `process_form.dfy` | `src/components/forms/ProcessForm.tsx` |
| `DebugDb` | `debug_db.dfy` | `src/app/api/debug-db/route.ts` |

The database contents, the current instant and the outcome of foreign calls are inputs.

## Model

| member | source | states |
|---|---|---|
| Standards.RanksIncrease | src/lib/standards.ts:27-109 | the table has 27 codes and 27 entries, and the codes increase in numeric rank down the table |
| Standards.CodesDistinct | src/lib/standards.ts:27-109 | the 27 clause codes are pairwise distinct |
| Standards.OneRequirementPerCode | src/lib/standards.ts:27-109 | every code maps to exactly one requirement |
| Standards.ReviewEntries | src/lib/standards.ts:94-99 | the `review` kind occurs exactly under 9.2 and 9.3 |
| Standards.GetEvidenceRequirements | src/lib/standards.ts:114-116 | an unknown code gets the empty list; a known code gets its one requirement |
| Standards.LookupKnownCode | src/lib/standards.ts:114-116 | the lookup returns the table entry of each of the 27 codes |
| Standards.RequiresEvidenceType | src/lib/standards.ts:121-127 | holds iff some requirement of the code has that kind; false for every kind when the code is unknown |
| Standards.ReviewOnlyUnderAuditAndReviewClauses | src/lib/standards.ts:94-127 | a code requires `review` iff it is 9.2 or 9.3 |
| Standards.ReviewAt | src/lib/standards.ts:94-99 | for each table position, `review` is required exactly at the positions of 9.2 and 9.3 |
| Standards.GetClausePlainEnglish | src/lib/standards.ts:132-142 | the fixed text for the five codes with a fallback, `Clause <code> requirements` for any other, never empty |
| Standards.FallbackCodes | src/lib/standards.ts:134-140 | the fallback texts are keyed by exactly 4.1, 5.2, 6.1, 9.2 and 9.3, all catalogue codes |
| Seed.SeedCodes | prisma/seed.ts:8-225 | the seed lists 27 clauses whose codes are those of the standards table, in the same order |
| Seed.SeedOneKnownType | prisma/seed.ts:8-225 | each seeded clause lists exactly one evidence type, one of the six known kinds |
| Seed.SeedAgreesWithStandardsA | prisma/seed.ts:8-80 | for the first nine codes, the seeded type and title equal the table's type and description |
| Seed.SeedAgreesWithStandardsB | prisma/seed.ts:81-152 | the same for the middle nine codes |
| Seed.SeedAgreesWithStandardsC | prisma/seed.ts:153-225 | the same for the last nine codes |
| Seed.SeedAgreesWithFallbacks | prisma/seed.ts:12-199 | the seeded `plainEnglish` of 4.1, 5.2, 6.1, 9.2 and 9.3 equals the standards fallback text |
| Seed.SeedClausesUnique | prisma/seed.ts:8-225 | the seeded codes are pairwise distinct |
| Seed.FindCode | prisma/seed.ts:228-232 | finds the row with the `where: { code }` key, or reports that none has it |
| Seed.UpsertByCodeSpec | prisma/seed.ts:228-232 | an upsert stores the clause, keeps codes unique, keeps every row with another code, adds nothing else, and grows the table by one exactly when the code was new |
| Seed.UpsertStored | prisma/seed.ts:228-232 | upserting a row that is already stored changes nothing |
| Seed.SeedAllSpec | prisma/seed.ts:227-233 | after the loop, every listed clause is stored, codes are unique, rows with unlisted codes survive, and nothing else appears |
| Seed.SeedAllStored | prisma/seed.ts:227-233 | a loop over clauses that are all stored changes nothing |
| Seed.SeedAllIdempotent | prisma/seed.ts:227-233 | running the seed twice gives the table of running it once |
| Seed.SeedAllFresh | prisma/seed.ts:227-233 | on a table without the listed codes, the loop appends the clauses in list order |
| Seed.SeedEmpty | prisma/seed.ts:227-233 | seeding an empty table stores exactly the list, and a second run leaves it so |
| Seed.SeedEmptyTable | prisma/seed.ts:8-233 | seeding an empty table with the 27 clauses leaves exactly one row per code, and re-running changes nothing |
| Seed.ClauseTable.Upsert | prisma/seed.ts:228-232 | the table after one upsert call is the upsert of the old table |
| Seed.ClauseTable.SeedCatalogue | prisma/seed.ts:227-233 | the loop of upserts leaves the table the seed specification describes |
| Compliance.HasApproved | src/lib/compliance.ts:68-76 | holds iff the tenant has an evidence row of that type with status APPROVED |
| Compliance.CheckRequirementMeaning | src/lib/compliance.ts:58-123 | policy, procedure and record are met iff approved evidence of that type exists, whatever the clause; risk thinking iff a risk exists; action iff a problem exists; review iff an audit exists under 9.2 or a management review under 9.3; unknown kinds never |
| Compliance.CheckIgnoresClause | src/lib/compliance.ts:65-101 | every kind except review gets the same answer under any two clause codes, so evidence links to clauses play no part |
| Compliance.GetFixLinks | src/lib/compliance.ts:128-159 | at most one link; none exactly for an unknown kind or a review outside 9.2/9.3; an evidence kind gets `Add Evidence` whose href ends with `&clause=<code>` |
| Compliance.MissingIsFilter | src/lib/compliance.ts:28-34 | the missing items are the descriptions of the unmet requirements, in catalogue order |
| Compliance.MissingCount | src/lib/compliance.ts:28-40 | nothing is missing iff every requirement is met; everything is missing iff none is |
| Compliance.LinksAtMostMissing | src/lib/compliance.ts:28-34 | there are never more fix links than missing items |
| Compliance.WhyEndsWithPlainEnglish | src/lib/compliance.ts:164-178 | every explanation ends with `. ` and the clause's plain-English text |
| Compliance.WhyStartsWithOpening | src/lib/compliance.ts:164-178 | every explanation starts with the opening of its status |
| Compliance.WhyOpening | src/lib/compliance.ts:164-178 | the explanation starts with `All requirements for ` iff green, `Missing all required items for ` iff red, `Partially compliant. Missing: ` iff amber |
| Compliance.WhyListsMissing | src/lib/compliance.ts:173-177 | a red or amber explanation contains the missing items joined by `, ` |
| Compliance.CardStatus | src/lib/compliance.ts:19-53 | the card is green iff every requirement is met, red iff there is at least one and none is met; links ≤ missing items ≤ requirements |
| Compliance.UnknownClauseGreen | src/lib/compliance.ts:22-40 | a clause whose code is not in the table is green with nothing missing |
| Compliance.CalculateClauseStatus | src/lib/compliance.ts:19-53 | the requirement loop builds exactly the card the specification describes |
| Compliance.PercentRoundsHalfUp | src/lib/compliance.ts:197 | the percentage is 100·green/n rounded half up |
| Compliance.PercentBounds | src/lib/compliance.ts:187-197 | the percentage lies in 0..100; it is 100 when every clause is green and 0 when none is |
| Compliance.CardsOf | src/lib/compliance.ts:203-213 | one card per clause, in input order, each the clause's own card |
| Compliance.GreenCount | src/lib/compliance.ts:189-195 | never more green cards than cards |
| Compliance.GreenCountIsFilter | src/lib/compliance.ts:189-195 | the counting loop's result is the number of green cards |
| Compliance.CalculateReadinessPercentage | src/lib/compliance.ts:183-198 | the counting loop returns the rounded share of green cards, 0 for no clauses |
| Compliance.ReadinessBounds | src/lib/compliance.ts:183-198 | the readiness lies in 0..100, is 100 when all cards are green and 0 when none is |
| Compliance.GetAllClauseCards | src/lib/compliance.ts:203-213 | the pushing loop returns one card per clause, in input order |
| Actions.CodeWeightOfMajor | src/lib/actions.ts:277-281 | a code `<digits><non-digit…>` adds the decimal value of its leading digits, as `Math.floor(parseFloat(code))` does |
| Actions.CodeWeightPrefix | src/lib/actions.ts:277-281 | the clause weight is the value of the code's maximal leading digit run |
| Actions.MajorIsLeadingRun | src/lib/actions.ts:277 | the leading digit run of `<digits><non-digit…>` is exactly those digits |
| Actions.OverduePriority | src/lib/actions.ts:264-284 | an overdue corrective action scores 50 + 20 + 10 = 80 |
| Actions.PendingApprovalPriority | src/lib/actions.ts:264-284 | a pending approval scores 50 + 15 + 7 = 72 |
| Actions.MissingEvidenceExamples | src/lib/actions.ts:264-284 | missing evidence under 9.2 scores 69 and under 10.1 scores 70 |
| Actions.MissingEvidencePriority | src/lib/actions.ts:264-284 | missing evidence under a clause with major `m` scores 60 + m |
| Actions.UpperKindName | src/lib/actions.ts:294 | upper-casing the requirement type `policy`, `procedure` or `record` gives the evidence type `POLICY`, `PROCEDURE` or `RECORD` |
| Actions.ActionLinkAgreesWithFixLink | src/lib/actions.ts:289-305 | the action link goes to `/dashboard` exactly where the compliance fix links are empty, and otherwise to the same page, the evidence kinds to `/evidence/new?type=<TYPE>&clause=<code>` |
| Actions.EstimatedTimeDefault | src/lib/actions.ts:311-321 | an unknown type takes 15 min, and every estimate is one of 5, 10, 15, 20 or 30 min |
| Actions.PushIfAppend | src/lib/actions.ts:129-203 | a conditional push commutes with a prefix of earlier actions |
| Actions.WithSetupAppends | src/lib/actions.ts:129-203 | the setup checks only append to the actions gathered so far |
| Actions.SliceTo | src/lib/actions.ts:208 | `slice(0, end)` gives a prefix of length min(end, n) for end ≥ 0 and max(n + end, 0) for a negative end |
| Actions.PushSkippedOnboarding | src/lib/actions.ts:44-56 | the loop appends one onboarding action per skipped step, in order |
| Actions.PushMissingEvidence | src/lib/actions.ts:60-77 | the nested loop appends one action per unmet requirement, clause by clause |
| Actions.PushOverdue | src/lib/actions.ts:80-96 | the loop appends one action per open or in-progress problem past its due date |
| Actions.PushPendingApprovals | src/lib/actions.ts:99-115 | the loop appends one approval action per draft evidence row |
| Actions.PushSetupChecks | src/lib/actions.ts:117-203 | the six checks append exactly the setup actions whose conditions hold, in order |
| Actions.GetNextBestActions | src/lib/actions.ts:18-209 | the imperative pipeline returns the candidates sorted by descending priority and cut to the limit |
| Actions.ByPriorityPreorder | src/lib/actions.ts:207 | the comparator `b.priority - a.priority` is a total preorder that orders by descending priority |
| Actions.RankedShape | src/lib/actions.ts:205-208 | the result is a prefix of the stable sort, of length min(limit, n) for a non-negative limit, drawn from the candidates, with non-increasing priorities |
| Actions.RankedStable | src/lib/actions.ts:207 | candidates of equal priority keep their gathering order |
| Actions.SkippedOnboardingFacts | src/lib/actions.ts:27-56 | at most three skipped steps, each an open problem mentioning onboarding, oldest first, each scored 75 |
| Actions.MissingMatchesCard | src/lib/actions.ts:60-77 | a clause yields one missing-evidence action per missing item on its compliance card, reading `Missing <item> for <code>` |
| Actions.MissingActionsCount | src/lib/actions.ts:60-77 | there are as many missing-evidence actions as missing items over all clause cards |
| Actions.OverdueAndPendingScores | src/lib/actions.ts:86-109 | every overdue action scores 80 and every approval action 72 |
| Actions.InPushIf | src/lib/actions.ts:129-203 | a conditional push adds its action exactly when its condition holds |
| Actions.SetupMembership | src/lib/actions.ts:129-203 | an action is a setup action iff it is one of the six and its condition holds |
| Actions.SetupPresence | src/lib/actions.ts:129-203 | no company profile, no process, fewer than three risks, no management review, no approved policy, roles without assignments: each adds its action iff it holds |
| Dashboard.ApplicableIsOptIn | src/app/api/dashboard/route.ts:24-32 | a clause is applicable iff some scope row marked applicable names its id; the applicable clauses keep the catalogue order |
| Dashboard.StatusCountsAddUp | src/app/api/dashboard/route.ts:44-46 | the green, amber and red counts add up to the number of cards |
| Dashboard.OverdueShown | src/app/api/dashboard/route.ts:52-58 | at most ten problems are shown, each open or in progress and past its due date |
| Dashboard.PendingShown | src/app/api/dashboard/route.ts:60-63 | at most ten evidence rows are shown, each a draft |
| Dashboard.AttentionItemsShape | src/app/api/dashboard/route.ts:65-81 | the attention items are the overdue items followed by the pending ones, at most twenty, each built from its own row |
| Dashboard.DashboardConsistent | src/app/api/dashboard/route.ts:19-93 | the three counts add up to the total, one card per applicable clause, the percentage is the rounded green share in 0..100, at most five next actions, and the dashboard is empty iff there is neither a company profile nor a process |
| Dashboard.Get | src/app/api/dashboard/route.ts:19-93 | the route's steps compute exactly the dashboard view |
| ClauseOrder.NumberOf | src/app/api/clauses/route.ts:11-12 | `Number(part)` is a non-negative integer or NaN |
| ClauseOrder.Parts | src/app/api/clauses/route.ts:11-12 | splitting a code on `.` gives at least one part |
| ClauseOrder.CompareIsLexicographic | src/app/api/clauses/route.ts:10-26 | for well-formed codes the comparator is negative iff the major is smaller, or equal with a smaller minor, or equal with the minor missing; it is zero iff majors and minor keys agree |
| ClauseOrder.MajorFirst | src/app/api/clauses/route.ts:15-17 | different majors decide by their difference |
| ClauseOrder.MinorNext | src/app/api/clauses/route.ts:20-22 | equal majors with two minors decide by the minors' difference |
| ClauseOrder.MissingMinorFirst | src/app/api/clauses/route.ts:24-25 | a code without a minor comes before one with a minor under the same major |
| ClauseOrder.ThirdIgnored | src/app/api/clauses/route.ts:20-22 | parts after the minor play no part |
| ClauseOrder.NaNMajorTies | src/app/api/clauses/route.ts:15-17 | a NaN major makes the pair compare as equal |
| ClauseOrder.SplitTwo | src/app/api/clauses/route.ts:11 | `major.minor` splits into exactly its two parts |
| ClauseOrder.NumberOfDigits | src/app/api/clauses/route.ts:11 | a run of decimal digits converts to its value |
| ClauseOrder.PartsOfTwo | src/app/api/clauses/route.ts:11 | a code `<digits>.<digits>` parses to its two values |
| ClauseOrder.PartsAtDot | src/app/api/clauses/route.ts:11 | a code of digits with one inner dot parses to the values on either side |
| ClauseOrder.PartsOf41 | src/app/api/clauses/route.ts:11 | `4.1` parses to 4 and 1 |
| ClauseOrder.PartsOf42 | src/app/api/clauses/route.ts:11 | `4.2` parses to 4 and 2 |
| ClauseOrder.PartsOf101 | src/app/api/clauses/route.ts:11 | `10.1` parses to 10 and 1 |
| ClauseOrder.PartsOf102 | src/app/api/clauses/route.ts:11 | `10.2` parses to 10 and 2 |
| ClauseOrder.MinorOrderExample | src/app/api/clauses/route.ts:8-9 | 4.1 sorts before 4.2 |
| ClauseOrder.MajorOrderExample | src/app/api/clauses/route.ts:8-9 | 4.2 sorts before 10.1, unlike alphabetical order |
| ClauseOrder.TwoDigitMajorExample | src/app/api/clauses/route.ts:8-9 | 10.1 sorts before 10.2 |
| ClauseOrder.ComparePreorder | src/app/api/clauses/route.ts:10-26 | on well-formed codes the comparator is a total preorder, so the sort is well defined |
| ClauseOrder.SortClauses | src/app/api/clauses/route.ts:10-26 | sorting the array in place leaves it holding the stable sort of its old contents |
| ClauseOrder.SortedClauses | src/app/api/clauses/route.ts:10-26 | the sort is a permutation and, on well-formed codes, no later clause is lexicographically smaller than an earlier one |
| RiskExamples.CountOpportunities | src/lib/risk-examples.ts:14-177 | there are never more opportunities than examples |
| RiskExamples.TechnologyWellFormed | src/lib/risk-examples.ts:15-48 | the technology list has three or four entries, one opportunity, all tagged with its industry |
| RiskExamples.ProfessionalServicesWellFormed | src/lib/risk-examples.ts:49-82 | likewise for professional services |
| RiskExamples.ManufacturingWellFormed | src/lib/risk-examples.ts:83-116 | likewise for manufacturing |
| RiskExamples.HealthcareWellFormed | src/lib/risk-examples.ts:117-142 | likewise for healthcare |
| RiskExamples.GeneralBusinessWellFormed | src/lib/risk-examples.ts:143-176 | likewise for the general business fallback |
| RiskExamples.EntryWellFormed | src/lib/risk-examples.ts:14-177 | every entry of the record is well formed |
| RiskExamples.Lookup | src/lib/risk-examples.ts:183 | the record lookup is absent iff no entry has the key, and otherwise returns that entry's list |
| RiskExamples.Keys | src/lib/risk-examples.ts:190 | the keys are the entries' industries, in declaration order |
| RiskExamples.IndustriesInOrder | src/lib/risk-examples.ts:189-191 | the industries are the five, technology first and general business last |
| RiskExamples.KnownIndustry | src/lib/risk-examples.ts:182-184 | a known industry gets its own well-formed list |
| RiskExamples.UnknownIndustry | src/lib/risk-examples.ts:182-184 | any other industry gets the general business list |
| OnboardingProcesses.CreateDefaultProcesses | src/app/api/onboarding/processes/route.ts:17-43 | the tenant's store gains the five defaults whose names are not taken, in order, and nothing else changes |
| OnboardingProcesses.CreateMissing | src/app/api/onboarding/processes/route.ts:31-43 | the creation loop appends one row per default whose name was absent before the loop |
| OnboardingProcesses.DefaultsPresentAfter | src/app/api/onboarding/processes/route.ts:31-43 | existing rows are kept, every default name is present afterwards, only absent names are created, in default order |
| OnboardingProcesses.NamePresentAfter | src/app/api/onboarding/processes/route.ts:34-42 | each default's name is among the tenant's process names afterwards |
| OnboardingProcesses.Idempotent | src/app/api/onboarding/processes/route.ts:31-43 | posting twice creates nothing the second time |
| OnboardingProcesses.CreatedCount | src/app/api/onboarding/processes/route.ts:17-35 | the number created is five minus the defaults whose names already exist |
| Db.Stamp | src/lib/db.ts:41-42 | `{ ...data, tenantId }`: the record is the tenant's, gains only the tenant key, and keeps every other field of the data |
| Db.ScopedMatches | src/lib/db.ts:33-34 | `{ ...where, tenantId }` matches exactly the tenant's rows that match the caller's other conditions, whatever tenant the caller named |
| Db.Select | src/lib/db.ts:33-34 | a query returns exactly the rows of that table matching the filter |
| Db.FindFirst | src/lib/db.ts:37-39 | the first row of the table matching the filter, and none iff no row matches |
| Db.IdOnly | src/lib/db.ts:38 | a single-row lookup filters on the caller's id alone |
| Db.ApplyUpdate | src/lib/db.ts:43-47 | an update never changes the number of rows |
| Db.ApplyDelete | src/lib/db.ts:48-49 | a delete removes one row when a row matches and none otherwise |
| Db.ScopedUpdateIsolated | src/lib/db.ts:43-47 | a tenant-scoped update leaves every other tenant's row as it was and changes at most one row |
| Db.ScopedDeleteIsolated | src/lib/db.ts:48-49 | a tenant-scoped delete leaves the other tenants' rows exactly as they were |
| Db.DeleteKeepsValid | src/lib/db.ts:48-49 | deleting keeps every tenant-owned table's rows stamped with a tenant |
| Db.UpdateKeepsValid | src/lib/db.ts:43-47 | updating keeps every tenant-owned table's rows stamped with a tenant |
| Db.Connect | src/lib/db.ts:19-22 | an empty tenant id is refused with the fixed error, any other is accepted |
| Db.ParentLinks | src/lib/db.ts:251-362 | a junction insert checks one or two parents |
| Db.FirstFailing | src/lib/db.ts:251-362 | no error iff every parent exists in the tenant; otherwise the error names the first parent that does not |
| Db.ParentOwnedMeans | src/lib/db.ts:253-256 | a parent check passes iff a row of the parent table owned by the tenant has the given id |
| Db.Store.constructor | src/lib/db.ts:8 | the store starts empty |
| Db.Store.FindMany | src/lib/db.ts:33-34 | returns exactly the tenant's rows of the table matching the other conditions |
| Db.Store.FindUnique | src/lib/db.ts:35-40 | returns the first tenant row with the given id, or none iff there is no such row |
| Db.Store.FindProfile | src/lib/db.ts:54-55 | returns the tenant's company profile, or none iff it has none |
| Db.Store.FindScope | src/lib/db.ts:236-239 | returns a tenant scope row matching the caller's filter, and returns nothing iff the tenant owns no scope row matching it |
| Db.Store.FindUnfiltered | src/lib/db.ts:376-379 | tenant and ISO clause lookups see every row |
| Db.Store.FindManyUnfiltered | src/lib/db.ts:377 | ISO clause queries return every matching clause |
| Db.Store.Create | src/lib/db.ts:41-42 | appends the stamped record, which the tenant owns |
| Db.Store.Update | src/lib/db.ts:43-47 | merges the data into the first tenant row matching the filter and returns the merged row, failing with record-not-found iff there is none |
| Db.Store.UpdateProfile | src/lib/db.ts:58-59 | the profile update uses the caller's filter when one is given, overriding the tenant filter; it returns the merged row, or record-not-found iff nothing matches |
| Db.Store.UpdateTenant | src/lib/db.ts:28 | tenant updates are not scoped; the merged row is returned, or record-not-found iff nothing matches |
| Db.Store.Delete | src/lib/db.ts:48-49 | removes the first tenant row matching the filter and returns exactly that row, failing with record-not-found iff there is none |
| Db.Store.UpsertScope | src/lib/db.ts:240-246 | updates the tenant's matching scope row or inserts the stamped create data; the result is in the store |
| Db.Store.CreateJunction | src/lib/db.ts:251-362 | fails with the first failing parent check and writes nothing, or appends the stamped link row |
| Db.UpsertIsolated | src/lib/db.ts:240-246 | an upsert adds at most one row, leaves the other tenants' rows alone, and leaves a row holding its result |
| Db.JunctionChecksParents | src/lib/db.ts:251-362 | a junction insert passes its checks iff every parent it names is a row of the tenant |
| Db.AuditCheckedBeforeProcess | src/lib/db.ts:253-262 | an audit of another tenant is reported before the process is looked at |
| Db.ProfileUpdateOverride | src/lib/db.ts:58-59 | a caller's `where` replaces the tenant filter, so another tenant's profile can be updated |
| Db.UpdateCanReassignTenant | src/lib/db.ts:43-47 | the update data is not stamped, so a tenant can move its own row to another tenant |
| Storage.SanitizeShape | src/lib/storage.ts:45 | sanitising keeps the length, keeps each letter, digit, `.`, `_` and `-`, turns every other character into `_`, and leaves no `/` |
| Storage.SanitizeKeepsSafe | src/lib/storage.ts:45 | a name made only of safe characters is left as it is |
| Storage.SanitizeIdempotent | src/lib/storage.ts:45 | sanitising twice is sanitising once |
| Storage.UploadKeyParts | src/lib/storage.ts:40-48 | the upload fails iff an argument is empty; otherwise the key splits back into tenant, module, entity and sanitised filename and is valid |
| Storage.KeySplits | src/lib/storage.ts:48 | four slash-free parts joined by `/` split back into themselves |
| Storage.LeadingSlashInvalid | src/lib/storage.ts:172-176 | a key with a leading `/`, and the empty key, are invalid |
| Storage.Lookup | src/lib/storage.ts:166 | the record lookup returns the value stored under the key, and nothing iff no entry has it |
| Storage.ContentType | src/lib/storage.ts:153-167 | the content type is the table's entry for the extension, or `application/octet-stream` |
| Storage.SplitLastPart | src/lib/storage.ts:154 | the last part of a split is what follows the last separator |
| Storage.ContentTypeOfExtension | src/lib/storage.ts:154 | the extension of `base.ext` is `ext` in lower case |
| Storage.ContentTypeWithoutDot | src/lib/storage.ts:154 | a name without a dot is its own extension |
| Storage.LowerPdf | src/lib/storage.ts:154 | `PDF` lower-cases to `pdf` |
| Storage.UpperCaseExtensionExample | src/lib/storage.ts:153-167 | `report.PDF` is served as `application/pdf` |
| Storage.TextFileExample | src/lib/storage.ts:153-167 | `notes.txt` is served as `application/octet-stream`, because the table has no `txt` entry |
| Storage.TxtNotInTable | src/lib/storage.ts:155-165 | the content-type table has no `txt` entry |
| Storage.EmptyExtensionExample | src/lib/storage.ts:153-167 | a name ending in a dot is served as `application/octet-stream` |
| Storage.FirstWithPath | src/lib/storage.ts:127 | `find` returns the first listed blob whose path is the key, and nothing iff there is none |
| Storage.ExactPathListed | src/lib/storage.ts:87 | listing by prefix includes every blob whose path is exactly the prefix |
| Storage.BlobStore.constructor | src/lib/storage.ts:10-19 | the store starts empty |
| Storage.BlobStore.Put | src/lib/storage.ts:52-55 | a Vercel Blob put appends a blob and overwrites nothing |
| Storage.BlobStore.Del | src/lib/storage.ts:90 | a Vercel Blob delete removes every blob with that URL |
| Storage.BlobStore.PutObject | src/lib/storage.ts:64-71 | an S3 put replaces the object at the key |
| Storage.BlobStore.DeleteObject | src/lib/storage.ts:102-107 | an S3 delete removes the object at the key, if any |
| Storage.UploadFile | src/lib/storage.ts:32-74 | a failed argument check writes nothing; otherwise the bytes are stored under the key with the filename's content type, appended on Vercel Blob and replacing on S3 |
| Storage.DeleteFile | src/lib/storage.ts:80-108 | an empty key fails; on S3 the key's object is removed; on Vercel Blob the first listed blob at the key is deleted, or the call fails with `Blob not found` and changes nothing |
| Storage.VercelSignedUrl | src/lib/storage.ts:125-135 | succeeds iff some blob has the key as its path, returns such a blob's URL, and otherwise fails with `Blob not found: <key>` |
| Storage.S3BranchAsWritten | src/lib/storage.ts:137-147 | the S3 branch re-enters `getSignedUrl` itself and ends in a stack-overflow RangeError however many frames the stack holds |
| Storage.SignedUrl | src/lib/storage.ts:116-148 | as written: an empty key fails; S3 never yields a URL and fails with the RangeError; Vercel Blob succeeds iff a blob has the key as its path, and only Vercel Blob ever succeeds |
| Storage.SignedUrlIntended | src/lib/storage.ts:116-148 | as intended, with the presigner called on S3: an empty key fails, S3 returns the presigned URL, Vercel Blob as above |
| Storage.S3NeverSigns | src/lib/storage.ts:147 | on S3 with a key, the function as written fails and differs from the intended one; for an empty key or on Vercel Blob the two agree |
| StorageVercel.UploadFileVercel | src/lib/storage-vercel.ts:17-60 | a failed argument check writes nothing; otherwise a copy of the bytes is appended under the key with the filename's content type |
| StorageVercel.CopyBytes | src/lib/storage-vercel.ts:36-50 | the copy is a fresh buffer holding the same bytes |
| StorageVercel.DeleteFileVercel | src/lib/storage-vercel.ts:66-79 | an empty key fails; otherwise every listed blob at the key is deleted, and the call succeeds even when none is |
| StorageVercel.DeleteStep | src/lib/storage-vercel.ts:74-78 | each loop step removes a matching blob's URL and changes nothing for any other blob |
| StorageVercel.DeleteRemovesKey | src/lib/storage-vercel.ts:66-79 | after the delete no blob is at the key, blobs not sharing a deleted URL stay, and a store with nothing at the key is unchanged |
| StorageVercel.SignedUrlVercel | src/lib/storage-vercel.ts:89-107 | the Vercel variant answers exactly as the Vercel Blob branch of `getSignedUrl` |
| PolicyDocx.IndexOf | src/lib/generate-quality-policy-docx.ts:56 | the first index of a character, and -1 iff it is absent |
| PolicyDocx.MatchStart | src/lib/generate-quality-policy-docx.ts:58 | where the lazy bracket pattern starts: a `[` with a `]` after it, or -1 |
| PolicyDocx.MatchEnd | src/lib/generate-quality-policy-docx.ts:58 | the lazy match closes at the first `]` after its `[` |
| PolicyDocx.Segments | src/lib/generate-quality-policy-docx.ts:58 | splitting with a capturing pattern gives at least one part |
| PolicyDocx.SegmentsUnfold | src/lib/generate-quality-policy-docx.ts:58 | a split is the text before the first match, the match itself, then the split of the rest |
| PolicyDocx.SegmentsPartition | src/lib/generate-quality-policy-docx.ts:58 | the parts concatenate back to the line |
| PolicyDocx.SegmentsAlternate | src/lib/generate-quality-policy-docx.ts:58 | the parts at odd positions are exactly the bracketed matches |
| PolicyDocx.MatchIsBracketed | src/lib/generate-quality-policy-docx.ts:58 | every match starts with `[` and ends with `]` |
| PolicyDocx.BuildRuns | src/lib/generate-quality-policy-docx.ts:59-73 | the loop keeps the bracketed parts and the non-blank ones, in order, each turned into its run |
| PolicyDocx.RunsShape | src/lib/generate-quality-policy-docx.ts:56-81 | a run is styled iff its text is bracketed, no run is blank text, and a line that is not blank gives at least one run |
| PolicyDocx.Flush | src/lib/generate-quality-policy-docx.ts:21-29 | flushing always leaves no pending text |
| PolicyDocx.FlushPending | src/lib/generate-quality-policy-docx.ts:21-29 | the flush statements compute the flushed state |
| PolicyDocx.EmptyLineKind | src/lib/generate-quality-policy-docx.ts:17 | the empty line is classified as blank |
| PolicyDocx.ProcessLine | src/lib/generate-quality-policy-docx.ts:14-96 | the loop body computes one step of the line fold |
| PolicyDocx.GenerateParagraphs | src/lib/generate-quality-policy-docx.ts:8-107 | the loop and the final flush build the paragraphs of the segmentation of the template |
| PolicyDocx.FoldSnoc | src/lib/generate-quality-policy-docx.ts:13-97 | folding one more line is one more step |
| PolicyDocx.BlankLineInert | src/lib/generate-quality-policy-docx.ts:17-96 | a blank line changes nothing, whether or not text is pending |
| PolicyDocx.BreaksFlush | src/lib/generate-quality-policy-docx.ts:20-96 | a heading, numbered or separator line flushes pending text and then adds its own paragraphs; a text line is only queued |
| PolicyDocx.PlaceholderOvertakesPending | src/lib/generate-quality-policy-docx.ts:54-81 | a placeholder line with text pending is emitted before that text, unlike every other break |
| PolicyDocx.SwapDiffers | src/lib/generate-quality-policy-docx.ts:74-83 | two different paragraphs in the opposite order make a different document |
| PolicyDocx.DashesAreHeading | src/lib/generate-quality-policy-docx.ts:20 | `---` is its own upper case, so it becomes a heading and never reaches the separator branch |
| PolicyDocx.CapitalisedNumberedIsHeading | src/lib/generate-quality-policy-docx.ts:20-37 | a short numbered line without lower-case letters or `[` is a heading, not a list item |
| PolicyDocx.SignedIsTrimmed | src/lib/generate-quality-policy-docx.ts:14 | `Signed: x` is already trimmed |
| PolicyDocx.SignedIsNotHeading | src/lib/generate-quality-policy-docx.ts:20 | `Signed: x` is not a heading |
| PolicyDocx.SignedIsNotNumbered | src/lib/generate-quality-policy-docx.ts:37 | `Signed: x` is not a numbered item |
| PolicyDocx.SignedIsText | src/lib/generate-quality-policy-docx.ts:54-83 | `Signed: x` is a plain text line |
| PolicyDocx.NameIsPlaceholder | src/lib/generate-quality-policy-docx.ts:54-56 | `[Name]` is a placeholder line |
| PolicyDocx.FoldPair | src/lib/generate-quality-policy-docx.ts:13-97 | folding two lines is two steps from the empty state |
| PolicyDocx.TextStep | src/lib/generate-quality-policy-docx.ts:83 | a text line is queued as it is, trimmed |
| PolicyDocx.SignatureBlock | src/lib/generate-quality-policy-docx.ts:54-107 | a text line followed by a placeholder line comes out placeholder first |
| PolicyDocx.SignatureBlockExample | src/lib/quality-policy-template.ts:41-42 | `Signed: x` then `[Name]` produce the name's paragraph before the signature line |
| PolicyDocx.InOrderAppends | src/lib/generate-quality-policy-docx.ts:54-81 | with the pending text flushed first, every non-text line appends exactly its own paragraphs after the flushed text |
| PolicyDocx.SignatureBlockInOrder | src/lib/generate-quality-policy-docx.ts:54-107 | with the corrected step a text line followed by a placeholder line comes out in input order |
| PolicyDocx.SignatureBlockInOrderExample | src/lib/quality-policy-template.ts:41-42 | with the corrected step `Signed: x` then `[Name]` come out in that order |
| EvidenceForm.CheckFile | src/components/forms/EvidenceForm.tsx:57-75 | no error iff the file is acceptable; the type error iff neither the MIME type nor the extension is listed; the size error iff the type is allowed and the file is over 10 MiB |
| EvidenceForm.SizeBoundary | src/components/forms/EvidenceForm.tsx:72-75 | a file of an allowed type is accepted up to 10 485 760 bytes and refused from one byte more |
| EvidenceForm.UpperCaseExtensionAccepted | src/components/forms/EvidenceForm.tsx:67 | a `.PDF` name is accepted whatever MIME type the browser reports, as the pattern ignores case |
| EvidenceForm.LastDot | src/components/forms/EvidenceForm.tsx:82 | the index of the last dot, and -1 iff there is none |
| EvidenceForm.StripExtension | src/components/forms/EvidenceForm.tsx:82 | the result is a prefix of the name; it is shorter iff an extension starts where it ends, and the name is kept whole iff it has no extension |
| EvidenceForm.StripAppendedExtension | src/components/forms/EvidenceForm.tsx:82 | removing the extension from `base.ext` gives back `base` |
| EvidenceForm.AutoTitle | src/components/forms/EvidenceForm.tsx:81-83 | a title already typed is kept; an empty one becomes a prefix of the file name |
| EvidenceForm.Validate | src/components/forms/EvidenceForm.tsx:94-105 | the only errors are the missing-file and missing-URL messages |
| EvidenceForm.ValidateMeaning | src/components/forms/EvidenceForm.tsx:94-105 | the form passes iff an upload has a file or edits existing evidence and a link has a URL; a generated source always passes |
| EvidenceForm.EvidenceFormState.constructor | src/components/forms/EvidenceForm.tsx:42-53 | the fields start from the initial data, with a policy upload by default, no file, no error and not loading |
| EvidenceForm.EvidenceFormState.HandleFileChange | src/components/forms/EvidenceForm.tsx:55-85 | no file changes nothing; a refused file sets its error and keeps the stored file and title; an accepted one is stored, clears the error and fills an empty title; a stored file is always acceptable |
| EvidenceForm.EvidenceFormState.HandleSubmit | src/components/forms/EvidenceForm.tsx:87-121 | a form failing the checks sends nothing and shows why; otherwise the data is sent with empty optional fields absent and a failing callback sets the generic error; loading ends off |
| AuditForm.DatePart | src/components/forms/AuditForm.tsx:34-35 | the date part holds no `T` and is a prefix of the timestamp |
| AuditForm.DatePartOfTimestamp | src/components/forms/AuditForm.tsx:34-35 | the date part of `date T time` is the date |
| AuditForm.AuditFormState.constructor | src/components/forms/AuditForm.tsx:32-41 | the date is the date part of the initial date or of the current instant, the text fields start from the initial data, and there is no file, no error and no loading |
| AuditForm.AuditFormState.HandleFileChange | src/components/forms/AuditForm.tsx:43-68 | a refused file sets the evidence form's error and keeps the stored file; an accepted one is stored and clears the error; a stored file is always acceptable |
| AuditForm.AuditFormState.HandleSubmit | src/components/forms/AuditForm.tsx:70-88 | the fields are always sent as they stand, a failing callback sets the save error, and loading ends off |
| ProcessForm.ShowList | src/components/forms/ProcessForm.tsx:29-38 | an absent value or a value that is not an array is shown as the empty string |
| ProcessForm.ParseList | src/components/forms/ProcessForm.tsx:48-49 | the list is absent iff the text is empty, and otherwise holds only non-empty items without newlines |
| ProcessForm.RoundTrip | src/components/forms/ProcessForm.tsx:29-49 | a list of non-empty, newline-free items shown and parsed comes back as itself, or absent when it was empty |
| ProcessForm.BlankLinesGiveEmptyList | src/components/forms/ProcessForm.tsx:48 | text made only of newlines gives an empty list, not an absent one |
| ProcessForm.EveryPartEmpty | src/components/forms/ProcessForm.tsx:48 | splitting a run of newlines gives only empty parts |
| ProcessForm.ParseShowParse | src/components/forms/ProcessForm.tsx:29-49 | showing a parsed non-empty list and parsing again gives the same list |
| ProcessForm.ProcessFormState.constructor | src/components/forms/ProcessForm.tsx:27-39 | the fields start from the initial data, lists shown one item per line |
| ProcessForm.ProcessFormState.HandleSubmit | src/components/forms/ProcessForm.tsx:41-54 | the name is sent as it stands, an empty description as absent and both lists parsed; the fields are unchanged and loading ends off |
| DebugDb.StopAt | src/app/api/debug-db/route.ts:6 | the first colon or at sign from a position on, with none before it |
| DebugDb.MatchEnd | src/app/api/debug-db/route.ts:6 | a match starts at the beginning iff this returns its closing at sign |
| DebugDb.NoMatchUnchanged | src/app/api/debug-db/route.ts:6 | a URL without a match is left as it is |
| DebugDb.LeftmostMatchMasked | src/app/api/debug-db/route.ts:6 | the leftmost match is replaced by `:****@` and everything around it is kept |
| DebugDb.MaskAtStart | src/app/api/debug-db/route.ts:6 | a match at the start is replaced |
| DebugDb.MaskPastStart | src/app/api/debug-db/route.ts:6 | without a match at the start the first character is kept |
| DebugDb.NoMatchBeforeShifts | src/app/api/debug-db/route.ts:6 | no match before a position carries over to the tail |
| DebugDb.LeftmostMatchExists | src/app/api/debug-db/route.ts:6 | any URL with a match has a leftmost one |
| DebugDb.MaskIdempotent | src/app/api/debug-db/route.ts:6 | masking twice is masking once |
| DebugDb.NoMatchAfterMask | src/app/api/debug-db/route.ts:6 | a colon that opens no match still opens none once the rest is masked |
| DebugDb.MaskKeepsUpToColon | src/app/api/debug-db/route.ts:6 | masking keeps everything up to the first colon, and a URL without a colon whole |
| DebugDb.NoColonUnchanged | src/app/api/debug-db/route.ts:6 | a URL without a colon is left as it is |
| DebugDb.Report | src/app/api/debug-db/route.ts:3-14 | an absent or empty URL reads as `NOT SET`; the reported URL is the masked one; local iff it contains `localhost` or `127.0.0.1`; production iff it contains `prisma.io`, `vercel` or `accelerate`, all decided on the unmasked URL |
| DebugDb.UnsetReport | src/app/api/debug-db/route.ts:5-11 | an unset URL is reported as `NOT SET`, neither local nor production |
| DebugDb.UnsetNotMasked | src/app/api/debug-db/route.ts:5-6 | `NOT SET` is not masked |
| DebugDb.UnsetNotLocal | src/app/api/debug-db/route.ts:10 | `NOT SET` is not local |
| DebugDb.UnsetNotProduction | src/app/api/debug-db/route.ts:11 | `NOT SET` is not production |
| DebugDb.MaskExample | src/app/api/debug-db/route.ts:6 | `u:p@h` is reported as `u:****@h` |
| Sorting.SortBy | src/lib/actions.ts:207 | a sort keeps the length and the multiset of elements |
| Sorting.SortBySorted | src/lib/actions.ts:207 | under a total preorder the sort's result is sorted |
| Sorting.SortByStable | src/lib/actions.ts:207 | elements with equal keys keep their relative order, as `Array.prototype.sort` guarantees |
| Sorting.SortInPlace | src/app/api/clauses/route.ts:10-26 | the in-place insertion sort leaves the array holding the stable sort of its old contents |

## Left out

- Prisma, the Next.js routes' HTTP handling, sessions and authorisation are not modelled. Each route is modelled from the point where it holds a tenant id and the rows it reads.
- Prisma query operators other than equality, `take` beyond the ten-row cut, and generated ids are not modelled. Rows are kept in insertion order, and a query returns them in that order.
- `orderBy` is modelled only for the skipped-onboarding query of `getNextBestActions` (`createdAt` ascending, through `Sorting.SortBy`). The dashboard's `orderBy: { code: 'asc' }` on the clause table is not: the dashboard takes its clauses as a parameter in catalogue order, whereas the database's string order puts `10.x` before `4.x`. The `orderBy` of the list routes outside the core is not modelled either.
- The current instant is a parameter (`now`, `nowIso`). Dates are integers or ISO strings. `new Date(...)` parsing and time zones are not modelled.
- AuditForm.DatePart: the initial audit date is taken to be in ISO form already, so `new Date(d).toISOString()` is the identity on it; other date formats are not modelled.
- AuditForm.AuditFormState.constructor: same assumption as `DatePart` for the initial date.
- Floating point is not modelled. `parseFloat`, `Number()` and `Math.floor` are modelled on decimal digit runs. Signs, `Infinity`, exponents, hexadecimal and the other differences between `Number` and `parseFloat` are left out (`Actions.CodeWeight` of `-4.1` is 4 in the model and -5 in the source).
- ClauseOrder: the sort is proved only for codes whose parts parse. A NaN part makes the comparator inconsistent, and the order of such clauses is not modelled.
- Object.prototype keys (`constructor`, `toString`, …) are not looked up through the plain objects of the source. These are the content-type record, the risk-examples record, the requirement table and the plain-English fallbacks. All four are modelled as plain association lists.
- Standards.GetEvidenceRequirements, Standards.RequiresEvidenceType, Standards.GetClausePlainEnglish: a code that names an Object.prototype member (such as `constructor`) is treated as unknown. The model then gives `[]`, `false` and `Clause constructor requirements`. The source instead returns the inherited function, and `requiresEvidenceType` then throws a TypeError.
- String methods are modelled on ASCII: `toUpperCase`, `toLowerCase`, `trim`, the `\s` and `\d` classes and the `/i` flag.
- Strings are sequences of Unicode characters, not UTF-16 code units. Storage.Sanitize turns a character outside the Basic Multilingual Plane (an emoji, say) into one `_`, where the source's pattern, which has no `u` flag, replaces each half of the surrogate pair and gives two. The same holds for the key Storage.UploadFile builds from such a name. PolicyDocx.IsHeadingLine counts such a character once in `line.length`, where the source counts two code units. Every other `length`, index and slice in the model counts characters in the same way.
- The `docx` document, `Packer` and the blob that `generateQualityPolicyDocx` returns are not modelled. The model stops at the list of paragraphs, with each paragraph's text or runs and its kind. Spacing, colour and heading level are left out.
- Storage SDK calls are modelled as the methods of `Storage.BlobStore`: put, delete, list by prefix, put and delete object. Vercel Blob's random URL suffix is a parameter (`url`), as is the S3 presigned URL. List pagination (only the first page is returned) is not modelled.
- The S3 client is not modelled as ever missing, so the "S3 client not initialized" error path is not modelled: with Vercel Blob unconfigured the client is always created.
- Storage.VercelSignedUrl: the result is stated as the URL of some blob at the key rather than the first one listed; the same holds for the Vercel Blob branch of Storage.SignedUrl and Storage.SignedUrlIntended.
- Storage.S3BranchAsWritten: the engine's stack is a number of frames (`frames`), and the RangeError's text is the V8 engine's message. The asynchrony of the calls is not modelled.
- The form components' rendering, React state batching and the asynchrony of `onSubmit` are not modelled. The callback's outcome is a boolean parameter (`submitFails`).
- ProcessForm.ShowList: a non-string element of an `inputs` array is not modelled; arrays are taken to hold strings.
- Console logging and the `message` field of the diagnostics response are not modelled.
- Db: the update data is not stamped with the tenant id. The model keeps this behaviour (`Db.UpdateCanReassignTenant`) rather than correcting it.
- Db: a caller's `where` overrides the tenant filter in the company-profile update. The model keeps this behaviour (`Db.ProfileUpdateOverride`) rather than correcting it.
- Db: the record-not-found error of an update or delete is a fixed value. Prisma's message text is not modelled.
- Db: field values are compared as values. Process names from `OnboardingProcesses` are compared as `Str(name)`.
- Clause scope is opt-in, as src/app/api/dashboard/route.ts:24-32 filters: clauses without an applicable scope row are left off the dashboard.
- An overdue action scores 80 and a pending approval 72, because `calculatePriority` adds the clause weight to the type bonus.

## Findings

| source | as written | input that shows it | evidently intended | confidence | as-written member | corrected member |
|---|---|---|---|---|---|---|
| src/lib/generate-quality-policy-docx.ts:54-81 | a placeholder line is pushed as its own paragraph straight away, while the plain text queued before it is pushed only at the next break, so the placeholder comes out first | the template's signature block, `Signed: ___` followed by `[Name and Title]` (src/lib/quality-policy-template.ts:41-42) | text appears in template order: the pending text is flushed before the placeholder paragraph | not executed | PolicyDocx.PlaceholderOvertakesPending | PolicyDocx.InOrderAppends |
| src/lib/storage.ts:147 | the line does not type-check: it passes three arguments to the two-parameter `getSignedUrl(storageKey, expiresIn)` and an `S3Client` where a string is expected, so the behaviour described here is that of a build shipped despite the type errors; the S3 branch calls `getSignedUrl`, which is the module's own function (line 116) and not the presigner imported as `getS3SignedUrl` (line 2); the call passes the S3 client as the key, so it re-enters the S3 branch until the stack overflows and the promise rejects with a RangeError | any non-empty key with Vercel Blob unconfigured | the S3 branch returns `getS3SignedUrl(s3Client, command, { expiresIn })`, the presigned URL | not executed | Storage.S3NeverSigns | Storage.SignedUrlIntended |
