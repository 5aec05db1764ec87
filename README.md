# Monitoring and evaluation store, modelled in Dafny

This project models the data layer of a monitoring-and-evaluation web
application for a peacebuilding project in Mozambique. The layer is an
in-memory entity store holding seven collections: activities,
beneficiaries, budget lines, compliance items, GIS usage metrics, GIS
layers and GIS province statistics. Each collection is loaded from the
browser's storage when the store starts and saved back whenever it
changes. Next to the store, each page computes summaries from a snapshot
of it: percentages, totals, breakdowns and status cycles. Each page also
checks its form input and fills in defaults before a record reaches the
store.

Modules, one per source file:

- `Types` (`types.dfy`): the records and enumerations.
- `Numbers` (`numbers.dfy`): `Math.round` and the zero-guarded percentage the pages share.
- `Seqs` (`seqs.dfy`): the array idioms the store is built from. These are `filter`, a `map` that rewrites the records a test selects, a stable sort by an integer key, `reduce` sums and `reverse`.
- `DataContext` (`data_context.dfy`): the pure updater behind each store operation, the sort behind `addGISMetric`, and `loadFromStorage`.
- `DataProvider` (`store.dfy`): the provider as a class `Store`. It has seven mutable `seq` fields and a storage map. Each operation overwrites one field and then saves it, as the source's save effect does.
- `Dashboard`, `Budget`, `Beneficiaries`, `Compliance`, `Analytics`, `Activities`: one module per page, holding that page's computations and form rules.

The default collections are all empty (services/mockData.ts:3-9), so the
fallback passed to every load is `[]`.

## Model

| member | source | states |
|---|---|---|
| Numbers.Round | context/DataContext.tsx:83 | `Math.round` gives the integer within half a unit of its argument; a value exactly halfway rounds up |
| Numbers.Percent | pages/Budget.tsx:22 | 0 when the whole is not positive; otherwise the whole percent nearest to part/whole (within half a percent, expressed without division) |
| Numbers.PercentBounds | pages/Dashboard.tsx:26-31 | a part between 0 and the whole gives a percentage between 0 and 100 |
| Numbers.PercentMonotone | pages/Dashboard.tsx:36 | a larger part never gives a smaller percentage of the same whole |
| Numbers.Share | pages/Dashboard.tsx:25-31 | the percentage of a count out of a total lies in 0..100, is 0 for an empty total, and is nearest to 100·count/total |
| Numbers.ShareOfAllAndNone | pages/Dashboard.tsx:27 | a count equal to a positive total is 100 percent; a count of 0 is 0 percent |
| Seqs.Filter | context/DataContext.tsx:73 | `filter` keeps exactly the elements the test accepts and is never longer than its input |
| Seqs.FilterConcat | context/DataContext.tsx:73 | filtering a concatenation filters each part, so the kept elements keep their relative order |
| Seqs.FilterCounts | context/DataContext.tsx:73 | every occurrence of a kept value survives; every occurrence of a dropped value goes |
| Seqs.FilterIdempotent | context/DataContext.tsx:73 | filtering twice with the same test is filtering once |
| Seqs.UpdateWhere | context/DataContext.tsx:72 | `map` with an id test keeps length and order, rewrites the selected elements and leaves the others untouched |
| Seqs.UpdateWhereKeepsUnselected | context/DataContext.tsx:92 | a rewrite that keeps the selection test's verdict leaves the unselected elements exactly as in the input |
| Seqs.InsertBy | context/DataContext.tsx:96 | inserting an element gives a permutation of the sequence plus that element |
| Seqs.InsertKeepsSorted | context/DataContext.tsx:96 | inserting into a sorted sequence keeps it sorted |
| Seqs.SortBy | context/DataContext.tsx:96 | the sort's result is sorted by the key and is a permutation of its input |
| Seqs.SortIsStable | context/DataContext.tsx:96 | elements with equal keys keep their input order, as `Array.prototype.sort` must since ECMAScript 2019 |
| Seqs.SortOfSorted | context/DataContext.tsx:96 | sorting a sequence that is already sorted changes nothing |
| Seqs.FilterKeepsSorted | context/DataContext.tsx:97 | filtering a sorted sequence leaves it sorted |
| Seqs.SumRealConcat | pages/Budget.tsx:20-21 | a `reduce` sum over a concatenation is the sum of the parts' sums |
| Seqs.LastOfSumReal | pages/Budget.tsx:20-21 | the front-first sum equals a left-to-right running total: the sum of all but the last element plus the last |
| Seqs.LastOfSumInt | pages/Analytics.tsx:27-29 | the same for integer sums |
| Seqs.SumIntSort | pages/Analytics.tsx:27-29 | sorting never changes a sum |
| Seqs.Reverse | pages/Analytics.tsx:187 | `slice().reverse()` has the same length and puts element i at position n-1-i |
| Seqs.ReverseOfSorted | pages/Analytics.tsx:187 | a sequence sorted ascending reads descending once reversed |
| DataContext.RemoveById | context/DataContext.tsx:73 | delete by id keeps exactly the records whose id differs |
| DataContext.DeleteAbsentIsNoOp | context/DataContext.tsx:97 | deleting an id that no record carries leaves the collection identical |
| DataContext.DeleteIdempotent | context/DataContext.tsx:77 | deleting the same id twice is deleting it once |
| DataContext.DeleteExactly | context/DataContext.tsx:88 | delete removes every duplicate of the id, keeps every other record with its multiplicity, and works part by part, so the survivors keep their order |
| DataContext.AppendThenDelete | context/DataContext.tsx:71-73 | appending a record with a fresh id and then deleting that id restores the collection |
| DataContext.PrependThenDelete | context/DataContext.tsx:76-77 | prepending a beneficiary with a fresh id and then deleting it restores the collection |
| DataContext.UpdateKeepsOthers | context/DataContext.tsx:72 | an update by id leaves the records with other ids, and their order, unchanged |
| DataContext.UpdateActivityStatus | context/DataContext.tsx:72 | same length and order; matching activities take the given status and progress, set independently; all other fields and activities are untouched |
| DataContext.UpdateBudgetActual | context/DataContext.tsx:81-87 | matching lines take the new actual amount and a CAD equivalent rounded from it at the line's own stored rate; category, planned amount and rate stay; other lines are untouched |
| DataContext.UpdateBudgetActualKeepsCad | context/DataContext.tsx:83 | if every line's CAD equivalent is consistent with its actual amount before an update, every line's is after |
| DataContext.UpdateBudgetActualExample | context/DataContext.tsx:83-84 | 500 MZN at rate 0.022 is recorded as 11 CAD |
| DataContext.UpdateComplianceStatus | context/DataContext.tsx:92 | matching items take whatever status is given, with no transition check; nothing else changes |
| DataContext.UpdatesWithAbsentIdChangeNothing | context/DataContext.tsx:72 | each of the three updates leaves a collection identical when no record has the id |
| DataContext.IsoDateKey | context/DataContext.tsx:96 | the sort key of an ISO date `yyyy-mm-dd` is year·10000 + month·100 + day, with month and day below 100 |
| DataContext.IsoDatesOrderByCalendar | context/DataContext.tsx:96 | two ISO dates' keys compare as the dates do on the calendar (by year, then month, then day), and are equal exactly for the same date |
| DataContext.DateKeyAppendDigit | context/DataContext.tsx:96 | appending a digit to a date shifts its key by one decimal place |
| DataContext.AddMetricSorted | context/DataContext.tsx:96 | the new collection is sorted ascending by date, holds the old metrics plus the new one, and keeps same-date metrics in collection order |
| DataContext.AddMetricToSorted | context/DataContext.tsx:96 | on a sorted collection, adding a metric inserts it after every metric dated no later |
| DataContext.AddMetricScenario | context/DataContext.tsx:96 | metrics dated 2025-03-02, 2025-03-01 and 2025-03-03, added in that order, end up in date order |
| DataContext.DeleteMetricKeepsSorted | context/DataContext.tsx:97 | deleting metrics keeps a date-sorted log sorted |
| DataContext.LoadFromStorage | context/DataContext.tsx:41-49 | a missing or empty entry gives the fallback silently; an entry that does not decode gives the fallback with a warning; otherwise the decoded value; no error escapes |
| DataContext.LoadAfterSave | context/DataContext.tsx:62-68 | a saved collection loads back as itself, whatever the fallback |
| DataProvider.Store.constructor | context/DataContext.tsx:53-68 | each collection is loaded from its own key with the empty default; then every collection is saved, and keys of other owners are kept |
| DataProvider.Store.ReloadReproduces | context/DataContext.tsx:41-68 | while every collection is saved, loading any key back reproduces that collection |
| DataProvider.Store.AddActivity | context/DataContext.tsx:71 | the activities become exactly the old ones plus the new one at the end; only that key is saved |
| DataProvider.Store.UpdateActivityStatus | context/DataContext.tsx:72 | the activities become the updater's result; only that key is saved |
| DataProvider.Store.DeleteActivity | context/DataContext.tsx:73 | the activities lose exactly those with the id; only that key is saved |
| DataProvider.Store.AddBeneficiary | context/DataContext.tsx:76 | the newest beneficiary comes first, followed by the old ones; only that key is saved |
| DataProvider.Store.DeleteBeneficiary | context/DataContext.tsx:77 | the beneficiaries lose exactly those with the id; only that key is saved |
| DataProvider.Store.AddBudgetLine | context/DataContext.tsx:80 | the budget becomes the old lines plus the new one at the end; only that key is saved |
| DataProvider.Store.UpdateBudgetActual | context/DataContext.tsx:81-87 | the budget becomes the updater's result, and a budget whose CAD equivalents were consistent stays consistent; only that key is saved |
| DataProvider.Store.DeleteBudgetLine | context/DataContext.tsx:88 | the budget loses exactly the lines with the id; only that key is saved |
| DataProvider.Store.AddComplianceItem | context/DataContext.tsx:91 | the checklist becomes the old items plus the new one at the end; only that key is saved |
| DataProvider.Store.UpdateComplianceStatus | context/DataContext.tsx:92 | the checklist becomes the updater's result; only that key is saved |
| DataProvider.Store.DeleteComplianceItem | context/DataContext.tsx:93 | the checklist loses exactly the items with the id; only that key is saved |
| DataProvider.Store.AddGISMetric | context/DataContext.tsx:96 | the log becomes the sorted insertion of the metric: sorted by date, a permutation of the old log plus the metric; only that key is saved |
| DataProvider.Store.DeleteGISMetric | context/DataContext.tsx:97 | the log loses exactly the metrics with the id and stays sorted if it was; only that key is saved |
| DataProvider.Store.AddGISLayer | context/DataContext.tsx:100 | the layers become the old ones plus the new one at the end; only that key is saved |
| DataProvider.Store.DeleteGISLayer | context/DataContext.tsx:101 | the layers lose exactly those with the id; only that key is saved |
| DataProvider.Store.AddGISProvinceStat | context/DataContext.tsx:104 | the stats become the old ones plus the new one at the end, with no check for a stat of the same province; only that key is saved |
| DataProvider.Store.DeleteGISProvinceStat | context/DataContext.tsx:105 | the stats lose exactly those with the id; only that key is saved |
| Dashboard.CompletionRate | pages/Dashboard.tsx:25-27 | the completed share of activities in whole percent, within 0..100, and 0 with no activities |
| Dashboard.CompletionRateEnds | pages/Dashboard.tsx:26-27 | all activities completed gives 100; none completed gives 0 |
| Dashboard.FemaleRate | pages/Dashboard.tsx:29-31 | the female share of beneficiaries in whole percent, within 0..100, and 0 with no beneficiaries |
| Dashboard.ComputeStats | pages/Dashboard.tsx:24-39 | the overview cards: the two counts, the completion and female rates of this page, each within 0..100, and budget figures equal to the Financial Monitoring page's |
| Dashboard.PieData | pages/Dashboard.tsx:41-44 | two slices: Female holds the female rate and Male the rest of 100, each within 0..100 |
| Dashboard.PieOfThreeWomenAndOneMan | pages/Dashboard.tsx:41-44 | three women and one man give a 75/25 pie |
| Dashboard.MaleSliceIncludesNonBinary | pages/Dashboard.tsx:43 | the Male slice holds the non-binary beneficiaries: with only non-binary beneficiaries it is 100 |
| Dashboard.ChartName | pages/Dashboard.tsx:48 | names up to 15 characters are unchanged; longer names become their first 15 characters plus "..." (18 in all) |
| Dashboard.ActivityData | pages/Dashboard.tsx:47-50 | at most the first six activities, in store order, each with its label and progress |
| Dashboard.LaterActivitiesNotCharted | pages/Dashboard.tsx:47 | once six activities exist, activities added after them do not change the chart |
| Budget.TotalsAdditive | pages/Budget.tsx:20-21 | the planned CAD total and the spent total of a budget in two parts are the sums of the parts' totals |
| Budget.Utilization | pages/Budget.tsx:22 | 0 when nothing positive is planned; otherwise the whole percent nearest to spent/planned |
| Budget.UtilizationBounded | pages/Budget.tsx:22 | spending within the plan gives a utilisation within 0..100 |
| Budget.NothingSpentNothingUtilized | pages/Budget.tsx:21-22 | a budget with no CAD spent totals 0 spent and is 0 percent utilised |
| Budget.TotalPlannedCad | pages/Budget.tsx:20 | 0 for an empty budget; otherwise the left-to-right running total: the total of all but the last line plus the last line's planned amount at its rate |
| Budget.TotalSpent | pages/Budget.tsx:21 | 0 for an empty budget; otherwise the total of all but the last line plus the last line's CAD equivalent |
| Budget.Remaining | pages/Budget.tsx:98 | the Remaining card, planned less spent, is the sum of what remains of each line |
| Budget.RemainingIsSumOfBalances | pages/Budget.tsx:98 | the planned total less the spent total is the sum of the lines' balances |
| Budget.UpdateActualKeepsPlannedTotal | pages/Budget.tsx:20 | recording an actual amount never changes the planned CAD total |
| Budget.Variance | pages/Budget.tsx:144 | 0 with nothing planned; otherwise variance × planned equals 100 × (actual − planned) |
| Budget.IsHighVariance | pages/Budget.tsx:145 | a line is flagged exactly when something is planned and actual exceeds planned by more than a fifth (5·actual > 6·planned) |
| Budget.HighVarianceMeansOverspent | pages/Budget.tsx:144-145 | a variance above 20% holds exactly when something is planned and 5·actual > 6·planned |
| Budget.NewBudgetLine | pages/Budget.tsx:40-50 | refused exactly when the category is empty or the plan is not positive; otherwise nothing spent, rate 0.022, and a consistent CAD equivalent |
| Budget.NewLineJoinsBudget | pages/Budget.tsx:42-50 | adding a new line keeps every CAD equivalent consistent, leaves the spent total unchanged and adds planned × 0.022 to the planned total |
| Budget.FirstWord | pages/Budget.tsx:25 | the chart label is a prefix of the category without spaces, ending where the category's first space is |
| Budget.ChartData | pages/Budget.tsx:24-28 | one bar pair per line, in order: label, planned CAD within half a unit, and the CAD equivalent |
| Beneficiaries.GenderCountsPartition | pages/Beneficiaries.tsx:38-41 | the female, male and non-binary counts add up to the total |
| Beneficiaries.GenderChart | pages/Beneficiaries.tsx:38-41 | two slices: Female counts the female beneficiaries, Male the male ones; together they count everyone except the non-binary beneficiaries |
| Beneficiaries.GenderChartOfThreeWomenAndOneMan | pages/Beneficiaries.tsx:38-41 | three women and one man chart as 3 and 1 |
| Beneficiaries.NonBinaryInNeitherBar | pages/Beneficiaries.tsx:38-41 | registering a non-binary beneficiary leaves both slices as they were |
| Beneficiaries.AgeBucketsDisjointAndCovering | pages/Beneficiaries.tsx:44-49 | every age falls in exactly one of <18, 18-35, 36-50 and 50+ |
| Beneficiaries.AgeCountsPartition | pages/Beneficiaries.tsx:44-49 | the four age counts add up to the total |
| Beneficiaries.AgeChart | pages/Beneficiaries.tsx:44-49 | four labelled buckets, each the number of beneficiaries in its age range, adding up to the total |
| Beneficiaries.Bump | pages/Beneficiaries.tsx:52 | a tally step keeps every entry in its place and lists the province afterwards; either an entry changes in place or a new entry with count 1 is appended |
| Beneficiaries.BumpCounts | pages/Beneficiaries.tsx:52 | tallying one beneficiary adds one to their province's count and nothing to any other |
| Beneficiaries.BumpListed | pages/Beneficiaries.tsx:52 | after a tally step a province is listed exactly when it was listed before or is the one tallied |
| Beneficiaries.BumpKeepsDistinct | pages/Beneficiaries.tsx:52 | a tally step never lists a province twice |
| Beneficiaries.ProvinceTally | pages/Beneficiaries.tsx:51-55 | one entry per province that has beneficiaries and none for the others, each count positive and equal to that province's number of beneficiaries, the counts adding up to the total |
| Beneficiaries.TallyEntriesCount | pages/Beneficiaries.tsx:55 | each listed province carries exactly its number of beneficiaries |
| Beneficiaries.NewBeneficiary | pages/Beneficiaries.tsx:22-35 | refused exactly when the name is empty; an empty activity becomes "N/A"; other fields are kept as entered |
| Beneficiaries.RegistrationCounts | pages/Beneficiaries.tsx:38-49 | registering someone adds one to exactly their gender's and their age bucket's counts |
| Compliance.CycleStatus | pages/Compliance.tsx:13 | Pending goes to Complete, Complete to Delayed, Delayed to Pending; no status is a fixed point |
| Compliance.CycleHasPeriodThree | pages/Compliance.tsx:13 | three clicks bring any status back to itself, and two never do |
| Compliance.CycleStatusText | pages/Compliance.tsx:13 | on raw text, any string other than "Pending" or "Complete" becomes "Pending", and every result is a valid status |
| Compliance.CycleTextAgrees | pages/Compliance.tsx:13 | on the three valid names, the text cycle is the status cycle |
| Compliance.CycleItem | pages/Compliance.tsx:12-15 | clicking an item gives it, and every item sharing its id, the next status after its own, and leaves items with other ids untouched |
| Compliance.CycleItemThrice | pages/Compliance.tsx:12-15 | three clicks on an item with its own id restore the whole checklist |
| Compliance.StatusCountsPartition | pages/Compliance.tsx:49-67 | the Completed, Pending and Delayed counts add up to the number of items |
| Compliance.NewComplianceItem | pages/Compliance.tsx:17-27 | refused exactly when the requirement or the due date is empty; a new item starts Pending |
| Compliance.AddingRaisesPending | pages/Compliance.tsx:22 | adding a requirement adds one to the Pending count and leaves the other two counts unchanged |
| Analytics.LatestActiveUsers | pages/Analytics.tsx:26 | 0 for an empty log |
| Analytics.LatestIsLatestDated | pages/Analytics.tsx:26 | in a date-sorted log, the active-user figure comes from the snapshot with the latest date |
| Analytics.NewestMetricBecomesLatest | pages/Analytics.tsx:26 | a snapshot dated no earlier than every logged one becomes the current active-user figure |
| Analytics.TotalSessions | pages/Analytics.tsx:27 | 0 for an empty log; otherwise the running total of all but the last snapshot plus the last one's sessions |
| Analytics.TotalLayersAccessed | pages/Analytics.tsx:28 | the same for layers accessed |
| Analytics.TotalDownloads | pages/Analytics.tsx:29 | the same for downloads |
| Analytics.AddMetricTotals | pages/Analytics.tsx:27-29 | logging a snapshot, wherever the date sort puts it, adds exactly its figures to the three totals |
| Analytics.LogRows | pages/Analytics.tsx:187 | the table lists the log in reverse order |
| Analytics.LogIsNewestFirst | pages/Analytics.tsx:187 | after any addition the table lists the newest date first |
| Analytics.NewGISMetric | pages/Analytics.tsx:32-44 | refused exactly when the date is empty; the figures are kept as entered |
| Analytics.NewGISLayer | pages/Analytics.tsx:46-57 | refused exactly when the name is empty; an empty type becomes "Point Data" and an empty source "Internal" |
| Analytics.NewGISProvinceStat | pages/Analytics.tsx:59-64 | every submission becomes a stat with the given province and sessions, with no guard |
| Analytics.ProvinceStatDuplicatesKept | pages/Analytics.tsx:59-64 | a second stat for a province already listed is kept beside the first |
| Activities.FilterActivities | pages/Activities.tsx:37-39 | "All" shows every activity; any other filter shows exactly the activities with that status |
| Activities.FilterKeepsStoreOrder | pages/Activities.tsx:39 | an activity added last is shown last, if its status passes the filter |
| Activities.StatusViewsPartition | pages/Activities.tsx:37-39 | the filter expression, applied to each of the three statuses, partitions the activities: the sizes of the three views add up to the number of activities |
| Activities.ButtonViewsMissOnlyPlanned | pages/Activities.tsx:37-39 | of the views the buttons offer (pages/Activities.tsx:63-65), Ongoing and Completed together show everything except the planned activities |
| Activities.PlannedShownOnlyUnderAll | pages/Activities.tsx:63-65 | with the filters the buttons set, a planned activity is listed only under All |
| Activities.PresetProgress | pages/Activities.tsx:173 | the preset is within 0..100; it is 100 exactly for Completed, 0 exactly for Planned, and 50 for Ongoing |
| Activities.NewActivity | pages/Activities.tsx:21-35 | refused exactly when the name or the planned date is empty; notes default to empty text; no actual date yet |
| Activities.DisplayedDate | pages/Activities.tsx:95 | a non-empty actual date is shown if there is one, otherwise the planned date |
| Activities.NewActivityShowsPlannedDate | pages/Activities.tsx:21-35 | a newly created activity shows its non-empty planned date, and its preset progress is 100 exactly when it is completed |

## Left out

- Browser storage and JSON are abstracted. A key holds either the serialised form of one collection or `Raw` text that does not decode to it. JSON text that parses to something other than the expected collection is loaded by the source untyped; here it falls back with a warning.
- The warning is a flag on the load result. No console output is modelled.
- Saving is the last step of each operation, not an effect that runs after rendering. Repeated renders and the effects' timing are not modelled.
- Ids come from `Date.now()` in the source. Here they are parameters, and keeping them unique is the caller's job.
- Date parsing for the metric sort is modelled only for well-formed ISO dates. There the key is the number the digits spell, which orders the same way as the time. Invalid dates (NaN comparisons) are not modelled.
- Numbers are exact: amounts and rates are `real`, counts and ages are `int`. IEEE-754 rounding, `Number(...)` input coercion, `toLocaleString` and `toFixed` are not modelled.
- Seqs.SumReal: `reduce` adds from the left; this sum adds from the front. The two are equal on exact numbers, but not always on floating point.
- Compliance statuses are an enumeration in the store. So "any other status becomes Pending" is only visible through `Delayed` there; `Compliance.CycleStatusText` models the rule on raw text.
- Beneficiaries.ProvinceTally: does not state that provinces appear in order of first appearance, only which provinces appear and with what counts.
- Activities.NewActivity: takes the form's progress as an integer that is always present, so `completionPercentage || 0` reduces to that integer.
- Dashboard.ChartName: lengths count Unicode code points, while JavaScript's `length` and `substring` count UTF-16 code units. So a name with characters outside the Basic Multilingual Plane is cut at a different point here.
- Activities.StatusFilter: admits `Only(Planned)`, which no button sets; `Activities.IsButton` names the three filters the page can reach, and planned activities are listed only under All.
- Rendering, charts, colour classes, the modal, sidebar, header and routing are not modelled, since they only present data.
- The external summary service (services/geminiService.ts) is not modelled: it is a network client, and its summary repeats counts already modelled.
- The error `useData` throws outside a provider is React plumbing and is not modelled. The unused `CAD_TOTAL_BUDGET` constant is not modelled either.
