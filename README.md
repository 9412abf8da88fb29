# graphql-profile in Dafny

A model of the data handling of the graphql-profile dashboard, a browser page that
signs a student in to a school's GraphQL endpoint and shows their login, XP total,
pass/fail ratio and an XP-over-time chart. The repository carries two versions of the
page script:

- `docs/app.js`, the deployed version. It cleans the sign-in token (`fixJWTToken`),
  then reconciles its XP figure with the school's own (31 transactions, 611000 XP):
  it takes the 20 largest XP transactions, adds the 11 newest non-XP module
  transactions, and falls back to the 31 newest module transactions when that gives
  fewer than 31 records and an XP sum closer to 611000. `updateUIWithExactMatch` then
  tallies passed and failed project results, computes a success rate, and builds a
  cumulative XP series for the chart; a series longer than 20 points is thinned to
  every ⌊n/20⌋-th point, which leaves between 20 and 39 points.
- `app.js`, the earlier version. It cleans the token the same way, sums every
  transaction's amount, counts grades of exactly 1 and exactly 0, and charts every
  transaction's running total, ordered by day.

Modules:

- `Seqs` (`seqs.dfy`): `filter`, `slice(0, n)`, `reduce` sums and
  `String.prototype.includes` on sequences, with their algebra.
- `Sorting` (`sorting.dfy`): `Array.prototype.sort` with a numeric comparator, as a
  stable insertion sort (the language requires a stable sort), with its ordering,
  permutation and stability lemmas, and what `sort(...).slice(0, n)` selects.
- `Token` (`token.dfy`): `fixJWTToken`, identical in both files. The compact shape of
  a JSON Web Token is three dot-separated segments (section 3 of RFC 7519,
  section 7.1 of RFC 7515).
- `Records` (`records.dfy`): the transaction and grade rows the queries return.
- `Reconcile` (`reconcile.dfy`): the reconciliation block of `fetchUserData`, with the
  two `forEach` passes over the `typeGroups` dictionary as methods with loops.
- `Series` (`series.dfy`): the running-total series (a method with the loop that
  updates `cumulativeXp`) and the down-sampling to every ⌊n/20⌋-th point.
- `Dashboard` (`dashboard.dfy`): `updateUIWithExactMatch`, and `fetchUserData` from the
  query responses to the page.
- `SimpleProfile` (`simple_profile.dfy`): `updateUI` of `app.js`.

Query responses, the user record and the grade rows are parameters. A list a response
may leave out is an `Option`, read as empty when absent (`x || []`). A transaction's
`type` is `kind`, `None` when the query did not select the field. Timestamps are
integers (milliseconds since the epoch). Amounts are unbounded integers. Grades are
reals, and the success rate is an exact real before it is rounded for display.

Down-sampling keeps the indices divisible by ⌊n/20⌋. For 47 points the step is 2, so
24 points remain, the last one (index 46) included (`Series.DownSampleExamples`).

## Model

| member | source | states |
|---|---|---|
| Token.FixJWTToken | docs/app.js:19-34 | accepted exactly when the token has two dots; then the result is the token with every whitespace character and quote removed; otherwise the error reports dots + 1 parts |
| Token.CleanIsFilter | docs/app.js:21-25 | the trim/replace chain removes every whitespace character and quote wherever it stands and keeps everything else in order |
| Token.CleanCounts | app.js:24-28 | each kept character occurs in the cleaned token as often as in the input, every removed one not at all |
| Token.CleanKeepsDots | docs/app.js:21-25 | cleaning never adds or removes a dot |
| Token.CleanIdempotent | app.js:24-28 | cleaning a cleaned token changes nothing |
| Token.SplitCountsDots | app.js:34-39 | `split('.')` yields one more part than there are dots, none containing a dot |
| Token.JoinSplit | docs/app.js:28 | joining the split parts with dots gives the token back |
| Token.FixIdempotent | app.js:46 | fixing an accepted token again returns the same token |
| Token.FixAcceptsQuotedToken | app.js:24-46 | a quoted token with blanks and a trailing newline is accepted as its bare three segments |
| Token.FixRefusesTwoSegments | docs/app.js:28-33 | a two-segment token is refused, reporting 2 parts |
| Sorting.SortedPermutation | docs/app.js:315 | sorting keeps every element exactly as often, and the length |
| Sorting.SortedOrder | docs/app.js:339 | the sorted list is in ascending key order |
| Sorting.SortedStable | docs/app.js:369 | elements with equal keys keep their input order |
| Sorting.SortedSum | docs/app.js:317 | sorting leaves a sum unchanged |
| Sorting.TakeSortedDrawn | docs/app.js:316 | `slice(0, n)` of the sorted list keeps min(n, length) elements drawn from the input |
| Sorting.TakeSortedOrder | docs/app.js:341 | the slice is in key order |
| Sorting.TakeSortedFirst | docs/app.js:370 | no element left out of the slice has a smaller key than one kept |
| Reconcile.GroupByType | docs/app.js:296-302 | the keys are the types in order of first appearance, and each group holds exactly the records of its type, in order |
| Reconcile.DistinctTypesCover | docs/app.js:327 | `Object.keys(typeGroups)` lists each type once, and exactly the types present |
| Reconcile.AdditionalTransactions | docs/app.js:324-336 | the pushed records are, counted with multiplicity, exactly the module records outside checkpoints whose type is not "xp" |
| Reconcile.GatherMultiset | docs/app.js:327-336 | gathering the groups of distinct types yields each record once if its type is among them |
| Reconcile.SupplementPoolIsCandidates | docs/app.js:327-336 | the pool before sorting holds exactly the supplement candidates |
| Reconcile.BestXPMatchIsTop | docs/app.js:315-316 | `bestXPMatch` holds min(20, n) XP records, largest amounts first, none left out larger than one kept |
| Reconcile.BestDrawnFromXP | docs/app.js:315-316 | every record of the top 20 comes from the XP query |
| Reconcile.SelectedAdditionalIsNewest | docs/app.js:339-341 | `selectedAdditional` holds min(11, candidates) candidates, newest first, none left out newer than one kept |
| Reconcile.SelectedNotXP | docs/app.js:328-341 | no selected supplement is of type "xp" |
| Reconcile.CombinedCount | docs/app.js:347-349 | `finalCount` is min(20, n) + min(11, candidates), never above 31 |
| Reconcile.Recent31Selection | docs/app.js:361-370 | `recent31` holds min(31, module records) module records outside checkpoints, newest first, none left out newer |
| Reconcile.CombinedXPFromBestOnly | docs/app.js:347-348 | with typed XP records, the XP of the combined set's "xp" records is the top 20's sum; supplements never add to it |
| Reconcile.ReconcileTransactions | docs/app.js:315-406 | the fallback is used exactly when the combined set is not 31 records and `recent31` is strictly closer to 611000; the figure shown is never farther from 611000 than the top 20's; the count is at most 31 |
| Series.Accumulate | docs/app.js:464-478 | point i carries entry i and the sum of the amounts of entries 0..i |
| Series.CumulativeIsPrefixSum | app.js:359-364 | the running total at point i is the prefix sum through entry i |
| Series.CumulativeIncreasing | docs/app.js:452-467 | with positive amounts the running totals strictly increase |
| Series.KeepEveryCount | docs/app.js:484 | keeping indices divisible by step keeps ⌈n / step⌉ points |
| Series.KeepEveryAt | docs/app.js:484 | point j of the result is point j * step of the input |
| Series.DownSampleLength | docs/app.js:482-485 | a series longer than 20 keeps between 20 and 39 points |
| Series.DownSampleShape | docs/app.js:482-485 | up to 20 points nothing changes; beyond, exactly the points at the multiples of ⌊n/20⌋ below n remain (⌈n / step⌉ of them, point j being input point j * step), in order, the first one included |
| Series.DownSampleLast | docs/app.js:482-485 | the last point survives exactly when n - 1 is a multiple of the step |
| Series.DownSampleIncreasing | docs/app.js:482-485 | down-sampling keeps a strictly increasing series strictly increasing |
| Series.DownSampleExamples | docs/app.js:482-485 | 47 points keep 24 ending at index 46; 42 points keep 21 ending at index 40 |
| Dashboard.TallyResults | docs/app.js:430-446 | passed counts the eligible results graded at least 1, failed the other eligible ones; together they are all eligible results |
| Dashboard.SuccessRate | docs/app.js:448-449 | the rate times the number of counted results is 100 times the passed count; 0 with no counted result; between 0 and 100 |
| Dashboard.ProgressChartFor | docs/app.js:494-498 | the pass/fail chart is drawn exactly when some result was counted |
| Dashboard.BuildXPChart | docs/app.js:451-491 | "No XP data" exactly when no positive "xp" transaction exists; otherwise the down-sampled running totals over those transactions by date, strictly increasing, ending at their sum when at most 20 |
| Dashboard.XPSeriesFacts | docs/app.js:452-467 | the chart's transactions are the positive "xp" ones, oldest first, equal timestamps in input order; the running totals strictly increase and end at their sum |
| Dashboard.UpdateUIWithExactMatch | docs/app.js:415-498 | no page without a user; otherwise the shown XP and count are the reconciled ones; the passed and failed counts and the rate are those of TallyResults and SuccessRate; the progress chart is ProgressChartFor of the counts; the XP chart is "No XP data" exactly when no positive "xp" transaction is shown, and otherwise its points are the down-sampled running totals of those transactions by date, strictly increasing |
| Dashboard.WithXPType | docs/app.js:189-207 | the XP query's records as they would arrive with `type` selected: same records, each of type "xp" |
| Dashboard.UntypedCombinedSetChartsNothing | docs/app.js:452 | as written, the combined set has no record the chart filter accepts |
| Dashboard.UntypedCombinedSetExample | docs/app.js:386-396 | one 100 XP record and nothing else: the combined set is kept, 100 XP is shown, the chart has no point |
| Dashboard.TypedCombinedSetChartsItsXP | docs/app.js:452 | when every XP-query record has a positive amount and the records are typed, the chart's transactions in the combined set sum to the XP shown (a zero or negative XP record would still count in the XP shown but be dropped by the chart filter) |
| Dashboard.TypingKeepsChoice | docs/app.js:315-317 | typing the XP records changes neither the top 20's sum nor the branch taken |
| Dashboard.FetchUserData | docs/app.js:292-406 | no page without a user; in the combined branch the XP shown is the top 20's sum and the count is `finalCount`, in the fallback `recent31`'s XP with count 31; the count is at most 31; the tally, rate and progress chart are those of the results; the XP chart is built from the shown set (`recent31`, or the combined set with typed XP records) |
| SimpleProfile.TotalXPAdditive | app.js:336 | the total is additive over any split of the list, negatives included, and 0 without a list |
| SimpleProfile.GradeCountsBound | app.js:344-345 | passed + failed never exceeds the progress count, and equals it exactly when every grade is 1 or 0 |
| SimpleProfile.SuccessRate | app.js:341-347 | the rate times the number of progress records is 100 times the passed count; 0 without records; between 0 and 100 |
| SimpleProfile.DayKey | app.js:353 | the day key is the whole day containing the timestamp |
| SimpleProfile.BuildDailyChart | app.js:349-370 | "No XP data" exactly when the list is absent or empty; otherwise one point per transaction, days ascending, ending at the total XP |
| SimpleProfile.DailySeriesFacts | app.js:350-364 | the entries are a permutation of the transactions' entries, by day, stable within a day; the running total ends at the sum of the amounts |
| SimpleProfile.UpdateUI | app.js:320-375 | no page without a user; otherwise total XP, exact grade counts with passed + failed at most the progress count, the rate; an XP chart exactly when the transaction list is non-empty, its points the running totals over the transactions by day (one per transaction, days ascending, ending at the total XP); and `createProgressChart` called exactly when there are progress records (it draws nothing when no grade is exactly 1 or 0) |

## Left out

- The network: the sign-in `fetch` with Basic authentication, the three GraphQL queries and the bearer/no-bearer probe. Their responses are parameters.
- The early returns on GraphQL errors and on a missing `data` object (docs/app.js:285-288, app.js:304-311): the responses are given already decoded.
- Browser state: `localStorage`, sign-in and sign-out, and every `innerHTML` or `textContent` write. The page is a `View` or `Page` value.
- Drawing: `createXPChart` and `createProgressChart` (SVG, animation, floating-point geometry). The model stops at the data they receive.
- Number formatting: `toFixed(1)` and `toLocaleString`. The rate is an exact real.
- Dates: a timestamp is an integer. The chart label text of docs/app.js:468-472 is not modelled; a point carries the timestamp. The truthiness filter `filter(t => t.createdAt)` keeps every record, because every record has a timestamp. The day of app.js:353 is a UTC day; the local time zone and the reparse of the locale string by the comparator are not modelled.
- `atob` and `JSON.parse` of the token payload (app.js:178-180).
- Diagnostics: every `console.log`, including the per-type totals (docs/app.js:304-309).
- The unused `remainingTypes` array (docs/app.js:322).
- Dictionary keys: `typeGroups` is keyed by type, with "undefined" for a record without one; `Object.keys` order is taken as first appearance. Numeric-looking type names, which JavaScript lists first, and names shadowing `Object.prototype` members are not modelled.
- Number width: amounts are unbounded integers, exact as JavaScript numbers are below 2^53.
- In-place sorting: every sorted array is a fresh local copy, so each sort is modelled on values.
- Dashboard.FetchUserData: models the corrected XP query (records typed); the as-written behaviour is the finding below.
- Dashboard.BuildXPChart: the final running total is stated only for series of at most 20 points; beyond that, Series.DownSampleLast says when the last point survives.

## Findings

| source | as written | input that shows it | evidently intended | confidence | as-written member | corrected member |
|---|---|---|---|---|---|---|
| docs/app.js:189-207 | the XP query selects `amount`, `createdAt`, `path` and `object` but not `type`, so its records reach the chart filter `t.type === 'xp'` (docs/app.js:452) with `type` undefined; in the combined branch no record passes, and the chart shows "No XP data" while the page shows the top 20's XP | one 100 XP record under `/bh-module/` from the XP query and no other transaction: the combined set is kept, 100 XP is shown, the chart is empty | select `type` in the XP query, so the top 20 are charted and the running total ends at the XP shown | high, not executed | Dashboard.UntypedCombinedSetChartsNothing | Dashboard.TypedCombinedSetChartsItsXP |
