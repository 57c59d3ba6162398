# Dashboard aggregation engine, in Dafny

This project models the aggregation engine of a sales and purchase-order
dashboard, and proves properties of that model. The engine lives in
`dashboard-logic.js` and in the data kernels of `dashboard-ui.js`. It takes
two in-memory ledgers:

- the sales book: invoice lines with an invoice number, a date, a due date
  and a value;
- the order book: purchase-order and dispatch lines with a PO number, a
  job name (the SKU), dates, status, quantities, value and a PO count.

From them it computes:

- the financial-overview, pending-dispatch and KPI figures, in lakh
  (1 lakh = 100000);
- fixed-window monthly series of sales and PO value, with growth, running
  totals and bar colours;
- the two completion breakdowns;
- the per-SKU rankings: SKU summary, top SKUs, the monthly SKU summary, the
  SKU list of a month and top SKUs by dispatch;
- the month-keyed dispatch series: one SKU, two SKUs side by side, and all
  SKUs;
- the rank lists under the month charts;
- the record sets behind two drilldowns.

Modules, one file each:

- `Seqs` (seqs.dfy): `sumBy` (`Seqs.SumBy`, the definition every sum
  contract is stated through; the sum lemmas below are its properties) and
  the sequence facts the rest rests on.
  These are filters, sums, distinct-value sets, lexicographic order, and
  the partition, permutation and conservation lemmas.
- `Sorting` (sorting.dfy): `Array.prototype.sort`. It has two forms:
  - a stable insertion sort, `SortDesc`, for the `(a, b) => b.x - a.x`
    comparators;
  - the default string sort, `SortStrings`.
- `Grouping` (grouping.dfy): the shape every `forEach` into an object
  shares.
  - `AccumulateBy` is a loop over the records that fills a `map` keyed by
    a string. On a key's first record it creates the entry, then folds the
    record into it.
  - It is proved against `FirstSeen`, the keys in the order they were
    first added, and `Entry`, the fold of each key's group.
  - `Conservation` states that summing the per-key totals over the keys
    gives the total over the kept records.
- `Records` (records.dfy): the two ledger records, with every field
  optional. Also:
  - JavaScript truthiness and `|| 0` / `|| ""`;
  - `monthKey`, ASCII `toLowerCase` for status words, and `trim`;
  - `slice(0, n)`, ISO date comparison and the lakh scale.
- `Metrics` (metrics.dfy): `calculateFinancialOverview`,
  `calculatePendingDispatch`, `calculateKPIs` and
  `prepareCompletionChartData`.
- `Series` (series.dfy): `prepareMonthlySalesSeries` and
  `prepareMonthlyPOSeries`.
- `Completion` (completion.dfy): `prepareCompletionPieData` and
  `prepareOrderCompletionStatus`.
- `Sku` (sku.dfy): `prepareSkuSummary`, `prepareTopSKUs` and
  `prepareMonthlySkuSummary`.
- `Monthly` (monthly.dfy): `prepareSkuMonthlyDispatch`,
  `prepareSkuComparison` with its `getMonthly`, and
  `prepareAllSkusMonthlyDispatch`.
- `Ui` (ui.dfy): the group-and-sort kernels of `renderSkuListByMonth` and
  `renderTopSkusByDispatch`, the rank lists, and the record filters of the
  outstanding and pending drilldowns.

Modelling choices:

- The source's `forEach` loops that update counters or fill an object
  become methods with loops and invariants. Each one is tied to a
  specification function. The expression-only code becomes functions.
- Record fields are `Option`s. A string field is truthy when present and
  non-empty; a number field is truthy when present and non-zero.
- Money and quantities are integers in raw units. A value shown in lakh is
  `raw / 100000` computed exactly as a real, once per figure.
- A due date is compared to the reference day as in `new Date(d) <= today`:
  - a missing or non-`YYYY-MM-DD` date is an Invalid Date and compares
    false;
  - well-formed dates compare lexicographically.
- Month names (`monthLabelFromKey`, which differs between the two files)
  are a parameter `monthLabel`.
- The clock read by `calculateKPIs` is the parameter `nowIso`.
- Accumulator objects are enumerated in insertion order.

Quirks of the code that the model keeps:

- `prepareMonthlyPOSeries` returns four labels for three months.
- The fifth sales label has a leading space.
- `getMonthly` inside `prepareSkuComparison` does not skip undated records.
  They land in a month keyed `""`, so the comparison can show an extra
  month that `prepareSkuMonthlyDispatch` never shows.
- `prepareMonthlySkuSummary` selects by prefix (`startsWith`), not by month
  key. The two agree for a seven-character month.
- The pending-dispatch figure counts only the exact "incomplete" status.
  The status split counts everything except "complete" as incomplete.
- The pending drilldown has no non-zero-value test, so it can list
  zero-value rows that the figure leaves out.

## Model

| member | source | states |
|---|---|---|
| Seqs.FilterMembers | dashboard-logic.js:79-80 | a filtered array holds exactly the elements of the input that pass the predicate |
| Seqs.DistinctMembers | dashboard-logic.js:31 | `new Set(arr.map(f))` holds exactly the values `f` takes on the array |
| Seqs.Distinct | dashboard-logic.js:31 | a distinct-value count is at most the number of records and at least one for a non-empty array |
| Seqs.FilterPartition | dashboard-logic.js:227-233 | a predicate and its negation split an array into two parts whose lengths, multisets and sums add up to the whole |
| Seqs.SumByDropsZeros | dashboard-logic.js:137-140 | narrowing a filter changes no sum when every record dropped contributes 0 |
| Seqs.SumByPermutation | dashboard-logic.js:218-221 | a sum does not depend on the order of its records, so sorting before summing changes nothing |
| Seqs.SumByFilterAtMost | dashboard-logic.js:36-39 | with non-negative values, a filtered sum lies between 0 and the full sum |
| Seqs.LexLeTotal | dashboard-logic.js:311 | the default string sort order is total |
| Seqs.LexLeTransitive | dashboard-logic.js:311 | the default string sort order is transitive |
| Sorting.SortBy | dashboard-logic.js:296 | sorting with a total preorder yields a sorted permutation of the input |
| Sorting.SortByStable | dashboard-logic.js:296 | the sort is stable: equal-key elements keep their input order |
| Sorting.SortDesc | dashboard-logic.js:218 | `sort((a, b) => key(b) - key(a))` keeps length, multiset and membership and orders keys non-increasing |
| Sorting.SortDescStable | dashboard-logic.js:218 | ties under the descending sort keep their first-seen order |
| Sorting.SortStrings | dashboard-logic.js:311 | `Object.keys(map).sort()` of distinct keys is a strictly ascending permutation |
| Sorting.RankedRows | dashboard-logic.js:290-296 | ranking one row per distinct key gives one row per key, distinct names, each the row of its key, and sums equal to the sums over the keys |
| Grouping.FirstSeen | dashboard-logic.js:278-284 | the keys of an accumulator object are distinct, and a key is present exactly when some kept record has it |
| Grouping.GroupOfUnseenKey | dashboard-logic.js:344 | a key no record has has an empty group, so the `map[m] or 0` fallback is the group's total |
| Grouping.GroupOfSeenKey | dashboard-logic.js:278-284 | a key that is present has at least one record |
| Grouping.GroupMember | dashboard-logic.js:273-288 | a record in a key's group is an input record that is kept and has that key |
| Grouping.GroupTotalSnoc | dashboard-logic.js:286 | one more record adds its amount to its own key's total and changes no other key |
| Grouping.Conservation | dashboard-logic.js:286 | summing the per-key totals over the keys gives the total over the kept records: nothing lost or counted twice |
| Grouping.SumOfOnesIsLength | dashboard-ui.js:561 | adding 1 per record counts the records |
| Grouping.AccumulateBy | dashboard-logic.js:273-288 | the `forEach` that fills an object: the keys come out in first-insertion order and each key's entry is the fold of exactly its records |
| Grouping.SummingEntry | dashboard-logic.js:308 | an entry made by adding `f(o)` to `map[k]`, starting from 0, is the sum of `f` over the key's records |
| Records.MonthKey | dashboard-logic.js:25-27 | the month key is "" for a falsy date, otherwise the date's first seven characters (fewer for a short date) |
| Records.MonthKeyIsSevenCharPrefix | dashboard-ui.js:314 | for a seven-character month, the date starting with it is the same as its month key being that month |
| Records.Trim | dashboard-ui.js:605 | the trimmed string is the slice of the input between a white prefix and a white suffix, has no white space at either end, an already trimmed string is unchanged, and an all-white string becomes empty |
| Records.InLakh | dashboard-logic.js:43 | a lakh figure times 100000 is the raw amount, and it is non-negative for a non-negative amount |
| Records.IncompleteIgnoresCase | dashboard-logic.js:52 | the status test lower-cases before comparing: "Incomplete" and "INCOMPLETE" pass, "in complete" does not |
| Records.CompleteIgnoresCase | dashboard-logic.js:88 | "Complete" and "COMPLETE" count as complete |
| Records.OtherStatusesAreNeither | dashboard-logic.js:159-167 | "cancelled", "" and a missing status are neither complete nor incomplete |
| Records.StatusesExclusive | dashboard-logic.js:159-167 | no record is both complete and incomplete |
| Records.OnOrBeforeBoundary | dashboard-logic.js:37-38 | the due-date test is inclusive of the reference day, excludes the day after, and is false for a missing due date |
| Metrics.CalculateFinancialOverview | dashboard-logic.js:30-45 | the invoice count is the number of distinct invoice numbers, at most the number of lines; the outstanding amount is the lakh value of the lines due on or before the reference day |
| Metrics.InvoiceCountCollapsesDuplicates | dashboard-logic.js:31 | two lines of one invoice count once |
| Metrics.OutstandingAtMostLedger | dashboard-logic.js:36-39 | with non-negative values, the outstanding amount lies between 0 and the ledger total |
| Metrics.CalculatePendingDispatch | dashboard-logic.js:48-58 | the figure is the lakh value of the "incomplete" records with a non-zero value |
| Metrics.PendingDispatchExample | dashboard-logic.js:52-57 | an "Incomplete" order worth 500000 gives 5 lakh, and a "cancelled" one adds nothing |
| Metrics.NormalizeKeepsMonth | dashboard-logic.js:62-65 | cutting a sale's date to ten characters keeps its month key and its value |
| Metrics.NormalizeSales | dashboard-logic.js:62-65 | normalising keeps one sale per input sale, each the normalised copy of the sale at the same index |
| Metrics.PerMonth | dashboard-logic.js:72 | the average times the month count (1 when there is none) is the total |
| Metrics.CalculateKPIs | dashboard-logic.js:61-103 | each KPI is its filtered sum in lakh; the average divides by the distinct non-empty months (at most the number of sales); the PO and SKU counts are the sizes of the sets of PO numbers and job names, within [1, n] for n > 0 records; the completion rate is the complete share of the total value |
| Metrics.NormalizePreservesSums | dashboard-logic.js:62-82 | normalising the dates changes neither the year-to-date total nor any month's total |
| Metrics.CompletionRateIsPercentage | dashboard-logic.js:91 | with non-negative values, the completion rate lies in [0, 100] |
| Metrics.CurrentMonthWithinYtd | dashboard-logic.js:79-82 | with non-negative values, the current month's sales lie between 0 and the year to date |
| Metrics.UndatedSalesAddNoMonth | dashboard-logic.js:69-71 | adding an undated sale to any sales book leaves its set of months, the average's divisor, unchanged |
| Metrics.CompletionChartBarsFit | dashboard-logic.js:178-183 | with non-negative values, the complete and pending bars together never exceed the total bar |
| Series.Divisor | dashboard-logic.js:114 | the divisor (`prev`, or 1 for a zero month) is never zero and is `prev` when that is non-zero |
| Series.GrowthRate | dashboard-logic.js:114 | growth times the divisor is the change times 100 |
| Series.Growth | dashboard-logic.js:114 | one growth figure per month, 0 for the first, and each later one is the percentage change from the month before |
| Series.GrowthFollowsChange | dashboard-logic.js:114 | after a non-negative month, growth is positive exactly when the value rose and negative exactly when it fell |
| Series.GrowthExamples | dashboard-logic.js:114 | 1 to 1.5 is 50% growth, and 0 to 0.5 is also 50 because the divisor becomes 1 |
| Series.BarColor | dashboard-logic.js:119 | green exactly for positive growth, red exactly for negative, navy exactly for none |
| Series.ColourTracksChange | dashboard-logic.js:114-119 | after a non-negative month, a bar is green exactly when sales rose and red exactly when they fell |
| Series.Cumulative | dashboard-logic.js:116-117 | the i-th running total is the sum of the first i + 1 months |
| Series.CumulativeSteps | dashboard-logic.js:117 | each running total is the previous one plus that month, so it never falls for non-negative months |
| Series.PrepareMonthlySalesSeries | dashboard-logic.js:106-122 | five fixed months and labels; each month's figure is the lakh total of its sales even with no sale in it; growth, running totals and colours follow from those figures |
| Series.OutOfWindowSaleIsNotCharted | dashboard-logic.js:110-112 | a sale whose month key is not a month changes no bar of it |
| Series.InWindowSaleIsCharted | dashboard-logic.js:110-112 | a sale adds its full value to its own month |
| Series.PrepareMonthlyPOSeries | dashboard-logic.js:133-146 | three fixed months; a month's PO count is the number of its records with a non-zero value (at most the book size); its value is the lakh total of all its records, zero-value ones adding nothing |
| Series.POLabelsOutnumberMonths | dashboard-logic.js:134-135 | the chart is handed one more label than it has months |
| Completion.CountStatus | dashboard-logic.js:155-168 | the callback bumps the complete counters only for "complete" and the incomplete counters only for "incomplete" |
| Completion.PrepareCompletionPieData | dashboard-logic.js:149-175 | the pie values and counts are those of the exactly-"complete" and exactly-"incomplete" records |
| Completion.PieCountsAtMostRecords | dashboard-logic.js:159-167 | the pie counts sum to at most the number of records |
| Completion.PieValuesAtMostBook | dashboard-logic.js:159-167 | with non-negative values, the two slices together are at most the book's value |
| Completion.PrepareOrderCompletionStatus | dashboard-logic.js:226-248 | an exact partition into "complete" and everything else: the counts add up to the record count, the lists together are the input multiset, and the lakh values add up to the book's value |
| Completion.PieIncompleteWithinSplit | dashboard-logic.js:164-167 | the pie's "incomplete" records are the split's incomplete records whose status is exactly "incomplete" |
| Completion.PieAndSplitAgreeOnComplete | dashboard-logic.js:227-243 | the split and the pie give the same count and value for "complete" |
| Sku.JobKeysAreJobNames | dashboard-logic.js:274 | the SKUs are exactly the non-empty job names |
| Sku.SkuFold | dashboard-logic.js:286-287 | folding a SKU's records adds their dispatch and collects their PO numbers |
| Sku.PrepareSkuSummary | dashboard-logic.js:270-297 | the result is the SKU rows (dispatch total, distinct PO count) ranked by dispatch, ties first-seen first |
| Sku.SkuSummaryFacts | dashboard-logic.js:270-297 | one row per distinct non-empty job name, each its own SKU's totals, ranked non-increasing, adding up to the dispatch of all records with a job name |
| Sku.JobFold | dashboard-logic.js:204-207 | folding a SKU's records adds their order and dispatch quantities, collects their PO numbers and keeps the brand |
| Sku.PrepareTopSKUs | dashboard-logic.js:186-224 | `top` is the first `topN` ranked SKUs, and the total is the dispatch of every record with a job name |
| Sku.TopSkusTotal | dashboard-logic.js:221 | the grand total over the ranked SKUs equals the dispatch of the records with a job name |
| Sku.RankedJobsFacts | dashboard-logic.js:210-218 | one ranked row per SKU, each its own totals, ranked non-increasing by dispatch |
| Sku.TopSkusFacts | dashboard-logic.js:220 | `top` has min(topN, number of SKUs) rows for topN >= 0, ranked non-increasing, each the row of a distinct SKU |
| Sku.TopBrandIsFirstRecords | dashboard-logic.js:194-197 | a SKU's brand is that of its first record |
| Sku.TopDominatesRest | dashboard-logic.js:218-220 | a SKU left out of `top` dispatched no more than any SKU in it |
| Sku.RankedNonNegative | dashboard-logic.js:206 | with non-negative quantities, every SKU's dispatch is non-negative |
| Sku.TopWithinTotal | dashboard-logic.js:220-221 | with non-negative quantities, the grand total is at least the total of the rows shown |
| Sku.PrepareMonthlySkuSummary | dashboard-ui.js:313-316 | the monthly summary is the SKU summary of the dated records whose date starts with the month |
| Sku.MonthlySelectionIsMonthKey | dashboard-ui.js:314 | for a seven-character month, the selection is exactly the records whose month key is that month |
| Sku.MonthlySkuSummaryTotal | dashboard-ui.js:313-316 | the monthly summary adds up to the dispatch of that month's records with a job name |
| Monthly.ReadBackTotal | dashboard-logic.js:311-315 | reading a summing object back in any order of its keys adds up to the total of the kept records |
| Monthly.PrepareSkuMonthlyDispatch | dashboard-logic.js:300-317 | months ascending, distinct and non-empty, exactly the month keys of the SKU's dated records; a label and a value per month; each value is that month's dispatch total; the values add up to the SKU's dated dispatch |
| Monthly.GetMonthly | dashboard-logic.js:323-332 | one key per month key of the SKU's records, "" included; each value is that month's dispatch total |
| Monthly.Dedupe | dashboard-logic.js:337-339 | `Array.from(new Set(...))` is duplicate-free with the same elements |
| Monthly.ReadMonths | dashboard-logic.js:344-345 | reading `map[m]` for each month, with 0 as the fallback, is the SKU's total in each month, 0 where it has none |
| Monthly.PrepareSkuComparison | dashboard-logic.js:321-347 | months ascending, duplicate-free, and exactly the union of both SKUs' month keys; three aligned arrays; each value is that SKU's total in that month, 0 when missing |
| Monthly.MissingMonthIsZero | dashboard-logic.js:344-345 | a month a SKU has no record in gives 0 for that SKU |
| Monthly.UndatedRecordGivesEmptyMonth | dashboard-logic.js:303-309 | an undated record puts the month "" into the comparison, but never into the single-SKU series |
| Monthly.MonthFold | dashboard-ui.js:292-293 | folding a month's records adds their dispatch and their PO weights (the record's `poCount`, or 1 when it is missing or 0) |
| Monthly.PrepareAllSkusMonthlyDispatch | dashboard-ui.js:284-303 | records without a date or a dispatch quantity are skipped; months ascending and distinct; four aligned arrays; each value and PO count is its month's total; the values add up to the dispatch of the kept records and the PO counts to their weights |
| Monthly.ReadMonthTotals | dashboard-ui.js:296-301 | the values and PO counts read back in sorted month order are each month's totals and add up to the totals of the kept records |
| Monthly.AllSkusSkipsUndispatched | dashboard-ui.js:287-293 | a skipped record changes no month, and a kept record adds its dispatch to its own month |
| Ui.ListFold | dashboard-ui.js:561-566 | folding a SKU's records counts them, adds their quantities, pending and value, and appends them to `rows` in order |
| Ui.RenderSkuListByMonth | dashboard-ui.js:539-569 | the list is the per-SKU rows of the selected records, ranked by dispatch |
| Ui.SkuListFacts | dashboard-ui.js:540-569 | one row per listed SKU, each its own totals, ranked non-increasing by dispatch; the PO counts add up to the number of listed records |
| Ui.ListRowRecords | dashboard-ui.js:566 | a row's records are exactly the listed records of its SKU |
| Ui.PendingCountsOnlyIncomplete | dashboard-ui.js:564 | a SKU's pending quantity is the open quantity (`orderQty - dispQty`) of its "incomplete" records only |
| Ui.ListedInIsDatedIn | dashboard-ui.js:542 | the empty-month guard is redundant: the list selects the same records as the monthly summary |
| Ui.RenderTopSkusByDispatch | dashboard-ui.js:602-614 | the result is the first `limit` of the per-SKU dispatch totals, ranked non-increasing |
| Ui.RankedQtyPositive | dashboard-ui.js:606 | every ranked quantity is positive because records with qty <= 0 are dropped |
| Ui.RankedNameTrimmed | dashboard-ui.js:605-607 | every ranked SKU name is non-empty and has no white space at either end |
| Ui.DispatchRankingFacts | dashboard-ui.js:603-613 | one entry per distinct SKU, each that SKU's total, ranked non-increasing |
| Ui.DispatchRankingTotal | dashboard-ui.js:603-613 | the entries add up to the dispatch of the kept records: nothing lost or counted twice |
| Ui.TopDispatchFacts | dashboard-ui.js:611-614 | at most `limit` entries (min(limit, number of SKUs) for limit >= 0), each positive with a trimmed non-empty name, ranked non-increasing |
| Ui.AllSkusRankRows | dashboard-ui.js:673-679 | the rank list is a permutation of the month rows, same length, non-increasing by dispatch |
| Ui.AllSkusRankTotal | dashboard-ui.js:673-679 | the rank list shows the same total as the chart |
| Ui.SkuRankRows | dashboard-ui.js:703-708 | the rank list is a permutation of the month rows, same length, non-increasing by quantity |
| Ui.SkuRankTotal | dashboard-ui.js:703-708 | the rank list shows the same total as the chart |
| Ui.OutstandingDrilldown | dashboard-ui.js:88-91 | the drilldown lists exactly the sales due on or before 2025-12-20 |
| Ui.OutstandingDrilldownMatchesKpi | dashboard-ui.js:89-91 | the drilldown lists the lines the outstanding figure adds up, with the same inclusive rule |
| Ui.PendingDrilldown | dashboard-ui.js:103-105 | the drilldown lists exactly the records whose status is "incomplete" |
| Ui.PendingDrilldownMatchesKpi | dashboard-ui.js:105 | the drilldown's values add up to the pending figure, and it contains every record the figure counts |
| Ui.PendingDrilldownListsZeroValueRows | dashboard-ui.js:105 | a zero-value "incomplete" order is listed while the figure counts nothing for it |

## Left out

- DOM, Chart.js, modals, `setTimeout`, the clock widget, the table slider
  and click wiring: presentation side effects with nothing to aggregate.
- `filterDataByMonth` (dashboard-logic.js:1-19): it reads a `<select>` and
  redraws. Its filtering is `monthKey(date) === month`, which
  `Sku.MonthlySelectionIsMonthKey` relates to the prefix selection.
- `uniqueItemCodes` (dashboard-logic.js:348-350): it is built over an item
  master that is loaded outside these files.
- build_data_source.py is not part of this model. It does spreadsheet
  ingestion and file output.
- localStorage and `dashboardState` persistence: UI state outside the
  engine.
- `monthLabelFromKey` (both versions):
  - `toLocaleString` formatting is a parameter `monthLabel: string -> string`;
  - its behaviour on malformed keys is not modelled.
- The wall clock in `calculateKPIs` is the parameter `nowIso`. The
  reference day of `calculateFinancialOverview` is a parameter, and the
  drilldown uses the constant 2025-12-20 as the source does.
- Floating point:
  - money and quantities are unbounded integers;
  - lakh figures, growth and running totals are exact reals;
  - IEEE rounding and `toFixed`/`toLocaleString` formatting are not
    modelled.
- `Number(x) || 0` on non-numeric strings (NaN): numeric fields are typed
  `Option<int>`, so a non-numeric value is modelled as missing.
- `new Date` parsing: only zero-padded `YYYY-MM-DD` dates are compared.
  Any other string is treated as an Invalid Date, which compares false.
  A string of the right shape is compared by its characters even when it
  names no calendar day, such as "2025-13-01" or "2025-02-31". JavaScript
  rejects the first as an Invalid Date, and engines differ on the second.
- JavaScript enumerates integer-like object keys first and treats
  `__proto__` specially. The model enumerates every accumulator in
  insertion order.
- Inherited key names: the accumulators are plain `{}` objects, so a key
  such as "constructor" or "toString" finds a truthy inherited value. In
  the source, `!map[o.jobName]` and `!jobDispatchMap[...]` are then false
  and the following `.poSet.add` throws a TypeError, and
  `(skuMap[sku] || 0) + qty` concatenates strings. The model treats these
  keys like any other key.
- Sort order: `sort()` with no comparator compares UTF-16 code units, and
  the model compares code points (`Seqs.LexLe`). The two orders differ only
  for characters beyond the Basic Multilingual Plane.
- `toLowerCase` is modelled on ASCII letters only.
- The drilldown row mapping and its anchor markup are presentation only.
  The drilldowns are modelled as the record sets they list.
- Monthly.PrepareSkuMonthlyDispatch, Monthly.PrepareSkuComparison: they
  also return the sorted `months` the arrays are read in, which the source
  keeps local, so that the contract can name each array's month.
- Ui.AllSkusRankRows, Ui.SkuRankRows, Ui.AllSkusRows, Ui.SkuRows: they
  require the series arrays to have equal lengths. Their producers
  guarantee this, and `values[i]` past the end (`undefined`) is not
  modelled.
- Ui.RenderSkuListByMonth: the `value` total is carried and folded
  (`Ui.ListFold`), but no lemma is stated about it beyond being the sum of
  the SKU's values.
