# Musicow order dashboard — verified model

This project models the analytical core of a dashboard for the Musicow music-royalty market. The
feed delivers open buy (구매) and sell (판매) orders for song shares. The core normalises each order
(`Musicow`) and enriches it with metrics (`Calculator`):

- the spread rate against the recent trade price;
- base and expected royalty yield, and the yield advantage;
- a 0–100 liquidity score drawn from the other orders of the same song;
- one of six trading signals;
- on request, a price momentum per song.

Around that engine sit the selection, aggregation and ranking rules of the dashboard:

- the filter combinators of the search helper (`Search`) and of the filter panel hook (`UseFilters`);
- the summary and momentum routes (`SummaryRoute`, `MomentumRoute`, with the response envelope in `Api`);
- the spread histogram and the signal pie chart (`SpreadDistribution`, `SignalDistribution`);
- the per-category and per-hour pages (`CategoryPage`, `TimePatternPage`);
- the threshold pages: instant match, undervalued, high liquidity, high yield and value (`InstantPage`,
  `UndervaluedPage`, `LiquidityPage`, `YieldPage`, `ValuePage`, with the shared tests in `Criteria`);
- the CSV export (`Export`) and the format helpers (`Format`);
- the sort toggle and pagination of the orders table (`OrdersTable`).

**Modelling conventions**

- JavaScript numbers are `real`. Optional fields are `Option`.
- Timestamps (`Date.getTime`) are `int` and are supplied by a function parameter.
- Locale rendering, `toFixed`, `localeCompare`, `parseFloat` and `getHours` are function parameters.
- `Array.prototype.sort` is a stable insertion sort (`Sorting.SortWith`) driven by the same comparator.
  It coincides with every stable sort whenever the comparator is consistent.
- Helper modules hold generic facts:
  - `Seqs`: filter, sums, counts, distinct values, subsequences, `slice`;
  - `Sorting`: the sort and its ordering and top-N lemmas;
  - `Text`: ASCII lower-casing, `trim`, substring, `join`, decimal rendering, string order;
  - `JsMath`: `abs`, `min`, `max`, `floor`, `ceil`;
  - `Wrappers`: `Option` and `Result`.

**Where the source updates state, the model does too**

- The grouping `forEach` of the momentum route, the `reduce` tallies of the signal chart and of the
  category and hour pages, the `Set` fills of the unique extractors, and the step-by-step
  `applyFilters` are methods with loops or sequential updates. Each is proved equal to a
  specification function.
- The orders table's page and sort state (`OrdersTable.TableState`) and the filter hook's state
  (`UseFilters.FiltersHook`) are classes.

## Model

| member | source | states |
|---|---|---|
| Types.SignalLabelsDistinct | src/types/order.ts:41-47 | the six signal literals are pairwise different, so a label names exactly one signal |
| Constants.ThresholdsOrdered | src/lib/constants.ts:32-57 | liquidity LOW < MEDIUM < HIGH; spread LOW < 0 < INSTANT_MATCH < HIGH with LOW = −HIGH; momentum STRONG_UP > UP > STABLE > DOWN; yield HIGH > MEDIUM > LOW |
| Constants.SignalColorsDistinct | src/lib/constants.ts:12-19 | each signal's colour is a seven-character string starting with `#`, and no two signals share a colour |
| Constants.SignalPriority | src/lib/constants.ts:22-29 | every signal has a rank between 1 and 6 |
| Constants.SignalPriorityInjective | src/lib/constants.ts:22-29 | different signals have different ranks, so the six ranks are a permutation of 1..6 |
| Calculator.SpreadRate | src/lib/metrics/calculator.ts:19-22 | 0 for a recent price of 0; otherwise rate × recent = (order − recent) × 100, and for a positive recent price the rate is positive exactly when the order is above the recent price and 0 exactly when it equals it |
| Calculator.ExpectedYield | src/lib/metrics/calculator.ts:58-69 | 0 when either price is 0; otherwise yield × order price = royalty × recent × 100 |
| Calculator.BaseYield | src/lib/metrics/calculator.ts:36-38 | the royalty rate as a percentage: dividing by 100 gives the rate back, and it is positive exactly for a positive rate |
| Calculator.BaseYieldIsYieldAtMarket | src/lib/metrics/calculator.ts:36-38 | buying at the recent price earns exactly the base yield, so the advantage there is 0 |
| Calculator.YieldAdvantage | src/lib/metrics/calculator.ts:87-89 | the base yield plus the advantage is the order's yield; the advantage is positive exactly when the order's yield exceeds the base |
| Calculator.AdvantageSign | src/lib/metrics/calculator.ts:87-89 | with a positive royalty rate and positive prices, the advantage is positive exactly when the order is below the recent price, and negative exactly when it is above |
| Calculator.DocumentedYieldExample | src/lib/metrics/calculator.ts:50-51 | the documented example: rate 0.082, recent 15400, order 20100 gives about 6.28 and an advantage of about −1.92 |
| Calculator.Cohort | src/lib/metrics/calculator.ts:100 | the cohort is an order-preserving subsequence of the list holding every order of the song as often as the list does, and no order of another song |
| Calculator.AverageSpread | src/lib/metrics/calculator.ts:124-130 | 0 for no orders; otherwise the mean multiplied by the count is the sum of the spread rates |
| Calculator.VolumesNonNegative | src/lib/metrics/calculator.ts:139-143 | with no negative quantity, buy and sell volume are non-negative |
| Calculator.BalanceScore | src/lib/metrics/calculator.ts:149-150 | for non-negative volumes the balance part lies in [0, 50] and reaches 50 exactly when buy and sell volume are equal |
| Calculator.BalanceBounds | src/lib/metrics/calculator.ts:149-150 | min(buy, sell) is at most half the total, so the balance ratio lies in [0, 1] |
| Calculator.VolumeScore | src/lib/metrics/calculator.ts:153 | the volume part never exceeds 50, is non-negative for a non-negative total, and saturates at 50 exactly from 1000 units on |
| Calculator.DepthScore | src/lib/metrics/calculator.ts:135-156 | 0 when the cohort's total volume is 0; within [0, 100] for non-negative quantities |
| Calculator.SpreadScore | src/lib/metrics/calculator.ts:107 | within [0, 100]; 100 exactly for an average spread of 0; 0 exactly when the spread is ±20 or beyond |
| Calculator.FrequencyScore | src/lib/metrics/calculator.ts:115 | within [0, 100]; 100 exactly from 50 orders on |
| Calculator.LiquidityScore | src/lib/metrics/calculator.ts:98-119 | 0 for an empty same-song cohort; within [0, 100] when no quantity is negative |
| Calculator.CohortQuantities | src/lib/metrics/calculator.ts:100 | a cohort inherits non-negative quantities from the list |
| Calculator.LiquidityScoreMaximal | src/lib/metrics/calculator.ts:98-119 | a cohort of at least 50 orders with an average spread of 0 and equal buy and sell volumes of at least 500 each scores exactly 100 |
| Calculator.LiquidityScoreReorder | src/lib/metrics/calculator.ts:98-119 | the score depends on the list only as a multiset of orders |
| Calculator.GenerateSignal | src/lib/metrics/calculator.ts:221-265 | for each of the six signals, the exact condition under which it is returned: that rule's test holds and every earlier rule's test fails |
| Calculator.TrendOf | src/lib/metrics/calculator.ts:195-197 | up exactly above +5 %, down exactly below −10 %, stable exactly in between, both bounds included |
| Calculator.TrendBoundaries | src/lib/metrics/calculator.ts:195-197 | +5 and −10 are stable; +5.01 is up and −10.01 is down |
| Calculator.ClampScore | src/lib/metrics/calculator.ts:200 | within [−100, 100]; the identity inside; ±100 outside |
| Calculator.ChangePercent | src/lib/metrics/calculator.ts:189-192 | 0 when the first price is 0; otherwise change × first = (last − first) × 100 |
| Calculator.SongTimeline | src/lib/metrics/calculator.ts:166-171 | the song's orders, as a permutation of the filter, in chronological order |
| Calculator.TimelineSorted | src/lib/metrics/calculator.ts:168-171 | sorting by the parsed date yields a chronological sequence |
| Calculator.PriceMomentum | src/lib/metrics/calculator.ts:165-211 | under two orders: stable, score 0, change 0, no prices or dates. Otherwise prices and dates are the timeline's, with change from first to last, trend from the band and score the clamped change |
| Calculator.MomentumSingleOrderName | src/lib/metrics/calculator.ts:173-183 | a song with one order keeps that order's song name |
| Calculator.MomentumChronological | src/lib/metrics/calculator.ts:185-186 | the dates are chronological and index-aligned with the prices |
| Calculator.Enrich | src/lib/metrics/calculator.ts:273-307 | the enriched order keeps the order, and each derived field is the single-order function, with the cohort drawn from the whole list; no momentum score |
| Calculator.BatchMetrics | src/lib/metrics/calculator.ts:273-307 | same length and order as the input; element i is order i enriched against the whole list; projecting back gives the input |
| Calculator.BatchLiquidityConsistent | src/lib/metrics/calculator.ts:273-307 | orders of the same song get the same liquidity score, and every score lies in [0, 100] for non-negative quantities |
| Calculator.BatchCohortNonEmpty | src/lib/metrics/calculator.ts:100-102 | within a batch every order belongs to its own cohort, so the empty-cohort score of 0 never applies |
| Calculator.LiquidityMetricsFor | src/lib/metrics/calculator.ts:315-352 | no order with the song id gives the all-zero record; otherwise the buy/sell counts of the song's orders, its average spread, its depth and frequency scores, and the liquidity score as their 40/30/30 weighting; the name is the first order's |
| Musicow.FirstSongLink | src/lib/api/musicow.ts:15 | the leftmost position from which "/song/" followed by a digit occurs, or None when there is none |
| Musicow.DigitRun | src/lib/api/musicow.ts:15 | the greedy `\d+`: the longest all-digit prefix |
| Musicow.ExtractSongId | src/lib/api/musicow.ts:15-16 | None exactly when the pattern occurs nowhere; otherwise a non-empty digit string |
| Musicow.DigitRunOfDigits | src/lib/api/musicow.ts:15 | a digit run followed by a non-digit is captured exactly |
| Musicow.SongIdRoundTrip | src/lib/api/musicow.ts:15-16 | the link "/song/n", followed by anything not starting with a digit, yields exactly the decimal rendering of n |
| Musicow.ExtractExample | src/lib/api/musicow.ts:14 | "/song/1737" yields "1737" |
| Musicow.NormalizeOrder | src/lib/api/musicow.ts:13-39 | every feed field is copied; order id = order number and quantity = count; the song id is the captured number, falling back to the order number when the link is absent or does not match |
| Musicow.SameLinkSameCohort | src/lib/api/musicow.ts:15-16 | two feed orders whose links name the same song number share their cohort in any list |
| Musicow.OrdersWithMetrics | src/lib/api/musicow.ts:45-71 | a non-array payload fails with the invalid-format error; an array is normalised element-wise and batch-enriched, with the same length |
| Musicow.FetchedOrdersHaveSongIds | src/lib/api/musicow.ts:61-64 | every fetched order carries a song id |
| Search.SearchOrders | src/lib/utils/search.ts:11-27 | a blank query returns the input; otherwise exactly the orders in which the trimmed lower-case query occurs in one of the five fields, as an order-preserving subsequence |
| Search.BlankQueryMatchesAll | src/lib/utils/search.ts:15-17 | the key of a blank query is empty and occurs in every field, so the filter keeps everything |
| Search.SearchCaseInsensitive | src/lib/utils/search.ts:17 | lower-casing the query first changes nothing |
| Search.FilterByOrderType | src/lib/utils/search.ts:32-38 | the identity for an empty list; otherwise exactly the orders whose type label is listed, in order |
| Search.FilterBySignal | src/lib/utils/search.ts:43-49 | the identity for an empty list; otherwise exactly the orders whose signal is listed, in order |
| Search.FilterByCategory | src/lib/utils/search.ts:96-102 | the identity for an empty list; otherwise exactly the orders whose category is listed, in order |
| Search.FilterByRange | src/lib/utils/search.ts:54-91 | exactly the orders with min ≤ value ≤ max, each as often as in the input, in order; nothing when min > max |
| Search.FilterByLargeOrders | src/lib/utils/search.ts:107-112 | exactly the orders whose quantity, or whose count when the quantity is 0 or absent, reaches the threshold, each as often as in the input, in order |
| Search.Advance | src/lib/utils/search.ts:133-179 | running stage k on the result of stages 1..k−1 gives the result of stages 1..k |
| Search.SearchStep | src/lib/utils/search.ts:136-138 | the guarded search stage is the filter by its stage test |
| Search.TypesStep | src/lib/utils/search.ts:141-143 | the guarded type stage is the filter by its stage test |
| Search.SignalsStep | src/lib/utils/search.ts:146-148 | the guarded signal stage is the filter by its stage test |
| Search.RangeStep | src/lib/utils/search.ts:151-167 | each guarded range stage is the filter by its stage test |
| Search.CategoriesStep | src/lib/utils/search.ts:170-172 | the guarded category stage is the filter by its stage test |
| Search.LargeStep | src/lib/utils/search.ts:175-177 | the guarded large-order stage, with default threshold 100, is the filter by its stage test |
| Search.RunStage | src/lib/utils/search.ts:133-179 | one `if` of `applyFilters`, continuing a prefix of the stages |
| Search.ApplyFilters | src/lib/utils/search.ts:129-180 | the sequential composition is one filter by the conjunction of the enabled tests: an order-preserving subsequence holding exactly the admitted orders |
| Search.AllStagesAdmit | src/lib/utils/search.ts:129-180 | passing all eight stages is being admitted |
| Search.NoOptionsKeepAll | src/lib/utils/search.ts:129-180 | with no option set the list comes back unchanged |
| Search.CollectDistinct | src/lib/utils/search.ts:186-187 | filling a set by a walk gives the distinct keys in order of first occurrence |
| Search.UniqueSignals | src/lib/utils/search.ts:194-198 | each occurring signal exactly once, every order's signal present, in first-occurrence order |
| Search.StringCompareIsPreorder | src/lib/utils/search.ts:188 | the default string comparator is a total preorder |
| Search.SortDistinctStrings | src/lib/utils/search.ts:188 | sorting distinct strings puts them in strictly ascending order |
| Search.StringCompareBefore | src/lib/utils/search.ts:188 | two different strings that compare at most 0 are in lexicographic order |
| Search.DistinctKeys | src/lib/utils/search.ts:186-187 | the distinct keys are exactly the keys the orders carry |
| Search.UniqueCategories | src/lib/utils/search.ts:185-189 | each category exactly once, every order's category present, in strictly ascending order |
| SummaryRoute.CalculateAverage | src/app/api/summary/route.ts:68-78 | 0 for no orders; otherwise the mean multiplied by the count is the sum of the field |
| SummaryRoute.AverageBounds | src/app/api/summary/route.ts:75-77 | the mean lies within any bounds that hold every value |
| SummaryRoute.AverageReorder | src/app/api/summary/route.ts:75-77 | the mean does not depend on the order of the list |
| SummaryRoute.Summarize | src/app/api/summary/route.ts:20-37 | totals, buy/sell counts (adding up to the total), the three means, and the instant/high-yield/undervalued counts with their exact tests; instant and undervalued never overlap |
| SummaryRoute.SummaryMatchesPages | src/app/api/summary/route.ts:27-35 | the instant page shows exactly the instant-match count; the undervalued and high-yield pages show their counts capped at 100; the value page shows no more than the undervalued count |
| SummaryRoute.SummaryGet | src/app/api/summary/route.ts:15-63 | success exactly for an array payload, with the summary of the fetched orders; otherwise status 500 with the fixed message |
| MomentumRoute.KeysStep | src/app/api/momentum/route.ts:19-23 | the grouping keys gain the order's song id when it is new and non-empty |
| MomentumRoute.GroupStep | src/app/api/momentum/route.ts:21-22 | a song's group gains the order exactly when it is that song's |
| MomentumRoute.KeyedListed | src/app/api/momentum/route.ts:19-23 | every order with a song id contributes it to the keys |
| MomentumRoute.UnseenSongHasNoOrders | src/app/api/momentum/route.ts:21 | a song not met yet has an empty group (`|| []`) |
| MomentumRoute.AddOrder | src/app/api/momentum/route.ts:19-23 | one step of the `forEach` keeps the grouping invariant |
| MomentumRoute.GroupBySong | src/app/api/momentum/route.ts:18-23 | the map's keys are the non-empty song ids in first-occurrence order, and each group is that song's orders, in input order |
| MomentumRoute.MomentumGet | src/app/api/momentum/route.ts:13-59 | the route's answer equals the specification of group, filter, rank and truncate |
| MomentumRoute.SongOrdersCount | src/app/api/momentum/route.ts:28-29 | a song has as many plain orders as enriched orders |
| MomentumRoute.CandidateHasHistory | src/app/api/momentum/route.ts:28-29 | every candidate is the momentum of a song with at least two orders, so it has at least two prices |
| MomentumRoute.RankedHaveHistory | src/app/api/momentum/route.ts:30-33 | every entry of the ranked list has a price history of at least two |
| MomentumRoute.MomentumResponseProperties | src/app/api/momentum/route.ts:26-58 | on success: at most 50 entries, non-increasing by absolute score, each with at least two prices; on failure: status 500, an empty list and the fixed message |
| MomentumRoute.MomentumTopKeepsStrongest | src/app/api/momentum/route.ts:32-33 | a candidate left out by the truncation moves no more than any entry kept |
| Export.Quote | src/lib/utils/export.ts:38-39 | the text between two double quotes, unchanged |
| Export.CsvRow | src/lib/utils/export.ts:35-51 | fifteen fields in header order: id falling back to the order number, quoted name and artist, quantity falling back to count, royalty rate × 100 |
| Export.CsvRows | src/lib/utils/export.ts:35-51 | one comma-joined line per order, in input order |
| Export.CsvLines | src/lib/utils/export.ts:54 | the header line, then the order lines: n + 1 lines |
| Export.ConvertToCSV | src/lib/utils/export.ts:12-58 | empty exactly for no orders; otherwise the byte-order mark and the lines joined with line feeds |
| Export.QuoteDoesNotEscape | src/lib/utils/export.ts:38-39 | quoting adds exactly two quote characters, so embedded quotes are not doubled |
| Export.JoinFree | src/lib/utils/export.ts:54 | joining parts free of a character with a separator free of it yields a text free of it |
| Export.HeaderSingleLine | src/lib/utils/export.ts:16-32 | the header holds no line feed |
| Export.RowSingleLine | src/lib/utils/export.ts:35-51 | a row whose fields hold no line feed is one line |
| Export.LinesSingleLine | src/lib/utils/export.ts:54 | all lines are single lines when no field holds a line feed |
| Export.MarkedLines | src/lib/utils/export.ts:54-57 | the mark and single-line lines joined with line feeds hold one line feed fewer than there are lines, and end with the last line |
| Export.CsvLineStructure | src/lib/utils/export.ts:54-57 | when no field holds a line feed, a non-empty export holds exactly one line feed per order and ends with the last order's row, so there is no trailing newline |
| Export.GenerateFilename | src/lib/utils/export.ts:102-105 | prefix, underscore, time stamp, dot, extension, in that order and with that length |
| Format.FormatCurrency | src/lib/utils/format.ts:13-22 | "₩0" without a number; otherwise the renderer's text |
| Format.FormatNumber | src/lib/utils/format.ts:30-38 | "0" without a number; otherwise the grouped rendering with the asked decimals |
| Format.FormatPercent | src/lib/utils/format.ts:47-57 | "0.00%" without a number; otherwise "+" exactly for a positive value with signs on, the rendering, then "%" |
| Format.PercentSign | src/lib/utils/format.ts:47-57 | the result ends with "%" and starts with "+" exactly when signs are on and the value is positive |
| Format.FormatDate | src/lib/utils/format.ts:65-75 | "-" for a date that does not parse; otherwise the renderer's text |
| Format.ElapsedUnits | src/lib/utils/format.ts:85-89 | the chained floors are the elapsed whole seconds, minutes, hours and days of the milliseconds |
| Format.RelativeTimeBuckets | src/lib/utils/format.ts:82-96 | FormatRelativeTime on a parsed date: under a minute "방금 전"; under an hour the minutes; under a day the hours; under a week the days; else the date text |
| Format.RelativeTimeInvalidDate | src/lib/utils/format.ts:82-96 | a date that does not parse is shown as "-" |
| Format.MagnitudeOf | src/lib/utils/format.ts:104-112 | a unit is chosen exactly from 1000 on, and it is the largest unit not above the value |
| Format.FormatCompactNumber | src/lib/utils/format.ts:103-114 | the value scaled to its unit with one decimal and the unit letter; the plain number below 1000 |
| Format.TruncateText | src/lib/utils/format.ts:122-125 | unchanged when it fits; otherwise the first maxLength characters and "..." |
| Format.TruncateNegative | src/lib/utils/format.ts:124 | a negative limit cuts characters from the end, as `slice` does |
| Format.TruncateBounded | src/lib/utils/format.ts:122-125 | a result never exceeds the limit plus three, and a fitting text is kept |
| Format.SafeParseNumber | src/lib/utils/format.ts:133-136 | the parsed number, or the fallback when parsing yields NaN |
| SpreadDistribution.RangesTile | src/components/charts/SpreadDistribution.tsx:23-32 | eight ranges from −∞ to +∞, each ending where the next starts |
| SpreadDistribution.BucketOf | src/components/charts/SpreadDistribution.tsx:34-39 | every spread rate lies in exactly one range |
| SpreadDistribution.BoundaryGoesUp | src/components/charts/SpreadDistribution.tsx:27-31 | −5 lies in "-5 ~ 0%", 20 in "> 20%", −20 and 0 in the ranges above them |
| SpreadDistribution.SpreadBars | src/components/charts/SpreadDistribution.tsx:34-39 | one bar per range, in range order, counting the orders in that range |
| SpreadDistribution.BarTotalSnoc | src/components/charts/SpreadDistribution.tsx:36-38 | one more order adds one to every bar whose range holds it |
| SpreadDistribution.BarTotalEmpty | src/components/charts/SpreadDistribution.tsx:36-38 | no orders, no counts |
| SpreadDistribution.RangeHitsUnique | src/components/charts/SpreadDistribution.tsx:37 | a value in exactly one range is counted once |
| SpreadDistribution.RangeHitsNone | src/components/charts/SpreadDistribution.tsx:37 | a value in no range is not counted |
| SpreadDistribution.BarsCountEveryOrder | src/components/charts/SpreadDistribution.tsx:34-39 | the bars add up to the number of orders |
| SpreadDistribution.BarColor | src/components/charts/SpreadDistribution.tsx:41-46 | each of the four colours exactly on its count band |
| SignalDistribution.CountKeySnoc | src/components/charts/SignalDistribution.tsx:17 | one more order adds one to its signal's count only |
| SignalDistribution.NewSignalUncounted | src/components/charts/SignalDistribution.tsx:17 | a signal without a counter yet has occurred nowhere |
| SignalDistribution.CounterStep | src/components/charts/SignalDistribution.tsx:17 | after `(acc[s] or 0) + 1` every counter is the count over the longer list |
| SignalDistribution.CountStep | src/components/charts/SignalDistribution.tsx:16-19 | one step of the `reduce` keeps the tally invariant |
| SignalDistribution.TallySignals | src/components/charts/SignalDistribution.tsx:15-21 | the tally holds the occurring signals in first-occurrence order, each with the number of orders carrying it |
| SignalDistribution.Slices | src/components/charts/SignalDistribution.tsx:23-27 | one slice per distinct signal |
| SignalDistribution.SignalChart | src/components/charts/SignalDistribution.tsx:15-27 | the chart data built from the tally is the specified slice list |
| SignalDistribution.SliceTotalIsCount | src/components/charts/SignalDistribution.tsx:23-25 | the slice values add up to the counts per listed signal |
| SignalDistribution.SlicesCoverOrders | src/components/charts/SignalDistribution.tsx:23-27 | every order's signal has a slice |
| SignalDistribution.SlicesCount | src/components/charts/SignalDistribution.tsx:23-25 | each slice's value is the number of orders with its signal, at least 1 |
| SignalDistribution.SlicesInFirstOccurrenceOrder | src/components/charts/SignalDistribution.tsx:17-23 | the slices name distinct signals, in first-occurrence order |
| SignalDistribution.SlicesTotal | src/components/charts/SignalDistribution.tsx:23-27 | the slice values add up to the number of orders |
| SignalDistribution.SlicesShares | src/components/charts/SignalDistribution.tsx:23-27 | without orders there are no slices, so the "0.0" fallback is never shown; with orders each label renders its slice's share count / total × 100, and the shares of all slices add up to 100 |
| OrdersTable.SortedOrders | src/components/tables/OrdersTable.tsx:31-48 | the sorted copy is a permutation of the orders |
| OrdersTable.NoKeyKeepsOrder | src/components/tables/OrdersTable.tsx:31-32 | without a sort key the order is kept |
| OrdersTable.NumericKeySorts | src/components/tables/OrdersTable.tsx:37-39 | a numeric column sorts the rows by its number, non-decreasing for asc and non-increasing for desc |
| OrdersTable.TotalPages | src/components/tables/OrdersTable.tsx:51 | the fewest pages of the page size that hold all rows |
| OrdersTable.PageRows | src/components/tables/OrdersTable.tsx:52-54 | at most a page of rows; on page p, the rows from (p − 1) · size, in order |
| OrdersTable.RowOnItsPage | src/components/tables/OrdersTable.tsx:52-54 | row i is row i mod size of page i div size + 1, and that page exists |
| OrdersTable.FooterMatchesRows | src/components/tables/OrdersTable.tsx:188 | on a page that exists the footer names the first and last rows shown |
| OrdersTable.NextOnEmptyTableAsWritten | src/components/tables/OrdersTable.tsx:205 | on an empty table the next handler as written moves to page 0, and the footer reads −19 to 0 |
| OrdersTable.NextPage | src/components/tables/OrdersTable.tsx:205 | the next page is at least 1, one more inside the pages, never past the last page, and agrees with the handler as written whenever there is a page and the current page is not negative |
| OrdersTable.PrevPage | src/components/tables/OrdersTable.tsx:194 | never below 1; one less above page 1 |
| OrdersTable.ClicksStayOnPages | src/components/tables/OrdersTable.tsx:194-206 | from a page that exists, no series of clicks leaves the pages |
| OrdersTable.SortAfterClick | src/components/tables/OrdersTable.tsx:56-63 | the clicked column becomes the key; the same column flips the direction; a new one sorts descending |
| OrdersTable.SameColumnTwice | src/components/tables/OrdersTable.tsx:56-63 | clicking the same column twice restores the direction |
| OrdersTable.TableState.constructor | src/components/tables/OrdersTable.tsx:26-28 | page 1, no key, descending |
| OrdersTable.TableState.HandleSort | src/components/tables/OrdersTable.tsx:56-63 | the sort state becomes the one after the click; the page stays |
| OrdersTable.TableState.PrevClick | src/components/tables/OrdersTable.tsx:194 | the page becomes the previous page; the sort state stays; being on a page is kept |
| OrdersTable.TableState.NextClick | src/components/tables/OrdersTable.tsx:205 | corrected handler (see Findings): the page becomes the corrected next page, never below 1; the sort state stays; being on a page is kept |
| OrdersTable.TableState.CurrentRows | src/components/tables/OrdersTable.tsx:54 | the current page of the sorted orders (PageRows of SortedOrders, so RowOnItsPage and FooterMatchesRows apply to it): at most a page of rows, drawn from the orders |
| UseFilters.FilteredOrders | src/hooks/useFilters.ts:30-72 | nothing for no orders; otherwise an order-preserving subsequence holding exactly the orders that pass every test, each as often as in the input |
| UseFilters.DefaultsKeepModerateSpreads | src/hooks/useFilters.ts:18-24 | under the defaults, an order without a negative quantity is kept exactly when its spread lies in [−50, 50] |
| UseFilters.UntrimmedQuery | src/hooks/useFilters.ts:61-62 | the query is not trimmed: " a" misses the song "a", which the search helper finds |
| UseFilters.Merge | src/hooks/useFilters.ts:75-76 | every field comes from the update when it is set, and from the old state otherwise |
| UseFilters.MergeLaws | src/hooks/useFilters.ts:75-76 | an empty update changes nothing; an update applied twice equals it applied once; a later update of a field wins |
| UseFilters.FiltersHook.constructor | src/hooks/useFilters.ts:27 | the state starts at the defaults |
| UseFilters.FiltersHook.UpdateFilters | src/hooks/useFilters.ts:75-77 | the state becomes the merge of the old state and the update |
| UseFilters.FiltersHook.ResetFilters | src/hooks/useFilters.ts:79-81 | the state is back at the defaults |
| CategoryPage.UnseenIsEmpty | src/app/dashboard/category/page.tsx:17-25 | a group not met yet has zero count and zero totals |
| CategoryPage.StatsSnoc | src/app/dashboard/category/page.tsx:26-29 | one more order bumps its own group's counters only |
| CategoryPage.AddStep | src/app/dashboard/category/page.tsx:14-32 | one step of the `reduce` keeps the tally invariant |
| CategoryPage.CountersStep | src/app/dashboard/category/page.tsx:26-29 | after the step every group's counters are those of the longer list |
| CategoryPage.AddNext | src/app/dashboard/category/page.tsx:14-32 | the step on the next order of a prefix |
| CategoryPage.TallyCategories | src/app/dashboard/category/page.tsx:14-32 | the tally holds the groups in first-occurrence order, each with its count and price, spread and yield totals; an empty category counts as "기타" |
| CategoryPage.CategoryChart | src/app/dashboard/category/page.tsx:34-44 | the rows built from the tally are the specified rows |
| CategoryPage.TallyRows | src/app/dashboard/category/page.tsx:34-42 | averaging the tally entries gives the rows of the specification |
| CategoryPage.ListedCategoriesOccur | src/app/dashboard/category/page.tsx:14-32 | every listed group is met by some order |
| CategoryPage.UnsortedFaithful | src/app/dashboard/category/page.tsx:34-42 | every row before sorting summarises its group |
| CategoryPage.SortedFaithful | src/app/dashboard/category/page.tsx:43 | sorting keeps every row faithful |
| CategoryPage.AllPreserved | src/app/dashboard/category/page.tsx:43 | a permutation keeps a property held by every element |
| CategoryPage.RowMeaning | src/app/dashboard/category/page.tsx:36-42 | a row computed from the group's counters summarises the group |
| CategoryPage.RowFromTotals | src/app/dashboard/category/page.tsx:36-42 | each average multiplied by the count gives the total; a count of 0 gives zeros |
| CategoryPage.CategoryRowsSummarise | src/app/dashboard/category/page.tsx:34-44 | every row names a group that occurs, counts its orders (at least 1), and its averages multiplied by the count are the group's price, spread and yield totals |
| CategoryPage.CategoryRowsDescending | src/app/dashboard/category/page.tsx:43 | the rows are in non-increasing order of count |
| CategoryPage.DescendingCounts | src/app/dashboard/category/page.tsx:43 | the sort by count puts counts in non-increasing order |
| CategoryPage.CategoriesListedOnce | src/app/dashboard/category/page.tsx:14-44 | every order's group has a row, and no group has two |
| CategoryPage.RowListed | src/app/dashboard/category/page.tsx:14-44 | every group met has a row |
| CategoryPage.NoDupRows | src/app/dashboard/category/page.tsx:14-44 | the unsorted rows name distinct groups |
| CategoryPage.CountsAddUp | src/app/dashboard/category/page.tsx:17-44 | the row counts add up to the number of orders |
| CategoryPage.UnsortedCountsAddUp | src/app/dashboard/category/page.tsx:17-42 | before sorting, the row counts add up to the number of orders |
| CategoryPage.Share | src/app/dashboard/category/page.tsx:112 | the share times the total is 100 times the count; with no orders the divisor falls back to 1; between 0 and 100 for a count not above the total |
| CategoryPage.WholeShare | src/app/dashboard/category/page.tsx:112 | a group holding all orders has a share of 100 |
| TimePatternPage.StatsSnoc | src/app/dashboard/time-pattern/page.tsx:26-29 | one more order bumps its own hour's counters only |
| TimePatternPage.UnseenIsEmpty | src/app/dashboard/time-pattern/page.tsx:18-25 | an hour not met yet has zero count and totals |
| TimePatternPage.AddStep | src/app/dashboard/time-pattern/page.tsx:14-32 | one step of the `reduce` keeps the tally invariant |
| TimePatternPage.AddNext | src/app/dashboard/time-pattern/page.tsx:14-32 | the step on the next order of a prefix |
| TimePatternPage.TallyHours | src/app/dashboard/time-pattern/page.tsx:14-32 | the tally has a key exactly for the hours some order falls in, each with its count and totals |
| TimePatternPage.HourChart | src/app/dashboard/time-pattern/page.tsx:34-45 | the table built from the tally is the specified 24-row table |
| TimePatternPage.TallyRows | src/app/dashboard/time-pattern/page.tsx:34-45 | looking hours up in the tally gives the rows of the specification |
| TimePatternPage.HourRowsMeaning | src/app/dashboard/time-pattern/page.tsx:34-45 | exactly 24 rows labelled "h시", each counting the orders of hour h, with averages times count equal to the totals, and zeros for an empty hour |
| TimePatternPage.RowAtMeaning | src/app/dashboard/time-pattern/page.tsx:36-44 | the row of one hour, from its counters |
| TimePatternPage.RowAverages | src/app/dashboard/time-pattern/page.tsx:41-42 | each average multiplied by the count gives the total; a count of 0 gives zeros |
| TimePatternPage.HourLabelsDistinct | src/app/dashboard/time-pattern/page.tsx:38 | different hours get different labels |
| TimePatternPage.CountsAddUp | src/app/dashboard/time-pattern/page.tsx:14-45 | the 24 counts and the orders with an unreadable date add up to the number of orders |
| TimePatternPage.AllKeys | src/app/dashboard/time-pattern/page.tsx:16-17 | the 24 hours and the unreadable-date key are every key there is |
| TimePatternPage.BusiestFrom | src/app/dashboard/time-pattern/page.tsx:88-90 | the reduce keeps a row of the table |
| TimePatternPage.BusiestFromIsFirstMaximum | src/app/dashboard/time-pattern/page.tsx:88-90 | the reduce ends on the first row of largest count |
| TimePatternPage.BusiestIsEarliestMaximum | src/app/dashboard/time-pattern/page.tsx:88-90 | the busiest hour has the largest count, and every earlier hour has a smaller one (ties go to the earliest hour) |
| TimePatternPage.PeakCount | src/app/dashboard/time-pattern/page.tsx:97-99 | the largest count, attained by some row |
| TimePatternPage.PeakIsBusiest | src/app/dashboard/time-pattern/page.tsx:88-99 | the peak count is the busiest hour's count |
| TimePatternPage.MeanCountsDatedOrders | src/app/dashboard/time-pattern/page.tsx:105 | the mean per hour multiplied by 24 is the number of orders with a readable date |
| InstantPage.InstantOrders | src/app/dashboard/instant/page.tsx:13-15 | nothing without data; otherwise exactly the orders with absolute spread ≤ 0.5, each as often as in the data, as an order-preserving subsequence, not truncated |
| UndervaluedPage.UndervaluedOrders | src/app/dashboard/undervalued/page.tsx:13-16 | nothing without data; at most 100 orders, all with spread below −5, ascending by spread, drawn from the data, as many as qualify up to 100; a qualifying order left out has no lower spread than any shown |
| LiquidityPage.HighLiquidityOrders | src/app/dashboard/liquidity/page.tsx:13-16 | at most 100 orders, all with score ≥ 70, descending by score, drawn from the data; a qualifying order left out scores no higher than any shown |
| YieldPage.HighYieldOrders | src/app/dashboard/yield/page.tsx:14-24 | nothing without data; at most 100 orders, all with expected yield ≥ 8, drawn from the data, as many as qualify up to 100 |
| YieldPage.YieldCompareAntisymmetric | src/app/dashboard/yield/page.tsx:16-23 | cmp(a, b) = −cmp(b, a) |
| YieldPage.YieldCompareNotTransitive | src/app/dashboard/yield/page.tsx:18-19 | the 0.01 tolerance makes the comparator fail to be a total preorder |
| YieldPage.EqualAdvantageSortsByYield | src/app/dashboard/yield/page.tsx:21-22 | when all advantages are equal the list is sorted by expected yield, non-increasing |
| YieldPage.SameAdvantageCompare | src/app/dashboard/yield/page.tsx:18-22 | orders whose advantages differ by at most the 0.01 tolerance compare by expected yield, the higher yield first |
| ValuePage.ValueScore | src/app/dashboard/value/page.tsx:22-29 | every qualifying order scores above 15.5 |
| ValuePage.ValueOpportunities | src/app/dashboard/value/page.tsx:13-31 | nothing without data; otherwise every qualifying order (spread < −5, liquidity ≥ 40, yield ≥ 5) with its multiplicity, nothing else, by non-increasing score |
| ValuePage.ListedIff | src/app/dashboard/value/page.tsx:14-19 | an order is listed exactly when it is in the data and qualifies |
| Criteria.InstantNotLowSpread | src/lib/constants.ts:35-36 | no order is both an instant match and undervalued |

## Left out

- HTTP is not modelled: the call to the market feed, its timeout, the orders route with its error-status mapping, the `Date` time stamps and the client hooks with their caching. The fetched body is a parameter (`Musicow.Payload`), and clocks and time stamps are parameters.
- Browser storage is not modelled: the persisted filters and the disclaimer flag.
- The DOM, downloads and JSON export are not modelled: `downloadCSV`, `downloadJSON` and the `exportFiltered*` wrappers.
- Rendering is not modelled: JSX, charts, icons and layouts.
- Floating point is not modelled: NaN, the infinities, rounding. Arithmetic is exact over `real`. A JavaScript value that would be NaN is `None` where the source tests for it (the format fallbacks, an unreadable date).
- Locale and library rendering are function parameters, not modelled: `toFixed`, `Intl.NumberFormat`, date-fns, `localeCompare`, `parseFloat`, `Date` parsing and `getHours`.
- Text.ToLower folds ASCII letters only; `toLowerCase` also folds Latin-1, Greek, Cyrillic, full-width and other non-ASCII capitals, which the model leaves as they are. This affects Search.SearchOrders and Search.SearchCaseInsensitive on such text (Hangul has no case, so Korean text is unaffected).
- `Array.prototype.sort` is modelled by one stable insertion sort. For consistent comparators every stable sort yields the same result. Under the yield page's non-transitive comparator, engines may order differently, so no ordering is claimed for that page beyond the equal-advantage case.
- JavaScript lists integer-like object keys first. The category page therefore lists a category named like "12" before the others. The model uses first-occurrence order for every key, and claims no order of its own for the category rows before the sort by count.
- The CSV fallbacks `?? '0.00'` and `?? '0.0'` apply only to a missing number. The metrics are always present numbers, so these branches cannot be reached and are not modelled.
- OrdersTable.TableState.CurrentRows: the page size is a positive natural. A `pageSize` of `Infinity` or of 0 is not modelled.
- OrdersTable.TableState: the current page is not reset when the list of orders shrinks below it. The model keeps the page, as the source does, and its footer lemma is stated only for pages that exist.
- TimePatternPage.CountsAddUp: `getHours` of an unreadable date is NaN. Such orders share one key of their own and appear in no hour, so the counts and the mean are stated net of them.
- TimePatternPage.BusiestRow: `reduce` without an initial value throws on an empty list; the model returns `None` there. The page renders the table only after its isLoading and error guards, so the data is present and the table has 24 rows when this runs; for absent data the model gives `None`.
- TimePatternPage.PeakCount: `Math.max()` of no arguments is −Infinity; the model returns `None` for an empty table.
- CategoryPage.GroupOf: the category is a string field, so only the empty string falls back to "기타". An absent category cannot be expressed.
- Constants.SignalColor: the colour strings are stated only through Constants.SignalColorsDistinct (seven characters starting with `#`, and no two signals share one); the particular hex values carry no further property.
- OrdersTable.TableState.NextClick: runs the corrected NextPage, which never goes below page 1; the source's `Math.min(totalPages, p + 1)` moves an empty table to page 0 (see Findings, where OrdersTable.NextPageAsWritten models that expression).
- Api.Ok, Api.ServerError: the response envelope literals carry no contract of their own; their fields are stated through SummaryRoute.SummaryGet and MomentumRoute.MomentumGet.
- Format.TruncateText: strings are sequences of code points, while JavaScript's `length` and `substring` count UTF-16 code units, so for text with characters outside the Basic Multilingual Plane (emoji) the cut falls at a different place, and the source can split a surrogate pair.
- Search.UniqueCategories: the order is by code point, while JavaScript's default `sort` compares UTF-16 code units; the two differ only when a category holds characters outside the Basic Multilingual Plane.
- Calculator: the shared instance of the stateless class adds nothing and is not modelled.

## Findings

| source | as written | input that shows it | evidently intended | confidence | as-written member | corrected member |
|---|---|---|---|---|---|---|
| src/components/tables/OrdersTable.tsx:205 | the next button sets the page to `Math.min(totalPages, p + 1)`; it is disabled only when `currentPage === totalPages` | an empty table: `totalPages` is 0, page 1 ≠ 0 so the button is enabled, and a click moves to page 0, whose footer reads "−19-0" | the page stays within 1..max(totalPages, 1) | not executed | OrdersTable.NextOnEmptyTableAsWritten | OrdersTable.ClicksStayOnPages |
