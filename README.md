# Forecast Buddy: a verified model of the forecasting core

Forecast Buddy is a single-page forecasting tool. It takes weekly sales by point of sale
(`pdv`) and product (`produto`) and forecasts five weeks ahead, one record per
(week, pdv, product). The Dafny project models the parts of the program that compute
something:

- **`PredictiveModeling.GenerateForecast`** is the modelling screen's `generateForecast`.
  - It groups the history by (pdv, produto), keeping the order in which each key was first
    seen.
  - Per group it takes the mean, the least-squares trend and seasonal factors from the last
    four weeks.
  - For each of the five weeks it projects the trend, clamps the seasonal factor to
    [0.1, 2], marks the result down by 15% and floors it at 1.
  - It then adds a small jitter proportional to the volatility, and sorts by
    (week, pdv, product).
- **`PythonTesting.GenerateOptimizedForecast`** is the testing screen's variant.
  - It drops the clamp and the jitter.
  - It scales by `1 - min(0.3, sd/mean)` and marks down by 25%.
  - The module also holds the screen's WMAPE estimate and its CSV download.
- **`ForecastResults`** is the results screen:
  - the five weekly totals and the top-10 rankings of points of sale and of products;
  - the overall total and the distinct counts;
  - the search and week filter, the week toggle, the 100-row table window and the CSV
    export.
- **`Wizard`** is the page's five-step wizard. The class `App` holds the current step, the
  loaded data and the forecast; it has the forward handlers and `GoBack`. The module also
  defines the progress bar and the header's active and completed marks.

The shared pieces are:
- `Records`: the data types, rounding, min/max and sums;
- `Grouping`: grouping by key in first-seen order;
- `SeriesStats`: mean, least-squares slope, seasonal factors and variance;
- `ForecastOrder` and `ForecastSlots`: the output order, and the record pushed at each
  position;
- `Csv`: decimal integer text, joining and splitting, the export text and its parser.

Modelling choices:
- Arithmetic is on `real`.
- `Math.round(x)` is `floor(x + 0.5)`.
- `Math.random()` is a parameter `rand: nat -> real`, indexed by the number of records
  already pushed.
- `Math.sqrt` is a parameter `sqrt: real -> real`. The lemmas that need it assume it is
  non-negative with `sqrt(0) = 0`, and where noted that it is an exact square root.
- The string keys `${pdv}-${produto}` are modelled as pairs of integers.
- `Array.prototype.sort` with a comparator is a library call, not code of the program. It
  is modelled as a stable insertion sort written as a function. A stable sort by a total
  preorder has only one possible result, so the model's order is the program's.

Two behaviours of the code worth knowing, both modelled as written:
- The testing screen has no guard on the volatility/mean ratio, so a group whose quantities
  are all 0 yields NaN records and a NaN estimate (see Findings).
  `PythonTesting.OptimizedForecastAsWritten` and `PythonTesting.EstimatedWmapeAsWritten`
  follow the code here. `PythonTesting.OptimizedForecast`, and the method
  `GenerateOptimizedForecast` proved equal to it, use the corrected adjustment.
- The code's `|| 1` turns a missing seasonal factor, and also a factor of exactly 0, into 1.
  `PredictiveModeling.FactorForWeek` states this.

## Model

| member | source | states |
|---|---|---|
| Records.Round | src/components/sections/predictive-modeling.tsx:201 | `Math.round` gives an integer within half a unit of its argument |
| Grouping.GroupKeysSpec | src/components/sections/predictive-modeling.tsx:143-162 | the grouping map's keys are exactly the (pdv, produto) pairs present, each once |
| Grouping.SeriesOfLength | src/components/sections/predictive-modeling.tsx:159-161 | every row adds one quantity to its group, absent quantities included, so a grouped key has a non-empty series |
| Grouping.SeriesOfAppend | src/components/sections/predictive-modeling.tsx:145-162 | a group's series over concatenated input is the concatenation of the series |
| Grouping.MissingQuantityAppendsZero | src/components/sections/predictive-modeling.tsx:158-161 | `row.quantidade \|\| 0`: a row without a quantity, at any position, appends 0 to its own group's series |
| SeriesStats.SlopeDenominatorClosedForm | src/components/sections/predictive-modeling.tsx:172-179 | the regression denominator is n²(n²−1)/12: positive for n ≥ 2, zero for n = 1 |
| SeriesStats.XSumClosedForm | src/components/sections/predictive-modeling.tsx:174 | n(n−1)/2 is the sum of the positions 0..n−1 |
| SeriesStats.X2SumClosedForm | src/components/sections/predictive-modeling.tsx:177 | n(n−1)(2n−1)/6 is the sum of the squared positions |
| SeriesStats.SlopeOfLine | src/components/sections/predictive-modeling.tsx:172-180 | the least-squares trend of a series lying on a line a + b·i is exactly b |
| SeriesStats.SlopeOfConstant | src/components/sections/predictive-modeling.tsx:172-180 | a constant series has trend 0 |
| SeriesStats.RecentWeeks | src/components/sections/predictive-modeling.tsx:183 | `slice(-4)` is the last min(4, n) quantities, a suffix of the series |
| SeriesStats.SeasonalFactorsSpec | src/components/sections/predictive-modeling.tsx:183-185 | when the recent mean is positive the factors average to 1; otherwise every factor is 1 |
| SeriesStats.PopVariance | src/components/sections/predictive-modeling.tsx:205 | the population variance is non-negative |
| SeriesStats.ConstantSeries | src/components/sections/predictive-modeling.tsx:169-205 | a constant series has that constant as its mean and zero variance |
| SeriesStats.ZeroVarianceIsConstant | src/components/sections/predictive-modeling.tsx:205 | zero variance holds only for a series equal to its mean everywhere |
| PredictiveModeling.FactorForWeek | src/components/sections/predictive-modeling.tsx:193-194 | the factor used is never 0, and is either 1 or one of the seasonal factors |
| PredictiveModeling.FactorForWeekCycle | src/components/sections/predictive-modeling.tsx:193 | the factors are reused cyclically, with period equal to their number |
| PredictiveModeling.Dampen | src/components/sections/predictive-modeling.tsx:197 | the dampening lies in [0.1, 2.0]; it is the factor itself inside that range and the nearer bound outside it |
| PredictiveModeling.MarkedDown | src/components/sections/predictive-modeling.tsx:198-201 | the marked-down forecast is at least 1, and otherwise the nearest integer to 85% of base × dampening |
| PredictiveModeling.VolatilitySpec | src/components/sections/predictive-modeling.tsx:204-205 | the volatility is non-negative, and 0 for a single observation or a constant series |
| PredictiveModeling.JitterBound | src/components/sections/predictive-modeling.tsx:207 | for a draw in [0, 1) the jitter lies within ±5% of the volatility |
| PredictiveModeling.Jittered | src/components/sections/predictive-modeling.tsx:208 | the result is more than the jittered value minus ½, at most the jittered value plus ½ when that value is at least −½, and 0 exactly when the jittered value is below ½ |
| PredictiveModeling.JitteredStable | src/components/sections/predictive-modeling.tsx:208 | a jitter in [−0.5, 0.5) leaves a non-negative integer unchanged |
| PredictiveModeling.WeekQuantityStable | src/components/sections/predictive-modeling.tsx:201-208 | with volatility below 10 the jitter never changes the result |
| PredictiveModeling.WeekQuantityNearPreJitter | src/components/sections/predictive-modeling.tsx:201-208 | the final quantity is always within 5% of the volatility plus ½ of the pre-jitter value, on both sides |
| PredictiveModeling.ConstantGroupForecast | src/components/sections/predictive-modeling.tsx:165-216 | a group with constant quantity c is forecast as max(1, round(0.85·c)) in every week, whatever the draw |
| PredictiveModeling.EntryStep | src/components/sections/predictive-modeling.tsx:159-161 | taking one row appends its quantity to its own entry and adds it to that entry's total, leaving the other entries unchanged |
| PredictiveModeling.AggregateRowsSpec | src/components/sections/predictive-modeling.tsx:144-162 | folding the rows yields, for every key first seen in order, an entry with that group's series and total |
| PredictiveModeling.AggregateHistory | src/components/sections/predictive-modeling.tsx:144-162 | the `forEach` loop builds the keys in first-seen order and the entry of every group |
| PredictiveModeling.GenerateForecast | src/components/sections/predictive-modeling.tsx:134-228 | the method returns the forecast function's value: absent or empty data gives [], otherwise five records per group, sorted |
| PredictiveModeling.ForecastSize | src/components/sections/predictive-modeling.tsx:136-216 | five records per distinct (pdv, produto); none for absent or empty data |
| PredictiveModeling.ForecastSorted | src/components/sections/predictive-modeling.tsx:210-224 | the output is strictly ordered by (week, pdv, product) and is a permutation of the records pushed |
| PredictiveModeling.ForecastRecordsWellFormed | src/components/sections/predictive-modeling.tsx:188-216 | every record has a week in 1..5, a grouped key, a non-negative quantity, and is that group's week quantity for some draw |
| PredictiveModeling.ForecastCoversSlot | src/components/sections/predictive-modeling.tsx:188-216 | every group gets a record for every week 1..5, with the quantity computed from its own series and draw number |
| ForecastOrder.CompareIsLexicographic | src/components/sections/predictive-modeling.tsx:220-224 | the comparator orders records by week, then pdv, then product |
| ForecastOrder.SortRecordsSpec | src/components/sections/predictive-modeling.tsx:220-224 | the sort's result is ordered and a permutation of its input |
| ForecastOrder.SortRecordsStrict | src/components/sections/predictive-modeling.tsx:220-224 | records with distinct (week, pdv, product) come out strictly ordered |
| ForecastSlots.PushOrderDistinctSlots | src/components/sections/predictive-modeling.tsx:165-216 | with distinct group keys, no two pushed records share (week, pdv, product) |
| ForecastSlots.SortedSlotsMembers | src/components/sections/predictive-modeling.tsx:210-224 | the sorted output holds exactly the records pushed |
| PythonTesting.GroupRowsSpec | src/components/sections/python-testing.tsx:189-200 | the grouping fold gives each group, in first-seen order, its series of quantities |
| PythonTesting.GroupHistory | src/components/sections/python-testing.tsx:189-200 | the `forEach` loop builds the keys in first-seen order and every group's quantities |
| PythonTesting.OptimizedTrendIsSlope | src/components/sections/python-testing.tsx:213-218 | the trend with its `\|\| 0` is the least-squares slope; for one observation the 0/0 falls back to 0 |
| PythonTesting.VolatilityAdjustment | src/components/sections/python-testing.tsx:208-235 | `1 − min(0.3, sd/mean)` is NaN exactly when mean and sd are 0, between 0.7 and 1 for a positive mean, 0.7 when mean 0 makes the ratio infinite, and 1 when sd is 0 |
| PythonTesting.ConservativeQuantity | src/components/sections/python-testing.tsx:238-241 | the result is at least 1, and otherwise the nearest integer to 75% of base × factor × adjustment |
| PythonTesting.AsWrittenAgrees | src/components/sections/python-testing.tsx:203-249 | the code as written yields NaN exactly when mean and sd are 0, and otherwise the corrected quantity |
| PythonTesting.AllZeroGroupIsNaN | src/components/sections/python-testing.tsx:208-241 | a group whose quantities are all 0 gets NaN as written; the corrected quantity is 1 |
| PythonTesting.AsWrittenNaNIffAllZero | src/components/sections/python-testing.tsx:208-241 | with an exact square root, NaN arises exactly for all-zero groups |
| PythonTesting.PositiveMeanAdjustment | src/components/sections/python-testing.tsx:235-241 | for a positive mean the adjustment lies in [0.7, 1] and the code as written agrees with the corrected one |
| PythonTesting.CorrectedAdjustment | src/components/sections/python-testing.tsx:208-235 | the corrected adjustment equals the one written wherever that is defined, and is 1 where it is NaN |
| PythonTesting.OptimizedWeekQuantity | src/components/sections/python-testing.tsx:226-241 | the corrected quantity of a week is at least 1 |
| PythonTesting.ConstantGroupOptimized | src/components/sections/python-testing.tsx:203-241 | a group with constant positive quantity c is forecast as max(1, round(0.75·c)) |
| PythonTesting.GenerateOptimizedForecast | src/components/sections/python-testing.tsx:183-257 | the method's loops compute the corrected forecast function's value |
| PythonTesting.OptimizedForecastSize | src/components/sections/python-testing.tsx:186-250 | five records per distinct (pdv, produto); none for absent or empty data |
| PythonTesting.OptimizedForecastSorted | src/components/sections/python-testing.tsx:243-256 | strictly ordered by (week, pdv, product), and a permutation of the records pushed |
| PythonTesting.OptimizedRecordsWellFormed | src/components/sections/python-testing.tsx:226-249 | every record has a week in 1..5, a grouped key, and quantity ≥ 1 equal to its group's week quantity |
| PythonTesting.OptimizedCoversSlot | src/components/sections/python-testing.tsx:226-249 | every group gets all five weeks |
| PythonTesting.EstimatedWmape | src/components/sections/python-testing.tsx:259-261 | absent or empty data, or an empty forecast, gives 1.0 |
| PythonTesting.WmapeBounds | src/components/sections/python-testing.tsx:264-271 | with a positive historical mean the estimate lies in [0.3, 0.9] |
| PythonTesting.WmapeOfMatchingMeans | src/components/sections/python-testing.tsx:264-271 | equal historical and forecast means give the floor 0.3 |
| PythonTesting.WmapeDefined | src/components/sections/python-testing.tsx:259-271 | whenever every forecast quantity is at least 1 the estimate is a number, at most 1 |
| PythonTesting.WmapeOfOptimizedForecast | src/components/sections/python-testing.tsx:259-271 | the estimate of the corrected forecast is never NaN |
| PythonTesting.InsertWritten | src/components/sections/python-testing.tsx:252-256 | the sort's stable insertion on the source's records adds one record; what it orders by is stated through `SortWrittenCommutes` |
| PythonTesting.WrittenPushOrder | src/components/sections/python-testing.tsx:203-249 | the loops push five records per grouped key; which record sits in each slot is stated by `WrittenPushOrderIsMapped` |
| PythonTesting.SortWrittenCommutes | src/components/sections/python-testing.tsx:252-256 | the comparator never reads a quantity, so sorting the source's records gives the sorted corrected records with the source's quantities |
| PythonTesting.WrittenPushOrderIsMapped | src/components/sections/python-testing.tsx:203-249 | the source's push order is the corrected push order, slot by slot, with the source's quantities |
| PythonTesting.AsWrittenIsMapped | src/components/sections/python-testing.tsx:183-257 | the generator as written (pushed records, then the sort) is the corrected forecast with the source's quantity in each slot |
| PythonTesting.AsWrittenSorted | src/components/sections/python-testing.tsx:183-257 | the generator as written gives five records per distinct key, strictly ascending by (semana, pdv, produto) |
| PythonTesting.AsWrittenRecordAgrees | src/components/sections/python-testing.tsx:235-249 | a written record has its slot's week and ids; its quantity is NaN iff the group's mean and deviation are 0, and otherwise the corrected quantity |
| PythonTesting.AsWrittenForecastAgrees | src/components/sections/python-testing.tsx:183-257 | position by position, the written forecast has the corrected one's slots, and its quantity is NaN exactly for groups with zero mean and deviation |
| PythonTesting.AllZeroGroupForecastIsNaN | src/components/sections/python-testing.tsx:208-249 | as written, a group whose quantities are all 0 gets a NaN record for each of the five weeks |
| PythonTesting.AsWrittenWithPositiveMeans | src/components/sections/python-testing.tsx:183-257 | when every group has a positive mean, the written generator's records are the corrected ones, all numbers |
| PythonTesting.Defined | src/components/sections/python-testing.tsx:264 | the forecast mean is a number only when every quantity is; the numbers are the records' quantities |
| PythonTesting.EstimatedWmapeAsWritten | src/components/sections/python-testing.tsx:259-271 | absent or empty data or forecast give 1.0; otherwise one NaN quantity makes the estimate NaN |
| PythonTesting.AllZeroGroupWmapeIsNaN | src/components/sections/python-testing.tsx:259-271 | as written, one all-zero group makes the estimate of the generator's own forecast NaN |
| PythonTesting.SingleZeroRowIsNaN | src/components/sections/python-testing.tsx:208-271 | the one-row history `{pdv: 1, produto: 1, quantidade: 0}` gets five NaN records and a NaN estimate |
| PythonTesting.WmapeAsWrittenWithPositiveMeans | src/components/sections/python-testing.tsx:259-271 | when every group has a positive mean, the estimate as written equals the corrected forecast's |
| PythonTesting.DownloadRoundTrip | src/components/sections/python-testing.tsx:274-280 | the download text exists iff there are results; it reads back as those results, one line each after the header |
| Csv.IntToStringRoundTrip | src/components/sections/python-testing.tsx:279 | an integer written by a template literal reads back as that integer |
| Csv.NatToStringCanonical | src/components/sections/python-testing.tsx:279 | the written digits have no leading zero except in "0" |
| Csv.RecordLineRoundTrip | src/components/sections/forecast-results.tsx:98-100 | a `semana;pdv;produto;quantidade` line reads back as its record |
| Csv.SplitJoin | src/components/sections/forecast-results.tsx:96-101 | joining pieces free of the separator and splitting gives the pieces back |
| Csv.ExportCsvLines | src/components/sections/forecast-results.tsx:95-101 | the export is the header line followed by one line per record, in order |
| Csv.ExportCsvRoundTrip | src/components/sections/forecast-results.tsx:95-101 | the export reads back as the records it was written from |
| Csv.ExportCsvEmpty | src/components/sections/forecast-results.tsx:95-101 | an empty forecast exports the header alone |
| Csv.DownloadCsv | src/components/sections/python-testing.tsx:274-280 | nothing is downloaded exactly when there are no results |
| Csv.DownloadIsExport | src/components/sections/python-testing.tsx:274-280 | a non-empty download is the same text as the results screen's export |
| ForecastResults.ItemsOfWeek | src/components/sections/forecast-results.tsx:55 | the week filter keeps only items of that week |
| ForecastResults.ItemsOfWeekMembers | src/components/sections/forecast-results.tsx:55 | an item is kept iff it is in the forecast and of that week |
| ForecastResults.WeeklyTotals | src/components/sections/forecast-results.tsx:52-59 | exactly five entries, the i-th for week i + 1 |
| ForecastResults.WeekCountsSpec | src/components/sections/forecast-results.tsx:57-58 | a value is counted for a week iff some item of that week carries it |
| ForecastResults.TotalIsSumOfWeeks | src/components/sections/forecast-results.tsx:52-83 | when every week is in 1..5 the total quantity is the sum of the five weekly quantities |
| ForecastResults.TotalIsSumOfWeeklyTotals | src/components/sections/forecast-results.tsx:52-83 | the same, read off the `weeklyTotals` entries |
| ForecastResults.UniqueCount | src/components/sections/forecast-results.tsx:84-85 | a distinct count is at most the number of items, and 0 only for no items |
| ForecastResults.FieldSetMembers | src/components/sections/forecast-results.tsx:84-85 | a value is in the set iff some item carries it |
| ForecastResults.AccumulateSpec | src/components/sections/forecast-results.tsx:62-66 | the accumulator has a key for each value present, and holds that value's total quantity |
| ForecastResults.EnumerationOrderSpec | src/components/sections/forecast-results.tsx:61-67 | `Object.entries` lists each key once: array-index keys first, ascending, then the rest |
| ForecastResults.EntriesSpec | src/components/sections/forecast-results.tsx:61-67 | one entry per distinct value, no id twice, each with that value's total |
| ForecastResults.RankingSpec | src/components/sections/forecast-results.tsx:68-69 | sort then slice: min(10, n) entries by non-increasing total; an entry left out is no larger than any listed |
| ForecastResults.TopSpec | src/components/sections/forecast-results.tsx:61-81 | `topPdvs`/`topProducts` list min(10, distinct) values by non-increasing total, each once, with its own sum; no value left out outsells a listed one |
| ForecastResults.FilteredDataIsSubsequence | src/components/sections/forecast-results.tsx:87-93 | the filter keeps items in their order |
| ForecastResults.FilteredDataMembers | src/components/sections/forecast-results.tsx:87-93 | an item is kept iff it matches both the search and the week |
| ForecastResults.FilteredDataUnfiltered | src/components/sections/forecast-results.tsx:87-93 | an empty search and no week keep everything |
| ForecastResults.FilteredDataOfWeek | src/components/sections/forecast-results.tsx:91 | with a week selected, every kept item is of that week |
| ForecastResults.ToggleWeek | src/components/sections/forecast-results.tsx:297 | clicking the selected week clears the selection; any other click selects that week |
| ForecastResults.VisibleRows | src/components/sections/forecast-results.tsx:317 | the table shows the first min(100, n) filtered rows |
| ForecastResults.TableWindowSpec | src/components/sections/forecast-results.tsx:317-335 | the "first 100" note appears iff the table does not show every row |
| ForecastResults.ExportToCsvSpec | src/components/sections/forecast-results.tsx:95-101 | the export reads back as the forecast, with one line more than records; no forecast exports the header alone |
| Wizard.IndexOf | src/pages/Index.tsx:51 | `indexOf` is −1 iff absent, and otherwise the first position of the element |
| Wizard.StepIndex | src/pages/Index.tsx:27 | every step is found, at its place in the order |
| Wizard.Progress | src/pages/Index.tsx:28-29 | progress is 20, 40, 60, 80 or 100, and 100 only at the results |
| Wizard.ProgressMonotone | src/pages/Index.tsx:28-29 | a later step has strictly more progress |
| Wizard.PreviousStep | src/pages/Index.tsx:49-55 | back from upload stays at upload; from any other step it moves one place back |
| Wizard.PreviousStepProgress | src/pages/Index.tsx:49-55 | going back takes 20 from the progress |
| Wizard.HeaderMarks | src/pages/Index.tsx:85-86 | exactly the current step is active; a step is completed iff it comes before the current one |
| Wizard.BackButtonMoves | src/pages/Index.tsx:49-64 | the back button is shown iff pressing it changes the step |
| Wizard.App.constructor | src/pages/Index.tsx:15-17 | the page starts at upload with no data and an empty forecast |
| Wizard.App.HandleDataLoaded | src/pages/Index.tsx:31-34 | stores the data and moves to the analysis; the forecast is unchanged |
| Wizard.App.HandleStartModeling | src/pages/Index.tsx:36-38 | moves to the modelling step, nothing else changes |
| Wizard.App.HandleStartPythonTesting | src/pages/Index.tsx:40-42 | moves to the testing step, nothing else changes |
| Wizard.App.HandleForecastGenerated | src/pages/Index.tsx:44-47 | stores the forecast and moves to the results; the data is unchanged |
| Wizard.App.GoBack | src/pages/Index.tsx:49-55 | moves to the previous step, or stays at upload; the data and forecast are unchanged |
| Wizard.OneSectionAtATime | src/pages/Index.tsx:118-146 | at most one section is rendered, the current step's |
| Wizard.ForecastThenBack | src/pages/Index.tsx:44-55 | after a forecast, going back always lands on the testing step |
| Wizard.ForwardPath | src/pages/Index.tsx:31-47 | load, model and generate leads to a rendered results section iff the forecast is not empty |

## Left out

- IEEE-754 arithmetic is mostly not modelled. The model uses exact reals, so the rounding of
  `0.85`, `0.75` or the progress division is not captured. NaN is modelled only where the
  code produces it, in the testing screen's 0/0 volatility, as an `Option`.
- PythonTesting.OptimizedTrend: the `|| 0` fallback meets a 0/0 only for a single
  observation. The model returns 0 there without dividing; `OptimizedTrendIsSlope` states
  that both sums are 0 in that case.
- PredictiveModeling.GenerateForecast and PythonTesting.GenerateOptimizedForecast: the
  `length === 0` guard in the per-group loop can never fire, because every group has a row.
  The model has no branch for it.
- `Math.random()` and `Math.sqrt` are parameters. Nothing about a pseudo-random
  generator's actual sequence is modelled.
- The string keys `${pdv}-${produto}` are modelled as integer pairs. This matches the code
  for the integer identifiers the data carries.
- `Csv.IntToString` writes integers in positional decimal. JavaScript switches to exponent
  notation from 10^21 upward; that notation is not modelled.
- ForecastResults.TopSpec: the ranking's ids are integers. The code yields the string keys
  of `Object.entries`, and that conversion is not modelled. Ties in the total keep the
  `Object.entries` order; the definition follows that order, but no lemma states it.
- ForecastResults.MatchesWeek: a selected week of 0 is falsy and filters nothing. The toggle
  only ever selects 1..5.
- ForecastResults.MatchesSearch: `includes` is modelled as an exact substring test on the
  decimal text of the ids. Nothing else about JavaScript strings is modelled.
- The simulated training in `trainModel` (src/components/sections/predictive-modeling.tsx:70-132)
  is left out. It is a timer animation with fixed metrics that never changes the algorithm.
- The embedded Python source string of the testing screen, `runPythonCode`'s timer and its
  output text are left out. They are display text that is never run.
- Blob, URL and DOM download plumbing, toasts, charts and all JSX layout are presentation
  and are left out. Of the downloads, only the text is modelled.
- src/components/sections/data-upload.tsx, src/components/sections/data-analysis.tsx,
  src/components/ui/file-upload.tsx, src/components/ui/stats-card.tsx and
  src/components/ui/gradient-card.tsx are not part of this model. They hold mock data, file
  picking and display formatting.
- PythonTesting.GenerateOptimizedForecast: the method computes the corrected forecast, with
  `CorrectedAdjustment` in place of the code's adjustment. As written, an all-zero group gets
  NaN records. That output is `OptimizedForecastAsWritten`: the push order and the sort as
  functions, not loops.
- OptimizedRecordsWellFormed: "quantity at least 1" is stated for the corrected forecast. As
  written, an all-zero group's records are NaN (`AllZeroGroupForecastIsNaN`).
- WmapeOfOptimizedForecast: "never NaN" is stated for the corrected forecast. As written, an
  all-zero group makes the estimate NaN (`AllZeroGroupWmapeIsNaN`), because `Math.min(0.9, NaN)`
  is NaN.
- Csv.DownloadCsv and the ForecastResults functions take records with integer quantities. As
  written, the testing screen's NaN records also reach its download, where `${NaN}` writes
  the text "NaN" (src/components/sections/python-testing.tsx:274-280). Through
  `useForecastResults` (src/components/sections/python-testing.tsx:293-297) they also reach
  the results screen, where the totals become NaN and `b[1] - a[1]` is NaN inside the
  ranking's sort. These screens are modelled for integer quantities only.
- The upload screen passes the page a summary object, not an array of rows
  (src/components/sections/data-upload.tsx:35-52). Its `length` is undefined, so with that
  screen both generators return `[]` and the estimate is 1.0. The model takes the data as a
  sequence of rows, the shape the generators read, and cannot express a non-array value.
- Wizard.App: `processedData` is typed `any` in the code. It is modelled as an optional
  sequence of history rows; the only thing the page tests about it is whether it is set.

## Findings

| source | as written | input that shows it | evidently intended | confidence | as-written member | corrected member |
|---|---|---|---|---|---|---|
| src/components/sections/python-testing.tsx:208-271 | `volatility = Math.sqrt(variance) / mean` has no guard, so a group whose quantities are all 0 has 0/0 = NaN. `Math.min(0.3, NaN)` and then `Math.max(1, Math.round(NaN))` carry it into the record's `quantidade`, and the forecast mean carries it into the WMAPE estimate. | history rows `{pdv: 1, produto: 1, quantidade: 0}` (or a missing quantity) only: every one of the five records gets quantity NaN, and so does the estimate | a neutral default for the volatility/mean ratio: a NaN ratio counts as 0, the adjustment is 1 and the record gets the floor quantity 1 | not executed | PythonTesting.SingleZeroRowIsNaN | PythonTesting.OptimizedWeekQuantity |
