# Premier League match statistics: a Dafny model of the statistics pipeline

This project models the part of the premier-league-match-stats report that
computes things. The report loads a season of match records. It gives every
match its total goals and adds up the season's counters. It then computes
descriptive statistics (mean, median, mode and quartiles) for home, away and
total goals, frequency tables and result percentages. Finally it prepares
three chart series (a histogram, a cumulative curve and a result pie).

The project has four modules, one per source file plus a shared helper module:

- `Sequences` (`sequences.dfy`) holds the helpers the source gets from the JavaScript runtime:
  - sums, and counts through multisets;
  - `SortSeq`, the ascending sort the source obtains from `Array.prototype.sort` with `(a, b) => a - b`, with uniqueness of a sorted permutation;
  - `SortedKeys`, the ascending key order an object with integer keys enumerates in;
  - running totals.
- `Stats` (`statistics.dfy`) models `utils/statistics.ts`: the `MatchData` record, mean, median, mode, quartiles, the frequency and cumulative distributions, and the full-time-result (FTR) distribution.
- `Page` (`page.dfy`) models the non-UI helpers of `app/page.tsx`:
  - `calculateStats`, which sorts the caller's array in place;
  - `performAnalysis`;
  - the three chart-series builders.
- `DataService` (`dataservice.dfy`) models the aggregation pass of `services/dataService.ts`.

JavaScript values are represented as follows:

- `NaN` (for example `0 / 0`, or the mean of an empty array) is the `NaN` case of `Number`. Every other result is a `Real`.
- `undefined` (`sorted[i]` past the end) is `None`.
- A dictionary built with `countBy` or a `forEach` loop is a `map<int, nat>`. Its enumeration order is `SortedKeys`.

Where the source changes state step by step, the model does too:

- The counting loop of `calculateMode` and `calculateFrequencyDistribution` is a method with invariants.
- So are the running-total loops of `calculateCumulativeFrequency` and `createCumulativeData`.
- So is the counter loop of the loader.
- `calculateStats` is a method that sorts an `array<int>` in place.

Each such method is proved equal to a function. The properties the source relies on are proved as lemmas about those functions.

The page and the library use two different quartile rules:

- `calculateStats` takes `sorted[floor(n/4)]` and `sorted[floor(3n/4)]`.
- `calculateQuartiles` takes the medians of the lower and upper halves.

Both are modelled. `IndexQuartilesOfFour` and `SplitQuartilesOfFour` give each rule's values on four ascending numbers a <= b <= c <= d. `QuartileRulesDisagree` proves that the rules differ whenever a < b (for Q1) or c < d (for Q3). `QuartileRulesOnOneToFour` gives the values on [1, 2, 3, 4]: q1 = 2 against Q1 = 1.5, and q3 = 4 against Q3 = 3.5.

## Model

| member | source | states |
|---|---|---|
| Sequences.SortSeq | utils/statistics.ts:48 | the sorted copy is ascending, a permutation of the input (same multiset) and of the same length |
| Sequences.Insert | utils/statistics.ts:48 | inserting a value into an ascending list gives an ascending list with one more element, that value |
| Sequences.SortedUnique | utils/statistics.ts:48 | two ascending lists with the same multiset of values are equal, so the sorted result does not depend on the algorithm |
| Sequences.SortedBounds | utils/statistics.ts:48 | every value of an ascending list lies between its first and its last element |
| Sequences.SortDependsOnMultiset | utils/statistics.ts:48 | inputs with equal multisets sort to the same list |
| Sequences.SortOfSorted | utils/statistics.ts:66-67 | sorting an ascending list leaves it unchanged (the re-sort inside calculateMedian) |
| Sequences.SortedKeys | utils/statistics.ts:85-90 | the keys in ascending order: exactly the keys of the table, each once, strictly increasing |
| Sequences.Sum | utils/statistics.ts:44 | reduce((acc, val) => acc + val, 0): the total of the values, added one at a time (order independence is Sequences.SumPermutation) |
| Sequences.SumPermutation | utils/statistics.ts:44 | the sum of the values does not depend on their order |
| Sequences.RemoveAt | utils/statistics.ts:44 | taking out one element removes it from the multiset of values and its value from the sum |
| Sequences.RunningTotalsNondecreasing | utils/statistics.ts:93-99 | running totals of non-negative counts never decrease |
| Sequences.CountsSumToLength | utils/statistics.ts:79-91 | the counts of a strictly increasing list of keys covering the data add up to the number of observations |
| Stats.CountCode | utils/statistics.ts:104-106 | the number of matches with a result code is at most the number of matches |
| Stats.CodeCountsPartition | utils/statistics.ts:101-107 | the H, D and A counts add up to the number of matches |
| Stats.Percentage | utils/statistics.ts:110-112 | (count / total) * 100: NaN exactly when total is 0; otherwise value * total = count * 100 and the value lies in 0..100 |
| Stats.PercentagesOfPartition | utils/statistics.ts:109-113 | three percentages of counts that add up to a non-zero total add up to 100 |
| Stats.CalculateMean | utils/statistics.ts:43-45 | NaN exactly for empty data; otherwise mean * n equals the sum of the data |
| Stats.CalculateMedian | utils/statistics.ts:47-51 | a number exactly when the data are non-empty (NaN for an empty array) |
| Stats.MedianOfSorted | utils/statistics.ts:49-50 | the odd/even rule on a non-empty ascending list: the middle element for odd n, the midpoint of the two middle elements for even n (bounded by Stats.MedianOfSortedBounds) |
| Stats.MedianOfSortedBounds | utils/statistics.ts:49-50 | the median of an ascending list lies between its two central elements |
| Stats.SortedEnds | utils/statistics.ts:48 | the ends of the sorted copy are the least and the greatest value of the data |
| Stats.MedianWithinRange | utils/statistics.ts:47-51 | the median lies between the least and the greatest value of the data |
| Stats.MedianDependsOnlyOnValues | utils/statistics.ts:47-51 | reordering the input does not change the median |
| Stats.CalculateQuartiles | utils/statistics.ts:65-77 | the three quartiles of the sorted copy; Q2 is a number exactly for non-empty data, Q1 and Q3 exactly from two values on (before that a half is empty and its median NaN) |
| Stats.QuartilesOfSorted | utils/statistics.ts:67-76 | the medians of sorted[..floor(n/2)], sorted and sorted[ceil(n/2)..], with the same NaN cases by length |
| Stats.QuartileTwoIsMedian | utils/statistics.ts:65-67 | Q2 equals calculateMedian of the data |
| Stats.QuartilesOfSingleton | utils/statistics.ts:69-76 | with one value both halves are empty: Q1 and Q3 are NaN, Q2 is the value |
| Stats.LowerHalfMedian | utils/statistics.ts:69-73 | the median of the first floor(n/2) sorted values is at most the median |
| Stats.UpperHalfMedian | utils/statistics.ts:70-75 | the median of the sorted values from index ceil(n/2) is at least the median |
| Stats.MedianOfAscending | utils/statistics.ts:47-51 | on an ascending non-empty list calculateMedian is the middle element, or the midpoint of the two middle elements |
| Stats.SortedQuartilesOrdered | utils/statistics.ts:65-77 | on an ascending list of two or more values the half-median quartiles are numbers with Q1 <= Q2 <= Q3 |
| Stats.QuartilesOrdered | utils/statistics.ts:65-77 | with two or more values Q1, Q2 and Q3 are numbers and Q1 <= Q2 <= Q3 |
| Stats.CountTable | utils/statistics.ts:54-57 | a value is a key exactly when it occurs, and its entry is its multiplicity |
| Stats.CountTableAdd | utils/statistics.ts:55-57 | one more occurrence of a value raises its entry by one, starting from 0 when it was absent, and leaves the other entries alone |
| Stats.FrequencyTable | utils/statistics.ts:54-57 | the frequency dictionary has exactly the values of the data as keys, each mapped to its count (at least 1) |
| Stats.DistinctValues | utils/statistics.ts:60 | the keys of the frequency dictionary in enumeration order: strictly increasing, exactly the values of the data |
| Stats.CountValues | utils/statistics.ts:54-57 | the forEach loop yields exactly the frequency table of the data |
| Stats.MaxCount | utils/statistics.ts:59 | Math.max of the counts: no count exceeds it and, for a non-empty key list, some key reaches it |
| Stats.MaxOfEqualCounts | utils/statistics.ts:59 | when every key has the same count, Math.max of the counts is that count |
| Stats.KeysWithCount | utils/statistics.ts:60-62 | the filter keeps exactly the keys whose count is the given one, in their order |
| Stats.ModeValues | utils/statistics.ts:59-62 | the keys of the frequency table, in ascending order, whose count equals the largest count (its properties are those of Stats.ModeValuesAreTheModes) |
| Stats.ModeValuesAreTheModes | utils/statistics.ts:53-63 | the mode list is strictly increasing, holds exactly the values no other value outnumbers, and is non-empty for non-empty data |
| Stats.CalculateMode | utils/statistics.ts:53-63 | calculateMode returns the mode list: ascending, exactly the values of maximal frequency, non-empty for non-empty data |
| Stats.DistinctValueCounts | utils/statistics.ts:79-91 | each distinct value is counted at least once and the counts add up to the number of observations |
| Stats.DistinctValuesAsManyAsData | utils/statistics.ts:54-60 | there are at most as many distinct values as observations, and as many exactly when every value occurs once |
| Stats.ModeCountMatchesLengthIffDistinct | app/page.tsx:36-41 | the mode list is as long as the data exactly when every value occurs once |
| Stats.Frequencies | utils/statistics.ts:93-96 | the frequency column of a distribution, entry by entry, all non-negative |
| Stats.FrequencyDistribution | utils/statistics.ts:79-91 | one entry per distinct value, in ascending order, carrying that value's count |
| Stats.EntriesOf | utils/statistics.ts:84-90 | one entry per key, in the order of the keys, carrying the key's table entry |
| Stats.FrequencyDistributionSound | utils/statistics.ts:79-91 | entries strictly ascending by value, each frequency the value's count (at least 1) |
| Stats.FrequencyDistributionComplete | utils/statistics.ts:79-91 | a value has an entry exactly when it occurs in the data |
| Stats.FrequenciesSumToLength | utils/statistics.ts:79-91 | the frequencies add up to the number of observations |
| Stats.CalculateFrequencyDistribution | utils/statistics.ts:79-91 | the counting loop followed by the sort yields FrequencyDistribution, whose frequencies add up to n |
| Stats.CalculateCumulativeFrequency | utils/statistics.ts:93-99 | same length and value column; entry i is the sum of the first i+1 frequencies |
| Stats.CumulativeFrequencyOfData | utils/statistics.ts:93-99 | the cumulative column never decreases and, for non-empty data, ends at the number of observations |
| Stats.CalculateFTRDistribution | utils/statistics.ts:101-114 | three entries Home Win, Draw and Away Win, with the H, D and A counts and each count's percentage of all matches |
| Stats.FTRDistributionTotals | utils/statistics.ts:101-114 | the three counts add up to the number of matches; the percentages add up to 100, or are all NaN without matches |
| Stats.HomeGoalsOf | app/page.tsx:53 | matchData.map(m => m.HomeGoals): one entry per match, in order |
| Stats.AwayGoalsOf | app/page.tsx:54 | matchData.map(m => m.AwayGoals): one entry per match, in order |
| Stats.TotalGoalsOf | app/page.tsx:55 | matchData.map(m => m.TotalGoals), for records that carry their total |
| Page.SortInPlace | app/page.tsx:29 | after the in-place sort the array holds the sorted permutation of its old contents |
| Page.InsertNext | app/page.tsx:29 | one insertion step: an ascending prefix of length i grows to length i+1 and the array keeps its elements |
| Page.SiftDown | app/page.tsx:29 | the inner loop of the insertion step: the first i+1 elements end ascending with the same multiset, and later elements are untouched |
| Page.SiftStep | app/page.tsx:29 | one pass of the inner loop exchanges a[j-1] and a[j] and leaves every other element alone; the loop's ordering invariant moves one place down and the prefix keeps its elements |
| Page.Swap | app/page.tsx:29 | exchanging two elements of a prefix keeps the prefix's multiset and every other element |
| Page.MedianOfSortedArray | app/page.tsx:33 | the page's median expression over the sorted array: NaN exactly when the array is empty, as (undefined + undefined) / 2 is |
| Page.ModeReportOf | app/page.tsx:36-41 | "No mode" when the mode list is as long as the values, otherwise the mode list (its meaning is proved in Page.PageModePolicy) |
| Page.ElementAt | app/page.tsx:46-47 | sorted[index]: the element when the index is in range, undefined past the end |
| Page.IndexQ1 | app/page.tsx:44-46 | sorted[floor(n/4)]: undefined exactly for the empty array (Page.PageQuartilesBracketMedian shows it is otherwise a data value) |
| Page.IndexQ3 | app/page.tsx:45-47 | sorted[floor(3n/4)]: undefined exactly for the empty array (Page.PageQuartilesBracketMedian shows it is otherwise a data value) |
| Page.StatsOfSorted | app/page.tsx:32-49 | the record calculateStats returns, from the sorted array: mean, median, mode report, q1 and q3 (its properties are proved in the Page lemmas that follow) |
| Page.CalculateStats | app/page.tsx:28-50 | the array is left sorted (a permutation of its old contents) and the statistics are those of the sorted values |
| Page.PageMeanIsMean | app/page.tsx:32 | the page's mean (of the sorted array) equals the mean of the data in their original order |
| Page.PageMedianIsMedian | app/page.tsx:33 | the page's median expression equals calculateMedian of the data |
| Page.PageQuartilesBracketMedian | app/page.tsx:44-47 | for empty data q1, q3 are undefined and the median NaN; otherwise q1 and q3 are values of the data and q1 <= median <= q3 |
| Page.IndexQuartilesBracketMedian | app/page.tsx:44-47 | on a non-empty ascending list both indices are in bounds and sorted[floor(n/4)] <= median <= sorted[floor(3n/4)] |
| Page.PageModePolicy | app/page.tsx:35-41 | "No mode" exactly when every value occurs once; otherwise the reported list is the mode list of the data |
| Page.IndexQuartilesOfFour | app/page.tsx:44-47 | on four ascending values a, b, c, d the page gives q1 = b and q3 = d |
| Page.SplitQuartilesOfFour | utils/statistics.ts:65-77 | on the same four values the library gives Q1 = (a+b)/2 and Q3 = (c+d)/2 |
| Page.QuartileRulesDisagree | app/page.tsx:44-47 | on four ascending values with a < b the page's q1 is b while the library's Q1 is a number below b, and with c < d the page's q3 is d while the library's Q3 is below d |
| Page.QuartileRulesOnOneToFour | app/page.tsx:44-47 | on [1, 2, 3, 4] the page gives q1 = 2 and q3 = 4, the library Q1 = 1.5 and Q3 = 3.5 |
| Page.MedianOfSortedPair | utils/statistics.ts:47-51 | the median of two ascending values is their midpoint |
| Page.FtrFrequency | app/page.tsx:65 | _.countBy(matchData, "FTR"): a code is a key exactly when some match has it, mapped to its count |
| Page.CountOrZero | app/page.tsx:69-71 | ftrFreq.X with the logical-or default 0: the code's count when the code is a key, 0 otherwise |
| Page.AnalysisOf | app/page.tsx:52-86 | the record setAnalysis stores: the statistics of each sorted goal column, the three count maps, the code counts, the three percentages and the match count |
| Page.PerformAnalysis | app/page.tsx:52-86 | the analysis record is AnalysisOf(matchData): stats of each sorted goal column, count maps, code counts, percentages and the match count |
| Page.NewColumn | app/page.tsx:53-55 | matchData.map(...) yields a fresh array holding exactly the goal column, so sorting it in place leaves the caller's records untouched |
| Page.AnalyseColumn | app/page.tsx:53-64 | one goal column: the stats of its sorted copy and its count map, the same as the count map of the unsorted column |
| Page.FrequencyTableOfPermutation | app/page.tsx:62-64 | _.countBy of the sorted column equals _.countBy of the original column |
| Page.AnalysisGoalCounts | app/page.tsx:62-64 | each of the three goal maps holds exactly the values of its column, each with its count |
| Page.AnalysisCounts | app/page.tsx:65-73 | the match count is the number of matches; each code's count (0 when absent) and its percentage are those of the matches |
| Page.AnalysisPercentagesTotal | app/page.tsx:68-73 | with at least one match the three result percentages add up to 100 |
| Page.CreateHistogramData | app/page.tsx:88-92 | one bar per key of the count map, strictly ascending by goals, each carrying its key's count, and every key present |
| Page.BarsOfKeys | app/page.tsx:89-91 | one bar per key, in the order of the keys, carrying the key's count |
| Page.BarsCoverKeys | app/page.tsx:89-91 | every key of the count map has a bar when the key list holds every key |
| Page.BarCounts | app/page.tsx:100-101 | the count column of the bars, entry by entry, non-negative |
| Page.CreateCumulativeData | app/page.tsx:94-104 | the histogram's goals column, with entry i the running total of the first i+1 counts |
| Page.AccumulateBars | app/page.tsx:99-103 | the map loop over the bars: same goals, running totals of the counts |
| Page.BarCountsOfKeys | app/page.tsx:89-91 | bars drawn from a table of occurrence counts carry those counts, key by key |
| Page.HistogramOfTable | app/page.tsx:88-92 | the histogram of a column's count map has as its count column the counts of the distinct values in ascending order |
| Page.CumulativeDataTotals | app/page.tsx:94-104 | the cumulative curve of a column's count map never decreases and its counts add up to the number of observations |
| Page.CreatePieData | app/page.tsx:106-113 | no slices before an analysis exists; afterwards Home Win, Draw and Away Win with the code counts (0 when absent) |
| Page.PieSlicesCoverAllMatches | app/page.tsx:106-113 | the three pie slices of an analysis add up to the number of matches |
| DataService.WithTotal | services/dataService.ts:56-59 | the processed record carries TotalGoals = HomeGoals + AwayGoals and every other field unchanged |
| DataService.MatchGoals | services/dataService.ts:50 | one per-match goal total (home plus away) per record, in order |
| DataService.SummariseMatches | services/dataService.ts:41-60 | each counter is its total over all matches; processedData is the records with their totals; goals = home + away goals and draws + home wins + away wins = matches |
| DataService.AddMatch | services/dataService.ts:50-55 | one pass of the loop body: the match's goals are added to the three goal counters and one is added to the counter of its result code |
| DataService.TallyExtend | services/dataService.ts:49-55 | the counters over one more record are those over the earlier records plus one step of the loop body for the new record |
| DataService.MatchGoalsSplit | services/dataService.ts:50-52 | the per-match totals add up to the home goals plus the away goals |
| DataService.ProcessedData | services/dataService.ts:49-60 | one processed record per input record, in order, each the input with its total |
| DataService.ProcessedDataUnique | services/dataService.ts:49-60 | records that are the inputs with their totals, position by position, are the processed data |
| DataService.ProcessedCodesUnchanged | services/dataService.ts:56-59 | adding the totals changes no result code count |
| DataService.ProcessedDataReady | services/dataService.ts:49-60 | processed records all carry totals; their goal columns and code counts are those of the input; the total column is the per-match goals and sums to home plus away goals |

## Left out

- Loading the data is not modelled: `fetch` of the CSV file, PapaParse's parsing, the `Promise` with its `reject` path and the `try`/`catch` are left out. The model starts from the parsed records.
- The `fileInfo` record of the loader is left out. It holds a fixed name, size and type, and `new Date()` timestamps from the clock.
- React state is left out (`useState`, `setAnalysis`, `useEffect`), as are the JSX rendering and the chart widgets. `createPieData` reads the stored analysis, which the model passes as an `Option<Analysis>`.
- Floating point is not modelled. Means, medians and percentages are exact rationals (`real`), and `toFixed(1)` of the page's percentages is not modelled. `Page.PerformAnalysis` stores the exact percentage, not the one-decimal string.
- `Sequences.SortedKeys`: `Object.keys`/`Object.entries` enumerate integer-index keys in ascending order. That holds for the non-negative goal counts the data contain. Negative or non-integer values, which enumerate in insertion order, are not modelled.
- `Page.SortInPlace` is an insertion sort. The engine's sorting algorithm is not modelled, only its result, which is unique (`Sequences.SortedUnique`).
- `Page.CalculateStats` returns the array it sorted as `sorted`. The model expresses this through the array's new contents and does not put the array in `FieldStats`.
- `Stats.MaxCount`: `Math.max()` of no counts is `-Infinity` in JavaScript. The model uses 0. Only empty data reach it, and no key is then compared with it, so the mode list is empty either way.
- The mode is kept as the list of tied values. Joining it into the text "1, 2" with `join(", ")` is not modelled.
- Result codes other than "H", "D" and "A" are not modelled, because the record type admits only these three. A record whose `TotalGoals` is missing is outside `Page.PerformAnalysis` (`requires TotalsDerived`). The loader always fills it in (`DataService.ProcessedDataReady`).
- `Stats.Percentage` requires `count <= total`, which every caller meets. Division by a zero total gives NaN.
- Integers are unbounded. JavaScript numbers lose precision above 2^53, which goal counts never reach.
