/**
 * The non-UI helpers of the report page (app/page.tsx): per-field
 * statistics over an array that is sorted in place, the analysis record
 * with its count maps and result percentages, and the three chart series
 * (histogram, cumulative, pie).
 */
module Page {
  import opened Sequences
  import opened Stats

  // ---------------------------------------------------------------------
  // calculateStats
  // ---------------------------------------------------------------------

  /**
   * `values.sort((a, b) => a - b)`: sorts the caller's array in place.
   * The engine's sorting algorithm is not specified; this is an
   * insertion sort with the same result.
   */
  method SortInPlace(a: array<int>)
    modifies a
    ensures a[..] == SortSeq(old(a[..]))
  {
    var i := 0;
    while i < a.Length
      invariant 0 <= i <= a.Length
      invariant IsSorted(a[..i])
      invariant multiset(a[..]) == multiset(old(a[..]))
    {
      InsertNext(a, i);
      i := i + 1;
    }
    assert a[..a.Length] == a[..];
    SortedUnique(a[..], SortSeq(old(a[..])));
  }

  /** One insertion step: moves `a[i]` down into the ascending prefix `a[..i]`. */
  method InsertNext(a: array<int>, i: nat)
    requires i < a.Length && IsSorted(a[..i])
    modifies a
    ensures IsSorted(a[..i + 1])
    ensures multiset(a[..i + 1]) == multiset(old(a[..i + 1]))
    ensures a[i + 1..] == old(a[i + 1..])
    ensures multiset(a[..]) == multiset(old(a[..]))
  {
    assert forall p, q | 0 <= p < q < i :: a[p] <= a[q] by {
      forall p, q | 0 <= p < q < i ensures a[p] <= a[q] {
        assert a[..i][p] == a[p] && a[..i][q] == a[q];
      }
    }
    SiftDown(a, i);
    assert a[i + 1..] == old(a[i + 1..]);
    assert a[..] == a[..i + 1] + a[i + 1..];
    assert old(a[..]) == old(a[..i + 1]) + old(a[i + 1..]);
  }

  /** The inner loop of the insertion: swaps `a[i]` down while its left neighbour is larger. */
  method SiftDown(a: array<int>, i: nat)
    requires i < a.Length
    requires forall p, q | 0 <= p < q < i :: a[p] <= a[q]
    modifies a
    ensures forall p, q | 0 <= p < q <= i :: a[p] <= a[q]
    ensures multiset(a[..i + 1]) == multiset(old(a[..i + 1]))
    ensures forall k | i < k < a.Length :: a[k] == old(a[k])
  {
    var j := i;
    while j > 0 && a[j - 1] > a[j]
      invariant 0 <= j <= i
      invariant SiftOrdered(a, i, j)
      invariant multiset(a[..i + 1]) == multiset(old(a[..i + 1]))
      invariant forall k | i < k < a.Length :: a[k] == old(a[k])
    {
      SiftStep(a, i, j);
      j := j - 1;
    }
  }

  /**
   * While `a[i]` moves down to position `j`: the other elements of
   * `a[..i + 1]` are ascending and the ones after `j` exceed `a[j]`.
   */
  predicate SiftOrdered(a: array<int>, i: nat, j: nat)
    requires j <= i < a.Length
    reads a
  {
    && (forall p, q | 0 <= p < q <= i && p != j && q != j :: a[p] <= a[q])
    && (forall q | j < q <= i :: a[j] < a[q])
  }

  /** One pass of the inner loop: the element at `j` trades places with its larger left neighbour. */
  method SiftStep(a: array<int>, i: nat, j: nat)
    requires 0 < j <= i < a.Length
    requires SiftOrdered(a, i, j) && a[j - 1] > a[j]
    modifies a
    ensures a[j - 1] == old(a[j]) && a[j] == old(a[j - 1])
    ensures forall k | 0 <= k < a.Length && k != j - 1 && k != j :: a[k] == old(a[k])
    ensures SiftOrdered(a, i, j - 1)
    ensures multiset(a[..i + 1]) == multiset(old(a[..i + 1]))
    ensures forall k | i < k < a.Length :: a[k] == old(a[k])
  {
    Swap(a, j - 1, j, i + 1);
  }

  /** Exchanging two elements of a prefix keeps the prefix's elements. */
  lemma SwapWithinPrefix(before: seq<int>, after: seq<int>, p: nat, q: nat, n: nat)
    requires p < n && q < n && n <= |before|
    requires after == before[p := before[q]][q := before[p]]
    ensures multiset(after[..n]) == multiset(before[..n])
  {
    assert after[..n] == before[..n][p := before[q]][q := before[p]];
  }

  /**
   * Exchanges two elements of the prefix `a[..n]`, which keeps its
   * elements; every other element is untouched.
   */
  method Swap(a: array<int>, p: nat, q: nat, n: nat)
    requires p < n && q < n && n <= a.Length
    modifies a
    ensures a[p] == old(a[q]) && a[q] == old(a[p])
    ensures forall k | 0 <= k < a.Length && k != p && k != q :: a[k] == old(a[k])
    ensures multiset(a[..n]) == multiset(old(a[..n]))
  {
    ghost var before := a[..];
    a[p], a[q] := a[q], a[p];
    SwapWithinPrefix(before, a[..], p, q, n);
  }

  /** The median expression of calculateStats, read off the sorted array. */
  function MedianOfSortedArray(sorted: seq<int>): (r: Number)
    ensures r.Real? <==> |sorted| > 0
  {
    var n := |sorted|;
    if n == 0 then NaN  // (undefined + undefined) / 2
    else if n % 2 == 0 then Real((sorted[n / 2 - 1] + sorted[n / 2]) as real / 2.0)
    else Real(sorted[n / 2] as real)
  }

  /** The mode with the page's policy: "No mode" when there are as many modes as values. */
  function ModeReportOf(values: seq<int>): ModeReport
  {
    var modes := ModeValues(values);
    if |modes| == |values| then NoMode else Modes(modes)
  }

  /** `sorted[index]`: the element, or `undefined` past the end. */
  function ElementAt(sorted: seq<int>, index: nat): Option<int>
  {
    if index < |sorted| then Some(sorted[index]) else None
  }

  /** `q1 = sorted[Math.floor(n * 0.25)]`. */
  function IndexQ1(sorted: seq<int>): (r: Option<int>)
    ensures r.Some? <==> |sorted| > 0
  {
    ElementAt(sorted, |sorted| / 4)
  }

  /** `q3 = sorted[Math.floor(n * 0.75)]`. */
  function IndexQ3(sorted: seq<int>): (r: Option<int>)
    ensures r.Some? <==> |sorted| > 0
  {
    ElementAt(sorted, 3 * |sorted| / 4)
  }

  /** The statistics calculateStats returns for an array that is already sorted. */
  function StatsOfSorted(sorted: seq<int>): FieldStats
  {
    FieldStats(
      CalculateMean(sorted),
      MedianOfSortedArray(sorted),
      ModeReportOf(sorted),
      IndexQ1(sorted),
      IndexQ3(sorted))
  }

  /**
   * calculateStats: sorts `values` in place (the returned `sorted` is the
   * same array) and computes the statistics from it.
   */
  method CalculateStats(values: array<int>) returns (stats: FieldStats)
    modifies values
    ensures values[..] == SortSeq(old(values[..]))
    ensures IsSorted(values[..]) && multiset(values[..]) == multiset(old(values[..]))
    ensures stats == StatsOfSorted(SortSeq(old(values[..])))
  {
    SortInPlace(values);
    var sorted := values[..];
    stats := StatsOfSorted(sorted);
  }

  /** The page's mean is the mean of the data, whatever their original order. */
  lemma PageMeanIsMean(values: seq<int>)
    ensures StatsOfSorted(SortSeq(values)).mean == CalculateMean(values)
  {
    SumPermutation(SortSeq(values), values);
  }

  /** The page's median agrees with the library's calculateMedian. */
  lemma PageMedianIsMedian(values: seq<int>)
    ensures StatsOfSorted(SortSeq(values)).median == CalculateMedian(values)
  {
  }

  /**
   * For non-empty data both quartile indices are in bounds, the quartiles
   * are values of the data, and q1 <= median <= q3. For empty data they
   * are `undefined` and the median is NaN.
   */
  lemma PageQuartilesBracketMedian(values: seq<int>)
    ensures |values| == 0 ==> IndexQ1(SortSeq(values)) == None
    ensures |values| == 0 ==> IndexQ3(SortSeq(values)) == None
    ensures |values| == 0 ==> MedianOfSortedArray(SortSeq(values)) == NaN
    ensures |values| > 0 ==>
      && IndexQ1(SortSeq(values)).Some? && IndexQ3(SortSeq(values)).Some?
      && MedianOfSortedArray(SortSeq(values)).Real?
      && IndexQ1(SortSeq(values)).value in values && IndexQ3(SortSeq(values)).value in values
      && IndexQ1(SortSeq(values)).value as real <= MedianOfSortedArray(SortSeq(values)).value
      && MedianOfSortedArray(SortSeq(values)).value <= IndexQ3(SortSeq(values)).value as real
  {
    if |values| > 0 {
      var sorted := SortSeq(values);
      var n := |sorted|;
      IndexQuartilesBracketMedian(sorted);
      assert sorted[n / 4] in multiset(values);
      assert sorted[3 * n / 4] in multiset(values);
    }
  }

  /** On a non-empty ascending list the index quartiles bracket the median. */
  lemma IndexQuartilesBracketMedian(sorted: seq<int>)
    requires IsSorted(sorted) && |sorted| > 0
    ensures |sorted| / 4 < |sorted| && 3 * |sorted| / 4 < |sorted|
    ensures sorted[|sorted| / 4] as real <= MedianOfSortedArray(sorted).value
    ensures MedianOfSortedArray(sorted).value <= sorted[3 * |sorted| / 4] as real
  {
    var n := |sorted|;
    MedianOfSortedBounds(sorted);
    assert MedianOfSortedArray(sorted) == Real(MedianOfSorted(sorted));
    assert n / 4 <= (n - 1) / 2 && n / 2 <= 3 * n / 4 < n;
  }

  /**
   * The page reports "No mode" exactly when every value occurs once (which
   * includes a single value and no values); otherwise it reports the
   * ascending list of all values of maximal frequency.
   */
  lemma PageModePolicy(values: seq<int>)
    ensures StatsOfSorted(SortSeq(values)).mode == NoMode
            <==> forall v | v in values :: Count(values, v) == 1
    ensures StatsOfSorted(SortSeq(values)).mode != NoMode ==>
      StatsOfSorted(SortSeq(values)).mode.values == ModeValues(values)
  {
    var sorted := SortSeq(values);
    assert multiset(sorted) == multiset(values);
    assert FrequencyTable(sorted) == FrequencyTable(values);
    assert ModeValues(sorted) == ModeValues(values);
    ModeCountMatchesLengthIffDistinct(values);
  }

  /**
   * The page's index rule on four ascending values a <= b <= c <= d:
   * q1 = sorted[1] = b and q3 = sorted[3] = d.
   */
  lemma IndexQuartilesOfFour(xs: seq<int>)
    requires |xs| == 4 && IsSorted(xs)
    ensures IndexQ1(SortSeq(xs)) == Some(xs[1])
    ensures IndexQ3(SortSeq(xs)) == Some(xs[3])
  {
    SortOfSorted(xs);
  }

  /**
   * The library's split rule on the same four values: Q1 = (a + b) / 2 and
   * Q3 = (c + d) / 2. So the two rules disagree whenever a < b or
   * c < d (e.g. on [1, 2, 3, 4]: q1 = 2, q3 = 4 against Q1 = 1.5, Q3 = 3.5).
   */
  lemma SplitQuartilesOfFour(xs: seq<int>)
    requires |xs| == 4 && IsSorted(xs)
    ensures CalculateQuartiles(xs).q1 == Real((xs[0] + xs[1]) as real / 2.0)
    ensures CalculateQuartiles(xs).q3 == Real((xs[2] + xs[3]) as real / 2.0)
  {
    SortOfSorted(xs);
    var lower, upper := xs[..2], xs[2..];
    assert CalculateQuartiles(xs).q1 == CalculateMedian(lower);
    assert CalculateQuartiles(xs).q3 == CalculateMedian(upper);
    MedianOfSortedPair(lower);
    MedianOfSortedPair(upper);
  }

  /**
   * The two quartile rules disagree: on four ascending values with a < b
   * the page's q1 is b while the library's Q1 lies below b, and with
   * c < d the page's q3 is d while the library's Q3 lies below d.
   */
  lemma QuartileRulesDisagree(xs: seq<int>)
    requires |xs| == 4 && IsSorted(xs)
    ensures xs[0] < xs[1] ==>
      IndexQ1(SortSeq(xs)) == Some(xs[1])
      && CalculateQuartiles(xs).q1.Real? && CalculateQuartiles(xs).q1.value < xs[1] as real
    ensures xs[2] < xs[3] ==>
      IndexQ3(SortSeq(xs)) == Some(xs[3])
      && CalculateQuartiles(xs).q3.Real? && CalculateQuartiles(xs).q3.value < xs[3] as real
  {
    IndexQuartilesOfFour(xs);
    SplitQuartilesOfFour(xs);
  }

  /** On [1, 2, 3, 4] the page reports q1 = 2 and q3 = 4, the library Q1 = 1.5 and Q3 = 3.5. */
  lemma QuartileRulesOnOneToFour(xs: seq<int>)
    requires |xs| == 4 && xs[0] == 1 && xs[1] == 2 && xs[2] == 3 && xs[3] == 4
    ensures IndexQ1(SortSeq(xs)) == Some(2) && CalculateQuartiles(xs).q1 == Real(1.5)
    ensures IndexQ3(SortSeq(xs)) == Some(4) && CalculateQuartiles(xs).q3 == Real(3.5)
  {
    IndexQuartilesOfFour(xs);
    SplitQuartilesOfFour(xs);
  }

  /** The library median of two ascending values is their midpoint. */
  lemma MedianOfSortedPair(pair: seq<int>)
    requires |pair| == 2 && pair[0] <= pair[1]
    ensures CalculateMedian(pair) == Real((pair[0] + pair[1]) as real / 2.0)
  {
    assert IsSorted(pair);
    SortOfSorted(pair);
  }

  // ---------------------------------------------------------------------
  // performAnalysis
  // ---------------------------------------------------------------------

  /** `_.countBy(matchData, "FTR")`: only the codes that occur are keys. */
  function FtrFrequency(matches: seq<MatchData>): (f: map<FTR, nat>)
    ensures forall c :: c in f <==> CountCode(matches, c) > 0
    ensures forall c | c in f :: f[c] == CountCode(matches, c)
  {
    map c | c in {H, D, A} && CountCode(matches, c) > 0 :: CountCode(matches, c)
  }

  /** `ftrFreq.X || 0`: the count of a code, 0 when the code is absent. */
  function CountOrZero(f: map<FTR, nat>, c: FTR): nat
  {
    if c in f then f[c] else 0
  }

  /** The analysis record performAnalysis stores. */
  function AnalysisOf(matches: seq<MatchData>): Analysis
    requires TotalsDerived(matches)
  {
    var homeGoals, awayGoals, totalGoals := HomeGoalsOf(matches), AwayGoalsOf(matches), TotalGoalsOf(matches);
    var ftrFreq := FtrFrequency(matches);
    var totalMatches := |matches|;
    Analysis(
      StatsOfSorted(SortSeq(homeGoals)),
      StatsOfSorted(SortSeq(awayGoals)),
      StatsOfSorted(SortSeq(totalGoals)),
      FrequencyTable(homeGoals),
      FrequencyTable(awayGoals),
      FrequencyTable(totalGoals),
      ftrFreq,
      FtrPercentages(
        Percentage(CountOrZero(ftrFreq, H), totalMatches),
        Percentage(CountOrZero(ftrFreq, D), totalMatches),
        Percentage(CountOrZero(ftrFreq, A), totalMatches)),
      totalMatches)
  }

  /**
   * performAnalysis: projects the three goal columns into fresh arrays,
   * runs calculateStats on each (sorting them), counts values and result
   * codes, and computes the result percentages.
   */
  method PerformAnalysis(matchData: seq<MatchData>) returns (analysis: Analysis)
    requires TotalsDerived(matchData)
    ensures analysis == AnalysisOf(matchData)
  {
    var homeStats, homeFreq := AnalyseColumn(HomeGoalsOf(matchData));
    var awayStats, awayFreq := AnalyseColumn(AwayGoalsOf(matchData));
    var totalStats, totalFreq := AnalyseColumn(TotalGoalsOf(matchData));
    var ftrFreq := FtrFrequency(matchData);

    var totalMatches := |matchData|;
    var ftrPercentages := FtrPercentages(
      Percentage(CountOrZero(ftrFreq, H), totalMatches),
      Percentage(CountOrZero(ftrFreq, D), totalMatches),
      Percentage(CountOrZero(ftrFreq, A), totalMatches));

    analysis := Analysis(homeStats, awayStats, totalStats,
                         homeFreq, awayFreq, totalFreq, ftrFreq,
                         ftrPercentages, totalMatches);
  }

  /**
   * One goal column of performAnalysis: `matchData.map(...)` into a fresh
   * array, calculateStats on it (which sorts it), then `_.countBy` of the
   * now sorted array.
   */
  method AnalyseColumn(column: seq<int>) returns (stats: FieldStats, freq: map<int, nat>)
    ensures stats == StatsOfSorted(SortSeq(column))
    ensures freq == FrequencyTable(column)
  {
    var values := NewColumn(column);
    stats := CalculateStats(values);
    freq := FrequencyTable(values[..]);
    FrequencyTableOfPermutation(values[..], column);
  }

  /** `_.countBy` of a rearranged column gives the same table. */
  lemma FrequencyTableOfPermutation(a: seq<int>, b: seq<int>)
    requires multiset(a) == multiset(b)
    ensures FrequencyTable(a) == FrequencyTable(b)
  {
  }

  /** `matchData.map(...)`: a fresh array holding one goal column. */
  method NewColumn(column: seq<int>) returns (a: array<int>)
    ensures fresh(a)
    ensures a[..] == column
  {
    a := new int[|column|](i requires 0 <= i < |column| => column[i]);
  }

  /**
   * The analysis's goal maps count every match: each holds exactly the
   * goal values that occur in its column, with their numbers of matches.
   */
  lemma AnalysisGoalCounts(matches: seq<MatchData>)
    requires TotalsDerived(matches)
    ensures forall g :: g in AnalysisOf(matches).homeFreq <==> g in HomeGoalsOf(matches)
    ensures forall g | g in AnalysisOf(matches).homeFreq ::
      AnalysisOf(matches).homeFreq[g] == Count(HomeGoalsOf(matches), g)
    ensures forall g :: g in AnalysisOf(matches).awayFreq <==> g in AwayGoalsOf(matches)
    ensures forall g | g in AnalysisOf(matches).awayFreq ::
      AnalysisOf(matches).awayFreq[g] == Count(AwayGoalsOf(matches), g)
    ensures forall g :: g in AnalysisOf(matches).totalFreq <==> g in TotalGoalsOf(matches)
    ensures forall g | g in AnalysisOf(matches).totalFreq ::
      AnalysisOf(matches).totalFreq[g] == Count(TotalGoalsOf(matches), g)
  {
    var analysis := AnalysisOf(matches);
    assert analysis.homeFreq == FrequencyTable(HomeGoalsOf(matches));
    assert analysis.awayFreq == FrequencyTable(AwayGoalsOf(matches));
    assert analysis.totalFreq == FrequencyTable(TotalGoalsOf(matches));
  }

  /**
   * The analysis counts every result: `totalMatches` is the number of
   * records, each code's count (0 when absent) is the number of matches
   * with that result, and each percentage is that count * 100 / totalMatches.
   */
  lemma AnalysisCounts(matches: seq<MatchData>)
    requires TotalsDerived(matches)
    ensures AnalysisOf(matches).totalMatches == |matches|
    ensures forall c :: CountOrZero(AnalysisOf(matches).ftrFreq, c) == CountCode(matches, c)
    ensures AnalysisOf(matches).ftrPercentages.h == Percentage(CountCode(matches, H), |matches|)
    ensures AnalysisOf(matches).ftrPercentages.d == Percentage(CountCode(matches, D), |matches|)
    ensures AnalysisOf(matches).ftrPercentages.a == Percentage(CountCode(matches, A), |matches|)
  {
    var analysis := AnalysisOf(matches);
    var ftrFreq := FtrFrequency(matches);
    assert analysis.ftrFreq == ftrFreq;
    assert analysis.ftrPercentages == FtrPercentages(
      Percentage(CountOrZero(ftrFreq, H), |matches|),
      Percentage(CountOrZero(ftrFreq, D), |matches|),
      Percentage(CountOrZero(ftrFreq, A), |matches|));
  }

  /** With at least one match the three result percentages add up to 100. */
  lemma AnalysisPercentagesTotal(matches: seq<MatchData>)
    requires TotalsDerived(matches) && |matches| > 0
    ensures AnalysisOf(matches).ftrPercentages.h.value + AnalysisOf(matches).ftrPercentages.d.value
            + AnalysisOf(matches).ftrPercentages.a.value == 100.0
  {
    var p := AnalysisOf(matches).ftrPercentages;
    AnalysisCounts(matches);
    CodeCountsPartition(matches);
    PercentagesOfPartition(CountCode(matches, H), CountCode(matches, D), CountCode(matches, A), |matches|);
    assert p.h.value + p.d.value + p.a.value == 100.0;
  }

  // ---------------------------------------------------------------------
  // Chart series
  // ---------------------------------------------------------------------

  datatype HistogramBar = HistogramBar(goals: int, count: nat)

  datatype CumulativePoint = CumulativePoint(goals: int, cumulative: int)

  datatype PieSlice = PieSlice(name: string, value: nat, color: string)

  /**
   * createHistogramData: one bar per key of the count map, carrying that
   * key's count, in ascending order of goals.
   */
  function CreateHistogramData(freq: map<int, nat>): (bars: seq<HistogramBar>)
    ensures |bars| == |freq|
    ensures forall i, j | 0 <= i < j < |bars| :: bars[i].goals < bars[j].goals
    ensures forall i | 0 <= i < |bars| :: bars[i].goals in freq && bars[i].count == freq[bars[i].goals]
    ensures forall g | g in freq :: exists i :: 0 <= i < |bars| && bars[i].goals == g
  {
    var keys := SortedKeys(freq.Keys);
    KeysOfMap(keys, freq);
    BarsCoverKeys(keys, freq);
    BarsOfKeys(keys, freq)
  }

  /** A sequence holding exactly the keys of a map has only keys of the map at its indices. */
  lemma KeysOfMap(keys: seq<int>, freq: map<int, nat>)
    requires forall k :: k in keys <==> k in freq.Keys
    ensures forall i | 0 <= i < |keys| :: keys[i] in freq
  {
    forall i | 0 <= i < |keys|
      ensures keys[i] in freq
    {
      var k := keys[i];
      assert k in keys;
    }
  }

  /** Every key of the map has a bar when every key is in the key sequence. */
  lemma BarsCoverKeys(keys: seq<int>, freq: map<int, nat>)
    requires forall i | 0 <= i < |keys| :: keys[i] in freq
    requires forall g | g in freq :: g in keys
    ensures forall g | g in freq :: exists i :: 0 <= i < |keys| && BarsOfKeys(keys, freq)[i].goals == g
  {
    var bars := BarsOfKeys(keys, freq);
    forall g | g in freq
      ensures exists i :: 0 <= i < |keys| && bars[i].goals == g
    {
      var i :| 0 <= i < |keys| && keys[i] == g;
      assert bars[i].goals == g;
    }
  }

  /** One bar per key, in the order of the keys. */
  function BarsOfKeys(keys: seq<int>, freq: map<int, nat>): (bars: seq<HistogramBar>)
    requires forall i | 0 <= i < |keys| :: keys[i] in freq
    ensures |bars| == |keys|
    ensures forall i | 0 <= i < |keys| :: bars[i] == HistogramBar(keys[i], freq[keys[i]])
  {
    seq(|keys|, i requires 0 <= i < |keys| => HistogramBar(keys[i], freq[keys[i]]))
  }

  /** The count column of a series of bars. */
  function BarCounts(bars: seq<HistogramBar>): (r: seq<int>)
    ensures |r| == |bars|
    ensures forall i | 0 <= i < |bars| :: r[i] == bars[i].count
    ensures NonNegative(r)
  {
    seq(|bars|, i requires 0 <= i < |bars| => bars[i].count)
  }

  /**
   * createCumulativeData: the histogram's goals column with the running
   * total of its counts, accumulated in ascending order of goals.
   */
  method CreateCumulativeData(freq: map<int, nat>) returns (points: seq<CumulativePoint>)
    ensures |points| == |CreateHistogramData(freq)|
    ensures forall i | 0 <= i < |points| ::
      points[i].goals == CreateHistogramData(freq)[i].goals
      && points[i].cumulative == RunningTotals(BarCounts(CreateHistogramData(freq)))[i]
  {
    var sorted := CreateHistogramData(freq);
    points := AccumulateBars(sorted);
  }

  /** The `map` of createCumulativeData over the bars in the given order, with its running `cumulative`. */
  method AccumulateBars(sorted: seq<HistogramBar>) returns (points: seq<CumulativePoint>)
    ensures |points| == |sorted|
    ensures forall i | 0 <= i < |points| ::
      points[i].goals == sorted[i].goals
      && points[i].cumulative == RunningTotals(BarCounts(sorted))[i]
  {
    ghost var counts := BarCounts(sorted);
    var cumulative := 0;
    points := [];
    var i := 0;
    while i < |sorted|
      invariant 0 <= i <= |sorted|
      invariant |points| == i
      invariant cumulative == Sum(counts[..i])
      invariant forall k | 0 <= k < i ::
        points[k].goals == sorted[k].goals && points[k].cumulative == Sum(counts[..k + 1])
    {
      SumExtend(counts, i);
      cumulative := cumulative + sorted[i].count;
      points := points + [CumulativePoint(sorted[i].goals, cumulative)];
      i := i + 1;
    }
  }

  /**
   * The running totals never decrease and the last one is the sum of all
   * counts; for the count map of a data column that sum is the number of
   * observations.
   */
  lemma CumulativeDataTotals(values: seq<int>)
    ensures IsSorted(RunningTotals(BarCounts(CreateHistogramData(FrequencyTable(values)))))
    ensures Sum(BarCounts(CreateHistogramData(FrequencyTable(values)))) == |values|
  {
    HistogramOfTable(values);
    RunningTotalsNondecreasing(BarCounts(CreateHistogramData(FrequencyTable(values))));
    DistinctValueCounts(values);
  }

  /** The bars of a frequency table count the distinct values in ascending order. */
  lemma HistogramOfTable(values: seq<int>)
    ensures BarCounts(CreateHistogramData(FrequencyTable(values))) == CountsOf(DistinctValues(values), values)
  {
    var table, keys := FrequencyTable(values), DistinctValues(values);
    KeysOfMap(keys, table);
    BarCountsOfKeys(keys, table, values);
  }

  /** Bars drawn from a table of occurrence counts carry those counts. */
  lemma BarCountsOfKeys(keys: seq<int>, table: map<int, nat>, values: seq<int>)
    requires forall i | 0 <= i < |keys| :: keys[i] in table
    requires forall v | v in table :: table[v] == Count(values, v)
    ensures BarCounts(BarsOfKeys(keys, table)) == CountsOf(keys, values)
  {
    var counts := BarCounts(BarsOfKeys(keys, table));
    assert forall i | 0 <= i < |keys| :: counts[i] == CountsOf(keys, values)[i];
  }

  /**
   * createPieData: nothing before an analysis exists; afterwards exactly
   * three slices, Home Win, Draw, Away Win, an absent code counting 0.
   */
  function CreatePieData(analysis: Option<Analysis>): (slices: seq<PieSlice>)
    ensures analysis.None? ==> slices == []
    ensures analysis.Some? ==> |slices| == 3
    ensures analysis.Some? ==>
      && slices[0].name == "Home Win" && slices[0].value == CountOrZero(analysis.value.ftrFreq, H)
      && slices[1].name == "Draw" && slices[1].value == CountOrZero(analysis.value.ftrFreq, D)
      && slices[2].name == "Away Win" && slices[2].value == CountOrZero(analysis.value.ftrFreq, A)
  {
    if analysis.None? then []
    else
      var ftrFreq := analysis.value.ftrFreq;
      [ PieSlice("Home Win", CountOrZero(ftrFreq, H), "#8884d8"),
        PieSlice("Draw", CountOrZero(ftrFreq, D), "#82ca9d"),
        PieSlice("Away Win", CountOrZero(ftrFreq, A), "#ffc658") ]
  }

  /** The pie of an analysis always has three slices that add up to the number of matches. */
  lemma PieSlicesCoverAllMatches(matches: seq<MatchData>)
    requires TotalsDerived(matches)
    ensures |CreatePieData(Some(AnalysisOf(matches)))| == 3
    ensures CreatePieData(Some(AnalysisOf(matches)))[0].value
            + CreatePieData(Some(AnalysisOf(matches)))[1].value
            + CreatePieData(Some(AnalysisOf(matches)))[2].value == |matches|
  {
    CodeCountsPartition(matches);
    AnalysisCounts(matches);
  }
}
