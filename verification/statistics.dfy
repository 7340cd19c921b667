/**
 * The descriptive-statistics library of utils/statistics.ts: mean, median,
 * mode, split-based quartiles, the sorted frequency distribution and its
 * cumulative (ogive) column, and the three-way full-time-result split.
 *
 * JavaScript numbers produced by a division are modelled exactly, as a
 * `real`, or as NaN where the source divides 0 by 0 or adds `undefined`
 * values (an empty input).
 */
module Stats {
  import opened Sequences

  datatype Option<T> = None | Some(value: T)

  /** A number computed by division: an exact rational value, or NaN. */
  datatype Number = Real(value: real) | NaN

  /** Full-time result: home win, draw, away win. */
  datatype FTR = H | D | A

  /** One parsed row of the match file; `totalGoals` is absent until derived. */
  datatype MatchData = MatchData(
    seasonEndYear: int,
    week: int,
    date: string,
    home: string,
    homeGoals: int,
    awayGoals: int,
    away: string,
    ftr: FTR,
    totalGoals: Option<int>)

  /** The page's mode report: "No mode", or the tied values in ascending order. */
  datatype ModeReport = NoMode | Modes(values: seq<int>)

  /** Descriptive summary of one numeric field (the `homeStats` shape). */
  datatype FieldStats = FieldStats(
    mean: Number,
    median: Number,
    mode: ModeReport,
    q1: Option<int>,
    q3: Option<int>)

  /** Percentage of matches per result code (exact, before `toFixed(1)`). */
  datatype FtrPercentages = FtrPercentages(h: Number, d: Number, a: Number)

  /** The aggregate report the page renders. */
  datatype Analysis = Analysis(
    homeStats: FieldStats,
    awayStats: FieldStats,
    totalStats: FieldStats,
    homeFreq: map<int, nat>,
    awayFreq: map<int, nat>,
    totalFreq: map<int, nat>,
    ftrFreq: map<FTR, nat>,
    ftrPercentages: FtrPercentages,
    totalMatches: nat)

  // ---------------------------------------------------------------------
  // Field projections of a list of matches
  // ---------------------------------------------------------------------

  function HomeGoalsOf(matches: seq<MatchData>): (r: seq<int>)
    ensures |r| == |matches|
    ensures forall i | 0 <= i < |matches| :: r[i] == matches[i].homeGoals
  {
    seq(|matches|, i requires 0 <= i < |matches| => matches[i].homeGoals)
  }

  function AwayGoalsOf(matches: seq<MatchData>): (r: seq<int>)
    ensures |r| == |matches|
    ensures forall i | 0 <= i < |matches| :: r[i] == matches[i].awayGoals
  {
    seq(|matches|, i requires 0 <= i < |matches| => matches[i].awayGoals)
  }

  /** Every match carries its derived total. */
  predicate TotalsDerived(matches: seq<MatchData>)
  {
    forall i | 0 <= i < |matches| :: matches[i].totalGoals.Some?
  }

  function TotalGoalsOf(matches: seq<MatchData>): (r: seq<int>)
    requires TotalsDerived(matches)
    ensures |r| == |matches|
    ensures forall i | 0 <= i < |matches| :: Some(r[i]) == matches[i].totalGoals
  {
    seq(|matches|, i requires 0 <= i < |matches| => matches[i].totalGoals.value)
  }

  /** Number of matches with result `code` (`data.filter(m => m.FTR === code).length`). */
  function CountCode(matches: seq<MatchData>, code: FTR): (r: nat)
    ensures r <= |matches|
  {
    if matches == [] then 0
    else
      CountCode(matches[..|matches| - 1], code)
      + (if matches[|matches| - 1].ftr == code then 1 else 0)
  }

  /** Every match has exactly one of the three codes. */
  lemma {:induction false} CodeCountsPartition(matches: seq<MatchData>)
    ensures CountCode(matches, H) + CountCode(matches, D) + CountCode(matches, A) == |matches|
    decreases |matches|
  {
    if matches != [] {
      CodeCountsPartition(matches[..|matches| - 1]);
    }
  }

  /**
   * `(count / total) * 100`. Every caller passes the size of a
   * sub-collection, so `count <= total`; 0 / 0 is NaN.
   */
  function Percentage(count: nat, total: nat): (r: Number)
    requires count <= total
    ensures r.Real? <==> total > 0
    ensures r.Real? ==> r.value * total as real == count as real * 100.0
    ensures r.Real? ==> 0.0 <= r.value <= 100.0
  {
    if total == 0 then NaN else Real(count as real / total as real * 100.0)
  }

  /** Three percentages of one total whose counts add up to it add up to 100. */
  lemma PercentagesOfPartition(a: nat, b: nat, c: nat, total: nat)
    requires a + b + c == total && total > 0
    ensures Percentage(a, total).value + Percentage(b, total).value
            + Percentage(c, total).value == 100.0
  {
    var s := Percentage(a, total).value + Percentage(b, total).value
             + Percentage(c, total).value;
    assert s * total as real == (a + b + c) as real * 100.0;
  }

  // ---------------------------------------------------------------------
  // Mean and median
  // ---------------------------------------------------------------------

  /** calculateMean: the sum divided by the length (0 / 0 is NaN). */
  function CalculateMean(data: seq<int>): (r: Number)
    ensures r.Real? <==> |data| > 0
    ensures r.Real? ==> r.value * |data| as real == Sum(data) as real
  {
    if |data| == 0 then NaN else Real(Sum(data) as real / |data| as real)
  }

  /** The middle of an ascending list: one element, or the average of two. */
  function MedianOfSorted(sorted: seq<int>): real
    requires |sorted| > 0
  {
    var mid := |sorted| / 2;
    if |sorted| % 2 == 0 then (sorted[mid - 1] + sorted[mid]) as real / 2.0
    else sorted[mid] as real
  }

  /** The median of an ascending list lies between its two central elements. */
  lemma MedianOfSortedBounds(sorted: seq<int>)
    requires IsSorted(sorted) && |sorted| > 0
    ensures sorted[(|sorted| - 1) / 2] as real <= MedianOfSorted(sorted)
    ensures MedianOfSorted(sorted) <= sorted[|sorted| / 2] as real
  {
  }

  /**
   * calculateMedian: the median of a sorted copy. An empty array gives
   * `(undefined + undefined) / 2`, i.e. NaN.
   */
  function CalculateMedian(data: seq<int>): (r: Number)
    ensures r.Real? <==> |data| > 0
  {
    if |data| == 0 then NaN else Real(MedianOfSorted(SortSeq(data)))
  }

  /** `lo` and `hi` are the least and the greatest value of the data. */
  predicate IsRange(data: seq<int>, lo: int, hi: int)
  {
    lo in data && hi in data && forall x | x in data :: lo <= x <= hi
  }

  /** The ends of the sorted copy are the least and the greatest value. */
  lemma SortedEnds(data: seq<int>)
    requires |data| > 0
    ensures IsRange(data, SortSeq(data)[0], SortSeq(data)[|data| - 1])
  {
    var sorted := SortSeq(data);
    var n := |sorted|;
    assert sorted[0] in multiset(data) && sorted[n - 1] in multiset(data);
    forall x | x in data
      ensures sorted[0] <= x <= sorted[n - 1]
    {
      assert x in multiset(sorted);
      SortedBounds(sorted, x);
    }
  }

  /** The median lies between the least and the greatest value. */
  lemma MedianWithinRange(data: seq<int>)
    requires |data| > 0
    ensures exists lo, hi ::
      IsRange(data, lo, hi) && lo as real <= CalculateMedian(data).value <= hi as real
  {
    var sorted := SortSeq(data);
    var n := |sorted|;
    MedianOfSortedBounds(sorted);
    SortedEnds(data);
    var lo, hi := sorted[0], sorted[n - 1];
    assert lo <= sorted[(n - 1) / 2] && sorted[n / 2] <= hi;
    assert IsRange(data, lo, hi) && lo as real <= CalculateMedian(data).value <= hi as real;
  }

  /**
   * The median depends only on the multiset of values: it is unchanged by
   * any reordering of the input (the source sorts a copy).
   */
  lemma MedianDependsOnlyOnValues(a: seq<int>, b: seq<int>)
    requires multiset(a) == multiset(b)
    ensures CalculateMedian(a) == CalculateMedian(b)
  {
    SortDependsOnMultiset(a, b);
    assert |a| == |multiset(a)| == |b|;
  }

  // ---------------------------------------------------------------------
  // Split-based quartiles
  // ---------------------------------------------------------------------

  datatype Quartiles = Quartiles(q1: Number, q2: Number, q3: Number)

  /**
   * calculateQuartiles: Q2 is the median of the sorted data, Q1 the median
   * of its first floor(n/2) elements and Q3 the median of the elements
   * from index ceil(n/2).
   */
  function CalculateQuartiles(data: seq<int>): (r: Quartiles)
    ensures r.q2.Real? <==> |data| >= 1
    ensures r.q1.Real? <==> |data| >= 2
    ensures r.q3.Real? <==> |data| >= 2
  {
    QuartilesOfSorted(SortSeq(data))
  }

  /** The three medians of calculateQuartiles, taken from the sorted copy. */
  function QuartilesOfSorted(sorted: seq<int>): (r: Quartiles)
    ensures r.q2.Real? <==> |sorted| >= 1
    ensures r.q1.Real? <==> |sorted| >= 2
    ensures r.q3.Real? <==> |sorted| >= 2
  {
    var n := |sorted|;
    Quartiles(
      CalculateMedian(sorted[..n / 2]),
      CalculateMedian(sorted),
      CalculateMedian(sorted[(n + 1) / 2..]))
  }

  /** Q2 is the median of the data. */
  lemma QuartileTwoIsMedian(data: seq<int>)
    ensures CalculateQuartiles(data).q2 == CalculateMedian(data)
  {
    SortOfSorted(SortSeq(data));
  }

  /** With a single value both halves are empty, so Q1 and Q3 are NaN. */
  lemma QuartilesOfSingleton(x: int)
    ensures CalculateQuartiles([x]).q1 == NaN
    ensures CalculateQuartiles([x]).q3 == NaN
    ensures CalculateQuartiles([x]).q2 == Real(x as real)
  {
    assert SortSeq([x]) == [x];
  }

  /** The median of the lower half (Q1) is a number no greater than the median of the whole list. */
  lemma LowerHalfMedian(sorted: seq<int>)
    requires IsSorted(sorted) && |sorted| >= 2
    ensures CalculateMedian(sorted[..|sorted| / 2]).Real?
    ensures CalculateMedian(sorted[..|sorted| / 2]).value <= MedianOfSorted(sorted)
  {
    var n := |sorted|;
    var lower := sorted[..n / 2];
    SortedPrefix(sorted, n / 2);
    MedianOfAscending(lower);
    MedianOfSortedBounds(sorted);
    MedianOfSortedBounds(lower);
    assert lower[|lower| / 2] == sorted[|lower| / 2];
    assert sorted[|lower| / 2] <= sorted[(n - 1) / 2];
  }

  /** The median of the upper half (Q3) is a number no less than the median of the whole list. */
  lemma UpperHalfMedian(sorted: seq<int>)
    requires IsSorted(sorted) && |sorted| >= 2
    ensures CalculateMedian(sorted[(|sorted| + 1) / 2..]).Real?
    ensures MedianOfSorted(sorted) <= CalculateMedian(sorted[(|sorted| + 1) / 2..]).value
  {
    var upper := sorted[(|sorted| + 1) / 2..];
    UpperHalfMiddle(sorted);
    SortedSuffix(sorted, (|sorted| + 1) / 2);
    MedianOfAscending(upper);
    MedianOfSortedBounds(sorted);
    MedianOfSortedBounds(upper);
  }

  /** The lower central element of the upper half is at least the upper central element of the whole. */
  lemma UpperHalfMiddle(sorted: seq<int>)
    requires IsSorted(sorted) && |sorted| >= 2
    ensures |sorted[(|sorted| + 1) / 2..]| > 0
    ensures sorted[|sorted| / 2]
            <= sorted[(|sorted| + 1) / 2..][(|sorted[(|sorted| + 1) / 2..]| - 1) / 2]
  {
    var n := |sorted|;
    var h := (n + 1) / 2;
    var upper := sorted[h..];
    var m := (|upper| - 1) / 2;
    UpperMiddleIndex(n);
    assert upper[m] == sorted[h + m];
  }

  /** The lower middle index of the upper half lies at or after the upper middle index of the whole. */
  lemma UpperMiddleIndex(n: nat)
    requires n >= 2
    ensures n / 2 <= (n + 1) / 2 + (n - (n + 1) / 2 - 1) / 2 < n
  {
  }

  /** From two values on, all three quartiles are numbers and Q1 <= Q2 <= Q3. */
  lemma QuartilesOrdered(data: seq<int>)
    requires |data| >= 2
    ensures CalculateQuartiles(data).q1.Real?
    ensures CalculateQuartiles(data).q2.Real?
    ensures CalculateQuartiles(data).q3.Real?
    ensures CalculateQuartiles(data).q1.value <= CalculateQuartiles(data).q2.value
    ensures CalculateQuartiles(data).q2.value <= CalculateQuartiles(data).q3.value
  {
    SortedQuartilesOrdered(SortSeq(data));
  }

  lemma SortedQuartilesOrdered(sorted: seq<int>)
    requires IsSorted(sorted) && |sorted| >= 2
    ensures QuartilesOfSorted(sorted).q1.Real? && QuartilesOfSorted(sorted).q2.Real?
    ensures QuartilesOfSorted(sorted).q3.Real?
    ensures QuartilesOfSorted(sorted).q1.value <= QuartilesOfSorted(sorted).q2.value
    ensures QuartilesOfSorted(sorted).q2.value <= QuartilesOfSorted(sorted).q3.value
  {
    MedianOfAscending(sorted);
    LowerHalfMedian(sorted);
    UpperHalfMedian(sorted);
  }

  /** calculateMedian of a list that is already ascending reads off its middle. */
  lemma MedianOfAscending(sorted: seq<int>)
    requires IsSorted(sorted) && |sorted| > 0
    ensures CalculateMedian(sorted) == Real(MedianOfSorted(sorted))
  {
    SortOfSorted(sorted);
  }

  // ---------------------------------------------------------------------
  // Frequency table and mode
  // ---------------------------------------------------------------------

  /** The count of each value of a multiset, keyed by value. */
  function CountTable(m: multiset<int>): (f: map<int, nat>)
    ensures forall v :: v in f <==> v in m
    ensures forall v | v in f :: f[v] == m[v]
  {
    map v | v in m :: m[v]
  }

  /** The `frequency` dictionary: for each value of the data, how often it occurs. */
  function FrequencyTable(data: seq<int>): (f: map<int, nat>)
    ensures forall v :: v in f <==> v in data
    ensures forall v | v in f :: f[v] == Count(data, v) && f[v] >= 1
  {
    CountTable(multiset(data))
  }

  /** The distinct values of the data in ascending order: the keys of the `frequency` object. */
  function DistinctValues(data: seq<int>): (keys: seq<int>)
    ensures StrictlyIncreasing(keys)
    ensures forall v :: v in keys <==> v in data
  {
    SortedKeys(FrequencyTable(data).Keys)
  }

  /**
   * The `forEach` loop that fills the `frequency` dictionary
   * (`frequency[value] = (frequency[value] || 0) + 1`).
   */
  method CountValues(data: seq<int>) returns (frequency: map<int, nat>)
    ensures frequency == FrequencyTable(data)
  {
    frequency := map[];
    var i := 0;
    while i < |data|
      invariant 0 <= i <= |data|
      invariant frequency == FrequencyTable(data[..i])
    {
      var value := data[i];
      assert data[..i + 1] == data[..i] + [value];
      CountTableAdd(multiset(data[..i]), value);
      frequency := frequency[value := (if value in frequency then frequency[value] else 0) + 1];
      i := i + 1;
    }
    assert data[..i] == data;
  }

  /** Adding one occurrence of `v` adds one to its entry, creating it at 1. */
  lemma CountTableAdd(m: multiset<int>, v: int)
    ensures CountTable(m + multiset{v})
            == CountTable(m)[v := (if v in CountTable(m) then CountTable(m)[v] else 0) + 1]
  {
    var before, after := CountTable(m), CountTable(m + multiset{v});
    var expected := before[v := (if v in before then before[v] else 0) + 1];
    assert forall k :: k in after <==> k in expected;
    forall k | k in after
      ensures after[k] == expected[k]
    {
      if k != v {
        assert after[k] == m[k];
      }
    }
  }

  /** `Math.max` of the counts of `keys` (0 when there are none). */
  function MaxCount(keys: seq<int>, frequency: map<int, nat>): (m: nat)
    requires forall k | k in keys :: k in frequency
    ensures forall k | k in keys :: frequency[k] <= m
    ensures keys != [] ==> exists k :: k in keys && frequency[k] == m
  {
    if keys == [] then 0
    else
      var first := keys[0];
      assert first in keys;
      assert first in frequency;
      var rest := MaxCount(keys[1..], frequency);
      assert forall k | k in keys :: k == first || k in keys[1..];
      if frequency[first] > rest then frequency[first] else rest
  }

  /** The keys, in their order, whose count is `c` (the `filter` on entries). */
  function KeysWithCount(keys: seq<int>, frequency: map<int, nat>, c: nat): (r: seq<int>)
    requires forall k | k in keys :: k in frequency
    ensures forall k :: k in r <==> k in keys && frequency[k] == c
    ensures |r| <= |keys|
    ensures StrictlyIncreasing(keys) ==> StrictlyIncreasing(r)
    ensures (forall k | k in keys :: frequency[k] == c) ==> r == keys
  {
    if keys == [] then []
    else
      var first := keys[0];
      assert first in keys;
      assert first in frequency;
      var rest := KeysWithCount(keys[1..], frequency, c);
      assert forall k | k in keys :: k == first || k in keys[1..];
      assert keys == [first] + keys[1..];
      if frequency[first] == c then
        PrependKept(keys, rest);
        [first] + rest
      else rest
  }

  /**
   * Keeping the head of a key list in front of the keys kept from its tail
   * preserves strict ascent.
   */
  lemma PrependKept(keys: seq<int>, rest: seq<int>)
    requires keys != []
    requires forall k | k in rest :: k in keys[1..]
    requires StrictlyIncreasing(keys[1..]) ==> StrictlyIncreasing(rest)
    ensures StrictlyIncreasing(keys) ==> StrictlyIncreasing([keys[0]] + rest)
  {
    if StrictlyIncreasing(keys) {
      HeadBelowTail(keys);
      PrependIncreasing(keys[0], rest);
    }
  }

  /**
   * The values that reach the maximal frequency, in ascending order (the
   * entries of the `frequency` object in key order, filtered).
   */
  function ModeValues(data: seq<int>): seq<int>
  {
    var frequency := FrequencyTable(data);
    var keys := SortedKeys(frequency.Keys);
    KeysWithCount(keys, frequency, MaxCount(keys, frequency))
  }

  /** `v` occurs in the data at least as often as any other value. */
  predicate IsMode(data: seq<int>, v: int)
  {
    v in data && forall w | w in data :: Count(data, w) <= Count(data, v)
  }

  /**
   * The mode list is ascending and duplicate-free, holds exactly the values
   * of maximal frequency, and is non-empty for non-empty data.
   */
  lemma ModeValuesAreTheModes(data: seq<int>)
    ensures StrictlyIncreasing(ModeValues(data))
    ensures forall v :: v in ModeValues(data) <==> IsMode(data, v)
    ensures |data| > 0 ==> |ModeValues(data)| > 0
  {
    var frequency := FrequencyTable(data);
    var keys := SortedKeys(frequency.Keys);
    var top := MaxCount(keys, frequency);
    var modes := KeysWithCount(keys, frequency, top);
    forall v
      ensures v in modes <==> IsMode(data, v)
    {
      if v in modes {
        forall w | w in data
          ensures Count(data, w) <= Count(data, v)
        {
          assert w in keys;
        }
      }
      if IsMode(data, v) {
        assert v in keys;
        if keys != [] {
          var k :| k in keys && frequency[k] == top;
          assert k in data;
        }
      }
    }
    if |data| > 0 {
      assert data[0] in frequency;
      var k :| k in keys && frequency[k] == top;
      assert k in modes;
    }
  }

  /** calculateMode: count the values, then keep those of maximal frequency. */
  method CalculateMode(data: seq<int>) returns (modes: seq<int>)
    ensures modes == ModeValues(data)
    ensures StrictlyIncreasing(modes)
    ensures forall v :: v in modes <==> IsMode(data, v)
    ensures |data| > 0 ==> |modes| > 0
  {
    var frequency := CountValues(data);
    var keys := SortedKeys(frequency.Keys);
    var maxFrequency := MaxCount(keys, frequency);
    modes := KeysWithCount(keys, frequency, maxFrequency);
    ModeValuesAreTheModes(data);
  }

  /**
   * The distinct values are counted once each: their counts are each at
   * least 1 and add up to the length of the data.
   */
  lemma DistinctValueCounts(data: seq<int>)
    ensures forall i | 0 <= i < |DistinctValues(data)| :: CountsOf(DistinctValues(data), data)[i] >= 1
    ensures Sum(CountsOf(DistinctValues(data), data)) == |data|
  {
    var keys := DistinctValues(data);
    forall i | 0 <= i < |keys|
      ensures CountsOf(keys, data)[i] >= 1
    {
      assert keys[i] in keys;
      assert keys[i] in multiset(data);
    }
    CountsSumToLength(keys, data);
  }

  /** There are as many distinct values as observations exactly when every value occurs once. */
  lemma DistinctValuesAsManyAsData(data: seq<int>)
    ensures |DistinctValues(data)| <= |data|
    ensures |DistinctValues(data)| == |data| <==> forall v | v in data :: Count(data, v) == 1
  {
    var keys := DistinctValues(data);
    var counts := CountsOf(keys, data);
    DistinctValueCounts(data);
    SumOfPositives(counts);
    if forall i | 0 <= i < |counts| :: counts[i] == 1 {
      forall v | v in data
        ensures Count(data, v) == 1
      {
        assert v in keys;
        var i :| 0 <= i < |keys| && keys[i] == v;
        assert counts[i] == 1;
      }
    }
    if forall v | v in data :: Count(data, v) == 1 {
      forall i | 0 <= i < |counts|
        ensures counts[i] == 1
      {
        assert keys[i] in keys;
      }
    }
  }

  /**
   * Number of values reported as modes equals the number of observations
   * exactly when every value occurs once.
   */
  lemma ModeCountMatchesLengthIffDistinct(data: seq<int>)
    ensures |ModeValues(data)| == |data| <==> forall v | v in data :: Count(data, v) == 1
  {
    var frequency := FrequencyTable(data);
    var keys := DistinctValues(data);
    assert ModeValues(data) == KeysWithCount(keys, frequency, MaxCount(keys, frequency));
    DistinctValuesAsManyAsData(data);
    if forall v | v in data :: Count(data, v) == 1 {
      assert forall k | k in keys :: frequency[k] == 1;
      if keys != [] {
        MaxOfEqualCounts(keys, frequency, 1);
      }
    }
  }

  /** When every key has count `c`, the largest count is `c`. */
  lemma MaxOfEqualCounts(keys: seq<int>, frequency: map<int, nat>, c: nat)
    requires keys != []
    requires forall k | k in keys :: k in frequency && frequency[k] == c
    ensures MaxCount(keys, frequency) == c
  {
    var m := MaxCount(keys, frequency);
    assert exists k :: k in keys && frequency[k] == m;
    var k :| k in keys && frequency[k] == m;
  }

  // ---------------------------------------------------------------------
  // Frequency distribution and cumulative frequency
  // ---------------------------------------------------------------------

  datatype FreqEntry = FreqEntry(value: int, frequency: nat)

  datatype CumulativeEntry = CumulativeEntry(value: int, cumulative: int)

  /** The frequency column of a distribution. */
  function Frequencies(dist: seq<FreqEntry>): (r: seq<int>)
    ensures |r| == |dist|
    ensures forall i | 0 <= i < |dist| :: r[i] == dist[i].frequency
    ensures NonNegative(r)
  {
    seq(|dist|, i requires 0 <= i < |dist| => dist[i].frequency)
  }

  /** The entries of the `frequency` object as (value, frequency) pairs sorted by value. */
  function FrequencyDistribution(data: seq<int>): (dist: seq<FreqEntry>)
    ensures |dist| == |DistinctValues(data)|
    ensures forall i | 0 <= i < |dist| :: dist[i].value == DistinctValues(data)[i]
    ensures forall i | 0 <= i < |dist| :: dist[i].frequency == Count(data, dist[i].value)
  {
    var keys := DistinctValues(data);
    KeysInTable(keys, FrequencyTable(data));
    EntriesOf(keys, FrequencyTable(data))
  }

  /** Every element of `keys` is a key of `table`. */
  predicate AllKeysIn(keys: seq<int>, table: map<int, nat>)
  {
    forall i | 0 <= i < |keys| :: keys[i] in table
  }

  lemma KeysInTable(keys: seq<int>, table: map<int, nat>)
    requires forall k | k in keys :: k in table
    ensures AllKeysIn(keys, table)
  {
    forall i | 0 <= i < |keys|
      ensures keys[i] in table
    {
      var k := keys[i];
      assert k in keys;
    }
  }

  /** `.map(([value, freq]) => ({ value, frequency: freq }))` over the given keys. */
  function EntriesOf(keys: seq<int>, table: map<int, nat>): (dist: seq<FreqEntry>)
    requires AllKeysIn(keys, table)
    ensures |dist| == |keys|
    ensures forall i | 0 <= i < |keys| :: dist[i] == FreqEntry(keys[i], table[keys[i]])
  {
    seq(|keys|, i requires 0 <= i < |keys| => FreqEntry(keys[i], table[keys[i]]))
  }

  /**
   * The distribution is strictly ascending by value and each frequency is
   * the value's number of occurrences, at least 1.
   */
  lemma FrequencyDistributionSound(data: seq<int>)
    ensures forall i, j | 0 <= i < j < |FrequencyDistribution(data)| ::
      FrequencyDistribution(data)[i].value < FrequencyDistribution(data)[j].value
    ensures forall i | 0 <= i < |FrequencyDistribution(data)| ::
      FrequencyDistribution(data)[i].frequency == Count(data, FrequencyDistribution(data)[i].value) >= 1
  {
    var dist := FrequencyDistribution(data);
    var keys := DistinctValues(data);
    forall i | 0 <= i < |dist|
      ensures dist[i].frequency >= 1
    {
      assert keys[i] in keys;
      assert keys[i] in multiset(data);
    }
  }

  /** Every value of the data, and nothing else, has an entry in the distribution. */
  lemma FrequencyDistributionComplete(data: seq<int>)
    ensures forall v :: v in data <==>
      exists i :: 0 <= i < |FrequencyDistribution(data)| && FrequencyDistribution(data)[i].value == v
  {
    var dist := FrequencyDistribution(data);
    var keys := DistinctValues(data);
    forall v
      ensures v in data <==> exists i :: 0 <= i < |dist| && dist[i].value == v
    {
      if v in data {
        assert v in keys;
        var i :| 0 <= i < |keys| && keys[i] == v;
        assert dist[i].value == v;
      }
      if exists i :: 0 <= i < |dist| && dist[i].value == v {
        var i :| 0 <= i < |dist| && dist[i].value == v;
        assert keys[i] in keys;
      }
    }
  }

  /** The frequencies add up to the number of observations. */
  lemma FrequenciesSumToLength(data: seq<int>)
    ensures Sum(Frequencies(FrequencyDistribution(data))) == |data|
  {
    assert Frequencies(FrequencyDistribution(data)) == CountsOf(DistinctValues(data), data);
    DistinctValueCounts(data);
  }

  /** calculateFrequencyDistribution: the counting loop, then entries sorted by value. */
  method CalculateFrequencyDistribution(data: seq<int>) returns (dist: seq<FreqEntry>)
    ensures dist == FrequencyDistribution(data)
    ensures Sum(Frequencies(dist)) == |data|
  {
    var frequency := CountValues(data);
    var keys := SortedKeys(frequency.Keys);
    KeysInTable(keys, frequency);
    dist := EntriesOf(keys, frequency);
    FrequenciesSumToLength(data);
  }

  /**
   * calculateCumulativeFrequency: the same value column, with the running
   * total of the frequencies accumulated in order.
   */
  method CalculateCumulativeFrequency(freqDist: seq<FreqEntry>) returns (result: seq<CumulativeEntry>)
    ensures |result| == |freqDist|
    ensures forall i | 0 <= i < |freqDist| ::
      result[i].value == freqDist[i].value
      && result[i].cumulative == RunningTotals(Frequencies(freqDist))[i]
  {
    var cumulative := 0;
    result := [];
    var i := 0;
    ghost var frequencies := Frequencies(freqDist);
    while i < |freqDist|
      invariant 0 <= i <= |freqDist|
      invariant |result| == i
      invariant cumulative == Sum(frequencies[..i])
      invariant forall k | 0 <= k < i ::
        result[k].value == freqDist[k].value
        && result[k].cumulative == Sum(frequencies[..k + 1])
    {
      SumExtend(frequencies, i);
      cumulative := cumulative + freqDist[i].frequency;
      result := result + [CumulativeEntry(freqDist[i].value, cumulative)];
      i := i + 1;
    }
  }

  /**
   * The cumulative column never decreases, and for the distribution of
   * `data` its last entry is the number of observations.
   */
  lemma CumulativeFrequencyOfData(data: seq<int>)
    ensures IsSorted(RunningTotals(Frequencies(FrequencyDistribution(data))))
    ensures |data| > 0 ==> |FrequencyDistribution(data)| > 0
    ensures |data| > 0 ==>
      RunningTotals(Frequencies(FrequencyDistribution(data)))[|FrequencyDistribution(data)| - 1] == |data|
  {
    FrequenciesSumToLength(data);
    RunningTotalsNondecreasing(Frequencies(FrequencyDistribution(data)));
    if |data| > 0 {
      assert data[0] in DistinctValues(data);
    }
  }

  // ---------------------------------------------------------------------
  // Full-time-result distribution
  // ---------------------------------------------------------------------

  datatype FtrShare = FtrShare(name: string, value: nat, percentage: Number)

  /** calculateFTRDistribution: count and percentage of each result, in a fixed order. */
  function CalculateFTRDistribution(data: seq<MatchData>): (r: seq<FtrShare>)
    ensures |r| == 3
    ensures r[0].name == "Home Win" && r[1].name == "Draw" && r[2].name == "Away Win"
    ensures r[0].value == CountCode(data, H)
    ensures r[1].value == CountCode(data, D)
    ensures r[2].value == CountCode(data, A)
    ensures forall i | 0 <= i < 3 :: r[i].percentage == Percentage(r[i].value, |data|)
  {
    var total := |data|;
    var h, d, a := CountCode(data, H), CountCode(data, D), CountCode(data, A);
    [ FtrShare("Home Win", h, Percentage(h, total)),
      FtrShare("Draw", d, Percentage(d, total)),
      FtrShare("Away Win", a, Percentage(a, total)) ]
  }

  /**
   * The three counts add up to the number of matches; for a non-empty list
   * the three percentages add up to 100, for an empty one they are NaN.
   */
  lemma FTRDistributionTotals(data: seq<MatchData>)
    ensures CalculateFTRDistribution(data)[0].value + CalculateFTRDistribution(data)[1].value
            + CalculateFTRDistribution(data)[2].value == |data|
    ensures |data| > 0 ==>
      CalculateFTRDistribution(data)[0].percentage.value + CalculateFTRDistribution(data)[1].percentage.value
      + CalculateFTRDistribution(data)[2].percentage.value == 100.0
    ensures |data| == 0 ==> forall i | 0 <= i < 3 :: CalculateFTRDistribution(data)[i].percentage == NaN
  {
    CodeCountsPartition(data);
    if |data| > 0 {
      PercentagesOfPartition(CountCode(data, H), CountCode(data, D), CountCode(data, A), |data|);
    }
  }
}
