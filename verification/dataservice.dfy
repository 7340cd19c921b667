/**
 * The aggregation step of the data loader (services/dataService.ts): one
 * pass over the parsed match records that adds each match's derived
 * total and accumulates six running counters.
 */
module DataService {
  import opened Sequences
  import opened Stats

  /** What the loader resolves with, apart from the fixed file information. */
  datatype LoadSummary = LoadSummary(
    totalMatches: nat,
    totalGoals: int,
    totalHomeGoals: int,
    totalAwayGoals: int,
    totalDraws: nat,
    totalHomeWins: nat,
    totalAwayWins: nat,
    processedData: seq<MatchData>)

  /** `{ ...match, TotalGoals: match.HomeGoals + match.AwayGoals }`. */
  function WithTotal(m: MatchData): (r: MatchData)
    ensures r.totalGoals == Some(m.homeGoals + m.awayGoals)
    ensures r.seasonEndYear == m.seasonEndYear && r.week == m.week && r.date == m.date
    ensures r.home == m.home && r.homeGoals == m.homeGoals && r.awayGoals == m.awayGoals
    ensures r.away == m.away && r.ftr == m.ftr
  {
    m.(totalGoals := Some(m.homeGoals + m.awayGoals))
  }

  /** Goals scored in each match, home plus away. */
  function MatchGoals(matches: seq<MatchData>): (r: seq<int>)
    ensures |r| == |matches|
    ensures forall i | 0 <= i < |matches| :: r[i] == matches[i].homeGoals + matches[i].awayGoals
  {
    seq(|matches|, i requires 0 <= i < |matches| => matches[i].homeGoals + matches[i].awayGoals)
  }

  /** The six running counters of the loader's loop. */
  datatype Counters = Counters(
    goals: int, homeGoals: int, awayGoals: int,
    draws: nat, homeWins: nat, awayWins: nat)

  /** The counters' values once `matches` have been counted. */
  function Tally(matches: seq<MatchData>): Counters
  {
    Counters(Sum(MatchGoals(matches)), Sum(HomeGoalsOf(matches)), Sum(AwayGoalsOf(matches)),
             CountCode(matches, D), CountCode(matches, H), CountCode(matches, A))
  }

  /** One pass of the loop body: the record's goals and its result code are added. */
  function AddMatch(t: Counters, m: MatchData): Counters
  {
    Counters(t.goals + m.homeGoals + m.awayGoals, t.homeGoals + m.homeGoals, t.awayGoals + m.awayGoals,
             t.draws + (if m.ftr == D then 1 else 0),
             t.homeWins + (if m.ftr == H then 1 else 0),
             t.awayWins + (if m.ftr == A then 1 else 0))
  }

  /**
   * The `data.map` callback of the loader, run over every record: each
   * counter ends as its total over all matches, `processedData` is the
   * records in the same order, each with its derived total, and the
   * counters agree with each other (every goal is a home or an away goal,
   * every match a draw, a home win or an away win).
   */
  method SummariseMatches(data: seq<MatchData>) returns (summary: LoadSummary)
    ensures summary.totalMatches == |data|
    ensures summary.totalGoals == Sum(MatchGoals(data))
    ensures summary.totalHomeGoals == Sum(HomeGoalsOf(data))
    ensures summary.totalAwayGoals == Sum(AwayGoalsOf(data))
    ensures summary.totalDraws == CountCode(data, D)
    ensures summary.totalHomeWins == CountCode(data, H)
    ensures summary.totalAwayWins == CountCode(data, A)
    ensures summary.processedData == ProcessedData(data)
    ensures summary.totalGoals == summary.totalHomeGoals + summary.totalAwayGoals
    ensures summary.totalDraws + summary.totalHomeWins + summary.totalAwayWins == summary.totalMatches
  {
    var totalMatches := |data|;
    var totalGoals, totalHomeGoals, totalAwayGoals := 0, 0, 0;
    var totalDraws, totalHomeWins, totalAwayWins := 0, 0, 0;
    var processedData := [];
    var i := 0;
    while i < |data|
      invariant 0 <= i <= |data|
      invariant Counters(totalGoals, totalHomeGoals, totalAwayGoals, totalDraws, totalHomeWins, totalAwayWins)
                == Tally(data[..i])
      invariant |processedData| == i
      invariant forall k | 0 <= k < i :: processedData[k] == WithTotal(data[k])
    {
      var record := data[i];
      TallyExtend(data, i);
      totalGoals := totalGoals + record.homeGoals + record.awayGoals;
      totalHomeGoals := totalHomeGoals + record.homeGoals;
      totalAwayGoals := totalAwayGoals + record.awayGoals;
      totalDraws := totalDraws + (if record.ftr == D then 1 else 0);
      totalHomeWins := totalHomeWins + (if record.ftr == H then 1 else 0);
      totalAwayWins := totalAwayWins + (if record.ftr == A then 1 else 0);
      processedData := processedData + [WithTotal(record)];
      i := i + 1;
    }
    assert data[..i] == data;
    ProcessedDataUnique(processedData, data);
    MatchGoalsSplit(data);
    CodeCountsPartition(data);
    summary := LoadSummary(totalMatches, totalGoals, totalHomeGoals, totalAwayGoals,
                           totalDraws, totalHomeWins, totalAwayWins, processedData);
  }

  /** Counting one more record is one step of the loop body. */
  lemma TallyExtend(data: seq<MatchData>, i: nat)
    requires i < |data|
    ensures Tally(data[..i + 1]) == AddMatch(Tally(data[..i]), data[i])
  {
    var s := data[..i + 1];
    assert s[..i] == data[..i];
    assert MatchGoals(s)[..i] == MatchGoals(data[..i]);
    assert HomeGoalsOf(s)[..i] == HomeGoalsOf(data[..i]);
    assert AwayGoalsOf(s)[..i] == AwayGoalsOf(data[..i]);
  }

  /** The per-match totals add up to the home goals plus the away goals. */
  lemma {:induction false} MatchGoalsSplit(matches: seq<MatchData>)
    ensures Sum(MatchGoals(matches)) == Sum(HomeGoalsOf(matches)) + Sum(AwayGoalsOf(matches))
    decreases |matches|
  {
    if matches != [] {
      var init := matches[..|matches| - 1];
      MatchGoalsSplit(init);
      assert MatchGoals(matches)[..|matches| - 1] == MatchGoals(init);
      assert HomeGoalsOf(matches)[..|matches| - 1] == HomeGoalsOf(init);
      assert AwayGoalsOf(matches)[..|matches| - 1] == AwayGoalsOf(init);
    }
  }

  /** The records `data.map` produces when every match gets its derived total. */
  function ProcessedData(data: seq<MatchData>): (r: seq<MatchData>)
    ensures |r| == |data|
    ensures forall i | 0 <= i < |data| :: r[i] == WithTotal(data[i])
  {
    seq(|data|, i requires 0 <= i < |data| => WithTotal(data[i]))
  }

  /** Records that are the input records with their totals are ProcessedData. */
  lemma ProcessedDataUnique(records: seq<MatchData>, data: seq<MatchData>)
    requires |records| == |data|
    requires forall i | 0 <= i < |data| :: records[i] == WithTotal(data[i])
    ensures records == ProcessedData(data)
  {
    var p := ProcessedData(data);
    assert forall i | 0 <= i < |data| :: records[i] == p[i];
  }

  /** Adding the totals changes no goal count and no result code. */
  lemma {:induction false} ProcessedCodesUnchanged(data: seq<MatchData>, code: FTR)
    ensures CountCode(ProcessedData(data), code) == CountCode(data, code)
    decreases |data|
  {
    if data != [] {
      var init := data[..|data| - 1];
      ProcessedCodesUnchanged(init, code);
      assert ProcessedData(data)[..|data| - 1] == ProcessedData(init);
    }
  }

  /**
   * The processed records are ready for the analysis: every one carries
   * its total, the total column is the per-match goals, the goal columns
   * and result codes are those of the input, and the summed total column
   * is the loader's `totalGoals`.
   */
  lemma ProcessedDataReady(data: seq<MatchData>)
    ensures TotalsDerived(ProcessedData(data))
    ensures TotalGoalsOf(ProcessedData(data)) == MatchGoals(data)
    ensures HomeGoalsOf(ProcessedData(data)) == HomeGoalsOf(data)
    ensures AwayGoalsOf(ProcessedData(data)) == AwayGoalsOf(data)
    ensures forall c :: CountCode(ProcessedData(data), c) == CountCode(data, c)
    ensures Sum(TotalGoalsOf(ProcessedData(data))) == Sum(HomeGoalsOf(data)) + Sum(AwayGoalsOf(data))
  {
    var processed := ProcessedData(data);
    forall c
      ensures CountCode(processed, c) == CountCode(data, c)
    {
      ProcessedCodesUnchanged(data, c);
    }
    assert TotalGoalsOf(processed) == MatchGoals(data);
    MatchGoalsSplit(data);
  }
}
