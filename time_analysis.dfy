/**
 * Time-of-day analysis: the local hour of a round, bucketing hours into
 * named periods, per-hour and per-period counts and shares, and a flat-bet
 * simulation per period.
 */
module TimeAnalysis {
  import opened Common
  import Features

  /** A round with its local hour. */
  datatype TimedRound = TimedRound(hour: int, multiplier: real)

  /** A named half-open range of hours `[start, end)`. */
  datatype Period = Period(name: string, start: int, end: int)

  const Periods: seq<Period> := [
    Period("Madrugada (00-06h)", 0, 6), Period("Manhã (06-12h)", 6, 12),
    Period("Tarde (12-18h)", 12, 18), Period("Noite (18-00h)", 18, 24)]

  const DetailedPeriods: seq<Period> := [
    Period("00-03h", 0, 3), Period("03-06h", 3, 6), Period("06-09h", 6, 9), Period("09-12h", 9, 12),
    Period("12-15h", 12, 15), Period("15-18h", 15, 18), Period("18-21h", 18, 21), Period("21-00h", 21, 24)]

  /** `(hour - 3) % 24`: UTC to local time three hours behind, wrapping around midnight. */
  function LocalHour(utcHour: int): (h: int)
    ensures 0 <= h < 24
    ensures (h - (utcHour - 3)) % 24 == 0
    ensures 0 <= utcHour < 24 ==> h == if utcHour >= 3 then utcHour - 3 else utcHour + 21
  {
    (utcHour - 3) % 24
  }

  predicate InPeriod(p: Period, hour: int)
  {
    p.start <= hour < p.end
  }

  /** The period a round is filed under: the first one containing its hour, if any. */
  function PeriodOf(periods: seq<Period>, hour: int): (r: Option<nat>)
    ensures r.Some? ==> r.value < |periods| && InPeriod(periods[r.value], hour) &&
                        forall j :: 0 <= j < r.value ==> !InPeriod(periods[j], hour)
    ensures r.None? ==> forall j :: 0 <= j < |periods| ==> !InPeriod(periods[j], hour)
  {
    if |periods| == 0 then None
    else if InPeriod(periods[0], hour) then Some(0)
    else match PeriodOf(periods[1..], hour)
      case None => None
      case Some(k) => Some(k + 1)
  }

  /** The four broad periods split the day into quarters of six hours. */
  lemma BroadPeriods(hour: int)
    requires 0 <= hour < 24
    ensures PeriodOf(Periods, hour) == Some(hour / 6)
  {
    var k := hour / 6;
    assert InPeriod(Periods[k], hour);
  }

  /** The eight detailed periods split the day into blocks of three hours. */
  lemma DetailedPeriodsOfHour(hour: int)
    requires 0 <= hour < 24
    ensures PeriodOf(DetailedPeriods, hour) == Some(hour / 3)
  {
    var k := hour / 3;
    assert InPeriod(DetailedPeriods[k], hour);
  }

  /** The multipliers filed under period `k`, in the order of the rounds. */
  function Members(data: seq<TimedRound>, periods: seq<Period>, k: nat): (r: seq<real>)
    ensures |r| <= |data|
  {
    if |data| == 0 then []
    else
      var last := data[|data| - 1];
      Members(data[..|data| - 1], periods, k) + (if PeriodOf(periods, last.hour) == Some(k) then [last.multiplier] else [])
  }

  /** The rounds whose hour falls in some period. */
  function Filed(data: seq<TimedRound>, periods: seq<Period>): (n: nat)
    ensures n <= |data|
  {
    if |data| == 0 then 0
    else Filed(data[..|data| - 1], periods) + (if PeriodOf(periods, data[|data| - 1].hour).Some? then 1 else 0)
  }

  /** The sizes of the groups of the first `k` periods together. */
  function GroupSizes(data: seq<TimedRound>, periods: seq<Period>, k: nat): nat
  {
    if k == 0 then 0 else GroupSizes(data, periods, k - 1) + |Members(data, periods, k - 1)|
  }

  lemma {:induction false} GroupSizesStep(data: seq<TimedRound>, periods: seq<Period>, k: nat)
    requires |data| > 0
    ensures var init := data[..|data| - 1];
            var p := PeriodOf(periods, data[|data| - 1].hour);
            GroupSizes(data, periods, k) == GroupSizes(init, periods, k) + (if p.Some? && p.value < k then 1 else 0)
  {
    if k > 0 {
      var init := data[..|data| - 1];
      var last := data[|data| - 1];
      GroupSizesStep(data, periods, k - 1);
      assert |Members(data, periods, k - 1)| ==
             |Members(init, periods, k - 1)| + (if PeriodOf(periods, last.hour) == Some(k - 1) then 1 else 0);
    }
  }

  /**
   * Each round is filed under at most one period: the groups together hold
   * exactly the rounds whose hour falls in some period.
   */
  lemma {:induction false} GroupsPartition(data: seq<TimedRound>, periods: seq<Period>)
    ensures GroupSizes(data, periods, |periods|) == Filed(data, periods) <= |data|
  {
    if |data| > 0 {
      var init := data[..|data| - 1];
      var p := PeriodOf(periods, data[|data| - 1].hour);
      GroupsPartition(init, periods);
      GroupSizesStep(data, periods, |periods|);
      assert p.Some? ==> p.value < |periods|;
      assert Filed(data, periods) == Filed(init, periods) + (if p.Some? then 1 else 0);
      assert GroupSizes(data, periods, |periods|) == GroupSizes(init, periods, |periods|) + (if p.Some? then 1 else 0);
    } else {
      GroupSizesEmpty(data, periods, |periods|);
    }
  }

  lemma {:induction false} GroupSizesEmpty(data: seq<TimedRound>, periods: seq<Period>, k: nat)
    requires |data| == 0
    ensures GroupSizes(data, periods, k) == 0
  {
    if k > 0 {
      GroupSizesEmpty(data, periods, k - 1);
    }
  }

  /** The grouping loop shared by `analyze_by_period` and `simulate_strategy_by_period`. */
  method GroupByPeriod(data: seq<TimedRound>, periods: seq<Period>) returns (groups: seq<seq<real>>)
    ensures |groups| == |periods|
    ensures forall k :: 0 <= k < |periods| ==> groups[k] == Members(data, periods, k)
  {
    groups := seq(|periods|, k => []);
    for i := 0 to |data|
      invariant |groups| == |periods|
      invariant forall k :: 0 <= k < |periods| ==> groups[k] == Members(data[..i], periods, k)
    {
      assert data[..i + 1][..i] == data[..i];
      var p := PeriodOf(periods, data[i].hour);
      if p.Some? {
        groups := groups[p.value := groups[p.value] + [data[i].multiplier]];
      }
    }
    assert data[..|data|] == data;
  }

  /** The multipliers of the rounds in one hour, in order. */
  function HourMembers(data: seq<TimedRound>, hour: int): (r: seq<real>)
    ensures |r| <= |data|
  {
    if |data| == 0 then []
    else
      var last := data[|data| - 1];
      HourMembers(data[..|data| - 1], hour) + (if last.hour == hour then [last.multiplier] else [])
  }

  function CountAtLeast(xs: seq<real>, threshold: real): (n: nat)
    ensures n <= |xs|
  {
    if |xs| == 0 then 0
    else CountAtLeast(xs[..|xs| - 1], threshold) + (if xs[|xs| - 1] >= threshold then 1 else 0)
  }

  /** The statistics of a non-empty group that need no floating-point numerics. */
  datatype MultiplierStats = MultiplierStats(count: nat, pctAtLeast1_5: real, pctAtLeast2: real, pctAtLeast3: real,
                                             pctAtLeast5: real, pctEarlyCrash: real)

  function Share(count: nat, n: nat): (r: real)
    requires 0 < n && count <= n
    ensures 0.0 <= r <= 100.0 && (r == 0.0 <==> count == 0)
  {
    Percentage(count, n);
    count as real / n as real * 100.0
  }

  lemma ShareMonotone(a: nat, b: nat, n: nat)
    requires a <= b <= n && 0 < n
    ensures Share(a, n) <= Share(b, n)
  {
    var x, y, d := a as real, b as real, n as real;
    var inverse := 1.0 / d;
    assert x / d == x * inverse && y / d == y * inverse;
    assert x * inverse <= y * inverse;
  }

  function StatsOf(mults: seq<real>): (r: MultiplierStats)
    requires |mults| > 0
    ensures r.count == |mults|
    ensures 0.0 <= r.pctEarlyCrash <= 100.0 && 0.0 <= r.pctAtLeast2 <= 100.0
    ensures r.pctAtLeast5 <= r.pctAtLeast3 <= r.pctAtLeast2 <= r.pctAtLeast1_5 <= 100.0
  {
    var n := |mults|;
    CountAtLeastMonotone(mults, 3.0, 5.0);
    CountAtLeastMonotone(mults, 2.0, 3.0);
    CountAtLeastMonotone(mults, 1.5, 2.0);
    ShareMonotone(CountAtLeast(mults, 5.0), CountAtLeast(mults, 3.0), n);
    ShareMonotone(CountAtLeast(mults, 3.0), CountAtLeast(mults, 2.0), n);
    ShareMonotone(CountAtLeast(mults, 2.0), CountAtLeast(mults, 1.5), n);
    MultiplierStats(n, Share(CountAtLeast(mults, 1.5), n), Share(CountAtLeast(mults, 2.0), n),
                    Share(CountAtLeast(mults, 3.0), n), Share(CountAtLeast(mults, 5.0), n),
                    Share(Features.CountAtMost(mults, 1.2), n))
  }

  /** A higher bar is cleared by no more rounds than a lower one. */
  lemma {:induction false} CountAtLeastMonotone(xs: seq<real>, lo: real, hi: real)
    requires lo <= hi
    ensures CountAtLeast(xs, hi) <= CountAtLeast(xs, lo)
  {
    if |xs| > 0 {
      CountAtLeastMonotone(xs[..|xs| - 1], lo, hi);
    }
  }

  /** The hours below `upTo` that have at least one round. */
  ghost function HoursWithRounds(data: seq<TimedRound>, upTo: int): set<int>
  {
    set h | 0 <= h < upTo && |HourMembers(data, h)| > 0
  }

  lemma HoursWithRoundsStep(data: seq<TimedRound>, hour: int)
    requires 0 <= hour
    ensures HoursWithRounds(data, 0) == {}
    ensures HoursWithRounds(data, hour + 1) ==
            HoursWithRounds(data, hour) + (if |HourMembers(data, hour)| > 0 then {hour} else {})
  {
  }

  /**
   * `analyze_by_hour`: one entry per hour of the day that has at least one
   * round, holding the statistics of exactly that hour's rounds.
   */
  method AnalyzeByHour(data: seq<TimedRound>) returns (results: map<int, MultiplierStats>)
    ensures results.Keys == HoursWithRounds(data, 24)
    ensures forall h :: h in results ==> results[h].count == |HourMembers(data, h)| &&
                                         results[h] == StatsOf(HourMembers(data, h))
  {
    hide StatsOf, HoursWithRounds, HourMembers;
    var byHour := GroupByHour(data);
    results := map[];
    HoursWithRoundsStep(data, 0);
    for hour := 0 to 24
      invariant results.Keys == HoursWithRounds(data, hour)
      invariant forall h :: h in results ==> |HourMembers(data, h)| > 0 && results[h] == StatsOf(HourMembers(data, h))
    {
      HoursWithRoundsStep(data, hour);
      if hour in byHour {
        results := results[hour := StatsOf(byHour[hour])];
      }
    }
    forall h | h in results
      ensures results[h].count == |HourMembers(data, h)|
    {
      StatsCount(HourMembers(data, h));
    }
  }

  lemma StatsCount(mults: seq<real>)
    requires |mults| > 0
    ensures StatsOf(mults).count == |mults|
  {
  }

  /** The grouping loop of `analyze_by_hour`: each hour that occurs maps to its rounds' multipliers, in order. */
  method GroupByHour(data: seq<TimedRound>) returns (byHour: map<int, seq<real>>)
    ensures forall h :: h in byHour <==> |HourMembers(data, h)| > 0
    ensures forall h :: h in byHour ==> byHour[h] == HourMembers(data, h)
  {
    byHour := map[];
    for i := 0 to |data|
      invariant forall h :: h in byHour <==> |HourMembers(data[..i], h)| > 0
      invariant forall h :: h in byHour ==> byHour[h] == HourMembers(data[..i], h)
    {
      assert data[..i + 1][..i] == data[..i];
      var h := data[i].hour;
      var previous := if h in byHour then byHour[h] else [];
      byHour := byHour[h := previous + [data[i].multiplier]];
    }
    assert data[..|data|] == data;
  }

  /** The names of the periods among the first `k` that received a round. */
  ghost function NamesWithRounds(data: seq<TimedRound>, periods: seq<Period>, k: nat): set<string>
    requires k <= |periods|
  {
    set j | 0 <= j < k && |Members(data, periods, j)| > 0 :: periods[j].name
  }

  lemma NamesWithRoundsNone(data: seq<TimedRound>, periods: seq<Period>)
    ensures NamesWithRounds(data, periods, 0) == {}
  {
  }

  lemma NamesWithRoundsStep(data: seq<TimedRound>, periods: seq<Period>, k: nat)
    requires k < |periods|
    ensures NamesWithRounds(data, periods, k + 1) ==
            NamesWithRounds(data, periods, k) + (if |Members(data, periods, k)| > 0 then {periods[k].name} else {})
  {
  }

  /** Period names are the keys of a dictionary, so they are distinct. */
  ghost predicate DistinctNames(periods: seq<Period>)
  {
    forall a, b :: 0 <= a < b < |periods| ==> periods[a].name != periods[b].name
  }

  /**
   * `analyze_by_period`: one entry per period that received a round, named
   * by the period and holding the statistics of exactly its rounds.
   */
  method AnalyzeByPeriod(data: seq<TimedRound>, periods: seq<Period>) returns (results: map<string, MultiplierStats>)
    requires DistinctNames(periods)
    ensures results.Keys == NamesWithRounds(data, periods, |periods|)
    ensures forall k :: 0 <= k < |periods| && |Members(data, periods, k)| > 0 ==>
              periods[k].name in results && results[periods[k].name] == StatsOf(Members(data, periods, k))
  {
    hide StatsOf, Members, NamesWithRounds;
    var groups := GroupByPeriod(data, periods);
    results := map[];
    NamesWithRoundsNone(data, periods);
    for k := 0 to |periods|
      invariant results.Keys == NamesWithRounds(data, periods, k)
      invariant forall j :: 0 <= j < k && |Members(data, periods, j)| > 0 ==>
                  periods[j].name in results && results[periods[j].name] == StatsOf(Members(data, periods, j))
    {
      NamesWithRoundsStep(data, periods, k);
      if |groups[k]| > 0 {
        results := results[periods[k].name := StatsOf(groups[k])];
      }
    }
  }

  /** The flat-bet result of one period; roi and win rate are 0 for an empty period. */
  datatype PeriodSimulation = PeriodSimulation(totalRounds: nat, wins: nat, losses: nat, winRate: real,
                                               profit: real, roi: real)

  /** The profit of a flat bet on each round in turn: `bet * (target - 1)` on a win, `-bet` on a loss. */
  function FlatProfit(mults: seq<real>, target: real, bet: real): real
  {
    if |mults| == 0 then 0.0
    else FlatProfit(mults[..|mults| - 1], target, bet) + (if mults[|mults| - 1] >= target then bet * (target - 1.0) else -bet)
  }

  /** The running profit is wins times the gain per win less losses times the stake. */
  lemma {:induction false} FlatProfitClosedForm(mults: seq<real>, target: real, bet: real)
    ensures var wins := CountAtLeast(mults, target);
            FlatProfit(mults, target, bet) == wins as real * (bet * (target - 1.0)) - (|mults| - wins) as real * bet
  {
    if |mults| > 0 {
      var init := mults[..|mults| - 1];
      FlatProfitClosedForm(init, target, bet);
      var w := CountAtLeast(init, target) as real;
      var l := (|init| - CountAtLeast(init, target)) as real;
      var gain := bet * (target - 1.0);
      assert (w + 1.0) * gain == w * gain + gain;
      assert (l + 1.0) * bet == l * bet + bet;
    }
  }

  /**
   * The outcome of one period: wins are the rounds reaching the target,
   * losses the rest. None when the ROI divides by a zero stake.
   */
  function GroupSimulation(mults: seq<real>, target: real, bet: real): Option<PeriodSimulation>
  {
    var total := |mults|;
    var wins := CountAtLeast(mults, target);
    var profit := FlatProfit(mults, target, bet);
    if total > 0 && bet == 0.0 then None
    else
      Some(PeriodSimulation(total, wins, total - wins,
                            if total > 0 then wins as real / total as real * 100.0 else 0.0,
                            profit,
                            if total > 0 then profit / (total as real * bet) * 100.0 else 0.0))
  }

  /**
   * Wins and losses split the period's rounds, the win rate is a
   * percentage, and the profit is wins times the gain per win less losses
   * times the stake; an empty period reports zeros.
   */
  lemma GroupSimulationCounts(mults: seq<real>, target: real, bet: real)
    requires GroupSimulation(mults, target, bet).Some?
    ensures var s := GroupSimulation(mults, target, bet).value;
            s.wins + s.losses == s.totalRounds == |mults| && 0.0 <= s.winRate <= 100.0 &&
            s.profit == s.wins as real * (bet * (target - 1.0)) - s.losses as real * bet &&
            (s.totalRounds == 0 ==> s.profit == 0.0 && s.roi == 0.0 && s.winRate == 0.0)
  {
    FlatProfitClosedForm(mults, target, bet);
    if |mults| > 0 {
      Percentage(CountAtLeast(mults, target), |mults|);
    }
  }

  lemma EmptyGroupSimulates(mults: seq<real>, target: real, bet: real)
    requires |mults| == 0
    ensures GroupSimulation(mults, target, bet).Some?
  {
  }

  /** The accumulation loop of `simulate_strategy_by_period` for one period. */
  method Tally(mults: seq<real>, target: real, bet: real) returns (wins: nat, losses: nat, profit: real)
    ensures wins == CountAtLeast(mults, target) && wins + losses == |mults|
    ensures profit == FlatProfit(mults, target, bet)
  {
    wins, losses, profit := 0, 0, 0.0;
    for i := 0 to |mults|
      invariant wins == CountAtLeast(mults[..i], target) && wins + losses == i
      invariant profit == FlatProfit(mults[..i], target, bet)
    {
      assert mults[..i + 1][..i] == mults[..i];
      if mults[i] >= target {
        wins := wins + 1;
        profit := profit + bet * (target - 1.0);
      } else {
        losses := losses + 1;
        profit := profit - bet;
      }
    }
    assert mults[..|mults|] == mults;
  }

  /** One period's result of `simulate_strategy_by_period`. */
  method SimulateGroup(mults: seq<real>, target: real, bet: real) returns (r: Option<PeriodSimulation>)
    ensures r == GroupSimulation(mults, target, bet)
  {
    var wins, losses, profit := Tally(mults, target, bet);
    var total := wins + losses;
    if total > 0 && bet == 0.0 {
      return None;
    }
    var winRate := if total > 0 then wins as real / total as real * 100.0 else 0.0;
    var roi := if total > 0 then profit / (total as real * bet) * 100.0 else 0.0;
    r := Some(PeriodSimulation(total, wins, losses, winRate, profit, roi));
    assert total == |mults|;
    assert GroupSimulation(mults, target, bet).Some?;
    assert GroupSimulation(mults, target, bet).value.wins == wins;
    assert GroupSimulation(mults, target, bet).value.profit == profit;
    assert GroupSimulation(mults, target, bet).value.winRate == winRate;
    assert GroupSimulation(mults, target, bet).value.losses == losses;
    assert GroupSimulation(mults, target, bet).value.roi == roi;
    assert GroupSimulation(mults, target, bet).value.totalRounds == total;
  }

  /**
   * `simulate_strategy_by_period`: one simulation per period that received
   * a round; None when a period's ROI divides by a zero stake.
   */
  method SimulateStrategyByPeriod(data: seq<TimedRound>, periods: seq<Period>, target: real, bet: real)
    returns (results: Option<map<string, PeriodSimulation>>)
    requires DistinctNames(periods)
    ensures results.Some? <==> forall k :: 0 <= k < |periods| ==> GroupSimulation(Members(data, periods, k), target, bet).Some?
    ensures results.Some? ==>
              results.value.Keys == NamesWithRounds(data, periods, |periods|) &&
              forall k :: 0 <= k < |periods| && |Members(data, periods, k)| > 0 ==>
                periods[k].name in results.value && results.value[periods[k].name] == GroupSimulation(Members(data, periods, k), target, bet).value
  {
    hide GroupSimulation, Members, NamesWithRounds;
    var groups := GroupByPeriod(data, periods);
    var found: map<string, PeriodSimulation> := map[];
    NamesWithRoundsNone(data, periods);
    for k := 0 to |periods|
      invariant forall j :: 0 <= j < k ==> GroupSimulation(Members(data, periods, j), target, bet).Some?
      invariant found.Keys == NamesWithRounds(data, periods, k)
      invariant forall j :: 0 <= j < k && |Members(data, periods, j)| > 0 ==>
                  periods[j].name in found && found[periods[j].name] == GroupSimulation(Members(data, periods, j), target, bet).value
    {
      NamesWithRoundsStep(data, periods, k);
      if |groups[k]| > 0 {
        var s := SimulateGroup(groups[k], target, bet);
        if s.None? {
          assert !GroupSimulation(Members(data, periods, k), target, bet).Some?;
          return None;
        }
        found := found[periods[k].name := s.value];
      } else {
        EmptyGroupSimulates(groups[k], target, bet);
      }
    }
    results := Some(found);
  }
}
