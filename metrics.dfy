/**
 * The performance report of a backtest (PerformanceMetrics) and how it is
 * computed from a strategy's trade log: counts, money, win/loss averages,
 * the profit factor, the drawdown scan over the equity curve and the
 * win/loss streak scan. `MetricsOf` is the report as a function of the log;
 * `CalculateMetrics` computes it with the two scanning loops of the source.
 */
module Metrics {
  import opened Common
  import opened Records

  datatype PerformanceMetrics = PerformanceMetrics(
    totalRounds: int,
    roundsBet: nat,
    roundsWon: nat,
    roundsLost: int,
    roundsSkipped: int,
    initialBankroll: real,
    finalBankroll: real,
    totalProfit: real,
    totalWagered: real,
    roiPercent: real,
    winRate: real,
    avgWin: real,
    avgLoss: real,
    profitFactor: Ratio,
    maxDrawdown: real,
    maxDrawdownPercent: real,
    maxConsecutiveLosses: nat,
    maxConsecutiveWins: nat,
    sharpeRatio: real,
    sortinoRatio: Ratio,
    calmarRatio: real,
    expectancy: real,
    peakBankroll: real,
    lowestBankroll: real)

  /**
   * The Sharpe and Sortino ratios need a square root and a standard
   * deviation of the per-bet returns; they are parameters of the model.
   */
  datatype RiskModel = RiskModel(sharpe: seq<TradeRecord> -> real, sortino: seq<TradeRecord> -> Ratio)

  // ---------------------------------------------------------------------
  // Sequences of numbers

  /** The positive entries, in order (`[p for p in profits if p > 0]`). */
  function Positives(xs: seq<real>): (r: seq<real>)
    ensures |r| <= |xs|
    ensures forall i :: 0 <= i < |r| ==> r[i] > 0.0
    ensures SumR(r) >= 0.0 && (|r| > 0 ==> SumR(r) > 0.0)
  {
    if |xs| == 0 then []
    else
      var init := Positives(xs[..|xs| - 1]);
      var x := xs[|xs| - 1];
      if x > 0.0 then
        assert (init + [x])[..|init|] == init;
        init + [x]
      else init
  }

  /** The negative entries, in order (`[p for p in profits if p < 0]`). */
  function Negatives(xs: seq<real>): (r: seq<real>)
    ensures |r| <= |xs|
    ensures forall i :: 0 <= i < |r| ==> r[i] < 0.0
    ensures SumR(r) <= 0.0 && (|r| > 0 ==> SumR(r) < 0.0)
  {
    if |xs| == 0 then []
    else
      var init := Negatives(xs[..|xs| - 1]);
      var x := xs[|xs| - 1];
      if x < 0.0 then
        assert (init + [x])[..|init|] == init;
        init + [x]
      else init
  }

  /** The profit column sums to the profit of the whole log. */
  lemma {:induction false} ProfitsSum(log: seq<TradeRecord>)
    ensures SumR(Profits(log)) == SumProfit(log)
  {
    if |log| > 0 {
      var init := log[..|log| - 1];
      ProfitsSum(init);
      assert Profits(log)[..|log| - 1] == Profits(init);
    }
  }

  /** Gross profit less gross loss is the net of all trades; a zero profit falls in neither list. */
  lemma {:induction false} GrossNet(xs: seq<real>)
    ensures SumR(Positives(xs)) - AbsR(SumR(Negatives(xs))) == SumR(xs)
  {
    GrossSplit(xs);
  }

  lemma {:induction false} GrossSplit(xs: seq<real>)
    ensures SumR(Positives(xs)) + SumR(Negatives(xs)) == SumR(xs)
  {
    if |xs| > 0 {
      var init := xs[..|xs| - 1];
      var x := xs[|xs| - 1];
      GrossSplit(init);
      SumRAppend(Positives(init), [x]);
      SumRAppend(Negatives(init), [x]);
      assert SumR([x]) == SumR([x][..0]) + x;
    }
  }

  function Mean(xs: seq<real>): real
    requires |xs| > 0
  {
    SumR(xs) / |xs| as real
  }

  function MaxOf(xs: seq<real>): (r: real)
    requires |xs| > 0
    ensures r in xs && forall i :: 0 <= i < |xs| ==> xs[i] <= r
  {
    if |xs| == 1 then xs[0]
    else
      var m := MaxOf(xs[..|xs| - 1]);
      assert m in xs[..|xs| - 1];
      MaxR(m, xs[|xs| - 1])
  }

  function MinOf(xs: seq<real>): (r: real)
    requires |xs| > 0
    ensures r in xs && forall i :: 0 <= i < |xs| ==> r <= xs[i]
  {
    if |xs| == 1 then xs[0]
    else
      var m := MinOf(xs[..|xs| - 1]);
      assert m in xs[..|xs| - 1];
      MinR(m, xs[|xs| - 1])
  }

  /**
   * Gross profit over gross loss; with no loss it is +inf when there was a
   * profit and 0 otherwise.
   */
  function ProfitFactor(grossProfit: real, grossLoss: real): (r: Ratio)
    requires grossProfit >= 0.0 && grossLoss >= 0.0
    ensures r.PosInf? <==> grossLoss == 0.0 && grossProfit > 0.0
    ensures r == Finite(0.0) <==> grossProfit == 0.0
    ensures !r.NegInf? && (r.Finite? ==> r.value >= 0.0)
    ensures grossLoss > 0.0 ==> r == Finite(grossProfit / grossLoss)
  {
    if grossLoss > 0.0 then Finite(grossProfit / grossLoss)
    else if grossProfit > 0.0 then PosInf
    else Finite(0.0)
  }

  // ---------------------------------------------------------------------
  // The drawdown scan

  /** The running peak, the largest drawdown so far and its percentage of the peak then. */
  datatype Drawdown = Drawdown(peak: real, maxDd: real, maxDdPct: real)

  function DrawdownStep(s: Drawdown, equity: real): Drawdown
  {
    var peak := if equity > s.peak then equity else s.peak;
    var dd := peak - equity;
    var ddPct := if peak > 0.0 then dd / peak else 0.0;
    if dd > s.maxDd then Drawdown(peak, dd, ddPct) else Drawdown(peak, s.maxDd, s.maxDdPct)
  }

  /** The scan after its first `k` points, starting with the first point as peak. */
  function DrawdownOver(curve: seq<real>, k: nat): Drawdown
    requires 0 < |curve| && k <= |curve|
  {
    if k == 0 then Drawdown(curve[0], 0.0, 0.0)
    else DrawdownStep(DrawdownOver(curve, k - 1), curve[k - 1])
  }

  /** The fall of point `i` below the highest point up to it. */
  function DrawdownAt(curve: seq<real>, i: nat): real
    requires i < |curve|
  {
    MaxOf(curve[..i + 1]) - curve[i]
  }

  function DrawdownPctAt(curve: seq<real>, i: nat): real
    requires i < |curve|
  {
    var peak := MaxOf(curve[..i + 1]);
    if peak > 0.0 then (peak - curve[i]) / peak else 0.0
  }

  /** The scan's peak is the highest point seen so far. */
  lemma {:induction false} DrawdownPeak(curve: seq<real>, k: nat)
    requires 0 < k <= |curve|
    ensures DrawdownOver(curve, k).peak == MaxOf(curve[..k])
  {
    if k == 1 {
      assert curve[..1] == [curve[0]];
    } else {
      DrawdownPeak(curve, k - 1);
      assert curve[..k][..k - 1] == curve[..k - 1];
    }
  }

  /** The scan's drawdown is never negative and no point falls further below its peak. */
  lemma {:induction false} DrawdownBound(curve: seq<real>, k: nat)
    requires 0 < k <= |curve|
    ensures DrawdownOver(curve, k).maxDd >= 0.0
    ensures forall i :: 0 <= i < k ==> DrawdownAt(curve, i) <= DrawdownOver(curve, k).maxDd
  {
    DrawdownPeak(curve, k);
    if k == 1 {
      assert curve[..1] == [curve[0]];
    } else {
      DrawdownBound(curve, k - 1);
    }
  }

  /**
   * The percentage the scan reports is that of the FIRST point where the
   * largest fall occurs (`w`), or 0 when nothing fell.
   */
  lemma {:induction false} DrawdownWitness(curve: seq<real>, k: nat) returns (w: int)
    requires 0 < k <= |curve|
    ensures var s := DrawdownOver(curve, k);
            (w == -1 && s.maxDd == 0.0 && s.maxDdPct == 0.0) ||
            (0 <= w < k && s.maxDd == DrawdownAt(curve, w) && s.maxDdPct == DrawdownPctAt(curve, w) &&
             forall i :: 0 <= i < w ==> DrawdownAt(curve, i) < s.maxDd)
  {
    DrawdownPeak(curve, k);
    if k == 1 {
      assert curve[..1] == [curve[0]];
      w := -1;
    } else {
      var w0 := DrawdownWitness(curve, k - 1);
      DrawdownBound(curve, k - 1);
      if DrawdownAt(curve, k - 1) > DrawdownOver(curve, k - 1).maxDd {
        w := k - 1;
      } else {
        w := w0;
      }
    }
  }

  // ---------------------------------------------------------------------
  // The streak scan

  /** Current and longest runs of wins and of losses. */
  datatype Streaks = Streaks(currentWins: nat, currentLosses: nat, maxWins: nat, maxLosses: nat)

  function StreakStep(s: Streaks, won: bool): Streaks
  {
    if won then
      var cw := s.currentWins + 1;
      Streaks(cw, 0, if s.maxWins >= cw then s.maxWins else cw, s.maxLosses)
    else
      var cl := s.currentLosses + 1;
      Streaks(0, cl, s.maxWins, if s.maxLosses >= cl then s.maxLosses else cl)
  }

  function StreakOver(outcomes: seq<bool>, k: nat): Streaks
    requires k <= |outcomes|
  {
    if k == 0 then Streaks(0, 0, 0, 0)
    else StreakStep(StreakOver(outcomes, k - 1), outcomes[k - 1])
  }

  function Current(s: Streaks, v: bool): nat
  {
    if v then s.currentWins else s.currentLosses
  }

  function Longest(s: Streaks, v: bool): nat
  {
    if v then s.maxWins else s.maxLosses
  }

  /** Every outcome in positions [i, j) is `v`. */
  predicate RunOf(outcomes: seq<bool>, i: nat, j: nat, v: bool)
    requires i <= j <= |outcomes|
  {
    forall t :: i <= t < j ==> outcomes[t] == v
  }

  /** Length of the run of `v` that ends the sequence. */
  function TrailingRun(outcomes: seq<bool>, v: bool): (n: nat)
    ensures n <= |outcomes|
    ensures forall t :: |outcomes| - n <= t < |outcomes| ==> outcomes[t] == v
    ensures n < |outcomes| ==> outcomes[|outcomes| - 1 - n] != v
  {
    if |outcomes| == 0 || outcomes[|outcomes| - 1] != v then 0
    else TrailingRun(outcomes[..|outcomes| - 1], v) + 1
  }

  /** The scan's current counter is the run of `v` ending the outcomes seen, and never exceeds the maximum. */
  lemma {:induction false} StreakCurrent(outcomes: seq<bool>, k: nat, v: bool)
    requires k <= |outcomes|
    ensures Current(StreakOver(outcomes, k), v) == TrailingRun(outcomes[..k], v)
    ensures Current(StreakOver(outcomes, k), v) <= Longest(StreakOver(outcomes, k), v)
  {
    if k > 0 {
      StreakCurrent(outcomes, k - 1, v);
      assert outcomes[..k][..k - 1] == outcomes[..k - 1];
    }
  }

  /** A run of `v` ending at `j` is no longer than the trailing run of `outcomes[..j]`. */
  lemma RunWithinTrailing(outcomes: seq<bool>, i: nat, j: nat, v: bool)
    requires i <= j <= |outcomes| && RunOf(outcomes, i, j, v)
    ensures j - i <= TrailingRun(outcomes[..j], v)
  {
  }

  /** No run of `v` in the first `k` outcomes is longer than the scan's maximum. */
  lemma {:induction false} StreakUpper(outcomes: seq<bool>, k: nat, v: bool)
    requires k <= |outcomes|
    ensures forall i: nat, j: nat :: i <= j <= k && RunOf(outcomes, i, j, v) ==>
              j - i <= Longest(StreakOver(outcomes, k), v)
  {
    if k > 0 {
      StreakUpper(outcomes, k - 1, v);
      StreakCurrent(outcomes, k, v);
      forall i: nat, j: nat | i <= j <= k && RunOf(outcomes, i, j, v)
        ensures j - i <= Longest(StreakOver(outcomes, k), v)
      {
        if j == k {
          RunWithinTrailing(outcomes, i, j, v);
        } else {
          assert RunOf(outcomes, i, j, v);
        }
      }
    }
  }

  /** Some run of `v`, starting at `w`, is exactly as long as the scan's maximum. */
  lemma {:induction false} StreakWitness(outcomes: seq<bool>, k: nat, v: bool) returns (w: nat)
    requires k <= |outcomes|
    ensures w + Longest(StreakOver(outcomes, k), v) <= k
    ensures RunOf(outcomes, w, w + Longest(StreakOver(outcomes, k), v), v)
  {
    if k == 0 {
      w := 0;
    } else {
      var w0 := StreakWitness(outcomes, k - 1, v);
      StreakCurrent(outcomes, k, v);
      var cur := Current(StreakOver(outcomes, k), v);
      if cur > Longest(StreakOver(outcomes, k - 1), v) {
        w := k - cur;
        forall t | w <= t < k
          ensures outcomes[t] == v
        {
          assert outcomes[..k][t] == outcomes[t];
        }
      } else {
        w := w0;
      }
    }
  }

  // ---------------------------------------------------------------------
  // The report

  /** The report of an empty log: nothing bet, every round skipped, the bankroll untouched. */
  function EmptyMetrics(initialBankroll: real, totalRounds: int): PerformanceMetrics
  {
    PerformanceMetrics(totalRounds, 0, 0, 0, totalRounds,
                       initialBankroll, initialBankroll, 0.0, 0.0, 0.0,
                       0.0, 0.0, 0.0, Finite(0.0),
                       0.0, 0.0, 0, 0,
                       0.0, Finite(0.0), 0.0, 0.0,
                       initialBankroll, initialBankroll)
  }

  /** `[initial_bankroll] + bankrolls`. */
  function EquityCurve(log: seq<TradeRecord>, initialBankroll: real): (curve: seq<real>)
    ensures |curve| == |log| + 1 && curve[0] == initialBankroll
    ensures forall i :: 0 <= i < |log| ==> curve[i + 1] == log[i].bankroll
  {
    [initialBankroll] + Bankrolls(log)
  }

  /** Profit as a percentage of the initial bankroll, 0 when that is not positive. */
  function RoiPercent(totalProfit: real, initialBankroll: real): (r: real)
    ensures initialBankroll > 0.0 ==> (r > 0.0 <==> totalProfit > 0.0) && (r < 0.0 <==> totalProfit < 0.0)
    ensures initialBankroll <= 0.0 ==> r == 0.0
  {
    if initialBankroll > 0.0 then totalProfit / initialBankroll * 100.0 else 0.0
  }

  function WinRate(won: nat, bet: nat): (r: real)
    requires 0 < bet && won <= bet
    ensures 0.0 <= r <= 1.0 && (r == 0.0 <==> won == 0) && (r == 1.0 <==> won == bet)
  {
    won as real / bet as real
  }

  /** Mean profit of the winning bets, 0 without any. */
  function AvgWin(profits: seq<real>): (r: real)
    ensures r >= 0.0 && (r > 0.0 <==> |Positives(profits)| > 0)
  {
    var winning := Positives(profits);
    if |winning| > 0 then Mean(winning) else 0.0
  }

  /** Size of the mean loss of the losing bets, 0 without any. */
  function AvgLoss(profits: seq<real>): (r: real)
    ensures r >= 0.0 && (r > 0.0 <==> |Negatives(profits)| > 0)
  {
    var losing := Negatives(profits);
    if |losing| > 0 then AbsR(Mean(losing)) else 0.0
  }

  /** The calmar ratio: yearly return (taken as ROI / 100) over the drawdown fraction, 0 without drawdown. */
  function Calmar(roiPercent: real, maxDdFraction: real): (r: real)
    ensures maxDdFraction <= 0.0 ==> r == 0.0
    ensures maxDdFraction > 0.0 ==> (r > 0.0 <==> roiPercent > 0.0) && (r < 0.0 <==> roiPercent < 0.0)
  {
    if maxDdFraction > 0.0 then (roiPercent / 100.0) / maxDdFraction else 0.0
  }

  function Expectancy(winRate: real, avgWin: real, avgLoss: real): real
  {
    winRate * avgWin - (1.0 - winRate) * avgLoss
  }

  /** The report of a non-empty log, given the results of the two scans. */
  function Report(log: seq<TradeRecord>, initialBankroll: real, totalRounds: int, risk: RiskModel,
                  dd: Drawdown, maxWins: nat, maxLosses: nat): (m: PerformanceMetrics)
    requires |log| > 0
  {
    var roundsWon := CountWon(log);
    var totalProfit := log[|log| - 1].bankroll - initialBankroll;
    var roi := RoiPercent(totalProfit, initialBankroll);
    var winRate := WinRate(roundsWon, |log|);
    var profits := Profits(log);
    var curve := EquityCurve(log, initialBankroll);
    PerformanceMetrics(
      totalRounds, |log|, roundsWon, |log| - roundsWon, totalRounds - |log|,
      initialBankroll, log[|log| - 1].bankroll, totalProfit, SumStake(log), roi,
      winRate, AvgWin(profits), AvgLoss(profits),
      ProfitFactor(SumR(Positives(profits)), AbsR(SumR(Negatives(profits)))),
      dd.maxDd, dd.maxDdPct * 100.0, maxLosses, maxWins,
      if |log| > 1 then risk.sharpe(log) else 0.0,
      if |log| > 1 then risk.sortino(log) else Finite(0.0),
      Calmar(roi, dd.maxDdPct), Expectancy(winRate, AvgWin(profits), AvgLoss(profits)),
      MaxOf(curve), MinOf(curve))
  }

  /** `calculate_metrics` as a function of the trade log. */
  function MetricsOf(log: seq<TradeRecord>, initialBankroll: real, totalRounds: int, risk: RiskModel)
    : (m: PerformanceMetrics)
  {
    if |log| == 0 then EmptyMetrics(initialBankroll, totalRounds)
    else
      var curve := EquityCurve(log, initialBankroll);
      var streaks := StreakOver(Outcomes(log), |log|);
      Report(log, initialBankroll, totalRounds, risk,
             DrawdownOver(curve, |curve|), streaks.maxWins, streaks.maxLosses)
  }

  /** The counters of the report: every bet is a win or a loss, every other round was skipped. */
  lemma MetricsCounts(log: seq<TradeRecord>, initialBankroll: real, totalRounds: int, risk: RiskModel)
    ensures var m := MetricsOf(log, initialBankroll, totalRounds, risk);
            m.totalRounds == totalRounds && m.roundsBet == |log| &&
            m.roundsWon == CountWon(log) && m.roundsWon + m.roundsLost == m.roundsBet &&
            m.roundsSkipped == totalRounds - |log|
  {
  }

  /** The money of the report: final bankroll is the last logged one, profit is its gain, stakes are summed. */
  lemma MetricsMoney(log: seq<TradeRecord>, initialBankroll: real, totalRounds: int, risk: RiskModel)
    ensures var m := MetricsOf(log, initialBankroll, totalRounds, risk);
            m.initialBankroll == initialBankroll &&
            m.finalBankroll == (if |log| == 0 then initialBankroll else log[|log| - 1].bankroll) &&
            m.totalProfit == m.finalBankroll - initialBankroll &&
            m.totalWagered == SumStake(log)
  {
  }

  /** The ratios of the report stay in their ranges; the risk ratios need at least two bets. */
  lemma MetricsRanges(log: seq<TradeRecord>, initialBankroll: real, totalRounds: int, risk: RiskModel)
    ensures var m := MetricsOf(log, initialBankroll, totalRounds, risk);
            0.0 <= m.winRate <= 1.0 && m.avgWin >= 0.0 && m.avgLoss >= 0.0 &&
            !m.profitFactor.NegInf? &&
            (m.maxDrawdownPercent <= 0.0 ==> m.calmarRatio == 0.0) &&
            (|log| <= 1 ==> m.sharpeRatio == 0.0 && m.sortinoRatio == Finite(0.0))
  {
  }

  /** The peak and the low of the report bracket the initial bankroll and every logged bankroll. */
  lemma MetricsEquityRange(log: seq<TradeRecord>, initialBankroll: real, totalRounds: int, risk: RiskModel)
    ensures var m := MetricsOf(log, initialBankroll, totalRounds, risk);
            m.lowestBankroll <= initialBankroll <= m.peakBankroll &&
            forall i :: 0 <= i < |log| ==> m.lowestBankroll <= log[i].bankroll <= m.peakBankroll
  {
    var m := MetricsOf(log, initialBankroll, totalRounds, risk);
    var curve := EquityCurve(log, initialBankroll);
    forall i | 0 <= i < |log|
      ensures m.lowestBankroll <= log[i].bankroll <= m.peakBankroll
    {
      assert curve[i + 1] == log[i].bankroll;
    }
  }

  /** The report's drawdown is the largest fall of the equity curve below an earlier peak. */
  lemma MetricsDrawdown(log: seq<TradeRecord>, initialBankroll: real, totalRounds: int, risk: RiskModel)
    returns (w: int)
    ensures var m := MetricsOf(log, initialBankroll, totalRounds, risk);
            var curve := EquityCurve(log, initialBankroll);
            m.maxDrawdown >= 0.0 &&
            (forall i :: 0 <= i < |curve| ==> DrawdownAt(curve, i) <= m.maxDrawdown) &&
            ((w == -1 && m.maxDrawdown == 0.0 && m.maxDrawdownPercent == 0.0) ||
             (0 <= w < |curve| && m.maxDrawdown == DrawdownAt(curve, w) &&
              m.maxDrawdownPercent == DrawdownPctAt(curve, w) * 100.0))
  {
    var curve := EquityCurve(log, initialBankroll);
    if |log| > 0 {
      var m := MetricsOf(log, initialBankroll, totalRounds, risk);
      var s := DrawdownOver(curve, |curve|);
      assert m.maxDrawdown == s.maxDd && m.maxDrawdownPercent == s.maxDdPct * 100.0;
      DrawdownBound(curve, |curve|);
      w := DrawdownWitness(curve, |curve|);
    } else {
      assert curve[..1] == curve;
      w := -1;
    }
  }

  /**
   * The streak fields of the report are the lengths of the longest runs of
   * wins and of losses in the log: no run is longer, and each is attained.
   */
  lemma MetricsStreaks(log: seq<TradeRecord>, initialBankroll: real, totalRounds: int, risk: RiskModel, v: bool)
    returns (w: nat)
    ensures var m := MetricsOf(log, initialBankroll, totalRounds, risk);
            var longest := if v then m.maxConsecutiveWins else m.maxConsecutiveLosses;
            (forall i: nat, j: nat :: i <= j <= |log| && RunOf(Outcomes(log), i, j, v) ==> j - i <= longest) &&
            w + longest <= |log| && RunOf(Outcomes(log), w, w + longest, v)
  {
    if |log| > 0 {
      var m := MetricsOf(log, initialBankroll, totalRounds, risk);
      var outcomes := Outcomes(log);
      assert (if v then m.maxConsecutiveWins else m.maxConsecutiveLosses)
             == Longest(StreakOver(outcomes, |log|), v);
      StreakUpper(outcomes, |log|, v);
      w := StreakWitness(outcomes, |log|, v);
    } else {
      w := 0;
    }
  }

  /** The drawdown loop of `calculate_metrics` over the equity curve. */
  method ScanDrawdown(curve: seq<real>) returns (peak: real, maxDd: real, maxDdPct: real)
    requires |curve| > 0
    ensures Drawdown(peak, maxDd, maxDdPct) == DrawdownOver(curve, |curve|)
  {
    peak := curve[0];
    maxDd := 0.0;
    maxDdPct := 0.0;
    for k := 0 to |curve|
      invariant Drawdown(peak, maxDd, maxDdPct) == DrawdownOver(curve, k)
    {
      var equity := curve[k];
      if equity > peak {
        peak := equity;
      }
      var dd := peak - equity;
      var ddPct := if peak > 0.0 then dd / peak else 0.0;
      if dd > maxDd {
        maxDd := dd;
        maxDdPct := ddPct;
      }
    }
  }

  /** The streak loop of `calculate_metrics` over the outcomes of the log. */
  method ScanStreaks(wins: seq<bool>) returns (maxConsecWins: nat, maxConsecLosses: nat)
    ensures maxConsecWins == StreakOver(wins, |wins|).maxWins
    ensures maxConsecLosses == StreakOver(wins, |wins|).maxLosses
  {
    maxConsecWins := 0;
    maxConsecLosses := 0;
    var currentWins: nat := 0;
    var currentLosses: nat := 0;
    for k := 0 to |wins|
      invariant Streaks(currentWins, currentLosses, maxConsecWins, maxConsecLosses) == StreakOver(wins, k)
    {
      if wins[k] {
        currentWins := currentWins + 1;
        currentLosses := 0;
        maxConsecWins := if maxConsecWins >= currentWins then maxConsecWins else currentWins;
      } else {
        currentLosses := currentLosses + 1;
        currentWins := 0;
        maxConsecLosses := if maxConsecLosses >= currentLosses then maxConsecLosses else currentLosses;
      }
    }
  }

  /**
   * `calculate_metrics`: the counts and sums as expressions, then the
   * drawdown scan and the streak scan as loops.
   */
  method CalculateMetrics(log: seq<TradeRecord>, initialBankroll: real, totalRounds: int, risk: RiskModel)
    returns (m: PerformanceMetrics)
    ensures m == MetricsOf(log, initialBankroll, totalRounds, risk)
  {
    if |log| == 0 {
      return EmptyMetrics(initialBankroll, totalRounds);
    }
    var curve := EquityCurve(log, initialBankroll);
    var peak, maxDd, maxDdPct := ScanDrawdown(curve);
    var maxConsecWins, maxConsecLosses := ScanStreaks(Outcomes(log));
    m := Report(log, initialBankroll, totalRounds, risk,
                Drawdown(peak, maxDd, maxDdPct), maxConsecWins, maxConsecLosses);
  }
}
