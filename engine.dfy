/**
 * The single-pass backtest loop (BacktestEngine.run_backtest) and the
 * drivers built on it: comparison of several strategies, walk-forward
 * windows and Monte-Carlo resampling. `RunPrefix` says what the loop does
 * to a strategy's state; `RunRounds` is the loop itself.
 */
module Engine {
  import opened Common
  import opened Records
  import opened StrategyLogic
  import opened StrategyObject
  import opened Metrics
  import StrategyFacts

  /** BacktestConfig without the verbosity flag. */
  datatype BacktestConfig = BacktestConfig(
    initialBankroll: real,
    startRound: Option<int>,
    endRound: Option<int>,
    warmupRounds: int)

  /** When the loop checks for ruin: after every round, or only after a placed bet. */
  datatype RuinCheck = AfterEveryRound | AfterBetOnly

  /** The strategy's state after some rounds, and whether the loop has broken off. */
  datatype RunState = RunState(state: StrategyState, stopped: bool)

  // ---------------------------------------------------------------------
  // Choosing the rounds

  /** `[r for r in rounds if keep(r)]`. */
  function Filter(rounds: seq<Round>, keep: Round -> bool): (r: seq<Round>)
    ensures |r| <= |rounds|
    ensures forall x :: x in r <==> x in rounds && keep(x)
  {
    if |rounds| == 0 then []
    else
      var init := rounds[..|rounds| - 1];
      var last := rounds[|rounds| - 1];
      assert rounds == init + [last];
      Filter(init, keep) + (if keep(last) then [last] else [])
  }

  predicate InIdRange(r: Round, cfg: BacktestConfig)
  {
    (cfg.startRound.Some? ==> r.id >= cfg.startRound.value) &&
    (cfg.endRound.Some? ==> r.id <= cfg.endRound.value)
  }

  /** The rounds of the id range, in order, before the warm-up is dropped. */
  function RoundsInRange(rounds: seq<Round>, cfg: BacktestConfig): (r: seq<Round>)
    ensures forall x :: x in r <==> x in rounds && InIdRange(x, cfg)
  {
    var fromStart := if cfg.startRound.Some? then
                       var lo := cfg.startRound.value; Filter(rounds, (x: Round) => x.id >= lo)
                     else rounds;
    if cfg.endRound.Some? then
      var hi := cfg.endRound.value; Filter(fromStart, (x: Round) => x.id <= hi)
    else fromStart
  }

  /**
   * The rounds a backtest walks: those with an id inside the inclusive
   * range, without the first `warmup_rounds` of them.
   */
  function TestRounds(rounds: seq<Round>, cfg: BacktestConfig): (r: seq<Round>)
    ensures forall x :: x in r ==> x in rounds && InIdRange(x, cfg)
    ensures var inRange := RoundsInRange(rounds, cfg);
            if cfg.warmupRounds <= 0 then r == inRange
            else if cfg.warmupRounds < |inRange| then r == inRange[cfg.warmupRounds..]
            else r == []
  {
    var inRange := RoundsInRange(rounds, cfg);
    if cfg.warmupRounds > 0 then
      var r := PySlice(inRange, cfg.warmupRounds, |inRange|);
      assert forall x :: x in r ==> x in inRange;
      r
    else inRange
  }

  // ---------------------------------------------------------------------
  // The loop as a function

  /**
   * One pass of a loop body: from the strategy's state, the rounds seen so
   * far and the current round to the next state, or None when it raises.
   */
  type Play = (StrategyState, seq<Round>, Round) -> Option<RunState>

  /**
   * One round of the loop: decide on the history, resolve a placed bet
   * against the current round and apply it, then check for ruin. None when
   * `decide` raises.
   */
  function PlayOnce(c: StrategyConfig, probe: DualProbe, ruin: RuinCheck, st: StrategyState,
                    history: seq<Round>, round: Round): Option<RunState>
  {
    if !DecideDefined(c, st, history) then None
    else
      var dec := Decide(c, st, history);
      if dec.decision.shouldBet then
        var res := Resolve(c, probe, dec.decision, round.multiplier);
        var after := OnRoundResult(c, dec.state, dec.decision, round, res.won, res.profit);
        Some(RunState(after, after.bankroll <= 0.0))
      else
        Some(RunState(dec.state, ruin == AfterEveryRound && dec.state.bankroll <= 0.0))
  }

  function Playing(c: StrategyConfig, probe: DualProbe, ruin: RuinCheck): Play
  {
    (st, history, round) => PlayOnce(c, probe, ruin, st, history, round)
  }

  /**
   * A loop after its first `k` rounds, from state `st0`: round `i` sees
   * `rounds[..w + i]` and plays `rounds[w + i]`; once stopped, nothing changes.
   */
  function Run(play: Play, st0: StrategyState, rounds: seq<Round>, w: nat, k: nat): Option<RunState>
    requires k == 0 || w + k <= |rounds|
  {
    if k == 0 then Some(RunState(st0, false))
    else match Run(play, st0, rounds, w, k - 1)
      case None => None
      case Some(o) => if o.stopped then Some(o) else play(o.state, rounds[..w + k - 1], rounds[w + k - 1])
  }

  /** The round after an unstopped prefix is one more play. */
  lemma RunNext(play: Play, st0: StrategyState, rounds: seq<Round>, w: nat, i: nat, st: StrategyState)
    requires w + i < |rounds| && Run(play, st0, rounds, w, i) == Some(RunState(st, false))
    ensures Run(play, st0, rounds, w, i + 1) == play(st, rounds[..w + i], rounds[w + i])
  {
  }

  lemma {:induction false} StoppedStays(play: Play, st0: StrategyState, rounds: seq<Round>, w: nat, k: nat, n: nat)
    requires k <= n && (n == 0 || w + n <= |rounds|)
    requires Run(play, st0, rounds, w, k).None? || Run(play, st0, rounds, w, k).value.stopped
    ensures Run(play, st0, rounds, w, n) == Run(play, st0, rounds, w, k)
    decreases n - k
  {
    if k < n {
      StoppedStays(play, st0, rounds, w, k, n - 1);
    }
  }

  // ---------------------------------------------------------------------
  // What the loop guarantees

  /**
   * No look-ahead: the state before round `k` depends only on the rounds
   * before position `w + k`, so the decision at round `k` (which sees
   * `rounds[..w + k]`) is the same for any continuation of those rounds.
   */
  lemma {:induction false} NoLookahead(play: Play, st0: StrategyState, a: seq<Round>, b: seq<Round>, w: nat, k: nat)
    requires w + k <= |a| && w + k <= |b| && a[..w + k] == b[..w + k]
    ensures Run(play, st0, a, w, k) == Run(play, st0, b, w, k)
  {
    if k > 0 {
      assert a[..w + k - 1] == a[..w + k][..w + k - 1];
      assert b[..w + k - 1] == b[..w + k][..w + k - 1];
      NoLookahead(play, st0, a, b, w, k - 1);
      assert a[w + k - 1] == a[..w + k][w + k - 1];
      assert b[w + k - 1] == b[..w + k][w + k - 1];
    }
  }

  /** `inv` holds after every round that starts where it holds. */
  ghost predicate Preserves(play: Play, inv: StrategyState -> bool)
  {
    forall st, history, round :: inv(st) && play(st, history, round).Some? ==>
      inv(play(st, history, round).value.state)
  }

  /** An invariant of every round holds after every prefix of the loop. */
  lemma {:induction false} RunPreserves(play: Play, inv: StrategyState -> bool, st0: StrategyState,
                                        rounds: seq<Round>, w: nat, k: nat)
    requires (k == 0 || w + k <= |rounds|) && Preserves(play, inv) && inv(st0)
    requires Run(play, st0, rounds, w, k).Some?
    ensures inv(Run(play, st0, rounds, w, k).value.state)
  {
    if k > 0 {
      RunPreserves(play, inv, st0, rounds, w, k - 1);
    }
  }

  /** Every round leaves the trade log as it was or appends one trade. */
  ghost predicate AppendsAtMostOne(play: Play)
  {
    forall st, history, round :: play(st, history, round).Some? ==>
      var log := play(st, history, round).value.state.history;
      |st.history| <= |log| <= |st.history| + 1 && log[..|st.history|] == st.history
  }

  /** The trade log of a loop only grows, by at most one trade per round. */
  lemma {:induction false} RunLogGrows(play: Play, st0: StrategyState, rounds: seq<Round>, w: nat, k: nat)
    requires (k == 0 || w + k <= |rounds|) && AppendsAtMostOne(play)
    requires Run(play, st0, rounds, w, k).Some?
    ensures var st := Run(play, st0, rounds, w, k).value.state;
            |st0.history| <= |st.history| <= |st0.history| + k &&
            st.history[..|st0.history|] == st0.history
  {
    if k > 0 {
      RunLogGrows(play, st0, rounds, w, k - 1);
      var o := Run(play, st0, rounds, w, k - 1).value;
      if !o.stopped {
        var after := play(o.state, rounds[..w + k - 1], rounds[w + k - 1]).value.state;
        assert after.history[..|st0.history|] == o.state.history[..|st0.history|];
      }
    }
  }

  /** A round stops the loop only at ruin, and under AfterEveryRound at every ruin. */
  ghost predicate StopsAtRuin(play: Play, ruin: RuinCheck)
  {
    forall st, history, round :: play(st, history, round).Some? ==>
      var o := play(st, history, round).value;
      (o.stopped ==> o.state.bankroll <= 0.0) &&
      (ruin == AfterEveryRound && !o.stopped ==> o.state.bankroll > 0.0)
  }

  /**
   * The loop breaks off only at ruin, and it stops there: a stopped run has
   * a bankroll of at most 0, and when ruin is checked after every round a
   * run that goes on has a positive bankroll.
   */
  lemma {:induction false} RunStopsAtRuin(play: Play, ruin: RuinCheck, st0: StrategyState,
                                          rounds: seq<Round>, w: nat, k: nat)
    requires (k == 0 || w + k <= |rounds|) && StopsAtRuin(play, ruin)
    requires Run(play, st0, rounds, w, k).Some?
    ensures var o := Run(play, st0, rounds, w, k).value;
            (o.stopped ==> o.state.bankroll <= 0.0) &&
            (ruin == AfterEveryRound && k > 0 && !o.stopped ==> o.state.bankroll > 0.0)
  {
    if k > 0 {
      RunStopsAtRuin(play, ruin, st0, rounds, w, k - 1);
    }
  }

  // ---------------------------------------------------------------------
  // The round of the engines obeys those hypotheses

  /** The bookkeeping invariant of module StrategyFacts, for a fixed initial bankroll. */
  function LedgerFrom(initialBankroll: real): StrategyState -> bool
  {
    st => StrategyFacts.Ledger(st) && st.initialBankroll == initialBankroll
  }

  /** One round keeps the bookkeeping invariant of module StrategyFacts. */
  lemma {:induction false} PlayOnceKeepsLedger(c: StrategyConfig, probe: DualProbe, ruin: RuinCheck,
                                               st: StrategyState, history: seq<Round>, round: Round)
    requires StrategyFacts.Ledger(st) && PlayOnce(c, probe, ruin, st, history, round).Some?
    ensures var after := PlayOnce(c, probe, ruin, st, history, round).value.state;
            StrategyFacts.Ledger(after) && after.initialBankroll == st.initialBankroll
  {
    var dec := Decide(c, st, history);
    StrategyFacts.DecideKeepsLedger(c, st, history);
    if dec.decision.shouldBet {
      var res := Resolve(c, probe, dec.decision, round.multiplier);
      StrategyFacts.OnRoundResultKeepsLedger(c, dec.state, dec.decision, round, res.won, res.profit);
    }
  }

  lemma PlayingKeepsLedger(c: StrategyConfig, probe: DualProbe, ruin: RuinCheck, initialBankroll: real)
    ensures Preserves(Playing(c, probe, ruin), LedgerFrom(initialBankroll))
  {
    forall st, history, round | LedgerFrom(initialBankroll)(st) && Playing(c, probe, ruin)(st, history, round).Some?
      ensures LedgerFrom(initialBankroll)(Playing(c, probe, ruin)(st, history, round).value.state)
    {
      PlayOnceKeepsLedger(c, probe, ruin, st, history, round);
    }
  }

  lemma PlayingAppendsAtMostOne(c: StrategyConfig, probe: DualProbe, ruin: RuinCheck)
    ensures AppendsAtMostOne(Playing(c, probe, ruin))
  {
    forall st, history, round | Playing(c, probe, ruin)(st, history, round).Some?
      ensures var log := Playing(c, probe, ruin)(st, history, round).value.state.history;
              |st.history| <= |log| <= |st.history| + 1 && log[..|st.history|] == st.history
    {
      var after := PlayOnce(c, probe, ruin, st, history, round).value.state;
      if Decide(c, st, history).decision.shouldBet {
        assert after.history == st.history + [after.history[|after.history| - 1]];
      }
    }
  }

  lemma PlayingStopsAtRuin(c: StrategyConfig, probe: DualProbe, ruin: RuinCheck)
    ensures StopsAtRuin(Playing(c, probe, ruin), ruin)
  {
  }

  // ---------------------------------------------------------------------
  // The loop

  /**
   * One pass of the loop body shared by every driver: the round sees
   * `rounds[..w + i]`, a placed bet is resolved against `rounds[w + i]` and
   * applied, and ruin is checked. `raised` reports that `decide` raised;
   * `stopped` that the loop breaks here.
   */
  method PlayRound(strategy: Strategy, probe: DualProbe, ruin: RuinCheck, rounds: seq<Round>, w: nat, i: nat)
    returns (raised: bool, stopped: bool)
    requires w + i < |rounds|
    modifies strategy
    ensures var step := Playing(strategy.config, probe, ruin)(old(strategy.State()), rounds[..w + i], rounds[w + i]);
            if raised then step.None? else step == Some(RunState(strategy.State(), stopped))
  {
    var roundHistory := rounds[..w + i];
    if !DecideDefined(strategy.config, strategy.State(), roundHistory) {
      return true, false;
    }
    var decision := strategy.Decide(roundHistory);
    if decision.shouldBet {
      var res := Resolve(strategy.config, probe, decision, rounds[w + i].multiplier);
      strategy.OnRoundResult(decision, rounds[w + i], res.won, res.profit);
      stopped := strategy.bankroll <= 0.0;
    } else {
      stopped := ruin == AfterEveryRound && strategy.bankroll <= 0.0;
    }
    raised := false;
  }

  /** The loop of the drivers over `count` rounds, breaking off at ruin or when `decide` raises. */
  method RunRounds(strategy: Strategy, probe: DualProbe, ruin: RuinCheck, rounds: seq<Round>, w: nat, count: nat)
    returns (raised: bool, stopped: bool)
    requires count == 0 || w + count <= |rounds|
    modifies strategy
    ensures var run := Run(Playing(strategy.config, probe, ruin), old(strategy.State()), rounds, w, count);
            if raised then run.None? else run == Some(RunState(strategy.State(), stopped))
  {
    hide Playing;
    ghost var st0 := strategy.State();
    ghost var play := Playing(strategy.config, probe, ruin);
    raised, stopped := false, false;
    var i := 0;
    while i < count && !raised && !stopped
      invariant 0 <= i <= count
      invariant var run := Run(play, st0, rounds, w, i);
                if raised then run.None? else run == Some(RunState(strategy.State(), stopped))
    {
      ghost var before := strategy.State();
      raised, stopped := PlayRound(strategy, probe, ruin, rounds, w, i);
      RunNext(play, st0, rounds, w, i, before);
      i := i + 1;
    }
    if i < count {
      StoppedStays(play, st0, rounds, w, i, count);
    }
  }

  /** `reset()` followed by setting both bankroll fields, as every driver does before a run. */
  method ResetWith(strategy: Strategy, initialBankroll: real)
    modifies strategy
    ensures strategy.State() == InitialState(strategy.config, initialBankroll)
  {
    strategy.Reset();
    strategy.bankroll := initialBankroll;
    strategy.initialBankroll := initialBankroll;
  }

  // ---------------------------------------------------------------------
  // run_backtest

  /** The loop of a backtest over the selected rounds, from a freshly reset strategy. */
  function BacktestRun(c: StrategyConfig, cfg: BacktestConfig, rounds: seq<Round>): Option<RunState>
  {
    var test := TestRounds(rounds, cfg);
    Run(Playing(c, IsSafetyFirstInstance, AfterEveryRound), InitialState(c, cfg.initialBankroll), test, 0, |test|)
  }

  /** The report of a backtest; None when a `decide` raises. */
  function Backtest(c: StrategyConfig, cfg: BacktestConfig, rounds: seq<Round>, risk: RiskModel)
    : Option<PerformanceMetrics>
  {
    match BacktestRun(c, cfg, rounds)
    case None => None
    case Some(o) => Some(MetricsOf(o.state.history, cfg.initialBankroll, |TestRounds(rounds, cfg)|, risk))
  }

  /**
   * `run_backtest`. Its result depends only on the strategy's configuration,
   * the backtest configuration and the rounds, never on what the object did
   * before, so repeated runs give the same report.
   */
  method RunBacktest(strategy: Strategy, cfg: BacktestConfig, rounds: seq<Round>, risk: RiskModel)
    returns (r: Option<PerformanceMetrics>)
    modifies strategy
    ensures r == Backtest(strategy.config, cfg, rounds, risk)
    ensures r.Some? ==> strategy.State() == BacktestRun(strategy.config, cfg, rounds).value.state
  {
    ResetWith(strategy, cfg.initialBankroll);
    var test := TestRounds(rounds, cfg);
    if |test| == 0 {
      var m := CalculateMetrics([], cfg.initialBankroll, 0, risk);
      return Some(m);
    }
    var raised, _ := RunRounds(strategy, IsSafetyFirstInstance, AfterEveryRound, test, 0, |test|);
    if raised {
      return None;
    }
    var m := CalculateMetrics(strategy.history, cfg.initialBankroll, |test|, risk);
    return Some(m);
  }

  /**
   * A completed backtest logs at most one trade per selected round, and its
   * report's profit is the sum of the logged profits.
   */
  lemma BacktestAccounts(c: StrategyConfig, cfg: BacktestConfig, rounds: seq<Round>, risk: RiskModel)
    requires Backtest(c, cfg, rounds, risk).Some?
    ensures var m := Backtest(c, cfg, rounds, risk).value;
            var log := BacktestRun(c, cfg, rounds).value.state.history;
            m.roundsBet == |log| <= |TestRounds(rounds, cfg)| &&
            m.roundsSkipped >= 0 &&
            m.totalProfit == SumProfit(log) &&
            m.roundsWon == CountWon(log)
  {
    var test := TestRounds(rounds, cfg);
    var st0 := InitialState(c, cfg.initialBankroll);
    var play := Playing(c, IsSafetyFirstInstance, AfterEveryRound);
    StrategyFacts.InitialLedger(c, cfg.initialBankroll);
    var o := BacktestRun(c, cfg, rounds).value;
    MetricsCounts(o.state.history, cfg.initialBankroll, |test|, risk);
    MetricsMoney(o.state.history, cfg.initialBankroll, |test|, risk);
    PlayingAppendsAtMostOne(c, IsSafetyFirstInstance, AfterEveryRound);
    RunLogGrows(play, st0, test, 0, |test|);
    PlayingKeepsLedger(c, IsSafetyFirstInstance, AfterEveryRound, cfg.initialBankroll);
    RunPreserves(play, LedgerFrom(cfg.initialBankroll), st0, test, 0, |test|);
  }

  // ---------------------------------------------------------------------
  // run_comparison

  /**
   * Reports collected into a dictionary by name: a later name overwrites an
   * earlier one, and a failed run (None) fails the whole collection.
   */
  function Collect(names: seq<string>, reports: seq<Option<PerformanceMetrics>>)
    : Option<map<string, PerformanceMetrics>>
    requires |names| == |reports|
  {
    if |names| == 0 then Some(map[])
    else
      var n := |names| - 1;
      match Collect(names[..n], reports[..n])
      case None => None
      case Some(results) =>
        if reports[n].None? then None else Some(results[names[n] := reports[n].value])
  }

  /** The dictionary holds exactly the names, each with the report of its last occurrence. */
  lemma {:induction false} CollectKeepsLast(names: seq<string>, reports: seq<Option<PerformanceMetrics>>,
                                            name: string)
    requires |names| == |reports| && Collect(names, reports).Some?
    ensures var results := Collect(names, reports).value;
            (name in results <==> name in names) &&
            forall j :: 0 <= j < |names| && names[j] == name &&
                        (forall k :: j < k < |names| ==> names[k] != name) ==>
                          reports[j] == Some(results[name])
  {
    if |names| > 0 {
      var n := |names| - 1;
      CollectKeepsLast(names[..n], reports[..n], name);
      assert names == names[..n] + [names[n]];
      forall j | 0 <= j < |names| && names[j] == name && (forall k :: j < k < |names| ==> names[k] != name)
        ensures reports[j] == Some(Collect(names, reports).value[name])
      {
        if j < n {
          assert names[..n][j] == names[j] && reports[..n][j] == reports[j];
          assert forall k :: j < k < n ==> names[..n][k] == names[k];
        }
      }
    }
  }

  /** A comparison succeeds exactly when every strategy's backtest does. */
  lemma {:induction false} CollectSucceeds(names: seq<string>, reports: seq<Option<PerformanceMetrics>>)
    requires |names| == |reports|
    ensures Collect(names, reports).Some? <==> forall j :: 0 <= j < |reports| ==> reports[j].Some?
  {
    if |names| > 0 {
      var n := |names| - 1;
      CollectSucceeds(names[..n], reports[..n]);
      assert forall j :: 0 <= j < n ==> reports[..n][j] == reports[j];
    }
  }

  /** The report of each strategy's backtest, in order. */
  function Reports(configs: seq<StrategyConfig>, cfg: BacktestConfig, rounds: seq<Round>, risk: RiskModel)
    : (r: seq<Option<PerformanceMetrics>>)
    ensures |r| == |configs| && forall i :: 0 <= i < |configs| ==> r[i] == Backtest(configs[i], cfg, rounds, risk)
  {
    seq(|configs|, i requires 0 <= i < |configs| => Backtest(configs[i], cfg, rounds, risk))
  }

  function Configs(strategies: seq<Strategy>): (r: seq<StrategyConfig>)
    ensures |r| == |strategies| && forall i :: 0 <= i < |strategies| ==> r[i] == strategies[i].config
  {
    seq(|strategies|, i requires 0 <= i < |strategies| => strategies[i].config)
  }

  function Names(strategies: seq<Strategy>): (r: seq<string>)
    ensures |r| == |strategies| && forall i :: 0 <= i < |strategies| ==> r[i] == strategies[i].name
  {
    seq(|strategies|, i requires 0 <= i < |strategies| => strategies[i].name)
  }

  /** `run_comparison`: a backtest per strategy, collected by name. */
  method RunComparison(strategies: seq<Strategy>, cfg: BacktestConfig, rounds: seq<Round>, risk: RiskModel)
    returns (r: Option<map<string, PerformanceMetrics>>)
    modifies set s | s in strategies
    ensures r == Collect(Names(strategies), Reports(Configs(strategies), cfg, rounds, risk))
  {
    hide Backtest, BacktestRun, Playing;
    ghost var names := Names(strategies);
    ghost var reports := Reports(Configs(strategies), cfg, rounds, risk);
    var results: map<string, PerformanceMetrics> := map[];
    for i := 0 to |strategies|
      invariant Collect(names[..i], reports[..i]) == Some(results)
    {
      var m := RunBacktest(strategies[i], cfg, rounds, risk);
      assert names[..i + 1][..i] == names[..i] && reports[..i + 1][..i] == reports[..i];
      if m.None? {
        CollectSucceeds(names, reports);
        return None;
      }
      results := results[strategies[i].name := m.value];
    }
    assert names[..|strategies|] == names && reports[..|strategies|] == reports;
    return Some(results);
  }

  // ---------------------------------------------------------------------
  // walk_forward_test

  /** The bounds of one walk-forward window, as indices into all rounds. */
  datatype Window = Window(start: int, end: int, trainEnd: int)

  /** Window `i` of size `windowSize` over `n` rounds; the first `trainRatio` of it is for training. */
  function WindowOf(n: nat, windowSize: nat, i: nat, trainRatio: real): Window
  {
    var start := i * windowSize;
    var end := MinI((i + 1) * windowSize, n);
    Window(start, end, start + Trunc((end - start) as real * trainRatio))
  }

  /** Over `n` rounds, window `i` of `n_splits` lies inside the rounds and is exactly `n // n_splits` long. */
  lemma WindowInside(n: nat, nSplits: nat, i: nat, trainRatio: real)
    requires 0 <= i < nSplits
    ensures var win := WindowOf(n, n / nSplits, i, trainRatio);
            0 <= win.start <= win.end <= n && win.end - win.start == n / nSplits
  {
    var ws := n / nSplits;
    MulMono(i + 1, nSplits, ws);
    DivFloor(n, nSplits);
    assert (i + 1) * ws == i * ws + ws;
  }

  /** `d * (n // d) <= n`. */
  lemma DivFloor(n: nat, d: nat)
    requires 0 < d
    ensures d * (n / d) <= n
  {
  }

  lemma MulMono(a: nat, b: nat, c: nat)
    requires a <= b
    ensures a * c <= b * c
  {
  }

  /**
   * Of a window of `size` rounds, the training part (`int(size * train_ratio)`)
   * is within the window for a ratio in [0, 1], and leaves a test round when
   * the ratio is below 1.
   */
  lemma TrainPart(size: nat, trainRatio: real)
    requires 0.0 <= trainRatio <= 1.0
    ensures 0 <= Trunc(size as real * trainRatio) <= size
    ensures trainRatio < 1.0 && size > 0 ==> Trunc(size as real * trainRatio) < size
  {
    var x := size as real * trainRatio;
    assert 0.0 <= x;
    assert size as real - x == size as real * (1.0 - trainRatio);
    assert 0.0 <= size as real * (1.0 - trainRatio);
    if trainRatio < 1.0 && size > 0 {
      assert 0.0 < size as real * (1.0 - trainRatio);
    }
  }

  /**
   * With `n_splits` windows of size `n // n_splits`, the training part of a
   * window ends inside it for a ratio in [0, 1], and before its end for a
   * ratio below 1 and a non-empty window.
   */
  lemma WindowBounds(n: nat, nSplits: nat, i: nat, trainRatio: real)
    requires 0 <= i < nSplits && 0.0 <= trainRatio <= 1.0
    ensures var win := WindowOf(n, n / nSplits, i, trainRatio);
            0 <= win.start <= win.trainEnd <= win.end <= n &&
            (trainRatio < 1.0 && n / nSplits > 0 ==> win.trainEnd < win.end)
  {
    WindowInside(n, nSplits, i, trainRatio);
    TrainPart(n / nSplits, trainRatio);
  }

  /**
   * The test configuration of a window: from the round after the training
   * part to the last round of the window (open-ended for the last window),
   * without warm-up. None when an index falls outside the rounds.
   */
  function WindowConfig(cfg: BacktestConfig, rounds: seq<Round>, win: Window): Option<BacktestConfig>
  {
    match PyIndex(|rounds|, win.trainEnd)
    case None => None
    case Some(t) =>
      if win.end < |rounds| then
        match PyIndex(|rounds|, win.end - 1)
        case None => None
        case Some(e) => Some(BacktestConfig(cfg.initialBankroll, Some(rounds[t].id), Some(rounds[e].id), 0))
      else Some(BacktestConfig(cfg.initialBankroll, Some(rounds[t].id), None, 0))
  }

  /** A backtest over fixed rounds, as a function of its configuration. */
  type BacktestOf = BacktestConfig -> Option<PerformanceMetrics>

  /** The test configuration of window `i` of `n_splits` over `rounds`. */
  function WindowTestConfig(cfg: BacktestConfig, rounds: seq<Round>, nSplits: nat, i: nat, trainRatio: real)
    : Option<BacktestConfig>
    requires 0 < nSplits
  {
    WindowConfig(cfg, rounds, WindowOf(|rounds|, |rounds| / nSplits, i, trainRatio))
  }

  /** The reports of the first `k` windows, in window order, each from `backtest`. */
  function WalkForwardPrefix(backtest: BacktestOf, nSplits: nat, trainRatio: real, cfg: BacktestConfig,
                             rounds: seq<Round>, k: nat): Option<seq<PerformanceMetrics>>
    requires 0 < nSplits && k <= nSplits
  {
    hide WindowTestConfig;
    if k == 0 then Some([])
    else match WalkForwardPrefix(backtest, nSplits, trainRatio, cfg, rounds, k - 1)
      case None => None
      case Some(reports) =>
        match WindowTestConfig(cfg, rounds, nSplits, k - 1, trainRatio)
        case None => None
        case Some(testConfig) =>
          match backtest(testConfig)
          case None => None
          case Some(m) => Some(reports + [m])
  }

  /**
   * `walk_forward_test`. None when `n_splits` is 0 (the division raises) or
   * a window's index or backtest raises; no windows for a negative `n_splits`.
   */
  function WalkForward(c: StrategyConfig, nSplits: int, trainRatio: real, cfg: BacktestConfig,
                       rounds: seq<Round>, risk: RiskModel): Option<seq<PerformanceMetrics>>
  {
    if nSplits == 0 then None
    else if nSplits < 0 then Some([])
    else WalkForwardPrefix(BacktestOn(c, rounds, risk), nSplits, trainRatio, cfg, rounds, nSplits)
  }

  /** `run_backtest` of a strategy with configuration `c` on `rounds`, as a function of its configuration. */
  function BacktestOn(c: StrategyConfig, rounds: seq<Round>, risk: RiskModel): BacktestOf
  {
    (testConfig: BacktestConfig) => Backtest(c, testConfig, rounds, risk)
  }

  /**
   * Exactly one report per window comes back, report `i` being the backtest
   * of window `i`'s test configuration, which exists.
   */
  lemma {:induction false} WalkForwardReports(backtest: BacktestOf, nSplits: nat, trainRatio: real,
                                              cfg: BacktestConfig, rounds: seq<Round>, k: nat,
                                              reports: seq<PerformanceMetrics>)
    requires 0 < nSplits && k <= nSplits
    requires WalkForwardPrefix(backtest, nSplits, trainRatio, cfg, rounds, k) == Some(reports)
    ensures |reports| == k
    ensures forall i :: 0 <= i < k ==>
              WindowTestConfig(cfg, rounds, nSplits, i, trainRatio).Some? &&
              backtest(WindowTestConfig(cfg, rounds, nSplits, i, trainRatio).value) == Some(reports[i])
  {
    hide WindowTestConfig;
    if k > 0 {
      var previous := WalkForwardPrefix(backtest, nSplits, trainRatio, cfg, rounds, k - 1).value;
      WalkForwardReports(backtest, nSplits, trainRatio, cfg, rounds, k - 1, previous);
      assert reports == previous + [reports[k - 1]];
    }
  }

  /** Once a window raises, the whole walk-forward test raises. */
  lemma {:induction false} WalkForwardRaises(backtest: BacktestOf, nSplits: nat, trainRatio: real,
                                             cfg: BacktestConfig, rounds: seq<Round>, k: nat, m: nat)
    requires 0 < nSplits && k <= m <= nSplits
    requires WalkForwardPrefix(backtest, nSplits, trainRatio, cfg, rounds, k).None?
    ensures WalkForwardPrefix(backtest, nSplits, trainRatio, cfg, rounds, m).None?
    decreases m - k
  {
    if k < m {
      WalkForwardRaises(backtest, nSplits, trainRatio, cfg, rounds, k + 1, m);
    }
  }

  /**
   * For a train ratio in [0, 1) and at most as many windows as rounds, every
   * window has a test configuration: its test part starts inside the rounds.
   */
  lemma WindowConfigDefined(cfg: BacktestConfig, rounds: seq<Round>, nSplits: nat, i: nat, trainRatio: real)
    requires 0 <= i < nSplits <= |rounds| && 0.0 <= trainRatio < 1.0
    ensures WindowTestConfig(cfg, rounds, nSplits, i, trainRatio).Some?
  {
    assert |rounds| / nSplits > 0;
    WindowBounds(|rounds|, nSplits, i, trainRatio);
  }

  /** `walk_forward_test`: a fresh strategy per window, run as a backtest on the window's test part. */
  method WalkForwardTest(name: string, c: StrategyConfig, nSplits: int, trainRatio: real, cfg: BacktestConfig,
                         rounds: seq<Round>, risk: RiskModel)
    returns (r: Option<seq<PerformanceMetrics>>)
    ensures r == WalkForward(c, nSplits, trainRatio, cfg, rounds, risk)
  {
    hide Backtest, BacktestRun, Playing, WindowOf, WindowConfig;
    var n := |rounds|;
    if nSplits == 0 {
      return None;
    }
    if nSplits < 0 {
      return Some([]);
    }
    var windowSize := n / nSplits;
    var results: seq<PerformanceMetrics> := [];
    for i := 0 to nSplits
      invariant WalkForwardPrefix(BacktestOn(c, rounds, risk), nSplits, trainRatio, cfg, rounds, i) == Some(results)
    {
      var window := WindowOf(n, windowSize, i, trainRatio);
      var strategy := new Strategy(name, c, 1000.0);
      var testConfig := WindowConfig(cfg, rounds, window);
      assert testConfig == WindowTestConfig(cfg, rounds, nSplits, i, trainRatio);
      if testConfig.None? {
        WalkForwardRaises(BacktestOn(c, rounds, risk), nSplits, trainRatio, cfg, rounds, i + 1, nSplits);
        return None;
      }
      var metrics := RunBacktest(strategy, testConfig.value, rounds, risk);
      if metrics.None? {
        WalkForwardRaises(BacktestOn(c, rounds, risk), nSplits, trainRatio, cfg, rounds, i + 1, nSplits);
        return None;
      }
      results := results + [metrics.value];
    }
    return Some(results);
  }

  // ---------------------------------------------------------------------
  // monte_carlo_simulation

  /** One simulation's outcome: the recorded final bankroll, the ROI and whether it went bankrupt. */
  datatype SimResult = SimResult(finalBankroll: real, roi: real, bankrupt: bool)

  /** The statistics the model keeps of `monte_carlo_simulation`'s dictionary. */
  datatype MonteCarloReport = MonteCarloReport(
    nSimulations: int,
    finalBankrolls: seq<real>,
    rois: seq<real>,
    minRoi: real,
    maxRoi: real,
    bankruptcyRate: real,
    positiveRoiRate: real)

  /** The drawn indices are valid indices into the pool, as `np.random.choice(len(pool))` guarantees. */
  predicate ValidSamples(pool: seq<Round>, samples: seq<seq<int>>)
  {
    forall s, j :: 0 <= s < |samples| && 0 <= j < |samples[s]| ==> 0 <= samples[s][j] < |pool|
  }

  /** `[pool[i] for i in idx]`. */
  function Sampled(pool: seq<Round>, idx: seq<int>): (r: seq<Round>)
    requires forall j :: 0 <= j < |idx| ==> 0 <= idx[j] < |pool|
    ensures |r| == |idx| && forall j :: 0 <= j < |idx| ==> r[j] == pool[idx[j]]
  {
    seq(|idx|, j requires 0 <= j < |idx| => pool[idx[j]])
  }

  /** The rounds Monte-Carlo samples from: all rounds after the warm-up. */
  function Pool(rounds: seq<Round>, cfg: BacktestConfig): seq<Round>
  {
    PySlice(rounds, cfg.warmupRounds, |rounds|)
  }

  /**
   * One simulation: a freshly reset strategy plays the sampled rounds, with
   * ruin checked only after a placed bet. A bankrupt run records 0. None when
   * `decide` raises or the ROI divides by a zero initial bankroll.
   */
  function Simulation(c: StrategyConfig, initialBankroll: real, pool: seq<Round>, idx: seq<int>): Option<SimResult>
    requires forall j :: 0 <= j < |idx| ==> 0 <= idx[j] < |pool|
  {
    SimOutcome(initialBankroll, Run(Playing(c, IsSafetyFirstInstance, AfterBetOnly), InitialState(c, initialBankroll),
                                    Sampled(pool, idx), 0, |idx|))
  }

  /** What a simulation records of the strategy's run; None when the run raised or the ROI divides by 0. */
  function SimOutcome(initialBankroll: real, run: Option<RunState>): Option<SimResult>
  {
    match run
    case None => None
    case Some(o) =>
      if initialBankroll == 0.0 then None
      else Some(SimResult(if o.stopped then 0.0 else o.state.bankroll,
                          (o.state.bankroll - initialBankroll) / initialBankroll * 100.0,
                          o.stopped))
  }

  /** The first `k` simulations, in order. */
  function Simulations(c: StrategyConfig, initialBankroll: real, pool: seq<Round>, samples: seq<seq<int>>, k: nat)
    : (r: Option<seq<SimResult>>)
    requires k <= |samples| && ValidSamples(pool, samples)
    ensures r.Some? ==> |r.value| == k
  {
    hide Simulation;
    if k == 0 then Some([])
    else match Simulations(c, initialBankroll, pool, samples, k - 1)
      case None => None
      case Some(results) =>
        match Simulation(c, initialBankroll, pool, samples[k - 1])
        case None => None
        case Some(sim) => Some(results + [sim])
  }

  /** Once a simulation raises, the whole Monte-Carlo run raises. */
  lemma {:induction false} SimulationsRaise(c: StrategyConfig, initialBankroll: real, pool: seq<Round>,
                                            samples: seq<seq<int>>, k: nat, m: nat)
    requires k <= m <= |samples| && ValidSamples(pool, samples)
    requires Simulations(c, initialBankroll, pool, samples, k).None?
    ensures Simulations(c, initialBankroll, pool, samples, m).None?
    decreases m - k
  {
    if k < m {
      SimulationsRaise(c, initialBankroll, pool, samples, k + 1, m);
    }
  }

  function FinalBankrolls(results: seq<SimResult>): (r: seq<real>)
    ensures |r| == |results| && forall i :: 0 <= i < |results| ==> r[i] == results[i].finalBankroll
  {
    seq(|results|, i requires 0 <= i < |results| => results[i].finalBankroll)
  }

  function Rois(results: seq<SimResult>): (r: seq<real>)
    ensures |r| == |results| && forall i :: 0 <= i < |results| ==> r[i] == results[i].roi
  {
    seq(|results|, i requires 0 <= i < |results| => results[i].roi)
  }

  function CountBankrupt(results: seq<SimResult>): (n: nat)
    ensures n <= |results|
  {
    if |results| == 0 then 0
    else CountBankrupt(results[..|results| - 1]) + (if results[|results| - 1].bankrupt then 1 else 0)
  }

  /** `sum(1 for r in rois if r > 0)`. */
  function CountPositive(xs: seq<real>): (n: nat)
    ensures n <= |xs|
  {
    if |xs| == 0 then 0
    else CountPositive(xs[..|xs| - 1]) + (if xs[|xs| - 1] > 0.0 then 1 else 0)
  }

  /** The report over the final bankrolls, ROIs and bankruptcies of all `n_simulations` simulations. */
  function Summary(nSimulations: int, finalBankrolls: seq<real>, rois: seq<real>, bankruptcies: nat): MonteCarloReport
    requires 0 < nSimulations == |rois|
  {
    MonteCarloReport(nSimulations, finalBankrolls, rois, MinOf(rois), MaxOf(rois),
                     bankruptcies as real / nSimulations as real * 100.0,
                     CountPositive(rois) as real / nSimulations as real * 100.0)
  }

  /**
   * `monte_carlo_simulation` with the drawn indices as input. None when a
   * simulation raises, and when there is no simulation (the minimum of an
   * empty array raises).
   */
  function MonteCarlo(c: StrategyConfig, nSimulations: int, cfg: BacktestConfig, rounds: seq<Round>,
                      samples: seq<seq<int>>): Option<MonteCarloReport>
    requires |samples| == (if nSimulations > 0 then nSimulations else 0)
    requires ValidSamples(Pool(rounds, cfg), samples)
  {
    if nSimulations <= 0 then None
    else match Simulations(c, cfg.initialBankroll, Pool(rounds, cfg), samples, |samples|)
      case None => None
      case Some(results) =>
        Some(Summary(nSimulations, FinalBankrolls(results), Rois(results), CountBankrupt(results)))
  }

  /**
   * A bankrupt simulation records a final bankroll of 0 and ended with the
   * strategy's bankroll at most 0; a solvent one records the bankroll it
   * ended with.
   */
  lemma SimulationRecordsRuin(c: StrategyConfig, initialBankroll: real, pool: seq<Round>, idx: seq<int>)
    requires forall j :: 0 <= j < |idx| ==> 0 <= idx[j] < |pool|
    requires Simulation(c, initialBankroll, pool, idx).Some?
    ensures var sim := Simulation(c, initialBankroll, pool, idx).value;
            var o := Run(Playing(c, IsSafetyFirstInstance, AfterBetOnly), InitialState(c, initialBankroll),
                         Sampled(pool, idx), 0, |idx|).value;
            (sim.bankrupt ==> sim.finalBankroll == 0.0 && o.state.bankroll <= 0.0) &&
            (!sim.bankrupt ==> sim.finalBankroll == o.state.bankroll)
  {
    PlayingStopsAtRuin(c, IsSafetyFirstInstance, AfterBetOnly);
    RunStopsAtRuin(Playing(c, IsSafetyFirstInstance, AfterBetOnly), AfterBetOnly, InitialState(c, initialBankroll),
                   Sampled(pool, idx), 0, |idx|);
  }

  /**
   * A Monte-Carlo report lists one final bankroll and one ROI per
   * simulation, the ROI range bounds every ROI, and both rates are
   * percentages of the simulations; the bankruptcy rate is 0 exactly when
   * no simulation went bankrupt.
   */
  lemma MonteCarloRates(nSimulations: int, results: seq<SimResult>)
    requires 0 < nSimulations == |results|
    ensures var r := Summary(nSimulations, FinalBankrolls(results), Rois(results), CountBankrupt(results));
            |r.finalBankrolls| == |r.rois| == nSimulations &&
            0.0 <= r.bankruptcyRate <= 100.0 && 0.0 <= r.positiveRoiRate <= 100.0 &&
            (r.bankruptcyRate == 0.0 <==> forall i :: 0 <= i < |results| ==> !results[i].bankrupt) &&
            (forall i :: 0 <= i < |results| ==> r.minRoi <= results[i].roi <= r.maxRoi)
  {
    Percentage(CountBankrupt(results), nSimulations);
    Percentage(CountPositive(Rois(results)), nSimulations);
    NoBankruptcy(results);
  }

  lemma {:induction false} NoBankruptcy(results: seq<SimResult>)
    ensures CountBankrupt(results) == 0 <==> forall i :: 0 <= i < |results| ==> !results[i].bankrupt
  {
    if |results| > 0 {
      var init := results[..|results| - 1];
      NoBankruptcy(init);
      assert forall i :: 0 <= i < |init| ==> init[i] == results[i];
    }
  }

  /** One pass of `monte_carlo_simulation`'s loop: reset the strategy and play the sampled rounds. */
  method SimulateSample(strategy: Strategy, initialBankroll: real, pool: seq<Round>, idx: seq<int>)
    returns (outcome: Option<SimResult>)
    requires forall j :: 0 <= j < |idx| ==> 0 <= idx[j] < |pool|
    modifies strategy
    ensures outcome == Simulation(strategy.config, initialBankroll, pool, idx)
  {
    hide Playing, InitialState;
    var sampledRounds := Sampled(pool, idx);
    ResetWith(strategy, initialBankroll);
    var raised, bankrupt := RunRounds(strategy, IsSafetyFirstInstance, AfterBetOnly, sampledRounds, 0, |sampledRounds|);
    if raised || initialBankroll == 0.0 {
      return None;
    }
    var finalBankroll := if bankrupt then 0.0 else strategy.bankroll;
    var roi := (strategy.bankroll - initialBankroll) / initialBankroll * 100.0;
    return Some(SimResult(finalBankroll, roi, bankrupt));
  }

  /** `monte_carlo_simulation`: the same strategy object is reset and replayed on every sample. */
  method MonteCarloSimulation(strategy: Strategy, nSimulations: int, samples: seq<seq<int>>,
                              cfg: BacktestConfig, rounds: seq<Round>)
    returns (r: Option<MonteCarloReport>)
    requires |samples| == (if nSimulations > 0 then nSimulations else 0)
    requires ValidSamples(Pool(rounds, cfg), samples)
    modifies strategy
    ensures r == MonteCarlo(strategy.config, nSimulations, cfg, rounds, samples)
  {
    hide Simulation, Summary;
    var finalBankrolls: seq<real> := [];
    var rois: seq<real> := [];
    var bankruptcies := 0;
    var pool := Pool(rounds, cfg);
    ghost var results: seq<SimResult> := [];
    for sim := 0 to |samples|
      invariant Simulations(strategy.config, cfg.initialBankroll, pool, samples, sim) == Some(results)
      invariant finalBankrolls == FinalBankrolls(results) && rois == Rois(results)
      invariant bankruptcies == CountBankrupt(results)
    {
      var outcome := SimulateSample(strategy, cfg.initialBankroll, pool, samples[sim]);
      if outcome.None? {
        SimulationsRaise(strategy.config, cfg.initialBankroll, pool, samples, sim + 1, |samples|);
        return None;
      }
      finalBankrolls := finalBankrolls + [outcome.value.finalBankroll];
      rois := rois + [outcome.value.roi];
      if outcome.value.bankrupt {
        bankruptcies := bankruptcies + 1;
      }
      assert (results + [outcome.value])[..|results|] == results;
      results := results + [outcome.value];
    }
    if nSimulations <= 0 {
      return None;
    }
    return Some(Summary(nSimulations, finalBankrolls, rois, bankruptcies));
  }
}
