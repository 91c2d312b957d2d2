# Crash-game strategy backtesting, modelled in Dafny

This project models the machine-learning service of a crash-game bot: the
betting strategies, the engine that replays historical rounds against them,
the performance metrics, the parameter optimizer, the "realistic" session
tests, the time-of-day analysis, the feature and label generation, the
temporal train/validation/test split with its class weights, and the
analysis of the bot's own bet history. A round is a multiplier at which the
game crashed; a bet cashes out at a target multiplier and wins when the
round reaches it.

Modules, one per source file (plus the shared vocabulary):

- `Common` (`common.dfy`): options, floats that may be infinite, and the
  pieces of Python arithmetic whose meaning differs from Dafny's: `int()`
  truncating toward zero, negative indices, clamped slices.
- `Records` (`records.dfy`): rounds, decisions and trade-log entries.
- `StrategyLogic` (`strategy_logic.dfy`): the value-level specification of
  all thirteen strategies (`decide`, `on_round_result`, `reset`, and how a
  bet is resolved against a round).
- `StrategyObject` (`strategy_object.dfy`): the strategies as one mutable
  `Strategy` class whose methods update its fields in place. Each method is
  proved to move the object's state exactly as `StrategyLogic` says.
- `StrategyFacts` (`strategy_facts.dfy`): properties of the strategies. Among
  them are the bookkeeping invariant (bankroll = initial + sum of profits),
  stakes staying within the bankroll, the progression ladders, and the
  count-downs that make a strategy sit out.
- `Engine` (`engine.dfy`): `run_backtest` as a loop over the selected rounds,
  with no look-ahead and a stop at ruin. Also `run_comparison`,
  `walk_forward_test`, and `monte_carlo_simulation` with the drawn indices
  as input.
- `Metrics` (`metrics.dfy`): `calculate_metrics`. This covers counts, money,
  the drawdown scan, the longest win and loss streaks, the profit factor
  and the Calmar ratio.
- `Realistic` (`realistic.dfy`): `run_realistic_backtest` and
  `run_multiple_sessions`.
- `Optimizer` (`optimizer.dfy`): grid search over the Cartesian product of
  parameter values with a stable descending sort, random search over given
  draws, the one-parameter sensitivity sweep, and the bet-size analysis.
- `TimeAnalysis` (`time_analysis.dfy`): local hours, grouping by hour and by
  period, the count-based statistics, and the flat-bet simulation per period.
- `Features` (`features.dfy`): windowed counts, rounds since an event, the
  early-crash rate, lag features, and the threshold, early-crash and
  high-loss-streak labels. It also models the guard that confines a round's
  features to the rounds before it.
- `BotHistory` (`bot_history.dfy`): bucketing cash-out targets, per-bucket
  win/partial/loss tallies and rates, and the adjusted probability
  thresholds.
- `Training` (`training.dfy`): the temporal split and the balanced class
  weights.

Money, multipliers and ratios are `real`. Metrics that Python may set to
`float('inf')` use `Ratio`. Where the Python code raises an exception (a
division by zero, an index out of range, a constructor rejecting its
arguments), the model returns `None`. The one exception is `Features.FeatureHistory`, where the source also returns `None` itself; it has a separate outcome for the IndexError.

## Model

| member | source | states |
|---|---|---|
| Common.RatioLessIsStrictTotal | ml_service/backtesting/optimizer.py:81 | Python's `<` on floats without NaN, infinities included, is a strict total order, so sorting by a metric is well defined |
| Common.Trunc | ml_service/training.py:123-124 | `int()` truncates toward zero: the integer part of a non-negative float, rounded up for a negative one |
| Common.PySlice | ml_service/training.py:126-128 | a slice never outgrows the list and agrees with plain slicing for in-range bounds |
| Records.CountWon | ml_service/backtesting/metrics.py:104 | the number of won entries never exceeds the log's length |
| StrategyLogic.InitialState | ml_service/backtesting/strategies.py:40-49 | a new strategy holds its initial bankroll, an empty log and zeroed counters |
| StrategyLogic.ResetState | ml_service/backtesting/strategies.py:51-59 | `reset` (base class and every override) returns the state to that of a freshly built strategy with the same initial bankroll |
| StrategyLogic.LowStreak | ml_service/backtesting/strategies.py:312-320 | the result is the length of the longest suffix of the history whose multipliers are all below the threshold: those rounds are below it and the one before is not |
| StrategyLogic.Decide | ml_service/backtesting/strategies.py:62-64 | `decide` never touches the bankroll, log or bet counters, may only clear a streak counter, returns the state unchanged on a stop-loss refusal, and a refusal stakes nothing |
| StrategyLogic.OnRoundResult | ml_service/backtesting/strategies.py:66-88 | a placed bet adds its profit to the bankroll, counts once, appends exactly one log entry holding the new bankroll, and bumps the win or loss streak while clearing the other; a refusal changes nothing (DualBet still re-sizes its legs) |
| StrategyLogic.Resolve | ml_service/backtesting/engine.py:133-143 | a plain bet wins iff the multiplier reaches the target and pays `stake * (target - 1)` or loses the stake; a dual bet is won iff its combined payoff is positive |
| StrategyObject.Strategy.constructor | ml_service/backtesting/strategies.py:40-49 | the new object's fields are the initial state of its configuration |
| StrategyObject.Strategy.SetAccounts | ml_service/backtesting/strategies.py:53-58 | overwrites exactly the bankroll, log and counters |
| StrategyObject.Strategy.SetProgression | ml_service/backtesting/strategies.py:172-174 | overwrites exactly the progression fields |
| StrategyObject.Strategy.Reset | ml_service/backtesting/strategies.py:51-59 | after `reset` the fields equal those of a freshly constructed strategy with the same initial bankroll |
| StrategyObject.Strategy.CountStreak | ml_service/backtesting/strategies.py:312-320 | the backwards loop returns the low-streak length `LowStreak` |
| StrategyObject.Strategy.DecideFixedTarget | ml_service/backtesting/strategies.py:119-137 | the method returns the decision of the FixedTarget specification and changes nothing |
| StrategyObject.Strategy.DecideMartingale | ml_service/backtesting/strategies.py:176-192 | the method's decision and its reset of the stake after too many losses agree with the Martingale specification |
| StrategyObject.Strategy.DecideAntiMartingale | ml_service/backtesting/strategies.py:242-260 | the method's decision and its reset after too many wins agree with the AntiMartingale specification |
| StrategyObject.Strategy.DecidePatternBased | ml_service/backtesting/strategies.py:322-347 | the method's decision and its wait counter agree with the PatternBased specification |
| StrategyObject.Strategy.DecideAdaptiveTarget | ml_service/backtesting/strategies.py:391-401 | the method returns the AdaptiveTarget decision and changes nothing |
| StrategyObject.Strategy.DecideHybridML | ml_service/backtesting/strategies.py:471-502 | the method returns the HybridML decision and changes nothing |
| StrategyObject.Strategy.DecideSafetyFirst | ml_service/backtesting/strategies.py:538-551 | the method returns the SafetyFirst decision and changes nothing |
| StrategyObject.Strategy.DecideSkipLow | ml_service/backtesting/strategies.py:614-631 | the method's decision and its skip counter agree with the SkipLow specification |
| StrategyObject.Strategy.DecideDualBet | ml_service/backtesting/realistic_test.py:65-78 | the method returns the DualBet decision and changes nothing |
| StrategyObject.Strategy.DecideWaitForPattern | ml_service/backtesting/realistic_test.py:166-190 | the method returns the WaitForPattern decision and changes nothing |
| StrategyObject.Strategy.DecideConservativeProgressive | ml_service/backtesting/realistic_test.py:232-243 | the method's decision and its stake update agree with the ConservativeProgressive specification |
| StrategyObject.Strategy.DecideSkipAfterLoss | ml_service/backtesting/realistic_test.py:294-307 | the method's decision and its skip countdown agree with the SkipAfterLoss specification |
| StrategyObject.Strategy.DecideSimpleBetEveryRound | ml_service/backtesting/realistic_test.py:341-350 | the method returns the SimpleBetEveryRound decision and changes nothing |
| StrategyObject.Strategy.Decide | ml_service/backtesting/strategies.py:62-64 | dispatching on the configured class moves the object's state exactly as `StrategyLogic.Decide` says |
| StrategyObject.Strategy.Settle | ml_service/backtesting/strategies.py:66-88 | the base bookkeeping updates the fields exactly as the specification of a settled bet |
| StrategyObject.Strategy.ResizeDualLegs | ml_service/backtesting/realistic_test.py:101-114 | the leg re-sizing updates the two leg stakes as specified |
| StrategyObject.Strategy.AfterSettle | ml_service/backtesting/strategies.py:194-201 | each override's work after the base bookkeeping matches its specification |
| StrategyObject.Strategy.OnRoundResult | ml_service/backtesting/strategies.py:66-88 | the object's new state is `StrategyLogic.OnRoundResult` of its old state |
| StrategyFacts.Trailing | ml_service/backtesting/strategies.py:72-78 | the trailing run of equal outcomes is no longer than the log |
| StrategyFacts.InitialLedger | ml_service/backtesting/strategies.py:40-49 | a new strategy satisfies the bookkeeping invariant: bankroll = initial + logged profits, counters count the log, streaks bounded by the log's trailing run |
| StrategyFacts.DecideKeepsLedger | ml_service/backtesting/strategies.py:62-64 | `decide` preserves the bookkeeping invariant |
| StrategyFacts.OnRoundResultKeepsLedger | ml_service/backtesting/strategies.py:66-88 | `on_round_result` preserves the bookkeeping invariant |
| StrategyFacts.OneStreakAfterBet | ml_service/backtesting/strategies.py:72-78 | after a placed bet exactly one of the two streak counters is zero |
| StrategyFacts.StakeWithinBankroll | ml_service/backtesting/strategies.py:134-135 | no strategy stakes more than its bankroll (PatternBased only for a percentage of at most 100); the realistic fixed-stake classes never stake below the 2.0 minimum |
| StrategyFacts.PercentWithin | ml_service/backtesting/strategies.py:131 | a percentage of at most 100 of a non-negative bankroll lies within it |
| StrategyFacts.FixedTargetSizing | ml_service/backtesting/strategies.py:119-137 | FixedTarget refuses at the stop-loss or take-profit percentage; otherwise it stakes the bankroll percentage clamped into [min_bet, max_bet], never above the bankroll, and refuses only when the clamped stake exceeds the bankroll |
| StrategyFacts.SimpleBetSizing | ml_service/backtesting/realistic_test.py:341-350 | SimpleBetEveryRound stakes its amount capped by the bankroll, and bets iff that reaches the minimum |
| StrategyFacts.DualBetSizing | ml_service/backtesting/realistic_test.py:65-78 | DualBet stakes both legs when they fit, else twice the minimum when that fits, else refuses; it always cashes out at the profit target |
| StrategyFacts.DualLegsCapped | ml_service/backtesting/realistic_test.py:101-114 | after `increase_after_wins` wins each leg is the scaled base capped at a tenth of the bankroll; otherwise both legs return to their base |
| StrategyFacts.MartingaleDecideOnLadder | ml_service/backtesting/strategies.py:176-192 | Martingale's stake is always `base_bet * multiplier^j`, `j` below `max_consecutive_losses` when it bets, and never above the bankroll |
| StrategyFacts.MartingaleSettleOnLadder | ml_service/backtesting/strategies.py:194-201 | a loss multiplies the stake once more, a win returns it to the base |
| StrategyFacts.AntiMartingaleDecideOnLadder | ml_service/backtesting/strategies.py:242-260 | AntiMartingale's stake is `base_bet * multiplier^j`, `j` below `max_consecutive_wins` when it bets, and never above the bankroll |
| StrategyFacts.AntiMartingaleSettleOnLadder | ml_service/backtesting/strategies.py:262-269 | a win multiplies the stake once more, a loss returns it to the base |
| StrategyFacts.ConservativeStartsCapped | ml_service/backtesting/realistic_test.py:209-230 | ConservativeProgressive starts within its stake cap |
| StrategyFacts.ConservativeDecideCapped | ml_service/backtesting/realistic_test.py:232-243 | every stake it places lies between the minimum and `base_bet * max_bet_multiplier` (or the base) |
| StrategyFacts.ConservativeSettleCapped | ml_service/backtesting/realistic_test.py:245-257 | a win grows the stake by the progression factor up to the cap; a loss resets it only when `reset_after_loss` is set |
| StrategyFacts.AdaptiveStartsInBand | ml_service/backtesting/strategies.py:368-389 | the target starts between `min_target` and `start_target` |
| StrategyFacts.AdaptiveDecideInBand | ml_service/backtesting/strategies.py:391-401 | AdaptiveTarget's `decide` changes no state and cashes out at its current target, never below `min_target` |
| StrategyFacts.AdaptiveSettleInBand | ml_service/backtesting/strategies.py:403-412 | a loss lowers the target by the decrement but not below `min_target`; `reset_after_wins` wins restore `start_target`; the target stays in the band |
| StrategyFacts.PatternBasedBetsOnlyOnStreak | ml_service/backtesting/strategies.py:322-347 | PatternBased bets iff there is no stop-loss, no pending wait, no high last round and a low streak of at least `min_streak_to_bet`, staking its percentage at the streak target |
| StrategyFacts.WaitForPatternGuards | ml_service/backtesting/realistic_test.py:166-190 | WaitForPattern refuses on a short history and bets only after a long enough low streak, with a stake between the minimum and the bankroll; it changes no state |
| StrategyFacts.FirstClearingTier | ml_service/backtesting/strategies.py:454-469 | the chosen tier is the first whose probability exceeds its bar; none when no tier clears |
| StrategyFacts.TargetIsFirstClearingTier | ml_service/backtesting/strategies.py:454-469 | the HybridML target is the first clearing tier of 10x, 5x, 3x, 2x, else the base target (always the base without adaptive targets) |
| StrategyFacts.HybridMLBetsOnlyWhenConfident | ml_service/backtesting/strategies.py:471-502 | HybridML bets only with a prediction for the last round, early-crash probability within the cap and 2x probability at least the confidence, at the tier target; it changes no state |
| StrategyFacts.RefusalRun | ml_service/backtesting/strategies.py:62-64 | the decisions of successive refusals, stopping at the first bet |
| StrategyFacts.CountdownRefuses | ml_service/backtesting/strategies.py:614-631 | while a skip or wait counter is `k`, the next `k` decisions refuse whatever the history |
| StrategyFacts.SkipAfterLossSitsOut | ml_service/backtesting/realistic_test.py:294-313 | after a lost bet SkipAfterLoss refuses the next `skip_rounds` decisions |
| StrategyFacts.SkipLowSitsOut | ml_service/backtesting/strategies.py:614-631 | a last multiplier below `skip_after_below` makes SkipLow refuse this round and the next `skip_rounds` |
| StrategyFacts.PatternBasedWaitsAfterHigh | ml_service/backtesting/strategies.py:322-347 | a last multiplier at or above `high_threshold` makes PatternBased refuse this round and the next `wait_after_high` |
| StrategyFacts.DualPayoffBounds | ml_service/backtesting/strategies.py:553-575 | the legs split the stake exactly, the payoff never loses more than the stake, loses exactly the stake when both legs crash, and pays both legs when both targets are reached (also realistic_test.py:80-99) |
| Engine.Filter | ml_service/backtesting/engine.py:110-114 | the filtered rounds are exactly those kept, none added |
| Engine.RoundsInRange | ml_service/backtesting/engine.py:108-114 | exactly the rounds whose id lies in the optional inclusive range |
| Engine.TestRounds | ml_service/backtesting/engine.py:107-118 | the in-range rounds without the first `warmup_rounds` (all of them for a non-positive warm-up, none when the warm-up exceeds them) |
| Engine.RunNext | ml_service/backtesting/engine.py:126-131 | round `i` of an unstopped loop is one more play on the history `rounds[:i]` |
| Engine.StoppedStays | ml_service/backtesting/engine.py:153-157 | once the loop broke off or raised nothing changes |
| Engine.NoLookahead | ml_service/backtesting/engine.py:126-131 | the state before round `k` depends only on the rounds before it: no decision sees the future |
| Engine.RunPreserves | ml_service/backtesting/engine.py:126-157 | an invariant of every round holds after every prefix of the loop |
| Engine.RunLogGrows | ml_service/backtesting/engine.py:126-157 | the trade log only grows, by at most one trade per round |
| Engine.RunStopsAtRuin | ml_service/backtesting/engine.py:153-157 | the loop breaks off only with a bankroll at most 0, and while it runs the bankroll is positive |
| Engine.PlayOnceKeepsLedger | ml_service/backtesting/engine.py:131-146 | one round keeps the bookkeeping invariant |
| Engine.PlayingKeepsLedger | ml_service/backtesting/engine.py:126-157 | every round of the loop keeps the bookkeeping invariant |
| Engine.PlayingAppendsAtMostOne | ml_service/backtesting/engine.py:133-146 | a round appends at most one trade |
| Engine.PlayingStopsAtRuin | ml_service/backtesting/engine.py:153-157 | a round stops the loop exactly at ruin |
| Engine.PlayRound | ml_service/backtesting/engine.py:126-157 | the imperative loop body agrees with one play of the specification |
| Engine.RunRounds | ml_service/backtesting/engine.py:126-157 | the imperative loop agrees with the loop specification over `count` rounds |
| Engine.ResetWith | ml_service/backtesting/engine.py:103-105 | reset plus the two bankroll assignments give the initial state for the configured bankroll |
| Engine.RunBacktest | ml_service/backtesting/engine.py:84-166 | `run_backtest` returns the report of the loop over the selected rounds from a freshly reset strategy, whatever the object did before; None when `decide` raises |
| Engine.BacktestAccounts | ml_service/backtesting/engine.py:159-166 | a report counts the logged bets, at most one per selected round, and its profit is the sum of the logged profits |
| Engine.CollectKeepsLast | ml_service/backtesting/engine.py:183-190 | the comparison holds exactly the strategy names, each with the report of its last occurrence |
| Engine.CollectSucceeds | ml_service/backtesting/engine.py:185-188 | a comparison succeeds iff every backtest does |
| Engine.RunComparison | ml_service/backtesting/engine.py:168-190 | `run_comparison` returns the reports collected by name |
| Engine.WindowInside | ml_service/backtesting/engine.py:219-226 | each window lies inside the rounds and is exactly `n // n_splits` long |
| Engine.TrainPart | ml_service/backtesting/engine.py:227 | the training part `int(size * train_ratio)` lies within the window, and leaves a test round when the ratio is below 1 |
| Engine.WindowBounds | ml_service/backtesting/engine.py:224-227 | window start <= train end <= window end <= n, with a test part left for a ratio below 1 |
| Engine.WalkForwardReports | ml_service/backtesting/engine.py:224-242 | one report per window, report `i` being the backtest of window `i`'s test range |
| Engine.WalkForwardRaises | ml_service/backtesting/engine.py:224-242 | once a window raises the whole test raises |
| Engine.WindowConfigDefined | ml_service/backtesting/engine.py:233-239 | with a ratio in [0, 1) and no more windows than rounds, every window's test range starts inside the rounds |
| Engine.WalkForwardTest | ml_service/backtesting/engine.py:192-247 | `walk_forward_test` runs a fresh strategy per window on its test range; None when `n_splits` is 0 or an index or backtest raises |
| Engine.Simulations | ml_service/backtesting/engine.py:283-323 | the first `k` simulations yield exactly `k` results |
| Engine.SimulationsRaise | ml_service/backtesting/engine.py:283-323 | once a simulation raises the whole run raises |
| Engine.CountBankrupt | ml_service/backtesting/engine.py:322-323 | the bankruptcies never exceed the simulations |
| Engine.CountPositive | ml_service/backtesting/engine.py:341 | the positive ROIs never exceed the ROIs |
| Engine.SimulationRecordsRuin | ml_service/backtesting/engine.py:297-321 | a bankrupt simulation records 0 and ended at a bankroll of at most 0; a solvent one records its final bankroll |
| Engine.MonteCarloRates | ml_service/backtesting/engine.py:328-342 | one bankroll and one ROI per simulation, the ROI range bounds every ROI, both rates are percentages, and the bankruptcy rate is 0 iff no simulation went bankrupt |
| Engine.NoBankruptcy | ml_service/backtesting/engine.py:322-323 | no bankruptcies counted iff no simulation went bankrupt |
| Engine.SimulateSample | ml_service/backtesting/engine.py:290-323 | one pass of the simulation loop agrees with its specification |
| Engine.MonteCarloSimulation | ml_service/backtesting/engine.py:249-342 | `monte_carlo_simulation`, with the drawn indices as input, agrees with its specification; None when a simulation raises or there is none |
| Realistic.PlayedRoundsFollowWarmup | ml_service/backtesting/realistic_test.py:364-367 | the played rounds follow the 100-round warm-up in the window, at most `n` of them, each decided on all rounds before it |
| Realistic.RunRealisticBacktest | ml_service/backtesting/realistic_test.py:356-387 | `run_realistic_backtest` returns the metrics of a freshly reset session over the played rounds; None when `decide` raises |
| Realistic.RealisticAccounts | ml_service/backtesting/realistic_test.py:366-387 | a session logs at most one trade per played round, its report counts the logged bets and wins over `n` rounds, and its profit is the sum of logged profits |
| Realistic.SessionStart | ml_service/backtesting/realistic_test.py:400-402 | the start raises iff the divisor is 0; with enough data the whole session window fits; with too little data the start is 0 |
| Realistic.SessionBounds | ml_service/backtesting/realistic_test.py:404-413 | a session never plays more than `session_size` rounds, exactly that many with enough data |
| Realistic.SessionLineFacts | ml_service/backtesting/realistic_test.py:434-441 | each line's wins are at most its bets, its win rate is in [0, 1], and its profit is the final bankroll less 100 |
| Realistic.PlaySession | ml_service/backtesting/realistic_test.py:400-441 | one session with a fresh strategy agrees with its specification |
| Realistic.RunMultipleSessions | ml_service/backtesting/realistic_test.py:390-443 | `run_multiple_sessions` agrees with its specification, no sessions for a non-positive count |
| Realistic.SessionsRaise | ml_service/backtesting/realistic_test.py:398-441 | once a session raises the whole series raises |
| Metrics.ProfitsSum | ml_service/backtesting/metrics.py:96 | the extracted profit column sums to the total profit of the log |
| Metrics.GrossNet | ml_service/backtesting/metrics.py:116-122 | gross profit less gross loss is the sum of all profits: no trade is counted twice or lost, zero profits falling in neither list |
| Metrics.Positives | ml_service/backtesting/metrics.py:116 | the winning trades are positive, and their sum is positive when there is one |
| Metrics.Negatives | ml_service/backtesting/metrics.py:117 | the losing trades are negative, and their sum is negative when there is one |
| Metrics.MaxOf | ml_service/backtesting/metrics.py:205 | the maximum is an element and bounds every element |
| Metrics.MinOf | ml_service/backtesting/metrics.py:206 | the minimum is an element and is below every element |
| Metrics.ProfitFactor | ml_service/backtesting/metrics.py:121-123 | gross profit over gross loss; +inf iff no loss but a profit, 0 iff no profit, never negative |
| Metrics.DrawdownPeak | ml_service/backtesting/metrics.py:131-133 | the scan's peak is the highest equity so far |
| Metrics.DrawdownBound | ml_service/backtesting/metrics.py:131-138 | the maximum drawdown is not negative and no point falls further below its peak |
| Metrics.DrawdownWitness | ml_service/backtesting/metrics.py:134-138 | the reported percentage belongs to the first point where the largest fall occurs, or is 0 when nothing fell |
| Metrics.TrailingRun | ml_service/backtesting/metrics.py:146-154 | the run of `v` ending the outcomes is exactly as long as stated |
| Metrics.StreakCurrent | ml_service/backtesting/metrics.py:146-154 | the scan's current counter is the trailing run and never exceeds the maximum |
| Metrics.RunWithinTrailing | ml_service/backtesting/metrics.py:146-154 | a run ending at `j` is no longer than the trailing run there |
| Metrics.StreakUpper | ml_service/backtesting/metrics.py:146-154 | no run of wins (losses) is longer than the scan's maximum |
| Metrics.StreakWitness | ml_service/backtesting/metrics.py:146-154 | some run is exactly as long as the scan's maximum |
| Metrics.RoiPercent | ml_service/backtesting/metrics.py:112 | the ROI has the sign of the profit, and is 0 for a non-positive initial bankroll |
| Metrics.WinRate | ml_service/backtesting/metrics.py:115 | the win rate lies in [0, 1], 0 iff no win and 1 iff every bet won |
| Metrics.AvgWin | ml_service/backtesting/metrics.py:118 | the mean win is positive iff there is a winning trade, 0 otherwise |
| Metrics.AvgLoss | ml_service/backtesting/metrics.py:119 | the mean loss size is positive iff there is a losing trade, 0 otherwise |
| Metrics.Calmar | ml_service/backtesting/metrics.py:176-177 | 0 without drawdown, otherwise of the sign of the ROI |
| Metrics.MetricsCounts | ml_service/backtesting/metrics.py:103-106 | bets = log length, wins counted, wins + losses = bets, skipped = rounds − bets |
| Metrics.MetricsMoney | ml_service/backtesting/metrics.py:109-111 | the final bankroll is the last logged one (initial for an empty log), profit is its gain, wagered is the sum of stakes |
| Metrics.MetricsRanges | ml_service/backtesting/metrics.py:115-177 | win rate in [0, 1], averages not negative, profit factor never −inf, calmar 0 without drawdown, sharpe and sortino 0 below two bets |
| Metrics.MetricsEquityRange | ml_service/backtesting/metrics.py:205-206 | peak and lowest bracket the initial and every logged bankroll |
| Metrics.MetricsDrawdown | ml_service/backtesting/metrics.py:125-138 | the report's drawdown is the largest fall of the equity curve below an earlier peak, with the percentage of its first occurrence |
| Metrics.MetricsStreaks | ml_service/backtesting/metrics.py:140-154 | the longest win and loss streaks of the report are the longest runs in the log: none longer, and each attained |
| Metrics.ScanDrawdown | ml_service/backtesting/metrics.py:126-138 | the drawdown loop computes the drawdown scan |
| Metrics.ScanStreaks | ml_service/backtesting/metrics.py:140-154 | the streak loop computes the longest win and loss runs of the scan |
| Metrics.CalculateMetrics | ml_service/backtesting/metrics.py:51-207 | `calculate_metrics` computes the report `MetricsOf`, whose properties the lemmas above state |
| Optimizer.RunParams | ml_service/backtesting/optimizer.py:57-60 | one build-and-backtest gives the report of the built strategy, or None when the constructor or the backtest raises |
| Optimizer.PrefixedAt | ml_service/backtesting/optimizer.py:46 | combination `i * |ps| + j` of a product is value `i` followed by suffix `j`: the first list varies slowest |
| Optimizer.PrefixedSound | ml_service/backtesting/optimizer.py:46 | every combination is a value of the first list followed by a combination of the rest |
| Optimizer.ProductCount | ml_service/backtesting/optimizer.py:46-48 | the product yields as many combinations as the product of the list lengths |
| Optimizer.ProductSound | ml_service/backtesting/optimizer.py:46 | every combination picks one value from each list, in list order |
| Optimizer.ProductComplete | ml_service/backtesting/optimizer.py:46 | every way of picking one value from each list is among the combinations |
| Optimizer.ParamsOfKeys | ml_service/backtesting/optimizer.py:55 | the keyword arguments of a combination have exactly the parameter names as keys |
| Optimizer.ParamsOfValues | ml_service/backtesting/optimizer.py:55 | with distinct names, each name is bound to the value the combination picked for it |
| Optimizer.GridRunsSound | ml_service/backtesting/optimizer.py:54-68 | the loop collects at most one entry per combination, in enumeration order, each with its combination's parameters and a successful run's report |
| Optimizer.GridRunsComplete | ml_service/backtesting/optimizer.py:54-68 | a combination whose run succeeds is never skipped |
| Optimizer.InsertDescendingPermutes | ml_service/backtesting/optimizer.py:81 | inserting into the sorted list adds exactly that entry |
| Optimizer.InsertDescendingRanks | ml_service/backtesting/optimizer.py:81 | inserting a later entry keeps the list descending and stable |
| Optimizer.SortDescendingFacts | ml_service/backtesting/optimizer.py:71-81 | the sort returns the same entries, descending by the metric with +inf first and -inf last, ties kept in enumeration order |
| Optimizer.SortDescendingRanks | ml_service/backtesting/optimizer.py:81 | the sort is a permutation in which each entry may precede every later one |
| Optimizer.GridSearchRanks | ml_service/backtesting/optimizer.py:43-90 | the grid search returns at most one entry per combination, best first with stable ties, each a successful run of a combination picking one value from each list |
| Optimizer.GridSearch | ml_service/backtesting/optimizer.py:16-90 | `grid_search` returns the successful grid points sorted by the metric |
| Optimizer.BestOfIsFirstMaximum | ml_service/backtesting/optimizer.py:122-143 | the best draw is the first one with the maximal finite metric among successful draws; there is none iff no draw succeeded with a finite metric |
| Optimizer.OptimizeStrategy | ml_service/backtesting/optimizer.py:93-156 | `optimize_strategy`, over the drawn parameter sets, returns that best draw |
| Optimizer.SensitivityAnalysis | ml_service/backtesting/optimizer.py:159-209 | one series per tracked metric, each with one reading per value in order, 0 for a run that raises |
| Optimizer.Linspace | ml_service/backtesting/optimizer.py:271 | `n` evenly spaced stakes; None for a negative count |
| Optimizer.LinspaceEnds | ml_service/backtesting/optimizer.py:271 | the stakes run from the lower bound to the upper one in equal steps |
| Optimizer.FirstMax | ml_service/backtesting/optimizer.py:298-305 | `max(key=...)` returns the first row whose key is maximal |
| Optimizer.BestStakeChosen | ml_service/backtesting/optimizer.py:298-305 | the chosen stake belongs to the first row maximising the criterion |
| Optimizer.OptimalBetSizeChoices | ml_service/backtesting/optimizer.py:294-313 | with rows, each criterion's stake is that of the first row maximising it, and the recommendation is the risk-adjusted one |
| Optimizer.OptimalBetSizeDefault | ml_service/backtesting/optimizer.py:294-295 | when no stake's run succeeds the answer is the default 1.0 |
| Optimizer.NoPointsWhenAllFail | ml_service/backtesting/optimizer.py:275-292 | failed runs add no row |
| Optimizer.RiskAdjustedRows | ml_service/backtesting/optimizer.py:302-303 | each row's risk adjustment times `max(max_dd, 0.01)` gives back its ROI, and its stake is one of the grid |
| Optimizer.FindOptimalBetSize | ml_service/backtesting/optimizer.py:244-313 | `find_optimal_bet_size` returns the analysis above |
| Features.TailWindow | ml_service/features.py:204-207 | the window is a suffix of the history; a positive window keeps min(window, len) values and a zero window keeps them all |
| Features.CountComplement | ml_service/features.py:209 | every value is either above the threshold or at most it, so the two counts add up to the length |
| Features.CountEventsAboveThreshold | ml_service/features.py:187-209 | the count never exceeds the history or a positive window; a zero window counts the whole history |
| Features.RoundsSinceEvent | ml_service/features.py:211-235 | the result is the distance back to the most recent value above the threshold, every value closer being at most the threshold, or min(len, max_lookback) when none is found |
| Features.EarlyCrashRate | ml_service/features.py:237-263 | the rate lies in [0, 1] and is 0 for an empty window |
| Features.EarlyCrashRateComplement | ml_service/features.py:254-263 | the early-crash rate is one minus the share of rounds above the early-crash threshold in the same window |
| Features.SequenceFeatures | ml_service/features.py:311-335 | exactly `length` lags; lag i is the value i places from the end, padded with 0.0 before the start |
| Features.LagShift | ml_service/features.py:328-333 | after one more round, the new round is lag 1 and every old lag i becomes lag i+1 |
| Features.ThresholdLabels | ml_service/features.py:543-557 | one 0/1 label per round, 1 exactly when the multiplier is above the threshold |
| Features.EarlyCrashLabels | ml_service/features.py:560-574 | one 0/1 label per round, 1 exactly when the multiplier is at most the threshold |
| Features.LabelsComplement | ml_service/features.py:557 | at the same threshold, the threshold label and the early-crash label of each round add up to 1 |
| Features.ThresholdLabelsCount | ml_service/features.py:557 | the number of positive threshold labels is the number of rounds above the threshold |
| Features.StreakLabel | ml_service/features.py:613-620 | a label is 0 or 1, and 0 for every round before a full window exists |
| Features.StreakLabelLocal | ml_service/features.py:615-620 | for a fixed overall threshold, a round's label depends only on the `window` rounds just before it, never on the round itself or later ones |
| Features.HighLossStreakLabels | ml_service/features.py:577-622 | the array holds exactly one streak label per round |
| Features.FeatureHistory | ml_service/features.py:425-441 | no features when round_idx < 1 or fewer than 10 rows precede it; an IndexError exactly when at least 10 rows exist but round_idx is past the last one; otherwise exactly the rows before round_idx, present iff 10 <= round_idx < len(df) |
| Features.FeatureHistoryIgnoresFuture | ml_service/features.py:415-441 | for a round inside the frame, rows after it never change whether features exist or the history they come from |
| TimeAnalysis.LocalHour | ml_service/backtesting/time_analysis.py:56 | the local hour is in [0, 24), congruent to the UTC hour minus 3 modulo 24 |
| TimeAnalysis.PeriodOf | ml_service/backtesting/time_analysis.py:108-111 | a round is filed under the first period that contains its hour, and under none when no period contains it |
| TimeAnalysis.BroadPeriods | ml_service/backtesting/time_analysis.py:16-21 | the four broad periods put hour h in period h / 6 |
| TimeAnalysis.DetailedPeriodsOfHour | ml_service/backtesting/time_analysis.py:23-32 | the eight detailed periods put hour h in period h / 3 |
| TimeAnalysis.GroupByPeriod | ml_service/backtesting/time_analysis.py:104-111 | group k holds exactly the multipliers of the rounds filed under period k, in round order |
| TimeAnalysis.GroupsPartition | ml_service/backtesting/time_analysis.py:106-111 | the groups together hold each filed round exactly once, and no more rounds than the data has |
| TimeAnalysis.GroupByHour | ml_service/backtesting/time_analysis.py:74-77 | an hour is a key exactly when it has a round, and maps to that hour's multipliers in order |
| TimeAnalysis.Share | ml_service/backtesting/time_analysis.py:92-96 | a percentage lies in [0, 100] and is 0 exactly when the count is 0 |
| TimeAnalysis.ShareMonotone | ml_service/backtesting/time_analysis.py:92-96 | a larger count over the same total gives a percentage at least as large |
| TimeAnalysis.CountAtLeastMonotone | ml_service/backtesting/time_analysis.py:92-95 | a higher bar is reached by no more rounds than a lower one |
| TimeAnalysis.StatsOf | ml_service/backtesting/time_analysis.py:85-97 | count is the group size; every percentage is in [0, 100]; the 5x, 3x, 2x and 1.5x shares are ordered |
| TimeAnalysis.AnalyzeByHour | ml_service/backtesting/time_analysis.py:72-99 | one entry for exactly the hours with a round, each holding that hour's statistics |
| TimeAnalysis.AnalyzeByPeriod | ml_service/backtesting/time_analysis.py:102-130 | one entry for exactly the periods that received a round, each holding the statistics of that period's rounds |
| TimeAnalysis.FlatProfitClosedForm | ml_service/backtesting/time_analysis.py:153-159 | the accumulated profit is wins * bet * (target - 1) minus losses * bet |
| TimeAnalysis.GroupSimulationCounts | ml_service/backtesting/time_analysis.py:161-169 | wins plus losses is the group size, the win rate is in [0, 100], the profit has the closed form, and an empty group reports zeros |
| TimeAnalysis.EmptyGroupSimulates | ml_service/backtesting/time_analysis.py:166-168 | an empty group never divides, so it always has a result |
| TimeAnalysis.Tally | ml_service/backtesting/time_analysis.py:149-159 | wins are the rounds reaching the target, losses the rest, and the profit is the flat-bet profit |
| TimeAnalysis.SimulateGroup | ml_service/backtesting/time_analysis.py:148-169 | the period's result is the one GroupSimulation describes |
| TimeAnalysis.SimulateStrategyByPeriod | ml_service/backtesting/time_analysis.py:133-171 | a result exists exactly when no period's ROI divides by a zero stake; it has one entry for exactly the periods that received a round, each that period's simulation |
| BotHistory.AllBucketsListed | ml_service/bot_history_integration.py:163-182 | the nine buckets are listed in rank order |
| BotHistory.CategorizeByBounds | ml_service/bot_history_integration.py:163-182 | a cashout falls in the bucket whose upper bound is the first at or above it, or in 20x+ past 15.5 |
| BotHistory.CategorizeMonotone | ml_service/bot_history_integration.py:163-182 | a larger cashout never falls in a lower bucket |
| BotHistory.TallySplits | ml_service/bot_history_integration.py:143-151 | every bet of a bucket is exactly one of a win, a partial win or a loss |
| BotHistory.TallyEmpty | ml_service/bot_history_integration.py:126-133 | a bucket with no bets has every counter at zero |
| BotHistory.TallyCountsCover | ml_service/bot_history_integration.py:135-151 | the counts of the nine buckets add up to the number of bets: every bet lands in exactly one bucket |
| BotHistory.StatsRates | ml_service/bot_history_integration.py:154-159 | the win and partial rates are percentages, and the success rate is their sum and lies in [0, 100] |
| BotHistory.AnalyzeTargetPerformance | ml_service/bot_history_integration.py:116-161 | one entry for exactly the buckets that received a bet, each holding the rates of that bucket's bets |
| BotHistory.ThresholdRange | ml_service/bot_history_integration.py:207-231 | a threshold always lies in [0.15, 0.70], and is the bucket's base threshold when it has fewer than 10 bets |
| BotHistory.ThresholdAntitone | ml_service/bot_history_integration.py:213-231 | with enough bets, a higher success rate never gives a higher threshold |
| BotHistory.GetOptimalThresholds | ml_service/bot_history_integration.py:184-233 | one threshold for exactly the buckets that received a bet, each the adjusted threshold of that bucket's statistics |
| Training.TemporalSplit | ml_service/training.py:121-133 | train, validation and test keep exactly the label names of the input |
| Training.CutsOrdered | ml_service/training.py:123-124 | for non-negative ratios, 0 <= train_end <= val_end and train_end is at most n * train_ratio |
| Training.SlicesConcatenate | ml_service/training.py:126-128 | the three slices at ordered cut points concatenate back to the input, with the expected lengths |
| Training.SplitCoversInOrder | ml_service/training.py:121-128 | for non-negative ratios, train, validation and test concatenate to the data in order, with train first and no row lost or repeated |
| Training.LabelsSplitAlike | ml_service/training.py:130-133 | each label array of the data's length is cut at the same points as the data, and its three parts concatenate back to it |
| Training.PositivesBounded | ml_service/training.py:152-154 | for 0/1 labels, the positives number between 0 and the sample count |
| Training.ComputeClassWeight | ml_service/training.py:152-163 | the weights cover classes 0 and 1, and both are 1.0 when one class is absent |
| Training.ClassWeightsBalance | ml_service/training.py:159-163 | with both classes present, each class's weight times its size is n / 2, so both classes weigh the same in total |
| Training.ScaleIsWeightRatio | ml_service/training.py:176-182 | the scale is 1.0 without positives, otherwise negatives over positives, which equals the ratio of the balanced class weights |

## Left out

- Reading rounds and bets from SQLite, CSV and JSON is not modelled. Rounds and bets are inputs. Loading, logging, `print` and `verbose` output are left out too.
- `inference.py` (loading models and predicting live) is not part of this model. HybridML receives its predictions as a map from round id to probabilities.
- Training, evaluating and saving the XGBoost models, and the numpy/pandas plumbing around them, are not modelled. Only the split and the class weights are.
- Random numbers are left out. `optimize_strategy` receives the sequence of drawn parameter sets, and `monte_carlo_simulation` receives the drawn round indices.
- The Sharpe and Sortino ratios need square roots and standard deviations. They are a `RiskModel` parameter, a function of the trade log. Only the guard that leaves them 0 for fewer than two trades is modelled.
- The mean, median, standard deviation, minimum, maximum and percentiles in the time analysis and in the Monte Carlo summary are left out. The statistics that only count rounds are kept.
- The trend, volatility, time-of-day (sine/cosine) and rolling-statistics features of `extract_features_for_round` need floating-point numerics and are left out. Its leakage guard and the count, distance, rate and lag features are modelled.
- Parsing a timestamp into an hour is left out. `TimeAnalysis.LocalHour` starts from the UTC hour.
- Floats are exact reals: rounding, NaN and `-0.0` are not modelled. Python integers and floats are both mapped to `int`/`real` without width limits.
- `get_params` and `set_predictions` are not modelled: the configuration is an immutable field, and predictions are part of it. The strategies' `name` string formatting is also left out.
- `Optimizer.SensitivityAnalysis` returns one series per tracked metric, in order, not a dictionary keyed by metric name. It does not reproduce two cases of the dictionary. A metric name equal to the varied parameter's name overwrites the list of values. A metric name listed twice shares one list that receives two readings per value, where the model gives two identical series.
- `Training.TemporalSplit` keeps the feature rows apart from the labels. It does not reproduce a label named `"X"` overwriting the feature rows in each part.
- `BotHistory.Threshold` uses each bucket's base threshold directly. The 0.30 fallback for an unknown bucket name cannot be reached, because every bucket has a base threshold.
- `Features.StreakLabel` takes the window as a `nat`; a negative window is not modelled. A zero window leaves every label 0, as the mean of an empty slice is NaN.
- The current row of `extract_features_for_round` feeds only the time-of-day features, which are left out; `Features.FeatureHistory` reads it only to decide whether it exists.
- `Features.HighLossStreakLabels` writes into a fresh array, as the source does. Its contract uses `fresh`, and its properties are stated as lemmas about `StreakLabels`.
