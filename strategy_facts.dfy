/**
 * What the strategies promise, stated over the functions of module
 * StrategyLogic: the bookkeeping invariant every `on_round_result` keeps,
 * the bounds on the stakes `decide` returns, the progressions of the
 * Martingale-style classes, the countdowns that make a strategy sit out
 * rounds, and the payoff of a two-leg bet.
 */
module StrategyFacts {
  import opened Common
  import opened Records
  import opened StrategyLogic

  // ---------------------------------------------------------------------
  // The ledger: bankroll, counters and trade log agree

  /** Number of entries at the end of the log whose outcome is `won`. */
  function Trailing(log: seq<TradeRecord>, won: bool): (n: nat)
    ensures n <= |log|
  {
    if |log| == 0 || log[|log| - 1].won != won then 0
    else Trailing(log[..|log| - 1], won) + 1
  }

  /**
   * The bankroll is the initial bankroll plus every logged profit, the bet
   * counters count the log, the last entry records the current bankroll, and
   * the streak counters never claim more than the log's trailing run (a
   * `decide` may clear them early, never extend them).
   */
  predicate Ledger(st: StrategyState)
  {
    st.bankroll == st.initialBankroll + SumProfit(st.history) &&
    st.totalBets == |st.history| &&
    st.totalWins == CountWon(st.history) &&
    (|st.history| > 0 ==> st.history[|st.history| - 1].bankroll == st.bankroll) &&
    st.consecutiveWins <= Trailing(st.history, true) &&
    st.consecutiveLosses <= Trailing(st.history, false)
  }

  lemma InitialLedger(c: StrategyConfig, initialBankroll: real)
    ensures Ledger(InitialState(c, initialBankroll))
  {
  }

  lemma DecideKeepsLedger(c: StrategyConfig, st: StrategyState, h: seq<Round>)
    requires DecideDefined(c, st, h) && Ledger(st)
    ensures Ledger(Decide(c, st, h).state)
  {
  }

  /** A placed bet moves the bankroll by its profit and extends the log by one entry. */
  lemma OnRoundResultKeepsLedger(c: StrategyConfig, st: StrategyState, d: BetDecision, round: Round,
                                 won: bool, profit: real)
    requires Ledger(st)
    ensures Ledger(OnRoundResult(c, st, d, round, won, profit))
  {
    var r := OnRoundResult(c, st, d, round, won, profit);
    if d.shouldBet {
      assert r.history[..|r.history| - 1] == st.history;
    }
  }

  /** Exactly one streak counter is positive after a placed bet. */
  lemma OneStreakAfterBet(c: StrategyConfig, st: StrategyState, d: BetDecision, round: Round,
                          won: bool, profit: real)
    requires d.shouldBet
    ensures var r := OnRoundResult(c, st, d, round, won, profit);
            (r.consecutiveWins == 0) != (r.consecutiveLosses == 0)
  {
  }

  // ---------------------------------------------------------------------
  // Stakes

  /**
   * A stake `decide` returns never exceeds the bankroll. PatternBased sizes
   * its stake without checking, so there the bound needs a percentage of at
   * most 100 and a bankroll that is not negative. The fixed-stake classes of
   * the realistic test never go below the minimum stake.
   */
  lemma StakeWithinBankroll(c: StrategyConfig, st: StrategyState, h: seq<Round>)
    requires DecideDefined(c, st, h)
    requires c.PatternBased? ==> 0.0 <= c.betPercent <= 100.0 && st.bankroll >= 0.0
    ensures var d := Decide(c, st, h).decision;
            d.shouldBet ==> d.betAmount <= st.bankroll
    ensures var d := Decide(c, st, h).decision;
            (d.shouldBet && (c.WaitForPattern? || c.ConservativeProgressive? ||
                             c.SkipAfterLoss? || c.SimpleBetEveryRound?)) ==> d.betAmount >= MinBet
  {
    if c.PatternBased? {
      var d := Decide(c, st, h).decision;
      if d.shouldBet {
        assert d.betAmount == PercentOf(st.bankroll, c.betPercent);
        PercentWithin(st.bankroll, c.betPercent);
      }
    }
  }

  /** A percentage of at most 100 of a bankroll that is not negative stays within it. */
  lemma PercentWithin(bankroll: real, percent: real)
    requires 0.0 <= bankroll && 0.0 <= percent <= 100.0
    ensures 0.0 <= PercentOf(bankroll, percent) <= bankroll
  {
    var f := percent / 100.0;
    assert 0.0 <= f <= 1.0;
    assert bankroll - bankroll * f == bankroll * (1.0 - f);
    assert 0.0 <= bankroll * (1.0 - f);
  }

  /**
   * FixedTarget stops on the stop-loss or take-profit percentage; otherwise
   * its stake is the percentage of the bankroll clamped into
   * [min_bet, max_bet], and it refuses when that does not fit the bankroll.
   */
  lemma FixedTargetSizing(c: StrategyConfig, st: StrategyState)
    requires c.FixedTarget? && st.initialBankroll != 0.0
    ensures var d := Decide(c, st, []).decision;
            (LossPercent(st) >= c.stopLossPercent || ProfitPercent(st) >= c.takeProfitPercent)
            ==> !d.shouldBet
    ensures var d := Decide(c, st, []).decision;
            d.shouldBet ==>
              c.minBet <= d.betAmount <= st.bankroll && d.cashoutTarget == c.target &&
              (c.minBet <= c.maxBet ==> d.betAmount <= c.maxBet) &&
              (c.minBet <= PercentOf(st.bankroll, c.betPercent) <= c.maxBet ==>
                 d.betAmount == PercentOf(st.bankroll, c.betPercent))
    ensures var d := Decide(c, st, []).decision;
            !d.shouldBet && LossPercent(st) < c.stopLossPercent && ProfitPercent(st) < c.takeProfitPercent
            ==> MaxR(c.minBet, MinR(c.maxBet, PercentOf(st.bankroll, c.betPercent))) > st.bankroll
  {
  }

  /** SimpleBetEveryRound stakes its amount capped by the bankroll, or refuses below the minimum. */
  lemma SimpleBetSizing(c: StrategyConfig, st: StrategyState, h: seq<Round>)
    requires c.SimpleBetEveryRound? && st.initialBankroll != 0.0 && !StopLoss(c, st)
    ensures var d := Decide(c, st, h).decision;
            (d.shouldBet <==> MinR(c.betAmount, st.bankroll) >= MinBet) &&
            (d.shouldBet ==> d.betAmount == (if c.betAmount <= st.bankroll then c.betAmount else st.bankroll))
  {
  }

  /**
   * DualBet stakes both legs when they fit, drops to twice the minimum stake
   * when they do not, and refuses when even that does not fit.
   */
  lemma DualBetSizing(c: StrategyConfig, st: StrategyState, h: seq<Round>)
    requires c.DualBet? && st.initialBankroll != 0.0 && !StopLoss(c, st)
    ensures var d := Decide(c, st, h).decision;
            var legs := st.currentSafetyBet + st.currentProfitBet;
            (legs <= st.bankroll ==> d.shouldBet && d.betAmount == legs) &&
            (legs > st.bankroll ==> (d.shouldBet <==> MinBet * 2.0 <= st.bankroll)) &&
            (legs > st.bankroll && d.shouldBet ==> d.betAmount == MinBet * 2.0) &&
            (d.shouldBet ==> d.cashoutTarget == c.profitTarget)
  {
  }

  /** After enough wins in a row DualBet scales its legs, but never beyond a tenth of the bankroll. */
  lemma DualLegsCapped(c: StrategyConfig, st: StrategyState)
    requires c.DualBet?
    ensures var r := ResizeDualLegs(c, st);
            if c.increaseAfterWins > 0 && st.consecutiveWins >= c.increaseAfterWins then
              r.currentSafetyBet <= st.bankroll * 0.1 && r.currentProfitBet <= st.bankroll * 0.1 &&
              r.currentSafetyBet <= c.safetyBet * c.increaseMultiplier &&
              r.currentProfitBet <= c.profitBet * c.increaseMultiplier
            else r.currentSafetyBet == c.safetyBet && r.currentProfitBet == c.profitBet
  {
  }

  // ---------------------------------------------------------------------
  // Progressions

  function Pow(x: real, n: nat): real
  {
    if n == 0 then 1.0 else Pow(x, n - 1) * x
  }

  /**
   * Martingale's stake stands on rung `j` of its ladder: the base stake
   * multiplied `j` times, with at least `j` losses in a row behind it.
   */
  predicate MartingaleRung(c: StrategyConfig, st: StrategyState, j: nat)
  {
    c.Martingale? && j <= st.consecutiveLosses &&
    st.currentBet == c.baseBet * Pow(c.multiplier, j)
  }

  /**
   * `decide` keeps the stake on the ladder, and any stake it places sits on
   * a rung below `max_consecutive_losses` (or is the base stake).
   */
  lemma MartingaleDecideOnLadder(c: StrategyConfig, st: StrategyState, h: seq<Round>, j: nat)
    returns (j': nat)
    requires MartingaleRung(c, st, j) && st.initialBankroll != 0.0
    ensures MartingaleRung(c, Decide(c, st, h).state, j')
    ensures var d := Decide(c, st, h).decision;
            d.shouldBet ==> d.betAmount == c.baseBet * Pow(c.multiplier, j') && d.betAmount <= st.bankroll &&
                            (j' == 0 || j' < c.maxConsecutiveLosses)
  {
    if StopLoss(c, st) {
      j' := j;
    } else if st.consecutiveLosses >= c.maxConsecutiveLosses || st.currentBet > st.bankroll {
      j' := 0;
    } else {
      j' := j;
    }
  }

  /** A loss climbs one rung; a win returns to the base stake. */
  lemma MartingaleSettleOnLadder(c: StrategyConfig, st: StrategyState, d: BetDecision, round: Round,
                                 won: bool, profit: real, j: nat)
    requires MartingaleRung(c, st, j) && d.shouldBet
    ensures MartingaleRung(c, OnRoundResult(c, st, d, round, won, profit), if won then 0 else j + 1)
  {
    if !won {
      assert c.baseBet * Pow(c.multiplier, j) * c.multiplier == c.baseBet * Pow(c.multiplier, j + 1);
    }
  }

  /** AntiMartingale's mirror image: the ladder climbs on wins. */
  predicate AntiMartingaleRung(c: StrategyConfig, st: StrategyState, j: nat)
  {
    c.AntiMartingale? && j <= st.consecutiveWins &&
    st.currentBet == c.baseBet * Pow(c.multiplier, j)
  }

  lemma AntiMartingaleDecideOnLadder(c: StrategyConfig, st: StrategyState, h: seq<Round>, j: nat)
    returns (j': nat)
    requires AntiMartingaleRung(c, st, j) && st.initialBankroll != 0.0
    ensures AntiMartingaleRung(c, Decide(c, st, h).state, j')
    ensures var d := Decide(c, st, h).decision;
            d.shouldBet ==> d.betAmount == c.baseBet * Pow(c.multiplier, j') && d.betAmount <= st.bankroll &&
                            (j' == 0 || j' < c.maxConsecutiveWins)
  {
    if StopLoss(c, st) || ProfitPercent(st) >= c.takeProfitPercent {
      j' := j;
    } else if st.consecutiveWins >= c.maxConsecutiveWins || st.currentBet > st.bankroll {
      j' := 0;
    } else {
      j' := j;
    }
  }

  lemma AntiMartingaleSettleOnLadder(c: StrategyConfig, st: StrategyState, d: BetDecision, round: Round,
                                     won: bool, profit: real, j: nat)
    requires AntiMartingaleRung(c, st, j) && d.shouldBet
    ensures AntiMartingaleRung(c, OnRoundResult(c, st, d, round, won, profit), if won then j + 1 else 0)
  {
    if won {
      assert c.baseBet * Pow(c.multiplier, j) * c.multiplier == c.baseBet * Pow(c.multiplier, j + 1);
    }
  }

  /** ConservativeProgressive's stake never exceeds `base_bet * max_bet_multiplier` (or the base stake). */
  predicate ConservativeCapped(c: StrategyConfig, st: StrategyState)
  {
    c.ConservativeProgressive? && st.currentBet <= MaxR(c.baseBet, c.baseBet * c.maxBetMultiplier)
  }

  lemma ConservativeStartsCapped(c: StrategyConfig, initialBankroll: real)
    requires c.ConservativeProgressive?
    ensures ConservativeCapped(c, InitialState(c, initialBankroll))
  {
  }

  lemma ConservativeDecideCapped(c: StrategyConfig, st: StrategyState, h: seq<Round>)
    requires ConservativeCapped(c, st) && st.initialBankroll != 0.0
    ensures ConservativeCapped(c, Decide(c, st, h).state)
    ensures var d := Decide(c, st, h).decision;
            d.shouldBet ==> MinBet <= d.betAmount <= MaxR(c.baseBet, c.baseBet * c.maxBetMultiplier)
  {
  }

  /**
   * A win grows the stake by the progression factor up to the cap; a loss
   * returns it to the base stake when `reset_after_loss` is set.
   */
  lemma ConservativeSettleCapped(c: StrategyConfig, st: StrategyState, d: BetDecision, round: Round,
                                 won: bool, profit: real)
    requires ConservativeCapped(c, st) && d.shouldBet
    ensures var r := OnRoundResult(c, st, d, round, won, profit);
            ConservativeCapped(c, r) &&
            (won ==> r.currentBet <= c.baseBet * c.maxBetMultiplier &&
                     r.currentBet <= st.currentBet * c.progressionFactor) &&
            (!won && c.resetAfterLoss ==> r.currentBet == c.baseBet) &&
            (!won && !c.resetAfterLoss ==> r.currentBet == st.currentBet)
  {
  }

  /**
   * AdaptiveTarget's cash-out target stays between `min_target` and
   * `start_target` when it starts there and the decrement is not negative.
   */
  predicate AdaptiveInBand(c: StrategyConfig, st: StrategyState)
  {
    c.AdaptiveTarget? && c.minTarget <= st.currentTarget <= c.startTarget
  }

  lemma AdaptiveStartsInBand(c: StrategyConfig, initialBankroll: real)
    requires c.AdaptiveTarget? && c.minTarget <= c.startTarget
    ensures AdaptiveInBand(c, InitialState(c, initialBankroll))
  {
  }

  lemma AdaptiveDecideInBand(c: StrategyConfig, st: StrategyState, h: seq<Round>)
    requires AdaptiveInBand(c, st) && st.initialBankroll != 0.0
    ensures Decide(c, st, h).state == st
    ensures var d := Decide(c, st, h).decision;
            d.shouldBet ==> d.cashoutTarget == st.currentTarget && c.minTarget <= d.cashoutTarget
  {
  }

  /** A loss lowers the target by the decrement but not below the floor; enough wins restore it. */
  lemma AdaptiveSettleInBand(c: StrategyConfig, st: StrategyState, d: BetDecision, round: Round,
                             won: bool, profit: real)
    requires AdaptiveInBand(c, st) && c.targetDecrement >= 0.0 && d.shouldBet
    ensures var r := OnRoundResult(c, st, d, round, won, profit);
            AdaptiveInBand(c, r) &&
            (!won ==> r.currentTarget == MaxR(c.minTarget, st.currentTarget - c.targetDecrement)) &&
            (won && st.consecutiveWins + 1 >= c.resetAfterWins ==> r.currentTarget == c.startTarget) &&
            (won && st.consecutiveWins + 1 < c.resetAfterWins ==> r.currentTarget == st.currentTarget)
  {
  }

  // ---------------------------------------------------------------------
  // Guards on history

  /**
   * PatternBased bets only on a long enough low streak with no wait pending
   * and no high multiplier last round, staking its percentage of the bankroll.
   */
  lemma PatternBasedBetsOnlyOnStreak(c: StrategyConfig, st: StrategyState, h: seq<Round>)
    requires c.PatternBased? && DecideDefined(c, st, h)
    ensures var d := Decide(c, st, h).decision;
            d.shouldBet ==>
              !StopLoss(c, st) && st.waitCounter <= 0 && |h| > 0 &&
              h[|h| - 1].multiplier < c.highThreshold &&
              LowStreak(h, c.streakThreshold) >= c.minStreakToBet &&
              d.betAmount == PercentOf(st.bankroll, c.betPercent) &&
              d.cashoutTarget == c.targetAfterStreak
    ensures var d := Decide(c, st, h).decision;
            (!StopLoss(c, st) && |h| >= c.minStreakToBet && st.waitCounter <= 0 && |h| > 0 &&
             h[|h| - 1].multiplier < c.highThreshold &&
             LowStreak(h, c.streakThreshold) >= c.minStreakToBet) ==> d.shouldBet
  {
  }

  /**
   * WaitForPattern refuses on a short history, and bets only on a low streak
   * of `wait_for_streak` rounds with a stake between the minimum and the bankroll.
   */
  lemma WaitForPatternGuards(c: StrategyConfig, st: StrategyState, h: seq<Round>)
    requires c.WaitForPattern? && st.initialBankroll != 0.0
    ensures var d := Decide(c, st, h).decision;
            |h| < c.waitForStreak ==> !d.shouldBet
    ensures var d := Decide(c, st, h).decision;
            d.shouldBet ==>
              !StopLoss(c, st) && LowStreak(h, c.streakThreshold) >= c.waitForStreak &&
              MinBet <= d.betAmount <= st.bankroll && d.cashoutTarget == c.target
    ensures Decide(c, st, h).state == st
  {
  }

  /** The prediction tiers in the order HybridML tries them: target, probability key, bar. */
  datatype Tier = Tier(target: real, key: string, bar: real)

  const PredictionTiers: seq<Tier> :=
    [Tier(10.0, "prob_gt_10x", 0.3), Tier(5.0, "prob_gt_5x", 0.35),
     Tier(3.0, "prob_gt_3x", 0.4), Tier(2.0, "prob_gt_2x", 0.5)]

  /** The first tier whose probability clears its bar, if any. */
  function FirstClearingTier(tiers: seq<Tier>, preds: map<string, real>): (r: Option<nat>)
    ensures r.Some? ==> r.value < |tiers| && Prob(preds, tiers[r.value].key) > tiers[r.value].bar &&
                        forall k :: 0 <= k < r.value ==> Prob(preds, tiers[k].key) <= tiers[k].bar
    ensures r.None? ==> forall k :: 0 <= k < |tiers| ==> Prob(preds, tiers[k].key) <= tiers[k].bar
  {
    if |tiers| == 0 then None
    else if Prob(preds, tiers[0].key) > tiers[0].bar then Some(0)
    else match FirstClearingTier(tiers[1..], preds)
      case None => None
      case Some(k) => Some(k + 1)
  }

  /**
   * `_get_target_from_predictions` picks the target of the first tier that
   * clears its bar, falling back to the base target.
   */
  lemma TargetIsFirstClearingTier(c: StrategyConfig, preds: map<string, real>)
    requires c.HybridML?
    ensures TargetFromPredictions(c, preds) ==
            if !c.useAdaptiveTarget then c.baseTarget
            else match FirstClearingTier(PredictionTiers, preds)
              case None => c.baseTarget
              case Some(k) => PredictionTiers[k].target
  {
    var t := PredictionTiers;
    assert t[1..][1..][1..][1..] == [];
    assert t[1..][0] == t[1] && t[1..][1..][0] == t[2] && t[1..][1..][1..][0] == t[3];
  }

  /**
   * HybridML bets only on a prediction for the last round whose early-crash
   * probability is within the cap and whose 2x probability reaches the
   * confidence; it then cashes out at the tier target. It changes no state.
   */
  lemma HybridMLBetsOnlyWhenConfident(c: StrategyConfig, st: StrategyState, h: seq<Round>)
    requires c.HybridML? && st.initialBankroll != 0.0
    ensures Decide(c, st, h).state == st
    ensures var d := Decide(c, st, h).decision;
            d.shouldBet ==>
              |h| > 0 && h[|h| - 1].id in c.predictions &&
              |PredictionsFor(c, h)| > 0 &&
              Prob(PredictionsFor(c, h), "prob_early_crash") <= c.earlyCrashMaxProb &&
              Prob(PredictionsFor(c, h), "prob_gt_2x") >= c.minConfidence &&
              d.cashoutTarget == TargetFromPredictions(c, PredictionsFor(c, h)) &&
              d.betAmount == PercentOf(st.bankroll, c.betPercent)
  {
  }

  // ---------------------------------------------------------------------
  // Countdowns: rounds a strategy sits out

  /**
   * The decisions a driver obtains from successive `decide` calls on the
   * histories `hs` as long as the strategy refuses (a refusal is never
   * passed to `on_round_result`); it stops after the first bet or when
   * `decide` would raise.
   */
  function RefusalRun(c: StrategyConfig, st: StrategyState, hs: seq<seq<Round>>): (ds: seq<BetDecision>)
    ensures |ds| <= |hs|
    ensures forall k :: 0 <= k < |ds| - 1 ==> !ds[k].shouldBet
    decreases |hs|
  {
    if |hs| == 0 || !DecideDefined(c, st, hs[0]) then []
    else
      var r := Decide(c, st, hs[0]);
      if r.decision.shouldBet then [r.decision]
      else [r.decision] + RefusalRun(c, r.state, hs[1..])
  }

  /** The counter that makes each class sit out rounds. */
  function Countdown(c: StrategyConfig, st: StrategyState): int
  {
    if c.PatternBased? then st.waitCounter else st.roundsToSkip
  }

  /** While the counter is `k`, the next `k` decisions all refuse, whatever the history. */
  lemma {:induction false} CountdownRefuses(c: StrategyConfig, st: StrategyState, hs: seq<seq<Round>>)
    requires c.SkipLow? || c.SkipAfterLoss? || c.PatternBased?
    requires st.initialBankroll != 0.0 && |hs| <= Countdown(c, st)
    ensures |RefusalRun(c, st, hs)| == |hs|
    ensures forall k :: 0 <= k < |hs| ==> !RefusalRun(c, st, hs)[k].shouldBet
    decreases |hs|
  {
    if |hs| > 0 {
      var r := Decide(c, st, hs[0]);
      assert !r.decision.shouldBet;
      assert Countdown(c, r.state) >= |hs| - 1;
      CountdownRefuses(c, r.state, hs[1..]);
    }
  }

  /** SkipAfterLoss: after a lost bet the next `skip_rounds` decisions refuse. */
  lemma SkipAfterLossSitsOut(c: StrategyConfig, st: StrategyState, d: BetDecision, round: Round,
                             profit: real, hs: seq<seq<Round>>)
    requires c.SkipAfterLoss? && st.initialBankroll != 0.0 && d.shouldBet && |hs| <= c.skipRounds
    ensures var ds := RefusalRun(c, OnRoundResult(c, st, d, round, false, profit), hs);
            |ds| == |hs| && forall k :: 0 <= k < |hs| ==> !ds[k].shouldBet
  {
    CountdownRefuses(c, OnRoundResult(c, st, d, round, false, profit), hs);
  }

  /**
   * SkipLow: a multiplier below `skip_after_below` in the last round makes
   * this decision and the next `skip_rounds` refuse.
   */
  lemma SkipLowSitsOut(c: StrategyConfig, st: StrategyState, h: seq<Round>, hs: seq<seq<Round>>)
    requires c.SkipLow? && st.initialBankroll != 0.0 && !StopLoss(c, st) && st.roundsToSkip <= 0
    requires |h| > 0 && h[|h| - 1].multiplier < c.skipAfterBelow && |hs| <= c.skipRounds
    ensures var ds := RefusalRun(c, st, [h] + hs);
            |ds| == 1 + |hs| && forall k :: 0 <= k < |ds| ==> !ds[k].shouldBet
  {
    var r := Decide(c, st, h);
    assert ([h] + hs)[1..] == hs;
    CountdownRefuses(c, r.state, hs);
  }

  /**
   * PatternBased: a multiplier at or above `high_threshold` in the last
   * round makes this decision and the next `wait_after_high` refuse.
   */
  lemma PatternBasedWaitsAfterHigh(c: StrategyConfig, st: StrategyState, h: seq<Round>, hs: seq<seq<Round>>)
    requires c.PatternBased? && st.initialBankroll != 0.0 && !StopLoss(c, st)
    requires |h| >= c.minStreakToBet && st.waitCounter <= 0
    requires |h| > 0 && h[|h| - 1].multiplier >= c.highThreshold && |hs| <= c.waitAfterHigh
    ensures var ds := RefusalRun(c, st, [h] + hs);
            |ds| == 1 + |hs| && forall k :: 0 <= k < |ds| ==> !ds[k].shouldBet
  {
    var r := Decide(c, st, h);
    assert ([h] + hs)[1..] == hs;
    CountdownRefuses(c, r.state, hs);
  }

  // ---------------------------------------------------------------------
  // Two-leg payoff

  /**
   * `simulate_round` splits the stake into its two legs without loss, never
   * loses more than the stake, loses exactly the stake when both legs crash,
   * and gains on both legs when the multiplier reaches both targets.
   */
  lemma DualPayoffBounds(c: StrategyConfig, total: real, multiplier: real)
    requires c.SafetyFirst? || c.DualBet?
    requires total >= 0.0 && c.safetyTarget >= 0.0 && c.profitTarget >= 0.0
    requires c.SafetyFirst? ==> 0.0 <= c.safetyBetRatio <= 1.0
    ensures SafetyStake(c, total) + ProfitStake(c, total) == total
    ensures SimulateRound(c, total, multiplier) >= -total
    ensures multiplier < c.safetyTarget && multiplier < c.profitTarget ==>
              SimulateRound(c, total, multiplier) == -total
    ensures multiplier >= c.safetyTarget && multiplier >= c.profitTarget ==>
              SimulateRound(c, total, multiplier) ==
                SafetyStake(c, total) * (c.safetyTarget - 1.0) + ProfitStake(c, total) * (c.profitTarget - 1.0)
  {
    var s := SafetyStake(c, total);
    var p := ProfitStake(c, total);
    assert s >= 0.0 && p >= 0.0 by {
      if c.SafetyFirst? {
        assert total * c.safetyBetRatio >= 0.0;
        assert total * (1.0 - c.safetyBetRatio) >= 0.0;
      }
    }
    assert s * c.safetyTarget >= 0.0 && p * c.profitTarget >= 0.0;
    assert LegPayoff(s, c.safetyTarget, multiplier) >= -s;
    assert LegPayoff(p, c.profitTarget, multiplier) >= -p;
  }
}
