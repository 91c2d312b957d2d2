/**
 * The betting strategies as values: each strategy class of the backtester is
 * one alternative of `StrategyConfig` (its constructor arguments), and the
 * fields its methods update are gathered in `StrategyState`. The functions
 * here say what `decide`, `on_round_result`, `reset` and the round resolution
 * do to such a state; the class in module StrategyObject performs the same
 * steps in place and is proved to agree with them.
 */
module StrategyLogic {
  import opened Common
  import opened Records

  /** The smallest stake the realistic strategies place (realistic_test.py). */
  const MinBet: real := 2.0

  /** The constructor arguments of each strategy class. */
  datatype StrategyConfig =
    | FixedTarget(target: real, betPercent: real, minBet: real, maxBet: real,
                  stopLossPercent: real, takeProfitPercent: real)
    | Martingale(target: real, baseBet: real, multiplier: real, maxConsecutiveLosses: int,
                 stopLossPercent: real)
    | AntiMartingale(target: real, baseBet: real, multiplier: real, maxConsecutiveWins: int,
                     stopLossPercent: real, takeProfitPercent: real)
    | PatternBased(betPercent: real, minStreakToBet: int, streakThreshold: real,
                   targetAfterStreak: real, waitAfterHigh: int, highThreshold: real,
                   stopLossPercent: real)
    | AdaptiveTarget(startTarget: real, minTarget: real, targetDecrement: real, betPercent: real,
                     resetAfterWins: int, stopLossPercent: real)
    | HybridML(betPercent: real, minConfidence: real, earlyCrashMaxProb: real,
               useAdaptiveTarget: bool, baseTarget: real, stopLossPercent: real,
               predictions: map<int, map<string, real>>)
    | SafetyFirst(safetyTarget: real, profitTarget: real, safetyBetRatio: real,
                  totalBetPercent: real, stopLossPercent: real, takeProfitPercent: real)
    | SkipLow(target: real, betPercent: real, skipAfterBelow: real, skipRounds: int,
              stopLossPercent: real)
    | DualBet(safetyTarget: real, profitTarget: real, safetyBet: real, profitBet: real,
              increaseAfterWins: int, increaseMultiplier: real, stopLossPercent: real)
    | WaitForPattern(target: real, betAmount: real, waitForStreak: int, streakThreshold: real,
                     doubleAfterPattern: bool, stopLossPercent: real)
    | ConservativeProgressive(target: real, baseBet: real, progressionFactor: real,
                              maxBetMultiplier: real, resetAfterLoss: bool, stopLossPercent: real)
    | SkipAfterLoss(target: real, betAmount: real, skipRounds: int, stopLossPercent: real)
    | SimpleBetEveryRound(target: real, betAmount: real, stopLossPercent: real)

  /**
   * Every field a strategy object updates. The first eight belong to the
   * base class; the rest belong to the variants that declare them.
   */
  datatype StrategyState = StrategyState(
    bankroll: real,
    initialBankroll: real,
    history: seq<TradeRecord>,
    consecutiveLosses: nat,
    consecutiveWins: nat,
    totalBets: nat,
    totalWins: nat,
    pausedRounds: int,
    currentBet: real,
    currentTarget: real,
    waitCounter: int,
    roundsToSkip: int,
    currentSafetyBet: real,
    currentProfitBet: real)

  /** The state after `decide` together with the decision it returned. */
  datatype Decided = Decided(state: StrategyState, decision: BetDecision)

  /** The outcome of one placed bet. */
  datatype Resolution = Resolution(won: bool, profit: real)

  /**
   * How a driver recognises a two-leg bet: engine.py asks whether the object
   * is a SafetyFirstStrategy, realistic_test.py whether it has `simulate_round`.
   */
  datatype DualProbe = IsSafetyFirstInstance | HasSimulateRound

  // ---------------------------------------------------------------------
  // Construction and reset

  /** The stake a progression starts from (`current_bet = base_bet`). */
  function BaseBet(c: StrategyConfig): real
  {
    match c
    case Martingale(_, baseBet, _, _, _) => baseBet
    case AntiMartingale(_, baseBet, _, _, _, _) => baseBet
    case WaitForPattern(_, betAmount, _, _, _, _) => betAmount
    case ConservativeProgressive(_, baseBet, _, _, _, _) => baseBet
    case _ => 0.0
  }

  function StartTarget(c: StrategyConfig): real
  {
    if c.AdaptiveTarget? then c.startTarget else 0.0
  }

  function BaseSafetyBet(c: StrategyConfig): real
  {
    if c.DualBet? then c.safetyBet else 0.0
  }

  function BaseProfitBet(c: StrategyConfig): real
  {
    if c.DualBet? then c.profitBet else 0.0
  }

  /** The state of a freshly constructed strategy. */
  function InitialState(c: StrategyConfig, initialBankroll: real): (st: StrategyState)
    ensures st.bankroll == st.initialBankroll == initialBankroll
    ensures st.history == [] && st.totalBets == 0 && st.totalWins == 0
    ensures st.consecutiveLosses == 0 && st.consecutiveWins == 0
  {
    StrategyState(initialBankroll, initialBankroll, [], 0, 0, 0, 0, 0,
                  BaseBet(c), StartTarget(c), 0, 0, BaseSafetyBet(c), BaseProfitBet(c))
  }

  /**
   * `reset`: the base class restores the bankroll and clears the log and the
   * counters; each variant restores its own progression field. The fields a
   * variant does not declare are restored as well (no variant reads them).
   */
  function ResetState(c: StrategyConfig, st: StrategyState): (r: StrategyState)
    ensures r == InitialState(c, st.initialBankroll)
  {
    st.(bankroll := st.initialBankroll, history := [],
        consecutiveLosses := 0, consecutiveWins := 0, totalBets := 0, totalWins := 0,
        pausedRounds := 0,
        currentBet := BaseBet(c), currentTarget := StartTarget(c),
        waitCounter := 0, roundsToSkip := 0,
        currentSafetyBet := BaseSafetyBet(c), currentProfitBet := BaseProfitBet(c))
  }

  // ---------------------------------------------------------------------
  // Guards shared by every decide

  /** How much of the initial bankroll has been lost, in percent. */
  function LossPercent(st: StrategyState): real
    requires st.initialBankroll != 0.0
  {
    (st.initialBankroll - st.bankroll) / st.initialBankroll * 100.0
  }

  /** How much has been gained over the initial bankroll, in percent. */
  function ProfitPercent(st: StrategyState): real
    requires st.initialBankroll != 0.0
  {
    (st.bankroll - st.initialBankroll) / st.initialBankroll * 100.0
  }

  predicate StopLoss(c: StrategyConfig, st: StrategyState)
    requires st.initialBankroll != 0.0
  {
    LossPercent(st) >= c.stopLossPercent
  }

  /** Stakes sized as a percentage of the bankroll. */
  function PercentOf(bankroll: real, percent: real): real
  {
    bankroll * (percent / 100.0)
  }

  /** Number of rounds at the end of `h` whose multiplier stays below `threshold`. */
  function LowStreak(h: seq<Round>, threshold: real): (n: nat)
    ensures n <= |h|
    ensures forall i :: |h| - n <= i < |h| ==> h[i].multiplier < threshold
    ensures n < |h| ==> h[|h| - 1 - n].multiplier >= threshold
  {
    if |h| == 0 || h[|h| - 1].multiplier >= threshold then 0
    else LowStreak(h[..|h| - 1], threshold) + 1
  }

  /**
   * Whether `decide` returns at all: every variant divides by the initial
   * bankroll first, and PatternBased reads the last round of the history
   * once its length guard lets an empty history through.
   */
  predicate DecideDefined(c: StrategyConfig, st: StrategyState, h: seq<Round>)
  {
    st.initialBankroll != 0.0 &&
    (c.PatternBased? ==>
       StopLoss(c, st) || |h| < c.minStreakToBet || st.waitCounter > 0 || |h| > 0)
  }

  // ---------------------------------------------------------------------
  // decide, one function per strategy class

  function DecideFixedTarget(c: StrategyConfig, st: StrategyState): Decided
    requires c.FixedTarget? && st.initialBankroll != 0.0
  {
    if StopLoss(c, st) then Decided(st, NoBet(StopLossTriggered))
    else if ProfitPercent(st) >= c.takeProfitPercent then Decided(st, NoBet(TakeProfitTriggered))
    else
      var amount := MaxR(c.minBet, MinR(c.maxBet, PercentOf(st.bankroll, c.betPercent)));
      if amount > st.bankroll then Decided(st, NoBet(InsufficientBankroll))
      else Decided(st, Bet(amount, c.target, FixedTargetBet))
  }

  function DecideMartingale(c: StrategyConfig, st: StrategyState): Decided
    requires c.Martingale? && st.initialBankroll != 0.0
  {
    if StopLoss(c, st) then Decided(st, NoBet(StopLossTriggered))
    else
      var st1 := if st.consecutiveLosses >= c.maxConsecutiveLosses
                 then st.(currentBet := c.baseBet, consecutiveLosses := 0) else st;
      if st1.currentBet > st1.bankroll then
        var st2 := st1.(currentBet := c.baseBet);
        if st2.currentBet > st2.bankroll then Decided(st2, NoBet(InsufficientBankroll))
        else Decided(st2, Bet(st2.currentBet, c.target, MartingaleBet))
      else Decided(st1, Bet(st1.currentBet, c.target, MartingaleBet))
  }

  function DecideAntiMartingale(c: StrategyConfig, st: StrategyState): Decided
    requires c.AntiMartingale? && st.initialBankroll != 0.0
  {
    if StopLoss(c, st) then Decided(st, NoBet(StopLossTriggered))
    else if ProfitPercent(st) >= c.takeProfitPercent then Decided(st, NoBet(TakeProfitTriggered))
    else
      var st1 := if st.consecutiveWins >= c.maxConsecutiveWins
                 then st.(currentBet := c.baseBet, consecutiveWins := 0) else st;
      if st1.currentBet > st1.bankroll then
        var st2 := st1.(currentBet := c.baseBet);
        if st2.currentBet > st2.bankroll then Decided(st2, NoBet(InsufficientBankroll))
        else Decided(st2, Bet(st2.currentBet, c.target, AntiMartingaleBet))
      else Decided(st1, Bet(st1.currentBet, c.target, AntiMartingaleBet))
  }

  function DecidePatternBased(c: StrategyConfig, st: StrategyState, h: seq<Round>): Decided
    requires c.PatternBased? && DecideDefined(c, st, h)
  {
    if StopLoss(c, st) then Decided(st, NoBet(StopLossTriggered))
    else if |h| < c.minStreakToBet then Decided(st, NoBet(NotEnoughHistory))
    else if st.waitCounter > 0 then
      var left := st.waitCounter - 1;
      Decided(st.(waitCounter := left), NoBet(WaitingAfterHigh(left)))
    else if h[|h| - 1].multiplier >= c.highThreshold then
      Decided(st.(waitCounter := c.waitAfterHigh), NoBet(JustHadHigh))
    else
      var streak := LowStreak(h, c.streakThreshold);
      if streak >= c.minStreakToBet then
        Decided(st, Bet(PercentOf(st.bankroll, c.betPercent), c.targetAfterStreak, StreakDetected(streak)))
      else Decided(st, NoBet(StreakTooShort(streak, c.minStreakToBet)))
  }

  function DecideAdaptiveTarget(c: StrategyConfig, st: StrategyState): Decided
    requires c.AdaptiveTarget? && st.initialBankroll != 0.0
  {
    if StopLoss(c, st) then Decided(st, NoBet(StopLossTriggered))
    else
      var amount := PercentOf(st.bankroll, c.betPercent);
      if amount > st.bankroll then Decided(st, NoBet(InsufficientBankroll))
      else Decided(st, Bet(amount, st.currentTarget, AdaptiveTargetBet(st.currentTarget)))
  }

  /** `preds.get(key, 0)`. */
  function Prob(preds: map<string, real>, key: string): real
  {
    if key in preds then preds[key] else 0.0
  }

  /** `_get_target_from_predictions`: the highest tier whose probability clears its bar. */
  function TargetFromPredictions(c: StrategyConfig, preds: map<string, real>): real
    requires c.HybridML?
  {
    if !c.useAdaptiveTarget then c.baseTarget
    else if Prob(preds, "prob_gt_10x") > 0.3 then 10.0
    else if Prob(preds, "prob_gt_5x") > 0.35 then 5.0
    else if Prob(preds, "prob_gt_3x") > 0.4 then 3.0
    else if Prob(preds, "prob_gt_2x") > 0.5 then 2.0
    else c.baseTarget
  }

  /** The predictions keyed by the id of the last round seen, or none. */
  function PredictionsFor(c: StrategyConfig, h: seq<Round>): map<string, real>
    requires c.HybridML? && |h| > 0
  {
    var lastId := h[|h| - 1].id;
    if lastId in c.predictions then c.predictions[lastId] else map[]
  }

  function DecideHybridML(c: StrategyConfig, st: StrategyState, h: seq<Round>): Decided
    requires c.HybridML? && st.initialBankroll != 0.0
  {
    if StopLoss(c, st) then Decided(st, NoBet(StopLossTriggered))
    else if |h| == 0 then Decided(st, NoBet(NoHistory))
    else
      var preds := PredictionsFor(c, h);
      if |preds| == 0 then Decided(st, NoBet(NoPrediction))
      else if Prob(preds, "prob_early_crash") > c.earlyCrashMaxProb then Decided(st, NoBet(HighEarlyCrash))
      else
        var prob2x := Prob(preds, "prob_gt_2x");
        if prob2x < c.minConfidence then Decided(st, NoBet(LowConfidence(prob2x)))
        else
          var amount := PercentOf(st.bankroll, c.betPercent);
          if amount > st.bankroll then Decided(st, NoBet(InsufficientBankroll))
          else
            var target := TargetFromPredictions(c, preds);
            Decided(st, Bet(amount, target, MLSuggests(target, prob2x)))
  }

  function DecideSafetyFirst(c: StrategyConfig, st: StrategyState): Decided
    requires c.SafetyFirst? && st.initialBankroll != 0.0
  {
    if StopLoss(c, st) then Decided(st, NoBet(StopLossTriggered))
    else if ProfitPercent(st) >= c.takeProfitPercent then Decided(st, NoBet(TakeProfitTriggered))
    else
      var total := PercentOf(st.bankroll, c.totalBetPercent);
      if total > st.bankroll then Decided(st, NoBet(InsufficientBankroll))
      else Decided(st, Bet(total, c.profitTarget, SafetyFirstBet))
  }

  function DecideSkipLow(c: StrategyConfig, st: StrategyState, h: seq<Round>): Decided
    requires c.SkipLow? && st.initialBankroll != 0.0
  {
    if StopLoss(c, st) then Decided(st, NoBet(StopLossTriggered))
    else if st.roundsToSkip > 0 then
      var left := st.roundsToSkip - 1;
      Decided(st.(roundsToSkip := left), NoBet(Skipping(left)))
    else if |h| > 0 && h[|h| - 1].multiplier < c.skipAfterBelow then
      Decided(st.(roundsToSkip := c.skipRounds), NoBet(LowMultiplierDetected))
    else
      var amount := PercentOf(st.bankroll, c.betPercent);
      if amount > st.bankroll then Decided(st, NoBet(InsufficientBankroll))
      else Decided(st, Bet(amount, c.target, NormalBetAfterClear))
  }

  function DecideDualBet(c: StrategyConfig, st: StrategyState): Decided
    requires c.DualBet? && st.initialBankroll != 0.0
  {
    if StopLoss(c, st) then Decided(st, NoBet(StopLossTriggered))
    else
      var total := st.currentSafetyBet + st.currentProfitBet;
      if total > st.bankroll then
        if MinBet * 2.0 <= st.bankroll then Decided(st, Bet(MinBet * 2.0, c.profitTarget, DualBetPlaced))
        else Decided(st, NoBet(InsufficientBankroll))
      else Decided(st, Bet(total, c.profitTarget, DualBetPlaced))
  }

  function DecideWaitForPattern(c: StrategyConfig, st: StrategyState, h: seq<Round>): Decided
    requires c.WaitForPattern? && st.initialBankroll != 0.0
  {
    if StopLoss(c, st) then Decided(st, NoBet(StopLossTriggered))
    else if |h| < c.waitForStreak then Decided(st, NoBet(NotEnoughHistory))
    else
      var streak := LowStreak(h, c.streakThreshold);
      if streak >= c.waitForStreak then
        var bet0 := if c.doubleAfterPattern && streak >= c.waitForStreak
                    then MinR(st.currentBet * 2.0, st.bankroll * 0.2) else st.currentBet;
        var bet := if bet0 > st.bankroll then MinR(c.betAmount, st.bankroll) else bet0;
        if bet < MinBet then Decided(st, NoBet(BetBelowMinimum))
        else Decided(st, Bet(bet, c.target, PatternDetected(streak, c.streakThreshold)))
      else Decided(st, NoBet(WaitingForPattern(streak, c.waitForStreak)))
  }

  function DecideConservativeProgressive(c: StrategyConfig, st: StrategyState): Decided
    requires c.ConservativeProgressive? && st.initialBankroll != 0.0
  {
    if StopLoss(c, st) then Decided(st, NoBet(StopLossTriggered))
    else
      var st1 := if st.currentBet > st.bankroll
                 then st.(currentBet := MinR(c.baseBet, st.bankroll)) else st;
      if st1.currentBet < MinBet then Decided(st1, NoBet(InsufficientBankroll))
      else Decided(st1, Bet(st1.currentBet, c.target, ProgressiveBet))
  }

  function DecideSkipAfterLoss(c: StrategyConfig, st: StrategyState): Decided
    requires c.SkipAfterLoss? && st.initialBankroll != 0.0
  {
    if StopLoss(c, st) then Decided(st, NoBet(StopLossTriggered))
    else if st.roundsToSkip > 0 then
      var left := st.roundsToSkip - 1;
      Decided(st.(roundsToSkip := left), NoBet(Skipping(left)))
    else
      var bet := MinR(c.betAmount, st.bankroll);
      if bet < MinBet then Decided(st, NoBet(InsufficientBankroll))
      else Decided(st, Bet(bet, c.target, NormalBet))
  }

  function DecideSimpleBetEveryRound(c: StrategyConfig, st: StrategyState): Decided
    requires c.SimpleBetEveryRound? && st.initialBankroll != 0.0
  {
    if StopLoss(c, st) then Decided(st, NoBet(StopLossTriggered))
    else
      var bet := MinR(c.betAmount, st.bankroll);
      if bet < MinBet then Decided(st, NoBet(InsufficientBankroll))
      else Decided(st, Bet(bet, c.target, SimpleBet))
  }

  /**
   * `decide` of whichever class `c` describes. It never touches the money,
   * the trade log or the bet counters, and a stop-loss refusal leaves the
   * state as it was.
   */
  function Decide(c: StrategyConfig, st: StrategyState, h: seq<Round>): (r: Decided)
    requires DecideDefined(c, st, h)
    ensures r.state.bankroll == st.bankroll && r.state.initialBankroll == st.initialBankroll
    ensures r.state.history == st.history
    ensures r.state.totalBets == st.totalBets && r.state.totalWins == st.totalWins
    ensures r.state.consecutiveLosses == 0 || r.state.consecutiveLosses == st.consecutiveLosses
    ensures r.state.consecutiveWins == 0 || r.state.consecutiveWins == st.consecutiveWins
    ensures StopLoss(c, st) ==> r == Decided(st, NoBet(StopLossTriggered))
    ensures !r.decision.shouldBet ==> r.decision.betAmount == 0.0
  {
    match c
    case FixedTarget(_, _, _, _, _, _) => DecideFixedTarget(c, st)
    case Martingale(_, _, _, _, _) => DecideMartingale(c, st)
    case AntiMartingale(_, _, _, _, _, _) => DecideAntiMartingale(c, st)
    case PatternBased(_, _, _, _, _, _, _) => DecidePatternBased(c, st, h)
    case AdaptiveTarget(_, _, _, _, _, _) => DecideAdaptiveTarget(c, st)
    case HybridML(_, _, _, _, _, _, _) => DecideHybridML(c, st, h)
    case SafetyFirst(_, _, _, _, _, _) => DecideSafetyFirst(c, st)
    case SkipLow(_, _, _, _, _) => DecideSkipLow(c, st, h)
    case DualBet(_, _, _, _, _, _, _) => DecideDualBet(c, st)
    case WaitForPattern(_, _, _, _, _, _) => DecideWaitForPattern(c, st, h)
    case ConservativeProgressive(_, _, _, _, _, _) => DecideConservativeProgressive(c, st)
    case SkipAfterLoss(_, _, _, _) => DecideSkipAfterLoss(c, st)
    case SimpleBetEveryRound(_, _, _) => DecideSimpleBetEveryRound(c, st)
  }

  // ---------------------------------------------------------------------
  // on_round_result

  /**
   * The base class's bookkeeping: a placed bet counts, moves the bankroll by
   * its profit, updates the streak counters and is appended to the log with
   * the new bankroll; a refusal changes nothing.
   */
  function Settle(st: StrategyState, d: BetDecision, round: Round, won: bool, profit: real): StrategyState
  {
    if !d.shouldBet then st
    else
      var bankroll := st.bankroll + profit;
      st.(totalBets := st.totalBets + 1,
          bankroll := bankroll,
          totalWins := if won then st.totalWins + 1 else st.totalWins,
          consecutiveWins := if won then st.consecutiveWins + 1 else 0,
          consecutiveLosses := if won then 0 else st.consecutiveLosses + 1,
          history := st.history + [TradeRecord(round.id, round.multiplier, d.betAmount,
                                               d.cashoutTarget, won, profit, bankroll)])
  }

  /** DualBet re-sizes both legs from the streak before the base bookkeeping runs. */
  function ResizeDualLegs(c: StrategyConfig, st: StrategyState): StrategyState
    requires c.DualBet?
  {
    if c.increaseAfterWins > 0 && st.consecutiveWins >= c.increaseAfterWins then
      st.(currentSafetyBet := MinR(c.safetyBet * c.increaseMultiplier, st.bankroll * 0.1),
          currentProfitBet := MinR(c.profitBet * c.increaseMultiplier, st.bankroll * 0.1))
    else
      st.(currentSafetyBet := c.safetyBet, currentProfitBet := c.profitBet)
  }

  /** What each class does after the base bookkeeping of a placed bet. */
  function AfterSettle(c: StrategyConfig, st: StrategyState, won: bool): StrategyState
  {
    match c
    case Martingale(_, baseBet, multiplier, _, _) =>
      if won then st.(currentBet := baseBet) else st.(currentBet := st.currentBet * multiplier)
    case AntiMartingale(_, baseBet, multiplier, _, _, _) =>
      if won then st.(currentBet := st.currentBet * multiplier) else st.(currentBet := baseBet)
    case AdaptiveTarget(startTarget, minTarget, targetDecrement, _, resetAfterWins, _) =>
      if won then
        (if st.consecutiveWins >= resetAfterWins then st.(currentTarget := startTarget) else st)
      else st.(currentTarget := MaxR(minTarget, st.currentTarget - targetDecrement))
    case ConservativeProgressive(_, baseBet, progressionFactor, maxBetMultiplier, resetAfterLoss, _) =>
      if won then st.(currentBet := MinR(st.currentBet * progressionFactor, baseBet * maxBetMultiplier))
      else if resetAfterLoss then st.(currentBet := baseBet)
      else st
    case SkipAfterLoss(_, _, skipRounds, _) =>
      if won then st else st.(roundsToSkip := skipRounds)
    case _ => st
  }

  /** `on_round_result` of whichever class `c` describes. */
  function OnRoundResult(c: StrategyConfig, st: StrategyState, d: BetDecision, round: Round,
                         won: bool, profit: real): (r: StrategyState)
    ensures r.initialBankroll == st.initialBankroll
    ensures d.shouldBet ==> r.bankroll == st.bankroll + profit && r.totalBets == st.totalBets + 1
    ensures d.shouldBet ==> r.history == st.history + [TradeRecord(round.id, round.multiplier,
                              d.betAmount, d.cashoutTarget, won, profit, r.bankroll)]
    ensures !d.shouldBet ==> r.bankroll == st.bankroll && r.history == st.history
                              && r.totalBets == st.totalBets && r.totalWins == st.totalWins
                              && r.consecutiveWins == st.consecutiveWins
                              && r.consecutiveLosses == st.consecutiveLosses
    ensures !d.shouldBet && !c.DualBet? ==> r == st
    ensures d.shouldBet && won ==>
              r.totalWins == st.totalWins + 1 &&
              r.consecutiveWins == st.consecutiveWins + 1 && r.consecutiveLosses == 0
    ensures d.shouldBet && !won ==>
              r.totalWins == st.totalWins &&
              r.consecutiveLosses == st.consecutiveLosses + 1 && r.consecutiveWins == 0
  {
    if c.DualBet? then Settle(ResizeDualLegs(c, st), d, round, won, profit)
    else
      var settled := Settle(st, d, round, won, profit);
      if d.shouldBet then AfterSettle(c, settled, won) else settled
  }

  // ---------------------------------------------------------------------
  // Resolving a placed bet

  /** Whether the driver settles this strategy's bets through `simulate_round`. */
  predicate ResolvesAsDualBet(c: StrategyConfig, probe: DualProbe)
  {
    match probe
    case IsSafetyFirstInstance => c.SafetyFirst?
    case HasSimulateRound => c.SafetyFirst? || c.DualBet?
  }

  /** Net result of one leg: a cash-out at `target` pays `stake * (target - 1)`, a crash loses it. */
  function LegPayoff(stake: real, target: real, multiplier: real): real
  {
    if multiplier >= target then stake * (target - 1.0) else -stake
  }

  /** The stake of the low-target (safety) leg. */
  function SafetyStake(c: StrategyConfig, total: real): real
    requires c.SafetyFirst? || c.DualBet?
  {
    if c.SafetyFirst? then total * c.safetyBetRatio else total / 2.0
  }

  /** The stake of the high-target (profit) leg. */
  function ProfitStake(c: StrategyConfig, total: real): real
    requires c.SafetyFirst? || c.DualBet?
  {
    if c.SafetyFirst? then total * (1.0 - c.safetyBetRatio) else total / 2.0
  }

  /** `simulate_round`: the net result of the two legs a dual bet of `total` places. */
  function SimulateRound(c: StrategyConfig, total: real, multiplier: real): real
    requires c.SafetyFirst? || c.DualBet?
  {
    0.0 + LegPayoff(SafetyStake(c, total), c.safetyTarget, multiplier)
        + LegPayoff(ProfitStake(c, total), c.profitTarget, multiplier)
  }

  /** The win flag and profit a driver hands to `on_round_result` for a placed bet. */
  function Resolve(c: StrategyConfig, probe: DualProbe, d: BetDecision, multiplier: real): (r: Resolution)
    ensures !ResolvesAsDualBet(c, probe) ==>
              (r.won <==> multiplier >= d.cashoutTarget) &&
              r.profit == LegPayoff(d.betAmount, d.cashoutTarget, multiplier)
    ensures ResolvesAsDualBet(c, probe) ==> (r.won <==> r.profit > 0.0)
  {
    if ResolvesAsDualBet(c, probe) then
      var profit := SimulateRound(c, d.betAmount, multiplier);
      Resolution(profit > 0.0, profit)
    else if multiplier >= d.cashoutTarget then Resolution(true, d.betAmount * (d.cashoutTarget - 1.0))
    else Resolution(false, -d.betAmount)
  }
}
