/**
 * A strategy object as the backtesting drivers use it: its fields are
 * updated in place by `Decide`, `OnRoundResult` and `Reset`, one statement
 * per assignment of the original classes. Every method is proved to move
 * the object's `State()` exactly as the corresponding function of module
 * StrategyLogic says.
 */
module StrategyObject {
  import opened Common
  import opened Records
  import opened StrategyLogic

  class Strategy {
    const name: string
    const config: StrategyConfig

    var bankroll: real
    var initialBankroll: real
    var history: seq<TradeRecord>
    var consecutiveLosses: nat
    var consecutiveWins: nat
    var totalBets: nat
    var totalWins: nat
    var pausedRounds: int
    var currentBet: real
    var currentTarget: real
    var waitCounter: int
    var roundsToSkip: int
    var currentSafetyBet: real
    var currentProfitBet: real

    /** The object's fields as a value. */
    function State(): StrategyState
      reads this
    {
      StrategyState(bankroll, initialBankroll, history, consecutiveLosses, consecutiveWins,
                    totalBets, totalWins, pausedRounds, currentBet, currentTarget,
                    waitCounter, roundsToSkip, currentSafetyBet, currentProfitBet)
    }

    constructor (name: string, config: StrategyConfig, initialBankroll: real)
      ensures this.name == name && this.config == config
      ensures State() == InitialState(config, initialBankroll)
    {
      this.name := name;
      this.config := config;
      this.initialBankroll := initialBankroll;
      bankroll, history := initialBankroll, [];
      consecutiveLosses, consecutiveWins, totalBets, totalWins := 0, 0, 0, 0;
      pausedRounds, waitCounter, roundsToSkip := 0, 0, 0;
      currentBet, currentTarget := BaseBet(config), StartTarget(config);
      currentSafetyBet, currentProfitBet := BaseSafetyBet(config), BaseProfitBet(config);
    }

    /** Overwrites the bankroll, the log and the counters with those of `st`. */
    method SetAccounts(st: StrategyState)
      modifies this`bankroll, this`initialBankroll, this`history, this`consecutiveLosses,
               this`consecutiveWins, this`totalBets, this`totalWins
      ensures State() == old(State()).(bankroll := st.bankroll, initialBankroll := st.initialBankroll,
                                       history := st.history, consecutiveLosses := st.consecutiveLosses,
                                       consecutiveWins := st.consecutiveWins, totalBets := st.totalBets,
                                       totalWins := st.totalWins)
    {
      bankroll, initialBankroll, history := st.bankroll, st.initialBankroll, st.history;
      consecutiveLosses, consecutiveWins := st.consecutiveLosses, st.consecutiveWins;
      totalBets, totalWins := st.totalBets, st.totalWins;
    }

    /** Overwrites the progression fields with those of `st`. */
    method SetProgression(st: StrategyState)
      modifies this`pausedRounds, this`waitCounter, this`roundsToSkip, this`currentBet,
               this`currentTarget, this`currentSafetyBet, this`currentProfitBet
      ensures State() == old(State()).(pausedRounds := st.pausedRounds, waitCounter := st.waitCounter,
                                       roundsToSkip := st.roundsToSkip, currentBet := st.currentBet,
                                       currentTarget := st.currentTarget, currentSafetyBet := st.currentSafetyBet,
                                       currentProfitBet := st.currentProfitBet)
    {
      pausedRounds, waitCounter, roundsToSkip := st.pausedRounds, st.waitCounter, st.roundsToSkip;
      currentBet, currentTarget := st.currentBet, st.currentTarget;
      currentSafetyBet, currentProfitBet := st.currentSafetyBet, st.currentProfitBet;
    }

    /**
     * `reset`: the bankroll goes back to the initial bankroll, the log and
     * the counters are cleared and the variant's progression restarts.
     */
    method Reset()
      modifies this
      ensures State() == ResetState(config, old(State()))
      ensures State() == InitialState(config, old(initialBankroll))
    {
      var st := ResetState(config, State());
      SetAccounts(st);
      SetProgression(st);
    }

    /**
     * `_count_streak` of PatternBased and WaitForPattern: walks the history
     * from its end while the multipliers stay below the streak threshold.
     */
    method CountStreak(rounds: seq<Round>) returns (count: nat)
      requires config.PatternBased? || config.WaitForPattern?
      ensures count == LowStreak(rounds, config.streakThreshold)
    {
      count := 0;
      var i := |rounds|;
      while i > 0
        invariant 0 <= i <= |rounds| && count == |rounds| - i
        invariant forall j :: i <= j < |rounds| ==> rounds[j].multiplier < config.streakThreshold
      {
        if rounds[i - 1].multiplier < config.streakThreshold {
          count := count + 1;
        } else {
          break;
        }
        i := i - 1;
      }
    }

    function LossPercentNow(): real
      reads this
      requires initialBankroll != 0.0
    {
      LossPercent(State())
    }

    function ProfitPercentNow(): real
      reads this
      requires initialBankroll != 0.0
    {
      ProfitPercent(State())
    }

    // -------------------------------------------------------------------
    // decide of each class

    method DecideFixedTarget() returns (d: BetDecision)
      requires config.FixedTarget? && initialBankroll != 0.0
      ensures StrategyLogic.DecideFixedTarget(config, State()) == Decided(State(), d)
    {
      if LossPercentNow() >= config.stopLossPercent {
        return NoBet(StopLossTriggered);
      }
      if ProfitPercentNow() >= config.takeProfitPercent {
        return NoBet(TakeProfitTriggered);
      }
      var betAmount := PercentOf(bankroll, config.betPercent);
      betAmount := MaxR(config.minBet, MinR(config.maxBet, betAmount));
      if betAmount > bankroll {
        return NoBet(InsufficientBankroll);
      }
      return Bet(betAmount, config.target, FixedTargetBet);
    }

    method DecideMartingale() returns (d: BetDecision)
      requires config.Martingale? && initialBankroll != 0.0
      modifies this
      ensures StrategyLogic.DecideMartingale(config, old(State())) == Decided(State(), d)
    {
      if LossPercentNow() >= config.stopLossPercent {
        return NoBet(StopLossTriggered);
      }
      if consecutiveLosses >= config.maxConsecutiveLosses {
        currentBet := config.baseBet;
        consecutiveLosses := 0;
      }
      if currentBet > bankroll {
        currentBet := config.baseBet;
        if currentBet > bankroll {
          return NoBet(InsufficientBankroll);
        }
      }
      return Bet(currentBet, config.target, MartingaleBet);
    }

    method DecideAntiMartingale() returns (d: BetDecision)
      requires config.AntiMartingale? && initialBankroll != 0.0
      modifies this
      ensures StrategyLogic.DecideAntiMartingale(config, old(State())) == Decided(State(), d)
    {
      if LossPercentNow() >= config.stopLossPercent {
        return NoBet(StopLossTriggered);
      }
      if ProfitPercentNow() >= config.takeProfitPercent {
        return NoBet(TakeProfitTriggered);
      }
      if consecutiveWins >= config.maxConsecutiveWins {
        currentBet := config.baseBet;
        consecutiveWins := 0;
      }
      if currentBet > bankroll {
        currentBet := config.baseBet;
        if currentBet > bankroll {
          return NoBet(InsufficientBankroll);
        }
      }
      return Bet(currentBet, config.target, AntiMartingaleBet);
    }

    method DecidePatternBased(roundHistory: seq<Round>) returns (d: BetDecision)
      requires config.PatternBased? && DecideDefined(config, State(), roundHistory)
      modifies this
      ensures StrategyLogic.DecidePatternBased(config, old(State()), roundHistory) == Decided(State(), d)
    {
      if LossPercentNow() >= config.stopLossPercent {
        return NoBet(StopLossTriggered);
      }
      if |roundHistory| < config.minStreakToBet {
        return NoBet(NotEnoughHistory);
      }
      if waitCounter > 0 {
        waitCounter := waitCounter - 1;
        return NoBet(WaitingAfterHigh(waitCounter));
      }
      if roundHistory[|roundHistory| - 1].multiplier >= config.highThreshold {
        waitCounter := config.waitAfterHigh;
        return NoBet(JustHadHigh);
      }
      var streak := CountStreak(roundHistory);
      if streak >= config.minStreakToBet {
        var betAmount := PercentOf(bankroll, config.betPercent);
        return Bet(betAmount, config.targetAfterStreak, StreakDetected(streak));
      }
      return NoBet(StreakTooShort(streak, config.minStreakToBet));
    }

    method DecideAdaptiveTarget() returns (d: BetDecision)
      requires config.AdaptiveTarget? && initialBankroll != 0.0
      ensures StrategyLogic.DecideAdaptiveTarget(config, State()) == Decided(State(), d)
    {
      if LossPercentNow() >= config.stopLossPercent {
        return NoBet(StopLossTriggered);
      }
      var betAmount := PercentOf(bankroll, config.betPercent);
      if betAmount > bankroll {
        return NoBet(InsufficientBankroll);
      }
      return Bet(betAmount, currentTarget, AdaptiveTargetBet(currentTarget));
    }

    method DecideHybridML(roundHistory: seq<Round>) returns (d: BetDecision)
      requires config.HybridML? && initialBankroll != 0.0
      ensures StrategyLogic.DecideHybridML(config, State(), roundHistory) == Decided(State(), d)
    {
      if LossPercentNow() >= config.stopLossPercent {
        return NoBet(StopLossTriggered);
      }
      if |roundHistory| == 0 {
        return NoBet(NoHistory);
      }
      var lastRoundId := roundHistory[|roundHistory| - 1].id;
      var preds: map<string, real> := if lastRoundId in config.predictions
                                      then config.predictions[lastRoundId] else map[];
      if |preds| == 0 {
        return NoBet(NoPrediction);
      }
      if Prob(preds, "prob_early_crash") > config.earlyCrashMaxProb {
        return NoBet(HighEarlyCrash);
      }
      var prob2x := Prob(preds, "prob_gt_2x");
      if prob2x < config.minConfidence {
        return NoBet(LowConfidence(prob2x));
      }
      var betAmount := PercentOf(bankroll, config.betPercent);
      if betAmount > bankroll {
        return NoBet(InsufficientBankroll);
      }
      var target := TargetFromPredictions(config, preds);
      return Bet(betAmount, target, MLSuggests(target, prob2x));
    }

    method DecideSafetyFirst() returns (d: BetDecision)
      requires config.SafetyFirst? && initialBankroll != 0.0
      ensures StrategyLogic.DecideSafetyFirst(config, State()) == Decided(State(), d)
    {
      if LossPercentNow() >= config.stopLossPercent {
        return NoBet(StopLossTriggered);
      }
      if ProfitPercentNow() >= config.takeProfitPercent {
        return NoBet(TakeProfitTriggered);
      }
      var totalBet := PercentOf(bankroll, config.totalBetPercent);
      if totalBet > bankroll {
        return NoBet(InsufficientBankroll);
      }
      return Bet(totalBet, config.profitTarget, SafetyFirstBet);
    }

    method DecideSkipLow(roundHistory: seq<Round>) returns (d: BetDecision)
      requires config.SkipLow? && initialBankroll != 0.0
      modifies this
      ensures StrategyLogic.DecideSkipLow(config, old(State()), roundHistory) == Decided(State(), d)
    {
      if LossPercentNow() >= config.stopLossPercent {
        return NoBet(StopLossTriggered);
      }
      if roundsToSkip > 0 {
        roundsToSkip := roundsToSkip - 1;
        return NoBet(Skipping(roundsToSkip));
      }
      if |roundHistory| > 0 && roundHistory[|roundHistory| - 1].multiplier < config.skipAfterBelow {
        roundsToSkip := config.skipRounds;
        return NoBet(LowMultiplierDetected);
      }
      var betAmount := PercentOf(bankroll, config.betPercent);
      if betAmount > bankroll {
        return NoBet(InsufficientBankroll);
      }
      return Bet(betAmount, config.target, NormalBetAfterClear);
    }

    method DecideDualBet() returns (d: BetDecision)
      requires config.DualBet? && initialBankroll != 0.0
      ensures StrategyLogic.DecideDualBet(config, State()) == Decided(State(), d)
    {
      if LossPercentNow() >= config.stopLossPercent {
        return NoBet(StopLossTriggered);
      }
      var totalBet := currentSafetyBet + currentProfitBet;
      if totalBet > bankroll {
        if MinBet * 2.0 <= bankroll {
          totalBet := MinBet * 2.0;
        } else {
          return NoBet(InsufficientBankroll);
        }
      }
      return Bet(totalBet, config.profitTarget, DualBetPlaced);
    }

    method DecideWaitForPattern(roundHistory: seq<Round>) returns (d: BetDecision)
      requires config.WaitForPattern? && initialBankroll != 0.0
      ensures StrategyLogic.DecideWaitForPattern(config, State(), roundHistory) == Decided(State(), d)
    {
      if LossPercentNow() >= config.stopLossPercent {
        return NoBet(StopLossTriggered);
      }
      if |roundHistory| < config.waitForStreak {
        return NoBet(NotEnoughHistory);
      }
      var streak := CountStreak(roundHistory);
      if streak >= config.waitForStreak {
        var bet := currentBet;
        if config.doubleAfterPattern && streak >= config.waitForStreak {
          bet := MinR(currentBet * 2.0, bankroll * 0.2);
        }
        if bet > bankroll {
          bet := MinR(config.betAmount, bankroll);
        }
        if bet < MinBet {
          return NoBet(BetBelowMinimum);
        }
        return Bet(bet, config.target, PatternDetected(streak, config.streakThreshold));
      }
      return NoBet(WaitingForPattern(streak, config.waitForStreak));
    }

    method DecideConservativeProgressive() returns (d: BetDecision)
      requires config.ConservativeProgressive? && initialBankroll != 0.0
      modifies this
      ensures StrategyLogic.DecideConservativeProgressive(config, old(State())) == Decided(State(), d)
    {
      if LossPercentNow() >= config.stopLossPercent {
        return NoBet(StopLossTriggered);
      }
      if currentBet > bankroll {
        currentBet := MinR(config.baseBet, bankroll);
      }
      if currentBet < MinBet {
        return NoBet(InsufficientBankroll);
      }
      return Bet(currentBet, config.target, ProgressiveBet);
    }

    method DecideSkipAfterLoss() returns (d: BetDecision)
      requires config.SkipAfterLoss? && initialBankroll != 0.0
      modifies this
      ensures StrategyLogic.DecideSkipAfterLoss(config, old(State())) == Decided(State(), d)
    {
      if LossPercentNow() >= config.stopLossPercent {
        return NoBet(StopLossTriggered);
      }
      if roundsToSkip > 0 {
        roundsToSkip := roundsToSkip - 1;
        return NoBet(Skipping(roundsToSkip));
      }
      var bet := MinR(config.betAmount, bankroll);
      if bet < MinBet {
        return NoBet(InsufficientBankroll);
      }
      return Bet(bet, config.target, NormalBet);
    }

    method DecideSimpleBetEveryRound() returns (d: BetDecision)
      requires config.SimpleBetEveryRound? && initialBankroll != 0.0
      ensures StrategyLogic.DecideSimpleBetEveryRound(config, State()) == Decided(State(), d)
    {
      if LossPercentNow() >= config.stopLossPercent {
        return NoBet(StopLossTriggered);
      }
      var bet := MinR(config.betAmount, bankroll);
      if bet < MinBet {
        return NoBet(InsufficientBankroll);
      }
      return Bet(bet, config.target, SimpleBet);
    }

    /** `decide`, dispatched on the class the configuration names. */
    method Decide(roundHistory: seq<Round>) returns (d: BetDecision)
      requires DecideDefined(config, State(), roundHistory)
      modifies this
      ensures StrategyLogic.Decide(config, old(State()), roundHistory) == Decided(State(), d)
    {
      match config
      case FixedTarget(_, _, _, _, _, _) => d := DecideFixedTarget();
      case Martingale(_, _, _, _, _) => d := DecideMartingale();
      case AntiMartingale(_, _, _, _, _, _) => d := DecideAntiMartingale();
      case PatternBased(_, _, _, _, _, _, _) => d := DecidePatternBased(roundHistory);
      case AdaptiveTarget(_, _, _, _, _, _) => d := DecideAdaptiveTarget();
      case HybridML(_, _, _, _, _, _, _) => d := DecideHybridML(roundHistory);
      case SafetyFirst(_, _, _, _, _, _) => d := DecideSafetyFirst();
      case SkipLow(_, _, _, _, _) => d := DecideSkipLow(roundHistory);
      case DualBet(_, _, _, _, _, _, _) => d := DecideDualBet();
      case WaitForPattern(_, _, _, _, _, _) => d := DecideWaitForPattern(roundHistory);
      case ConservativeProgressive(_, _, _, _, _, _) => d := DecideConservativeProgressive();
      case SkipAfterLoss(_, _, _, _) => d := DecideSkipAfterLoss();
      case SimpleBetEveryRound(_, _, _) => d := DecideSimpleBetEveryRound();
    }

    // -------------------------------------------------------------------
    // on_round_result

    /** The base class's `on_round_result`. */
    method Settle(decision: BetDecision, roundData: Round, won: bool, profit: real)
      modifies this
      ensures State() == StrategyLogic.Settle(old(State()), decision, roundData, won, profit)
    {
      if decision.shouldBet {
        totalBets := totalBets + 1;
        bankroll := bankroll + profit;
        if won {
          totalWins := totalWins + 1;
          consecutiveWins := consecutiveWins + 1;
          consecutiveLosses := 0;
        } else {
          consecutiveLosses := consecutiveLosses + 1;
          consecutiveWins := 0;
        }
        history := history + [TradeRecord(roundData.id, roundData.multiplier, decision.betAmount,
                                          decision.cashoutTarget, won, profit, bankroll)];
      }
    }

    /** DualBet's re-sizing of both legs, done before the base bookkeeping. */
    method ResizeDualLegs()
      requires config.DualBet?
      modifies this
      ensures State() == StrategyLogic.ResizeDualLegs(config, old(State()))
    {
      if config.increaseAfterWins > 0 && consecutiveWins >= config.increaseAfterWins {
        currentSafetyBet := MinR(config.safetyBet * config.increaseMultiplier, bankroll * 0.1);
        currentProfitBet := MinR(config.profitBet * config.increaseMultiplier, bankroll * 0.1);
      } else {
        currentSafetyBet := config.safetyBet;
        currentProfitBet := config.profitBet;
      }
    }

    /** What each class's override does after calling the base bookkeeping for a placed bet. */
    method AfterSettle(won: bool)
      modifies this
      ensures State() == StrategyLogic.AfterSettle(config, old(State()), won)
    {
      match config
      case Martingale(_, _, _, _, _) =>
        if won {
          currentBet := config.baseBet;
        } else {
          currentBet := currentBet * config.multiplier;
        }
      case AntiMartingale(_, _, _, _, _, _) =>
        if won {
          currentBet := currentBet * config.multiplier;
        } else {
          currentBet := config.baseBet;
        }
      case AdaptiveTarget(_, _, _, _, _, _) =>
        if won {
          if consecutiveWins >= config.resetAfterWins {
            currentTarget := config.startTarget;
          }
        } else {
          currentTarget := MaxR(config.minTarget, currentTarget - config.targetDecrement);
        }
      case ConservativeProgressive(_, _, _, _, _, _) =>
        if won {
          currentBet := MinR(currentBet * config.progressionFactor,
                             config.baseBet * config.maxBetMultiplier);
        } else {
          if config.resetAfterLoss {
            currentBet := config.baseBet;
          }
        }
      case SkipAfterLoss(_, _, _, _) =>
        if !won {
          roundsToSkip := config.skipRounds;
        }
      case FixedTarget(_, _, _, _, _, _) =>
      case PatternBased(_, _, _, _, _, _, _) =>
      case HybridML(_, _, _, _, _, _, _) =>
      case SafetyFirst(_, _, _, _, _, _) =>
      case SkipLow(_, _, _, _, _) =>
      case DualBet(_, _, _, _, _, _, _) =>
      case WaitForPattern(_, _, _, _, _, _) =>
      case SimpleBetEveryRound(_, _, _) =>
    }

    /** `on_round_result` of whichever class the configuration names. */
    method OnRoundResult(decision: BetDecision, roundData: Round, won: bool, profit: real)
      modifies this
      ensures State() == StrategyLogic.OnRoundResult(config, old(State()), decision, roundData, won, profit)
    {
      if config.DualBet? {
        ResizeDualLegs();
        Settle(decision, roundData, won, profit);
      } else {
        Settle(decision, roundData, won, profit);
        if decision.shouldBet {
          AfterSettle(won);
        }
      }
    }
  }
}
