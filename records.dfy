/**
 * The records the backtester passes around: one crash-game round, one betting
 * decision, and one entry of a strategy's trade log.
 */
module Records {

  /** One historical round of the crash game (RoundData). */
  datatype Round = Round(
    id: int,
    multiplier: real,
    betCount: int,
    totalBet: real,
    totalWin: real,
    createdAt: string)

  /**
   * Why a strategy bet or refused. The source keeps a free-text reason; the
   * values it interpolates into that text are kept as arguments here.
   */
  datatype Reason =
    | StopLossTriggered
    | TakeProfitTriggered
    | InsufficientBankroll
    | NotEnoughHistory
    | FixedTargetBet
    | MartingaleBet
    | AntiMartingaleBet
    | WaitingAfterHigh(left: int)
    | JustHadHigh
    | StreakDetected(streak: nat)
    | StreakTooShort(streak: nat, need: int)
    | AdaptiveTargetBet(target: real)
    | NoHistory
    | NoPrediction
    | HighEarlyCrash
    | LowConfidence(confidence: real)
    | MLSuggests(target: real, confidence: real)
    | SafetyFirstBet
    | Skipping(left: int)
    | LowMultiplierDetected
    | NormalBetAfterClear
    | DualBetPlaced
    | BetBelowMinimum
    | PatternDetected(streak: nat, threshold: real)
    | WaitingForPattern(streak: nat, need: int)
    | ProgressiveBet
    | NormalBet
    | SimpleBet

  /** A decision for one round (BetDecision). */
  datatype BetDecision = BetDecision(shouldBet: bool, betAmount: real, cashoutTarget: real, reason: Reason)

  /** A refusal carries the dataclass defaults: no stake, target 2.0. */
  function NoBet(reason: Reason): (d: BetDecision)
    ensures !d.shouldBet && d.betAmount == 0.0 && d.reason == reason
  {
    BetDecision(false, 0.0, 2.0, reason)
  }

  function Bet(amount: real, target: real, reason: Reason): (d: BetDecision)
    ensures d.shouldBet && d.betAmount == amount && d.cashoutTarget == target && d.reason == reason
  {
    BetDecision(true, amount, target, reason)
  }

  /** One entry of a strategy's trade log, appended for every placed bet. */
  datatype TradeRecord = TradeRecord(
    roundId: int,
    multiplier: real,
    betAmount: real,
    target: real,
    won: bool,
    profit: real,
    bankroll: real)

  function Profits(log: seq<TradeRecord>): (r: seq<real>)
    ensures |r| == |log| && forall i :: 0 <= i < |log| ==> r[i] == log[i].profit
  {
    seq(|log|, i requires 0 <= i < |log| => log[i].profit)
  }

  function Bankrolls(log: seq<TradeRecord>): (r: seq<real>)
    ensures |r| == |log| && forall i :: 0 <= i < |log| ==> r[i] == log[i].bankroll
  {
    seq(|log|, i requires 0 <= i < |log| => log[i].bankroll)
  }

  function Outcomes(log: seq<TradeRecord>): (r: seq<bool>)
    ensures |r| == |log| && forall i :: 0 <= i < |log| ==> r[i] == log[i].won
  {
    seq(|log|, i requires 0 <= i < |log| => log[i].won)
  }

  /** Number of won entries of the log (Python's `sum(wins)`). */
  function CountWon(log: seq<TradeRecord>): (n: nat)
    ensures n <= |log|
  {
    if |log| == 0 then 0
    else CountWon(log[..|log| - 1]) + (if log[|log| - 1].won then 1 else 0)
  }

  /** Sum of the profits of the log. */
  function SumProfit(log: seq<TradeRecord>): real
  {
    if |log| == 0 then 0.0 else SumProfit(log[..|log| - 1]) + log[|log| - 1].profit
  }

  /** Sum of the stakes of the log. */
  function SumStake(log: seq<TradeRecord>): real
  {
    if |log| == 0 then 0.0 else SumStake(log[..|log| - 1]) + log[|log| - 1].betAmount
  }
}
