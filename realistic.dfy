/**
 * The realistic session drivers: a single session of a fixed number of
 * rounds after a 100-round warm-up history, and a series of sessions over
 * different windows of the data, each with a fresh strategy. Both resolve a
 * bet as a dual bet when the strategy has a `simulate_round` method, and
 * both stop a session once the bankroll is gone.
 */
module Realistic {
  import opened Common
  import opened Records
  import opened StrategyLogic
  import opened StrategyObject
  import opened Metrics
  import opened Engine
  import StrategyFacts

  /** The bankroll every realistic session starts with. */
  const SessionBankroll: real := 100.0
  /** Rounds of history a session sees before its first decision. */
  const WarmupHistory: nat := 100
  const RoundsPerHour: nat := 170
  const HoursToSimulate: nat := 10
  /** About ten hours of play. */
  const RoundsPerSession: nat := RoundsPerHour * HoursToSimulate

  // ---------------------------------------------------------------------
  // run_realistic_backtest

  /** The rounds a session of `n` rounds reads: `rounds[:n + 100]`. */
  function SessionWindow(all: seq<Round>, n: int): seq<Round>
  {
    PySlice(all, 0, n + WarmupHistory)
  }

  /** The rounds it plays: `rounds[100:n + 100]` of that window. */
  function PlayedRounds(all: seq<Round>, n: int): seq<Round>
  {
    PySlice(SessionWindow(all, n), WarmupHistory, n + WarmupHistory)
  }

  /**
   * The played rounds are the window's rounds from index 100 on, so round
   * `i` of them is decided on the 100 + i rounds before it. For a count
   * with `n + 100 >= 0` there are at most `n` of them (a more negative count
   * slices from the end of the data).
   */
  lemma PlayedRoundsFollowWarmup(all: seq<Round>, n: int)
    ensures var window := SessionWindow(all, n);
            var played := PlayedRounds(all, n);
            (n + WarmupHistory >= 0 ==> |played| <= (if n > 0 then n else 0)) &&
            (|played| > 0 ==> WarmupHistory + |played| <= |window| &&
                              played == window[WarmupHistory..WarmupHistory + |played|])
  {
    PySliceFrom(SessionWindow(all, n), WarmupHistory, n + WarmupHistory);
  }

  /** The play of a realistic session: dual-bet resolution by `hasattr`, ruin checked after every round. */
  function RealisticRun(c: StrategyConfig, all: seq<Round>, n: int): Option<RunState>
  {
    var window := SessionWindow(all, n);
    var played := PlayedRounds(all, n);
    PlayedRoundsFollowWarmup(all, n);
    Run(Playing(c, HasSimulateRound, AfterEveryRound), InitialState(c, SessionBankroll), window,
        WarmupHistory, |played|)
  }

  /** `run_realistic_backtest`'s report: the metrics of the session's log over the `n` rounds asked for. */
  function RealisticBacktest(c: StrategyConfig, all: seq<Round>, n: int, risk: RiskModel): Option<PerformanceMetrics>
  {
    match RealisticRun(c, all, n)
    case None => None
    case Some(o) => Some(MetricsOf(o.state.history, SessionBankroll, n, risk))
  }

  /** `run_realistic_backtest`. */
  method RunRealisticBacktest(strategy: Strategy, all: seq<Round>, n: int, risk: RiskModel)
    returns (r: Option<PerformanceMetrics>)
    modifies strategy
    ensures r == RealisticBacktest(strategy.config, all, n, risk)
    ensures r.Some? ==> strategy.State() == RealisticRun(strategy.config, all, n).value.state
  {
    hide Playing, InitialState, MetricsOf;
    ResetWith(strategy, SessionBankroll);
    var rounds := SessionWindow(all, n);
    var played := PlayedRounds(all, n);
    PlayedRoundsFollowWarmup(all, n);
    var raised, stopped := RunRounds(strategy, HasSimulateRound, AfterEveryRound, rounds, WarmupHistory, |played|);
    if raised {
      return None;
    }
    var m := CalculateMetrics(strategy.history, SessionBankroll, n, risk);
    return Some(m);
  }

  /**
   * A realistic session logs at most one trade per played round, so never
   * more than the `n` rounds asked for; its report counts exactly the logged
   * bets and wins, and its profit is the sum of the logged profits.
   */
  lemma RealisticAccounts(c: StrategyConfig, all: seq<Round>, n: int, risk: RiskModel)
    requires RealisticBacktest(c, all, n, risk).Some?
    ensures var m := RealisticBacktest(c, all, n, risk).value;
            var log := RealisticRun(c, all, n).value.state.history;
            m.roundsBet == |log| <= |PlayedRounds(all, n)| &&
            m.totalRounds == n &&
            m.totalProfit == SumProfit(log) &&
            m.roundsWon == CountWon(log)
  {
    hide Playing, MetricsOf;
    var window := SessionWindow(all, n);
    var played := PlayedRounds(all, n);
    PlayedRoundsFollowWarmup(all, n);
    var st0 := InitialState(c, SessionBankroll);
    var play := Playing(c, HasSimulateRound, AfterEveryRound);
    StrategyFacts.InitialLedger(c, SessionBankroll);
    var o := RealisticRun(c, all, n).value;
    MetricsCounts(o.state.history, SessionBankroll, n, risk);
    MetricsMoney(o.state.history, SessionBankroll, n, risk);
    PlayingAppendsAtMostOne(c, HasSimulateRound, AfterEveryRound);
    RunLogGrows(play, st0, window, WarmupHistory, |played|);
    PlayingKeepsLedger(c, HasSimulateRound, AfterEveryRound, SessionBankroll);
    RunPreserves(play, LedgerFrom(SessionBankroll), st0, window, WarmupHistory, |played|);
  }

  // ---------------------------------------------------------------------
  // run_multiple_sessions

  /** One line of `run_multiple_sessions`' result. */
  datatype SessionResult = SessionResult(
    session: int,
    finalBankroll: real,
    profit: real,
    betsMade: nat,
    wins: nat,
    winRate: real)

  /**
   * Where session `s` starts: `(s * 1700) % (len(rounds) - 1800)`, or 0 when
   * that is negative. None when the divisor is 0 (the modulo raises).
   * Python's `%` takes the sign of its divisor, so a negative divisor always
   * gives a start of 0.
   */
  function SessionStart(s: nat, total: nat): (r: Option<nat>)
    ensures r.None? <==> total == RoundsPerSession + WarmupHistory
    ensures r.Some? && total > RoundsPerSession + WarmupHistory ==>
              r.value + RoundsPerSession + WarmupHistory < total
    ensures r.Some? && total < RoundsPerSession + WarmupHistory ==> r.value == 0
  {
    var divisor := total - RoundsPerSession - WarmupHistory;
    if divisor == 0 then None
    else if divisor > 0 then Some((s * RoundsPerSession) % divisor)
    else Some(0)
  }

  /** The rounds session `s` reads: `rounds[start:start + 1800]`. */
  function SessionRounds(all: seq<Round>, start: nat): seq<Round>
  {
    PySlice(all, start, start + RoundsPerSession + WarmupHistory)
  }

  /**
   * How many rounds a session plays: every round after the warm-up, up to
   * `session_size`. The window is never longer than 1800 rounds, so the
   * `session_size` cut-off never takes effect.
   */
  function SessionLength(sessionRounds: seq<Round>): nat
  {
    if |sessionRounds| <= WarmupHistory then 0
    else MinI(|sessionRounds| - WarmupHistory, RoundsPerSession)
  }

  /** The play of one session on its window, with a fresh strategy. */
  function SessionRun(c: StrategyConfig, sessionRounds: seq<Round>): Option<RunState>
  {
    Run(Playing(c, HasSimulateRound, AfterEveryRound), InitialState(c, SessionBankroll), sessionRounds,
        WarmupHistory, SessionLength(sessionRounds))
  }

  /** The line recorded for session number `s` (counted from 0) that ended in state `st`. */
  function SessionLine(s: nat, st: StrategyState): SessionResult
  {
    SessionResult(s + 1, st.bankroll, st.bankroll - SessionBankroll, st.totalBets, st.totalWins,
                  st.totalWins as real / (if st.totalBets > 1 then st.totalBets else 1) as real)
  }

  /** The lines of the first `k` sessions; None when a session start or a `decide` raises. */
  function Sessions(c: StrategyConfig, all: seq<Round>, k: nat): Option<seq<SessionResult>>
  {
    if k == 0 then Some([])
    else match Sessions(c, all, k - 1)
      case None => None
      case Some(lines) =>
        match SessionStart(k - 1, |all|)
        case None => None
        case Some(start) =>
          match SessionRun(c, SessionRounds(all, start))
          case None => None
          case Some(o) => Some(lines + [SessionLine(k - 1, o.state)])
  }

  /** `run_multiple_sessions`: no sessions for a non-positive count. */
  function MultipleSessions(c: StrategyConfig, all: seq<Round>, nSessions: int): Option<seq<SessionResult>>
  {
    if nSessions <= 0 then Some([]) else Sessions(c, all, nSessions)
  }

  /**
   * A session never plays more than `session_size` rounds, and with enough
   * data it plays exactly that many, on 1800 consecutive rounds.
   */
  lemma SessionBounds(all: seq<Round>, s: nat)
    requires SessionStart(s, |all|).Some?
    ensures var sessionRounds := SessionRounds(all, SessionStart(s, |all|).value);
            SessionLength(sessionRounds) <= RoundsPerSession &&
            (|all| > RoundsPerSession + WarmupHistory ==>
               |sessionRounds| == RoundsPerSession + WarmupHistory &&
               SessionLength(sessionRounds) == RoundsPerSession)
  {
  }

  /**
   * Each line's win rate is the share of won bets, in [0, 1], and its profit
   * is the final bankroll less the starting 100.
   */
  lemma SessionLineFacts(c: StrategyConfig, sessionRounds: seq<Round>, s: nat)
    requires SessionRun(c, sessionRounds).Some?
    ensures var line := SessionLine(s, SessionRun(c, sessionRounds).value.state);
            line.wins <= line.betsMade &&
            0.0 <= line.winRate <= 1.0 &&
            line.profit == line.finalBankroll - SessionBankroll
  {
    var st0 := InitialState(c, SessionBankroll);
    var play := Playing(c, HasSimulateRound, AfterEveryRound);
    StrategyFacts.InitialLedger(c, SessionBankroll);
    PlayingKeepsLedger(c, HasSimulateRound, AfterEveryRound, SessionBankroll);
    RunPreserves(play, LedgerFrom(SessionBankroll), st0, sessionRounds, WarmupHistory, SessionLength(sessionRounds));
    var st := SessionRun(c, sessionRounds).value.state;
    var bets := if st.totalBets > 1 then st.totalBets else 1;
    assert st.totalWins <= bets;
    ShareWithin(st.totalWins as real, bets as real);
  }

  /** One session of `run_multiple_sessions`, with a fresh strategy made from the same parameters. */
  method PlaySession(name: string, c: StrategyConfig, all: seq<Round>, s: nat) returns (r: Option<SessionResult>)
    ensures r == match SessionStart(s, |all|)
                 case None => None
                 case Some(start) =>
                   match SessionRun(c, SessionRounds(all, start))
                   case None => None
                   case Some(o) => Some(SessionLine(s, o.state))
  {
    hide Playing, InitialState;
    var total := |all|;
    var start := SessionStart(s, total);
    if start.None? {
      return None;
    }
    var sessionRounds := SessionRounds(all, start.value);
    var strategy := new Strategy(name, c, SessionBankroll);
    ResetWith(strategy, SessionBankroll);
    var raised, stopped := RunRounds(strategy, HasSimulateRound, AfterEveryRound, sessionRounds, WarmupHistory,
                                     SessionLength(sessionRounds));
    if raised {
      return None;
    }
    var betsDivisor := if strategy.totalBets > 1 then strategy.totalBets else 1;
    return Some(SessionResult(s + 1, strategy.bankroll, strategy.bankroll - SessionBankroll,
                              strategy.totalBets, strategy.totalWins,
                              strategy.totalWins as real / betsDivisor as real));
  }

  /** `run_multiple_sessions`. */
  method RunMultipleSessions(name: string, c: StrategyConfig, all: seq<Round>, nSessions: int)
    returns (r: Option<seq<SessionResult>>)
    ensures r == MultipleSessions(c, all, nSessions)
  {
    hide SessionRun, SessionStart, SessionLine;
    var results: seq<SessionResult> := [];
    var session := 0;
    while session < nSessions
      invariant 0 <= session <= (if nSessions > 0 then nSessions else 0)
      invariant Sessions(c, all, session) == Some(results)
    {
      var line := PlaySession(name, c, all, session);
      if line.None? {
        SessionsRaise(c, all, session + 1, nSessions);
        return None;
      }
      results := results + [line.value];
      session := session + 1;
    }
    if nSessions <= 0 {
      assert session == 0;
      return Some([]);
    }
    return Some(results);
  }

  /** Once a session raises, the whole series raises. */
  lemma {:induction false} SessionsRaise(c: StrategyConfig, all: seq<Round>, k: nat, m: nat)
    requires k <= m && Sessions(c, all, k).None?
    ensures Sessions(c, all, m).None?
    decreases m - k
  {
    if k < m {
      SessionsRaise(c, all, k + 1, m);
    }
  }
}
