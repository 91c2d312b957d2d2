/**
 * Feature extraction and label generation: counting events in a trailing
 * window, the distance to the last event, the early-crash rate, lag
 * features, the binary labels and the guard that keeps a round's features
 * to the rounds before it.
 */
module Features {
  import opened Common

  /** A round crashing at or below this multiplier is an early crash. */
  const EarlyCrashThreshold: real := 1.20
  /** The high-loss-streak label's look-back window and factor over the historical rate. */
  const HighLossStreakWindow: nat := 20
  const HighLossStreakThresholdFactor: real := 1.3
  /** Rounds of history needed before features are extracted. */
  const MinimumHistory: nat := 10

  /** `xs if len(xs) < window else xs[-window:]`; a zero window keeps everything (`xs[-0:]`). */
  function TailWindow<T>(xs: seq<T>, window: int): (r: seq<T>)
    ensures |r| <= |xs| && r == xs[|xs| - |r|..]
    ensures 0 < window ==> |r| == MinI(window, |xs|)
    ensures window == 0 ==> r == xs
  {
    if |xs| < window then xs else PySlice(xs, -window, |xs|)
  }

  function CountAbove(xs: seq<real>, threshold: real): (n: nat)
    ensures n <= |xs|
  {
    if |xs| == 0 then 0
    else CountAbove(xs[..|xs| - 1], threshold) + (if xs[|xs| - 1] > threshold then 1 else 0)
  }

  function CountAtMost(xs: seq<real>, threshold: real): (n: nat)
    ensures n <= |xs|
  {
    if |xs| == 0 then 0
    else CountAtMost(xs[..|xs| - 1], threshold) + (if xs[|xs| - 1] <= threshold then 1 else 0)
  }

  function CountBelow(xs: seq<real>, threshold: real): (n: nat)
    ensures n <= |xs|
  {
    if |xs| == 0 then 0
    else CountBelow(xs[..|xs| - 1], threshold) + (if xs[|xs| - 1] < threshold then 1 else 0)
  }

  /** Every value is either above the threshold or at most it. */
  lemma {:induction false} CountComplement(xs: seq<real>, threshold: real)
    ensures CountAbove(xs, threshold) + CountAtMost(xs, threshold) == |xs|
  {
    if |xs| > 0 {
      CountComplement(xs[..|xs| - 1], threshold);
    }
  }

  /**
   * `count_events_above_threshold`: the values above the threshold among
   * the last `window` ones, so never more than the window.
   */
  function CountEventsAboveThreshold(xs: seq<real>, threshold: real, window: int): (r: nat)
    ensures r <= |xs|
    ensures 0 < window ==> r <= window
    ensures window == 0 ==> r == CountAbove(xs, threshold)
  {
    CountAbove(TailWindow(xs, window), threshold)
  }

  /** The value `i` places before the last one. */
  function Back(xs: seq<real>, i: nat): real
    requires i < |xs|
  {
    xs[|xs| - 1 - i]
  }

  /**
   * `rounds_since_event`: the distance from the end to the most recent value
   * above the threshold within the look-back, or the look-back itself when
   * there is none.
   */
  method RoundsSinceEvent(xs: seq<real>, threshold: real, maxLookback: int) returns (r: int)
    ensures r <= MinI(|xs|, maxLookback)
    ensures r == MinI(|xs|, maxLookback) || (0 <= r && Back(xs, r) > threshold)
    ensures forall i :: 0 <= i < r ==> Back(xs, i) <= threshold
  {
    var lookback := MinI(|xs|, maxLookback);
    var i := 0;
    while i < lookback
      invariant 0 <= i <= (if 0 <= lookback then lookback else 0)
      invariant forall j :: 0 <= j < i ==> Back(xs, j) <= threshold
    {
      if xs[|xs| - 1 - i] > threshold {
        return i;
      }
      i := i + 1;
    }
    return lookback;
  }

  /** `compute_early_crash_rate`: the share of early crashes in the trailing window, 0 when it is empty. */
  function EarlyCrashRate(xs: seq<real>, window: int): (r: real)
    ensures 0.0 <= r <= 1.0
    ensures |TailWindow(xs, window)| == 0 ==> r == 0.0
  {
    var data := TailWindow(xs, window);
    if |data| == 0 then 0.0
    else
      ShareWithin(CountAtMost(data, EarlyCrashThreshold) as real, |data| as real);
      CountAtMost(data, EarlyCrashThreshold) as real / |data| as real
  }

  /** The early-crash rate is the complement of the share of events above the early-crash threshold. */
  lemma EarlyCrashRateComplement(xs: seq<real>, window: int)
    requires |TailWindow(xs, window)| > 0
    ensures EarlyCrashRate(xs, window) ==
            1.0 - CountEventsAboveThreshold(xs, EarlyCrashThreshold, window) as real / |TailWindow(xs, window)| as real
  {
    var data := TailWindow(xs, window);
    CountComplement(data, EarlyCrashThreshold);
    var n := |data| as real;
    var above := CountAbove(data, EarlyCrashThreshold) as real;
    var atMost := CountAtMost(data, EarlyCrashThreshold) as real;
    assert EarlyCrashRate(xs, window) == atMost / n;
    ShareComplement(n, above, atMost);
  }

  lemma ShareComplement(n: real, part: real, rest: real)
    requires n > 0.0 && part + rest == n
    ensures rest / n == 1.0 - part / n
  {
    assert (part + rest) / n == part / n + rest / n;
    assert n / n == 1.0;
  }

  /** Lag `i` (1-based) of a history: `xs[len(xs) - i]`, padded with 0.0 past the start. */
  function Lag(xs: seq<real>, i: nat): real
  {
    if |xs| - i >= 0 && i > 0 then xs[|xs| - i] else 0.0
  }

  /** `compute_sequence_features`: exactly `length` lags, lag `i` at position `i - 1`. */
  method SequenceFeatures(xs: seq<real>, length: int) returns (lags: seq<real>)
    ensures |lags| == if length > 0 then length else 0
    ensures forall i :: 1 <= i <= |lags| ==> lags[i - 1] == Lag(xs, i)
  {
    lags := [];
    var i := 1;
    while i <= length
      invariant 1 <= i <= (if length >= 0 then length + 1 else 1)
      invariant |lags| == i - 1
      invariant forall k :: 1 <= k < i ==> lags[k - 1] == Lag(xs, k)
    {
      var idx := |xs| - i;
      if idx >= 0 {
        lags := lags + [xs[idx]];
      } else {
        lags := lags + [0.0];
      }
      i := i + 1;
    }
  }

  /** One round later, every lag moves one place down and the newest round is lag 1. */
  lemma LagShift(xs: seq<real>, x: real, i: nat)
    requires i > 0
    ensures Lag(xs + [x], 1) == x
    ensures Lag(xs + [x], i + 1) == Lag(xs, i)
  {
  }

  /** `generate_threshold_labels`: 1 exactly for the rounds above the threshold. */
  function ThresholdLabels(ms: seq<real>, threshold: real): (r: seq<int>)
    ensures |r| == |ms|
    ensures forall i :: 0 <= i < |ms| ==> (r[i] == 0 || r[i] == 1) && (r[i] == 1 <==> ms[i] > threshold)
  {
    seq(|ms|, i requires 0 <= i < |ms| => if ms[i] > threshold then 1 else 0)
  }

  /** `generate_early_crash_labels`: 1 exactly for the rounds at or below the threshold. */
  function EarlyCrashLabels(ms: seq<real>, threshold: real): (r: seq<int>)
    ensures |r| == |ms|
    ensures forall i :: 0 <= i < |ms| ==> (r[i] == 0 || r[i] == 1) && (r[i] == 1 <==> ms[i] <= threshold)
  {
    seq(|ms|, i requires 0 <= i < |ms| => if ms[i] <= threshold then 1 else 0)
  }

  /** At the same threshold the two labels are complementary. */
  lemma LabelsComplement(ms: seq<real>, threshold: real)
    ensures forall i :: 0 <= i < |ms| ==> ThresholdLabels(ms, threshold)[i] + EarlyCrashLabels(ms, threshold)[i] == 1
  {
  }

  /** The positive threshold labels are as many as the rounds above the threshold. */
  lemma {:induction false} ThresholdLabelsCount(ms: seq<real>, threshold: real)
    ensures SumI(ThresholdLabels(ms, threshold)) == CountAbove(ms, threshold)
  {
    if |ms| > 0 {
      var init := ms[..|ms| - 1];
      ThresholdLabelsCount(init, threshold);
      assert ThresholdLabels(ms, threshold)[..|ms| - 1] == ThresholdLabels(init, threshold);
    }
  }

  /** `historical_avg * threshold_factor`: the share of rounds below 2x over all rounds, scaled. */
  function StreakThreshold(ms: seq<real>, factor: real): real
  {
    if |ms| == 0 then 0.0 else CountBelow(ms, 2.0) as real / |ms| as real * factor
  }

  /**
   * The high-loss-streak label of round `i`: 0 before a full window exists;
   * otherwise 1 when the share of rounds below 2x among the `window` rounds
   * before `i` exceeds the threshold. An empty window's mean is NaN, which
   * exceeds nothing.
   */
  function StreakLabel(ms: seq<real>, window: nat, threshold: real, i: nat): (r: int)
    requires i < |ms|
    ensures r == 0 || r == 1
    ensures i < window ==> r == 0
  {
    if i < window || window == 0 then 0
    else if CountBelow(ms[i - window..i], 2.0) as real / window as real > threshold then 1
    else 0
  }

  function StreakLabels(ms: seq<real>, window: nat, factor: real): (r: seq<int>)
    ensures |r| == |ms|
  {
    var threshold := StreakThreshold(ms, factor);
    seq(|ms|, i requires 0 <= i < |ms| => StreakLabel(ms, window, threshold, i))
  }

  /**
   * Beyond the overall threshold, the label of round `i` depends only on
   * the `window` rounds just before it: never on round `i` or a later one.
   */
  lemma StreakLabelLocal(ms: seq<real>, ms': seq<real>, window: nat, threshold: real, i: nat)
    requires window <= i < |ms| && i < |ms'|
    requires ms[i - window..i] == ms'[i - window..i]
    ensures StreakLabel(ms, window, threshold, i) == StreakLabel(ms', window, threshold, i)
  {
  }

  /** `generate_high_loss_streak_labels`, writing into a fresh zeroed array. */
  method HighLossStreakLabels(ms: seq<real>, window: nat, factor: real) returns (labels: array<int>)
    ensures fresh(labels)
    ensures labels[..] == StreakLabels(ms, window, factor)
  {
    var threshold := StreakThreshold(ms, factor);
    labels := new int[|ms|](i => 0);
    var i := window;
    while i < |ms|
      invariant window <= i && labels.Length == |ms|
      invariant forall j :: 0 <= j < |ms| ==> labels[j] == if j < i then StreakLabel(ms, window, threshold, j) else 0
    {
      var below := CountBelow(ms[i - window..i], 2.0);
      if window > 0 && below as real / window as real > threshold {
        labels[i] := 1;
      }
      i := i + 1;
    }
  }

  /**
   * What the guard of `extract_features_for_round` lets through: no features
   * (it returns None), the IndexError of reading the current row past the
   * end of the frame, or the history the features are computed from.
   */
  datatype FeatureGuard<T> = NoFeatures | RaisesIndexError | History(past: seq<T>)

  /**
   * The guard of `extract_features_for_round`: None when `roundIdx < 1` or
   * fewer than 10 rows precede it; otherwise the rows strictly before
   * `roundIdx`, unless the current row `roundIdx` lies past the end.
   */
  function FeatureHistory<T>(roundIdx: int, rows: seq<T>): (r: FeatureGuard<T>)
    ensures r.History? <==> MinimumHistory <= roundIdx < |rows|
    ensures r.History? ==> r.past == rows[..roundIdx]
    ensures r.RaisesIndexError? <==> MinimumHistory <= |rows| <= roundIdx
  {
    if roundIdx < 1 then NoFeatures
    else
      var history := PySlice(rows, 0, roundIdx);
      if |history| < MinimumHistory as int then NoFeatures
      else if PyIndex(|rows|, roundIdx).None? then RaisesIndexError
      else History(history)
  }

  /** No leakage: rows after `roundIdx` never change the history a round's features come from. */
  lemma FeatureHistoryIgnoresFuture<T>(roundIdx: nat, rows: seq<T>, rows': seq<T>)
    requires roundIdx < |rows| && roundIdx < |rows'|
    requires rows[..roundIdx] == rows'[..roundIdx]
    ensures FeatureHistory(roundIdx, rows) == FeatureHistory(roundIdx, rows')
  {
  }
}
