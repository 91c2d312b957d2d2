/**
 * The bot's own betting history: bucketing the second leg's cash-out
 * target, per-bucket performance counts and the probability thresholds
 * derived from them.
 */
module BotHistory {
  import opened Common

  /** A cash-out target bucket, in increasing order of target. */
  datatype Bucket = X2 | X3 | X5 | X7 | X8 | X10 | X12 | X15 | X20Plus
  {
    function Name(): string
    {
      match this
      case X2 => "2x" case X3 => "3x" case X5 => "5x" case X7 => "7x" case X8 => "8x"
      case X10 => "10x" case X12 => "12x" case X15 => "15x" case X20Plus => "20x+"
    }

    /** The bucket's position in increasing order of target. */
    function Rank(): nat
    {
      match this
      case X2 => 0 case X3 => 1 case X5 => 2 case X7 => 3 case X8 => 4
      case X10 => 5 case X12 => 6 case X15 => 7 case X20Plus => 8
    }

    /** The starting probability threshold of the bucket. */
    function BaseThreshold(): real
    {
      match this
      case X2 => 0.55 case X3 => 0.45 case X5 => 0.38 case X7 => 0.33 case X8 => 0.31
      case X10 => 0.28 case X12 => 0.25 case X15 => 0.22 case X20Plus => 0.18
    }
  }

  const AllBuckets: seq<Bucket> := [X2, X3, X5, X7, X8, X10, X12, X15, X20Plus]

  /** The inclusive upper bounds of every bucket but the last. */
  const UpperBounds: seq<real> := [2.5, 3.5, 5.5, 7.5, 8.5, 10.5, 12.5, 15.5]

  lemma AllBucketsListed(b: Bucket)
    ensures b in AllBuckets && AllBuckets[b.Rank()] == b
  {
  }

  /** `_categorize_target`. */
  function CategorizeTarget(cashout: real): Bucket
  {
    if cashout <= 2.5 then X2
    else if cashout <= 3.5 then X3
    else if cashout <= 5.5 then X5
    else if cashout <= 7.5 then X7
    else if cashout <= 8.5 then X8
    else if cashout <= 10.5 then X10
    else if cashout <= 12.5 then X12
    else if cashout <= 15.5 then X15
    else X20Plus
  }

  /**
   * A cash-out lands in the bucket whose rank brackets it: above the
   * previous bucket's upper bound and at most its own.
   */
  lemma CategorizeByBounds(cashout: real)
    ensures var r := CategorizeTarget(cashout).Rank();
            (r < |UpperBounds| ==> cashout <= UpperBounds[r]) &&
            (0 < r ==> UpperBounds[r - 1] < cashout)
  {
  }

  /** A larger cash-out never lands in a lower bucket. */
  lemma CategorizeMonotone(a: real, b: real)
    requires a <= b
    ensures CategorizeTarget(a).Rank() <= CategorizeTarget(b).Rank()
  {
  }

  /** One row of the bot's bet history; a column the table lacks reads as None. */
  datatype BotBet = BotBet(cashout2: Option<real>, won1: Option<int>, won2: Option<int>, profit: Option<real>)

  /** The row's bucket: its second cash-out, 2 when the column is missing. */
  function TargetOf(bet: BotBet): Bucket
  {
    CategorizeTarget(if bet.cashout2.Some? then bet.cashout2.value else 2.0)
  }

  predicate Won1(bet: BotBet) { bet.won1 == Some(1) }
  predicate Won2(bet: BotBet) { bet.won2 == Some(1) }

  function ProfitOf(bet: BotBet): real
  {
    if bet.profit.Some? then bet.profit.value else 0.0
  }

  /** The counters of one bucket. */
  datatype Tally = Tally(count: nat, wins: nat, partialWins: nat, losses: nat, totalProfit: real)

  /**
   * A row adds to its bucket's count and profit, and to exactly one of
   * wins (both legs won), partial wins (only the first leg won) or losses.
   */
  function Add(t: Tally, bet: BotBet): Tally
  {
    var t' := t.(count := t.count + 1, totalProfit := t.totalProfit + ProfitOf(bet));
    if Won1(bet) && Won2(bet) then t'.(wins := t.wins + 1)
    else if Won1(bet) then t'.(partialWins := t.partialWins + 1)
    else t'.(losses := t.losses + 1)
  }

  /** The counters of bucket `b` over the rows. */
  function TallyOf(bets: seq<BotBet>, b: Bucket): Tally
  {
    if |bets| == 0 then Tally(0, 0, 0, 0, 0.0)
    else
      var prev := TallyOf(bets[..|bets| - 1], b);
      if TargetOf(bets[|bets| - 1]) == b then Add(prev, bets[|bets| - 1]) else prev
  }

  /**
   * Every row of a bucket is counted once as a win, a partial win or a
   * loss, and the bucket holds exactly its own rows.
   */
  lemma {:induction false} TallySplits(bets: seq<BotBet>, b: Bucket)
    ensures var t := TallyOf(bets, b);
            t.wins + t.partialWins + t.losses == t.count <= |bets|
  {
    if |bets| > 0 {
      TallySplits(bets[..|bets| - 1], b);
    }
  }

  /** A bucket with no rows has all counters at zero. */
  lemma {:induction false} TallyEmpty(bets: seq<BotBet>, b: Bucket)
    requires TallyOf(bets, b).count == 0
    ensures TallyOf(bets, b) == Tally(0, 0, 0, 0, 0.0)
  {
    if |bets| > 0 {
      TallyEmpty(bets[..|bets| - 1], b);
    }
  }

  /** The buckets' counts add up to the number of rows: each row is filed in exactly one bucket. */
  lemma {:induction false} TallyCountsCover(bets: seq<BotBet>)
    ensures TotalCount(bets, AllBuckets) == |bets|
  {
    if |bets| > 0 {
      TallyCountsCover(bets[..|bets| - 1]);
      BucketsDistinct();
      TotalCountStep(bets, AllBuckets);
      AllBucketsListed(TargetOf(bets[|bets| - 1]));
    } else {
      TotalCountEmpty(bets, AllBuckets);
    }
  }

  lemma {:induction false} TotalCountEmpty(bets: seq<BotBet>, buckets: seq<Bucket>)
    requires |bets| == 0
    ensures TotalCount(bets, buckets) == 0
  {
    if |buckets| > 0 {
      TotalCountEmpty(bets, buckets[..|buckets| - 1]);
    }
  }

  predicate Distinct(buckets: seq<Bucket>)
  {
    forall i, j :: 0 <= i < j < |buckets| ==> buckets[i] != buckets[j]
  }

  lemma BucketsDistinct()
    ensures Distinct(AllBuckets)
  {
    forall i | 0 <= i < |AllBuckets|
      ensures AllBuckets[i].Rank() == i
    {
    }
  }

  function TotalCount(bets: seq<BotBet>, buckets: seq<Bucket>): nat
  {
    if |buckets| == 0 then 0 else TotalCount(bets, buckets[..|buckets| - 1]) + TallyOf(bets, buckets[|buckets| - 1]).count
  }

  lemma {:induction false} TotalCountStep(bets: seq<BotBet>, buckets: seq<Bucket>)
    requires |bets| > 0 && Distinct(buckets)
    ensures TotalCount(bets, buckets) ==
            TotalCount(bets[..|bets| - 1], buckets) + (if TargetOf(bets[|bets| - 1]) in buckets then 1 else 0)
  {
    if |buckets| > 0 {
      var init := buckets[..|buckets| - 1];
      var last := buckets[|buckets| - 1];
      TotalCountStep(bets, init);
      assert buckets == init + [last];
      assert last !in init by {
        forall i | 0 <= i < |init| ensures init[i] != last {
          assert init[i] == buckets[i];
        }
      }
    }
  }

  /** The per-bucket report once the rates are filled in. */
  datatype TargetStats = TargetStats(count: nat, wins: nat, losses: nat, partialWins: nat, totalProfit: real,
                                     avgProfit: real, winRate: real, partialRate: real, successRate: real)

  function StatsOf(t: Tally): TargetStats
    requires t.count > 0
  {
    var n := t.count as real;
    TargetStats(t.count, t.wins, t.losses, t.partialWins, t.totalProfit, t.totalProfit / n,
                t.wins as real / n * 100.0, t.partialWins as real / n * 100.0,
                (t.wins + t.partialWins) as real / n * 100.0)
  }

  lemma RatesAdd(wins: nat, partialWins: nat, count: nat)
    requires 0 < count && wins + partialWins <= count
    ensures var n := count as real;
            0.0 <= (wins + partialWins) as real / n * 100.0 <= 100.0 &&
            (wins + partialWins) as real / n * 100.0 == wins as real / n * 100.0 + partialWins as real / n * 100.0
  {
    Percentage(wins + partialWins, count);
    var n := count as real;
    assert (wins as real + partialWins as real) / n == wins as real / n + partialWins as real / n;
  }

  /** The success rate is a percentage and is the win rate plus the partial-win rate. */
  lemma StatsRates(bets: seq<BotBet>, b: Bucket)
    requires TallyOf(bets, b).count > 0
    ensures var s := StatsOf(TallyOf(bets, b));
            s.wins + s.partialWins + s.losses == s.count &&
            0.0 <= s.successRate <= 100.0 && s.successRate == s.winRate + s.partialRate
  {
    var t := TallyOf(bets, b);
    TallySplits(bets, b);
    RatesAdd(t.wins, t.partialWins, t.count);
  }

  /**
   * `analyze_target_performance`: one entry per bucket that has a row,
   * holding that bucket's counters and rates; no rows gives no entries.
   */
  method AnalyzeTargetPerformance(bets: seq<BotBet>) returns (perf: map<Bucket, TargetStats>)
    ensures forall b :: b in perf <==> TallyOf(bets, b).count > 0
    ensures forall b :: b in perf ==> perf[b] == StatsOf(TallyOf(bets, b))
  {
    var tallies: map<Bucket, Tally> := map[];
    for i := 0 to |bets|
      invariant forall b :: b in tallies <==> TallyOf(bets[..i], b).count > 0
      invariant forall b :: b in tallies ==> tallies[b] == TallyOf(bets[..i], b)
    {
      assert bets[..i + 1][..i] == bets[..i];
      var b := TargetOf(bets[i]);
      if b !in tallies {
        TallyEmpty(bets[..i], b);
      }
      var previous := if b in tallies then tallies[b] else Tally(0, 0, 0, 0, 0.0);
      tallies := tallies[b := Add(previous, bets[i])];
    }
    assert bets[..|bets|] == bets;
    perf := map[];
    for k := 0 to |AllBuckets|
      invariant forall b :: b in perf <==> b in tallies && b.Rank() < k
      invariant forall b :: b in perf ==> perf[b] == StatsOf(tallies[b])
    {
      var b := AllBuckets[k];
      assert b.Rank() == k;
      if b in tallies {
        perf := perf[b := StatsOf(tallies[b])];
      }
    }
  }

  /** The step of the threshold for a success rate given as a fraction. */
  function Adjustment(successRate: real): real
  {
    if successRate < 0.40 then 0.10
    else if successRate < 0.55 then 0.05
    else if successRate > 0.70 then -0.05
    else 0.0
  }

  /**
   * The threshold of one bucket: its base below 10 bets, else the base
   * moved by the step for its success rate and clamped to [0.15, 0.70].
   */
  function Threshold(b: Bucket, s: TargetStats): real
  {
    if s.count < 10 then b.BaseThreshold()
    else MinR(0.70, MaxR(0.15, b.BaseThreshold() + Adjustment(s.successRate / 100.0)))
  }

  /** Every threshold lies in [0.15, 0.70], and a bucket with fewer than 10 bets keeps its base. */
  lemma ThresholdRange(b: Bucket, s: TargetStats)
    ensures 0.15 <= Threshold(b, s) <= 0.70
    ensures s.count < 10 ==> Threshold(b, s) == b.BaseThreshold()
  {
  }

  /** A lower success rate never lowers the threshold: poorer buckets are held to higher probabilities. */
  lemma ThresholdAntitone(b: Bucket, s1: TargetStats, s2: TargetStats)
    requires s1.count >= 10 && s2.count >= 10 && s1.successRate <= s2.successRate
    ensures Threshold(b, s2) <= Threshold(b, s1)
  {
    assert s1.successRate / 100.0 <= s2.successRate / 100.0;
  }

  /** `get_optimal_thresholds`: one threshold per bucket that has a row. */
  method GetOptimalThresholds(bets: seq<BotBet>) returns (thresholds: map<Bucket, real>)
    ensures forall b :: b in thresholds <==> TallyOf(bets, b).count > 0
    ensures forall b :: b in thresholds ==> thresholds[b] == Threshold(b, StatsOf(TallyOf(bets, b)))
  {
    var perf := AnalyzeTargetPerformance(bets);
    thresholds := map[];
    for k := 0 to |AllBuckets|
      invariant forall b :: b in thresholds <==> b in perf && b.Rank() < k
      invariant forall b :: b in thresholds ==> thresholds[b] == Threshold(b, perf[b])
    {
      var b := AllBuckets[k];
      assert b.Rank() == k;
      if b in perf {
        var stats := perf[b];
        if stats.count < 10 {
          thresholds := thresholds[b := b.BaseThreshold()];
        } else {
          var successRate := stats.successRate / 100.0;
          var adjustment := Adjustment(successRate);
          thresholds := thresholds[b := MinR(0.70, MaxR(0.15, b.BaseThreshold() + adjustment))];
        }
      }
    }
    forall b | b in perf
      ensures b.Rank() < |AllBuckets|
    {
      AllBucketsListed(b);
    }
  }
}
