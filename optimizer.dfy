/**
 * Parameter search over the backtest: a grid search over the Cartesian
 * product of parameter lists, a best-of search over drawn parameter sets,
 * a one-parameter sensitivity sweep and the choice of a bet size.
 *
 * Building a strategy from keyword arguments is a parameter of the model
 * (`Builder`, None when the constructor raises); reading a metric off a
 * report by name is a function `MetricOf`.
 */
module Optimizer {
  import opened Common
  import opened Records
  import opened StrategyLogic
  import opened StrategyObject
  import opened Metrics
  import opened Engine

  /** A keyword-argument value. */
  datatype ParamValue = Num(real) | Text(string) | Flag(bool)

  type Params = map<string, ParamValue>

  /** `strategy_class(**params)`; None when the constructor raises. */
  type Builder = Params -> Option<StrategyConfig>

  /** `getattr(metrics, metric, 0)` for a fixed metric name. */
  type MetricOf = PerformanceMetrics -> Ratio

  /** A backtest of a strategy configuration on fixed data; None when it raises. */
  type Runner = StrategyConfig -> Option<PerformanceMetrics>

  /** `engine.run_backtest(strategy, config)` on the engine's rounds. */
  function BacktestWith(cfg: BacktestConfig, rounds: seq<Round>, risk: RiskModel): Runner
  {
    (c: StrategyConfig) => Backtest(c, cfg, rounds, risk)
  }

  /** Build and backtest one parameter set; None when either step raises (the `except` branch). */
  function TryRun(build: Builder, run: Runner, params: Params): Option<PerformanceMetrics>
  {
    match build(params)
    case None => None
    case Some(c) => run(c)
  }

  /** One build-and-backtest, as the optimizer's loops do it. */
  method RunParams(name: string, build: Builder, cfg: BacktestConfig, rounds: seq<Round>, risk: RiskModel,
                   params: Params)
    returns (r: Option<PerformanceMetrics>)
    ensures r == TryRun(build, BacktestWith(cfg, rounds, risk), params)
  {
    hide Backtest, BacktestRun, Playing;
    var c := build(params);
    if c.None? {
      return None;
    }
    var strategy := new Strategy(name, c.value, 1000.0);
    r := RunBacktest(strategy, cfg, rounds, risk);
  }

  // ---------------------------------------------------------------------
  // itertools.product

  /** `[[x] + p for p in ps]`. */
  function Prepend<V>(x: V, ps: seq<seq<V>>): (r: seq<seq<V>>)
    ensures |r| == |ps| && forall j :: 0 <= j < |ps| ==> r[j] == [x] + ps[j]
  {
    seq(|ps|, j requires 0 <= j < |ps| => [x] + ps[j])
  }

  /** `[[x] + p for x in xs for p in ps]`: the first list varies slowest. */
  function Prefixed<V>(xs: seq<V>, ps: seq<seq<V>>): (r: seq<seq<V>>)
  {
    if |xs| == 0 then [] else Prepend(xs[0], ps) + Prefixed(xs[1..], ps)
  }

  /** `list(itertools.product(*lists))`. */
  function Product<V>(lists: seq<seq<V>>): seq<seq<V>>
  {
    if |lists| == 0 then [[]] else Prefixed(lists[0], Product(lists[1..]))
  }

  /** The number of combinations: the product of the list lengths. */
  function Combinations<V>(lists: seq<seq<V>>): nat
  {
    if |lists| == 0 then 1 else |lists[0]| * Combinations(lists[1..])
  }

  /** `combo` picks one value from each list, in list order. */
  ghost predicate Choice<V>(combo: seq<V>, lists: seq<seq<V>>)
  {
    |combo| == |lists| && forall k :: 0 <= k < |lists| ==> combo[k] in lists[k]
  }

  /** Combination number `i * |ps| + j` is value `i` followed by suffix `j`. */
  lemma {:induction false} PrefixedAt<V>(xs: seq<V>, ps: seq<seq<V>>, i: nat, j: nat)
    requires i < |xs| && j < |ps|
    ensures |Prefixed(xs, ps)| == |xs| * |ps|
    ensures i * |ps| + j < |Prefixed(xs, ps)| && Prefixed(xs, ps)[i * |ps| + j] == [xs[i]] + ps[j]
  {
    PrefixedLength(xs, ps);
    if i > 0 {
      PrefixedAt(xs[1..], ps, i - 1, j);
      assert i * |ps| + j == |ps| + ((i - 1) * |ps| + j);
    }
  }

  lemma {:induction false} PrefixedLength<V>(xs: seq<V>, ps: seq<seq<V>>)
    ensures |Prefixed(xs, ps)| == |xs| * |ps|
  {
    if |xs| > 0 {
      PrefixedLength(xs[1..], ps);
      assert |xs| * |ps| == |ps| + (|xs| - 1) * |ps|;
    }
  }

  /** Every element of `Prefixed(xs, ps)` is a value of `xs` followed by an element of `ps`. */
  lemma {:induction false} PrefixedSound<V>(xs: seq<V>, ps: seq<seq<V>>)
    ensures forall r :: r in Prefixed(xs, ps) ==> |r| > 0 && r[0] in xs && r[1..] in ps
  {
    if |xs| > 0 {
      PrefixedSound(xs[1..], ps);
      forall r | r in Prefixed(xs, ps)
        ensures |r| > 0 && r[0] in xs && r[1..] in ps
      {
        if r in Prepend(xs[0], ps) {
          var j :| 0 <= j < |ps| && Prepend(xs[0], ps)[j] == r;
          assert r[1..] == ps[j];
        } else {
          assert r in Prefixed(xs[1..], ps);
        }
      }
    }
  }

  /** `itertools.product` yields as many combinations as the product of the list lengths. */
  lemma {:induction false} ProductCount<V>(lists: seq<seq<V>>)
    ensures |Product(lists)| == Combinations(lists)
  {
    if |lists| > 0 {
      ProductCount(lists[1..]);
      PrefixedLength(lists[0], Product(lists[1..]));
    }
  }

  /** Every combination `itertools.product` yields picks one value from each list. */
  lemma {:induction false} ProductSound<V>(lists: seq<seq<V>>)
    ensures forall combo :: combo in Product(lists) ==> Choice(combo, lists)
  {
    if |lists| > 0 {
      var rest := Product(lists[1..]);
      ProductSound(lists[1..]);
      PrefixedSound(lists[0], rest);
      forall combo | combo in Product(lists)
        ensures Choice(combo, lists)
      {
        var tail := combo[1..];
        assert tail in rest;
        assert Choice(tail, lists[1..]);
        forall k | 0 < k < |lists|
          ensures combo[k] in lists[k]
        {
          assert combo[k] == tail[k - 1] && lists[k] == lists[1..][k - 1];
        }
      }
    }
  }

  /** A choice from several lists is a value of the first followed by a choice from the rest. */
  lemma ChoiceTail<V>(lists: seq<seq<V>>, combo: seq<V>)
    requires |lists| > 0 && Choice(combo, lists)
    ensures combo[0] in lists[0] && Choice(combo[1..], lists[1..])
  {
    var tail := combo[1..];
    forall k | 0 <= k < |lists| - 1
      ensures tail[k] in lists[1..][k]
    {
      assert tail[k] == combo[k + 1] && lists[1..][k] == lists[k + 1];
    }
  }

  /** Any value of `xs` followed by any element of `ps` is among `Prefixed(xs, ps)`. */
  lemma PrefixedHas<V>(xs: seq<V>, ps: seq<seq<V>>, x: V, p: seq<V>)
    requires x in xs && p in ps
    ensures [x] + p in Prefixed(xs, ps)
  {
    var i :| 0 <= i < |xs| && xs[i] == x;
    var j :| 0 <= j < |ps| && ps[j] == p;
    PrefixedAt(xs, ps, i, j);
  }

  /** Every way of picking one value from each list is among the combinations. */
  lemma {:induction false} ProductComplete<V>(lists: seq<seq<V>>, combo: seq<V>)
    requires Choice(combo, lists)
    ensures combo in Product(lists)
  {
    if |lists| == 0 {
      assert combo == [];
    } else {
      ChoiceTail(lists, combo);
      ProductComplete(lists[1..], combo[1..]);
      PrefixedHas(lists[0], Product(lists[1..]), combo[0], combo[1..]);
      assert combo == [combo[0]] + combo[1..];
    }
  }

  /** `dict(zip(names, combo))`: pairs in order, a later name overwriting an earlier one. */
  function ParamsOf(names: seq<string>, combo: seq<ParamValue>): Params
  {
    var n := MinI(|names|, |combo|);
    if n <= 0 then map[]
    else ParamsOf(names[..n - 1], combo[..n - 1])[names[n - 1] := combo[n - 1]]
  }

  /** With distinct names, the parameters map each name to its chosen value and nothing else. */
  lemma ParamsOfStep(names: seq<string>, combo: seq<ParamValue>)
    requires |names| == |combo| > 0
    ensures ParamsOf(names, combo) ==
            ParamsOf(names[..|names| - 1], combo[..|names| - 1])[names[|names| - 1] := combo[|names| - 1]]
  {
  }

  lemma ParamsOfNone(names: seq<string>, combo: seq<ParamValue>)
    requires |names| == 0
    ensures ParamsOf(names, combo) == map[]
  {
  }

  /** The parameter names are exactly the keys. */
  lemma {:induction false} ParamsOfKeys(names: seq<string>, combo: seq<ParamValue>)
    requires |names| == |combo|
    ensures ParamsOf(names, combo).Keys == set x | x in names
  {
    hide ParamsOf;
    if |names| == 0 {
      ParamsOfNone(names, combo);
    } else {
      var n := |names|;
      var init := names[..n - 1];
      ParamsOfStep(names, combo);
      ParamsOfKeys(init, combo[..n - 1]);
      assert names == init + [names[n - 1]];
      assert (set x | x in names) == (set x | x in init) + {names[n - 1]};
    }
  }

  /** With distinct names, each name maps to the value chosen for it. */
  lemma {:induction false} ParamsOfValues(names: seq<string>, combo: seq<ParamValue>)
    requires |names| == |combo|
    requires forall a, b :: 0 <= a < b < |names| ==> names[a] != names[b]
    ensures forall k :: 0 <= k < |names| ==> names[k] in ParamsOf(names, combo) &&
                                             ParamsOf(names, combo)[names[k]] == combo[k]
  {
    hide ParamsOf;
    if |names| > 0 {
      var n := |names|;
      var init, initCombo := names[..n - 1], combo[..n - 1];
      assert forall k :: 0 <= k < n - 1 ==> init[k] == names[k] && initCombo[k] == combo[k];
      ParamsOfStep(names, combo);
      ParamsOfValues(init, initCombo);
    }
  }

  // ---------------------------------------------------------------------
  // grid_search

  /** A successful grid point: its position in the enumeration, its parameters and its report. */
  datatype GridEntry = GridEntry(index: nat, params: Params, metrics: PerformanceMetrics)

  /** The successful points among the first `k` combinations, in enumeration order. */
  function GridRuns(build: Builder, run: Runner, names: seq<string>, combos: seq<seq<ParamValue>>, k: nat)
    : seq<GridEntry>
    requires k <= |combos|
  {
    if k == 0 then []
    else
      var params := ParamsOf(names, combos[k - 1]);
      match TryRun(build, run, params)
      case None => GridRuns(build, run, names, combos, k - 1)
      case Some(m) => GridRuns(build, run, names, combos, k - 1) + [GridEntry(k - 1, params, m)]
  }

  /** Enumeration positions increase strictly along `entries`. */
  ghost predicate InEnumerationOrder(entries: seq<GridEntry>)
  {
    forall i, j :: 0 <= i < j < |entries| ==> entries[i].index < entries[j].index
  }

  /**
   * Every collected point is a successful combination among the first `k`,
   * with that combination's parameters and report, and the points keep
   * enumeration order.
   */
  lemma {:induction false} GridRunsSound(build: Builder, run: Runner, names: seq<string>,
                                         combos: seq<seq<ParamValue>>, k: nat)
    requires k <= |combos|
    ensures var r := GridRuns(build, run, names, combos, k);
            |r| <= k && InEnumerationOrder(r) &&
            forall e :: e in r ==> e.index < k && e.params == ParamsOf(names, combos[e.index]) &&
                                   TryRun(build, run, e.params) == Some(e.metrics)
  {
    if k > 0 {
      GridRunsSound(build, run, names, combos, k - 1);
    }
  }

  /** A successful combination is never skipped. */
  lemma {:induction false} GridRunsComplete(build: Builder, run: Runner, names: seq<string>,
                                            combos: seq<seq<ParamValue>>, k: nat, i: nat)
    requires i < k <= |combos|
    requires TryRun(build, run, ParamsOf(names, combos[i])).Some?
    ensures exists j :: 0 <= j < |GridRuns(build, run, names, combos, k)| &&
                        GridRuns(build, run, names, combos, k)[j].index == i
  {
    hide TryRun;
    var r := GridRuns(build, run, names, combos, k);
    var prev := GridRuns(build, run, names, combos, k - 1);
    if i < k - 1 {
      GridRunsComplete(build, run, names, combos, k - 1, i);
      var j :| 0 <= j < |prev| && prev[j].index == i;
      assert r[j] == prev[j];
    } else {
      assert r[|r| - 1].index == i;
    }
  }

  /** `a` ranks strictly before `b` when sorting by the metric in descending order. */
  predicate Before(metric: MetricOf, a: GridEntry, b: GridEntry)
  {
    RatioLess(metric(b.metrics), metric(a.metrics))
  }

  /** Insert `e` after every entry whose metric is not below its own. */
  function InsertDescending(metric: MetricOf, e: GridEntry, sorted: seq<GridEntry>): seq<GridEntry>
  {
    if |sorted| == 0 then [e]
    else if Before(metric, e, sorted[0]) then [e] + sorted
    else [sorted[0]] + InsertDescending(metric, e, sorted[1..])
  }

  /** `results.sort(key=metric, reverse=True)`: Python's sort is stable, also in reverse. */
  function SortDescending(metric: MetricOf, entries: seq<GridEntry>): seq<GridEntry>
  {
    if |entries| == 0 then []
    else InsertDescending(metric, entries[|entries| - 1], SortDescending(metric, entries[..|entries| - 1]))
  }

  /** Descending by the metric: +inf first, -inf last. */
  ghost predicate Descending(metric: MetricOf, s: seq<GridEntry>)
  {
    forall i, j :: 0 <= i < j < |s| ==> !Before(metric, s[j], s[i])
  }

  /** Entries with equal metrics keep their enumeration order. */
  ghost predicate StableByIndex(metric: MetricOf, s: seq<GridEntry>)
  {
    forall i, j :: 0 <= i < j < |s| && metric(s[i].metrics) == metric(s[j].metrics) ==> s[i].index < s[j].index
  }

  /** `a` may precede `b` in the sorted list: not below it, and drawn earlier on a tie. */
  predicate Ranked(metric: MetricOf, a: GridEntry, b: GridEntry)
  {
    !Before(metric, b, a) && (metric(a.metrics) == metric(b.metrics) ==> a.index < b.index)
  }

  ghost predicate RankedSeq(metric: MetricOf, s: seq<GridEntry>)
  {
    forall i, j :: 0 <= i < j < |s| ==> Ranked(metric, s[i], s[j])
  }

  lemma RankedThroughBefore(metric: MetricOf, e: GridEntry, a: GridEntry, x: GridEntry)
    requires Before(metric, e, a) && Ranked(metric, a, x)
    ensures Ranked(metric, e, x)
  {
    RatioLessIsStrictTotal(metric(x.metrics), metric(a.metrics), metric(e.metrics));
    RatioLessIsStrictTotal(metric(x.metrics), metric(e.metrics), metric(e.metrics));
  }

  lemma RankedCons(metric: MetricOf, a: GridEntry, t: seq<GridEntry>)
    requires RankedSeq(metric, t) && forall y :: y in t ==> Ranked(metric, a, y)
    ensures RankedSeq(metric, [a] + t)
  {
    var r := [a] + t;
    forall i, j | 0 <= i < j < |r|
      ensures Ranked(metric, r[i], r[j])
    {
      assert r[j] == t[j - 1];
      if i > 0 {
        assert r[i] == t[i - 1];
      }
    }
  }

  lemma {:induction false} InsertDescendingPermutes(metric: MetricOf, e: GridEntry, sorted: seq<GridEntry>)
    ensures multiset(InsertDescending(metric, e, sorted)) == multiset(sorted) + multiset{e}
  {
    if |sorted| > 0 && !Before(metric, e, sorted[0]) {
      InsertDescendingPermutes(metric, e, sorted[1..]);
      assert sorted == [sorted[0]] + sorted[1..];
    }
  }

  lemma {:induction false} InsertDescendingRanks(metric: MetricOf, e: GridEntry, sorted: seq<GridEntry>)
    requires RankedSeq(metric, sorted)
    requires forall x :: x in sorted ==> x.index < e.index
    ensures RankedSeq(metric, InsertDescending(metric, e, sorted))
  {
    if |sorted| == 0 {
    } else if Before(metric, e, sorted[0]) {
      forall y | y in sorted
        ensures Ranked(metric, e, y)
      {
        var j :| 0 <= j < |sorted| && sorted[j] == y;
        if j == 0 {
          RatioLessIsStrictTotal(metric(y.metrics), metric(e.metrics), metric(e.metrics));
        } else {
          RankedThroughBefore(metric, e, sorted[0], y);
        }
      }
      RankedCons(metric, e, sorted);
    } else {
      var rest := sorted[1..];
      var tail := InsertDescending(metric, e, rest);
      assert RankedSeq(metric, rest) by {
        assert forall i :: 0 <= i < |rest| ==> rest[i] == sorted[i + 1];
      }
      InsertDescendingRanks(metric, e, rest);
      InsertDescendingPermutes(metric, e, rest);
      forall y | y in tail
        ensures Ranked(metric, sorted[0], y)
      {
        assert y in multiset(tail);
        if y != e {
          assert y in multiset(rest);
          var j :| 0 <= j < |rest| && rest[j] == y;
          assert y == sorted[j + 1];
        }
      }
      RankedCons(metric, sorted[0], tail);
    }
  }

  /**
   * The grid's sort returns the same entries, descending by the metric
   * (+inf first, -inf last), with ties kept in enumeration order.
   */
  lemma {:induction false} SortDescendingFacts(metric: MetricOf, entries: seq<GridEntry>)
    requires InEnumerationOrder(entries)
    ensures var r := SortDescending(metric, entries);
            multiset(r) == multiset(entries) && Descending(metric, r) && StableByIndex(metric, r)
  {
    SortDescendingRanks(metric, entries);
  }

  lemma {:induction false} SortDescendingRanks(metric: MetricOf, entries: seq<GridEntry>)
    requires InEnumerationOrder(entries)
    ensures multiset(SortDescending(metric, entries)) == multiset(entries)
    ensures RankedSeq(metric, SortDescending(metric, entries))
  {
    hide InsertDescending;
    if |entries| > 0 {
      var init := entries[..|entries| - 1];
      var last := entries[|entries| - 1];
      assert InEnumerationOrder(init) by {
        assert forall i :: 0 <= i < |init| ==> init[i] == entries[i];
      }
      SortDescendingRanks(metric, init);
      var sortedInit := SortDescending(metric, init);
      forall x | x in sortedInit
        ensures x.index < last.index
      {
        assert x in multiset(init);
        var i :| 0 <= i < |init| && init[i] == x;
      }
      InsertDescendingPermutes(metric, last, sortedInit);
      InsertDescendingRanks(metric, last, sortedInit);
      assert entries == init + [last];
    }
  }

  /** The grid search's result: the successful points, sorted by the metric. */
  function GridSearchResult(build: Builder, run: Runner, names: seq<string>, lists: seq<seq<ParamValue>>,
                            metric: MetricOf): seq<GridEntry>
  {
    var combos := Product(lists);
    SortDescending(metric, GridRuns(build, run, names, combos, |combos|))
  }

  /**
   * The grid search returns at most one entry per combination, descending
   * by the metric with ties in enumeration order; every entry is a
   * successful run of a combination that picks one value from each list.
   */
  lemma GridSearchRanks(build: Builder, run: Runner, names: seq<string>, lists: seq<seq<ParamValue>>,
                        metric: MetricOf)
    ensures var r := GridSearchResult(build, run, names, lists, metric);
            |r| <= Combinations(lists) && Descending(metric, r) && StableByIndex(metric, r) &&
            forall e :: e in r ==>
              e.index < |Product(lists)| && Choice(Product(lists)[e.index], lists) &&
              e.params == ParamsOf(names, Product(lists)[e.index]) && TryRun(build, run, e.params) == Some(e.metrics)
  {
    hide SortDescending, GridRuns;
    var combos := Product(lists);
    var runs := GridRuns(build, run, names, combos, |combos|);
    var r := GridSearchResult(build, run, names, lists, metric);
    assert r == SortDescending(metric, runs);
    ProductCount(lists);
    ProductSound(lists);
    GridRunsSound(build, run, names, combos, |combos|);
    SortDescendingFacts(metric, runs);
    assert |r| == |multiset(r)| == |multiset(runs)| == |runs|;
    forall e | e in r
      ensures e in runs
    {
      assert e in multiset(r);
    }
  }

  /** `grid_search`. */
  method GridSearch(name: string, build: Builder, names: seq<string>, lists: seq<seq<ParamValue>>,
                    cfg: BacktestConfig, rounds: seq<Round>, risk: RiskModel, metric: MetricOf)
    returns (results: seq<GridEntry>)
    ensures results == GridSearchResult(build, BacktestWith(cfg, rounds, risk), names, lists, metric)
  {
    hide TryRun, SortDescending;
    var combos := Product(lists);
    var collected: seq<GridEntry> := [];
    for i := 0 to |combos|
      invariant collected == GridRuns(build, BacktestWith(cfg, rounds, risk), names, combos, i)
    {
      var params := ParamsOf(names, combos[i]);
      var metrics := RunParams(name, build, cfg, rounds, risk, params);
      if metrics.Some? {
        collected := collected + [GridEntry(i, params, metrics.value)];
      }
    }
    results := SortDescending(metric, collected);
  }

  // ---------------------------------------------------------------------
  // optimize_strategy

  /** The best point so far: where it was drawn, its metric value, its parameters and its report. */
  datatype Best = Best(index: nat, value: real, params: Params, metrics: PerformanceMetrics)

  /** The finite metric value of draw `i`, if its run succeeded. */
  function FiniteValue(build: Builder, run: Runner, metric: MetricOf, params: Params): Option<real>
  {
    match TryRun(build, run, params)
    case None => None
    case Some(m) => if metric(m).Finite? then Some(metric(m).value) else None
  }

  /**
   * The best of the first `k` draws: replaced only by a finite value
   * strictly above the best so far (which starts at -inf).
   */
  function BestOf(build: Builder, run: Runner, metric: MetricOf, draws: seq<Params>, k: nat): Option<Best>
    requires k <= |draws|
  {
    if k == 0 then None
    else
      var prev := BestOf(build, run, metric, draws, k - 1);
      match TryRun(build, run, draws[k - 1])
      case None => prev
      case Some(m) =>
        if metric(m).Finite? && (prev.None? || metric(m).value > prev.value.value)
        then Some(Best(k - 1, metric(m).value, draws[k - 1], m))
        else prev
  }

  /**
   * The best is the first maximum among the successful draws with a finite
   * metric; there is none exactly when no such draw exists.
   */
  lemma {:induction false} BestOfIsFirstMaximum(build: Builder, run: Runner, metric: MetricOf,
                                                draws: seq<Params>, k: nat)
    requires k <= |draws|
    ensures var b := BestOf(build, run, metric, draws, k);
            (b.None? <==> forall i :: 0 <= i < k ==> FiniteValue(build, run, metric, draws[i]).None?) &&
            (b.Some? ==>
               b.value.index < k && b.value.params == draws[b.value.index] &&
               TryRun(build, run, draws[b.value.index]) == Some(b.value.metrics) &&
               FiniteValue(build, run, metric, draws[b.value.index]) == Some(b.value.value) &&
               (forall i :: 0 <= i < k && FiniteValue(build, run, metric, draws[i]).Some? ==>
                              FiniteValue(build, run, metric, draws[i]).value <= b.value.value) &&
               (forall i :: 0 <= i < b.value.index && FiniteValue(build, run, metric, draws[i]).Some? ==>
                              FiniteValue(build, run, metric, draws[i]).value < b.value.value))
  {
    if k > 0 {
      BestOfIsFirstMaximum(build, run, metric, draws, k - 1);
    }
  }

  /** `optimize_strategy` over the drawn parameter sets. */
  method OptimizeStrategy(name: string, build: Builder, draws: seq<Params>, cfg: BacktestConfig,
                          rounds: seq<Round>, risk: RiskModel, metric: MetricOf)
    returns (best: Option<Best>)
    ensures best == BestOf(build, BacktestWith(cfg, rounds, risk), metric, draws, |draws|)
  {
    hide TryRun;
    best := None;
    for i := 0 to |draws|
      invariant best == BestOf(build, BacktestWith(cfg, rounds, risk), metric, draws, i)
    {
      var metrics := RunParams(name, build, cfg, rounds, risk, draws[i]);
      if metrics.Some? {
        var value := metric(metrics.value);
        if value.Finite? && (best.None? || value.value > best.value.value) {
          best := Some(Best(i, value.value, draws[i], metrics.value));
        }
      }
    }
  }

  // ---------------------------------------------------------------------
  // sensitivity_analysis

  /** The reading of a tracked metric for one value of the varied parameter; 0 when the run raises. */
  function Reading(build: Builder, run: Runner, base: Params, varied: string, value: ParamValue,
                   metric: MetricOf): Ratio
  {
    match TryRun(build, run, base[varied := value])
    case None => Finite(0.0)
    case Some(m) => metric(m)
  }

  /**
   * `sensitivity_analysis`: for each tracked metric, the list of its readings,
   * one per value and in the order of the values.
   */
  method SensitivityAnalysis(name: string, build: Builder, base: Params, varied: string, values: seq<ParamValue>,
                             cfg: BacktestConfig, rounds: seq<Round>, risk: RiskModel, tracked: seq<MetricOf>)
    returns (series: seq<seq<Ratio>>)
    ensures |series| == |tracked|
    ensures forall k :: 0 <= k < |tracked| ==> |series[k]| == |values|
    ensures forall k, j :: 0 <= k < |tracked| && 0 <= j < |values| ==>
              series[k][j] == Reading(build, BacktestWith(cfg, rounds, risk), base, varied, values[j], tracked[k])
  {
    hide TryRun;
    ghost var run := BacktestWith(cfg, rounds, risk);
    series := seq(|tracked|, k => []);
    for j := 0 to |values|
      invariant |series| == |tracked|
      invariant forall k :: 0 <= k < |tracked| ==> |series[k]| == j
      invariant forall k, i :: 0 <= k < |tracked| && 0 <= i < j ==>
                  series[k][i] == Reading(build, run, base, varied, values[i], tracked[k])
    {
      var metrics := RunParams(name, build, cfg, rounds, risk, base[varied := values[j]]);
      for k := 0 to |tracked|
        invariant |series| == |tracked|
        invariant forall t :: 0 <= t < k ==> |series[t]| == j + 1
        invariant forall t :: k <= t < |tracked| ==> |series[t]| == j
        invariant forall t, i :: 0 <= t < |tracked| && 0 <= i < j ==>
                    series[t][i] == Reading(build, run, base, varied, values[i], tracked[t])
        invariant forall t :: 0 <= t < k ==> series[t][j] == Reading(build, run, base, varied, values[j], tracked[t])
      {
        var reading := if metrics.Some? then tracked[k](metrics.value) else Finite(0.0);
        series := series[k := series[k] + [reading]];
      }
    }
  }

  // ---------------------------------------------------------------------
  // find_optimal_bet_size

  /** `np.linspace(lo, hi, n)`; None for a negative count (numpy raises). */
  function Linspace(lo: real, hi: real, n: int): (r: Option<seq<real>>)
    ensures r.Some? <==> n >= 0
    ensures r.Some? ==> |r.value| == n
  {
    if n < 0 then None
    else if n == 1 then Some([lo])
    else Some(seq(n, i requires 0 <= i < n => lo + i as real * ((hi - lo) / (n - 1) as real)))
  }

  /** The grid of stakes runs from the lower bound to the upper one, evenly spaced. */
  lemma LinspaceEnds(lo: real, hi: real, n: int)
    requires n >= 2
    ensures var s := Linspace(lo, hi, n).value;
            s[0] == lo && s[n - 1] == hi &&
            forall i :: 0 < i < n ==> s[i] - s[i - 1] == (hi - lo) / (n - 1) as real
  {
    var step := (hi - lo) / (n - 1) as real;
    assert (n - 1) as real * step == hi - lo;
    var s := Linspace(lo, hi, n).value;
    forall i | 0 < i < n
      ensures s[i] - s[i - 1] == step
    {
      assert s[i] == lo + i as real * step && s[i - 1] == lo + (i - 1) as real * step;
      assert i as real * step == (i - 1) as real * step + step;
    }
  }

  /** One row of the bet-size analysis, with its risk-adjusted return. */
  datatype BetPoint = BetPoint(betPercent: real, roi: real, sharpe: real, maxDd: real, finalBankroll: real,
                               riskAdjusted: real)

  /** `roi / max(max_dd, 0.01)`. */
  function RiskAdjusted(roi: real, maxDd: real): real
  {
    roi / MaxR(maxDd, 0.01)
  }

  /** The rows for the first `k` stakes; a stake whose run raises is skipped. */
  function BetPoints(build: Builder, run: Runner, base: Params, stakes: seq<real>, k: nat): seq<BetPoint>
    requires k <= |stakes|
  {
    if k == 0 then []
    else
      var prev := BetPoints(build, run, base, stakes, k - 1);
      match TryRun(build, run, base["bet_percent" := Num(stakes[k - 1])])
      case None => prev
      case Some(m) =>
        prev + [BetPoint(stakes[k - 1], m.roiPercent, m.sharpeRatio, m.maxDrawdownPercent, m.finalBankroll,
                         RiskAdjusted(m.roiPercent, m.maxDrawdownPercent))]
  }

  /** `max(xs, key=...)` on the keys: the index of the first maximal key. */
  function FirstMax(keys: seq<real>): (i: nat)
    requires |keys| > 0
    ensures i < |keys|
    ensures forall j :: 0 <= j < |keys| ==> keys[j] <= keys[i]
    ensures forall j :: 0 <= j < i ==> keys[j] < keys[i]
  {
    if |keys| == 1 then 0
    else
      var m := FirstMax(keys[..|keys| - 1]);
      if keys[|keys| - 1] > keys[m] then |keys| - 1 else m
  }

  /** The criteria a stake can be chosen by. */
  function RoiKey(p: BetPoint): real { p.roi }
  function SharpeKey(p: BetPoint): real { p.sharpe }
  function RiskAdjustedKey(p: BetPoint): real { p.riskAdjusted }

  function Keys(points: seq<BetPoint>, key: BetPoint -> real): (r: seq<real>)
    ensures |r| == |points| && forall i :: 0 <= i < |points| ==> r[i] == key(points[i])
  {
    seq(|points|, i requires 0 <= i < |points| => key(points[i]))
  }

  /** `max(results, key=key)["bet_percent"]`. */
  function BestStake(points: seq<BetPoint>, key: BetPoint -> real): real
    requires |points| > 0
  {
    points[FirstMax(Keys(points, key))].betPercent
  }

  /** `stake` belongs to the first row whose criterion is maximal. */
  ghost predicate ChosenBy(points: seq<BetPoint>, key: BetPoint -> real, stake: real)
  {
    exists i :: 0 <= i < |points| && points[i].betPercent == stake &&
                (forall j :: 0 <= j < |points| ==> key(points[j]) <= key(points[i])) &&
                (forall j :: 0 <= j < i ==> key(points[j]) < key(points[i]))
  }

  lemma BestStakeChosen(points: seq<BetPoint>, key: BetPoint -> real)
    requires |points| > 0
    ensures ChosenBy(points, key, BestStake(points, key))
  {
    var i := FirstMax(Keys(points, key));
    assert forall j :: 0 <= j < |points| ==> key(points[j]) == Keys(points, key)[j];
  }

  /** The bet-size analysis: the default 1.0 when no stake ran, else the best stake by each criterion. */
  datatype BetSizeReport =
    | DefaultBetSize(optimalBetPercent: real)
    | BetSizes(byRoi: real, bySharpe: real, byRiskAdjusted: real, recommended: real, points: seq<BetPoint>)

  function OptimalBetSize(build: Builder, run: Runner, base: Params, lo: real, hi: real, n: int)
    : Option<BetSizeReport>
  {
    match Linspace(lo, hi, n)
    case None => None
    case Some(stakes) =>
      var points := BetPoints(build, run, base, stakes, |stakes|);
      if |points| == 0 then Some(DefaultBetSize(1.0))
      else
        var byRisk := BestStake(points, RiskAdjustedKey);
        Some(BetSizes(BestStake(points, RoiKey), BestStake(points, SharpeKey), byRisk, byRisk, points))
  }

  /**
   * Each recommended stake is the stake of the first row that maximises
   * its criterion, and the recommendation is the risk-adjusted one.
   */
  lemma OptimalBetSizeChoices(build: Builder, run: Runner, base: Params, lo: real, hi: real, n: int)
    requires OptimalBetSize(build, run, base, lo, hi, n).Some?
    requires OptimalBetSize(build, run, base, lo, hi, n).value.BetSizes?
    ensures var r := OptimalBetSize(build, run, base, lo, hi, n).value;
            |r.points| > 0 && r.recommended == r.byRiskAdjusted &&
            ChosenBy(r.points, RoiKey, r.byRoi) && ChosenBy(r.points, SharpeKey, r.bySharpe) &&
            ChosenBy(r.points, RiskAdjustedKey, r.byRiskAdjusted)
  {
    hide BetPoints, BestStake;
    var ps := OptimalBetSize(build, run, base, lo, hi, n).value.points;
    BestStakeChosen(ps, RoiKey);
    BestStakeChosen(ps, SharpeKey);
    BestStakeChosen(ps, RiskAdjustedKey);
  }

  /** With no successful stake the analysis falls back to 1.0. */
  lemma OptimalBetSizeDefault(build: Builder, run: Runner, base: Params, lo: real, hi: real, n: int)
    requires n >= 0
    requires forall i :: 0 <= i < |Linspace(lo, hi, n).value| ==>
               TryRun(build, run, base["bet_percent" := Num(Linspace(lo, hi, n).value[i])]).None?
    ensures OptimalBetSize(build, run, base, lo, hi, n) == Some(DefaultBetSize(1.0))
  {
    var stakes := Linspace(lo, hi, n).value;
    NoPointsWhenAllFail(build, run, base, stakes, |stakes|);
  }

  lemma {:induction false} NoPointsWhenAllFail(build: Builder, run: Runner, base: Params, stakes: seq<real>, k: nat)
    requires k <= |stakes|
    requires forall i :: 0 <= i < k ==> TryRun(build, run, base["bet_percent" := Num(stakes[i])]).None?
    ensures BetPoints(build, run, base, stakes, k) == []
  {
    if k > 0 {
      NoPointsWhenAllFail(build, run, base, stakes, k - 1);
    }
  }

  /** Every row's risk adjustment divides its ROI by its drawdown, but never by less than 0.01. */
  lemma {:induction false} RiskAdjustedRows(build: Builder, run: Runner, base: Params, stakes: seq<real>, k: nat)
    requires k <= |stakes|
    ensures var ps := BetPoints(build, run, base, stakes, k);
            |ps| <= k &&
            forall p :: p in ps ==> p.riskAdjusted * MaxR(p.maxDd, 0.01) == p.roi && p.betPercent in stakes
  {
    if k > 0 {
      RiskAdjustedRows(build, run, base, stakes, k - 1);
    }
  }

  /** `find_optimal_bet_size`. */
  method FindOptimalBetSize(name: string, build: Builder, base: Params, lo: real, hi: real, n: int,
                            cfg: BacktestConfig, rounds: seq<Round>, risk: RiskModel)
    returns (r: Option<BetSizeReport>)
    ensures r == OptimalBetSize(build, BacktestWith(cfg, rounds, risk), base, lo, hi, n)
  {
    hide TryRun;
    var stakes := Linspace(lo, hi, n);
    if stakes.None? {
      return None;
    }
    var points: seq<BetPoint> := [];
    for i := 0 to |stakes.value|
      invariant points == BetPoints(build, BacktestWith(cfg, rounds, risk), base, stakes.value, i)
    {
      var metrics := RunParams(name, build, cfg, rounds, risk, base["bet_percent" := Num(stakes.value[i])]);
      if metrics.Some? {
        var m := metrics.value;
        points := points + [BetPoint(stakes.value[i], m.roiPercent, m.sharpeRatio, m.maxDrawdownPercent,
                                     m.finalBankroll, RiskAdjusted(m.roiPercent, m.maxDrawdownPercent))];
      }
    }
    if |points| == 0 {
      return Some(DefaultBetSize(1.0));
    }
    var byRisk := BestStake(points, RiskAdjustedKey);
    return Some(BetSizes(BestStake(points, RoiKey), BestStake(points, SharpeKey), byRisk, byRisk, points));
  }
}
