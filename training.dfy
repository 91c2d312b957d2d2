/**
 * The data preparation of model training: the temporal split into
 * train, validation and test parts, and the class-balancing weights.
 */
module Training {
  import opened Common

  /** One part of the split: the feature rows and every label array cut at the same place. */
  datatype Part<Row, Label> = Part(x: seq<Row>, labels: map<string, seq<Label>>)

  datatype TemporalSplitResult<Row, Label> = Split(train: Part<Row, Label>, val: Part<Row, Label>, test: Part<Row, Label>)

  /** Where training ends: the row count times the ratio, truncated toward zero. */
  function TrainEnd(n: nat, trainRatio: real): int
  {
    Trunc(n as real * trainRatio)
  }

  /** Where validation ends: the row count times the two ratios together, truncated toward zero. */
  function ValEnd(n: nat, trainRatio: real, valRatio: real): int
  {
    Trunc(n as real * (trainRatio + valRatio))
  }

  function Cut<Row, Label>(x: seq<Row>, labels: map<string, seq<Label>>, a: int, b: int): Part<Row, Label>
  {
    Part(PySlice(x, a, b), map name | name in labels :: PySlice(labels[name], a, b))
  }

  /** `temporal_split`: the first rows train, the next validate, the rest test. */
  function TemporalSplit<Row, Label>(x: seq<Row>, labels: map<string, seq<Label>>, trainRatio: real, valRatio: real)
    : (r: TemporalSplitResult<Row, Label>)
    ensures r.train.labels.Keys == r.val.labels.Keys == r.test.labels.Keys == labels.Keys
  {
    var n := |x|;
    var trainEnd := TrainEnd(n, trainRatio);
    var valEnd := ValEnd(n, trainRatio, valRatio);
    Split(Cut(x, labels, 0, trainEnd), Cut(x, labels, trainEnd, valEnd), Cut(x, labels, valEnd, n))
  }

  /** Three Python slices cut at `0 <= a <= b` put back together give the whole list. */
  lemma SlicesConcatenate<T>(xs: seq<T>, a: int, b: int)
    requires 0 <= a <= b
    ensures PySlice(xs, 0, a) + PySlice(xs, a, b) + PySlice(xs, b, |xs|) == xs
    ensures |PySlice(xs, 0, a)| == MinI(a, |xs|) && |PySlice(xs, b, |xs|)| == |xs| - MinI(b, |xs|)
  {
    var lo := SliceBound(|xs|, a);
    var hi := SliceBound(|xs|, b);
    assert PySlice(xs, 0, a) == xs[..lo];
    assert PySlice(xs, a, b) == xs[lo..hi];
    assert PySlice(xs, b, |xs|) == xs[hi..];
    assert xs[..lo] + xs[lo..hi] + xs[hi..] == xs;
  }

  /** With non-negative ratios the training cut never comes after the validation cut. */
  lemma CutsOrdered(n: nat, trainRatio: real, valRatio: real)
    requires 0.0 <= trainRatio && 0.0 <= valRatio
    ensures 0 <= TrainEnd(n, trainRatio) <= ValEnd(n, trainRatio, valRatio)
    ensures TrainEnd(n, trainRatio) as real <= n as real * trainRatio
  {
    assert n as real * trainRatio <= n as real * (trainRatio + valRatio);
  }

  /**
   * With non-negative ratios the three feature parts are contiguous and
   * in time order: concatenated they give back every row, and training
   * holds exactly the first ⌊n·train_ratio⌋ rows (all of them when that exceeds n).
   */
  lemma SplitCoversInOrder<Row, Label>(x: seq<Row>, labels: map<string, seq<Label>>, trainRatio: real, valRatio: real)
    requires 0.0 <= trainRatio && 0.0 <= valRatio
    ensures var r := TemporalSplit(x, labels, trainRatio, valRatio);
            r.train.x + r.val.x + r.test.x == x &&
            |r.train.x| == MinI(TrainEnd(|x|, trainRatio), |x|) &&
            |r.train.x| + |r.val.x| == MinI(ValEnd(|x|, trainRatio, valRatio), |x|)
  {
    CutsOrdered(|x|, trainRatio, valRatio);
    SlicesConcatenate(x, TrainEnd(|x|, trainRatio), ValEnd(|x|, trainRatio, valRatio));
  }

  /** A slice's length depends only on the list's length and the bounds. */
  lemma SliceLengthAlike<S, T>(xs: seq<S>, ys: seq<T>, a: int, b: int)
    requires |xs| == |ys|
    ensures |PySlice(xs, a, b)| == |PySlice(ys, a, b)|
  {
  }

  /**
   * Every label array as long as the feature rows is cut at the same
   * boundaries: each label part is as long as the matching feature part,
   * and the label parts concatenate back to the array.
   */
  lemma LabelsSplitAlike<Row, Label>(x: seq<Row>, labels: map<string, seq<Label>>, trainRatio: real, valRatio: real, name: string)
    requires name in labels && |labels[name]| == |x|
    ensures var r := TemporalSplit(x, labels, trainRatio, valRatio);
            |r.train.labels[name]| == |r.train.x| && |r.val.labels[name]| == |r.val.x| &&
            |r.test.labels[name]| == |r.test.x|
    ensures 0.0 <= trainRatio && 0.0 <= valRatio ==>
            var r := TemporalSplit(x, labels, trainRatio, valRatio);
            r.train.labels[name] + r.val.labels[name] + r.test.labels[name] == labels[name]
  {
    var ys := labels[name];
    var a := TrainEnd(|x|, trainRatio);
    var b := ValEnd(|x|, trainRatio, valRatio);
    var r := TemporalSplit(x, labels, trainRatio, valRatio);
    assert r.train == Cut(x, labels, 0, a) && r.val == Cut(x, labels, a, b) && r.test == Cut(x, labels, b, |x|);
    hide TemporalSplit, PySlice;
    assert r.train.labels[name] == PySlice(ys, 0, a);
    assert r.val.labels[name] == PySlice(ys, a, b);
    assert r.test.labels[name] == PySlice(ys, b, |ys|);
    SliceLengthAlike(x, ys, 0, a);
    SliceLengthAlike(x, ys, a, b);
    SliceLengthAlike(x, ys, b, |x|);
    if 0.0 <= trainRatio && 0.0 <= valRatio {
      CutsOrdered(|x|, trainRatio, valRatio);
      SlicesConcatenate(ys, a, b);
    }
  }

  /** How many labels are positive: the sum of the label array. */
  function Positives(y: seq<int>): int
  {
    SumI(y)
  }

  /** `compute_class_weight`: class 0 and class 1 weights. */
  function ComputeClassWeight(y: seq<int>): (w: map<int, real>)
    ensures w.Keys == {0, 1}
    ensures Positives(y) == 0 || Positives(y) == |y| ==> w[0] == 1.0 && w[1] == 1.0
  {
    var n := |y|;
    var positive := Positives(y);
    var negative := n - positive;
    if positive == 0 || negative == 0 then map[0 := 1.0, 1 := 1.0]
    else map[0 := n as real / (2 * negative) as real, 1 := n as real / (2 * positive) as real]
  }

  /** `compute_scale_pos_weight`: negatives per positive, 1 with no positives. */
  function ComputeScalePosWeight(y: seq<int>): real
  {
    var positive := Positives(y);
    var negative := |y| - positive;
    if positive == 0 then 1.0 else negative as real / positive as real
  }

  predicate Binary(y: seq<int>)
  {
    forall i :: 0 <= i < |y| ==> y[i] == 0 || y[i] == 1
  }

  /** On a 0/1 array the positives are between none and all. */
  lemma {:induction false} PositivesBounded(y: seq<int>)
    requires Binary(y)
    ensures 0 <= Positives(y) <= |y|
  {
    if |y| > 0 {
      PositivesBounded(y[..|y| - 1]);
    }
  }

  /**
   * With both classes present the weights balance the classes: each
   * class's weights add up to half the samples, and both are positive.
   */
  lemma ClassWeightsBalance(y: seq<int>)
    requires Binary(y)
    requires 0 < Positives(y) < |y|
    ensures var w := ComputeClassWeight(y);
            w[1] * Positives(y) as real == |y| as real / 2.0 &&
            w[0] * (|y| - Positives(y)) as real == |y| as real / 2.0 &&
            0.0 < w[0] && 0.0 < w[1]
  {
    var n := |y| as real;
    var p := Positives(y) as real;
    var q := (|y| - Positives(y)) as real;
    assert n / (2.0 * p) * p == n / 2.0;
    assert n / (2.0 * q) * q == n / 2.0;
  }

  /**
   * The scale of the positive class is the ratio of the class weights
   * whenever both classes are present; with no positives it is neutral.
   */
  lemma ScaleIsWeightRatio(y: seq<int>)
    requires Binary(y)
    ensures Positives(y) == 0 ==> ComputeScalePosWeight(y) == 1.0
    ensures 0 < Positives(y) < |y| ==>
            ComputeScalePosWeight(y) == ComputeClassWeight(y)[1] / ComputeClassWeight(y)[0]
    ensures 0 < Positives(y) ==> ComputeScalePosWeight(y) * Positives(y) as real == (|y| - Positives(y)) as real
  {
    PositivesBounded(y);
    if 0 < Positives(y) < |y| {
      var n := |y| as real;
      var p := Positives(y) as real;
      var q := (|y| - Positives(y)) as real;
      assert (n / (2.0 * p)) / (n / (2.0 * q)) == q / p;
    }
  }
}
