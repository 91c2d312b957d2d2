/**
 * Shared vocabulary: optional values, floats that may be infinite, and the
 * few pieces of Python arithmetic and indexing whose semantics differ from
 * Dafny's (truncating `int()`, wrapping negative indices, clamped slices).
 */
module Common {

  datatype Option<T> = None | Some(value: T)

  /** A float metric that may be one of IEEE's infinities, as Python's `float('inf')`. */
  datatype Ratio = Finite(value: real) | PosInf | NegInf

  /** The order Python's `<` gives on floats without NaN: -inf < every finite value < +inf. */
  predicate RatioLess(a: Ratio, b: Ratio)
  {
    match a
    case NegInf => !b.NegInf?
    case Finite(x) => (b.Finite? && x < b.value) || b.PosInf?
    case PosInf => false
  }

  lemma RatioLessIsStrictTotal(a: Ratio, b: Ratio, c: Ratio)
    ensures !RatioLess(a, a)
    ensures a == b || RatioLess(a, b) || RatioLess(b, a)
    ensures RatioLess(a, b) ==> !RatioLess(b, a)
    ensures RatioLess(a, b) && RatioLess(b, c) ==> RatioLess(a, c)
  {
  }

  function MinR(a: real, b: real): (r: real)
    ensures r <= a && r <= b && (r == a || r == b)
  {
    if b < a then b else a
  }

  function MaxR(a: real, b: real): (r: real)
    ensures r >= a && r >= b && (r == a || r == b)
  {
    if b > a then b else a
  }

  /**
   * `min` on counts and indices. Dafny does not convert between `int` and
   * `real` implicitly, so integer and float operands each need their own
   * `min`.
   */
  function MinI(a: int, b: int): (r: int)
    ensures r <= a && r <= b && (r == a || r == b)
  {
    if b < a then b else a
  }

  function AbsR(x: real): (r: real)
    ensures r >= 0.0 && (r == x || r == -x)
  {
    if x < 0.0 then -x else x
  }

  /** Python's `int(x)` on a float: truncation toward zero. */
  function Trunc(x: real): (r: int)
    ensures 0.0 <= x ==> 0 <= r && r as real <= x < r as real + 1.0
    ensures x < 0.0 ==> r <= 0 && r as real - 1.0 < x <= r as real
  {
    if x >= 0.0 then x.Floor else -((-x).Floor)
  }

  /** Python's `xs[k]` on a list of length `n`: negative indices count from the end. */
  function PyIndex(n: nat, k: int): (r: Option<nat>)
    ensures r.Some? <==> 0 <= n + k && k < n
    ensures r.Some? ==> r.value < n && (0 <= k ==> r.value == k) && (k < 0 ==> r.value == n + k)
  {
    if 0 <= k < n then Some(k)
    else if 0 <= n + k && k < 0 then Some(n + k)
    else None
  }

  /** Where a slice bound `k` of Python's `xs[a:b]` lands on a list of length `n`. */
  function SliceBound(n: nat, k: int): (r: nat)
    ensures r <= n
    ensures 0 <= k ==> r == if k < n then k else n
  {
    if k < 0 then (if n + k < 0 then 0 else n + k)
    else if k < n then k
    else n
  }

  /** Python's slice `xs[a:b]`. */
  function PySlice<T>(xs: seq<T>, a: int, b: int): (r: seq<T>)
    ensures |r| <= |xs|
    ensures 0 <= a <= b <= |xs| ==> r == xs[a..b]
  {
    var lo := SliceBound(|xs|, a);
    var hi := SliceBound(|xs|, b);
    if lo < hi then xs[lo..hi] else []
  }

  /**
   * A non-empty slice `xs[a:b]` with a non-negative start is the run of
   * elements starting exactly at `a`.
   */
  lemma PySliceFrom<T>(xs: seq<T>, a: nat, b: int)
    ensures var r := PySlice(xs, a, b);
            |r| > 0 ==> a + |r| <= |xs| && r == xs[a..a + |r|]
  {
  }

  /** A part of a positive whole is a share in [0, 1]. */
  lemma ShareWithin(part: real, whole: real)
    requires 0.0 < whole && 0.0 <= part <= whole
    ensures 0.0 <= part / whole <= 1.0
  {
    var f := part / whole;
    assert f * whole == part;
    assert (1.0 - f) * whole == whole - part;
  }

  /** `count / n * 100` for `0 <= count <= n` is a percentage, 0 exactly when the count is. */
  lemma Percentage(count: nat, n: nat)
    requires 0 < n && count <= n
    ensures 0.0 <= count as real / n as real * 100.0 <= 100.0
    ensures count as real / n as real * 100.0 == 0.0 <==> count == 0
  {
    ShareWithin(count as real, n as real);
  }

  function SumR(xs: seq<real>): real
  {
    if |xs| == 0 then 0.0 else SumR(xs[..|xs| - 1]) + xs[|xs| - 1]
  }

  function SumI(xs: seq<int>): int
  {
    if |xs| == 0 then 0 else SumI(xs[..|xs| - 1]) + xs[|xs| - 1]
  }

  lemma {:induction false} SumRAppend(xs: seq<real>, ys: seq<real>)
    ensures SumR(xs + ys) == SumR(xs) + SumR(ys)
    decreases |ys|
  {
    if |ys| == 0 {
      assert xs + ys == xs;
    } else {
      var ys' := ys[..|ys| - 1];
      assert (xs + ys)[..|xs + ys| - 1] == xs + ys';
      SumRAppend(xs, ys');
    }
  }
}
