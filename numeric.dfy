/**
 * Exact-arithmetic counterparts of the Python and numpy numeric helpers the
 * scripts use: `sum`, `int()`, `round()`, `min`/`max` and `np.clip`.
 * Every quantity is a `real` (an exact rational); IEEE effects are not modelled.
 */
module Numeric {

  /** `sum(xs)` over a list of numbers. */
  function Sum(xs: seq<real>): real
  {
    if xs == [] then 0.0 else Sum(xs[..|xs| - 1]) + xs[|xs| - 1]
  }

  lemma {:induction false} SumAppend(xs: seq<real>, ys: seq<real>)
    ensures Sum(xs + ys) == Sum(xs) + Sum(ys)
  {
    if ys == [] {
      assert xs + ys == xs;
    } else {
      assert (xs + ys)[..|xs + ys| - 1] == xs + ys[..|ys| - 1];
      SumAppend(xs, ys[..|ys| - 1]);
    }
  }

  lemma {:induction false} SumBounds(xs: seq<real>, lo: real, hi: real)
    requires forall i :: 0 <= i < |xs| ==> lo <= xs[i] <= hi
    ensures |xs| as real * lo <= Sum(xs) <= |xs| as real * hi
  {
    if xs != [] {
      SumBounds(xs[..|xs| - 1], lo, hi);
    }
  }

  lemma {:induction false} SumNonNegative(xs: seq<real>)
    requires forall i :: 0 <= i < |xs| ==> 0.0 <= xs[i]
    ensures 0.0 <= Sum(xs)
  {
    if xs != [] {
      SumNonNegative(xs[..|xs| - 1]);
    }
  }

  /** The mean of values between `lo` and `hi` lies between them too. */
  lemma MeanBounds(xs: seq<real>, lo: real, hi: real)
    requires xs != []
    requires forall i :: 0 <= i < |xs| ==> lo <= xs[i] <= hi
    ensures lo <= Sum(xs) / |xs| as real <= hi
  {
    SumBounds(xs, lo, hi);
    var n := |xs| as real;
    var m := Sum(xs) / n;
    assert Sum(xs) == m * n;
    assert (m - lo) * n == Sum(xs) - n * lo;
    assert (hi - m) * n == n * hi - Sum(xs);
    ProductSign(m - lo, n);
    ProductSign(hi - m, n);
  }

  /** A product with a positive factor has the sign of the other factor. */
  lemma ProductSign(x: real, n: real)
    requires n > 0.0
    ensures x * n >= 0.0 ==> x >= 0.0
  {
    if x < 0.0 {
      assert x * n < 0.0;
    }
  }

  /** Dividing every element by `c` divides the total by `c`. */
  lemma {:induction false} SumDivide(xs: seq<real>, ys: seq<real>, c: real)
    requires c != 0.0
    requires |ys| == |xs|
    requires forall i :: 0 <= i < |xs| ==> ys[i] == xs[i] / c
    ensures Sum(ys) == Sum(xs) / c
  {
    if xs != [] {
      SumDivide(xs[..|xs| - 1], ys[..|ys| - 1], c);
    }
  }

  /** Multiplying every element by `c` multiplies the total by `c`. */
  lemma {:induction false} SumScale(xs: seq<real>, ys: seq<real>, c: real)
    requires |ys| == |xs|
    requires forall i :: 0 <= i < |xs| ==> ys[i] == c * xs[i]
    ensures Sum(ys) == c * Sum(xs)
  {
    if xs != [] {
      SumScale(xs[..|xs| - 1], ys[..|ys| - 1], c);
    }
  }

  /** `v` lies between `lo` and `hi` times `w`. */
  predicate Within(lo: real, hi: real, w: real, v: real)
  {
    lo * w <= v <= hi * w
  }

  /** Totals of pairs each within the factors `lo` and `hi` of each other stay within them. */
  lemma {:induction false} WeightedSums(weights: seq<real>, values: seq<real>, lo: real, hi: real)
    requires |values| == |weights|
    requires forall i :: 0 <= i < |weights| ==> Within(lo, hi, weights[i], values[i])
    ensures Within(lo, hi, Sum(weights), Sum(values))
  {
    if weights != [] {
      var n := |weights| - 1;
      var w0, v0 := weights[..n], values[..n];
      assert forall i :: 0 <= i < n ==> w0[i] == weights[i] && v0[i] == values[i];
      WeightedSums(w0, v0, lo, hi);
      assert Sum(weights) == Sum(w0) + weights[n];
      assert Sum(values) == Sum(v0) + values[n];
      AddWeighted(lo, hi, Sum(w0), Sum(v0), weights[n], values[n]);
    }
  }

  lemma AddWeighted(lo: real, hi: real, a: real, s: real, b: real, t: real)
    requires Within(lo, hi, a, s) && Within(lo, hi, b, t)
    ensures Within(lo, hi, a + b, s + t)
  {
  }

  /** Clearing a positive denominator from an inequality. */
  lemma DivLower(a: real, p: real, v: real)
    requires p > 0.0 && v <= a / p
    ensures v * p <= a
  {
  }

  lemma DivUpper(a: real, p: real, v: real)
    requires p > 0.0 && a / p < v
    ensures a < v * p
  {
  }

  /** Python's `int(x)` on a float: truncation toward zero. */
  function Trunc(x: real): (r: int)
    ensures 0.0 <= x ==> 0 <= r && r as real <= x < r as real + 1.0
    ensures x < 0.0 ==> r <= 0 && r as real - 1.0 < x <= r as real
  {
    if x >= 0.0 then x.Floor else -((-x).Floor)
  }

  lemma TruncMonotone(x: real, y: real)
    requires x <= y
    ensures Trunc(x) <= Trunc(y)
  {
  }

  /** Python's `round(x)`: the nearest integer, ties to the even neighbour. */
  function RoundHalfEven(x: real): (r: int)
    ensures r as real - 0.5 <= x <= r as real + 0.5
    ensures x == x.Floor as real ==> r == x.Floor
    ensures x - x.Floor as real == 0.5 ==> r % 2 == 0
  {
    var f := x.Floor;
    var frac := x - f as real;
    if frac < 0.5 then f
    else if frac > 0.5 then f + 1
    else if f % 2 == 0 then f
    else f + 1
  }

  lemma RoundHalfEvenMonotone(x: real, y: real)
    requires x <= y
    ensures RoundHalfEven(x) <= RoundHalfEven(y)
  {
    var fx, fy := x.Floor, y.Floor;
    assert fx <= fy;
    if fx < fy {
      assert RoundHalfEven(x) <= fx + 1 <= fy <= RoundHalfEven(y);
    }
  }

  /** Python's `round(x, n)` for the decimal places the scripts use, taken on the exact
      value of `x`: the nearest multiple of 10^-n, ties to an even multiple. */
  function Round1(x: real): (r: real)
    ensures x - 0.05 <= r <= x + 0.05
    ensures (r * 10.0).Floor as real == r * 10.0
    ensures x * 10.0 - (x * 10.0).Floor as real == 0.5 ==> (r * 10.0).Floor % 2 == 0
  {
    var k := RoundHalfEven(x * 10.0);
    assert (k as real / 10.0) * 10.0 == k as real;
    k as real / 10.0
  }

  function Round2(x: real): (r: real)
    ensures x - 0.005 <= r <= x + 0.005
    ensures (r * 100.0).Floor as real == r * 100.0
    ensures x * 100.0 - (x * 100.0).Floor as real == 0.5 ==> (r * 100.0).Floor % 2 == 0
  {
    var k := RoundHalfEven(x * 100.0);
    assert (k as real / 100.0) * 100.0 == k as real;
    k as real / 100.0
  }

  function Round4(x: real): (r: real)
    ensures x - 0.00005 <= r <= x + 0.00005
    ensures (r * 10000.0).Floor as real == r * 10000.0
    ensures x * 10000.0 - (x * 10000.0).Floor as real == 0.5 ==> (r * 10000.0).Floor % 2 == 0
  {
    var k := RoundHalfEven(x * 10000.0);
    assert (k as real / 10000.0) * 10000.0 == k as real;
    k as real / 10000.0
  }

  /** A value already on the one-decimal grid is left unchanged. */
  lemma Round1OnGrid(x: real)
    requires (x * 10.0).Floor as real == x * 10.0
    ensures Round1(x) == x
  {
  }

  lemma Round1Monotone(x: real, y: real)
    requires x <= y
    ensures Round1(x) <= Round1(y)
  {
    RoundHalfEvenMonotone(x * 10.0, y * 10.0);
  }

  lemma Round4Monotone(x: real, y: real)
    requires x <= y
    ensures Round4(x) <= Round4(y)
  {
    RoundHalfEvenMonotone(x * 10000.0, y * 10000.0);
  }

  lemma Round2Monotone(x: real, y: real)
    requires x <= y
    ensures Round2(x) <= Round2(y)
  {
    RoundHalfEvenMonotone(x * 100.0, y * 100.0);
  }

  /** Python's `min(a, b)` and `max(a, b)` on numbers. */
  function Min(a: real, b: real): (r: real)
    ensures r <= a && r <= b && (r == a || r == b)
  {
    if b < a then b else a
  }

  function Max(a: real, b: real): (r: real)
    ensures a <= r && b <= r && (r == a || r == b)
  {
    if b > a then b else a
  }

  /** `np.clip(x, lo, hi)`, which is `minimum(maximum(x, lo), hi)`. */
  function Clip(x: real, lo: real, hi: real): (r: real)
    requires lo <= hi
    ensures lo <= r <= hi
    ensures lo <= x <= hi ==> r == x
    ensures x < lo ==> r == lo
    ensures hi < x ==> r == hi
  {
    Min(Max(x, lo), hi)
  }

  function MinInt(a: int, b: int): (r: int)
    ensures r <= a && r <= b && (r == a || r == b)
  {
    if b < a then b else a
  }

  function MaxInt(a: int, b: int): (r: int)
    ensures a <= r && b <= r && (r == a || r == b)
  {
    if b > a then b else a
  }
}
