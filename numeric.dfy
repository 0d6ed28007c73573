/** Real arithmetic shared by the evaluators and the smoother: `Math.abs/min/max`,
    sums and means, and the floating-point library functions the source calls. */
module Numeric {

  /** `Math.PI`. */
  const PI: real := 3.141592653589793

  /** `Math.sqrt`, `Math.acos` and `Math.atan`, which the model cannot compute,
      are supplied as total functions on the reals. */
  datatype RealMath = RealMath(sqrt: real -> real, acos: real -> real, atan: real -> real)

  /** The laws of the three library functions that the model relies on. */
  ghost predicate ValidMath(m: RealMath) {
    && (forall x: real :: 0.0 <= x ==> 0.0 <= m.sqrt(x) && (m.sqrt(x) == 0.0 <==> x == 0.0))
    && (forall c: real :: -1.0 <= c <= 1.0 ==> 0.0 <= m.acos(c) <= PI)
    && (forall t: real :: -PI / 2.0 < m.atan(t) < PI / 2.0)
    && m.atan(0.0) == 0.0
  }

  function Abs(x: real): real {
    if x < 0.0 then -x else x
  }

  /** `Math.min`. */
  function Min(a: real, b: real): real {
    if a <= b then a else b
  }

  /** `Math.max`. */
  function Max(a: real, b: real): real {
    if a >= b then a else b
  }

  /** `Math.min(100, Math.max(0, v))`, the clamp every evaluator applies to its score. */
  function ClampPercent(v: real): (r: real)
    ensures 0.0 <= r <= 100.0
    ensures 0.0 <= v <= 100.0 ==> r == v
    ensures v < 0.0 ==> r == 0.0
    ensures v > 100.0 ==> r == 100.0
  {
    Min(100.0, Max(0.0, v))
  }

  /** The score `Math.min(100, Math.max(0, 100 - Math.abs(angle - target)))`:
      it peaks at the target and falls by one point per degree away from it. */
  function TargetScore(angle: real, target: real): (r: real)
    ensures 0.0 <= r <= 100.0
    ensures r == 100.0 <==> angle == target
    ensures Abs(angle - target) <= 100.0 ==> r == 100.0 - Abs(angle - target)
    ensures Abs(angle - target) >= 100.0 ==> r == 0.0
  {
    ClampPercent(100.0 - Abs(angle - target))
  }

  /** The left-to-right sum a `reduce((acc, v) => acc + v, 0)` computes. */
  function Sum(xs: seq<real>): real {
    if xs == [] then 0.0 else xs[0] + Sum(xs[1..])
  }

  /** Sum divided by count; the source only divides by a non-zero length. */
  function Mean(xs: seq<real>): real
    requires |xs| > 0
  {
    Sum(xs) / |xs| as real
  }

  lemma {:induction false} SumBounds(xs: seq<real>, lo: real, hi: real)
    requires forall i :: 0 <= i < |xs| ==> lo <= xs[i] <= hi
    ensures |xs| as real * lo <= Sum(xs) <= |xs| as real * hi
  {
    if xs != [] {
      SumBounds(xs[1..], lo, hi);
      assert (|xs| - 1) as real * lo + lo == |xs| as real * lo;
      assert (|xs| - 1) as real * hi + hi == |xs| as real * hi;
    }
  }

  /** A mean lies in every interval that holds all of its values; in particular
      between the smallest and the largest value, and a mean of equal values is
      that value. */
  lemma MeanBounds(xs: seq<real>, lo: real, hi: real)
    requires |xs| > 0
    requires forall i :: 0 <= i < |xs| ==> lo <= xs[i] <= hi
    ensures lo <= Mean(xs) <= hi
  {
    SumBounds(xs, lo, hi);
    var n := |xs| as real;
    DivBounds(Sum(xs), n, lo, hi);
  }

  lemma DivBounds(s: real, n: real, lo: real, hi: real)
    requires n > 0.0 && n * lo <= s <= n * hi
    ensures lo <= s / n <= hi
  {
    assert s / n * n == s;
  }

  lemma MeanOfConstant(xs: seq<real>, c: real)
    requires |xs| > 0
    requires forall i :: 0 <= i < |xs| ==> xs[i] == c
    ensures Mean(xs) == c
  {
    MeanBounds(xs, c, c);
  }

  /** `x * x`, as the source writes a square. */
  function Sq(a: real): real {
    a * a
  }

  lemma SqFacts(a: real)
    ensures Sq(a) >= 0.0
    ensures a != 0.0 ==> Sq(a) > 0.0
    ensures a == 0.0 ==> Sq(a) == 0.0
  {
    if a > 0.0 {
      calc { Sq(a); == a * a; > 0.0; }
    } else if a < 0.0 {
      calc { Sq(a); == a * a; == (-a) * (-a); > 0.0; }
    } else {
      calc { Sq(a); == a * a; == 0.0 * 0.0; }
    }
  }
}
