/** Exact real-vector arithmetic used by the feature-expectation code:
    discount powers, sums, differences, dot products and squared norms. */
module Vectors {

  type Vector = seq<real>

  /** gamma^t, the discount applied at time step t (Math.pow with a natural exponent). */
  function Pow(g: real, t: nat): (r: real)
    ensures 0.0 <= g ==> 0.0 <= r
  {
    if t == 0 then 1.0 else g * Pow(g, t - 1)
  }

  /** The geometric sum of gamma^t over t < n: the largest discounted count an
      episode of n steps can give one feature. */
  function GeomSum(g: real, n: nat): (r: real)
    ensures 0.0 <= g ==> 0.0 <= r
  {
    if n == 0 then 0.0 else GeomSum(g, n - 1) + Pow(g, n - 1)
  }

  lemma {:induction false} GeomSumMonotone(g: real, m: nat, n: nat)
    requires 0.0 <= g && m <= n
    ensures GeomSum(g, m) <= GeomSum(g, n)
  {
    if m < n {
      GeomSumMonotone(g, m, n - 1);
    }
  }

  /** Sum of the first n entries. */
  function SumTo(s: Vector, n: nat): real
    requires n <= |s|
  {
    if n == 0 then 0.0 else SumTo(s, n - 1) + s[n - 1]
  }

  function Sum(s: Vector): real {
    SumTo(s, |s|)
  }

  function Zeros(n: nat): (r: Vector)
    ensures |r| == n && forall i :: 0 <= i < n ==> r[i] == 0.0
  {
    seq(n, i => 0.0)
  }

  function Sub(a: Vector, b: Vector): (r: Vector)
    requires |a| == |b|
    ensures |r| == |a| && forall i :: 0 <= i < |a| ==> r[i] == a[i] - b[i]
  {
    seq(|a|, i requires 0 <= i < |a| => a[i] - b[i])
  }

  function Add(a: Vector, b: Vector): (r: Vector)
    requires |a| == |b|
    ensures |r| == |a| && forall i :: 0 <= i < |a| ==> r[i] == a[i] + b[i]
  {
    seq(|a|, i requires 0 <= i < |a| => a[i] + b[i])
  }

  function Scale(c: real, a: Vector): (r: Vector)
    ensures |r| == |a| && forall i :: 0 <= i < |a| ==> r[i] == c * a[i]
  {
    seq(|a|, i requires 0 <= i < |a| => c * a[i])
  }

  /** Dot product of the first n coordinates. */
  function DotTo(a: Vector, b: Vector, n: nat): real
    requires n <= |a| && n <= |b|
  {
    if n == 0 then 0.0 else DotTo(a, b, n - 1) + a[n - 1] * b[n - 1]
  }

  function Dot(a: Vector, b: Vector): real
    requires |a| == |b|
  {
    DotTo(a, b, |a|)
  }

  /** The squared Euclidean norm. */
  function SumSq(a: Vector): real {
    DotTo(a, a, |a|)
  }

  lemma {:induction false} DotToSymmetric(a: Vector, b: Vector, n: nat)
    requires n <= |a| && n <= |b|
    ensures DotTo(a, b, n) == DotTo(b, a, n)
  {
    if n > 0 {
      DotToSymmetric(a, b, n - 1);
    }
  }

  lemma {:induction false} DotToSub(a: Vector, b: Vector, d: Vector, n: nat)
    requires |a| == |b| && n <= |a| && n <= |d|
    ensures DotTo(Sub(a, b), d, n) == DotTo(a, d, n) - DotTo(b, d, n)
  {
    if n > 0 {
      DotToSub(a, b, d, n - 1);
      assert Sub(a, b)[n - 1] * d[n - 1] == a[n - 1] * d[n - 1] - b[n - 1] * d[n - 1];
    }
  }

  lemma {:induction false} DotToScale(c: real, a: Vector, d: Vector, n: nat)
    requires n <= |a| && n <= |d|
    ensures DotTo(Scale(c, a), d, n) == c * DotTo(a, d, n)
  {
    if n > 0 {
      DotToScale(c, a, d, n - 1);
      assert Scale(c, a)[n - 1] * d[n - 1] == c * (a[n - 1] * d[n - 1]);
    }
  }

  /** DotTo reads only the first n coordinates of its arguments. */
  lemma {:induction false} DotToPrefix(a: Vector, b: Vector, a2: Vector, b2: Vector, n: nat)
    requires n <= |a| && n <= |b| && n <= |a2| && n <= |b2|
    requires a[..n] == a2[..n] && b[..n] == b2[..n]
    ensures DotTo(a, b, n) == DotTo(a2, b2, n)
  {
    if n > 0 {
      assert a[n - 1] == a[..n][n - 1] && a2[n - 1] == a2[..n][n - 1];
      assert b[n - 1] == b[..n][n - 1] && b2[n - 1] == b2[..n][n - 1];
      assert a[..n - 1] == a[..n][..n - 1] && a2[..n - 1] == a2[..n][..n - 1];
      assert b[..n - 1] == b[..n][..n - 1] && b2[..n - 1] == b2[..n][..n - 1];
      DotToPrefix(a, b, a2, b2, n - 1);
    }
  }

  /** A vector whose first n coordinates vanish has dot product 0 with anything. */
  lemma {:induction false} DotToZeroLeft(a: Vector, b: Vector, n: nat)
    requires n <= |a| && n <= |b|
    requires forall i :: 0 <= i < n ==> a[i] == 0.0
    ensures DotTo(a, b, n) == 0.0
  {
    if n > 0 {
      DotToZeroLeft(a, b, n - 1);
    }
  }

  lemma {:induction false} DotToNonNeg(a: Vector, n: nat)
    requires n <= |a|
    ensures 0.0 <= DotTo(a, a, n)
  {
    if n > 0 {
      DotToNonNeg(a, n - 1);
    }
  }

  /** Every squared coordinate of a prefix is a lower bound of its squared norm. */
  lemma {:induction false} DotToAtLeast(a: Vector, n: nat, k: nat)
    requires k < n <= |a|
    ensures a[k] * a[k] <= DotTo(a, a, n)
  {
    if k == n - 1 {
      DotToNonNeg(a, n - 1);
    } else {
      DotToAtLeast(a, n - 1, k);
    }
  }

  lemma {:induction false} DotToZero(a: Vector, n: nat)
    requires n <= |a|
    requires forall i :: 0 <= i < n ==> a[i] == 0.0
    ensures DotTo(a, a, n) == 0.0
  {
    if n > 0 {
      DotToZero(a, n - 1);
    }
  }

  /** A non-zero square below d keeps d away from zero (the two factors are
      passed separately, which keeps the solver on linear ground). */
  lemma SquareBelow(x: real, y: real, d: real)
    requires x == y && x != 0.0 && x * y <= d
    ensures d != 0.0
  {
  }

  lemma SumSqNonNeg(a: Vector)
    ensures 0.0 <= SumSq(a)
  {
    DotToNonNeg(a, |a|);
  }

  /** The squared norm vanishes exactly when every coordinate is zero. */
  lemma SumSqZeroIff(a: Vector)
    ensures SumSq(a) == 0.0 <==> forall i :: 0 <= i < |a| ==> a[i] == 0.0
  {
    if exists k :: 0 <= k < |a| && a[k] != 0.0 {
      var k :| 0 <= k < |a| && a[k] != 0.0;
      DotToAtLeast(a, |a|, k);
      SquareBelow(a[k], a[k], SumSq(a));
    } else {
      DotToZero(a, |a|);
    }
  }
}
