/** Feature weights and the two ways the learner finds them (Abbeel & Ng 2004):
    the projection step (section 3.1, steps 2a and 2b) and the max-margin
    quadratic program (section 3, equation 11), whose solver is abstract. */
module Weights {
  import opened Wrappers
  import opened Vectors

  /** A weight vector w and its score t. */
  datatype FeatureWeights = FeatureWeights(weights: Vector, score: real)

  // ---------------------------------------------------------------------------
  // Projection step 2a, scalar form (ApprenticeshipLearning.projectExpertFE)
  // ---------------------------------------------------------------------------

  /** The direction of the step: lastFE - lastProjFE. */
  function Direction(lastFE: Vector, lastProj: Vector): (d: Vector)
    requires |lastFE| == |lastProj|
    ensures |d| == |lastProj|
  {
    Sub(lastFE, lastProj)
  }

  /** A zero direction is exactly lastFE == lastProjFE: the case in which the
      source divides 0 by 0. */
  lemma DirectionZeroIff(lastFE: Vector, lastProj: Vector)
    requires |lastFE| == |lastProj|
    ensures SumSq(Direction(lastFE, lastProj)) == 0.0 <==> lastFE == lastProj
  {
    var d := Direction(lastFE, lastProj);
    SumSqZeroIff(d);
    if lastFE != lastProj {
      var k :| 0 <= k < |lastFE| && lastFE[k] != lastProj[k];
      assert d[k] != 0.0;
    }
  }

  /** The shared coefficient c = (d . (expert - lastProj)) / (d . d). */
  function Coefficient(expert: Vector, lastFE: Vector, lastProj: Vector): real
    requires |expert| == |lastFE| == |lastProj| && lastFE != lastProj
  {
    DirectionZeroIff(lastFE, lastProj);
    Dot(Direction(lastFE, lastProj), Sub(expert, lastProj)) / SumSq(Direction(lastFE, lastProj))
  }

  /** The new projection lastProj + c * d: the foot of the perpendicular from the
      expert's feature expectations to the line through lastProj and lastFE. */
  function ScalarProjection(expert: Vector, lastFE: Vector, lastProj: Vector): (r: Vector)
    requires |expert| == |lastFE| == |lastProj| && lastFE != lastProj
    ensures |r| == |lastProj|
  {
    Add(lastProj, Scale(Coefficient(expert, lastFE, lastProj), Direction(lastFE, lastProj)))
  }

  /** The first loop of projectExpertFE: numerator d . (expert - lastProj) and
      denominator d . d, accumulated coordinate by coordinate. */
  method ProjectionSums(expertFE: Vector, lastFE: Vector, lastProjFE: Vector) returns (num: real, den: real)
    requires |expertFE| == |lastFE| == |lastProjFE|
    ensures num == Dot(Direction(lastFE, lastProjFE), Sub(expertFE, lastProjFE))
    ensures den == SumSq(Direction(lastFE, lastProjFE))
  {
    ghost var d := Direction(lastFE, lastProjFE);
    ghost var toExpert := Sub(expertFE, lastProjFE);
    num, den := 0.0, 0.0;
    var i := 0;
    while i < |lastProjFE|
      invariant 0 <= i <= |lastProjFE|
      invariant num == DotTo(d, toExpert, i) && den == DotTo(d, d, i)
    {
      num := num + (lastFE[i] - lastProjFE[i]) * (expertFE[i] - lastProjFE[i]);
      den := den + (lastFE[i] - lastProjFE[i]) * (lastFE[i] - lastProjFE[i]);
      i := i + 1;
    }
  }

  /** projectExpertFE: the sums, the shared coefficient num / den, then a loop
      that fills the new projection. The 0/0 case (lastFE == lastProjFE) is excluded. */
  method ProjectExpertFE(expertFE: Vector, lastFE: Vector, lastProjFE: Vector) returns (newProj: Vector)
    requires |expertFE| == |lastFE| == |lastProjFE| && lastFE != lastProjFE
    ensures newProj == ScalarProjection(expertFE, lastFE, lastProjFE)
  {
    var num, den := ProjectionSums(expertFE, lastFE, lastProjFE);
    DirectionZeroIff(lastFE, lastProjFE);
    var c := num / den;
    ghost var step := Add(lastProjFE, Scale(c, Direction(lastFE, lastProjFE)));
    var n := |lastProjFE|;
    var out := new real[n];
    var i := 0;
    while i < n
      invariant 0 <= i <= n
      invariant forall k :: 0 <= k < i ==> out[k] == step[k]
    {
      assert step[i] == lastProjFE[i] + (lastFE[i] - lastProjFE[i]) * c;
      out[i] := lastProjFE[i] + (lastFE[i] - lastProjFE[i]) * c;
      i := i + 1;
    }
    newProj := out[..];
  }

  lemma DivCancel(num: real, den: real)
    requires den != 0.0
    ensures num - (num / den) * den == 0.0
  {
  }

  lemma ResidualForm(expert: Vector, lastFE: Vector, lastProj: Vector)
    requires |expert| == |lastFE| == |lastProj| && lastFE != lastProj
    ensures Sub(expert, ScalarProjection(expert, lastFE, lastProj))
         == Sub(Sub(expert, lastProj), Scale(Coefficient(expert, lastFE, lastProj), Direction(lastFE, lastProj)))
  {
  }

  /** The residual expert - newProj is orthogonal to the direction of the step. */
  lemma ProjectionOrthogonal(expert: Vector, lastFE: Vector, lastProj: Vector)
    requires |expert| == |lastFE| == |lastProj| && lastFE != lastProj
    ensures Dot(Sub(expert, ScalarProjection(expert, lastFE, lastProj)), Direction(lastFE, lastProj)) == 0.0
  {
    var n := |lastProj|;
    var d := Direction(lastFE, lastProj);
    var c := Coefficient(expert, lastFE, lastProj);
    var toExpert := Sub(expert, lastProj);
    ResidualForm(expert, lastFE, lastProj);
    DotToSub(toExpert, Scale(c, d), d, n);
    DotToScale(c, d, d, n);
    DotToSymmetric(toExpert, d, n);
    DirectionZeroIff(lastFE, lastProj);
    var num, den := DotTo(d, toExpert, n), DotTo(d, d, n);
    assert c == num / den;
    DivCancel(num, den);
  }

  /** When the expert already lies on the line, the projection returns it. */
  lemma ProjectionOfPointOnLine(expert: Vector, lastFE: Vector, lastProj: Vector, k: real)
    requires |expert| == |lastFE| == |lastProj| && lastFE != lastProj
    requires expert == Add(lastProj, Scale(k, Direction(lastFE, lastProj)))
    ensures ScalarProjection(expert, lastFE, lastProj) == expert
  {
    var n := |lastProj|;
    var d := Direction(lastFE, lastProj);
    assert Sub(expert, lastProj) == Scale(k, d);
    DotToScale(k, d, d, n);
    DotToSymmetric(Scale(k, d), d, n);
    DirectionZeroIff(lastFE, lastProj);
    var den := DotTo(d, d, n);
    assert DotTo(d, Sub(expert, lastProj), n) == k * den;
    CancelQuotient(k, den);
    assert Coefficient(expert, lastFE, lastProj) == k;
  }

  lemma CancelQuotient(k: real, q: real)
    requires q != 0.0
    ensures (k * q) / q == k
  {
  }

  /** c * num >= 0 for c = num / den with den > 0. */
  lemma QuotientTimesNumerator(num: real, den: real, c: real)
    requires 0.0 < den && c == num / den
    ensures 0.0 <= c * num
  {
    assert num == c * den;
    if c < 0.0 {
      assert num < 0.0;
    } else if c > 0.0 {
      assert num > 0.0;
    }
  }

  /** The new projection is no farther from the expert than the previous one
      (Pythagoras: the residual is orthogonal to the step), so the projection
      method's score never grows from one iteration to the next. */
  lemma ProjectionNoFarther(expert: Vector, lastFE: Vector, lastProj: Vector)
    requires |expert| == |lastFE| == |lastProj| && lastFE != lastProj
    ensures SumSq(Sub(expert, ScalarProjection(expert, lastFE, lastProj))) <= SumSq(Sub(expert, lastProj))
  {
    var n := |lastProj|;
    var d := Direction(lastFE, lastProj);
    var c := Coefficient(expert, lastFE, lastProj);
    var t := Sub(expert, lastProj);
    var r := Sub(expert, ScalarProjection(expert, lastFE, lastProj));
    ResidualForm(expert, lastFE, lastProj);
    assert r == Sub(t, Scale(c, d));
    // r . r = t . r - c (d . r), and d . r = 0
    DotToSub(t, Scale(c, d), r, n);
    DotToScale(c, d, r, n);
    ProjectionOrthogonal(expert, lastFE, lastProj);
    DotToSymmetric(d, r, n);
    assert DotTo(r, r, n) == DotTo(t, r, n);
    // t . r = t . t - c (d . t)
    DotToSymmetric(t, r, n);
    DotToSub(t, Scale(c, d), t, n);
    DotToScale(c, d, t, n);
    assert DotTo(r, r, n) == DotTo(t, t, n) - c * DotTo(d, t, n);
    DirectionZeroIff(lastFE, lastProj);
    DotToNonNeg(d, n);
    QuotientTimesNumerator(DotTo(d, t, n), DotTo(d, d, n), c);
  }

  // ---------------------------------------------------------------------------
  // Projection step 2a, per-coordinate form (FeatureWeights.projectExpertFE)
  // ---------------------------------------------------------------------------

  /** Every coordinate moves: lastFE[i] != lastProjFE[i] (otherwise that
      coordinate divides 0 by 0). */
  predicate AllCoordinatesMove(lastFE: Vector, lastProj: Vector)
    requires |lastFE| == |lastProj|
  {
    forall i :: 0 <= i < |lastProj| ==> lastFE[i] != lastProj[i]
  }

  /** The coordinate formula p + d * (d * (e - p)) / (d * d) with d = f - p, a
      coefficient of its own for every coordinate. The factor d is passed twice
      (d and d2, always equal) so that the solver treats d * d as a product of two
      factors. */
  function CoordinateStep(e: real, p: real, d: real, d2: real): real
    requires d == d2 && d != 0.0
  {
    NonZeroSquare(d, d2);
    p + d * (d2 * (e - p)) / (d * d2)
  }

  function PerCoordinateProjection(expert: Vector, lastFE: Vector, lastProj: Vector): (r: Vector)
    requires |expert| == |lastFE| == |lastProj| && AllCoordinatesMove(lastFE, lastProj)
    ensures |r| == |lastProj|
  {
    seq(|lastProj|, i requires 0 <= i < |lastProj| => CoordinateStep(expert[i], lastProj[i], lastFE[i] - lastProj[i], lastFE[i] - lastProj[i]))
  }

  method ProjectExpertFEPerCoordinate(expertFE: Vector, lastFE: Vector, lastProjFE: Vector)
    returns (newProj: Vector)
    requires |expertFE| == |lastFE| == |lastProjFE| && AllCoordinatesMove(lastFE, lastProjFE)
    ensures newProj == PerCoordinateProjection(expertFE, lastFE, lastProjFE)
  {
    var n := |lastProjFE|;
    var out := new real[n];
    var i := 0;
    while i < n
      invariant 0 <= i <= n
      invariant forall k :: 0 <= k < i ==>
        out[k] == CoordinateStep(expertFE[k], lastProjFE[k], lastFE[k] - lastProjFE[k], lastFE[k] - lastProjFE[k])
    {
      var d := lastFE[i] - lastProjFE[i];
      out[i] := CoordinateStep(expertFE[i], lastProjFE[i], d, d);
      i := i + 1;
    }
    newProj := out[..];
  }

  lemma NonZeroSquare(d: real, d2: real)
    requires d == d2 && d != 0.0
    ensures d * d2 != 0.0
  {
  }

  lemma CoordinateStepCancels(p: real, e: real, d: real, d2: real)
    requires d == d2 && d != 0.0
    ensures CoordinateStep(e, p, d, d2) == e
  {
    NonZeroSquare(d, d2);
    assert d * (d2 * (e - p)) == (d * d2) * (e - p);
    CancelQuotient(e - p, d * d2);
  }

  /** In exact arithmetic every moving coordinate lands on the expert's value:
      the per-coordinate projection is the expert's feature expectations. */
  lemma PerCoordinateIsExpert(expert: Vector, lastFE: Vector, lastProj: Vector)
    requires |expert| == |lastFE| == |lastProj| && AllCoordinatesMove(lastFE, lastProj)
    ensures PerCoordinateProjection(expert, lastFE, lastProj) == expert
  {
    forall i | 0 <= i < |lastProj|
      ensures PerCoordinateProjection(expert, lastFE, lastProj)[i] == expert[i]
    {
      var d := lastFE[i] - lastProj[i];
      CoordinateStepCancels(lastProj[i], expert[i], d, d);
    }
  }

  /** The two forms differ: expert (1, 0), lastProj (0, 0), lastFE (1, 1) give
      (0.5, 0.5) with the shared coefficient and (1, 0) coordinate by coordinate. */
  lemma ProjectionsDiffer()
    ensures ScalarProjection([1.0, 0.0], [1.0, 1.0], [0.0, 0.0]) == [0.5, 0.5]
    ensures PerCoordinateProjection([1.0, 0.0], [1.0, 1.0], [0.0, 0.0]) == [1.0, 0.0]
  {
    var e, f, p := [1.0, 0.0], [1.0, 1.0], [0.0, 0.0];
    var d := Direction(f, p);
    assert d == [1.0, 1.0];
    assert Sub(e, p) == [1.0, 0.0];
    assert DotTo(d, Sub(e, p), 1) == 1.0;
    assert Dot(d, Sub(e, p)) == 1.0;
    assert DotTo(d, d, 1) == 1.0;
    assert SumSq(d) == 2.0;
    assert Coefficient(e, f, p) == 0.5;
    PerCoordinateIsExpert(e, f, p);
  }

  // ---------------------------------------------------------------------------
  // Projection step 2b (getWeightsProjectionMethod, both classes)
  // ---------------------------------------------------------------------------

  /** root is the non-negative square root on the non-negative reals (Math.sqrt). */
  ghost predicate IsSqrt(root: real -> real) {
    forall x :: 0.0 <= x ==> 0.0 <= root(x) && root(x) * root(x) == x
  }

  lemma RootOfZero(root: real -> real)
    requires IsSqrt(root)
    ensures root(0.0) == 0.0
  {
    var r := root(0.0);
    if r != 0.0 {
      SquareBelow(r, r, 0.0);
    }
  }

  /** The first loop of getWeightsProjectionMethod: the entrywise difference. */
  method Difference(a: Vector, b: Vector) returns (d: Vector)
    requires |a| == |b|
    ensures d == Sub(a, b)
  {
    var w := new real[|a|];
    var i := 0;
    while i < |a|
      invariant 0 <= i <= |a|
      invariant forall k :: 0 <= k < i ==> w[k] == a[k] - b[k]
    {
      w[i] := a[i] - b[i];
      i := i + 1;
    }
    d := w[..];
  }

  /** The second loop of getWeightsProjectionMethod: the sum of squares. */
  method SquaredLength(w: Vector) returns (sq: real)
    ensures sq == SumSq(w)
  {
    sq := 0.0;
    var i := 0;
    while i < |w|
      invariant 0 <= i <= |w|
      invariant sq == DotTo(w, w, i)
    {
      sq := sq + w[i] * w[i];
      i := i + 1;
    }
  }

  /** weights = expert - newProj; score = the Euclidean length of the weights.
      The score vanishes exactly when the projection has reached the expert. */
  method GetWeightsProjectionMethod(expertFE: Vector, newProjFE: Vector, root: real -> real)
    returns (fw: FeatureWeights)
    requires |expertFE| == |newProjFE| && IsSqrt(root)
    ensures fw.weights == Sub(expertFE, newProjFE)
    ensures 0.0 <= fw.score && fw.score * fw.score == SumSq(fw.weights)
    ensures fw.score == 0.0 <==> expertFE == newProjFE
  {
    var weights := Difference(expertFE, newProjFE);
    var sq := SquaredLength(weights);
    SumSqNonNeg(weights);
    var score := root(sq);
    fw := FeatureWeights(weights, score);
    ScoreZeroIff(expertFE, newProjFE, root);
  }

  lemma ScoreZeroIff(expert: Vector, proj: Vector, root: real -> real)
    requires |expert| == |proj| && IsSqrt(root)
    ensures root(SumSq(Sub(expert, proj))) == 0.0 <==> expert == proj
  {
    var w := Sub(expert, proj);
    SumSqNonNeg(w);
    SumSqZeroIff(w);
    RootOfZero(root);
    if expert != proj {
      var k :| 0 <= k < |proj| && expert[k] != proj[k];
      assert w[k] != 0.0;
    }
  }

  // ---------------------------------------------------------------------------
  // Max-margin quadratic program (ApprenticeshipLearning.solveFeatureWeights)
  // Variables x = (w_0 .. w_{n-1}, t).
  // ---------------------------------------------------------------------------

  /** q . x + r */
  datatype LinearFn = LinearFn(q: Vector, r: real)
  /** (1/2) x^T P x + q . x + r, q possibly null */
  datatype QuadraticFn = QuadraticFn(p: seq<Vector>, q: Option<Vector>, r: real)
  /** An optimisation request: minimise the objective subject to every linear
      constraint and the quadratic constraint being <= 0 (and A x = b when set). */
  datatype QpProblem = QpProblem(
    objective: LinearFn,
    constraints: seq<LinearFn>,
    quadratic: QuadraticFn,
    equalityA: Option<seq<Vector>>,
    equalityB: Option<Vector>,
    checkKkt: bool,
    tolerance: real,
    toleranceFeas: real)

  const SolverTolerance: real := 0.000000000001

  /** The objective: minimise -t (maximise the margin t). */
  function MarginObjective(n: nat): (f: LinearFn)
    ensures |f.q| == n + 1 && f.q[n] == -1.0 && f.r == 0.0
    ensures forall i :: 0 <= i < n ==> f.q[i] == 0.0
  {
    LinearFn(Zeros(n) + [-1.0], 0.0)
  }

  /** The constraint of one earlier policy's feature expectations u:
      (u - uE) . w + t + 1 <= 0. Coordinates past |u| stay 0. */
  function MarginConstraint(expert: Vector, u: Vector): (f: LinearFn)
    requires |u| <= |expert|
    ensures |f.q| == |expert| + 1 && f.q[|expert|] == 1.0 && f.r == 1.0
    ensures forall i :: 0 <= i < |u| ==> f.q[i] == u[i] - expert[i]
    ensures forall i :: |u| <= i < |expert| ==> f.q[i] == 0.0
  {
    var n := |expert|;
    LinearFn(seq(n + 1, i requires 0 <= i <= n => if i == n then 1.0 else if i < |u| then u[i] - expert[i] else 0.0), 1.0)
  }

  /** The identity of size n+1 with its last diagonal entry cleared, so that
      x^T P x = |w|^2. */
  function IdentityWithoutLast(n: nat): (m: seq<Vector>)
    ensures |m| == n + 1 && forall i :: 0 <= i <= n ==> |m[i]| == n + 1
  {
    seq(n + 1, i => seq(n + 1, k => if i == k && i < n then 1.0 else 0.0))
  }

  /** The whole request that the source hands to the solver. */
  function MaxMarginProblem(expert: Vector, history: seq<Vector>): (p: QpProblem)
    requires forall j :: 0 <= j < |history| ==> |history[j]| <= |expert|
    ensures |p.constraints| == |history|
  {
    QpProblem(
      MarginObjective(|expert|),
      seq(|history|, j requires 0 <= j < |history| => MarginConstraint(expert, history[j])),
      QuadraticFn(IdentityWithoutLast(|expert|), None, -0.5),
      None, None, false, SolverTolerance, SolverTolerance)
  }

  /** The assembly loops of solveFeatureWeights. */
  method AssembleMaxMarginProblem(expert: Vector, history: seq<Vector>) returns (p: QpProblem)
    requires forall j :: 0 <= j < |history| ==> |history[j]| <= |expert|
    ensures p == MaxMarginProblem(expert, history)
  {
    var n := |expert|;
    var objectiveArray := new real[n + 1](_ => 0.0);
    objectiveArray[n] := -1.0;
    var objective := objectiveArray[..];
    var constraints: seq<LinearFn> := [];
    var j := 0;
    while j < |history|
      invariant 0 <= j <= |history|
      invariant constraints == seq(j, k requires 0 <= k < j => MarginConstraint(expert, history[k]))
    {
      var u := history[j];
      var difference := new real[n + 1](_ => 0.0);
      var i := 0;
      while i < |u|
        invariant 0 <= i <= |u|
        invariant forall k :: 0 <= k < i ==> difference[k] == u[k] - expert[k]
        invariant forall k :: i <= k <= n ==> difference[k] == 0.0
      {
        difference[i] := u[i] - expert[i];
        i := i + 1;
      }
      difference[n] := 1.0;
      assert difference[..] == MarginConstraint(expert, u).q;
      constraints := constraints + [LinearFn(difference[..], 1.0)];
      j := j + 1;
    }
    assert objective == MarginObjective(n).q;
    p := QpProblem(LinearFn(objective, 0.0), constraints,
                   QuadraticFn(IdentityWithoutLast(n), None, -0.5),
                   None, None, false, SolverTolerance, SolverTolerance);
  }

  function LinearValue(f: LinearFn, x: Vector): real
    requires |f.q| == |x|
  {
    Dot(f.q, x) + f.r
  }

  /** sum over i < m of x[i] * (P[i] . x) */
  function QuadForm(p: seq<Vector>, x: Vector, m: nat): real
    requires m <= |p| && m <= |x| && forall i :: 0 <= i < |p| ==> |p[i]| == |x|
  {
    if m == 0 then 0.0 else QuadForm(p, x, m - 1) + x[m - 1] * Dot(p[m - 1], x)
  }

  function QuadraticValue(f: QuadraticFn, x: Vector): real
    requires |f.p| == |x| && forall i :: 0 <= i < |f.p| ==> |f.p[i]| == |x|
    requires f.q.Some? ==> |f.q.value| == |x|
  {
    0.5 * QuadForm(f.p, x, |x|) + (if f.q.Some? then Dot(f.q.value, x) else 0.0) + f.r
  }

  /** A x = b, when the request sets both A and b. */
  predicate EqualitiesHold(p: QpProblem, x: Vector) {
    p.equalityA.Some? && p.equalityB.Some? ==>
      |p.equalityA.value| == |p.equalityB.value| &&
      forall i :: 0 <= i < |p.equalityA.value| ==>
        |p.equalityA.value[i]| == |x| && Dot(p.equalityA.value[i], x) == p.equalityB.value[i]
  }

  /** x satisfies every constraint of the request. */
  predicate Feasible(p: QpProblem, x: Vector) {
    && |x| == |p.objective.q|
    && (forall j :: 0 <= j < |p.constraints| ==> |p.constraints[j].q| == |x| && LinearValue(p.constraints[j], x) <= 0.0)
    && |p.quadratic.p| == |x| && (forall i :: 0 <= i < |x| ==> |p.quadratic.p[i]| == |x|)
    && (p.quadratic.q.Some? ==> |p.quadratic.q.value| == |x|)
    && QuadraticValue(p.quadratic, x) <= 0.0
    && EqualitiesHold(p, x)
  }

  lemma {:induction false} IdentityRowDot(n: nat, i: nat, x: Vector, m: nat)
    requires i <= n && |x| == n + 1 && m <= n + 1
    ensures DotTo(IdentityWithoutLast(n)[i], x, m) == if i < m && i < n then x[i] else 0.0
  {
    if m > 0 {
      IdentityRowDot(n, i, x, m - 1);
    }
  }

  lemma {:induction false} IdentityQuadForm(n: nat, x: Vector, m: nat)
    requires |x| == n + 1 && m <= n
    ensures QuadForm(IdentityWithoutLast(n), x, m) == DotTo(x, x, m)
  {
    if m > 0 {
      IdentityQuadForm(n, x, m - 1);
      IdentityRowDot(n, m - 1, x, n + 1);
    }
  }

  /** With P the identity without its last entry, (1/2) x^T P x is half the squared
      length of the weight part of x. */
  lemma IdentityQuadFormFull(n: nat, x: Vector)
    requires |x| == n + 1
    ensures QuadForm(IdentityWithoutLast(n), x, n + 1) == SumSq(x[..n])
  {
    IdentityQuadForm(n, x, n);
    IdentityRowDot(n, n, x, n + 1);
    DotToPrefix(x, x, x[..n], x[..n], n);
  }

  /** The linear part of the margin constraint of u, for |u| = n. */
  lemma MarginConstraintValue(expert: Vector, u: Vector, x: Vector)
    requires |u| == |expert| && |x| == |expert| + 1
    ensures LinearValue(MarginConstraint(expert, u), x) == x[|expert|] + 1.0 - Dot(Sub(expert, u), x[..|expert|])
  {
    var n := |expert|;
    var q := MarginConstraint(expert, u).q;
    var w := x[..n];
    assert q[..n] == Sub(u, expert)[..n];
    assert x[..n] == w[..n];
    DotToPrefix(q, x, Sub(u, expert), w, n);
    DotToSub(u, expert, w, n);
    DotToSub(expert, u, w, n);
  }

  /** What a feasible point of the max-margin request means: the weights have
      length at most 1, and the margin t is at most (uE - u_j) . w - 1 for every
      earlier policy j. */
  lemma MaxMarginFeasibleMeaning(expert: Vector, history: seq<Vector>, x: Vector)
    requires forall j :: 0 <= j < |history| ==> |history[j]| == |expert|
    requires Feasible(MaxMarginProblem(expert, history), x)
    ensures SumSq(x[..|expert|]) <= 1.0
    ensures forall j :: 0 <= j < |history| ==>
      x[|expert|] <= Dot(Sub(expert, history[j]), x[..|expert|]) - 1.0
  {
    var n := |expert|;
    var p := MaxMarginProblem(expert, history);
    IdentityQuadFormFull(n, x);
    assert QuadraticValue(p.quadratic, x) == 0.5 * SumSq(x[..n]) - 0.5;
    forall j | 0 <= j < |history|
      ensures x[n] <= Dot(Sub(expert, history[j]), x[..n]) - 1.0
    {
      assert p.constraints[j] == MarginConstraint(expert, history[j]);
      MarginConstraintValue(expert, history[j], x);
    }
  }

  /** When the expert's own feature expectations are in the history, every
      feasible margin is at most -1. */
  lemma ExpertInHistoryMargin(expert: Vector, history: seq<Vector>, x: Vector)
    requires forall j :: 0 <= j < |history| ==> |history[j]| == |expert|
    requires expert in history
    requires Feasible(MaxMarginProblem(expert, history), x)
    ensures x[|expert|] <= -1.0
  {
    var j :| 0 <= j < |history| && history[j] == expert;
    MaxMarginFeasibleMeaning(expert, history, x);
    DotToZeroLeft(Sub(expert, expert), x[..|expert|], |expert|);
  }

  /** Splits the solver's solution into the weights (its first n entries) and the
      score (entry n). */
  function SplitSolution(solution: Vector, n: nat): (fw: FeatureWeights)
    requires |solution| == n + 1
    ensures |fw.weights| == n
  {
    FeatureWeights(solution[..n], solution[n])
  }

  /** Splitting undoes the packing x = (w, t). */
  lemma SplitPacked(w: Vector, t: real)
    ensures SplitSolution(w + [t], |w|) == FeatureWeights(w, t)
  {
    assert (w + [t])[..|w|] == w;
  }

  /** The solver's answer to request p on call number attempt. The two
      assumptions below are stated about it rather than about qp directly, so
      that only a caller that names the answer puts them to use. */
  function Answer(qp: (QpProblem, nat) -> Option<Vector>, p: QpProblem, attempt: nat): Option<Vector> {
    qp(p, attempt)
  }

  /** Every solution the solver returns has one entry per variable. */
  ghost predicate SolutionsFit(qp: (QpProblem, nat) -> Option<Vector>) {
    forall p, attempt :: Answer(qp, p, attempt).Some? ==> |Answer(qp, p, attempt).value| == |p.objective.q|
  }

  /** Every solution the solver returns is feasible. */
  ghost predicate SolverSound(qp: (QpProblem, nat) -> Option<Vector>) {
    forall p, attempt :: Answer(qp, p, attempt).Some? ==> Feasible(p, Answer(qp, p, attempt).value)
  }

  /** fw is the solver's answer, on call number attempt, to the max-margin
      request for the expert and the history, split into weights and score. */
  predicate SolverSplit(qp: (QpProblem, nat) -> Option<Vector>, expert: Vector, history: seq<Vector>,
                        attempt: nat, fw: FeatureWeights)
  {
    (forall j :: 0 <= j < |history| ==> |history[j]| <= |expert|) &&
    var answer := qp(MaxMarginProblem(expert, history), attempt);
    answer.Some? && |answer.value| == |expert| + 1 && fw == SplitSolution(answer.value, |expert|)
  }

  /** solveFeatureWeights: assemble the request, run the solver (attempt numbers
      the calls, since the solver may fail on one call and succeed on another),
      and split its solution; a solver failure (an exception) gives null. */
  method SolveFeatureWeights(expert: Vector, history: seq<Vector>, qp: (QpProblem, nat) -> Option<Vector>, attempt: nat)
    returns (fw: Option<FeatureWeights>)
    requires forall j :: 0 <= j < |history| ==> |history[j]| == |expert|
    requires SolutionsFit(qp) && SolverSound(qp)
    ensures fw.None? <==> qp(MaxMarginProblem(expert, history), attempt).None?
    ensures fw.Some? ==> SolverSplit(qp, expert, history, attempt, fw.value)
    ensures fw.Some? ==> |fw.value.weights| == |expert| && SumSq(fw.value.weights) <= 1.0
    ensures fw.Some? ==> forall j :: 0 <= j < |history| ==>
      fw.value.score <= Dot(Sub(expert, history[j]), fw.value.weights) - 1.0
  {
    var problem := AssembleMaxMarginProblem(expert, history);
    var response := Answer(qp, problem, attempt);
    if response.None? {
      return None;
    }
    var solution := response.value;
    MaxMarginFeasibleMeaning(expert, history, solution);
    fw := Some(SplitSolution(solution, |expert|));
  }

  // ---------------------------------------------------------------------------
  // FeatureWeights.solveFeatureWeights as written
  // ---------------------------------------------------------------------------

  /** The request FeatureWeights.solveFeatureWeights builds once its difference
      loop stays in range: the objective and the margin constraints of the
      max-margin request, but the quadratic constraint has constant -1 (with the
      factor 1/2 that bounds |w|^2 by 2, not 1), the KKT accuracy check is on, and
      A x = b is set with A and b all zeros. */
  function FeatureWeightsProblem(expert: Vector, history: seq<Vector>): (p: QpProblem)
    requires forall j :: 0 <= j < |history| ==> |history[j]| <= |expert|
    ensures p.objective == MaxMarginProblem(expert, history).objective
    ensures p.constraints == MaxMarginProblem(expert, history).constraints
    ensures p.quadratic == MaxMarginProblem(expert, history).quadratic.(r := -1.0)
    ensures p.checkKkt && !MaxMarginProblem(expert, history).checkKkt
  {
    var n := |expert|;
    QpProblem(
      MarginObjective(n),
      seq(|history|, j requires 0 <= j < |history| => MarginConstraint(expert, history[j])),
      QuadraticFn(IdentityWithoutLast(n), None, -1.0),
      Some(seq(n + 1, _ => Zeros(n + 1))), Some(Zeros(n + 1)), true, SolverTolerance, SolverTolerance)
  }

  /** What a feasible point of FeatureWeights' request means: the zero equalities
      hold for every x, the weights have squared length at most 2, and the margin
      constraints are those of the max-margin request. */
  lemma FeatureWeightsFeasibleMeaning(expert: Vector, history: seq<Vector>, x: Vector)
    requires forall j :: 0 <= j < |history| ==> |history[j]| == |expert|
    ensures Feasible(FeatureWeightsProblem(expert, history), x) <==>
      |x| == |expert| + 1 && SumSq(x[..|expert|]) <= 2.0 &&
      forall j :: 0 <= j < |history| ==> x[|expert|] <= Dot(Sub(expert, history[j]), x[..|expert|]) - 1.0
  {
    var n := |expert|;
    var p := FeatureWeightsProblem(expert, history);
    if |x| == n + 1 {
      IdentityQuadFormFull(n, x);
      assert QuadraticValue(p.quadratic, x) == 0.5 * SumSq(x[..n]) - 1.0;
      forall i | 0 <= i < n + 1
        ensures Dot(p.equalityA.value[i], x) == p.equalityB.value[i]
      {
        DotToZeroLeft(p.equalityA.value[i], x, n + 1);
      }
      forall j | 0 <= j < |history|
        ensures LinearValue(p.constraints[j], x) == x[n] + 1.0 - Dot(Sub(expert, history[j]), x[..n])
      {
        assert p.constraints[j] == MarginConstraint(expert, history[j]);
        MarginConstraintValue(expert, history[j], x);
      }
    }
  }

  /** Every feasible point of the max-margin request is feasible for
      FeatureWeights' request. */
  lemma MaxMarginInsideFeatureWeights(expert: Vector, history: seq<Vector>, x: Vector)
    requires forall j :: 0 <= j < |history| ==> |history[j]| == |expert|
    requires Feasible(MaxMarginProblem(expert, history), x)
    ensures Feasible(FeatureWeightsProblem(expert, history), x)
  {
    MaxMarginFeasibleMeaning(expert, history, x);
    FeatureWeightsFeasibleMeaning(expert, history, x);
  }

  /** The inclusion is strict: with one feature and no history, w = (1.25), t = 0
      is feasible for FeatureWeights' request but not for the max-margin one. */
  lemma FeatureWeightsWiderNorm()
    ensures Feasible(FeatureWeightsProblem([0.0], []), [1.25, 0.0])
    ensures !Feasible(MaxMarginProblem([0.0], []), [1.25, 0.0])
  {
    var x := [1.25, 0.0];
    assert x[..1] == [1.25];
    assert SumSq([1.25]) == 1.5625;
    FeatureWeightsFeasibleMeaning([0.0], [], x);
    if Feasible(MaxMarginProblem([0.0], []), x) {
      MaxMarginFeasibleMeaning([0.0], [], x);
      assert false;
    }
  }

  /** The assembly of FeatureWeights.solveFeatureWeights: its difference loop runs
      over all n+1 entries and so reads entry n of vectors of length n, and the
      request is never optimised, so the response it reads is null. */
  method SolveFeatureWeightsAsWritten(expert: Vector, history: seq<Vector>) returns (r: Result<FeatureWeights, JavaError>)
    ensures r == if |history| > 0 then Failure(IndexOutOfBounds) else Failure(NullPointer)
  {
    var n := |expert|;
    if |history| > 0 {
      // The first history entry already fails: the loop runs to i = n, and the
      // first index i that is out of range for u or for the expert is at most n.
      var u := history[0];
      var difference := new real[n + 1];
      var i := 0;
      while i < n + 1 && i < |u| && i < |expert|
        invariant 0 <= i <= |u| && i <= n
        invariant forall k :: 0 <= k < i ==> difference[k] == u[k] - expert[k]
      {
        difference[i] := u[i] - expert[i];
        i := i + 1;
      }
      // entry i of u or of the expert, read next, does not exist
      assert i < n + 1 && (i == |u| || i == |expert|);
      return Failure(IndexOutOfBounds);
    }
    // getOptimizationResponse() without optimize(): the response is null.
    return Failure(NullPointer);
  }
}
