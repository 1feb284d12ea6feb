/** The two learning loops of ApprenticeshipLearning (Abbeel & Ng 2004: the
    max-margin method of section 3 and the projection method of section 3.1), the
    request object they read and write, and the dispatch between them.
    Planning a policy for a reward and sampling episodes from it is the rollout
    oracle; the quadratic-program solver is the qp oracle. */
module Apprenticeship {
  import opened Wrappers
  import opened Vectors
  import opened Features
  import opened Estimator
  import opened Weights

  /** The policy a controller holds: the random bootstrap policy, or the policy the
      planner produced for the reward w . phi. */
  datatype PolicyRef = RandomBootstrap | Planned(weights: Vector)

  /** Why a loop ended: the score came within epsilon, every iteration ran, the
      projection step divided 0 by 0 (which the source does not guard and goes on
      with NaN), or the solver returned null (generatePolicyTilde). */
  datatype Stop = Converged | Exhausted | Degenerate | NoSolution

  function Abs(x: real): (r: real)
    ensures 0.0 <= r && (r == x || r == -x)
  {
    if x < 0.0 then -x else x
  }

  // ---------------------------------------------------------------------------
  // Episode bookkeeping shared by the controllers
  // ---------------------------------------------------------------------------

  /** The longest of the first n episodes (0 for none). */
  function MaxLengthTo<S>(episodes: seq<seq<S>>, n: nat): (m: nat)
    requires n <= |episodes|
    ensures forall i :: 0 <= i < n ==> |episodes[i]| <= m
    ensures m == 0 || exists i :: 0 <= i < n && |episodes[i]| == m
  {
    if n == 0 then 0
    else if |episodes[n - 1]| > MaxLengthTo(episodes, n - 1) then |episodes[n - 1]|
    else MaxLengthTo(episodes, n - 1)
  }

  function MaxLength<S>(episodes: seq<seq<S>>): nat {
    MaxLengthTo(episodes, |episodes|)
  }

  /** The loop over the expert episodes that fixes the length of every sampled
      episode: the largest number of time steps of any expert episode. */
  method MaximumEpisodeLength<S>(episodes: seq<seq<S>>) returns (m: nat)
    ensures m == MaxLength(episodes)
    ensures forall i :: 0 <= i < |episodes| ==> |episodes[i]| <= m
    ensures m == 0 || exists i :: 0 <= i < |episodes| && |episodes[i]| == m
  {
    m := 0;
    var i := 0;
    while i < |episodes|
      invariant 0 <= i <= |episodes| && m == MaxLengthTo(episodes, i)
    {
      if |episodes[i]| > m {
        m := |episodes[i]|;
      }
      i := i + 1;
    }
  }

  /** rollout(policy, maxSteps, round, j) is the j-th episode sampled, from a
      freshly generated start state, from policy in round `round` (round 0 is the
      bootstrap). The count sampled episodes of one round: */
  function Sample<S>(rollout: (PolicyRef, nat, nat, nat) -> seq<S>, policy: PolicyRef, maxSteps: nat, round: nat, count: nat): seq<seq<S>> {
    seq(count, (j: int) requires 0 <= j < count => rollout(policy, maxSteps, round, j))
  }

  /** The loop that collects one round of sampled episodes. */
  method SampleEpisodes<S>(rollout: (PolicyRef, nat, nat, nat) -> seq<S>, policy: PolicyRef, maxSteps: nat, round: nat, count: nat)
    returns (episodes: seq<seq<S>>)
    ensures |episodes| == count
    ensures forall j :: 0 <= j < count ==> episodes[j] == rollout(policy, maxSteps, round, j)
    ensures episodes == Sample(rollout, policy, maxSteps, round, count)
  {
    episodes := [];
    var j := 0;
    while j < count
      invariant 0 <= j <= count && |episodes| == j
      invariant forall k :: 0 <= k < j ==> episodes[k] == rollout(policy, maxSteps, round, k)
    {
      episodes := episodes + [rollout(policy, maxSteps, round, j)];
      j := j + 1;
    }
  }

  /** Steps (4) and (5) of both loops: the feature expectations of the policy
      planned for a round, averaged over count sampled episodes. */
  method EvaluatePolicy<S>(rollout: (PolicyRef, nat, nat, nat) -> seq<S>, policy: PolicyRef, maxSteps: nat, round: nat, count: nat,
                           features: seq<PropFn<S>>, gamma: real)
    returns (fe: Vector)
    requires count > 0
    ensures fe == Expected(Sample(rollout, policy, maxSteps, round, count), features, gamma)
  {
    var episodes := SampleEpisodes(rollout, policy, maxSteps, round, count);
    fe := EstimateFeatureExpectation(episodes, features, gamma);
  }

  // ---------------------------------------------------------------------------
  // The request
  // ---------------------------------------------------------------------------

  /** ApprenticeshipLearningRequest: what the controllers read, and the tHistory
      array they hand back through setTHistory. Its source is not part of this
      model; isValid() is the field `valid`. */
  class LearningRequest<!S> {
    const features: seq<PropFn<S>>
    const expertEpisodes: seq<seq<S>>
    const gamma: real
    const epsilon: real
    const maxIterations: nat
    const policyCount: nat
    const usingMaxMargin: bool
    const valid: bool
    var tHistory: array?<real>

    constructor (features: seq<PropFn<S>>, expertEpisodes: seq<seq<S>>, gamma: real, epsilon: real,
                 maxIterations: nat, policyCount: nat, usingMaxMargin: bool, valid: bool)
      ensures this.features == features && this.expertEpisodes == expertEpisodes
      ensures this.gamma == gamma && this.epsilon == epsilon
      ensures this.maxIterations == maxIterations && this.policyCount == policyCount
      ensures this.usingMaxMargin == usingMaxMargin && this.valid == valid
      ensures tHistory == null
    {
      this.features := features;
      this.expertEpisodes := expertEpisodes;
      this.gamma := gamma;
      this.epsilon := epsilon;
      this.maxIterations := maxIterations;
      this.policyCount := policyCount;
      this.usingMaxMargin := usingMaxMargin;
      this.valid := valid;
      tHistory := null;
    }

    /** The expert's feature expectations the controllers aim at. */
    function ExpertFE(): (fe: Vector)
      requires |expertEpisodes| > 0
      ensures |fe| == |features|
    {
      Expected(expertEpisodes, features, gamma)
    }
  }

  // ---------------------------------------------------------------------------
  // Max-margin method (section 3)
  // ---------------------------------------------------------------------------

  /** The solver eventually answers the request p at some call numbered from or later. */
  ghost predicate Solves(qp: (QpProblem, nat) -> Option<Vector>, p: QpProblem, from: nat) {
    exists k :: from <= k && qp(p, k).Some?
  }

  /** Retrying a request always succeeds in the end (otherwise the source's retry
      loop does not terminate). */
  ghost predicate EventuallySolves(qp: (QpProblem, nat) -> Option<Vector>) {
    forall p, from :: Solves(qp, p, from)
  }

  /** The weights have norm at most 1 and the score is at most the margin, minus
      the constraint's constant 1, by which the weights separate the expert from
      each of the first n history entries. */
  predicate MarginFeasible(expert: Vector, history: seq<Vector>, n: nat, fw: FeatureWeights)
    requires n <= |history|
  {
    |fw.weights| == |expert| && SumSq(fw.weights) <= 1.0 &&
    forall j :: 0 <= j < n ==>
      |history[j]| == |expert| && fw.score <= Dot(Sub(expert, history[j]), fw.weights) - 1.0
  }

  /** A solver that answers a repeated request the same way every time, and
      fails on it once, never answers it again: the retry loop of
      maxMarginMethod then runs forever. */
  lemma RetryNeverAnswers(qp: (QpProblem, nat) -> Option<Vector>, p: QpProblem, from: nat)
    requires forall k: nat :: qp(p, k) == qp(p, 0)
    requires qp(p, from).None?
    ensures !Solves(qp, p, from)
    ensures !EventuallySolves(qp)
  {
    assert !Solves(qp, p, from);
  }

  /** The retry loop of maxMarginMethod: call the solver, numbering the calls from
      attempt on, until it answers. The result is the split of the first answer,
      which came from call next - 1. */
  method SolveWithRetry(expert: Vector, history: seq<Vector>, qp: (QpProblem, nat) -> Option<Vector>, attempt: nat)
    returns (fw: FeatureWeights, next: nat)
    requires forall j :: 0 <= j < |history| ==> |history[j]| == |expert|
    requires SolutionsFit(qp) && SolverSound(qp) && EventuallySolves(qp)
    ensures attempt < next
    ensures SolverSplit(qp, expert, history, next - 1, fw)
    ensures forall k :: attempt <= k < next - 1 ==> qp(MaxMarginProblem(expert, history), k).None?
    ensures MarginFeasible(expert, history, |history|, fw)
  {
    var answer: Option<FeatureWeights> := None;
    ghost var problem := MaxMarginProblem(expert, history);
    assert Solves(qp, problem, attempt);
    ghost var bound :| attempt <= bound && qp(problem, bound).Some?;
    next := attempt;
    while answer.None?
      invariant attempt <= next <= bound + 1
      invariant answer.None? ==> next <= bound && forall k :: attempt <= k < next ==> qp(problem, k).None?
      invariant answer.Some? ==> attempt < next && MarginFeasible(expert, history, |history|, answer.value)
      invariant answer.Some? ==> SolverSplit(qp, expert, history, next - 1, answer.value)
      invariant answer.Some? ==> forall k :: attempt <= k < next - 1 ==> qp(problem, k).None?
      decreases bound + 1 - next
    {
      answer := SolveFeatureWeights(expert, history, qp, next);
      next := next + 1;
    }
    fw := answer.value;
  }

  /** Solution k is the solver's answer, on call attempts[k], to the request
      built from the history as it stood at iteration k: its first k+1 entries.
      SolvedRoundsAt states this round by round. */
  predicate SolvedRounds(qp: (QpProblem, nat) -> Option<Vector>, expert: Vector, history: seq<Vector>,
                         solutions: seq<FeatureWeights>, attempts: seq<nat>)
    decreases |solutions|
  {
    |attempts| == |solutions| <= |history| &&
    (|solutions| == 0 ||
     var n := |solutions| - 1;
     SolvedRounds(qp, expert, history, solutions[..n], attempts[..n]) &&
     SolverSplit(qp, expert, history[..n + 1], attempts[n], solutions[n]))
  }

  /** Each solved round k is the split of the solver's answer on call attempts[k]
      to the first k+1 entries of the history. */
  lemma SolvedRoundsAt(qp: (QpProblem, nat) -> Option<Vector>, expert: Vector, history: seq<Vector>,
                       solutions: seq<FeatureWeights>, attempts: seq<nat>, k: nat)
    requires SolvedRounds(qp, expert, history, solutions, attempts) && k < |solutions|
    ensures |attempts| == |solutions| <= |history|
    ensures SolverSplit(qp, expert, history[..k + 1], attempts[k], solutions[k])
    decreases |solutions|
  {
    var n := |solutions| - 1;
    if k < n {
      SolvedRoundsAt(qp, expert, history, solutions[..n], attempts[..n], k);
    }
  }

  /** A new history entry does not change what the earlier solutions answered. */
  lemma {:induction false} SolvedRoundsGrow(qp: (QpProblem, nat) -> Option<Vector>, expert: Vector, history: seq<Vector>,
                                            solutions: seq<FeatureWeights>, attempts: seq<nat>, fe: Vector)
    requires SolvedRounds(qp, expert, history, solutions, attempts)
    ensures SolvedRounds(qp, expert, history + [fe], solutions, attempts)
    decreases |solutions|
  {
    if |solutions| > 0 {
      var n := |solutions| - 1;
      SolvedRoundsGrow(qp, expert, history, solutions[..n], attempts[..n], fe);
      assert (history + [fe])[..n + 1] == history[..n + 1];
    }
  }

  /** The answer to the whole history extends the solved rounds by one. */
  lemma SolvedRoundsAdd(qp: (QpProblem, nat) -> Option<Vector>, expert: Vector, history: seq<Vector>,
                        solutions: seq<FeatureWeights>, attempts: seq<nat>, fw: FeatureWeights, attempt: nat)
    requires SolvedRounds(qp, expert, history, solutions, attempts) && |solutions| + 1 == |history|
    requires SolverSplit(qp, expert, history, attempt, fw)
    ensures SolvedRounds(qp, expert, history, solutions + [fw], attempts + [attempt])
  {
    var n := |solutions|;
    assert (solutions + [fw])[..n] == solutions;
    assert (attempts + [attempt])[..n] == attempts;
    assert history[..n + 1] == history;
  }

  /** Step (2) of an iteration of maxMarginMethod: the retried solver's first
      answer to the whole history is the next solved round. */
  method SolveRound(expert: Vector, history: seq<Vector>, qp: (QpProblem, nat) -> Option<Vector>, attempt: nat,
                    ghost solutions: seq<FeatureWeights>, ghost attempts: seq<nat>)
    returns (fw: FeatureWeights, next: nat, ghost solved: nat)
    requires forall j :: 0 <= j < |history| ==> |history[j]| == |expert|
    requires SolutionsFit(qp) && SolverSound(qp) && EventuallySolves(qp)
    requires SolvedRounds(qp, expert, history, solutions, attempts) && |solutions| + 1 == |history|
    ensures attempt < next && solved == next - 1
    ensures SolvedRounds(qp, expert, history, solutions + [fw], attempts + [solved])
    ensures MarginFeasible(expert, history, |history|, fw)
  {
    fw, next := SolveWithRetry(expert, history, qp, attempt);
    solved := next - 1;
    SolvedRoundsAdd(qp, expert, history, solutions, attempts, fw, solved);
  }

  /** The two projection steps of the code base: projectExpertFE of
      ApprenticeshipLearning (one shared coefficient) and of FeatureWeights (one
      coefficient per coordinate). */
  datatype ProjectionKind = SharedScalar | PerCoordinate

  /** What one run of a controller holds fixed: the expert's feature
      expectations, the rollout oracle, the length of every sampled episode, the
      number of episodes averaged per round, the features, gamma, epsilon, and the
      projection step (read by the projection loops only). */
  datatype Setting<!S> = Setting(expert: Vector, rollout: (PolicyRef, nat, nat, nat) -> seq<S>, maxSteps: nat,
                                 count: nat, features: seq<PropFn<S>>, gamma: real, epsilon: real,
                                 kind: ProjectionKind)

  /** The feature expectations of policy estimated from the episodes of one round. */
  function RoundFE<S>(cfg: Setting<S>, policy: PolicyRef, round: nat): Vector
    requires cfg.count > 0
  {
    Expected(Sample(cfg.rollout, policy, cfg.maxSteps, round, cfg.count), cfg.features, cfg.gamma)
  }

  /** What iteration k of the max-margin loop did when it did not stop: its
      solution separates the expert from history entries 0..k, its score exceeds
      epsilon, and history entry k+1 is estimated from round k+1 of the policy
      planned for its weights. */
  predicate MaxMarginRound<S>(cfg: Setting<S>, history: seq<Vector>, solutions: seq<FeatureWeights>, k: nat)
    requires k + 1 < |history| && k < |solutions| && cfg.count > 0
  {
    MarginFeasible(cfg.expert, history, k + 1, solutions[k]) &&
    Abs(solutions[k].score) > cfg.epsilon &&
    history[k + 1] == RoundFE(cfg, Planned(solutions[k].weights), k + 1)
  }

  /** Every iteration before n completed without stopping. */
  predicate RoundsHold<S>(cfg: Setting<S>, history: seq<Vector>, solutions: seq<FeatureWeights>, n: nat)
    requires n < |history| && n <= |solutions| && cfg.count > 0
  {
    forall k :: 0 <= k < n ==> MaxMarginRound(cfg, history, solutions, k)
  }

  /** Extending the history and the solutions keeps every completed round. */
  lemma MaxMarginRoundsExtend<S>(cfg: Setting<S>, history: seq<Vector>, solutions: seq<FeatureWeights>,
                                 history2: seq<Vector>, solutions2: seq<FeatureWeights>, i: nat)
    requires i + 1 <= |history| <= |history2| && i <= |solutions| <= |solutions2| && cfg.count > 0
    requires history2[..i + 1] == history[..i + 1] && solutions2[..i] == solutions[..i]
    requires RoundsHold(cfg, history, solutions, i)
    ensures RoundsHold(cfg, history2, solutions2, i)
  {
    forall k | 0 <= k < i
      ensures MaxMarginRound(cfg, history2, solutions2, k)
    {
      assert MaxMarginRound(cfg, history, solutions, k);
      assert history2[k + 1] == history2[..i + 1][k + 1];
      assert forall j :: 0 <= j <= k ==> history2[j] == history2[..i + 1][j];
      assert solutions2[k] == solutions2[..i][k];
    }
  }

  /** A completed iteration extends the rounds by one. */
  lemma RoundsHoldNext<S>(cfg: Setting<S>, history: seq<Vector>, solutions: seq<FeatureWeights>,
                          fw: FeatureWeights, fe: Vector, i: nat)
    requires |history| == i + 1 && |solutions| == i && cfg.count > 0
    requires RoundsHold(cfg, history, solutions, i)
    requires MarginFeasible(cfg.expert, history, i + 1, fw) && Abs(fw.score) > cfg.epsilon
    requires fe == RoundFE(cfg, Planned(fw.weights), i + 1)
    ensures RoundsHold(cfg, history + [fe], solutions + [fw], i + 1)
  {
    MaxMarginRoundsExtend(cfg, history, solutions, history + [fe], solutions + [fw], i);
    assert (history + [fe])[..i + 1] == history;
  }

  /** The scores of the completed iterations fill t up to n; the rest is 0. */
  predicate Recorded(t: seq<real>, solutions: seq<FeatureWeights>, n: nat)
    requires n <= |solutions| && n <= |t|
  {
    (forall k :: 0 <= k < n ==> t[k] == solutions[k].score) &&
    (forall k :: n <= k < |t| ==> t[k] == 0.0)
  }

  /** Writing the score of iteration n extends the record by one. */
  lemma RecordedNext(t: seq<real>, solutions: seq<FeatureWeights>, n: nat)
    requires n < |solutions| && n < |t| && Recorded(t, solutions, n)
    ensures Recorded(t[n := solutions[n].score], solutions, n + 1)
  {
  }

  /** tHistory[i] = t: the score of iteration i extends the record by one. */
  method RecordScore(tHistory: array<real>, ghost solutions: seq<FeatureWeights>, i: nat, score: real)
    requires i < |solutions| && i < tHistory.Length && solutions[i].score == score
    requires Recorded(tHistory[..], solutions, i)
    modifies tHistory
    ensures Recorded(tHistory[..], solutions, i + 1)
  {
    ghost var t := tHistory[..];
    tHistory[i] := score;
    assert tHistory[..] == t[i := score];
    RecordedNext(t, solutions, i);
  }

  /** The record up to n does not depend on later solutions. */
  lemma RecordedExtend(t: seq<real>, solutions: seq<FeatureWeights>, fw: FeatureWeights, n: nat)
    requires n <= |solutions| && n <= |t| && Recorded(t, solutions, n)
    ensures Recorded(t, solutions + [fw], n)
  {
  }

  /** Steps (4) and (5) of iteration i of maxMarginMethod once the margin of fw
      is above epsilon: the margin goes to tHistory[i], and the policy planned
      for fw's weights runs policyCount episodes whose estimate completes the
      round. */
  method MaxMarginAdvance<S>(cfg: Setting<S>, qp: (QpProblem, nat) -> Option<Vector>, tHistory: array<real>,
                             fw: FeatureWeights, ghost history: seq<Vector>, ghost solutions: seq<FeatureWeights>,
                             ghost attempts: seq<nat>, i: nat)
    returns (policy: PolicyRef, fe: Vector)
    requires cfg.count > 0 && |history| == i + 1 && |solutions| == i && i < tHistory.Length
    requires RoundsHold(cfg, history, solutions, i)
    requires MarginFeasible(cfg.expert, history, i + 1, fw) && Abs(fw.score) > cfg.epsilon
    requires SolvedRounds(qp, cfg.expert, history, solutions + [fw], attempts)
    requires Recorded(tHistory[..], solutions + [fw], i)
    modifies tHistory
    ensures policy == Planned(fw.weights) && |fe| == |cfg.features|
    ensures RoundsHold(cfg, history + [fe], solutions + [fw], i + 1)
    ensures SolvedRounds(qp, cfg.expert, history + [fe], solutions + [fw], attempts)
    ensures Recorded(tHistory[..], solutions + [fw], i + 1)
  {
    RecordScore(tHistory, solutions + [fw], i, fw.score);
    policy := Planned(fw.weights);
    fe := EvaluatePolicy(cfg.rollout, policy, cfg.maxSteps, i + 1, cfg.count, cfg.features, cfg.gamma);
    RoundsHoldNext(cfg, history, solutions, fw, fe, i);
    SolvedRoundsGrow(qp, cfg.expert, history, solutions + [fw], attempts, fe);
  }

  /** The loop of maxMarginMethod, from the bootstrap entry of the history on.
      A null solver result is retried until the solver answers, so the null test
      of the stopping rule never fires. The loop stops when |t| <= epsilon,
      before t is written to tHistory. Solution k is the solver's first answer
      to the history of iteration k, on call attempts[k]. */
  method MaxMarginLoop<S>(cfg: Setting<S>, qp: (QpProblem, nat) -> Option<Vector>, bootstrapFE: Vector, tHistory: array<real>)
    returns (policy: PolicyRef, history: seq<Vector>, ghost solutions: seq<FeatureWeights>,
             ghost attempts: seq<nat>, stop: Stop)
    requires cfg.count > 0 && |cfg.expert| == |cfg.features| == |bootstrapFE|
    requires Recorded(tHistory[..], [], 0)
    requires SolutionsFit(qp) && SolverSound(qp) && EventuallySolves(qp)
    modifies tHistory
    ensures 1 <= |history| <= tHistory.Length + 1 && history[0] == bootstrapFE
    ensures |solutions| == |history| || |solutions| + 1 == |history|
    ensures stop == Converged <==> |solutions| == |history|
    ensures stop == Converged || stop == Exhausted
    ensures RoundsHold(cfg, history, solutions, |history| - 1)
    ensures SolvedRounds(qp, cfg.expert, history, solutions, attempts)
    ensures Recorded(tHistory[..], solutions, |history| - 1)
    ensures |solutions| == |history| ==>
      MarginFeasible(cfg.expert, history, |history|, solutions[|history| - 1]) &&
      Abs(solutions[|history| - 1].score) <= cfg.epsilon
    ensures |solutions| < |history| ==> |history| == tHistory.Length + 1
    ensures policy == if |history| == 1 then RandomBootstrap else Planned(solutions[|history| - 2].weights)
  {
    policy := RandomBootstrap;
    history := [bootstrapFE];
    solutions, attempts := [], [];
    var attempt := 0;
    var i := 0;
    while i < tHistory.Length
      invariant 0 <= i <= tHistory.Length
      invariant |history| == i + 1 && |solutions| == i
      invariant history[0] == bootstrapFE
      invariant forall j :: 0 <= j < |history| ==> |history[j]| == |cfg.features|
      invariant RoundsHold(cfg, history, solutions, i)
      invariant SolvedRounds(qp, cfg.expert, history, solutions, attempts)
      invariant Recorded(tHistory[..], solutions, i)
      invariant policy == if i == 0 then RandomBootstrap else Planned(solutions[i - 1].weights)
    {
      // (2) retry the solver until it answers
      var featureWeights;
      ghost var solved;
      featureWeights, attempt, solved := SolveRound(cfg.expert, history, qp, attempt, solutions, attempts);
      RecordedExtend(tHistory[..], solutions, featureWeights, i);
      attempts := attempts + [solved];
      if Abs(featureWeights.score) <= cfg.epsilon {
        // (3) stop: the margin is within epsilon
        MaxMarginRoundsExtend(cfg, history, solutions, history, solutions + [featureWeights], i);
        solutions := solutions + [featureWeights];
        stop := Converged;
        return;
      }
      // (4) plan for the reward w . phi, (5) estimate its feature expectations
      var fe;
      policy, fe := MaxMarginAdvance(cfg, qp, tHistory, featureWeights, history, solutions, attempts, i);
      history := history + [fe];
      solutions := solutions + [featureWeights];
      i := i + 1;
    }
    stop := Exhausted;
  }

  /** The setting of a request: the expert's estimate and the longest expert episode. */
  function SettingOf<S>(request: LearningRequest<S>, rollout: (PolicyRef, nat, nat, nat) -> seq<S>): Setting<S>
    requires |request.expertEpisodes| > 0
  {
    Setting(request.ExpertFE(), rollout, MaxLength(request.expertEpisodes), request.policyCount,
            request.features, request.gamma, request.epsilon, SharedScalar)
  }

  /** maxMarginMethod. The bootstrap entry of the history comes from ONE episode of
      the random policy; every later entry averages policyCount episodes of the
      policy planned for the iteration's weights. tHistory is handed to the
      request on both exits. */
  method MaxMarginMethod<S>(request: LearningRequest<S>, rollout: (PolicyRef, nat, nat, nat) -> seq<S>,
                            qp: (QpProblem, nat) -> Option<Vector>)
    returns (policy: PolicyRef, history: seq<Vector>, ghost solutions: seq<FeatureWeights>,
             ghost attempts: seq<nat>, stop: Stop)
    requires |request.expertEpisodes| > 0 && request.policyCount > 0
    requires SolutionsFit(qp) && SolverSound(qp) && EventuallySolves(qp)
    modifies request
    ensures request.tHistory != null && fresh(request.tHistory)
    ensures request.tHistory.Length == request.maxIterations
    ensures 1 <= |history| <= request.maxIterations + 1
    ensures history[0] == Expected([rollout(RandomBootstrap, MaxLength(request.expertEpisodes), 0, 0)], request.features, request.gamma)
    ensures |solutions| == |history| || |solutions| + 1 == |history|
    ensures stop == Converged <==> |solutions| == |history|
    ensures stop == Converged || stop == Exhausted
    ensures RoundsHold(SettingOf(request, rollout), history, solutions, |history| - 1)
    ensures SolvedRounds(qp, request.ExpertFE(), history, solutions, attempts)
    ensures Recorded(request.tHistory[..], solutions, |history| - 1)
    ensures |solutions| == |history| ==>
      MarginFeasible(request.ExpertFE(), history, |history|, solutions[|history| - 1]) &&
      Abs(solutions[|history| - 1].score) <= request.epsilon
    ensures |solutions| < |history| ==> |history| == request.maxIterations + 1
    ensures policy == if |history| == 1 then RandomBootstrap else Planned(solutions[|history| - 2].weights)
  {
    var maxSteps := MaximumEpisodeLength(request.expertEpisodes);
    var expert := EstimateFeatureExpectation(request.expertEpisodes, request.features, request.gamma);
    // (1) the random policy and the feature expectations of one of its episodes
    var bootstrap := rollout(RandomBootstrap, maxSteps, 0, 0);
    var fe := EstimateEpisodeFeatureExpectation(bootstrap, request.features, request.gamma);
    var tHistory := new real[request.maxIterations](_ => 0.0);
    var cfg := Setting(expert, rollout, maxSteps, request.policyCount, request.features, request.gamma, request.epsilon, SharedScalar);
    assert cfg == SettingOf(request, rollout);
    policy, history, solutions, attempts, stop := MaxMarginLoop(cfg, qp, fe, tHistory);
    request.tHistory := tHistory;
  }

  // ---------------------------------------------------------------------------
  // projectionMethod
  // ---------------------------------------------------------------------------

  /** The projection step divides by a non-zero number: the shared coefficient
      needs curFE != lastProj, the per-coordinate one needs every coordinate to
      differ. */
  predicate Divides(kind: ProjectionKind, curFE: Vector, lastProj: Vector)
    requires |curFE| == |lastProj|
  {
    match kind
    case SharedScalar => curFE != lastProj
    case PerCoordinate => AllCoordinatesMove(curFE, lastProj)
  }

  /** The new projection of the expert computed by either step. */
  function Projected(kind: ProjectionKind, expert: Vector, curFE: Vector, lastProj: Vector): (r: Vector)
    requires |expert| == |curFE| == |lastProj| && Divides(kind, curFE, lastProj)
    ensures |r| == |expert|
  {
    match kind
    case SharedScalar => ScalarProjection(expert, curFE, lastProj)
    case PerCoordinate => PerCoordinateProjection(expert, curFE, lastProj)
  }

  /** Iteration k's projection: on the first iteration the current feature
      expectations themselves, afterwards the projection step applied to the
      expert, the current feature expectations and the previous projection. */
  predicate ProjectionStep<S>(cfg: Setting<S>, history: seq<Vector>, projections: seq<Vector>, k: nat)
    requires k < |history| && k < |projections|
  {
    |history[k]| == |cfg.expert| &&
    if k == 0 then projections[0] == history[0]
    else
      |projections[k - 1]| == |cfg.expert| && Divides(cfg.kind, history[k], projections[k - 1]) &&
      projections[k] == Projected(cfg.kind, cfg.expert, history[k], projections[k - 1])
  }

  /** Iteration k's weights point from its projection to the expert and its score
      is their Euclidean length. */
  predicate Weighed<S>(cfg: Setting<S>, projections: seq<Vector>, solutions: seq<FeatureWeights>, k: nat)
    requires k < |projections| && k < |solutions|
  {
    |projections[k]| == |cfg.expert| &&
    solutions[k].weights == Sub(cfg.expert, projections[k]) &&
    0.0 <= solutions[k].score && solutions[k].score * solutions[k].score == SumSq(solutions[k].weights)
  }

  /** What iteration k of the projection loop did when it did not stop: it
      projected and weighed, its score exceeds epsilon, and history entry k+1 is
      estimated from round k+1 of the policy planned for its weights. */
  predicate ProjectionRound<S>(cfg: Setting<S>, history: seq<Vector>, projections: seq<Vector>,
                               solutions: seq<FeatureWeights>, k: nat)
    requires k + 1 < |history| && k < |projections| && k < |solutions| && cfg.count > 0
  {
    ProjectionStep(cfg, history, projections, k) && Weighed(cfg, projections, solutions, k) &&
    solutions[k].score > cfg.epsilon &&
    history[k + 1] == RoundFE(cfg, Planned(solutions[k].weights), k + 1)
  }

  /** Every iteration before n completed without stopping. */
  predicate ProjectionRoundsHold<S>(cfg: Setting<S>, history: seq<Vector>, projections: seq<Vector>,
                                    solutions: seq<FeatureWeights>, n: nat)
    requires n < |history| && n <= |projections| && n <= |solutions| && cfg.count > 0
  {
    forall k :: 0 <= k < n ==> ProjectionRound(cfg, history, projections, solutions, k)
  }

  /** Extending the history, the projections and the solutions keeps every
      completed round. */
  lemma ProjectionRoundsExtend<S>(cfg: Setting<S>, history: seq<Vector>, projections: seq<Vector>,
                                  solutions: seq<FeatureWeights>, fe: Vector, proj: Vector, fw: FeatureWeights, i: nat)
    requires |history| == i + 1 && |projections| == |solutions| == i && cfg.count > 0
    requires ProjectionRoundsHold(cfg, history, projections, solutions, i)
    ensures ProjectionRoundsHold(cfg, history + [fe], projections + [proj], solutions + [fw], i)
  {
    forall k | 0 <= k < i
      ensures ProjectionRound(cfg, history + [fe], projections + [proj], solutions + [fw], k)
    {
      assert ProjectionRound(cfg, history, projections, solutions, k);
    }
  }

  /** Extending only the projections and the solutions keeps every completed round. */
  lemma ProjectionRoundsKeep<S>(cfg: Setting<S>, history: seq<Vector>, projections: seq<Vector>,
                                solutions: seq<FeatureWeights>, proj: Vector, fw: FeatureWeights, i: nat)
    requires |history| == i + 1 && |projections| == |solutions| == i && cfg.count > 0
    requires ProjectionRoundsHold(cfg, history, projections, solutions, i)
    ensures ProjectionRoundsHold(cfg, history, projections + [proj], solutions + [fw], i)
  {
    forall k | 0 <= k < i
      ensures ProjectionRound(cfg, history, projections + [proj], solutions + [fw], k)
    {
      assert ProjectionRound(cfg, history, projections, solutions, k);
    }
  }

  /** A completed projection iteration extends the rounds by one. */
  lemma ProjectionRoundsNext<S>(cfg: Setting<S>, history: seq<Vector>, projections: seq<Vector>,
                                solutions: seq<FeatureWeights>, fe: Vector, i: nat)
    requires |history| == i + 1 && |projections| == |solutions| == i + 1 && cfg.count > 0
    requires ProjectionRoundsHold(cfg, history, projections, solutions, i)
    requires ProjectionStep(cfg, history, projections, i) && Weighed(cfg, projections, solutions, i)
    requires solutions[i].score > cfg.epsilon
    requires fe == RoundFE(cfg, Planned(solutions[i].weights), i + 1)
    ensures ProjectionRoundsHold(cfg, history + [fe], projections, solutions, i + 1)
  {
    forall k | 0 <= k <= i
      ensures ProjectionRound(cfg, history + [fe], projections, solutions, k)
    {
      if k < i {
        assert ProjectionRound(cfg, history, projections, solutions, k);
      }
    }
  }

  /** Every iteration that computed a projection projected and weighed it. */
  predicate ProjectionsValid<S>(cfg: Setting<S>, history: seq<Vector>, projections: seq<Vector>, solutions: seq<FeatureWeights>)
  {
    |projections| == |solutions| <= |history| &&
    forall k :: 0 <= k < |projections| ==>
      ProjectionStep(cfg, history, projections, k) && Weighed(cfg, projections, solutions, k)
  }

  /** A factor whose product with a positive number is not positive is not positive. */
  lemma NonPositiveFactor(x: real, y: real)
    requires 0.0 < y && x * y <= 0.0
    ensures x <= 0.0
  {
  }

  /** Of two non-negative numbers, the one with the smaller square is the smaller. */
  lemma RootMonotone(a: real, b: real, a2: real, b2: real)
    requires 0.0 <= a && 0.0 <= b && a2 == a * a && b2 == b * b && a2 <= b2
    ensures a <= b
  {
    assert (a - b) * (a + b) == a2 - b2;
    if a + b > 0.0 {
      NonPositiveFactor(a - b, a + b);
    }
  }

  /** A projection equal to the expert has score 0. */
  lemma ScoreAtExpert(expert: Vector, fw: FeatureWeights)
    requires fw.weights == Sub(expert, expert) && 0.0 <= fw.score && fw.score * fw.score == SumSq(fw.weights)
    ensures fw.score == 0.0
  {
    SumSqZeroIff(fw.weights);
    RootMonotone(fw.score, 0.0, SumSq(fw.weights), 0.0 * 0.0);
  }

  /** One projection step does not increase the score: the shared-coefficient
      projection lies no farther from the expert than the last one, and the
      per-coordinate projection is the expert itself. */
  lemma ScoreStep<S>(cfg: Setting<S>, history: seq<Vector>, projections: seq<Vector>, solutions: seq<FeatureWeights>, k: nat)
    requires 0 < k < |history| && k < |projections| && k < |solutions|
    requires ProjectionStep(cfg, history, projections, k)
    requires Weighed(cfg, projections, solutions, k) && Weighed(cfg, projections, solutions, k - 1)
    ensures solutions[k].score <= solutions[k - 1].score
  {
    if cfg.kind == SharedScalar {
      ProjectionNoFarther(cfg.expert, history[k], projections[k - 1]);
      RootMonotone(solutions[k].score, solutions[k - 1].score,
                   SumSq(solutions[k].weights), SumSq(solutions[k - 1].weights));
    } else {
      PerCoordinateIsExpert(cfg.expert, history[k], projections[k - 1]);
      ScoreAtExpert(cfg.expert, solutions[k]);
    }
  }

  /** The key property of the projection method: every projection lies no farther
      from the expert than the one before, so the scores never increase. */
  lemma ProjectionScoresNonIncreasing<S>(cfg: Setting<S>, history: seq<Vector>, projections: seq<Vector>,
                                         solutions: seq<FeatureWeights>)
    requires ProjectionsValid(cfg, history, projections, solutions)
    ensures forall k :: 0 < k < |solutions| ==> solutions[k].score <= solutions[k - 1].score
  {
    forall k | 0 < k < |solutions|
      ensures solutions[k].score <= solutions[k - 1].score
    {
      ScoreStep(cfg, history, projections, solutions, k);
    }
  }

  /** Step (2) of both projection methods: the first iteration takes the current
      feature expectations as they are, later ones apply the projection step of
      the given kind to the expert, them and the last projection; the weights
      and the score follow from the new projection. */
  method NextProjection(kind: ProjectionKind, expert: Vector, curFE: Vector, lastProjFE: Option<Vector>, root: real -> real)
    returns (newProjFE: Vector, fw: FeatureWeights)
    requires |curFE| == |expert| && IsSqrt(root)
    requires lastProjFE.Some? ==> |lastProjFE.value| == |expert| && Divides(kind, curFE, lastProjFE.value)
    ensures newProjFE == if lastProjFE.None? then curFE else Projected(kind, expert, curFE, lastProjFE.value)
    ensures |newProjFE| == |expert| && fw.weights == Sub(expert, newProjFE)
    ensures 0.0 <= fw.score && fw.score * fw.score == SumSq(fw.weights)
  {
    if lastProjFE.None? {
      newProjFE := curFE;
    } else if kind == SharedScalar {
      newProjFE := ProjectExpertFE(expert, curFE, lastProjFE.value);
    } else {
      newProjFE := ProjectExpertFEPerCoordinate(expert, curFE, lastProjFE.value);
    }
    fw := GetWeightsProjectionMethod(expert, newProjFE, root);
  }

  /** The projection and the weights of iteration i, appended, make iteration i a
      projection step that is weighed. */
  lemma ProjectionAppended<S>(cfg: Setting<S>, history: seq<Vector>, projections: seq<Vector>,
                              solutions: seq<FeatureWeights>, newProjFE: Vector, fw: FeatureWeights, i: nat)
    requires |history| == i + 1 && |projections| == |solutions| == i && |history[i]| == |cfg.expert|
    requires i > 0 ==> |projections[i - 1]| == |cfg.expert| && Divides(cfg.kind, history[i], projections[i - 1])
    requires newProjFE == if i == 0 then history[i] else Projected(cfg.kind, cfg.expert, history[i], projections[i - 1])
    requires |newProjFE| == |cfg.expert| && fw.weights == Sub(cfg.expert, newProjFE)
    requires 0.0 <= fw.score && fw.score * fw.score == SumSq(fw.weights)
    ensures ProjectionStep(cfg, history, projections + [newProjFE], i)
    ensures Weighed(cfg, projections + [newProjFE], solutions + [fw], i)
  {
    if i > 0 {
      assert (projections + [newProjFE])[i - 1] == projections[i - 1];
    }
  }

  /** Step (2) of iteration i of either projection loop: project and weigh; the
      new projection and the weights extend the projections and the solutions. */
  method ProjectionStepAt<S>(cfg: Setting<S>, root: real -> real, curFE: Vector, lastProjFE: Option<Vector>,
                             ghost history: seq<Vector>, ghost projections: seq<Vector>,
                             ghost solutions: seq<FeatureWeights>, ghost i: nat)
    returns (newProjFE: Vector, fw: FeatureWeights)
    requires cfg.count > 0 && IsSqrt(root)
    requires |history| == i + 1 && |projections| == |solutions| == i
    requires curFE == history[i] && |curFE| == |cfg.expert|
    requires lastProjFE == if i == 0 then None else Some(projections[i - 1])
    requires lastProjFE.Some? ==> |lastProjFE.value| == |cfg.expert| && Divides(cfg.kind, curFE, lastProjFE.value)
    requires ProjectionRoundsHold(cfg, history, projections, solutions, i)
    ensures |newProjFE| == |cfg.expert|
    ensures ProjectionRoundsHold(cfg, history, projections + [newProjFE], solutions + [fw], i)
    ensures ProjectionStep(cfg, history, projections + [newProjFE], i)
    ensures Weighed(cfg, projections + [newProjFE], solutions + [fw], i)
  {
    newProjFE, fw := NextProjection(cfg.kind, cfg.expert, curFE, lastProjFE, root);
    ProjectionAppended(cfg, history, projections, solutions, newProjFE, fw, i);
    ProjectionRoundsKeep(cfg, history, projections, solutions, newProjFE, fw, i);
  }

  /** Step (2) of iteration i of projectionMethod: project and weigh, and write
      the distance t to tHistory[i]. */
  method ProjectionStepRecorded<S>(cfg: Setting<S>, root: real -> real, tHistory: array<real>, curFE: Vector,
                                   lastProjFE: Option<Vector>, ghost history: seq<Vector>,
                                   ghost projections: seq<Vector>, ghost solutions: seq<FeatureWeights>, i: nat)
    returns (newProjFE: Vector, fw: FeatureWeights)
    requires cfg.count > 0 && IsSqrt(root) && i < tHistory.Length
    requires |history| == i + 1 && |projections| == |solutions| == i
    requires curFE == history[i] && |curFE| == |cfg.expert|
    requires lastProjFE == if i == 0 then None else Some(projections[i - 1])
    requires lastProjFE.Some? ==> |lastProjFE.value| == |cfg.expert| && Divides(cfg.kind, curFE, lastProjFE.value)
    requires ProjectionRoundsHold(cfg, history, projections, solutions, i)
    requires Recorded(tHistory[..], solutions, i)
    modifies tHistory
    ensures |newProjFE| == |cfg.expert|
    ensures ProjectionRoundsHold(cfg, history, projections + [newProjFE], solutions + [fw], i)
    ensures ProjectionStep(cfg, history, projections + [newProjFE], i)
    ensures Weighed(cfg, projections + [newProjFE], solutions + [fw], i)
    ensures Recorded(tHistory[..], solutions + [fw], i + 1)
  {
    newProjFE, fw := ProjectionStepAt(cfg, root, curFE, lastProjFE, history, projections, solutions, i);
    RecordedExtend(tHistory[..], solutions, fw, i);
    RecordScore(tHistory, solutions + [fw], i, fw.score);
  }

  /** Steps (4) and (5) of iteration i of projectionMethod once the distance is
      above epsilon: the policy planned for the weights runs policyCount
      episodes, and their estimate starts the next round. */
  method ProjectionPlan<S>(cfg: Setting<S>, fw: FeatureWeights, ghost history: seq<Vector>,
                           ghost projections: seq<Vector>, ghost solutions: seq<FeatureWeights>, i: nat)
    returns (policy: PolicyRef, fe: Vector)
    requires |history| == i + 1 && |projections| == |solutions| == i + 1 && cfg.count > 0
    requires |cfg.expert| == |cfg.features|
    requires ProjectionRoundsHold(cfg, history, projections, solutions, i)
    requires ProjectionStep(cfg, history, projections, i) && Weighed(cfg, projections, solutions, i)
    requires solutions[i] == fw && fw.score > cfg.epsilon
    ensures policy == Planned(fw.weights) && |fe| == |cfg.expert|
    ensures ProjectionRoundsHold(cfg, history + [fe], projections, solutions, i + 1)
  {
    policy := Planned(fw.weights);
    fe := EvaluatePolicy(cfg.rollout, policy, cfg.maxSteps, i + 1, cfg.count, cfg.features, cfg.gamma);
    ProjectionRoundsNext(cfg, history, projections, solutions, fe, i);
  }

  /** The loop of projectionMethod from the bootstrap entry of the history on.
      tHistory[i] is written before the stopping test. When the current feature
      expectations coincide with the last projection the source divides by zero
      and goes on with NaN; the model stops there with Degenerate. */
  method ProjectionLoop<S>(cfg: Setting<S>, root: real -> real, bootstrapFE: Vector, tHistory: array<real>)
    returns (policy: PolicyRef, history: seq<Vector>, ghost projections: seq<Vector>,
             ghost solutions: seq<FeatureWeights>, stop: Stop)
    requires cfg.count > 0 && |cfg.expert| == |cfg.features| == |bootstrapFE| && IsSqrt(root)
    requires cfg.kind == SharedScalar && Recorded(tHistory[..], [], 0)
    modifies tHistory
    ensures 1 <= |history| <= tHistory.Length + 1 && history[0] == bootstrapFE
    ensures |history| - 1 <= |projections| == |solutions| <= tHistory.Length
    ensures ProjectionRoundsHold(cfg, history, projections, solutions, |history| - 1)
    ensures Recorded(tHistory[..], solutions, |solutions|)
    ensures stop == Converged ==> (|solutions| == |history| &&
      ProjectionStep(cfg, history, projections, |history| - 1) && Weighed(cfg, projections, solutions, |history| - 1) &&
      solutions[|history| - 1].score <= cfg.epsilon)
    ensures stop == Degenerate ==> (|solutions| + 1 == |history| && |solutions| > 0 &&
      history[|solutions|] == projections[|solutions| - 1])
    ensures stop == Exhausted ==> |solutions| + 1 == |history| && |solutions| == tHistory.Length
    ensures stop != NoSolution
    ensures policy == if |history| == 1 then RandomBootstrap else Planned(solutions[|history| - 2].weights)
  {
    policy := RandomBootstrap;
    history := [bootstrapFE];
    projections, solutions := [], [];
    var curFE := bootstrapFE;
    var lastProjFE: Option<Vector> := None;
    var i := 0;
    while i < tHistory.Length
      invariant 0 <= i <= tHistory.Length
      invariant |history| == i + 1 && curFE == history[i] && history[0] == bootstrapFE
      invariant |curFE| == |cfg.expert|
      invariant |projections| == |solutions| == i
      invariant ProjectionRoundsHold(cfg, history, projections, solutions, i)
      invariant lastProjFE == if i == 0 then None else Some(projections[i - 1])
      invariant lastProjFE.Some? ==> |lastProjFE.value| == |cfg.expert|
      invariant Recorded(tHistory[..], solutions, i)
      invariant policy == if i == 0 then RandomBootstrap else Planned(solutions[i - 1].weights)
    {
      if lastProjFE.Some? && curFE == lastProjFE.value {
        stop := Degenerate;
        return;
      }
      // (2) project the expert, then weigh; tHistory[i] is written before the test
      var newProjFE, featureWeights := ProjectionStepRecorded(cfg, root, tHistory, curFE, lastProjFE, history, projections, solutions, i);
      lastProjFE := Some(newProjFE);
      projections, solutions := projections + [newProjFE], solutions + [featureWeights];
      if featureWeights.score <= cfg.epsilon {
        // (3) stop: the distance to the expert is within epsilon
        stop := Converged;
        return;
      }
      // (4) plan for the reward w . phi, (5) estimate its feature expectations
      policy, curFE := ProjectionPlan(cfg, featureWeights, history, projections, solutions, i);
      history := history + [curFE];
      i := i + 1;
    }
    stop := Exhausted;
  }

  /** The loop's outcome describes every projection it computed. */
  lemma ProjectionsValidFromRounds<S>(cfg: Setting<S>, history: seq<Vector>, projections: seq<Vector>,
                                      solutions: seq<FeatureWeights>)
    requires 1 <= |history| && |history| - 1 <= |projections| == |solutions| <= |history| && cfg.count > 0
    requires ProjectionRoundsHold(cfg, history, projections, solutions, |history| - 1)
    requires |solutions| == |history| ==>
      ProjectionStep(cfg, history, projections, |history| - 1) && Weighed(cfg, projections, solutions, |history| - 1)
    ensures ProjectionsValid(cfg, history, projections, solutions)
  {
    forall k | 0 <= k < |projections|
      ensures ProjectionStep(cfg, history, projections, k) && Weighed(cfg, projections, solutions, k)
    {
      if k < |history| - 1 {
        assert ProjectionRound(cfg, history, projections, solutions, k);
      }
    }
  }

  /** The projection loop together with what its outcome implies: every computed
      projection is described, and the scores never increase. */
  method ProjectionRun<S>(cfg: Setting<S>, root: real -> real, bootstrapFE: Vector, tHistory: array<real>)
    returns (policy: PolicyRef, history: seq<Vector>, ghost projections: seq<Vector>,
             ghost solutions: seq<FeatureWeights>, stop: Stop)
    requires cfg.count > 0 && |cfg.expert| == |cfg.features| == |bootstrapFE| && IsSqrt(root)
    requires cfg.kind == SharedScalar && Recorded(tHistory[..], [], 0)
    modifies tHistory
    ensures 1 <= |history| <= tHistory.Length + 1 && history[0] == bootstrapFE
    ensures |history| - 1 <= |projections| == |solutions| <= tHistory.Length
    ensures ProjectionRoundsHold(cfg, history, projections, solutions, |history| - 1)
    ensures ProjectionsValid(cfg, history, projections, solutions)
    ensures forall k :: 0 < k < |solutions| ==> solutions[k].score <= solutions[k - 1].score
    ensures Recorded(tHistory[..], solutions, |solutions|)
    ensures stop == Converged ==> |solutions| == |history| && solutions[|history| - 1].score <= cfg.epsilon
    ensures stop == Degenerate ==> (|solutions| + 1 == |history| && |solutions| > 0 &&
      history[|solutions|] == projections[|solutions| - 1])
    ensures stop == Exhausted ==> |solutions| + 1 == |history| && |solutions| == tHistory.Length
    ensures stop != NoSolution
    ensures policy == if |history| == 1 then RandomBootstrap else Planned(solutions[|history| - 2].weights)
  {
    policy, history, projections, solutions, stop := ProjectionLoop(cfg, root, bootstrapFE, tHistory);
    ProjectionsValidFromRounds(cfg, history, projections, solutions);
    ProjectionScoresNonIncreasing(cfg, history, projections, solutions);
  }

  /** projectionMethod. The bootstrap entry of the history averages policyCount
      episodes of the random policy. tHistory reaches the request only when every
      iteration ran; on convergence the request keeps its old tHistory. */
  method ProjectionMethod<S>(request: LearningRequest<S>, rollout: (PolicyRef, nat, nat, nat) -> seq<S>,
                             root: real -> real)
    returns (policy: PolicyRef, history: seq<Vector>, ghost projections: seq<Vector>,
             ghost solutions: seq<FeatureWeights>, stop: Stop)
    requires |request.expertEpisodes| > 0 && request.policyCount > 0 && IsSqrt(root)
    modifies request
    ensures 1 <= |history| <= request.maxIterations + 1
    ensures history[0] == RoundFE(SettingOf(request, rollout), RandomBootstrap, 0)
    ensures |history| - 1 <= |projections| == |solutions| <= request.maxIterations
    ensures ProjectionRoundsHold(SettingOf(request, rollout), history, projections, solutions, |history| - 1)
    ensures ProjectionsValid(SettingOf(request, rollout), history, projections, solutions)
    ensures forall k :: 0 < k < |solutions| ==> solutions[k].score <= solutions[k - 1].score
    ensures stop == Converged ==> |solutions| == |history| && solutions[|history| - 1].score <= request.epsilon
    ensures stop == Degenerate ==> (|solutions| + 1 == |history| && |solutions| > 0 &&
      history[|solutions|] == projections[|solutions| - 1])
    ensures stop == Exhausted ==> |solutions| + 1 == |history| && |solutions| == request.maxIterations
    ensures stop == Exhausted ==> (request.tHistory != null && fresh(request.tHistory) &&
      request.tHistory.Length == request.maxIterations && Recorded(request.tHistory[..], solutions, |solutions|))
    ensures stop != Exhausted ==> request.tHistory == old(request.tHistory)
    ensures stop != NoSolution
    ensures policy == if |history| == 1 then RandomBootstrap else Planned(solutions[|history| - 2].weights)
  {
    var maxSteps := MaximumEpisodeLength(request.expertEpisodes);
    var expert := EstimateFeatureExpectation(request.expertEpisodes, request.features, request.gamma);
    // (1) the random policy and the feature expectations of policyCount of its episodes
    var fe := EvaluatePolicy(rollout, RandomBootstrap, maxSteps, 0, request.policyCount, request.features, request.gamma);
    var tHistory := new real[request.maxIterations](_ => 0.0);
    var cfg := Setting(expert, rollout, maxSteps, request.policyCount, request.features, request.gamma, request.epsilon, SharedScalar);
    assert cfg == SettingOf(request, rollout);
    policy, history, projections, solutions, stop := ProjectionRun(cfg, root, fe, tHistory);
    if stop == Exhausted {
      request.tHistory := tHistory;
    }
  }

  /** getLearnedPolicy: null for an invalid request, otherwise the method the
      request selects, with what that method guarantees. The planned policy is
      named by its weights; solutions, projections and attempts describe the
      run. */
  method GetLearnedPolicy<S>(request: LearningRequest<S>, rollout: (PolicyRef, nat, nat, nat) -> seq<S>,
                             qp: (QpProblem, nat) -> Option<Vector>, root: real -> real)
    returns (policy: Option<PolicyRef>, history: seq<Vector>, ghost projections: seq<Vector>,
             ghost solutions: seq<FeatureWeights>, ghost attempts: seq<nat>, stop: Stop)
    requires request.valid ==> |request.expertEpisodes| > 0 && request.policyCount > 0
    requires request.valid && request.usingMaxMargin ==> SolutionsFit(qp) && SolverSound(qp) && EventuallySolves(qp)
    requires request.valid && !request.usingMaxMargin ==> IsSqrt(root)
    modifies request
    ensures policy.None? <==> !request.valid
    ensures !request.valid ==> request.tHistory == old(request.tHistory) && history == []
    ensures policy.Some? ==> 1 <= |history| <= request.maxIterations + 1 && |history| - 1 <= |solutions|
    ensures policy.Some? ==>
      policy.value == if |history| == 1 then RandomBootstrap else Planned(solutions[|history| - 2].weights)
    // the max-margin method
    ensures policy.Some? && request.usingMaxMargin ==>
      request.tHistory != null && fresh(request.tHistory) && request.tHistory.Length == request.maxIterations
    ensures policy.Some? && request.usingMaxMargin ==>
      history[0] == Expected([rollout(RandomBootstrap, MaxLength(request.expertEpisodes), 0, 0)], request.features, request.gamma)
    ensures policy.Some? && request.usingMaxMargin ==>
      (stop == Converged || stop == Exhausted) && |solutions| == (if stop == Converged then |history| else |history| - 1)
    ensures policy.Some? && request.usingMaxMargin ==> RoundsHold(SettingOf(request, rollout), history, solutions, |history| - 1)
    ensures policy.Some? && request.usingMaxMargin ==> SolvedRounds(qp, request.ExpertFE(), history, solutions, attempts)
    ensures policy.Some? && request.usingMaxMargin ==> Recorded(request.tHistory[..], solutions, |history| - 1)
    ensures policy.Some? && request.usingMaxMargin && stop == Converged ==>
      MarginFeasible(request.ExpertFE(), history, |history|, solutions[|history| - 1]) &&
      Abs(solutions[|history| - 1].score) <= request.epsilon
    ensures policy.Some? && request.usingMaxMargin && stop == Exhausted ==> |history| == request.maxIterations + 1
    // the projection method
    ensures policy.Some? && !request.usingMaxMargin ==>
      history[0] == RoundFE(SettingOf(request, rollout), RandomBootstrap, 0) &&
      |history| - 1 <= |projections| == |solutions| <= request.maxIterations
    ensures policy.Some? && !request.usingMaxMargin ==>
      ProjectionRoundsHold(SettingOf(request, rollout), history, projections, solutions, |history| - 1)
    ensures policy.Some? && !request.usingMaxMargin ==> ProjectionsValid(SettingOf(request, rollout), history, projections, solutions)
    ensures policy.Some? && !request.usingMaxMargin ==>
      forall k :: 0 < k < |solutions| ==> solutions[k].score <= solutions[k - 1].score
    ensures policy.Some? && !request.usingMaxMargin ==> stop != NoSolution
    ensures policy.Some? && !request.usingMaxMargin && stop == Converged ==>
      |solutions| == |history| && solutions[|history| - 1].score <= request.epsilon
    ensures policy.Some? && !request.usingMaxMargin && stop == Exhausted ==>
      |solutions| + 1 == |history| && |solutions| == request.maxIterations &&
      request.tHistory != null && fresh(request.tHistory) &&
      request.tHistory.Length == request.maxIterations && Recorded(request.tHistory[..], solutions, |solutions|)
    ensures policy.Some? && !request.usingMaxMargin && stop != Exhausted ==> request.tHistory == old(request.tHistory)
  {
    if !request.valid {
      policy, history, projections, solutions, attempts, stop := None, [], [], [], [], Exhausted;
    } else if request.usingMaxMargin {
      var p;
      p, history, solutions, attempts, stop := MaxMarginMethod(request, rollout, qp);
      policy, projections := Some(p), [];
    } else {
      var p;
      p, history, projections, solutions, stop := ProjectionMethod(request, rollout, root);
      policy, attempts := Some(p), [];
    }
  }
}
