/** The two controllers of InverseReinforcementLearning: generatePolicyTilde (the
    max-margin method of section 3 of Abbeel & Ng 2004) and projectionMethod
    (section 3.1), with the helpers they call. Every episode they sample starts at
    the state the expert episodes share, and every round is estimated from ONE
    episode. Planning a policy for a reward and running it from a state is the run
    oracle: run(policy, start, maxSteps, round). */
module InverseRL {
  import opened Wrappers
  import opened Vectors
  import opened Features
  import opened Estimator
  import opened Weights
  import opened Apprenticeship
  import opened RandomPolicies

  // ---------------------------------------------------------------------------
  // Feature expectations
  // ---------------------------------------------------------------------------

  /** generateFeatureExpectations: the discounted count of every feature of the
      mapping over one episode, with no division; it agrees with the estimate
      over the one-element list of episodes. */
  method GenerateFeatureExpectations<S>(episode: seq<S>, mapping: FeatureMapping<S>, gamma: real)
    returns (fe: Vector)
    ensures |fe| == FeatureSize(mapping)
    ensures fe == EpisodeCounts(episode, mapping.functions, gamma)
    ensures fe == Expected([episode], mapping.functions, gamma)
  {
    var acc := new real[FeatureSize(mapping)](_ => 0.0);
    var i := 0;
    while i < |episode|
      invariant 0 <= i <= |episode|
      invariant forall k :: 0 <= k < acc.Length ==> acc[k] == EpisodeCount(episode, mapping.functions[k], gamma, i)
    {
      AddWhereHolds(acc, mapping.functions, episode[i], Pow(gamma, i));
      i := i + 1;
    }
    fe := acc[..];
    SingleEpisodeUndivided(episode, mapping.functions, gamma);
  }

  /** generateExpertFeatureExpectations: the same loops over every expert episode,
      then every entry divided by the number of episodes. */
  method GenerateExpertFeatureExpectations<S>(expertEpisodes: seq<seq<S>>, mapping: FeatureMapping<S>, gamma: real)
    returns (fe: Vector)
    requires |expertEpisodes| > 0
    ensures |fe| == FeatureSize(mapping)
    ensures fe == Expected(expertEpisodes, mapping.functions, gamma)
  {
    fe := EstimateFeatureExpectation(expertEpisodes, mapping.functions, gamma);
  }

  // ---------------------------------------------------------------------------
  // The shared initial state
  // ---------------------------------------------------------------------------

  /** Every later episode with at least one step starts at s. */
  predicate LaterStartAt<S(==)>(episodes: seq<seq<S>>, s: S) {
    forall i :: 1 <= i < |episodes| && |episodes[i]| > 0 ==> episodes[i][0] == s
  }

  /** The initial state shared by the expert episodes: null (None) for no
      episodes, for an empty first episode, and when a later non-empty episode
      starts elsewhere; empty later episodes are skipped. */
  function CommonStart<S(==)>(episodes: seq<seq<S>>): Option<S> {
    if |episodes| == 0 || |episodes[0]| == 0 then None
    else if LaterStartAt(episodes, episodes[0][0]) then Some(episodes[0][0])
    else None
  }

  /** A common start is the first state of every non-empty episode. */
  lemma CommonStartIsEveryStart<S>(episodes: seq<seq<S>>)
    requires CommonStart(episodes).Some?
    ensures |episodes| > 0 && |episodes[0]| > 0
    ensures forall i :: 0 <= i < |episodes| && |episodes[i]| > 0 ==> episodes[i][0] == CommonStart(episodes).value
  {
  }

  /** Adding an episode to a non-empty list keeps the common start, unless the
      episode is non-empty and starts elsewhere; an empty episode never matters. */
  lemma {:induction false} CommonStartAppend<S>(episodes: seq<seq<S>>, e: seq<S>)
    requires |episodes| > 0
    ensures CommonStart(episodes + [e]) ==
      if |e| > 0 && CommonStart(episodes).Some? && e[0] != CommonStart(episodes).value then None
      else CommonStart(episodes)
  {
    var all := episodes + [e];
    assert all[0] == episodes[0];
    if |episodes[0]| > 0 {
      var s := episodes[0][0];
      assert forall i :: 1 <= i < |episodes| ==> all[i] == episodes[i];
      if LaterStartAt(episodes, s) && (|e| == 0 || e[0] == s) {
        assert LaterStartAt(all, s);
      }
      if LaterStartAt(all, s) {
        assert LaterStartAt(episodes, s);
        assert all[|episodes|] == e;
      }
    }
  }

  /** getInitialState: the loop over the later episodes returns null at the first
      non-empty one whose first state differs. */
  method GetInitialState<S(==)>(episodes: seq<seq<S>>) returns (r: Option<S>)
    ensures r == CommonStart(episodes)
  {
    if |episodes| > 0 && |episodes[0]| > 0 {
      var state := episodes[0][0];
      var i := 1;
      while i < |episodes|
        invariant 1 <= i <= |episodes|
        invariant forall k :: 1 <= k < i && |episodes[k]| > 0 ==> episodes[k][0] == state
      {
        if |episodes[i]| > 0 && state != episodes[i][0] {
          return None;
        }
        i := i + 1;
      }
      return Some(state);
    }
    return None;
  }

  // ---------------------------------------------------------------------------
  // The setting of an IRL run
  // ---------------------------------------------------------------------------

  /** The rollout of cfg runs the round's policy once from start: round r of
      policy p is the episode run(p, start, maxSteps, r), the same for every j. */
  ghost predicate RunsFrom<S>(cfg: Setting<S>, run: (PolicyRef, S, nat, nat) -> seq<S>, start: S) {
    cfg.count == 1 &&
    forall p, m: nat, r: nat, j: nat :: cfg.rollout(p, m, r, j) == run(p, start, m, r)
  }

  /** The setting of an IRL run: the expert's estimate, the longest expert
      episode, one episode per round, each run from the shared start state. */
  function IrlSetting<S>(mapping: FeatureMapping<S>, expertEpisodes: seq<seq<S>>, gamma: real, epsilon: real,
                         run: (PolicyRef, S, nat, nat) -> seq<S>, start: S, kind: ProjectionKind): (cfg: Setting<S>)
    requires |expertEpisodes| > 0
    ensures RunsFrom(cfg, run, start)
    ensures cfg.expert == Expected(expertEpisodes, mapping.functions, gamma) && cfg.features == mapping.functions
    ensures cfg.maxSteps == MaxLength(expertEpisodes) && cfg.gamma == gamma && cfg.epsilon == epsilon && cfg.kind == kind
  {
    Setting(Expected(expertEpisodes, mapping.functions, gamma),
            (p: PolicyRef, m: nat, r: nat, j: nat) => run(p, start, m, r),
            MaxLength(expertEpisodes), 1, mapping.functions, gamma, epsilon, kind)
  }

  /** A round's estimate in an IRL run is the undivided count over the one
      episode the round's policy runs from the start state. */
  lemma RoundFEIsOneRun<S>(cfg: Setting<S>, run: (PolicyRef, S, nat, nat) -> seq<S>, start: S, policy: PolicyRef, round: nat)
    requires RunsFrom(cfg, run, start)
    ensures RoundFE(cfg, policy, round) == EpisodeCounts(run(policy, start, cfg.maxSteps, round), cfg.features, cfg.gamma)
  {
    var ep := run(policy, start, cfg.maxSteps, round);
    assert cfg.rollout(policy, cfg.maxSteps, round, 0) == ep;
    assert Sample(cfg.rollout, policy, cfg.maxSteps, round, cfg.count) == [ep];
    SingleEpisodeUndivided(ep, cfg.features, cfg.gamma);
  }

  /** The number of iterations `for (i = 0; i < maxIterations; ++i)` can run. */
  function Iterations(maxIterations: int): (n: nat)
    ensures maxIterations <= 0 ==> n == 0
    ensures maxIterations >= 0 ==> n == maxIterations
  {
    if maxIterations < 0 then 0 else maxIterations
  }

  // ---------------------------------------------------------------------------
  // generatePolicyTilde
  // ---------------------------------------------------------------------------

  /** Step (1b) of both controllers as written: evaluateBehavior with a step
      budget asks the policy for an action once per step, starting at the start
      state. The policy is src/RandomPolicy.java, whose constructor never creates
      the cache map, so the first request dereferences null. With no steps the
      episode is the start state alone. */
  method BootstrapAsWritten<S(==), A>(grounded: S -> seq<A>, start: S, maxSteps: nat) returns (r: Result<seq<S>, JavaError>)
    ensures maxSteps == 0 ==> r == Success([start])
    ensures maxSteps > 0 ==> r == Failure(NullPointer)
  {
    var policy := new RandomPolicy.Standalone(grounded);
    if maxSteps == 0 {
      return Success([start]);
    }
    var action := policy.GetAction(start, [], 0.0);
    return Failure(action.error);
  }

  /** The first step of the bootstrap episode with the random policy that keeps
      its distribution cache (the nested class of ApprenticeshipLearning), which
      the IRL controllers of this model use: the first query of the start state
      creates its distribution and the roll picks by the running sums, so nothing
      throws; with positive draws over at least one action and a roll below 1 an
      action is always picked. */
  method BootstrapFirstAction<S(==), A>(grounded: S -> seq<A>, start: S, draws: seq<real>, roll: real)
    returns (r: Result<Option<A>, JavaError>)
    requires |draws| == |grounded(start)| && Normalisable(draws)
    ensures r == Success(Select(Normalised(grounded(start), draws), roll))
    ensures |draws| > 0 && (forall i :: 0 <= i < |draws| ==> 0.0 < draws[i]) && roll < 1.0 ==> r.value.Some?
  {
    var policy := new RandomPolicy.Nested(grounded);
    r := policy.GetAction(start, draws, roll);
    if |draws| > 0 && (forall i :: 0 <= i < |draws| ==> 0.0 < draws[i]) && roll < 1.0 {
      SelectTotal(grounded(start), draws, roll);
    }
  }

  /** generatePolicyTilde as written: with a common start state the first expert
      episode has a state, so the bootstrap runs at least one step and throws
      before the loop (and so before FeatureWeights.solveFeatureWeights) is
      reached. */
  method GeneratePolicyTildeAsWritten<S(==), A>(mapping: FeatureMapping<S>, expertEpisodes: seq<seq<S>>, gamma: real,
                                                epsilon: real, maxIterations: int, grounded: S -> seq<A>)
    returns (r: Result<Option<PolicyRef>, JavaError>)
    ensures CommonStart(expertEpisodes).None? ==> r == Success(None)
    ensures CommonStart(expertEpisodes).Some? ==> r == Failure(NullPointer)
  {
    var maxSteps := MaximumEpisodeLength(expertEpisodes);
    var initialState := GetInitialState(expertEpisodes);
    if initialState.None? {
      return Success(None);
    }
    CommonStartIsEveryStart(expertEpisodes);
    var expert := GenerateExpertFeatureExpectations(expertEpisodes, mapping, gamma);
    // (1) the random policy, (1b) one episode of it from the start state
    assert maxSteps >= |expertEpisodes[0]| > 0;
    var episode := BootstrapAsWritten(grounded, initialState.value, maxSteps);
    return Failure(episode.error);
  }

  /** Steps (4) and (5) of iteration i of generatePolicyTilde: the policy planned
      for the weights runs one episode from the start state, and its estimate
      completes the round. */
  method PlanAndEvaluate<S>(cfg: Setting<S>, mapping: FeatureMapping<S>, run: (PolicyRef, S, nat, nat) -> seq<S>, start: S,
                            qp: (QpProblem, nat) -> Option<Vector>, fw: FeatureWeights, ghost history: seq<Vector>,
                            ghost solutions: seq<FeatureWeights>, ghost attempts: seq<nat>, i: nat)
    returns (policy: PolicyRef, fe: Vector)
    requires RunsFrom(cfg, run, start) && cfg.features == mapping.functions
    requires |history| == i + 1 && |solutions| == i
    requires RoundsHold(cfg, history, solutions, i)
    requires MarginFeasible(cfg.expert, history, i + 1, fw) && Abs(fw.score) > cfg.epsilon
    requires SolvedRounds(qp, cfg.expert, history, solutions + [fw], attempts)
    ensures policy == Planned(fw.weights) && |fe| == |cfg.features|
    ensures RoundsHold(cfg, history + [fe], solutions + [fw], i + 1)
    ensures SolvedRounds(qp, cfg.expert, history + [fe], solutions + [fw], attempts)
  {
    policy := Planned(fw.weights);
    fe := GenerateFeatureExpectations(run(policy, start, cfg.maxSteps, i + 1), mapping, cfg.gamma);
    RoundFEIsOneRun(cfg, run, start, policy, i + 1);
    RoundsHoldNext(cfg, history, solutions, fw, fe, i);
    SolvedRoundsGrow(qp, cfg.expert, history, solutions + [fw], attempts, fe);
  }

  /** One solver call of generatePolicyTilde: call i on the current history,
      recorded as round i when the solver answers. The request is the max-margin
      request of ApprenticeshipLearning (|w| <= 1), not the wider one
      FeatureWeights builds (FeatureWeightsProblem, |w|^2 <= 2). */
  method TildeRound(expert: Vector, history: seq<Vector>, qp: (QpProblem, nat) -> Option<Vector>, i: nat,
                    ghost solutions: seq<FeatureWeights>, ghost attempts: seq<nat>)
    returns (answer: Option<FeatureWeights>)
    requires forall j :: 0 <= j < |history| ==> |history[j]| == |expert|
    requires SolutionsFit(qp) && SolverSound(qp)
    requires SolvedRounds(qp, expert, history, solutions, attempts) && |solutions| + 1 == |history|
    ensures answer.None? <==> qp(MaxMarginProblem(expert, history), i).None?
    ensures answer.Some? ==> SolvedRounds(qp, expert, history, solutions + [answer.value], attempts + [i])
    ensures answer.Some? ==> MarginFeasible(expert, history, |history|, answer.value)
  {
    answer := SolveFeatureWeights(expert, history, qp, i);
    if answer.Some? {
      SolvedRoundsAdd(qp, expert, history, solutions, attempts, answer.value, i);
    }
  }

  /** The loop of generatePolicyTilde with a working solver: call i of the solver
      is attempt i, and a null answer ends the loop. Unlike maxMarginMethod, no
      score is recorded and nothing is retried: solution k is the solver's answer
      on call k to the history of iteration k. */
  method TildeLoop<S>(cfg: Setting<S>, mapping: FeatureMapping<S>, run: (PolicyRef, S, nat, nat) -> seq<S>, start: S,
                      qp: (QpProblem, nat) -> Option<Vector>, bootstrapFE: Vector, maxIterations: int)
    returns (policy: PolicyRef, history: seq<Vector>, ghost solutions: seq<FeatureWeights>,
             ghost attempts: seq<nat>, stop: Stop)
    requires RunsFrom(cfg, run, start) && cfg.features == mapping.functions
    requires |cfg.expert| == |cfg.features| == |bootstrapFE|
    requires SolutionsFit(qp) && SolverSound(qp)
    ensures 1 <= |history| <= Iterations(maxIterations) + 1 && history[0] == bootstrapFE
    ensures |solutions| == if stop == Converged then |history| else |history| - 1
    ensures RoundsHold(cfg, history, solutions, |history| - 1)
    ensures SolvedRounds(qp, cfg.expert, history, solutions, attempts)
    ensures forall k :: 0 <= k < |attempts| ==> attempts[k] == k
    ensures stop == Converged ==>
      MarginFeasible(cfg.expert, history, |history|, solutions[|history| - 1]) &&
      Abs(solutions[|history| - 1].score) <= cfg.epsilon
    ensures forall j :: 0 <= j < |history| ==> |history[j]| == |cfg.expert|
    ensures stop == NoSolution ==> qp(MaxMarginProblem(cfg.expert, history), |history| - 1).None?
    ensures stop == Exhausted ==> |history| == Iterations(maxIterations) + 1
    ensures stop != Degenerate
    ensures policy == if |history| == 1 then RandomBootstrap else Planned(solutions[|history| - 2].weights)
  {
    policy := RandomBootstrap;
    history := [bootstrapFE];
    solutions, attempts := [], [];
    var i := 0;
    while i < maxIterations
      invariant 0 <= i <= Iterations(maxIterations)
      invariant |history| == i + 1 && |solutions| == i && history[0] == bootstrapFE
      invariant forall j :: 0 <= j < |history| ==> |history[j]| == |cfg.features|
      invariant RoundsHold(cfg, history, solutions, i)
      invariant SolvedRounds(qp, cfg.expert, history, solutions, attempts)
      invariant forall k :: 0 <= k < |attempts| ==> attempts[k] == k
      invariant policy == if i == 0 then RandomBootstrap else Planned(solutions[i - 1].weights)
    {
      // (2) solve for the weights and the margin
      var answer := TildeRound(cfg.expert, history, qp, i, solutions, attempts);
      if answer.None? {
        // (3) stop: the solver returned null
        return policy, history, solutions, attempts, NoSolution;
      }
      var featureWeights := answer.value;
      if Abs(featureWeights.score) <= cfg.epsilon {
        // (3) stop: the margin is within epsilon
        MaxMarginRoundsExtend(cfg, history, solutions, history, solutions + [featureWeights], i);
        return policy, history, solutions + [featureWeights], attempts + [i], Converged;
      }
      // (4) plan for the reward w . phi, (5) one episode from the start state
      var fe;
      policy, fe := PlanAndEvaluate(cfg, mapping, run, start, qp, featureWeights, history, solutions, attempts + [i], i);
      history := history + [fe];
      solutions, attempts := solutions + [featureWeights], attempts + [i];
      i := i + 1;
    }
    stop := Exhausted;
  }

  /** generatePolicyTilde corrected: a working solver in place of
      FeatureWeights.solveFeatureWeights (ApprenticeshipLearning's request, with
      its norm bound 1, KKT check off and no A x = b), and a random policy that keeps its
      cache (BootstrapFirstAction) in place of the standalone one. Null without a
      common start state, otherwise the max-margin loop from the bootstrap
      estimate of one episode of the random policy. */
  method GeneratePolicyTilde<S(==)>(mapping: FeatureMapping<S>, expertEpisodes: seq<seq<S>>, gamma: real,
                                    epsilon: real, maxIterations: int, run: (PolicyRef, S, nat, nat) -> seq<S>,
                                    qp: (QpProblem, nat) -> Option<Vector>)
    returns (policy: Option<PolicyRef>, history: seq<Vector>, ghost solutions: seq<FeatureWeights>,
             ghost attempts: seq<nat>, stop: Stop, ghost cfg: Setting<S>)
    requires SolutionsFit(qp) && SolverSound(qp)
    ensures policy.None? <==> CommonStart(expertEpisodes).None?
    ensures policy.Some? ==> (|expertEpisodes| > 0 &&
      cfg == IrlSetting(mapping, expertEpisodes, gamma, epsilon, run, CommonStart(expertEpisodes).value, SharedScalar))
    ensures policy.Some? ==> 1 <= |history| <= Iterations(maxIterations) + 1
    ensures policy.Some? ==> history[0] == RoundFE(cfg, RandomBootstrap, 0)
    ensures policy.Some? ==> |solutions| == if stop == Converged then |history| else |history| - 1
    ensures policy.Some? ==> RoundsHold(cfg, history, solutions, |history| - 1)
    ensures policy.Some? ==> SolvedRounds(qp, cfg.expert, history, solutions, attempts)
    ensures policy.Some? ==> forall k :: 0 <= k < |attempts| ==> attempts[k] == k
    ensures policy.Some? && stop == Converged ==>
      MarginFeasible(cfg.expert, history, |history|, solutions[|history| - 1]) &&
      Abs(solutions[|history| - 1].score) <= epsilon
    ensures policy.Some? ==> forall j :: 0 <= j < |history| ==> |history[j]| == |cfg.expert|
    ensures policy.Some? && stop == NoSolution ==> qp(MaxMarginProblem(cfg.expert, history), |history| - 1).None?
    ensures policy.Some? && stop == Exhausted ==> |history| == Iterations(maxIterations) + 1
    ensures policy.Some? ==> stop != Degenerate
    ensures policy.Some? ==>
      policy.value == if |history| == 1 then RandomBootstrap else Planned(solutions[|history| - 2].weights)
  {
    var maxSteps := MaximumEpisodeLength(expertEpisodes);
    var initialState := GetInitialState(expertEpisodes);
    if initialState.None? {
      cfg := Setting([], (p: PolicyRef, m: nat, r: nat, j: nat) => [], 0, 0, mapping.functions, gamma, epsilon, SharedScalar);
      return None, [], [], [], Exhausted, cfg;
    }
    CommonStartIsEveryStart(expertEpisodes);
    var start := initialState.value;
    var expert := GenerateExpertFeatureExpectations(expertEpisodes, mapping, gamma);
    var setting := IrlSetting(mapping, expertEpisodes, gamma, epsilon, run, start, SharedScalar);
    cfg := setting;
    // (1) the random policy, (1b) its feature expectations over one episode
    var fe := GenerateFeatureExpectations(run(RandomBootstrap, start, maxSteps, 0), mapping, gamma);
    RoundFEIsOneRun(cfg, run, start, RandomBootstrap, 0);
    var p;
    p, history, solutions, attempts, stop := TildeLoop(setting, mapping, run, start, qp, fe, maxIterations);
    policy := Some(p);
  }

  // ---------------------------------------------------------------------------
  // projectionMethod
  // ---------------------------------------------------------------------------

  /** The loop of projectionMethod from the bootstrap entry of the history on. No
      score is recorded. When the projection step would divide 0 by 0 the source
      goes on with NaN; the model stops there with Degenerate. */
  method ProjectionLoop<S>(cfg: Setting<S>, mapping: FeatureMapping<S>, run: (PolicyRef, S, nat, nat) -> seq<S>, start: S,
                           root: real -> real, bootstrapFE: Vector, maxIterations: int)
    returns (policy: PolicyRef, history: seq<Vector>, ghost projections: seq<Vector>,
             ghost solutions: seq<FeatureWeights>, stop: Stop)
    requires RunsFrom(cfg, run, start) && cfg.features == mapping.functions
    requires |cfg.expert| == |cfg.features| == |bootstrapFE| && IsSqrt(root)
    ensures 1 <= |history| <= Iterations(maxIterations) + 1 && history[0] == bootstrapFE
    ensures |history| - 1 <= |projections| == |solutions| <= Iterations(maxIterations)
    ensures ProjectionRoundsHold(cfg, history, projections, solutions, |history| - 1)
    ensures stop == Converged ==> (|solutions| == |history| &&
      ProjectionStep(cfg, history, projections, |history| - 1) && Weighed(cfg, projections, solutions, |history| - 1) &&
      solutions[|history| - 1].score <= cfg.epsilon)
    ensures stop == Degenerate ==> (|solutions| + 1 == |history| && |solutions| > 0 &&
      |history[|solutions|]| == |projections[|solutions| - 1]| == |cfg.expert| &&
      !Divides(cfg.kind, history[|solutions|], projections[|solutions| - 1]))
    ensures stop == Exhausted ==> |solutions| + 1 == |history| && |solutions| == Iterations(maxIterations)
    ensures stop != NoSolution
    ensures policy == if |history| == 1 then RandomBootstrap else Planned(solutions[|history| - 2].weights)
  {
    policy := RandomBootstrap;
    history := [bootstrapFE];
    projections, solutions := [], [];
    var curFE := bootstrapFE;
    var lastProjFE: Option<Vector> := None;
    var i := 0;
    while i < maxIterations
      invariant 0 <= i <= Iterations(maxIterations)
      invariant |history| == i + 1 && curFE == history[i] && history[0] == bootstrapFE
      invariant |curFE| == |cfg.expert| && |projections| == |solutions| == i
      invariant ProjectionRoundsHold(cfg, history, projections, solutions, i)
      invariant lastProjFE == if i == 0 then None else Some(projections[i - 1])
      invariant lastProjFE.Some? ==> |lastProjFE.value| == |cfg.expert|
      invariant policy == if i == 0 then RandomBootstrap else Planned(solutions[i - 1].weights)
    {
      if lastProjFE.Some? && !Divides(cfg.kind, curFE, lastProjFE.value) {
        return policy, history, projections, solutions, Degenerate;
      }
      // (2) project the expert, then weigh; lastProjFE is replaced before the test
      var newProjFE, featureWeights := ProjectionStepAt(cfg, root, curFE, lastProjFE, history, projections, solutions, i);
      lastProjFE := Some(newProjFE);
      projections, solutions := projections + [newProjFE], solutions + [featureWeights];
      if featureWeights.score <= cfg.epsilon {
        // (3) stop: the distance to the expert is within epsilon
        return policy, history, projections, solutions, Converged;
      }
      // (4) plan for the reward w . phi, (5) one episode from the start state
      policy := Planned(featureWeights.weights);
      curFE := GenerateFeatureExpectations(run(policy, start, cfg.maxSteps, i + 1), mapping, cfg.gamma);
      RoundFEIsOneRun(cfg, run, start, policy, i + 1);
      ProjectionRoundsNext(cfg, history, projections, solutions, curFE, i);
      history := history + [curFE];
      i := i + 1;
    }
    stop := Exhausted;
  }

  /** With epsilon >= 0 the per-coordinate step ends the loop by its second
      iteration: the projection it computes is the expert itself, at distance 0. */
  lemma PerCoordinateStopsEarly<S>(cfg: Setting<S>, history: seq<Vector>, projections: seq<Vector>,
                                   solutions: seq<FeatureWeights>)
    requires cfg.kind == PerCoordinate && 0.0 <= cfg.epsilon && cfg.count > 0
    requires 1 <= |history| && |history| - 1 <= |projections| && |history| - 1 <= |solutions|
    requires ProjectionRoundsHold(cfg, history, projections, solutions, |history| - 1)
    ensures |history| <= 2
  {
    if |history| > 2 {
      assert ProjectionRound(cfg, history, projections, solutions, 1);
      PerCoordinateIsExpert(cfg.expert, history[1], projections[0]);
      ScoreAtExpert(cfg.expert, solutions[1]);
      assert false;
    }
  }

  /** projectionMethod corrected: a random policy that keeps its cache
      (BootstrapFirstAction) in place of the standalone one, which throws in
      BootstrapAsWritten. Null without a common start state, otherwise the
      projection loop with the per-coordinate step of FeatureWeights, from the
      bootstrap estimate of one episode of the random policy. */
  method ProjectionMethod<S(==)>(mapping: FeatureMapping<S>, expertEpisodes: seq<seq<S>>, gamma: real,
                                 epsilon: real, maxIterations: int, run: (PolicyRef, S, nat, nat) -> seq<S>,
                                 root: real -> real)
    returns (policy: Option<PolicyRef>, history: seq<Vector>, ghost projections: seq<Vector>,
             ghost solutions: seq<FeatureWeights>, stop: Stop, ghost cfg: Setting<S>)
    requires IsSqrt(root)
    ensures policy.None? <==> CommonStart(expertEpisodes).None?
    ensures policy.Some? ==> (|expertEpisodes| > 0 &&
      cfg == IrlSetting(mapping, expertEpisodes, gamma, epsilon, run, CommonStart(expertEpisodes).value, PerCoordinate))
    ensures policy.Some? ==> 1 <= |history| <= Iterations(maxIterations) + 1
    ensures policy.Some? ==> history[0] == RoundFE(cfg, RandomBootstrap, 0)
    ensures policy.Some? ==> |history| - 1 <= |projections| == |solutions| <= Iterations(maxIterations)
    ensures policy.Some? ==> ProjectionRoundsHold(cfg, history, projections, solutions, |history| - 1)
    ensures policy.Some? ==> ProjectionsValid(cfg, history, projections, solutions)
    ensures policy.Some? ==> forall k :: 0 < k < |solutions| ==> solutions[k].score <= solutions[k - 1].score
    ensures policy.Some? && 0.0 <= epsilon ==> |history| <= 2
    ensures policy.Some? && stop == Converged ==> |solutions| == |history| && solutions[|history| - 1].score <= epsilon
    ensures policy.Some? && stop == Exhausted ==> |solutions| + 1 == |history| && |solutions| == Iterations(maxIterations)
    ensures policy.Some? ==> stop != NoSolution
    ensures policy.Some? ==>
      policy.value == if |history| == 1 then RandomBootstrap else Planned(solutions[|history| - 2].weights)
  {
    var maxSteps := MaximumEpisodeLength(expertEpisodes);
    var initialState := GetInitialState(expertEpisodes);
    if initialState.None? {
      cfg := Setting([], (p: PolicyRef, m: nat, r: nat, j: nat) => [], 0, 0, mapping.functions, gamma, epsilon, PerCoordinate);
      return None, [], [], [], Exhausted, cfg;
    }
    CommonStartIsEveryStart(expertEpisodes);
    var start := initialState.value;
    var expert := GenerateExpertFeatureExpectations(expertEpisodes, mapping, gamma);
    var setting := IrlSetting(mapping, expertEpisodes, gamma, epsilon, run, start, PerCoordinate);
    cfg := setting;
    // (1) the random policy, (1b) its feature expectations over one episode
    var fe := GenerateFeatureExpectations(run(RandomBootstrap, start, maxSteps, 0), mapping, gamma);
    RoundFEIsOneRun(cfg, run, start, RandomBootstrap, 0);
    var p;
    p, history, projections, solutions, stop := ProjectionLoop(setting, mapping, run, start, root, fe, maxIterations);
    ProjectionsValidFromRounds(cfg, history, projections, solutions);
    ProjectionScoresNonIncreasing(cfg, history, projections, solutions);
    if 0.0 <= epsilon {
      PerCoordinateStopsEarly(cfg, history, projections, solutions);
    }
    policy := Some(p);
  }
}
