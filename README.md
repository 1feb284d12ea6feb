# Apprenticeship learning via inverse reinforcement learning — a Dafny model

This project models the core of ALviaIRL, a Java implementation (on top of the
BURLAP planning library) of Abbeel and Ng's "Apprenticeship Learning via Inverse
Reinforcement Learning" (2004). It covers:

- **Feature expectations.** Each feature's discounted count, summed over an
  episode's states and averaged over the episodes (`Estimator`).
- **The learning loops.** Both copies are modelled: the controllers in
  `ApprenticeshipLearning` (`Apprenticeship`) and in `InverseReinforcementLearning`
  (`InverseRL`). Each has two loops:
  - the *max-margin* loop, which solves a quadratic program for weights w and a
    margin t;
  - the *projection* loop, which projects the expert's feature expectations
    onto the line through the last projection and the newest feature
    expectations.
- **Steps shared by both loops** (`Weights`, `Rewards`, `Features`): the weight
  and score computations, the linear reward functions w·φ, and the feature
  mapping.
- **The random bootstrap policy** (`RandomPolicies`), with its lazily filled
  per-state distribution cache.
- **The hand-written expert** of the macro-cell grid world (`ExpertPolicies`).
- **The macro-cell grid worlds** (`IRLGrid`, `MacroGrid`) and their rectangle
  features (`InMacroCells`).
- **The driving world's state text format and its random start states**
  (`DrivingWorld`).
- **The computing parts of the convergence experiments** (`Convergence`): the
  mimic policy, the text of the results file, and the scaling of a score history.

Modelling choices:

- Java `double` becomes `real`.
- `Math.sqrt` is a parameter `root`, required to be the non-negative square root.
- Some BURLAP services become oracle parameters:
  - planning a policy for a reward function and sampling episodes from it;
  - the JOptimizer quadratic-program solver;
  - `Random`.

  The contracts say what the model assumes of each oracle.
- Java's exceptions become the `Failure` case of a `Result`:
  - `NullPointerException`;
  - `ArrayIndexOutOfBounds` / `IndexOutOfBoundsException`;
  - `NumberFormatException`;
  - `IllegalArgumentException`.
- Java library behaviour the core depends on is written out in `JavaStrings`
  and `Shuffling`:
  - `Integer.toString`, `Integer.parseInt`;
  - `Double.toString` of integral values;
  - `String.split`, which drops trailing empty strings;
  - `Collections.shuffle`, driven by its random picks;
  - int division and 32-bit wrap-around;
  - `HashMap.put` overwriting.

## Model

| member | source | states |
|---|---|---|
| Estimator.EstimateFeatureExpectation | src/burlap/behavior/singleagent/ApprenticeshipLearning.java:69-88 | the array the loops fill equals the estimate `Expected`: entry j is the total of gamma^i over steps i whose state satisfies feature j, divided by the number of episodes |
| Estimator.EstimateEpisodeFeatureExpectation | src/burlap/behavior/singleagent/ApprenticeshipLearning.java:55-59 | the one-episode overload is the list estimate of a one-element list, which is the undivided per-episode counts |
| Estimator.AddWhereHolds | src/burlap/behavior/singleagent/ApprenticeshipLearning.java:75-79 | every entry whose feature holds in the state grows by gamma^i, every other entry is unchanged |
| Estimator.DivideAll | src/burlap/behavior/singleagent/ApprenticeshipLearning.java:84-86 | every entry becomes its old value divided by the episode count |
| Estimator.SingleEpisodeUndivided | src/burlap/behavior/singleagent/ApprenticeshipLearning.java:84-86 | on one episode the normalisation leaves the counts unchanged |
| Estimator.OneStateIndicator | src/burlap/behavior/singleagent/ApprenticeshipLearning.java:73-80 | the estimate of a one-state episode is the 0/1 indicator vector of the features true in that state |
| Estimator.EpisodeCountBounds | src/burlap/behavior/singleagent/ApprenticeshipLearning.java:74-80 | for gamma >= 0 one episode's discounted count of a feature lies between 0 and the geometric sum of its length |
| Estimator.TotalCountBounds | src/burlap/behavior/singleagent/ApprenticeshipLearning.java:73-81 | the count summed over k episodes no longer than maxLen lies between 0 and k times the geometric sum of maxLen |
| Estimator.ExpectedBounds | src/burlap/behavior/singleagent/ApprenticeshipLearning.java:69-88 | every entry of the estimate lies between 0 and 1 + gamma + ... + gamma^(maxLen-1) |
| InverseRL.GenerateFeatureExpectations | src/InverseReinforcementLearning.java:34-46 | the IRL per-episode estimate has one entry per feature and equals the undivided per-episode counts (the list estimate of one episode) |
| InverseRL.GenerateExpertFeatureExpectations | src/InverseReinforcementLearning.java:55-74 | the IRL expert estimate equals the averaged estimate `Expected` of the expert episodes, one entry per feature |
| InverseRL.CommonStartIsEveryStart | src/InverseReinforcementLearning.java:111-122 | when a common start exists, the first episode is non-empty and every non-empty episode starts in it |
| InverseRL.CommonStartAppend | src/InverseReinforcementLearning.java:114-118 | appending an episode keeps the common start unless that episode is non-empty and starts elsewhere, which makes it null |
| InverseRL.GetInitialState | src/InverseReinforcementLearning.java:111-122 | the loop returns the common start of the episodes, and null when there is no first non-empty episode or two starts differ |
| InverseRL.IrlSetting | src/InverseReinforcementLearning.java:138-161 | the setting the IRL controllers run in: the expert estimate, the longest expert episode, gamma, epsilon; every round is one episode from the common start |
| InverseRL.RoundFEIsOneRun | src/InverseReinforcementLearning.java:186-189 | a round's feature expectations are the undivided counts of the single episode run from the initial state |
| InverseRL.Iterations | src/InverseReinforcementLearning.java:163 | a negative iteration count runs the loop zero times, otherwise exactly maxIterations times |
| InverseRL.GeneratePolicyTildeAsWritten | src/InverseReinforcementLearning.java:138-161 | as written, generatePolicyTilde returns null without a common start and otherwise always throws NullPointerException: the bootstrap episode of the standalone random policy queries its never-created cache |
| InverseRL.BootstrapAsWritten | src/InverseReinforcementLearning.java:246-250 | evaluateBehavior of the standalone RandomPolicy: an episode of length 0 is the start state alone; any longer one throws NullPointerException on the first getAction |
| InverseRL.BootstrapFirstAction | src/burlap/behavior/singleagent/ApprenticeshipLearning.java:576-582 | with the cached random policy the first query of the start state succeeds with the running-sum selection over its normalised draws, and picks an action for positive draws and a roll below 1 |
| InverseRL.TildeRound | src/InverseReinforcementLearning.java:164-169 | step (2): a null answer is exactly the solver's null on call i to the whole history; otherwise the answer is recorded as round i, with attempt i, and it is feasible; the request is ApprenticeshipLearning's max-margin request (see Left out) |
| InverseRL.PlanAndEvaluate | src/InverseReinforcementLearning.java:172-189 | steps (4)-(5): the planned policy is the one for the solved weights, and the new history entry completes one more max-margin round without changing what the earlier solutions answered |
| InverseRL.TildeLoop | src/InverseReinforcementLearning.java:163-192 | every completed iteration separated the expert from the history so far with score above epsilon; solution k is the split of the solver's answer on call k to the first k+1 history entries; stops on convergence with a feasible solution, on a null answer to the whole history, or after all iterations; the policy is the last planned one; the request solved is ApprenticeshipLearning's (see Left out) |
| InverseRL.GeneratePolicyTilde | src/InverseReinforcementLearning.java:138-195 | with the cached random policy bootstrapping: null exactly when there is no common start; otherwise the history starts with the random policy's estimate and the loop's guarantees hold, solution k being the solver's answer on call k to ApprenticeshipLearning's request (see Left out) |
| InverseRL.ProjectionLoop | src/InverseReinforcementLearning.java:256-297 | every completed iteration projected, weighed and scored above epsilon; a stop is convergence, all iterations run, or a 0/0 projection step |
| InverseRL.PerCoordinateStopsEarly | src/InverseReinforcementLearning.java:256-273 | with the per-coordinate projection step and epsilon >= 0, the loop never runs past its second iteration |
| InverseRL.ProjectionMethod | src/InverseReinforcementLearning.java:216-300 | with the cached random policy bootstrapping: null exactly when there is no common start; otherwise the history starts with the random policy's estimate, every projection is described, the scores never increase, and at most two history entries are made |
| Apprenticeship.Abs | src/burlap/behavior/singleagent/ApprenticeshipLearning.java:218 | Math.abs: non-negative and equal to x or -x |
| Apprenticeship.MaximumEpisodeLength | src/burlap/behavior/singleagent/ApprenticeshipLearning.java:177-182 | the result bounds every episode's length and is 0 or the length of some episode |
| Apprenticeship.SampleEpisodes | src/burlap/behavior/singleagent/ApprenticeshipLearning.java:305-309 | exactly policyCount episodes, the j-th being the j-th rollout of the policy in that round |
| Apprenticeship.EvaluatePolicy | src/burlap/behavior/singleagent/ApprenticeshipLearning.java:241-247 | the round's feature expectations are the estimate over the policyCount sampled episodes |
| Apprenticeship.LearningRequest.constructor | src/TestConvergence.java:79-84 | the request holds the features, expert episodes, gamma, epsilon, iteration count, policy count and method choice it was given, and no tHistory |
| Apprenticeship.LearningRequest.ExpertFE | src/burlap/behavior/singleagent/ApprenticeshipLearning.java:194-195 | the expert's estimate has one entry per feature |
| Apprenticeship.SolveWithRetry | src/burlap/behavior/singleagent/ApprenticeshipLearning.java:209-215 | the retry loop ends with the split of the solver's first answer to the unchanged request after the calls that failed; its weights have norm at most 1 and its score is at most the margin (minus 1) against every history entry |
| Apprenticeship.RetryNeverAnswers | src/burlap/behavior/singleagent/ApprenticeshipLearning.java:211-214 | a solver whose answer to a request does not depend on the call, and that fails on it once, never answers it: the retry loop then never ends |
| Apprenticeship.SolvedRoundsAt | src/burlap/behavior/singleagent/ApprenticeshipLearning.java:207-215 | solved round k is the split of the solver's answer, on its recorded call, to the first k+1 history entries |
| Apprenticeship.SolvedRoundsGrow | src/burlap/behavior/singleagent/ApprenticeshipLearning.java:246-248 | a new history entry leaves what the earlier solutions answered unchanged |
| Apprenticeship.SolvedRoundsAdd | src/burlap/behavior/singleagent/ApprenticeshipLearning.java:209-215 | the answer to the whole history extends the solved rounds by one |
| Apprenticeship.SolveRound | src/burlap/behavior/singleagent/ApprenticeshipLearning.java:209-215 | step (2): the retried solver's first answer to the whole history is the next solved round, and it is feasible |
| Apprenticeship.MaxMarginAdvance | src/burlap/behavior/singleagent/ApprenticeshipLearning.java:222-248 | steps (4)-(5): the margin goes to tHistory[i], the planned policy is the one for the weights, and the new estimate completes one more round |
| Apprenticeship.RecordScore | src/burlap/behavior/singleagent/ApprenticeshipLearning.java:222 | writing tHistory[i] extends the record of completed scores by iteration i |
| Apprenticeship.MaxMarginLoop | src/burlap/behavior/singleagent/ApprenticeshipLearning.java:207-251 | every completed iteration was separated by a feasible solution with abs(score) > epsilon, and tHistory holds exactly their scores; solution k is the split of the solver's first answer to the first k+1 history entries; on convergence the last solution is feasible with abs(score) <= epsilon; otherwise all iterations ran |
| Apprenticeship.MaxMarginMethod | src/burlap/behavior/singleagent/ApprenticeshipLearning.java:174-255 | the request's tHistory is a fresh array of maxIterations recorded scores; the history starts with one random-policy episode's estimate; the loop's guarantees hold, including which solver answer each solution is |
| Apprenticeship.MaxMarginRoundsExtend | src/burlap/behavior/singleagent/ApprenticeshipLearning.java:246-248 | completed max-margin rounds stay completed when the history and solutions grow |
| Apprenticeship.RoundsHoldNext | src/burlap/behavior/singleagent/ApprenticeshipLearning.java:207-251 | a feasible solution with abs(score) > epsilon, followed by the new round's estimate, completes one more round |
| Apprenticeship.RecordedNext | src/burlap/behavior/singleagent/ApprenticeshipLearning.java:222 | storing the score of iteration n extends the recorded prefix by one |
| Apprenticeship.RecordedExtend | src/burlap/behavior/singleagent/ApprenticeshipLearning.java:222 | the recorded prefix does not depend on later solutions |
| Apprenticeship.NextProjection | src/burlap/behavior/singleagent/ApprenticeshipLearning.java:323-329 | the first projection is curFE itself, later ones the projection step; the weights point from it to the expert and the score is their length |
| Apprenticeship.ProjectionStepAt | src/burlap/behavior/singleagent/ApprenticeshipLearning.java:323-331 | the new projection and weights extend the projections and solutions as a projected, weighed iteration |
| Apprenticeship.ProjectionStepRecorded | src/burlap/behavior/singleagent/ApprenticeshipLearning.java:323-332 | step (2) of projectionMethod: the projected, weighed iteration extends the projections and solutions, and tHistory[i] records its distance |
| Apprenticeship.ProjectionPlan | src/burlap/behavior/singleagent/ApprenticeshipLearning.java:340-362 | steps (4)-(5): the planned policy is the one for the weights, and the new estimate completes one more projection round |
| Apprenticeship.ProjectionAppended | src/burlap/behavior/singleagent/ApprenticeshipLearning.java:323-331 | appending iteration i's projection and weights makes it a projection step that is weighed |
| Apprenticeship.ProjectionRoundsExtend | src/burlap/behavior/singleagent/ApprenticeshipLearning.java:360-361 | completed projection rounds stay completed when the history, projections and solutions grow |
| Apprenticeship.ProjectionRoundsKeep | src/burlap/behavior/singleagent/ApprenticeshipLearning.java:331 | completed projection rounds stay completed when only projections and solutions grow |
| Apprenticeship.ProjectionRoundsNext | src/burlap/behavior/singleagent/ApprenticeshipLearning.java:319-364 | a projected, weighed iteration with score > epsilon, followed by the new round's estimate, completes one more round |
| Apprenticeship.NonPositiveFactor | src/burlap/behavior/singleagent/ApprenticeshipLearning.java:467 | a factor whose product with a positive number is not positive is itself not positive |
| Apprenticeship.RootMonotone | src/burlap/behavior/singleagent/ApprenticeshipLearning.java:526 | of two non-negative numbers, the one with the smaller square is the smaller |
| Apprenticeship.ScoreAtExpert | src/burlap/behavior/singleagent/ApprenticeshipLearning.java:512-528 | weights from the expert to itself have score 0 |
| Apprenticeship.ScoreStep | src/burlap/behavior/singleagent/ApprenticeshipLearning.java:323-330 | one projection step never increases the score |
| Apprenticeship.ProjectionScoresNonIncreasing | src/burlap/behavior/singleagent/ApprenticeshipLearning.java:319-364 | the projection method's scores t never increase from one iteration to the next |
| Apprenticeship.ProjectionLoop | src/burlap/behavior/singleagent/ApprenticeshipLearning.java:319-364 | every completed iteration projected, weighed and scored above epsilon, and tHistory holds every computed score; on convergence the last one is <= epsilon; a Degenerate stop means curFE equalled the last projection |
| Apprenticeship.ProjectionsValidFromRounds | src/burlap/behavior/singleagent/ApprenticeshipLearning.java:319-364 | the loop's outcome describes every projection it computed |
| Apprenticeship.ProjectionRun | src/burlap/behavior/singleagent/ApprenticeshipLearning.java:319-364 | the loop's guarantees plus: every computed projection is valid and the scores never increase |
| Apprenticeship.ProjectionMethod | src/burlap/behavior/singleagent/ApprenticeshipLearning.java:277-367 | the history starts with the random policy's averaged estimate; the scores never increase; tHistory reaches the request only when every iteration ran, otherwise it is unchanged |
| Apprenticeship.GetLearnedPolicy | src/burlap/behavior/singleagent/ApprenticeshipLearning.java:148-156 | null exactly for an invalid request, which is left unchanged; otherwise usingMaxMargin selects the method and each branch keeps its guarantees: max-margin hands back a fresh recorded tHistory, solved rounds and feasible stops; projection starts from the random policy's estimate, describes every projection, never increases the score, and changes tHistory only when every iteration ran |
| Weights.ProjectionSums | src/burlap/behavior/singleagent/ApprenticeshipLearning.java:456-465 | the numerator is the dot product of the direction with expert - lastProj, and the denominator the direction's squared length |
| Weights.DirectionZeroIff | src/burlap/behavior/singleagent/ApprenticeshipLearning.java:464-467 | the denominator is 0 exactly when lastFE equals lastProj |
| Weights.ProjectExpertFE | src/burlap/behavior/singleagent/ApprenticeshipLearning.java:450-474 | the array loop computes the orthogonal projection of the expert onto the line through lastProj and lastFE |
| Weights.ResidualForm | src/burlap/behavior/singleagent/ApprenticeshipLearning.java:469-471 | expert minus the new projection is (expert - lastProj) minus the coefficient times the direction |
| Weights.ProjectionOrthogonal | src/burlap/behavior/singleagent/ApprenticeshipLearning.java:450-474 | the residual expert - projection is orthogonal to the direction lastFE - lastProj |
| Weights.ProjectionOfPointOnLine | src/burlap/behavior/singleagent/ApprenticeshipLearning.java:450-474 | an expert already on the line is its own projection |
| Weights.ProjectionNoFarther | src/burlap/behavior/singleagent/ApprenticeshipLearning.java:450-474 | the new projection is no farther from the expert than the last one |
| Weights.ProjectExpertFEPerCoordinate | src/FeatureWeights.java:118-138 | the array loop computes the per-coordinate projection as written |
| Weights.PerCoordinateIsExpert | src/FeatureWeights.java:128-135 | when every coordinate moves, the per-coordinate step returns the expert itself |
| Weights.ProjectionsDiffer | src/FeatureWeights.java:132-134 | on expert (1,0), lastFE (1,1), lastProj (0,0) the shared step gives (0.5,0.5) and the per-coordinate step (1,0) |
| Weights.CoordinateStepCancels | src/FeatureWeights.java:132-134 | one coordinate's step, with d·(e-p)/(d·d), cancels to e |
| Weights.RootOfZero | src/FeatureWeights.java:162 | the square root of 0 is 0 |
| Weights.Difference | src/FeatureWeights.java:154-157 | the weights are expert - projection |
| Weights.SquaredLength | src/FeatureWeights.java:160-161 | the score accumulator is the sum of squares of the weights |
| Weights.GetWeightsProjectionMethod | src/FeatureWeights.java:148-165 | the weights point from the projection to the expert, the score is their non-negative Euclidean length, and it is 0 exactly when the projection is the expert |
| Weights.ScoreZeroIff | src/burlap/behavior/singleagent/ApprenticeshipLearning.java:512-528 | the projection score is 0 exactly when the projection equals the expert |
| Weights.MarginObjective | src/burlap/behavior/singleagent/ApprenticeshipLearning.java:387-390 | the objective is -t: zero on every weight, -1 on t, no constant |
| Weights.MarginConstraint | src/burlap/behavior/singleagent/ApprenticeshipLearning.java:400-406 | constraint j has u(j)_i - uE_i on each weight, 1 on t and constant 1 |
| Weights.AssembleMaxMarginProblem | src/burlap/behavior/singleagent/ApprenticeshipLearning.java:379-413 | the loops build exactly the max-margin problem of the expert and the history |
| Weights.IdentityRowDot | src/burlap/behavior/singleagent/ApprenticeshipLearning.java:411-412 | row i of the matrix picks coordinate i of x, and the last row picks nothing |
| Weights.IdentityQuadForm | src/burlap/behavior/singleagent/ApprenticeshipLearning.java:411-413 | the matrix's quadratic form over the first m coordinates is their sum of squares |
| Weights.IdentityQuadFormFull | src/burlap/behavior/singleagent/ApprenticeshipLearning.java:411-413 | x'Px is the squared norm of the weights, t not included |
| Weights.MarginConstraintValue | src/burlap/behavior/singleagent/ApprenticeshipLearning.java:397-406 | constraint j evaluates to t + 1 - w·(uE - u(j)) |
| Weights.MaxMarginFeasibleMeaning | src/burlap/behavior/singleagent/ApprenticeshipLearning.java:392-413 | a feasible point has weights of squared norm <= 1 and t <= w·(uE - u(j)) - 1 for every history entry j |
| Weights.FeatureWeightsProblem | src/FeatureWeights.java:57-97 | FeatureWeights' request has the max-margin objective and constraints, a quadratic constraint with constant -1 instead of -0.5, and the KKT check on |
| Weights.FeatureWeightsFeasibleMeaning | src/FeatureWeights.java:80-93 | x is feasible for FeatureWeights' request exactly when it has n+1 entries, the weights have squared norm <= 2, and t <= w·(uE - u(j)) - 1 for every history entry; the zero A x = b holds for every x |
| Weights.MaxMarginInsideFeatureWeights | src/FeatureWeights.java:80-93 | every feasible point of ApprenticeshipLearning's request is feasible for FeatureWeights' request |
| Weights.FeatureWeightsWiderNorm | src/FeatureWeights.java:80-85 | the inclusion is strict: w = (1.25), t = 0 satisfies FeatureWeights' norm constraint and not ApprenticeshipLearning's |
| Weights.ExpertInHistoryMargin | src/burlap/behavior/singleagent/ApprenticeshipLearning.java:397-406 | if the expert is in the history, every feasible t is at most -1 |
| Weights.SplitPacked | src/burlap/behavior/singleagent/ApprenticeshipLearning.java:433-436 | splitting w followed by t gives back (w, t) |
| Weights.SolveFeatureWeights | src/burlap/behavior/singleagent/ApprenticeshipLearning.java:379-437 | null exactly when the solver fails; otherwise the result is the solver's solution split into the weights and the score, the weights have norm <= 1 and the score is a margin (minus 1) against every history entry |
| Weights.SolveFeatureWeightsAsWritten | src/FeatureWeights.java:49-105 | with a non-empty history the difference loop, which fills difference[k] = u[k] - uE[k], reads past the end of the expectations; with none, the response of a solver never run is null |
| Rewards.WeightedSumIsDot | src/burlap/behavior/singleagent/ApprenticeshipLearning.java:104-113 | the reward loop's sum equals w·φ(s), with φ the 0/1 indicator vector |
| Rewards.NoTrueFeatureZero | src/burlap/behavior/singleagent/ApprenticeshipLearning.java:106-112 | a state satisfying no feature earns reward 0 |
| Rewards.LinearRewardFunction.FromArray | src/burlap/behavior/singleagent/ApprenticeshipLearning.java:98-101 | the reward function keeps a copy of the feature array and of the weights |
| Rewards.LinearRewardFunction.FromMapping | src/InverseReinforcementLearning.java:84-86 | the reward function keeps the mapping's functions and the weights |
| Rewards.LinearRewardFunction.Reward | src/InverseReinforcementLearning.java:89-101 | succeeds exactly when every true feature has a weight, and then returns the weighted sum; otherwise an out-of-range read |
| Rewards.NamedSumIsWeighted | src/FeatureMappingRF.java:21-30 | with every feature's name mapped to its weight, the name-keyed reward equals the weighted sum |
| Rewards.NamedNoTrueFeatureZero | src/FeatureMappingRF.java:21-30 | a state satisfying no feature earns reward 0 whatever the map holds |
| Rewards.NamedRewardFunction.constructor | src/FeatureMappingRF.java:17-20 | the reward function keeps copies of the functions and of the map |
| Rewards.NamedRewardFunction.Reward | src/FeatureMappingRF.java:21-30 | succeeds exactly when every true feature's name maps to a non-null value, then returns the sum of those values; otherwise unboxing null throws |
| Rewards.PutByName | src/IRLGridWorld.java:139-143 | the map built is the puts of the functions' names with the given values, in order |
| Rewards.PutAllPrefix | src/IRLGridWorld.java:139-143 | one more put extends the puts so far by that key and value |
| Rewards.PutAllKeys | src/IRLGridWorld.java:139-143 | the keys of the map are exactly the names put |
| Rewards.PutAllLastWins | src/MacroGridWorld.java:141-145 | a name never put again afterwards keeps the value of its last put |
| Features.CreateFeatureMapping | src/FeatureMapping.java:33-39 | null exactly for a null or empty array; otherwise a mapping of those functions with that size |
| Features.GetPropositionalFunctions | src/FeatureMapping.java:41-43 | a copy with the mapping's functions in order, as many as the feature size |
| Features.CopyFeatureMapping | src/FeatureMapping.java:23-25 | the copy has the same functions and size |
| Features.Indicator | src/burlap/behavior/singleagent/ApprenticeshipLearning.java:75-76 | entry j is 1 when feature j holds in the state and 0 otherwise |
| RandomPolicies.NormalisedCumSum | src/RandomPolicy.java:61-66 | the running sum of the first n probabilities is the first n draws' sum over the total |
| RandomPolicies.NormalisedIsDistribution | src/RandomPolicy.java:51-68 | with positive draws every stored probability lies in (0, 1] and they sum to 1 |
| RandomPolicies.SelectFromFirst | src/RandomPolicy.java:83-92 | an action is chosen exactly when some running sum reaches the roll, and it is the first such entry's action |
| RandomPolicies.SelectTotal | src/RandomPolicy.java:83-92 | for a roll below 1 and at least one action, getAction never falls through to null |
| RandomPolicies.RandomPolicy.Standalone | src/RandomPolicy.java:34-39 | the standalone constructor never creates the distribution cache |
| RandomPolicies.RandomPolicy.Nested | src/burlap/behavior/singleagent/ApprenticeshipLearning.java:576-582 | the nested class's constructor creates an empty cache |
| RandomPolicies.RandomPolicy.AddNewDistributionForState | src/RandomPolicy.java:47-69 | the cache maps the state to the normalised draws over its grounded actions, and nothing else changes |
| RandomPolicies.RandomPolicy.GetAction | src/RandomPolicy.java:72-93 | without a cache: a null dereference; otherwise the state's distribution is created on its first query only, and the result is the running-sum selection over it |
| RandomPolicies.RandomPolicy.GetActionDistributionForState | src/RandomPolicy.java:96-104 | the same lazy creation, returning the state's cached distribution |
| RandomPolicies.RandomPolicy.IsStochastic | src/RandomPolicy.java:107-109 | always true |
| ExpertPolicies.NewExpertPolicy | src/ExpertPolicy.java:18-26 | the goal is floor(0.75 · max) per axis and each heading is bound to its own action |
| ExpertPolicies.GoalIsThreeQuarters | src/ExpertPolicy.java:20-21 | floor(max · 0.75) is (3 · max) div 4, and lies in [0, max] for max >= 0 |
| ExpertPolicies.GetAction | src/ExpertPolicy.java:29-42 | succeeds exactly when there is an agent and the chosen action has a grounding, and then returns its first grounding; otherwise an out-of-range read |
| ExpertPolicies.IsStochastic | src/ExpertPolicy.java:45-48 | always false |
| ExpertPolicies.GetActionDistributionForState | src/ExpertPolicy.java:51-54 | always null |
| ExpertPolicies.ExpertStepApproaches | src/ExpertPolicy.java:33-40 | away from the goal each chosen move lowers the Manhattan distance to the goal by one; at the goal it steps south |
| ExpertPolicies.ExpertReachesGoal | src/ExpertPolicy.java:29-42 | following the expert's moves reaches the goal after exactly the Manhattan distance many steps |
| InMacroCells.CellHolds | src/InMacroCellPF.java:11-31 | the feature holds exactly when there is an agent inside the closed square [x, x + width] by [y, y + width], and is named "[x, y]" |
| InMacroCells.SharedEdge | src/InMacroCellPF.java:28-29 | an agent on the edge shared by two neighbouring cells satisfies both |
| InMacroCells.CellNameInner | src/InMacroCellPF.java:12 | inside the brackets the name holds the two printed ints joined by ", " |
| InMacroCells.CellNamePieces | src/InMacroCellPF.java:12 | splitting the inside of a name at ", " gives the two printed ints back |
| InMacroCells.CellNameInjective | src/InMacroCellPF.java:12 | different anchors give different names |
| InMacroCells.CellLayout | src/IRLGridWorld.java:119-134 | the nested loops place the cell of column i, row j at position i · ny + j, anchored at (i · cellW, j · cellH) |
| InMacroCells.LayoutPosition | src/IRLGridWorld.java:124-131 | position i · ny + j recovers column i and row j |
| IRLGrid.Wrap32 | src/IRLGridRF.java:39-41 | the wrapped value fits in an int |
| IRLGrid.Wrap32Id | src/IRLGridRF.java:39-41 | a value that fits in an int is unchanged by wrapping |
| IRLGrid.HalfOfQuadruple | src/IRLGridRF.java:39-40 | on grid coordinates, (4x)/8 in int arithmetic is x/2 |
| IRLGrid.MacroIndexInGrid | src/IRLGridRF.java:37-41 | inside the grid the index is (y/2)·4 + x/2, a valid macro-cell index |
| IRLGrid.MacroIndexCovers | src/IRLGridWorld.java:166-170 | every macro-cell index is the computed index of some grid cell |
| IRLGrid.NewIRLGridRFKeepsList | src/IRLGridRF.java:23-30 | the size is the list's size and getCellRewards returns the list given |
| IRLGrid.Reward | src/IRLGridRF.java:33-44 | a failure is always an out-of-range read |
| IRLGrid.RewardInGrid | src/IRLGridRF.java:33-44 | with 16 rewards, an agent of sprime inside the grid earns its 2x2 block's reward, whatever s and the action |
| IRLGrid.RewardingIsInside | src/IRLGridWorld.java:189-209 | being in a rewarding macro cell implies being in that macro cell |
| IRLGrid.ExactlyOneMacroCell | src/IRLGridWorld.java:160-179 | with getOneAgentState's cells, an agent in the grid is in cell k exactly when k is its 2x2 block |
| IRLGrid.GetOneAgentState | src/IRLGridWorld.java:82-107 | one agent, and 16 macro cells indexed in order whose rewards are the shuffled reward list |
| IRLGrid.OneAgentStateRewards | src/IRLGridWorld.java:88-97 | every handed-out reward lies in [0, 9] and at least 12 of the 16 are zero |
| IRLGrid.FloorBounds | src/IRLGridWorld.java:91 | (int)(draw · 10) lies in [0, 9] for a draw in [0, 1) |
| IRLGrid.GetMacroCellRewards | src/IRLGridWorld.java:109-117 | one reward per macro-cell object, in object order |
| IRLGrid.GetPropositionalFunctions | src/IRLGridWorld.java:119-134 | four 4-wide squares; position i·2 + j is anchored at (4i, 4j) |
| IRLGrid.FeaturesCoverGrid | src/IRLGridWorld.java:119-134 | an agent in the grid satisfies the feature of column x/4, row y/4 |
| IRLGrid.GenerateRandomRewards | src/IRLGridWorld.java:136-145 | the map is the puts of each function's name with its draw, in order |
| MacroGrid.GetOneAgentState | src/MacroGridWorld.java:85-111 | one agent and no macro-cell objects |
| MacroGrid.GetPropositionalFunctions | src/MacroGridWorld.java:113-128 | sixteen 2-wide squares; position i·4 + j is anchored at (2i, 2j) |
| MacroGrid.FeatureNamesDistinct | src/MacroGridWorld.java:113-128 | the sixteen features have pairwise different names |
| MacroGrid.GenerateRandomRewards | src/MacroGridWorld.java:130-147 | with fewer than 16 functions an out-of-range store; otherwise the map is the puts of the functions' names with the shuffled slots |
| MacroGrid.ShuffledSlots | src/MacroGridWorld.java:133-139 | after the shuffle exactly one slot holds the drawn reward, in [1, 10); 15 hold 0; the rest are null |
| MacroGrid.RewardsByName | src/MacroGridWorld.java:141-145 | with distinct names, each function's name maps to its shuffled value, and the keys are exactly the names |
| Shuffling.SwapPermutes | src/IRLGridWorld.java:97 | a swap is a permutation |
| Shuffling.StepPermutes | src/IRLGridWorld.java:97 | each shuffle step is a permutation |
| Shuffling.ShuffledUpToPermutes | src/IRLGridWorld.java:97 | the first k shuffle steps permute the list |
| Shuffling.ShuffledPermutes | src/MacroGridWorld.java:139 | Collections.shuffle permutes the list |
| Shuffling.ShuffledFrom | src/MacroGridWorld.java:139 | every shuffled entry comes from the list |
| Shuffling.Shuffle | src/MacroGridWorld.java:138-139 | the in-place shuffle leaves the array holding the shuffle of its old contents |
| Shuffling.ConstantCount | src/IRLGridWorld.java:93-95 | a constant list of length n holds its value n times and nothing else |
| JavaStrings.ParseInt | src/DrivingWorldStateParser.java:50-51 | a parsed value fits in an int; any failure is NumberFormatException |
| JavaStrings.ParseIntToString | src/DrivingWorldStateParser.java:50-51 | Integer.parseInt(Integer.toString(n)) == n for every int n |
| JavaStrings.ParseIntRejects | src/DrivingWorldStateParser.java:50-51 | a non-digit (other than a leading sign) makes parseInt throw |
| JavaStrings.IntToStringInjective | src/InMacroCellPF.java:12 | different ints print differently |
| JavaStrings.IntToStringChars | src/DrivingWorldStateParser.java:35 | a printed int is non-empty, all digits except a leading '-' |
| JavaStrings.DigitsRoundTrip | src/DrivingWorldStateParser.java:35 | the decimal digits of n read back as n |
| JavaStrings.DropTrailingZerosShape | src/DrivingWorldStateGenerator.java:41 | the trimmed digits are a prefix that does not end in '0' |
| JavaStrings.PiecesOfJoin | src/DrivingWorldStateParser.java:47 | cutting a join at its separator gives back the joined pieces when none holds the separator's first character |
| JavaStrings.SplitOfJoin | src/DrivingWorldStateParser.java:47 | the same for String.split, when the last piece is non-empty |
| JavaStrings.JoinPrefix | src/DrivingWorldStateParser.java:36-38 | appending ", " and one more segment extends the join by that segment |
| DrivingWorld.StateToString | src/DrivingWorldStateParser.java:25-42 | with no agent an out-of-range read; otherwise the agent's segment followed by each block's, joined by ", " |
| DrivingWorld.CollectStopsAtFailure | src/DrivingWorldStateParser.java:58-65 | the first failing block decides the outcome |
| DrivingWorld.CollectNext | src/DrivingWorldStateParser.java:58-65 | one more block either appends its point or fails with its error |
| DrivingWorld.CollectAll | src/DrivingWorldStateParser.java:58-65 | all blocks parsing gives all their points |
| DrivingWorld.StringToState | src/DrivingWorldStateParser.java:45-69 | the method returns the state the text describes, or the first parse error or out-of-range read |
| DrivingWorld.SetBlocks | src/DrivingWorldStateParser.java:58-65 | the block loop yields the parsed points of the remaining segments, or the first failure |
| DrivingWorld.SegmentSplits | src/DrivingWorldStateParser.java:59 | splitting a segment at " " gives the two printed coordinates |
| DrivingWorld.SegmentFree | src/DrivingWorldStateParser.java:47 | a segment is non-empty and holds no ',' |
| DrivingWorld.SegmentParses | src/DrivingWorldStateParser.java:59-61 | a segment of int coordinates parses back to its point |
| DrivingWorld.BlocksParse | src/DrivingWorldStateParser.java:58-65 | the block segments of int coordinates parse back to the blocks |
| DrivingWorld.SegmentsFree | src/DrivingWorldStateParser.java:47 | no segment is empty or holds ',' |
| DrivingWorld.TextRoundTrip | src/DrivingWorldStateParser.java:25-69 | stringToState(stateToString(s)) gives back the first agent and all blocks, for int coordinates |
| DrivingWorld.BadAgentToken | src/DrivingWorldStateParser.java:49-50 | a non-numeric agent x throws NumberFormatException |
| DrivingWorld.GenerateState | src/DrivingWorldStateGenerator.java:24-47 | no x locations: out-of-range read; height <= 0 with blocks to place: IllegalArgumentException; otherwise the agent at (x0, 0) and the blocks of the drawn points in iteration order, where addObject drops a block whose name is already taken: at most one block per round, names pairwise distinct, every block on the road, every drawn point's name present, and one block per round when the names differ |
| DrivingWorld.DrawPoints | src/DrivingWorldStateGenerator.java:34-38 | point k is (locations[xPick k], yPick k), one per round |
| DrivingWorld.BlocksInOrder | src/DrivingWorldStateGenerator.java:40-45 | the blocks are added in the set's iteration order over the points, each through addObject |
| DrivingWorld.AddInOrder | src/DrivingWorldStateGenerator.java:40-45 | the loop of addObject calls, tracking the names taken, yields exactly the objects whose name was not taken before |
| DrivingWorld.NamesOfAdd | src/DrivingWorldStateGenerator.java:44 | after addObject the names taken are the earlier ones plus the new object's |
| DrivingWorld.NamesOfIndex | src/DrivingWorldStateGenerator.java:44 | a name is taken exactly when some kept object has it |
| DrivingWorld.AddObjectsFrom | src/DrivingWorldStateGenerator.java:40-45 | addObject never adds more objects than it is given, and every kept object is one of them |
| DrivingWorld.AddObjectsDistinct | src/DrivingWorldStateGenerator.java:40-45 | the kept objects have pairwise different names |
| DrivingWorld.AddObjectsCovers | src/DrivingWorldStateGenerator.java:40-45 | every given object's name is the name of a kept object |
| DrivingWorld.AddObjectsAllNew | src/DrivingWorldStateGenerator.java:40-45 | objects with pairwise different names are all kept, in order |
| DrivingWorld.SameNameDropped | src/DrivingWorldStateGenerator.java:44 | of two objects with the same name only the first is kept |
| DrivingWorld.SamePointOneBlock | src/DrivingWorldStateGenerator.java:34-45 | two draws of the same point give one block |
| DrivingWorld.KeptOnRoad | src/DrivingWorldStateGenerator.java:34-45 | kept blocks drawn on the road stay on the road |
| DrivingWorld.BlockNameSmall | src/DrivingWorldStateGenerator.java:41 | for coordinates below 10^7 in size, the block name is "block" x ".0_" y ".0" |
| Convergence.FirstWinsKeys | src/TestConvergence.java:384-387 | the keys are exactly the states of the pairs |
| Convergence.FirstWinsValue | src/TestConvergence.java:384-387 | a state maps to the action of its first pair |
| Convergence.CandidatesOf | src/TestConvergence.java:381-391 | an episode's candidates are exactly its visited steps whose action exists |
| Convergence.AllCandidatesOf | src/TestConvergence.java:380-393 | all candidates are exactly the recordable steps of all episodes |
| Convergence.TableKeys | src/TestConvergence.java:379-393 | the table's keys are exactly the states at recordable steps |
| Convergence.TableValue | src/TestConvergence.java:379-393 | a state maps to the action of its first recordable visit |
| Convergence.RecordEpisode | src/TestConvergence.java:381-392 | the inner loop turns the table of the earlier pairs into the table of those followed by this episode's pairs |
| Convergence.MimicTheExpertPolicy.constructor | src/TestConvergence.java:371-394 | the table is built from the expert episodes |
| Convergence.MimicTheExpertPolicy.GetAction | src/TestConvergence.java:397-410 | a recorded state gives its recorded action; otherwise a grounded action of the state; no grounded action is an IllegalArgumentException |
| Convergence.MimicTheExpertPolicy.GetActionDistributionForState | src/TestConvergence.java:413-416 | always null |
| Convergence.MimicTheExpertPolicy.IsStochastic | src/TestConvergence.java:419-422 | always false |
| Convergence.MimicReplaysExpert | src/TestConvergence.java:396-404 | in a state the expert visited, the policy replays the expert's action at the first such visit |
| Convergence.WriteResultsText | src/TestConvergence.java:344-354 | the builder's text is every value followed by ", ", each row ended by a line break |
| Convergence.ResultsTextLines | src/TestConvergence.java:346-354 | the text is the row bodies joined by line breaks plus a final line break, or empty without rows |
| Convergence.RowBodyFree | src/TestConvergence.java:349-352 | a row body holds no line break when no printed value does |
| Convergence.ResultsTextPieces | src/TestConvergence.java:346-354 | read back line by line, the text gives one line per row and an empty remainder |
| Convergence.ScaleHistory | src/TestConvergence.java:90-92 | a null tHistory (a converged projection run) throws NullPointerException once an iteration runs; otherwise the first maxIterations entries are scaled by (1 - GAMMA), the rest unchanged, and a shorter history throws once its end is passed |
| Convergence.ScaledShrinks | src/TestConvergence.java:90-92 | with 0 <= GAMMA <= 1 a non-negative history stays non-negative and no entry grows |

## Left out

- Planning and sampling are the `rollout` / `run` oracle parameters:
  - the BURLAP planners (`plannerInit`, `planFromState`);
  - `DDPlannerPolicy`, `GreedyQPolicy`;
  - `Policy.evaluateBehavior`;
  - `StateGenerator.generateState`.
- JOptimizer is the `qp` oracle. It is assumed to return feasible points of the stated problem, or null.
- Transition dynamics and the domain constructors are not part of this model:
  - `IRLGridWorld.generateDomain`;
  - the 0.7 success probability;
  - `DrivingGridWorld`.
- Randomness is a parameter:
  - `Random`, `Math.random`;
  - the picks `Collections.shuffle` makes;
  - the iteration order of a `HashSet`.

  Contracts hold for every value of those parameters.
- States are compared by equality; `NameDependentStateHashFactory` is not part of this model.
- Floating point is out of scope; `real` stands in for `double`:
  - rounding, NaN and infinities are not modelled;
  - a projection step dividing 0 by 0 (NaN in Java) stops the model's loop with `Degenerate`, where the Java loop would go on with NaN values.
- Estimator.EstimateFeatureExpectation, InverseRL.GenerateExpertFeatureExpectations: require at least one episode. With none, Java divides 0 by 0 and returns NaN entries.
- InverseRL.GeneratePolicyTilde, InverseRL.ProjectionMethod: compute the expert estimate only after the null check of the initial state. The source computes it first, but then returns null whenever there are no episodes.
- Apprenticeship.MaxMarginMethod, Apprenticeship.ProjectionMethod: take `maxIterations` as a natural number. A negative value makes `new double[maxIterations]` throw in Java.
- `ApprenticeshipLearning.getInitialState`, which picks a random episode, is not modelled because no controller calls it. The experiment drivers (`IRLGridWorldDemo`, `DrivingGridworldDemo`, `IRLVITest`, `IRLGraphGeneration`, `Sampler`, the remaining experiments of `TestConvergence`) and the visualiser are not part of this model.
- `ApprenticeshipLearningRequest` is not part of this model; `LearningRequest` holds only the fields the controllers read and write. `ALRequest` and `RandomStartStateGenerator` are not part of this model.
- Printing and file I/O are left out: `System.out.println`, and the file `writeResultsToFile` writes. Only the text built for the file is modelled.
- `Double.toString` of arbitrary values is the `format` parameter. It is written out only for integral values.
- The `GAMMA` constant of `TestConvergence` is a parameter.
- The unused `policyHistory` lists of both projection methods are not modelled.
- JavaStrings.ParseInt: accepts ASCII digits only. `Integer.parseInt` also accepts other Unicode decimal digits.
- IRLGrid.NewIRLGridRFKeepsList: the aliasing of the caller's list is not modelled, because lists are values here.
- Copies (`clone`, copy constructors) are invisible in a value model. Their effect, that later writes by the caller are not seen, holds trivially.
- `InMacroCell` / `InRewardingMacroCell` look up their objects by name, which throws a null dereference when an object is missing. The model takes the objects themselves, so that exception is not modelled.
- The attributes of the fresh agent object in the grid worlds' `getOneAgentState` are a parameter.
- IRLGrid.Reward: states only that its failures are out-of-range reads. Its value is stated by RewardInGrid for agents inside the grid.
- The 32-bit wrap-around of `Integer.parseInt`'s range is modelled. Overflow of the other int arithmetic is not modelled:
  - the loop counters;
  - `i * ny + j`.
- `State.addObject` is modelled by the rule the generator depends on: an object whose name is already taken is not added. Its other bookkeeping (the per-class object lists) is not part of this model.
- InverseRL.TildeRound, InverseRL.TildeLoop, InverseRL.GeneratePolicyTilde: hand the solver ApprenticeshipLearning's max-margin request (norm bound 1, KKT check off, no A and b), not the request FeatureWeights.solveFeatureWeights builds (FeatureWeightsProblem: norm bound sqrt 2, KKT check on, zero A and b). Their feasibility guarantees (`SumSq <= 1.0`) are about that corrected request. FeatureWeightsFeasibleMeaning states what FeatureWeights' request would admit, and FeatureWeightsWiderNorm shows the two differ.
- The planner fall-through is not modelled. ApprenticeshipLearning.java:232-237 and :346-351, and InverseReinforcementLearning.java:179-184 and :281-286, replace `policy` only for a `DeterministicPlanner` or a `QComputablePlanner`; with any other planner the previous policy (possibly the random bootstrap) is evaluated again. The model's `Planned(w)` leaves the planner's kind to the rollout oracle.
- Apprenticeship.SolveWithRetry, Apprenticeship.MaxMarginMethod: assume `EventuallySolves`, that retrying a request is eventually answered. JOptimizer gives the same outcome every time it is handed the same request, and the retry loop at ApprenticeshipLearning.java:211-214 never changes the request. So one failure means the Java loop never ends (RetryNeverAnswers). The model does not cover that non-terminating run.

## Findings

| source | as written | input that shows it | evidently intended | confidence | as-written member | corrected member |
|---|---|---|---|---|---|---|
| src/FeatureWeights.java:75-76 | the difference loop runs to `difference.length`, one past the end of the feature expectations, and `optimize()` is never called before `getOptimizationResponse()` | a direct call with any non-empty history: index `weightsSize` is read past the end (generatePolicyTilde as written never gets this far, see the next row) | the loop of ApprenticeshipLearning.java:402-405, bounded by the expectations' length, then a call of `optimize()` whose failure returns null; the corrected member also takes ApprenticeshipLearning's request constants in place of FeatureWeights' (norm bound 1 instead of sqrt 2, as the comment at FeatureWeights.java:82 states; KKT check off instead of on; no zero A and b), see FeatureWeightsWiderNorm | not executed; high | Weights.SolveFeatureWeightsAsWritten | Weights.SolveFeatureWeights |
| src/InverseReinforcementLearning.java:148-159 | generatePolicyTilde bootstraps with the standalone `RandomPolicy`, whose constructor (RandomPolicy.java:34-39) never creates `stateActionDistributionMapping`; `evaluateBehavior` calls `getAction`, which reads that map (RandomPolicy.java:76) | any expert episodes with a common start state (every expert episode then has at least one step): the bootstrap episode throws NullPointerException | a random policy that creates its cache, as the nested class of ApprenticeshipLearning.java:576-582 does, whose first query succeeds (BootstrapFirstAction) | not executed; high | InverseRL.GeneratePolicyTildeAsWritten | InverseRL.GeneratePolicyTilde |
| src/InverseReinforcementLearning.java:246-250 | projectionMethod bootstraps with the same standalone `RandomPolicy` and the same `evaluateBehavior` call | any expert episodes with a common start state: the bootstrap episode throws NullPointerException | the cached random policy, as above | not executed; high | InverseRL.BootstrapAsWritten | InverseRL.ProjectionMethod |
| src/FeatureWeights.java:132-134 | each coordinate has its own coefficient d·(e-p)/(d·d), so the new projection is the expert itself whenever every coordinate moves | expert (1,0), lastFE (1,1), lastProj (0,0) gives (1,0) instead of (0.5,0.5) | one shared coefficient over all coordinates (ApprenticeshipLearning.java:462-471): the orthogonal projection onto the line, which is no farther from the expert | not executed; medium | Weights.PerCoordinateIsExpert | Weights.ProjectExpertFE |
