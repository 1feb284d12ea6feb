/** The random bootstrap policy (src/RandomPolicy.java and the copy nested in
    ApprenticeshipLearning): for every state it first sees, it draws one number per
    grounded action, normalises the draws into a distribution and caches it; an
    action is chosen by comparing a uniform roll with the running sum of the
    cached probabilities. The random draws are parameters. */
module RandomPolicies {
  import opened Wrappers
  import opened Vectors

  datatype ActionProb<A> = ActionProb(action: A, p: real)

  /** Every draw of Random.nextDouble lies in [0, 1). */
  predicate UnitDraws(draws: seq<real>) {
    forall i :: 0 <= i < |draws| ==> 0.0 <= draws[i] < 1.0
  }

  /** Draws that can be normalised: some action and a non-zero total, or no action
      at all (the normalising loop then never divides). */
  predicate Normalisable(draws: seq<real>) {
    UnitDraws(draws) && (|draws| == 0 || Sum(draws) != 0.0)
  }

  /** The distribution stored for a state: action i with probability draw i / total. */
  function Normalised<A>(actions: seq<A>, draws: seq<real>): (r: seq<ActionProb<A>>)
    requires |actions| == |draws| && (|draws| == 0 || Sum(draws) != 0.0)
    ensures |r| == |actions|
    ensures forall i :: 0 <= i < |r| ==> r[i].action == actions[i]
  {
    seq(|actions|, i requires 0 <= i < |actions| => ActionProb(actions[i], draws[i] / Sum(draws)))
  }

  /** The running sum of the first n probabilities. */
  function CumSum<A>(dist: seq<ActionProb<A>>, n: nat): real
    requires n <= |dist|
  {
    if n == 0 then 0.0 else CumSum(dist, n - 1) + dist[n - 1].p
  }

  lemma AddDiv(a: real, b: real, s: real)
    requires s != 0.0
    ensures a / s + b / s == (a + b) / s
  {
  }

  lemma {:induction false} NormalisedCumSum<A>(actions: seq<A>, draws: seq<real>, n: nat)
    requires |actions| == |draws| && n <= |draws| && Sum(draws) != 0.0
    ensures CumSum(Normalised(actions, draws), n) == SumTo(draws, n) / Sum(draws)
  {
    if n > 0 {
      NormalisedCumSum(actions, draws, n - 1);
      AddDiv(SumTo(draws, n - 1), draws[n - 1], Sum(draws));
    }
  }

  lemma {:induction false} SumToAtLeast(draws: seq<real>, n: nat, k: nat)
    requires k < n <= |draws| && UnitDraws(draws)
    ensures draws[k] <= SumTo(draws, n)
  {
    if k < n - 1 {
      SumToAtLeast(draws, n - 1, k);
    } else {
      SumToNonNeg(draws, n - 1);
    }
  }

  lemma {:induction false} SumToNonNeg(draws: seq<real>, n: nat)
    requires n <= |draws| && UnitDraws(draws)
    ensures 0.0 <= SumTo(draws, n)
  {
    if n > 0 {
      SumToNonNeg(draws, n - 1);
    }
  }

  lemma DivLeOne(a: real, s: real)
    requires 0.0 < a <= s
    ensures 0.0 < a / s <= 1.0
  {
  }

  /** With positive draws the stored probabilities lie in (0, 1], follow the
      grounded actions in order, and sum to 1. */
  lemma NormalisedIsDistribution<A>(actions: seq<A>, draws: seq<real>)
    requires |actions| == |draws| && |draws| > 0 && Normalisable(draws)
    requires forall i :: 0 <= i < |draws| ==> 0.0 < draws[i]
    ensures forall i :: 0 <= i < |draws| ==> 0.0 < Normalised(actions, draws)[i].p <= 1.0
    ensures CumSum(Normalised(actions, draws), |draws|) == 1.0
  {
    SumToAtLeast(draws, |draws|, 0);
    forall i | 0 <= i < |draws|
      ensures 0.0 < Normalised(actions, draws)[i].p <= 1.0
    {
      SumToAtLeast(draws, |draws|, i);
      DivLeOne(draws[i], Sum(draws));
    }
    NormalisedCumSum(actions, draws, |draws|);
  }

  /** The selection rule of getAction from position k on: the first entry whose
      running sum (acc plus its probability) reaches the roll, or null. */
  function SelectFrom<A>(dist: seq<ActionProb<A>>, roll: real, k: nat, acc: real): Option<A>
    requires k <= |dist|
    decreases |dist| - k
  {
    if k == |dist| then None
    else if acc + dist[k].p >= roll then Some(dist[k].action)
    else SelectFrom(dist, roll, k + 1, acc + dist[k].p)
  }

  function Select<A>(dist: seq<ActionProb<A>>, roll: real): Option<A> {
    SelectFrom(dist, roll, 0, 0.0)
  }

  /** The running sum up to and including entry i reaches the roll. */
  predicate Reaches<A>(dist: seq<ActionProb<A>>, roll: real, i: nat)
    requires i < |dist|
  {
    CumSum(dist, i + 1) >= roll
  }

  /** From position k on, an action is chosen exactly when some running sum
      reaches the roll, and it is the action of the first such entry. */
  lemma {:induction false} SelectFromFirst<A>(dist: seq<ActionProb<A>>, roll: real, k: nat)
    requires k <= |dist|
    ensures SelectFrom(dist, roll, k, CumSum(dist, k)).Some? <==>
      exists i :: k <= i < |dist| && Reaches(dist, roll, i)
    ensures forall i :: (k <= i < |dist| && Reaches(dist, roll, i) &&
      forall j :: k <= j < i ==> !Reaches(dist, roll, j)) ==>
        SelectFrom(dist, roll, k, CumSum(dist, k)) == Some(dist[i].action)
    decreases |dist| - k
  {
    if k < |dist| && !Reaches(dist, roll, k) {
      SelectFromFirst(dist, roll, k + 1);
    }
  }

  /** A normalised distribution over at least one action always yields an action
      for a roll below 1. */
  lemma SelectTotal<A>(actions: seq<A>, draws: seq<real>, roll: real)
    requires |actions| == |draws| && |draws| > 0 && Normalisable(draws)
    requires forall i :: 0 <= i < |draws| ==> 0.0 < draws[i]
    requires roll < 1.0
    ensures Select(Normalised(actions, draws), roll).Some?
  {
    var dist := Normalised(actions, draws);
    NormalisedIsDistribution(actions, draws);
    SelectFromFirst(dist, roll, 0);
    assert Reaches(dist, roll, |dist| - 1);
  }

  /** RandomPolicy with its lazily filled per-state cache. hasCache says whether
      the cache map exists at all (the standalone class never creates it). */
  class RandomPolicy<S(==), A> {
    /** The grounded actions available in a state, in the domain's order. */
    const groundedActions: S -> seq<A>
    var hasCache: bool
    var distributions: map<S, seq<ActionProb<A>>>

    /** src/RandomPolicy.java: the cache map is never created. */
    constructor Standalone(grounded: S -> seq<A>)
      ensures groundedActions == grounded && !hasCache && distributions == map[]
    {
      groundedActions := grounded;
      hasCache := false;
      distributions := map[];
    }

    /** The class nested in ApprenticeshipLearning: the cache map is created empty. */
    constructor Nested(grounded: S -> seq<A>)
      ensures groundedActions == grounded && hasCache && distributions == map[]
    {
      groundedActions := grounded;
      hasCache := true;
      distributions := map[];
    }

    /** addNewDistributionForState: one draw per grounded action, summed, then
        each divided by the sum, and the list stored under the state. */
    method AddNewDistributionForState(s: S, draws: seq<real>)
      requires hasCache && |draws| == |groundedActions(s)| && Normalisable(draws)
      modifies this
      ensures hasCache
      ensures distributions == old(distributions)[s := Normalised(groundedActions(s), draws)]
    {
      var actions := groundedActions(s);
      var total := 0.0;
      var i := 0;
      while i < |draws|
        invariant 0 <= i <= |draws| && total == SumTo(draws, i)
      {
        total := total + draws[i];
        i := i + 1;
      }
      var dist: seq<ActionProb<A>> := [];
      i := 0;
      while i < |draws|
        invariant 0 <= i <= |draws| && |dist| == i
        invariant forall k :: 0 <= k < i ==> dist[k] == Normalised(actions, draws)[k]
      {
        dist := dist + [ActionProb(actions[i], draws[i] / total)];
        i := i + 1;
      }
      assert dist == Normalised(actions, draws);
      distributions := distributions[s := dist];
    }

    /** getAction: create the state's distribution on its first query, then walk
        the running sum of its probabilities until it reaches the roll. Without a
        cache map the first lookup dereferences null. */
    method GetAction(s: S, draws: seq<real>, roll: real) returns (r: Result<Option<A>, JavaError>)
      requires hasCache ==> |draws| == |groundedActions(s)| && Normalisable(draws)
      modifies this
      ensures hasCache == old(hasCache)
      ensures !hasCache ==> r == Failure(NullPointer) && distributions == old(distributions)
      ensures hasCache && s in old(distributions) ==> distributions == old(distributions)
      ensures hasCache && s !in old(distributions) ==>
        distributions == old(distributions)[s := Normalised(groundedActions(s), draws)]
      ensures hasCache ==> s in distributions && r == Success(Select(distributions[s], roll))
    {
      if !hasCache {
        return Failure(NullPointer);
      }
      if s !in distributions {
        AddNewDistributionForState(s, draws);
      }
      var dist := distributions[s];
      var probabilitySum := 0.0;
      var i := 0;
      while i < |dist|
        invariant 0 <= i <= |dist|
        invariant probabilitySum == CumSum(dist, i)
        invariant SelectFrom(dist, roll, i, probabilitySum) == Select(dist, roll)
      {
        probabilitySum := probabilitySum + dist[i].p;
        if probabilitySum >= roll {
          return Success(Some(dist[i].action));
        }
        i := i + 1;
      }
      return Success(None);
    }

    /** getActionDistributionForState: the same lazy creation, then a fresh copy of
        the stored list (a value here). */
    method GetActionDistributionForState(s: S, draws: seq<real>) returns (r: Result<seq<ActionProb<A>>, JavaError>)
      requires hasCache ==> |draws| == |groundedActions(s)| && Normalisable(draws)
      modifies this
      ensures hasCache == old(hasCache)
      ensures !hasCache ==> r == Failure(NullPointer) && distributions == old(distributions)
      ensures hasCache && s in old(distributions) ==> distributions == old(distributions)
      ensures hasCache && s !in old(distributions) ==>
        distributions == old(distributions)[s := Normalised(groundedActions(s), draws)]
      ensures hasCache ==> s in distributions && r == Success(distributions[s])
    {
      if !hasCache {
        return Failure(NullPointer);
      }
      if s !in distributions {
        AddNewDistributionForState(s, draws);
      }
      return Success(distributions[s]);
    }

    /** isStochastic: always true. */
    function IsStochastic(): (b: bool)
      ensures b
    {
      true
    }
  }
}
