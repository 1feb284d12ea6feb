/** Linear reward functions built from features: the weight form (reward =
    w . phi(s), step 4 of section 3 of Abbeel & Ng 2004) and the name-keyed form
    that looks each true feature's reward up in a map. */
module Rewards {
  import opened Wrappers
  import opened Vectors
  import opened Features

  /** The weight of feature i, or 0 where the weight array is too short (that
      case is reported as a failure by the reward methods, never summed). */
  function WeightAt(w: seq<real>, i: nat): real {
    if i < |w| then w[i] else 0.0
  }

  /** Sum of the weights of the first n functions that hold in s. */
  function WeightedSum<S>(fs: seq<PropFn<S>>, w: seq<real>, s: S, n: nat): real
    requires n <= |fs|
  {
    if n == 0 then 0.0
    else WeightedSum(fs, w, s, n - 1) + (if fs[n - 1].holds(s) then WeightAt(w, n - 1) else 0.0)
  }

  /** Every true feature has a weight (otherwise the weight array is read out of range). */
  predicate WeightsCover<S>(fs: seq<PropFn<S>>, w: seq<real>, s: S) {
    forall i :: 0 <= i < |fs| && fs[i].holds(s) ==> i < |w|
  }

  /** With one weight per feature, the weighted sum is the dot product of the
      weights with the state's indicator vector. */
  lemma {:induction false} WeightedSumIsDot<S>(fs: seq<PropFn<S>>, w: seq<real>, s: S, n: nat)
    requires |fs| == |w| && n <= |fs|
    ensures WeightedSum(fs, w, s, n) == DotTo(w, Indicator(fs, s), n)
  {
    if n > 0 {
      WeightedSumIsDot(fs, w, s, n - 1);
    }
  }

  /** A state in which no feature holds is worth 0. */
  lemma {:induction false} NoTrueFeatureZero<S>(fs: seq<PropFn<S>>, w: seq<real>, s: S, n: nat)
    requires n <= |fs|
    requires forall i :: 0 <= i < |fs| ==> !fs[i].holds(s)
    ensures WeightedSum(fs, w, s, n) == 0.0
  {
    if n > 0 {
      NoTrueFeatureZero(fs, w, s, n - 1);
    }
  }

  /** The reward function that generateRewardFunction returns: it keeps its own
      copies of the feature functions and the weights. */
  class LinearRewardFunction<!S> {
    const functions: seq<PropFn<S>>
    const weights: seq<real>

    /** ApprenticeshipLearning.generateRewardFunction: the array is cloned, so later
        writes to the caller's array are not seen. */
    constructor FromArray(featureFunctions: array<PropFn<S>>, featureWeights: seq<real>)
      ensures functions == featureFunctions[..] && weights == featureWeights
    {
      functions := featureFunctions[..];
      weights := featureWeights;
    }

    /** InverseReinforcementLearning.generateRewardFunction: the mapping is copied. */
    constructor FromMapping(mapping: FeatureMapping<S>, featureWeights: seq<real>)
      ensures functions == mapping.functions && weights == featureWeights
    {
      functions := mapping.functions;
      weights := featureWeights;
    }

    /** reward(state, a, sprime): the sum of the weights of the features true in
        state; the action and sprime play no part. A true feature without a weight
        is an out-of-range read. */
    method Reward<A>(state: S, a: A, sprime: S) returns (r: Result<real, JavaError>)
      ensures r.Success? <==> WeightsCover(functions, weights, state)
      ensures r.Success? ==> r.value == WeightedSum(functions, weights, state, |functions|)
      ensures r.Failure? ==> r.error == IndexOutOfBounds
    {
      var sum := 0.0;
      var i := 0;
      while i < |functions|
        invariant 0 <= i <= |functions|
        invariant forall k :: 0 <= k < i && functions[k].holds(state) ==> k < |weights|
        invariant sum == WeightedSum(functions, weights, state, i)
      {
        if functions[i].holds(state) {
          if i >= |weights| {
            return Failure(IndexOutOfBounds);
          }
          sum := sum + weights[i];
        }
        i := i + 1;
      }
      return Success(sum);
    }
  }

  /** Sum over the first n functions true in s of the reward stored under their
      name; a missing key or a null value counts as 0 here and is reported as a
      failure by the reward method. */
  function NamedSum<S>(fs: seq<PropFn<S>>, rewards: map<string, Option<real>>, s: S, n: nat): real
    requires n <= |fs|
  {
    if n == 0 then 0.0 else NamedSum(fs, rewards, s, n - 1) + NamedTerm(fs[n - 1], rewards, s)
  }

  /** The contribution of one function: its stored reward when it holds and the
      reward is present. */
  function NamedTerm<S>(f: PropFn<S>, rewards: map<string, Option<real>>, s: S): real {
    if f.holds(s) && f.name in rewards && rewards[f.name].Some? then rewards[f.name].value else 0.0
  }

  /** Every true feature's name maps to a non-null reward. */
  predicate NamesCovered<S>(fs: seq<PropFn<S>>, rewards: map<string, Option<real>>, s: S) {
    forall i :: 0 <= i < |fs| && fs[i].holds(s) ==> fs[i].name in rewards && rewards[fs[i].name].Some?
  }

  /** A map that stores weight w[i] under the name of function i turns the
      name-keyed reward into the weighted reward. */
  lemma {:induction false} NamedSumIsWeighted<S>(fs: seq<PropFn<S>>, rewards: map<string, Option<real>>, w: seq<real>, s: S, n: nat)
    requires n <= |fs| && |fs| == |w|
    requires forall i :: 0 <= i < |fs| ==> fs[i].name in rewards && rewards[fs[i].name] == Some(w[i])
    ensures NamedSum(fs, rewards, s, n) == WeightedSum(fs, w, s, n)
  {
    if n > 0 {
      NamedSumIsWeighted(fs, rewards, w, s, n - 1);
    }
  }

  /** A state in which no feature holds gets reward 0 from the name-keyed form. */
  lemma {:induction false} NamedNoTrueFeatureZero<S>(fs: seq<PropFn<S>>, rewards: map<string, Option<real>>, s: S, n: nat)
    requires n <= |fs|
    requires forall i :: 0 <= i < |fs| ==> !fs[i].holds(s)
    ensures NamedSum(fs, rewards, s, n) == 0.0
  {
    if n > 0 {
      NamedNoTrueFeatureZero(fs, rewards, s, n - 1);
    }
  }

  /** FeatureBasedRewardFunction (nested in ApprenticeshipLearning) and
      FeatureMappingRF: both copy the functions and the map at construction. */
  class NamedRewardFunction<!S> {
    const functions: seq<PropFn<S>>
    const rewards: map<string, Option<real>>

    constructor (fs: array<PropFn<S>>, rewardMap: map<string, Option<real>>)
      ensures functions == fs[..] && rewards == rewardMap
    {
      functions := fs[..];
      rewards := rewardMap;
    }

    /** reward(s, a, sprime): the sum of rewards.get(name) over the functions true
        in s; a missing name or a null value fails when it is unboxed. */
    method Reward<A>(s: S, a: A, sprime: S) returns (r: Result<real, JavaError>)
      ensures r.Success? <==> NamesCovered(functions, rewards, s)
      ensures r.Success? ==> r.value == NamedSum(functions, rewards, s, |functions|)
      ensures r.Failure? ==> r.error == NullPointer
    {
      var sum := 0.0;
      var i := 0;
      while i < |functions|
        invariant 0 <= i <= |functions|
        invariant forall k :: 0 <= k < i && functions[k].holds(s) ==>
          functions[k].name in rewards && rewards[functions[k].name].Some?
        invariant sum == NamedSum(functions, rewards, s, i)
      {
        var f := functions[i];
        if f.holds(s) {
          var boxed := if f.name in rewards then rewards[f.name] else None;
          if boxed.None? {
            return Failure(NullPointer);
          }
          sum := sum + boxed.value;
        }
        i := i + 1;
      }
      return Success(sum);
    }
  }

  /** The names of the functions, in order. */
  function Names<S>(fs: seq<PropFn<S>>): (r: seq<string>)
    ensures |r| == |fs| && forall i :: 0 <= i < |fs| ==> r[i] == fs[i].name
  {
    seq(|fs|, i requires 0 <= i < |fs| => fs[i].name)
  }

  /** A HashMap after put(names[i], values[i]) for i = 0, 1, ... in turn. */
  function PutAll(names: seq<string>, values: seq<Option<real>>): map<string, Option<real>>
    requires |names| == |values|
  {
    if |names| == 0 then map[]
    else PutAll(names[..|names| - 1], values[..|values| - 1])[names[|names| - 1] := values[|values| - 1]]
  }

  /** One more put extends the prefix by one. */
  lemma PutAllPrefix(names: seq<string>, values: seq<Option<real>>, i: nat)
    requires |names| == |values| && i < |names|
    ensures PutAll(names[..i + 1], values[..i + 1]) == PutAll(names[..i], values[..i])[names[i] := values[i]]
  {
    assert names[..i + 1][..i] == names[..i];
    assert values[..i + 1][..i] == values[..i];
  }

  /** The loop that puts value i under the name of function i, for every i. */
  method PutByName<S>(functions: seq<PropFn<S>>, values: seq<Option<real>>) returns (rewards: map<string, Option<real>>)
    requires |values| == |functions|
    ensures rewards == PutAll(Names(functions), values)
  {
    var names := Names(functions);
    rewards := map[];
    var i := 0;
    while i < |functions|
      invariant 0 <= i <= |functions|
      invariant rewards == PutAll(names[..i], values[..i])
    {
      PutAllPrefix(names, values, i);
      rewards := rewards[functions[i].name := values[i]];
      i := i + 1;
    }
    assert names[..i] == names;
    assert values[..i] == values;
  }

  /** The keys are exactly the names put. */
  lemma {:induction false} PutAllKeys(names: seq<string>, values: seq<Option<real>>)
    requires |names| == |values|
    ensures forall k :: k in PutAll(names, values) <==> k in names
  {
    if |names| > 0 {
      var n := |names| - 1;
      PutAllKeys(names[..n], values[..n]);
      assert names == names[..n] + [names[n]];
    }
  }

  /** A name put for the last time at position i keeps the value put there. */
  lemma {:induction false} PutAllLastWins(names: seq<string>, values: seq<Option<real>>, i: nat)
    requires |names| == |values| && i < |names|
    requires forall j :: i < j < |names| ==> names[j] != names[i]
    ensures names[i] in PutAll(names, values) && PutAll(names, values)[names[i]] == values[i]
  {
    var n := |names| - 1;
    if i < n {
      PutAllLastWins(names[..n], values[..n], i);
    }
  }
}
