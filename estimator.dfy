/** The feature-expectation estimator of apprenticeship learning (Abbeel & Ng 2004,
    section 2): entry j of the estimate is the discounted number of steps at which
    feature j holds, averaged over the episodes.
    States are abstract; an episode is the sequence of its states. */
module Estimator {
  import opened Vectors
  import opened Features

  /** Discounted count of feature f over the first t steps of one episode:
      the sum of gamma^i over the steps i < t whose state satisfies f. */
  function EpisodeCount<S>(ep: seq<S>, f: PropFn<S>, gamma: real, t: nat): real
    requires t <= |ep|
  {
    if t == 0 then 0.0
    else EpisodeCount(ep, f, gamma, t - 1) + (if f.holds(ep[t - 1]) then Pow(gamma, t - 1) else 0.0)
  }

  /** The discounted counts of the first k episodes added up. */
  function TotalCount<S>(eps: seq<seq<S>>, f: PropFn<S>, gamma: real, k: nat): real
    requires k <= |eps|
  {
    if k == 0 then 0.0
    else TotalCount(eps, f, gamma, k - 1) + EpisodeCount(eps[k - 1], f, gamma, |eps[k - 1]|)
  }

  /** The estimate the source computes: one entry per feature function, each the
      total discounted count divided by the number of episodes. */
  function Expected<S>(eps: seq<seq<S>>, fs: seq<PropFn<S>>, gamma: real): (r: seq<real>)
    requires |eps| > 0
    ensures |r| == |fs|
  {
    seq(|fs|, j requires 0 <= j < |fs| => TotalCount(eps, fs[j], gamma, |eps|) / (|eps| as real))
  }

  /** The undivided per-episode counts (one entry per feature). */
  function EpisodeCounts<S>(ep: seq<S>, fs: seq<PropFn<S>>, gamma: real): (r: seq<real>)
    ensures |r| == |fs|
  {
    seq(|fs|, j requires 0 <= j < |fs| => EpisodeCount(ep, fs[j], gamma, |ep|))
  }

  /** The innermost loop of estimateFeatureExpectation: add w to the entry of
      every feature that holds in s. */
  method AddWhereHolds<S>(acc: array<real>, features: seq<PropFn<S>>, s: S, w: real)
    requires acc.Length == |features|
    modifies acc
    ensures forall k :: 0 <= k < acc.Length ==>
      acc[k] == old(acc[k]) + (if features[k].holds(s) then w else 0.0)
  {
    var j := 0;
    while j < acc.Length
      invariant 0 <= j <= acc.Length
      invariant forall k :: 0 <= k < j ==> acc[k] == old(acc[k]) + (if features[k].holds(s) then w else 0.0)
      invariant forall k :: j <= k < acc.Length ==> acc[k] == old(acc[k])
    {
      if features[j].holds(s) {
        acc[j] := acc[j] + w;
      }
      j := j + 1;
    }
  }

  /** The final loop of estimateFeatureExpectation: divide every entry by n. */
  method DivideAll(acc: array<real>, n: real)
    requires n != 0.0
    modifies acc
    ensures forall k :: 0 <= k < acc.Length ==> acc[k] == old(acc[k]) / n
  {
    var k := 0;
    while k < acc.Length
      invariant 0 <= k <= acc.Length
      invariant forall m :: 0 <= m < k ==> acc[m] == old(acc[m]) / n
      invariant forall m :: k <= m < acc.Length ==> acc[m] == old(acc[m])
    {
      acc[k] := acc[k] / n;
      k := k + 1;
    }
  }

  /** estimateFeatureExpectation over a list of episodes: accumulate gamma^i into
      entry j for every step i whose state satisfies feature j, then divide every
      entry by the number of episodes. */
  method EstimateFeatureExpectation<S>(episodes: seq<seq<S>>, features: seq<PropFn<S>>, gamma: real)
    returns (fe: seq<real>)
    requires |episodes| > 0
    ensures fe == Expected(episodes, features, gamma)
  {
    var acc := new real[|features|](_ => 0.0);
    var e := 0;
    while e < |episodes|
      invariant 0 <= e <= |episodes|
      invariant forall k :: 0 <= k < acc.Length ==> acc[k] == TotalCount(episodes, features[k], gamma, e)
    {
      var ep := episodes[e];
      var i := 0;
      while i < |ep|
        invariant 0 <= i <= |ep|
        invariant forall k :: 0 <= k < acc.Length ==>
          acc[k] == TotalCount(episodes, features[k], gamma, e) + EpisodeCount(ep, features[k], gamma, i)
      {
        AddWhereHolds(acc, features, ep[i], Pow(gamma, i));
        i := i + 1;
      }
      e := e + 1;
    }
    DivideAll(acc, |episodes| as real);
    fe := acc[..];
  }

  /** The single-episode overload: the list version applied to a one-element list. */
  method EstimateEpisodeFeatureExpectation<S>(episode: seq<S>, features: seq<PropFn<S>>, gamma: real)
    returns (fe: seq<real>)
    ensures fe == Expected([episode], features, gamma)
    ensures fe == EpisodeCounts(episode, features, gamma)
  {
    fe := EstimateFeatureExpectation([episode], features, gamma);
    SingleEpisodeUndivided(episode, features, gamma);
  }

  /** On one episode the division by the episode count is a division by one. */
  lemma SingleEpisodeUndivided<S>(ep: seq<S>, fs: seq<PropFn<S>>, gamma: real)
    ensures Expected([ep], fs, gamma) == EpisodeCounts(ep, fs, gamma)
  {
    forall j | 0 <= j < |fs|
      ensures Expected([ep], fs, gamma)[j] == EpisodeCounts(ep, fs, gamma)[j]
    {
      assert TotalCount([ep], fs[j], gamma, 1) == EpisodeCount(ep, fs[j], gamma, |ep|);
    }
  }

  /** An episode made of one state yields exactly that state's indicator vector. */
  lemma OneStateIndicator<S>(s: S, fs: seq<PropFn<S>>, gamma: real)
    ensures Expected([[s]], fs, gamma) == Indicator(fs, s)
  {
    SingleEpisodeUndivided([s], fs, gamma);
    forall j | 0 <= j < |fs|
      ensures EpisodeCounts([s], fs, gamma)[j] == Indicator(fs, s)[j]
    {
      assert EpisodeCount([s], fs[j], gamma, 1) == (if fs[j].holds(s) then Pow(gamma, 0) else 0.0);
    }
  }

  /** One episode contributes between 0 and the geometric sum of its length. */
  lemma {:induction false} EpisodeCountBounds<S>(ep: seq<S>, f: PropFn<S>, gamma: real, t: nat)
    requires 0.0 <= gamma && t <= |ep|
    ensures 0.0 <= EpisodeCount(ep, f, gamma, t) <= GeomSum(gamma, t)
  {
    if t > 0 {
      EpisodeCountBounds(ep, f, gamma, t - 1);
    }
  }

  /** k episodes no longer than L contribute between 0 and k times the geometric sum of L. */
  lemma {:induction false} TotalCountBounds<S>(eps: seq<seq<S>>, f: PropFn<S>, gamma: real, k: nat, maxLen: nat)
    requires 0.0 <= gamma && k <= |eps|
    requires forall e :: 0 <= e < |eps| ==> |eps[e]| <= maxLen
    ensures 0.0 <= TotalCount(eps, f, gamma, k) <= (k as real) * GeomSum(gamma, maxLen)
  {
    if k > 0 {
      TotalCountBounds(eps, f, gamma, k - 1, maxLen);
      EpisodeCountBounds(eps[k - 1], f, gamma, |eps[k - 1]|);
      GeomSumMonotone(gamma, |eps[k - 1]|, maxLen);
    }
  }

  lemma AverageBelow(total: real, n: real, bound: real)
    requires 0.0 < n && 0.0 <= total <= n * bound
    ensures 0.0 <= total / n <= bound
  {
  }

  /** For gamma >= 0 every entry of the estimate lies between 0 and the geometric
      sum over the longest episode. */
  lemma ExpectedBounds<S>(eps: seq<seq<S>>, fs: seq<PropFn<S>>, gamma: real, maxLen: nat)
    requires |eps| > 0 && 0.0 <= gamma
    requires forall e :: 0 <= e < |eps| ==> |eps[e]| <= maxLen
    ensures forall j :: 0 <= j < |fs| ==> 0.0 <= Expected(eps, fs, gamma)[j] <= GeomSum(gamma, maxLen)
  {
    forall j | 0 <= j < |fs|
      ensures 0.0 <= Expected(eps, fs, gamma)[j] <= GeomSum(gamma, maxLen)
    {
      TotalCountBounds(eps, fs[j], gamma, |eps|, maxLen);
      AverageBelow(TotalCount(eps, fs[j], gamma, |eps|), |eps| as real, GeomSum(gamma, maxLen));
    }
  }
}
