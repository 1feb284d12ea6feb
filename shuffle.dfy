/** java.util.Collections.shuffle on a random-access list: for i from the size
    down to 2 it swaps position i-1 with a position drawn uniformly from [0, i).
    The drawn positions ("picks", in the order they are drawn) are parameters. */
module Shuffling {

  /** One pick per swap, each below the number of positions still in play. */
  predicate ValidPicks(n: nat, picks: seq<nat>) {
    |picks| == (if n > 0 then n - 1 else 0) &&
    forall k :: 0 <= k < |picks| ==> picks[k] < n - k
  }

  function Swap<T>(s: seq<T>, i: nat, j: nat): (r: seq<T>)
    requires i < |s| && j < |s|
    ensures |r| == |s|
  {
    s[i := s[j]][j := s[i]]
  }

  /** The list after the first k swaps. */
  function ShuffledUpTo<T>(s: seq<T>, picks: seq<nat>, k: nat): (r: seq<T>)
    requires ValidPicks(|s|, picks) && k <= |picks|
    ensures |r| == |s|
  {
    if k == 0 then s else Swap(ShuffledUpTo(s, picks, k - 1), |s| - k, picks[k - 1])
  }

  /** The list after all the swaps. */
  function Shuffled<T>(s: seq<T>, picks: seq<nat>): (r: seq<T>)
    requires ValidPicks(|s|, picks)
    ensures |r| == |s|
  {
    ShuffledUpTo(s, picks, |picks|)
  }

  lemma SwapPermutes<T>(s: seq<T>, i: nat, j: nat)
    requires i < |s| && j < |s|
    ensures multiset(Swap(s, i, j)) == multiset(s)
  {
    var t := s[i := s[j]];
    assert multiset(t) == multiset(s) - multiset{s[i]} + multiset{s[j]};
    assert multiset(t[j := s[i]]) == multiset(t) - multiset{t[j]} + multiset{s[i]};
  }

  lemma StepPermutes<T>(s: seq<T>, picks: seq<nat>, k: nat)
    requires ValidPicks(|s|, picks) && 0 < k <= |picks|
    ensures multiset(ShuffledUpTo(s, picks, k)) == multiset(ShuffledUpTo(s, picks, k - 1))
  {
    SwapPermutes(ShuffledUpTo(s, picks, k - 1), |s| - k, picks[k - 1]);
  }

  lemma {:induction false} ShuffledUpToPermutes<T>(s: seq<T>, picks: seq<nat>, k: nat)
    requires ValidPicks(|s|, picks) && k <= |picks|
    ensures multiset(ShuffledUpTo(s, picks, k)) == multiset(s)
  {
    if k > 0 {
      var m1 := multiset(ShuffledUpTo(s, picks, k - 1));
      ShuffledUpToPermutes(s, picks, k - 1);
      assert m1 == multiset(s);
      StepPermutes(s, picks, k);
    }
  }

  /** A shuffle only reorders: every value occurs as often as before. */
  lemma ShuffledPermutes<T>(s: seq<T>, picks: seq<nat>)
    requires ValidPicks(|s|, picks)
    ensures multiset(Shuffled(s, picks)) == multiset(s)
  {
    ShuffledUpToPermutes(s, picks, |picks|);
  }

  /** Every entry of the shuffled list was an entry before the shuffle. */
  lemma ShuffledFrom<T>(s: seq<T>, picks: seq<nat>, i: nat)
    requires ValidPicks(|s|, picks) && i < |s|
    ensures Shuffled(s, picks)[i] in s
  {
    ShuffledPermutes(s, picks);
    assert Shuffled(s, picks)[i] in multiset(Shuffled(s, picks));
  }

  /** The shuffle as the JDK performs it, in place. */
  method Shuffle<T>(a: array<T>, picks: seq<nat>)
    requires ValidPicks(a.Length, picks)
    modifies a
    ensures a[..] == Shuffled(old(a[..]), picks)
  {
    ghost var s := a[..];
    var k := 0;
    while k < |picks|
      invariant 0 <= k <= |picks|
      invariant a[..] == ShuffledUpTo(s, picks, k)
    {
      var i := a.Length - 1 - k;
      var j := picks[k];
      a[i], a[j] := a[j], a[i];
      k := k + 1;
    }
  }

  /** How often v occurs in a sequence of n copies of w. */
  lemma {:induction false} ConstantCount<T>(n: nat, w: T, v: T)
    ensures multiset(seq(n, _ => w))[v] == if v == w then n else 0
  {
    if n > 0 {
      assert seq(n, _ => w) == seq(n - 1, _ => w) + [w];
      ConstantCount(n - 1, w, v);
    }
  }
}
