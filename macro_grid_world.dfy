/** The later revision of the macro-cell grid world (src/MacroGridWorld.java,
    whose class is still named IRLGridWorld): 16 rectangle features of 2x2
    cells, and rewards keyed by feature name of which exactly one is non-zero. */
module MacroGrid {
  import opened Wrappers
  import opened Features
  import opened Geometry
  import opened InMacroCells
  import opened Rewards
  import opened Shuffling

  const MIN_REWARD: int := 1
  const MAX_REWARD: int := 10
  const HEIGHT: int := 8
  const WIDTH: int := 8
  const MCELL_HEIGHT: int := 4
  const MCELL_WIDTH: int := 4
  const MCELL_COUNT: int := MCELL_HEIGHT * MCELL_WIDTH
  const MCELL_FILLED: int := 1

  /** getOneAgentState: one agent and no macro-cell objects. */
  function GetOneAgentState(agentAt: Point): (s: GridState)
    ensures |s.agents| == 1 && |s.cells| == 0
  {
    GridState([agentAt], [])
  }

  /** getPropositionalFunctions: MCELL_WIDTH columns by MCELL_HEIGHT rows of
      squares (WIDTH / MCELL_WIDTH) wide. */
  method GetPropositionalFunctions() returns (fs: seq<PropFn<GridState>>)
    ensures |fs| == MCELL_COUNT
    ensures forall i, j :: 0 <= i < 4 && 0 <= j < 4 ==>
      fs[i * 4 + j] == AsFeature(NewInMacroCellPF(i * 2, j * 2, 2, 2))
  {
    var width := WIDTH / MCELL_WIDTH;
    var height := HEIGHT / MCELL_HEIGHT;
    fs := CellLayout(MCELL_WIDTH, MCELL_HEIGHT, width, height);
    forall i, j | 0 <= i < 4 && 0 <= j < 4
      ensures fs[i * 4 + j] == AsFeature(NewInMacroCellPF(i * 2, j * 2, 2, 2))
    {
      LayoutPosition(i, j, 4);
    }
  }

  /** The 16 features have pairwise different names, because their anchors differ. */
  lemma FeatureNamesDistinct(i1: int, j1: int, i2: int, j2: int)
    requires 0 <= i1 < 4 && 0 <= j1 < 4 && 0 <= i2 < 4 && 0 <= j2 < 4
    requires i1 * 4 + j1 != i2 * 4 + j2
    ensures NewInMacroCellPF(i1 * 2, j1 * 2, 2, 2).name != NewInMacroCellPF(i2 * 2, j2 * 2, 2, 2).name
  {
    if CellName(i1 * 2, j1 * 2) == CellName(i2 * 2, j2 * 2) {
      CellNameInjective(i1 * 2, j1 * 2, i2 * 2, j2 * 2);
    }
  }

  /** Every draw of Random.nextDouble lies in [0, 1). */
  predicate UnitInterval(draws: seq<real>) {
    forall i :: 0 <= i < |draws| ==> 0.0 <= draws[i] < 1.0
  }

  /** The Double array before the shuffle, for n functions: draw * (MAX - MIN) + MIN
      in the first MCELL_FILLED slots, 0 up to MCELL_COUNT, null beyond. */
  function Slots(n: nat, draws: seq<real>): (r: seq<Option<real>>)
    requires |draws| == MCELL_FILLED
    ensures |r| == n
  {
    seq(n, i requires 0 <= i < n =>
      if i < MCELL_FILLED then Some(draws[i] * ((MAX_REWARD - MIN_REWARD) as real) + (MIN_REWARD as real))
      else if i < MCELL_COUNT then Some(0.0)
      else None)
  }

  /** generateRandomRewards: the fill loop runs to MCELL_COUNT whatever the
      number of functions (fewer than MCELL_COUNT is an out-of-range store), the
      array is shuffled in place, and the value at position i is put under the
      name of function i. numberFilled is not used. */
  method GenerateRandomRewards<S>(functions: seq<PropFn<S>>, numberFilled: int, draws: seq<real>, picks: seq<nat>)
    returns (r: Result<map<string, Option<real>>, JavaError>)
    requires |draws| == MCELL_FILLED && UnitInterval(draws)
    requires ValidPicks(|functions|, picks)
    ensures |functions| < MCELL_COUNT ==> r == Failure(IndexOutOfBounds)
    ensures |functions| >= MCELL_COUNT ==>
      r == Success(PutAll(Names(functions), Shuffled(Slots(|functions|, draws), picks)))
  {
    var mrewards := new Option<real>[|functions|](_ => None);
    var i := 0;
    while i < MCELL_COUNT
      invariant 0 <= i <= MCELL_COUNT && i <= mrewards.Length
      invariant forall k :: 0 <= k < i ==> mrewards[k] == Slots(|functions|, draws)[k]
      invariant forall k :: i <= k < mrewards.Length ==> mrewards[k] == None
    {
      if i >= mrewards.Length {
        return Failure(IndexOutOfBounds);
      }
      mrewards[i] := if i < MCELL_FILLED then Some(draws[i] * ((MAX_REWARD - MIN_REWARD) as real) + (MIN_REWARD as real))
        else Some(0.0);
      i := i + 1;
    }
    assert mrewards[..] == Slots(|functions|, draws);
    Shuffle(mrewards, picks);
    var rewardList := mrewards[..];
    var rewards := PutByName(functions, rewardList);
    return Success(rewards);
  }

  /** The shuffled slots: exactly MCELL_FILLED hold the drawn reward, which lies
      in [MIN_REWARD, MAX_REWARD); MCELL_COUNT - MCELL_FILLED hold 0; the rest are null. */
  lemma ShuffledSlots(n: nat, draws: seq<real>, picks: seq<nat>)
    requires n >= MCELL_COUNT && |draws| == MCELL_FILLED && UnitInterval(draws)
    requires ValidPicks(n, picks)
    ensures (MIN_REWARD as real) <= draws[0] * ((MAX_REWARD - MIN_REWARD) as real) + (MIN_REWARD as real) < (MAX_REWARD as real)
    ensures multiset(Shuffled(Slots(n, draws), picks))[Some(draws[0] * 9.0 + 1.0)] == MCELL_FILLED
    ensures multiset(Shuffled(Slots(n, draws), picks))[Some(0.0)] == MCELL_COUNT - MCELL_FILLED
    ensures multiset(Shuffled(Slots(n, draws), picks))[None] == n - MCELL_COUNT
  {
    var v := draws[0] * 9.0 + 1.0;
    var slots := Slots(n, draws);
    var zeros := seq(MCELL_COUNT - MCELL_FILLED, _ => Some(0.0));
    var nulls: seq<Option<real>> := seq(n - MCELL_COUNT, _ => None);
    assert slots == [Some(v)] + zeros + nulls;
    ConstantCount(MCELL_COUNT - MCELL_FILLED, Some(0.0), Some(v));
    ConstantCount(MCELL_COUNT - MCELL_FILLED, Some(0.0), Some(0.0));
    ConstantCount(MCELL_COUNT - MCELL_FILLED, Some(0.0), None);
    ConstantCount(n - MCELL_COUNT, None, Some(v));
    ConstantCount(n - MCELL_COUNT, None, Some(0.0));
    ConstantCount<Option<real>>(n - MCELL_COUNT, None, None);
    ShuffledPermutes(slots, picks);
  }

  /** With the 16 distinct names of getPropositionalFunctions, the map holds, under
      the name of function i, the shuffled value at position i. */
  lemma RewardsByName<S>(functions: seq<PropFn<S>>, values: seq<Option<real>>, i: nat)
    requires |functions| == |values| && i < |functions|
    requires forall a, b :: 0 <= a < b < |functions| ==> functions[a].name != functions[b].name
    ensures functions[i].name in PutAll(Names(functions), values)
    ensures PutAll(Names(functions), values)[functions[i].name] == values[i]
    ensures forall k :: k in PutAll(Names(functions), values) <==> exists a :: 0 <= a < |functions| && functions[a].name == k
  {
    PutAllLastWins(Names(functions), values, i);
    PutAllKeys(Names(functions), values);
    forall k | k in Names(functions)
      ensures exists a :: 0 <= a < |functions| && functions[a].name == k
    {
      var a :| 0 <= a < |Names(functions)| && Names(functions)[a] == k;
      assert functions[a].name == k;
    }
  }
}
