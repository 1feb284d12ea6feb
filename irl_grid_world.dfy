/** The macro-cell grid world (src/IRLGridWorld.java) and its reward function
    (src/IRLGridRF.java): an 8x8 grid whose agent position is mapped to one of
    16 macro cells by integer arithmetic, macro-cell objects carrying small random
    rewards, and the rectangle features laid over the grid. */
module IRLGrid {
  import opened Wrappers
  import opened Features
  import opened JavaStrings
  import opened Geometry
  import opened InMacroCells
  import opened Rewards
  import opened Shuffling

  const MIN_REWARD: int := 1
  const MAX_REWARD: int := 10
  const HEIGHT: int := 8
  const WIDTH: int := 8
  const MCELL_HEIGHT: int := 4
  const MCELL_WIDTH: int := 4
  const MCELL_COUNT: int := MCELL_HEIGHT * MCELL_WIDTH
  const MCELL_FILLED: int := 4

  /** Java's int division: the quotient truncated toward zero. */
  function JavaDiv(a: int, b: int): int
    requires b != 0
  {
    var q := Abs(a) / Abs(b);
    if (a < 0) == (b < 0) then q else -q
  }

  /** A 32-bit int product or sum, wrapped to two's complement. */
  function Wrap32(n: int): (r: int)
    ensures IsInt32(r)
  {
    (n - INT_MIN) % 0x1_0000_0000 + INT_MIN
  }

  /** The macro cell the code computes for an agent at (ax, ay):
      (ay * MCELL_HEIGHT / HEIGHT) * MCELL_WIDTH + ax * MCELL_WIDTH / WIDTH,
      in int arithmetic. */
  function MacroIndex(ax: int, ay: int): int {
    var amx := JavaDiv(Wrap32(ax * MCELL_WIDTH), WIDTH);
    var amy := JavaDiv(Wrap32(ay * MCELL_HEIGHT), HEIGHT);
    Wrap32(amy * MCELL_WIDTH + amx)
  }

  /** On the grid the index is row-major over 2x2 blocks, and it is a valid
      macro-cell index. */
  lemma MacroIndexInGrid(ax: int, ay: int)
    requires 0 <= ax < WIDTH && 0 <= ay < HEIGHT
    ensures MacroIndex(ax, ay) == (ay / 2) * 4 + ax / 2
    ensures 0 <= MacroIndex(ax, ay) < MCELL_COUNT
  {
    Wrap32Id(ax * 4);
    Wrap32Id(ay * 4);
    HalfOfQuadruple(ax);
    HalfOfQuadruple(ay);
    Wrap32Id((ay / 2) * 4 + ax / 2);
  }

  /** A value that fits in an int is left alone by the wrap-around. */
  lemma Wrap32Id(n: int)
    requires IsInt32(n)
    ensures Wrap32(n) == n
  {
    var d := n - INT_MIN;
    assert 0 <= d < 0x1_0000_0000;
    assert d % 0x1_0000_0000 == d;
  }

  /** In int arithmetic, 4x / 8 is x / 2 on the grid's coordinates. */
  lemma HalfOfQuadruple(x: int)
    requires 0 <= x < 8
    ensures JavaDiv(x * 4, 8) == x / 2
  {
    assert Abs(x * 4) == x * 4 && Abs(8) == 8;
    if x == 0 {} else if x == 1 {} else if x == 2 {} else if x == 3 {}
    else if x == 4 {} else if x == 5 {} else if x == 6 {} else {}
  }

  /** Every macro cell is the computed index of some grid cell. */
  lemma MacroIndexCovers(mi: int)
    requires 0 <= mi < MCELL_COUNT
    ensures 0 <= 2 * (mi % 4) < WIDTH && 0 <= 2 * (mi / 4) < HEIGHT
    ensures MacroIndex(2 * (mi % 4), 2 * (mi / 4)) == mi
  {
    MacroIndexInGrid(2 * (mi % 4), 2 * (mi / 4));
  }

  /** IRLGridRF: the list of macro-cell rewards and its size, kept by reference. */
  datatype IRLGridRF = IRLGridRF(nCells: int, mcellR: seq<int>)

  /** The constructor. */
  function NewIRLGridRF(macroCellRewards: seq<int>): IRLGridRF {
    IRLGridRF(|macroCellRewards|, macroCellRewards)
  }

  /** getCellRewards. */
  function GetCellRewards(rf: IRLGridRF): seq<int> {
    rf.mcellR
  }

  /** The constructed function counts the cells and hands back the very list it
      was given. */
  lemma NewIRLGridRFKeepsList(macroCellRewards: seq<int>)
    ensures NewIRLGridRF(macroCellRewards).nCells == |macroCellRewards|
    ensures GetCellRewards(NewIRLGridRF(macroCellRewards)) == macroCellRewards
  {
  }

  /** reward(s, a, sprime): the reward of the macro cell of the first agent of
      sprime. No agent, or an index outside the list, is an out-of-range read. */
  function Reward<A>(rf: IRLGridRF, s: GridState, a: A, sprime: GridState): (r: Result<real, JavaError>)
    ensures r.Failure? ==> r.error == IndexOutOfBounds
  {
    if |sprime.agents| == 0 then Failure(IndexOutOfBounds)
    else
      var ami := MacroIndex(sprime.agents[0].x, sprime.agents[0].y);
      if 0 <= ami < |rf.mcellR| then Success(rf.mcellR[ami] as real) else Failure(IndexOutOfBounds)
  }

  /** With one reward per macro cell, an agent of sprime inside the grid earns
      the reward of its 2x2 block, whatever s and the action are. */
  lemma RewardInGrid<A>(rf: IRLGridRF, s: GridState, a: A, sprime: GridState)
    requires |rf.mcellR| == MCELL_COUNT && |sprime.agents| > 0
    requires 0 <= sprime.agents[0].x < WIDTH && 0 <= sprime.agents[0].y < HEIGHT
    ensures Reward(rf, s, a, sprime) ==
      Success(rf.mcellR[(sprime.agents[0].y / 2) * 4 + sprime.agents[0].x / 2] as real)
  {
    MacroIndexInGrid(sprime.agents[0].x, sprime.agents[0].y);
  }

  /** InMacroCell.isTrue on the agent and macro-cell objects it names. */
  predicate InMacroCell(agent: Point, macrocell: MacroCell) {
    MacroIndex(agent.x, agent.y) == macrocell.index
  }

  /** InRewardingMacroCell.isTrue: in the cell, and the cell's reward is positive. */
  predicate InRewardingMacroCell(agent: Point, macrocell: MacroCell) {
    MacroIndex(agent.x, agent.y) == macrocell.index && macrocell.reward > 0
  }

  /** Being in a rewarding macro cell means being in that macro cell. */
  lemma RewardingIsInside(agent: Point, macrocell: MacroCell)
    ensures InRewardingMacroCell(agent, macrocell) ==> InMacroCell(agent, macrocell)
  {
  }

  /** The macro cells in the order getOneAgentState adds them: the cell at
      position i has index i. */
  predicate IndexedCells(cells: seq<MacroCell>) {
    |cells| == MCELL_COUNT && forall i :: 0 <= i < |cells| ==> cells[i].index == i
  }

  /** With the cells of getOneAgentState, an agent inside the grid is in exactly
      one macro cell: the one of its 2x2 block. */
  lemma ExactlyOneMacroCell(agent: Point, cells: seq<MacroCell>, k: nat)
    requires IndexedCells(cells) && k < |cells|
    requires 0 <= agent.x < WIDTH && 0 <= agent.y < HEIGHT
    ensures InMacroCell(agent, cells[k]) <==> k == (agent.y / 2) * 4 + agent.x / 2
  {
    MacroIndexInGrid(agent.x, agent.y);
  }

  /** Every draw of Math.random or Random.nextDouble lies in [0, 1). */
  predicate UnitInterval(draws: seq<real>) {
    forall i :: 0 <= i < |draws| ==> 0.0 <= draws[i] < 1.0
  }

  /** The reward list before the shuffle: (int)(draw * (MAX - MIN + 1)) for the
      first MCELL_FILLED cells, 0 for the rest. */
  function InitialRewards(draws: seq<real>): (r: seq<int>)
    requires |draws| == MCELL_FILLED
    ensures |r| == MCELL_COUNT
  {
    seq(MCELL_COUNT, i requires 0 <= i < MCELL_COUNT =>
      if i < MCELL_FILLED then (draws[i] * ((MAX_REWARD - MIN_REWARD + 1) as real)).Floor else 0)
  }

  /** getOneAgentState: one agent (its attributes are whatever a fresh object
      holds, given here), then MCELL_COUNT macro cells whose rewards are the
      shuffled list. */
  method GetOneAgentState(agentAt: Point, draws: seq<real>, picks: seq<nat>) returns (s: GridState)
    requires |draws| == MCELL_FILLED && UnitInterval(draws)
    requires ValidPicks(MCELL_COUNT, picks)
    ensures s.agents == [agentAt]
    ensures IndexedCells(s.cells)
    ensures forall i :: 0 <= i < |s.cells| ==> s.cells[i].reward == Shuffled(InitialRewards(draws), picks)[i]
  {
    var mrewards := new int[MCELL_COUNT];
    var i := 0;
    while i < MCELL_COUNT
      invariant 0 <= i <= MCELL_COUNT
      invariant forall k :: 0 <= k < i ==> mrewards[k] == InitialRewards(draws)[k]
    {
      if i < MCELL_FILLED {
        mrewards[i] := (draws[i] * ((MAX_REWARD - MIN_REWARD + 1) as real)).Floor;
      } else {
        mrewards[i] := 0;
      }
      i := i + 1;
    }
    assert mrewards[..] == InitialRewards(draws);
    Shuffle(mrewards, picks);
    var cells: seq<MacroCell> := [];
    i := 0;
    while i < MCELL_COUNT
      invariant 0 <= i <= MCELL_COUNT && |cells| == i
      invariant forall k :: 0 <= k < i ==> cells[k] == MacroCell(k, mrewards[k])
    {
      cells := cells + [MacroCell(i, mrewards[i])];
      i := i + 1;
    }
    s := GridState([agentAt], cells);
  }

  lemma {:induction false} ZerosFrom(s: seq<int>, lo: nat)
    requires lo <= |s|
    requires forall i :: lo <= i < |s| ==> s[i] == 0
    ensures multiset(s)[0] >= |s| - lo
  {
    if |s| > lo {
      var n := |s| - 1;
      assert s == s[..n] + [s[n]];
      ZerosFrom(s[..n], lo);
    }
  }

  /** The rewards getOneAgentState hands out: every one lies in
      [0, MAX_REWARD - MIN_REWARD], and at most MCELL_FILLED of the MCELL_COUNT
      are non-zero (at least MCELL_COUNT - MCELL_FILLED are zero). */
  lemma OneAgentStateRewards(draws: seq<real>, picks: seq<nat>)
    requires |draws| == MCELL_FILLED && UnitInterval(draws)
    requires ValidPicks(MCELL_COUNT, picks)
    ensures forall i :: 0 <= i < MCELL_COUNT ==>
      0 <= Shuffled(InitialRewards(draws), picks)[i] <= MAX_REWARD - MIN_REWARD
    ensures multiset(Shuffled(InitialRewards(draws), picks))[0] >= MCELL_COUNT - MCELL_FILLED
  {
    var init := InitialRewards(draws);
    var r := Shuffled(init, picks);
    forall i | 0 <= i < MCELL_FILLED
      ensures 0 <= init[i] <= MAX_REWARD - MIN_REWARD
    {
      FloorBounds(draws[i]);
    }
    forall i | 0 <= i < MCELL_COUNT
      ensures 0 <= r[i] <= MAX_REWARD - MIN_REWARD
    {
      ShuffledFrom(init, picks, i);
    }
    ShuffledPermutes(init, picks);
    ZerosFrom(init, MCELL_FILLED as nat);
  }

  lemma FloorBounds(d: real)
    requires 0.0 <= d < 1.0
    ensures 0 <= (d * 10.0).Floor <= 9
  {
  }

  /** getMacroCellRewards: the reward attribute of every macro-cell object, in
      object order. */
  method GetMacroCellRewards(s: GridState) returns (mrewards: seq<int>)
    ensures |mrewards| == |s.cells|
    ensures forall i :: 0 <= i < |s.cells| ==> mrewards[i] == s.cells[i].reward
  {
    mrewards := [];
    var i := 0;
    while i < |s.cells|
      invariant 0 <= i <= |s.cells| && |mrewards| == i
      invariant forall k :: 0 <= k < i ==> mrewards[k] == s.cells[k].reward
    {
      mrewards := mrewards + [s.cells[i].reward];
      i := i + 1;
    }
  }

  /** getPropositionalFunctions: (WIDTH / MCELL_WIDTH) columns by
      (HEIGHT / MCELL_HEIGHT) rows of MCELL_WIDTH-wide squares. */
  method GetPropositionalFunctions() returns (fs: seq<PropFn<GridState>>)
    ensures |fs| == 4
    ensures forall i, j :: 0 <= i < 2 && 0 <= j < 2 ==>
      fs[i * 2 + j] == AsFeature(NewInMacroCellPF(i * MCELL_WIDTH, j * MCELL_HEIGHT, MCELL_WIDTH, MCELL_HEIGHT))
  {
    var numWidth := WIDTH / MCELL_WIDTH;
    var numHeight := HEIGHT / MCELL_HEIGHT;
    fs := CellLayout(numWidth, numHeight, MCELL_WIDTH, MCELL_HEIGHT);
    forall i, j | 0 <= i < 2 && 0 <= j < 2
      ensures fs[i * 2 + j] == AsFeature(NewInMacroCellPF(i * MCELL_WIDTH, j * MCELL_HEIGHT, MCELL_WIDTH, MCELL_HEIGHT))
    {
      LayoutPosition(i, j, 2);
    }
  }

  /** The four features cover the grid: an agent at (x, y) inside it satisfies
      the one in column x / 4, row y / 4. */
  lemma FeaturesCoverGrid(s: GridState)
    requires |s.agents| > 0
    requires 0 <= s.agents[0].x < WIDTH && 0 <= s.agents[0].y < HEIGHT
    ensures IsTrue(NewInMacroCellPF((s.agents[0].x / 4) * MCELL_WIDTH, (s.agents[0].y / 4) * MCELL_HEIGHT,
      MCELL_WIDTH, MCELL_HEIGHT), s)
  {
  }

  /** generateRandomRewards: one nextDouble per function, put under its name;
      a later function with the same name overwrites the earlier value. */
  method GenerateRandomRewards<S>(functions: seq<PropFn<S>>, draws: seq<real>)
    returns (rewards: map<string, Option<real>>)
    requires |draws| == |functions|
    ensures rewards == PutAll(Names(functions), seq(|draws|, i requires 0 <= i < |draws| => Some(draws[i])))
  {
    var values := seq(|draws|, i requires 0 <= i < |draws| => Some(draws[i]));
    rewards := PutByName(functions, values);
  }
}
