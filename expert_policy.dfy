/** The hand-written expert of the macro-cell grid world (src/ExpertPolicy.java):
    it walks along x to the goal column, then along y to the goal row; the goal
    is three quarters of the way to the given maxima. */
module ExpertPolicies {
  import opened Wrappers
  import opened Geometry

  /** The policy keeps its goal and the domain action bound to each heading. */
  datatype ExpertPolicy<Act> = ExpertPolicy(goal: Point, actions: Heading -> Act)

  /** (int)Math.floor(max * 0.75). */
  function Goal(max: int): int {
    ((max as real) * 0.75).Floor
  }

  /** The constructor: the goal coordinates from the maxima, and the four actions. */
  function NewExpertPolicy<Act>(maxX: int, maxY: int, north: Act, south: Act, west: Act, east: Act): (p: ExpertPolicy<Act>)
    ensures p.goal == Point(Goal(maxX), Goal(maxY))
    ensures p.actions(North) == north && p.actions(South) == south
    ensures p.actions(West) == west && p.actions(East) == east
  {
    ExpertPolicy(Point(Goal(maxX), Goal(maxY)),
      (h: Heading) => match h case North => north case South => south case West => west case East => east)
  }

  /** The goal is the integer division (3 * max) / 4 rounded down, and for a
      non-negative maximum it lies between 0 and the maximum. */
  lemma GoalIsThreeQuarters(max: int)
    ensures Goal(max) == (3 * max) / 4
    ensures 0 <= max ==> 0 <= Goal(max) <= max
  {
    var q := (3 * max) / 4;
    assert 4 * q <= 3 * max < 4 * q + 4;
    assert (q as real) <= (max as real) * 0.75 < (q as real) + 1.0;
  }

  /** The decision rule of getAction: east or west until the goal column is
      reached, then north while below the goal row, otherwise south. */
  function Decide<Act>(p: ExpertPolicy<Act>, at: Point): Heading {
    if at.x < p.goal.x then East
    else if at.x > p.goal.x then West
    else if at.y < p.goal.y then North
    else South
  }

  /** getAction: the agent is the first object of the agent class, and the
      grounded action returned is the first grounding of the chosen action. */
  function GetAction<Act, G>(p: ExpertPolicy<Act>, agents: seq<Point>, groundings: Act -> seq<G>): (r: Result<G, JavaError>)
    ensures r.Success? <==> |agents| > 0 && |groundings(p.actions(Decide(p, agents[0])))| > 0
    ensures r.Failure? ==> r.error == IndexOutOfBounds
    ensures r.Success? ==> r.value == groundings(p.actions(Decide(p, agents[0])))[0]
  {
    if |agents| == 0 then Failure(IndexOutOfBounds)
    else
      var g := groundings(p.actions(Decide(p, agents[0])));
      if |g| == 0 then Failure(IndexOutOfBounds) else Success(g[0])
  }

  /** isStochastic: the expert is deterministic. */
  function IsStochastic<Act>(p: ExpertPolicy<Act>): (b: bool)
    ensures !b
  {
    false
  }

  /** getActionDistributionForState: always null. */
  function GetActionDistributionForState<Act, D>(p: ExpertPolicy<Act>, agents: seq<Point>): (r: Option<D>)
    ensures r.None?
  {
    None
  }

  /** Each move the expert chooses, when it succeeds, brings the agent one step
      closer to the goal; at the goal it steps south, one step away. */
  lemma ExpertStepApproaches<Act>(p: ExpertPolicy<Act>, at: Point)
    ensures at != p.goal ==> Manhattan(Moved(at, Decide(p, at)), p.goal) == Manhattan(at, p.goal) - 1
    ensures at == p.goal ==> Moved(at, Decide(p, at)) == Point(at.x, at.y - 1)
  {
  }

  /** The cell reached after n successful moves of the expert. */
  function Walk<Act>(p: ExpertPolicy<Act>, at: Point, n: nat): Point
    decreases n
  {
    if n == 0 then at else Walk(p, Moved(at, Decide(p, at)), n - 1)
  }

  /** Starting anywhere, the expert reaches its goal in exactly as many
      successful moves as the Manhattan distance. */
  lemma {:induction false} ExpertReachesGoal<Act>(p: ExpertPolicy<Act>, at: Point)
    ensures Walk(p, at, Manhattan(at, p.goal)) == p.goal
    decreases Manhattan(at, p.goal)
  {
    if at != p.goal {
      ExpertStepApproaches(p, at);
      ExpertReachesGoal(p, Moved(at, Decide(p, at)));
    }
  }
}
