/** The driving world's state text format (src/DrivingWorldStateParser.java):
    "ax ay, bx by, bx by, ..." with the agent first and then every block, and
    its block-state generator (src/DrivingWorldStateGenerator.java). */
module DrivingWorld {
  import opened Wrappers
  import opened JavaStrings
  import opened Geometry
  import opened Shuffling

  /** What the parser reads and writes: the agent objects and the block
      objects, each in the state's order. */
  datatype DrivingState = DrivingState(agents: seq<Point>, blocks: seq<Point>)

  /** Every coordinate is a Java int. */
  predicate IntCoordinates(ps: seq<Point>) {
    forall i :: 0 <= i < |ps| ==> IsInt32(ps[i].x) && IsInt32(ps[i].y)
  }

  /** "x y" for one object. */
  function Segment(p: Point): string {
    IntToString(p.x) + " " + IntToString(p.y)
  }

  function Segments(ps: seq<Point>): (r: seq<string>)
    ensures |r| == |ps| && forall i :: 0 <= i < |ps| ==> r[i] == Segment(ps[i])
  {
    seq(|ps|, i requires 0 <= i < |ps| => Segment(ps[i]))
  }

  /** The text of a state: the first agent's segment, then ", " and the segment
      of each block in order. A state without an agent has no first agent. */
  function StateText(s: DrivingState): Result<string, JavaError> {
    if |s.agents| == 0 then Failure(IndexOutOfBounds)
    else Success(Join(Segments([s.agents[0]] + s.blocks), ", "))
  }

  /** stateToString, appending to a StringBuffer. */
  method StateToString(s: DrivingState) returns (r: Result<string, JavaError>)
    ensures r == StateText(s)
  {
    if |s.agents| == 0 {
      return Failure(IndexOutOfBounds);
    }
    var segs := Segments([s.agents[0]] + s.blocks);
    var sbuf := Segment(s.agents[0]);
    var i := 0;
    while i < |s.blocks|
      invariant 0 <= i <= |s.blocks|
      invariant sbuf == Join(segs[..i + 1], ", ")
    {
      JoinPrefix(segs, i + 1, ", ");
      sbuf := sbuf + ", " + Segment(s.blocks[i]);
      i := i + 1;
    }
    assert segs[..i + 1] == segs;
    return Success(sbuf);
  }

  /** One "x y" segment: split at " ", x from the first piece and y from the
      second; a missing piece is an out-of-range read and a piece that is not an
      int a NumberFormatException, in that order. Further pieces are ignored. */
  function ParsePoint(seg: string): Result<Point, JavaError> {
    var comps := Split(seg, " ");
    if |comps| == 0 then Failure(IndexOutOfBounds)
    else
      var x :- ParseInt(comps[0]);
      if |comps| < 2 then Failure(IndexOutOfBounds)
      else
        var y :- ParseInt(comps[1]);
        Success(Point(x, y))
  }

  /** The parse of every segment, position by position. */
  function Parsed(segs: seq<string>): (r: seq<Result<Point, JavaError>>)
    ensures |r| == |segs| && forall i :: 0 <= i < |segs| ==> r[i] == ParsePoint(segs[i])
  {
    seq(|segs|, i requires 0 <= i < |segs| => ParsePoint(segs[i]))
  }

  /** The outcomes taken left to right: the first failure is the result,
      otherwise all the points in order. */
  function Collect(rs: seq<Result<Point, JavaError>>): (r: Result<seq<Point>, JavaError>)
    ensures r.Success? ==> |r.value| == |rs|
  {
    if |rs| == 0 then Success([])
    else
      var init :- Collect(rs[..|rs| - 1]);
      var p :- rs[|rs| - 1];
      Success(init + [p])
  }

  /** The segments parsed left to right; the first failure is the result. */
  function ParsePoints(segs: seq<string>): (r: Result<seq<Point>, JavaError>)
    ensures r.Success? ==> |r.value| == |segs|
  {
    Collect(Parsed(segs))
  }

  /** stringToState as a function of the text: split at ", ", the agent from
      the first segment, one block per further segment. */
  function StateOf(str: string): Result<DrivingState, JavaError> {
    var obcomps := Split(str, ", ");
    if |obcomps| == 0 then Failure(IndexOutOfBounds)
    else
      var agent :- ParsePoint(obcomps[0]);
      var blocks :- ParsePoints(obcomps[1..]);
      Success(DrivingState([agent], blocks))
  }

  /** Once a prefix fails, the whole list fails the same way. */
  lemma {:induction false} CollectStopsAtFailure(rs: seq<Result<Point, JavaError>>, k: nat)
    requires k <= |rs| && Collect(rs[..k]).Failure?
    ensures Collect(rs) == Collect(rs[..k])
  {
    if k < |rs| {
      var n := |rs| - 1;
      assert rs[..n][..k] == rs[..k];
      CollectStopsAtFailure(rs[..n], k);
    } else {
      assert rs[..k] == rs;
    }
  }

  lemma CollectNext(rs: seq<Result<Point, JavaError>>, i: nat, bs: seq<Point>)
    requires i < |rs| && Collect(rs[..i]) == Success(bs)
    ensures rs[i].Success? ==> Collect(rs[..i + 1]) == Success(bs + [rs[i].value])
    ensures rs[i].Failure? ==> Collect(rs[..i + 1]) == Failure(rs[i].error)
  {
    assert rs[..i + 1][..i] == rs[..i];
  }

  /** Outcomes that all succeed collect to their values, in order. */
  lemma {:induction false} CollectAll(rs: seq<Result<Point, JavaError>>, ps: seq<Point>)
    requires |rs| == |ps|
    requires forall i :: 0 <= i < |rs| ==> rs[i] == Success(ps[i])
    ensures Collect(rs) == Success(ps)
  {
    if |rs| > 0 {
      var n := |rs| - 1;
      CollectAll(rs[..n], ps[..n]);
      assert ps[..n] + [ps[n]] == ps;
    }
  }

  /** stringToState: the agent from segment 0, then a state with one agent
      and one block per further segment is filled in. */
  method StringToState(str: string) returns (r: Result<DrivingState, JavaError>)
    ensures r == StateOf(str)
  {
    var obcomps := Split(str, ", ");
    if |obcomps| == 0 {
      return Failure(IndexOutOfBounds);
    }
    var agent := ParsePoint(obcomps[0]);
    if agent.Failure? {
      return Failure(agent.error);
    }
    var blocks := SetBlocks(obcomps[1..]);
    if blocks.Failure? {
      return Failure(blocks.error);
    }
    return Success(DrivingState([agent.value], blocks.value));
  }

  /** The loop of stringToState over segments 1 .. nl: the fresh state's nl
      block positions are overwritten one by one, block i - 1 from segment i;
      the first segment that does not parse ends it with that exception. */
  method SetBlocks(rest: seq<string>) returns (r: Result<seq<Point>, JavaError>)
    ensures r == ParsePoints(rest)
  {
    ghost var results := Parsed(rest);
    var blocks := new Point[|rest|](_ => Point(0, 0));
    var i := 0;
    while i < |rest|
      invariant 0 <= i <= |rest|
      invariant Collect(results[..i]) == Success(blocks[..i])
    {
      var p := ParsePoint(rest[i]);
      assert p == results[i];
      CollectNext(results, i, blocks[..i]);
      if p.Failure? {
        CollectStopsAtFailure(results, i + 1);
        return Failure(p.error);
      }
      ghost var before := blocks[..i];
      blocks[i] := p.value;
      assert blocks[..i + 1] == before + [p.value];
      i := i + 1;
    }
    assert results[..i] == results;
    assert blocks[..i] == blocks[..];
    return Success(blocks[..]);
  }

  /** A segment splits at " " into exactly its two printed coordinates. */
  lemma SegmentSplits(p: Point)
    ensures Split(Segment(p), " ") == [IntToString(p.x), IntToString(p.y)]
  {
    var xs := IntToString(p.x);
    var ys := IntToString(p.y);
    IntToStringFree(p.x, ' ');
    IntToStringFree(p.y, ' ');
    IntToStringChars(p.y);
    assert Join([xs, ys], " ") == Segment(p);
    SplitOfJoin([xs, ys], " ");
  }

  /** A segment is not empty and holds no ',' (so no ", " either). */
  lemma SegmentFree(p: Point)
    ensures FreeOf(Segment(p), ',') && |Segment(p)| > 0
  {
    IntToStringFree(p.x, ',');
    IntToStringFree(p.y, ',');
    IntToStringChars(p.x);
    assert FreeOf(" ", ',') by {
      assert " "[1..] == "";
    }
    FreeOfConcat(IntToString(p.x), " ", ',');
    FreeOfConcat(IntToString(p.x) + " ", IntToString(p.y), ',');
  }

  lemma SegmentParses(p: Point)
    requires IsInt32(p.x) && IsInt32(p.y)
    ensures ParsePoint(Segment(p)) == Success(p)
  {
    SegmentSplits(p);
    ParseIntToString(p.x);
    ParseIntToString(p.y);
  }

  /** The segments after the first parse back to the points after the first. */
  lemma BlocksParse(ps: seq<Point>)
    requires |ps| > 0 && IntCoordinates(ps)
    ensures ParsePoints(Segments(ps)[1..]) == Success(ps[1..])
  {
    var rs := Parsed(Segments(ps)[1..]);
    forall i | 0 <= i < |ps| - 1
      ensures rs[i] == Success(ps[1..][i])
    {
      SegmentParses(ps[i + 1]);
    }
    CollectAll(rs, ps[1..]);
  }

  /** No segment is empty or holds a ','. */
  lemma SegmentsFree(ps: seq<Point>)
    ensures forall k :: 0 <= k < |ps| ==> FreeOf(Segments(ps)[k], ',') && |Segments(ps)[k]| > 0
  {
    forall k | 0 <= k < |ps|
      ensures FreeOf(Segments(ps)[k], ',') && |Segments(ps)[k]| > 0
    {
      SegmentFree(ps[k]);
    }
  }

  /** Round trip: reading back the text of a state gives its first agent and
      all its blocks, in order; the text has one ", "-separated segment per
      block plus one for the agent. */
  lemma TextRoundTrip(s: DrivingState)
    requires |s.agents| > 0 && IntCoordinates(s.agents) && IntCoordinates(s.blocks)
    ensures StateText(s).Success?
    ensures |Split(StateText(s).value, ", ")| == |s.blocks| + 1
    ensures StateOf(StateText(s).value) == Success(DrivingState([s.agents[0]], s.blocks))
  {
    var ps := [s.agents[0]] + s.blocks;
    assert IntCoordinates(ps);
    SegmentsFree(ps);
    SplitOfJoin(Segments(ps), ", ");
    SegmentParses(s.agents[0]);
    BlocksParse(ps);
    assert ps[1..] == s.blocks;
  }

  /** A first token that is not an int makes stringToState fail with a
      NumberFormatException. */
  lemma BadAgentToken(str: string)
    requires |Split(str, ", ")| > 0
    requires |Split(Split(str, ", ")[0], " ")| > 0
    requires ParseInt(Split(Split(str, ", ")[0], " ")[0]).Failure?
    ensures StateOf(str) == Failure(NumberFormat)
  {
  }

  /** A generated block object, at its position; its object name is made
      from that position. */
  datatype Block = Block(at: Point) {
    function Name(): string {
      BlockName(at)
    }
  }

  /** The generated state: the agent's position and the blocks, in the order
      they are added. */
  datatype GeneratedState = GeneratedState(agent: Point, blocks: seq<Block>)

  /** "block" + x + "_" + y, the coordinates printed as doubles. */
  function BlockName(p: Point): string {
    "block" + IntegralDoubleToString(p.x) + "_" + IntegralDoubleToString(p.y)
  }

  /** The number of loop rounds: blockCount, or none for a count below one. */
  function Rounds(blockCount: int): nat {
    if blockCount < 0 then 0 else blockCount
  }

  /** order lists each of 0 .. n-1 once. */
  predicate IsOrder(order: seq<nat>, n: nat) {
    |order| == n && (forall k :: 0 <= k < n ==> order[k] < n) &&
    forall a, b :: 0 <= a < b < n ==> order[a] != order[b]
  }

  /** The names of the objects, the keys of State's object map. */
  function NamesOf<T>(objects: seq<T>, name: T -> string): set<string> {
    if |objects| == 0 then {} else NamesOf(objects[..|objects| - 1], name) + {name(objects[|objects| - 1])}
  }

  /** State.addObject: an object whose name is already taken is dropped. */
  function AddObject<T>(kept: seq<T>, o: T, name: T -> string): seq<T> {
    if name(o) in NamesOf(kept, name) then kept else kept + [o]
  }

  /** The objects a state holds after the candidates are added in order. */
  function AddObjects<T>(candidates: seq<T>, name: T -> string): seq<T> {
    if |candidates| == 0 then []
    else AddObject(AddObjects(candidates[..|candidates| - 1], name), candidates[|candidates| - 1], name)
  }

  /** No two of the objects share a name. */
  predicate DistinctNames<T>(objects: seq<T>, name: T -> string) {
    forall a, b :: 0 <= a < b < |objects| ==> name(objects[a]) != name(objects[b])
  }

  /** Adding an object adds its name, whether or not the object is kept. */
  lemma NamesOfAdd<T>(kept: seq<T>, o: T, name: T -> string)
    ensures NamesOf(AddObject(kept, o, name), name) == NamesOf(kept, name) + {name(o)}
  {
    if name(o) !in NamesOf(kept, name) {
      assert (kept + [o])[..|kept|] == kept;
    }
  }

  /** The names are exactly the names of the objects. */
  lemma {:induction false} NamesOfIndex<T>(objects: seq<T>, name: T -> string, n: string)
    ensures n in NamesOf(objects, name) <==> exists i :: 0 <= i < |objects| && name(objects[i]) == n
  {
    if |objects| > 0 {
      var init := objects[..|objects| - 1];
      NamesOfIndex(init, name, n);
      if n in NamesOf(init, name) {
        var i :| 0 <= i < |init| && name(init[i]) == n;
        assert objects[i] == init[i];
      }
      if exists i :: 0 <= i < |objects| && name(objects[i]) == n {
        var i :| 0 <= i < |objects| && name(objects[i]) == n;
        if i < |init| {
          assert init[i] == objects[i];
        }
      }
    }
  }

  /** The state keeps no more objects than were added, each one of them. */
  lemma {:induction false} AddObjectsFrom<T>(candidates: seq<T>, name: T -> string)
    ensures |AddObjects(candidates, name)| <= |candidates|
    ensures forall m :: 0 <= m < |AddObjects(candidates, name)| ==> AddObjects(candidates, name)[m] in candidates
  {
    if |candidates| > 0 {
      var init := candidates[..|candidates| - 1];
      var kept := AddObjects(init, name);
      AddObjectsFrom(init, name);
      forall m | 0 <= m < |kept| ensures kept[m] in candidates {
        var k :| 0 <= k < |init| && init[k] == kept[m];
        assert candidates[k] == init[k];
      }
    }
  }

  /** The state keeps at most one object per name. */
  lemma {:induction false} AddObjectsDistinct<T>(candidates: seq<T>, name: T -> string)
    ensures DistinctNames(AddObjects(candidates, name), name)
  {
    if |candidates| > 0 {
      var init := candidates[..|candidates| - 1];
      var o := candidates[|candidates| - 1];
      var kept := AddObjects(init, name);
      AddObjectsDistinct(init, name);
      if name(o) !in NamesOf(kept, name) {
        forall a | 0 <= a < |kept|
          ensures name(kept[a]) != name(o)
        {
          NamesOfIndex(kept, name, name(kept[a]));
        }
      }
    }
  }

  /** Every candidate's name is taken in the state. */
  lemma {:induction false} AddObjectsCovers<T>(candidates: seq<T>, name: T -> string)
    ensures forall k :: 0 <= k < |candidates| ==> name(candidates[k]) in NamesOf(AddObjects(candidates, name), name)
  {
    if |candidates| > 0 {
      var init := candidates[..|candidates| - 1];
      var o := candidates[|candidates| - 1];
      var kept := AddObjects(init, name);
      AddObjectsCovers(init, name);
      NamesOfAdd(kept, o, name);
      forall k | 0 <= k < |init|
        ensures name(candidates[k]) in NamesOf(AddObjects(candidates, name), name)
      {
        assert candidates[k] == init[k];
      }
    }
  }

  /** Candidates whose names are already distinct are all kept, in order. */
  lemma {:induction false} AddObjectsAllNew<T>(candidates: seq<T>, name: T -> string)
    requires DistinctNames(candidates, name)
    ensures AddObjects(candidates, name) == candidates
  {
    if |candidates| > 0 {
      var init := candidates[..|candidates| - 1];
      var o := candidates[|candidates| - 1];
      assert DistinctNames(init, name) by {
        forall a, b | 0 <= a < b < |init| ensures name(init[a]) != name(init[b]) {
          assert init[a] == candidates[a] && init[b] == candidates[b];
        }
      }
      AddObjectsAllNew(init, name);
      forall i | 0 <= i < |init| ensures name(init[i]) != name(o) {
        assert init[i] == candidates[i];
      }
      NamesOfIndex(init, name, name(o));
      assert candidates == init + [o];
    }
  }

  /** An object whose name the one before it already took is dropped. */
  lemma SameNameDropped<T>(o1: T, o2: T, name: T -> string)
    requires name(o1) == name(o2)
    ensures AddObjects([o1, o2], name) == [o1]
  {
    assert [o1, o2][..1] == [o1];
    assert [o1][..0] == [];
    assert AddObjects([o1], name) == AddObject([], o1, name) == [o1];
    assert NamesOf([o1], name) == NamesOf([], name) + {name(o1)};
  }

  /** Two rounds that draw the same point give one block: its name is taken. */
  lemma SamePointOneBlock(p: Point)
    ensures AddObjects([Block(p), Block(p)], NameOf) == [Block(p)]
  {
    SameNameDropped(Block(p), Block(p), NameOf);
  }

  /** A block's object name, as a function value. */
  function NameOf(b: Block): string {
    b.Name()
  }

  /** The points of the rounds: point k is the location picked by xPicks[k] in
      row yPicks[k]. */
  function Drawn(blockXLocations: seq<int>, xPicks: seq<nat>, yPicks: seq<int>): (ps: seq<Point>)
    requires |xPicks| == |yPicks| && forall k :: 0 <= k < |xPicks| ==> xPicks[k] < |blockXLocations|
    ensures |ps| == |xPicks|
  {
    seq(|xPicks|, k requires 0 <= k < |xPicks| => Point(blockXLocations[xPicks[k]], yPicks[k]))
  }

  /** One block per point, in the set's iteration order. */
  function Ordered(points: seq<Point>, order: seq<nat>): (bs: seq<Block>)
    requires IsOrder(order, |points|)
    ensures |bs| == |points|
  {
    seq(|points|, k requires 0 <= k < |points| => Block(points[order[k]]))
  }

  /** The block stands at one of the x locations, in a row in [0, height). */
  predicate OnRoad(b: Block, blockXLocations: seq<int>, height: int) {
    b.at.x in blockXLocations && 0 <= b.at.y < height
  }

  /** Every block of the state is on the road when every candidate is. */
  lemma KeptOnRoad(blocks: seq<Block>, candidates: seq<Block>, blockXLocations: seq<int>, height: int)
    requires forall m :: 0 <= m < |blocks| ==> blocks[m] in candidates
    requires forall k :: 0 <= k < |candidates| ==> OnRoad(candidates[k], blockXLocations, height)
    ensures forall m :: 0 <= m < |blocks| ==> OnRoad(blocks[m], blockXLocations, height)
  {
    forall m | 0 <= m < |blocks| ensures OnRoad(blocks[m], blockXLocations, height) {
      var k :| 0 <= k < |candidates| && candidates[k] == blocks[m];
    }
  }

  /** generateState. Each round draws an index into blockXLocations and a row in
      [0, height) (the draws are parameters) and adds a fresh double[] to a
      HashSet; arrays hash by identity, so every round adds one element, equal
      coordinates included. The set's iteration order is the parameter order.
      Blocks are then added to the state by name, so a point drawn twice gives
      one block. */
  method GenerateState(blockXLocations: seq<int>, height: int, blockCount: int,
                       xPicks: seq<nat>, yPicks: seq<int>, order: seq<nat>)
    returns (r: Result<GeneratedState, JavaError>)
    requires |xPicks| == Rounds(blockCount) && |yPicks| == Rounds(blockCount)
    requires |blockXLocations| > 0 ==> forall k :: 0 <= k < |xPicks| ==> xPicks[k] < |blockXLocations|
    requires height > 0 ==> forall k :: 0 <= k < |yPicks| ==> 0 <= yPicks[k] < height
    requires IsOrder(order, Rounds(blockCount))
    ensures |blockXLocations| == 0 ==> r == Failure(IndexOutOfBounds)
    ensures |blockXLocations| > 0 && height <= 0 && blockCount > 0 ==> r == Failure(IllegalArgument)
    ensures |blockXLocations| > 0 && (height > 0 || blockCount <= 0) ==> r.Success?
    ensures r.Success? ==> r.value.agent == Point(blockXLocations[0], 0)
    ensures r.Success? ==> r.value.blocks == AddObjects(Ordered(Drawn(blockXLocations, xPicks, yPicks), order), NameOf)
    ensures r.Success? ==> |r.value.blocks| <= Rounds(blockCount) && DistinctNames(r.value.blocks, NameOf)
    ensures r.Success? ==> forall m :: 0 <= m < |r.value.blocks| ==> OnRoad(r.value.blocks[m], blockXLocations, height)
    ensures r.Success? ==> forall k :: 0 <= k < Rounds(blockCount) ==>
      NameOf(Ordered(Drawn(blockXLocations, xPicks, yPicks), order)[k]) in NamesOf(r.value.blocks, NameOf)
    ensures r.Success? && DistinctNames(Ordered(Drawn(blockXLocations, xPicks, yPicks), order), NameOf) ==>
      r.value.blocks == Ordered(Drawn(blockXLocations, xPicks, yPicks), order)
  {
    if |blockXLocations| == 0 {
      return Failure(IndexOutOfBounds);
    }
    var agent := Point(blockXLocations[0], 0);
    if height <= 0 && blockCount > 0 {
      // the first round's nextInt(height) throws
      return Failure(IllegalArgument);
    }
    var points := DrawPoints(blockXLocations, height, blockCount, xPicks, yPicks);
    var blocks := BlocksInOrder(points, order);
    AddObjectsFrom(Ordered(points, order), NameOf);
    assert forall k :: 0 <= k < |points| ==> OnRoad(Ordered(points, order)[k], blockXLocations, height);
    KeptOnRoad(blocks, Ordered(points, order), blockXLocations, height);
    AddObjectsDistinct(Ordered(points, order), NameOf);
    AddObjectsCovers(Ordered(points, order), NameOf);
    if DistinctNames(Ordered(points, order), NameOf) {
      AddObjectsAllNew(Ordered(points, order), NameOf);
    }
    return Success(GeneratedState(agent, blocks));
  }

  /** The rounds of the while loop: one point per round, until the set holds
      blockCount of them. */
  method DrawPoints(blockXLocations: seq<int>, height: int, blockCount: int, xPicks: seq<nat>, yPicks: seq<int>)
    returns (points: seq<Point>)
    requires |xPicks| == Rounds(blockCount) && |yPicks| == Rounds(blockCount)
    requires forall k :: 0 <= k < |xPicks| ==> xPicks[k] < |blockXLocations|
    ensures points == Drawn(blockXLocations, xPicks, yPicks)
  {
    points := [];
    while |points| < blockCount
      invariant |points| <= Rounds(blockCount)
      invariant forall k :: 0 <= k < |points| ==> points[k] == Point(blockXLocations[xPicks[k]], yPicks[k])
      decreases blockCount - |points|
    {
      var k := |points|;
      points := points + [Point(blockXLocations[xPicks[k]], yPicks[k])];
    }
  }

  /** The loop over the set: one block object per point, in iteration order,
      each added to the state. */
  method BlocksInOrder(points: seq<Point>, order: seq<nat>) returns (blocks: seq<Block>)
    requires IsOrder(order, |points|)
    ensures blocks == AddObjects(Ordered(points, order), NameOf)
  {
    blocks := AddInOrder(Ordered(points, order), NameOf);
  }

  /** s.addObject for each object in turn: one whose name is already taken is
      skipped; names mirrors the keys of the state's object map. */
  method AddInOrder<T>(objects: seq<T>, name: T -> string) returns (kept: seq<T>)
    ensures kept == AddObjects(objects, name)
  {
    kept := [];
    var names: set<string> := {};
    var k := 0;
    while k < |objects|
      invariant 0 <= k <= |objects|
      invariant kept == AddObjects(objects[..k], name) && names == NamesOf(kept, name)
    {
      var o := objects[k];
      assert objects[..k + 1][..k] == objects[..k];
      NamesOfAdd(kept, o, name);
      if name(o) !in names {
        kept := kept + [o];
        names := names + {name(o)};
      }
      k := k + 1;
    }
    assert objects[..k] == objects;
  }

  /** Below 10^7 in magnitude a coordinate prints as the int followed by ".0". */
  lemma BlockNameSmall(p: Point)
    requires -10_000_000 < p.x < 10_000_000 && -10_000_000 < p.y < 10_000_000
    ensures BlockName(p) == "block" + IntToString(p.x) + ".0_" + IntToString(p.y) + ".0"
  {
  }
}
