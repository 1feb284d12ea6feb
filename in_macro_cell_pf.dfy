/** The rectangle feature of the grid worlds (src/InMacroCellPF.java): true when
    the first agent of the state stands inside the closed rectangle anchored at
    (x, y). Also the objects of a grid-world state it inspects, and the loop
    that lays such rectangles out on a grid. */
module InMacroCells {
  import opened Features
  import opened JavaStrings
  import opened Geometry

  /** A macro-cell object: its index attribute and its reward attribute. */
  datatype MacroCell = MacroCell(index: int, reward: int)

  /** What the grid-world code reads from a state: the agent objects, in the
      state's order, and the macro-cell objects, in the state's order. */
  datatype GridState = GridState(agents: seq<Point>, cells: seq<MacroCell>)

  /** The bounds the constructor stores, and the name it passes to the superclass. */
  datatype InMacroCellPF = InMacroCellPF(name: string, left: int, right: int, bottom: int, top: int)

  /** The name "[x, y]". */
  function CellName(x: int, y: int): string {
    "[" + IntToString(x) + ", " + IntToString(y) + "]"
  }

  /** The constructor; the top bound is computed from the width, and the height
      argument is unused. */
  function NewInMacroCellPF(x: int, y: int, width: int, height: int): InMacroCellPF {
    InMacroCellPF(CellName(x, y), x, x + width, y, y + width)
  }

  /** isTrue: false without an agent; otherwise the first agent lies within the
      bounds, both ends included. */
  predicate IsTrue(pf: InMacroCellPF, s: GridState) {
    |s.agents| > 0 &&
    pf.left <= s.agents[0].x <= pf.right && pf.bottom <= s.agents[0].y <= pf.top
  }

  /** The function as a feature of grid states. */
  function AsFeature(pf: InMacroCellPF): PropFn<GridState> {
    PropFn(pf.name, (s: GridState) => IsTrue(pf, s))
  }

  /** The feature built for (x, y, width, height) holds exactly when the first
      agent is in the closed square [x, x + width] by [y, y + width]. */
  lemma CellHolds(x: int, y: int, width: int, height: int, s: GridState)
    ensures AsFeature(NewInMacroCellPF(x, y, width, height)).holds(s) <==>
      |s.agents| > 0 && x <= s.agents[0].x <= x + width && y <= s.agents[0].y <= y + width
    ensures AsFeature(NewInMacroCellPF(x, y, width, height)).name == CellName(x, y)
  {
  }

  /** With inclusive bounds, a point on the shared edge of two horizontally
      neighbouring cells satisfies both. */
  lemma SharedEdge(x: int, y: int, width: int, height: int, s: GridState)
    requires |s.agents| > 0 && s.agents[0].x == x + width && y <= s.agents[0].y <= y + width
    ensures IsTrue(NewInMacroCellPF(x, y, width, height), s)
    ensures IsTrue(NewInMacroCellPF(x + width, y, width, height), s)
  {
  }

  /** Between the brackets of a name are the two printed ints and ", ". */
  lemma CellNameInner(x: int, y: int)
    ensures |CellName(x, y)| >= 2
    ensures CellName(x, y)[1..|CellName(x, y)| - 1] == IntToString(x) + ", " + IntToString(y)
  {
  }

  /** Splitting the inside of a name at ", " gives the two printed ints back. */
  lemma CellNamePieces(x: int, y: int)
    ensures Pieces(IntToString(x) + ", " + IntToString(y), ", ") == [IntToString(x), IntToString(y)]
  {
    IntToStringFree(x, ',');
    IntToStringFree(y, ',');
    assert Join([IntToString(x), IntToString(y)], ", ") == IntToString(x) + ", " + IntToString(y);
    PiecesOfJoin([IntToString(x), IntToString(y)], ", ");
  }

  /** Different anchors give different names. */
  lemma CellNameInjective(x1: int, y1: int, x2: int, y2: int)
    requires CellName(x1, y1) == CellName(x2, y2)
    ensures x1 == x2 && y1 == y2
  {
    CellNameInner(x1, y1);
    CellNameInner(x2, y2);
    CellNamePieces(x1, y1);
    CellNamePieces(x2, y2);
    IntToStringInjective(x1, x2);
    IntToStringInjective(y1, y2);
  }

  /** The rectangle at position k of a layout with ny rows: column k / ny,
      row k % ny. */
  function LayoutCell(k: nat, ny: nat, cellW: int, cellH: int): InMacroCellPF
    requires ny > 0
  {
    NewInMacroCellPF((k / ny) * cellW, (k % ny) * cellH, cellW, cellH)
  }

  /** The nested loops of getPropositionalFunctions: column i and row j give the
      function at position i * ny + j, anchored at (i * cellW, j * cellH). */
  method CellLayout(nx: nat, ny: nat, cellW: int, cellH: int) returns (fs: seq<PropFn<GridState>>)
    requires ny > 0
    ensures |fs| == nx * ny
    ensures forall k :: 0 <= k < |fs| ==> fs[k] == AsFeature(LayoutCell(k, ny, cellW, cellH))
  {
    fs := [];
    var i := 0;
    while i < nx
      invariant 0 <= i <= nx && |fs| == i * ny
      invariant forall k :: 0 <= k < |fs| ==> fs[k] == AsFeature(LayoutCell(k, ny, cellW, cellH))
    {
      var x := i * cellW;
      var j := 0;
      while j < ny
        invariant 0 <= j <= ny && |fs| == i * ny + j
        invariant forall k :: 0 <= k < |fs| ==> fs[k] == AsFeature(LayoutCell(k, ny, cellW, cellH))
      {
        var y := j * cellH;
        LayoutPosition(i, j, ny);
        fs := fs + [AsFeature(NewInMacroCellPF(x, y, cellW, cellH))];
        j := j + 1;
      }
      i := i + 1;
    }
  }

  lemma LayoutPosition(i: nat, j: nat, ny: nat)
    requires j < ny
    ensures (i * ny + j) / ny == i && (i * ny + j) % ny == j
  {
    var k := i * ny + j;
    var q := k / ny;
    var r := k % ny;
    assert q * ny + r == i * ny + j;
    var d := q - i;
    assert d * ny == q * ny - i * ny;
    MultipleBounds(d, ny);
  }

  lemma MultipleBounds(d: int, n: nat)
    ensures d >= 1 ==> d * n >= n
    ensures d <= -1 ==> d * n <= 0 - n
  {
    if d >= 1 {
      assert d * n == (d - 1) * n + n;
    } else if d <= -1 {
      assert d * n == (d + 1) * n - n;
    }
  }
}
