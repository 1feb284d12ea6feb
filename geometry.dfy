/** Grid positions shared by the grid worlds, the expert policy and the driving
    world: the integer x/y attributes of an object, and the four compass
    actions of a grid world. */
module Geometry {

  datatype Point = Point(x: int, y: int)

  /** The four movement actions of a grid world. */
  datatype Heading = North | South | East | West

  /** The cell a movement action leads to when it succeeds: north raises y,
      east raises x. */
  function Moved(p: Point, h: Heading): Point {
    match h
    case North => Point(p.x, p.y + 1)
    case South => Point(p.x, p.y - 1)
    case East => Point(p.x + 1, p.y)
    case West => Point(p.x - 1, p.y)
  }

  function Abs(n: int): nat {
    if n < 0 then -n else n
  }

  /** The number of moves between two cells of an open grid. */
  function Manhattan(p: Point, q: Point): nat {
    Abs(p.x - q.x) + Abs(p.y - q.y)
  }
}
