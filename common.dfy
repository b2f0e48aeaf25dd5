/**
 * Shared vocabulary of the maze game model: optional values, points in the
 * maze's pixel space, integer grid cells, and the conversions between them.
 *
 * Positions use `real`. Every distance test of the game compares a Euclidean
 * distance against a radius; here it is stated on squared distances. Where the
 * game divides by a distance, the distance comes from a `hypot` function that
 * callers promise behaves like the square root of a sum of squares.
 */
module Common {

  datatype Option<T> = None | Some(value: T)

  /** A point in the maze's pixel space. */
  datatype Point = Point(x: real, y: real)

  /** A grid cell addressed by column `x` and row `y`. */
  datatype Cell = Cell(x: int, y: int)

  /** `Math.floor(v / cellSize)`: the grid index of a pixel coordinate. */
  function CellIndex(v: real, cellSize: real): int
    requires cellSize > 0.0
  {
    (v / cellSize).Floor
  }

  /** The grid cell that contains point `p`. */
  function CellOf(p: Point, cellSize: real): Cell
    requires cellSize > 0.0
  {
    Cell(CellIndex(p.x, cellSize), CellIndex(p.y, cellSize))
  }

  /** `i * cellSize + cellSize / 2`: the pixel coordinate of the middle of index `i`. */
  function Middle(i: int, cellSize: real): real
  {
    i as real * cellSize + cellSize / 2.0
  }

  /** The centre of cell `c`, as every part of the game computes it. */
  function CellCentre(c: Cell, cellSize: real): Point
  {
    Point(Middle(c.x, cellSize), Middle(c.y, cellSize))
  }

  /** The middle of index `i` lies strictly inside the span of index `i`. */
  lemma MiddleInside(i: int, cellSize: real)
    requires cellSize > 0.0
    ensures CellIndex(Middle(i, cellSize), cellSize) == i
  {
    var m := Middle(i, cellSize);
    var q := m / cellSize;
    assert q * cellSize == m;
    assert (q - (i as real + 0.5)) * cellSize == 0.0;
    ZeroFactor(q - (i as real + 0.5), cellSize);
  }

  lemma ZeroFactor(a: real, c: real)
    requires c > 0.0 && a * c == 0.0
    ensures a == 0.0
  {
  }

  /** The centre of a cell maps back to that cell. */
  lemma CentreInCell(c: Cell, cellSize: real)
    requires cellSize > 0.0
    ensures CellOf(CellCentre(c, cellSize), cellSize) == c
  {
    MiddleInside(c.x, cellSize);
    MiddleInside(c.y, cellSize);
  }

  function SqDist(p: Point, q: Point): real
  {
    (p.x - q.x) * (p.x - q.x) + (p.y - q.y) * (p.y - q.y)
  }

  /**
   * `Math.sqrt(dx*dx + dy*dy) < r`, restated without the square root: the
   * distance is never negative, so it is below `r` exactly when `r` is
   * positive and the squared distance is below `r * r`.
   */
  predicate Within(p: Point, q: Point, r: real)
  {
    0.0 < r && SqDist(p, q) < r * r
  }

  /**
   * `h` behaves as `Math.sqrt(a*a + b*b)`: never negative, squares to the sum
   * of squares, and zero exactly for the zero vector.
   */
  ghost predicate IsHypot(h: (real, real) -> real)
  {
    forall a, b :: h(a, b) >= 0.0 && h(a, b) * h(a, b) == a * a + b * b &&
      (h(a, b) == 0.0 <==> a == 0.0 && b == 0.0)
  }

  function Min(a: int, b: int): int { if a <= b then a else b }
  function Max(a: int, b: int): int { if a >= b then a else b }
  function RMin(a: real, b: real): real { if a <= b then a else b }
  function RMax(a: real, b: real): real { if a >= b then a else b }
}
