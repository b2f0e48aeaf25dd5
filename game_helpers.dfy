/**
 * Grid helpers of the maze: where a level's ball starts, bounds-checked cell
 * lookup, and the square-expanding search for the nearest open path cell
 * that the respawn fallback uses.
 *
 * A layout is a sequence of rows of cell codes. Its width is the length of
 * row 0; rows are not required to be equally long, because the source does
 * not require it either: reading past the end of a short row yields
 * `undefined` there, which no cell code equals.
 */
module GameHelpers {
  import opened Common

  type Layout = seq<seq<int>>

  const PATH_CELL := 0

  /** The default `maxRadius` of `findNearestSafeCell`. */
  const DEFAULT_SEARCH_RADIUS := 5

  /** The parts of a level definition the core reads. */
  datatype MazeLevel = MazeLevel(layout: Layout, startPosition: Cell, timeLimit: Option<int>)

  /**
   * Start position of a level: the centre of its start cell. The cell size is
   * the maze size divided by the number of ROWS, on both axes.
   */
  function GetPosition(rows: int, startPosition: Cell, mazeSize: real): (p: Point)
    requires rows > 0
    ensures var cellSize := mazeSize / rows as real;
      && p.x - startPosition.x as real * cellSize == cellSize / 2.0
      && p.y - startPosition.y as real * cellSize == cellSize / 2.0
    ensures mazeSize > 0.0 ==> CellOf(p, mazeSize / rows as real) == startPosition
  {
    var cellSize := mazeSize / rows as real;
    var p := Point(cellSize * (startPosition.x as real + 0.5), cellSize * (startPosition.y as real + 0.5));
    assert p == CellCentre(startPosition, cellSize);
    if mazeSize > 0.0 then CentreInCell(startPosition, cellSize); p else p
  }

  /**
   * For a start cell inside a square grid of `rows` rows, the start position
   * lies strictly inside the maze's pixel extent.
   */
  lemma StartPositionInsideMaze(rows: int, startPosition: Cell, mazeSize: real)
    requires rows > 0 && mazeSize > 0.0
    requires 0 <= startPosition.x < rows && 0 <= startPosition.y < rows
    ensures var p := GetPosition(rows, startPosition, mazeSize);
      0.0 < p.x < mazeSize && 0.0 < p.y < mazeSize
  {
    var cellSize := mazeSize / rows as real;
    assert cellSize * rows as real == mazeSize;
    var p := GetPosition(rows, startPosition, mazeSize);
    assert p.x == cellSize * (startPosition.x as real + 0.5);
    assert p.y == cellSize * (startPosition.y as real + 0.5);
    ScaleBelow(cellSize, startPosition.x as real + 0.5, rows as real);
    ScaleBelow(cellSize, startPosition.y as real + 0.5, rows as real);
  }

  lemma ScaleBelow(c: real, k: real, n: real)
    requires c > 0.0 && 0.0 < k < n
    ensures 0.0 < c * k < c * n
  {
  }

  /** `isPositionWithinMazeBounds`: inside the width of row 0 and the number of rows. */
  predicate IsPositionWithinMazeBounds(x: int, y: int, layout: Layout)
    requires |layout| > 0
  {
    x >= 0 && x < |layout[0]| && y >= 0 && y < |layout|
  }

  predicate Rectangular(layout: Layout)
  {
    forall y :: 0 <= y < |layout| ==> |layout[y]| == |layout[0]|
  }

  /** On a rectangular grid the bounds check, which measures row 0, holds exactly when `layout[y][x]` exists. */
  lemma WithinBoundsIsIndexable(x: int, y: int, layout: Layout)
    requires |layout| > 0 && Rectangular(layout)
    ensures IsPositionWithinMazeBounds(x, y, layout) <==> 0 <= y < |layout| && 0 <= x < |layout[y]|
  {
  }

  /**
   * `getMazeCell`: the code at column `x`, row `y`, or `None` off the grid.
   * `None` stands for both `null` (out of bounds) and `undefined` (past the
   * end of a row shorter than row 0); neither equals any cell code.
   */
  function GetMazeCell(x: int, y: int, layout: Layout): (r: Option<int>)
    requires |layout| > 0
    ensures r.Some? <==> IsPositionWithinMazeBounds(x, y, layout) && x < |layout[y]|
    ensures r.Some? ==> r.value == layout[y][x]
    ensures Rectangular(layout) ==> (r.Some? <==> IsPositionWithinMazeBounds(x, y, layout))
  {
    if IsPositionWithinMazeBounds(x, y, layout) && x < |layout[y]| then Some(layout[y][x]) else None
  }

  /** An in-bounds cell holding the path code 0. */
  predicate IsSafeCell(layout: Layout, x: int, y: int)
    requires |layout| > 0
  {
    GetMazeCell(x, y, layout) == Some(PATH_CELL)
  }

  function Abs(n: int): nat { if n < 0 then -n else n }

  /** Chebyshev distance between the start cell and (x, y). */
  function Chebyshev(startX: int, startY: int, x: int, y: int): nat
  {
    var dx := Abs(x - startX);
    var dy := Abs(y - startY);
    if dx >= dy then dx else dy
  }

  /**
   * The first search radius whose square contains (x, y): radius 1 already
   * covers the start cell and its eight neighbours.
   */
  function Ring(startX: int, startY: int, x: int, y: int): nat
  {
    var d := Chebyshev(startX, startY, x, y);
    if d < 1 then 1 else d
  }

  /**
   * `findNearestSafeCell`: for radius 1, 2, ... below `maxRadius`, scan the
   * whole square of that radius row by row (dy outer, dx inner, both from
   * -radius to radius) and return the first path cell.
   *
   * The result is characterised without the loop: it is a path cell of the
   * smallest radius that has one, and among the path cells of that square it
   * comes first in row-then-column order. `None` means no path cell lies in
   * any scanned square.
   */
  method FindNearestSafeCell(startX: int, startY: int, layout: Layout, maxRadius: int) returns (r: Option<Cell>)
    requires |layout| > 0
    ensures r.Some? ==> IsSafeCell(layout, r.value.x, r.value.y)
    ensures r.Some? ==> Ring(startX, startY, r.value.x, r.value.y) < maxRadius
    ensures r.Some? ==> forall x, y :: IsSafeCell(layout, x, y) ==>
      Ring(startX, startY, r.value.x, r.value.y) <= Ring(startX, startY, x, y)
    ensures r.Some? ==> forall x, y ::
      IsSafeCell(layout, x, y) && Chebyshev(startX, startY, x, y) <= Ring(startX, startY, r.value.x, r.value.y) ==>
      r.value.y < y || (r.value.y == y && r.value.x <= x)
    ensures r.None? ==> forall x, y :: IsSafeCell(layout, x, y) ==> Ring(startX, startY, x, y) >= maxRadius
  {
    var radius := 1;
    while radius < maxRadius
      invariant radius >= 1
      invariant forall x, y :: IsSafeCell(layout, x, y) ==> Ring(startX, startY, x, y) >= radius
    {
      var dy := -radius;
      while dy <= radius
        invariant -radius <= dy <= radius + 1
        invariant forall x, y :: IsSafeCell(layout, x, y) ==> Ring(startX, startY, x, y) >= radius
        invariant forall x, y :: IsSafeCell(layout, x, y) && Chebyshev(startX, startY, x, y) <= radius ==>
          y >= startY + dy
      {
        var dx := -radius;
        while dx <= radius
          invariant -radius <= dx <= radius + 1
          invariant forall x, y :: IsSafeCell(layout, x, y) && Chebyshev(startX, startY, x, y) <= radius ==>
            y > startY + dy || (y == startY + dy && x >= startX + dx)
        {
          var checkY := startY + dy;
          var checkX := startX + dx;
          // A row shorter than row 0 reads as undefined past its end.
          if IsPositionWithinMazeBounds(checkX, checkY, layout) && checkX < |layout[checkY]| &&
             layout[checkY][checkX] == PATH_CELL
          {
            assert IsSafeCell(layout, checkX, checkY);
            assert Chebyshev(startX, startY, checkX, checkY) <= radius;
            return Some(Cell(checkX, checkY));
          }
          dx := dx + 1;
        }
        dy := dy + 1;
      }
      radius := radius + 1;
    }
    return None;
  }
}
