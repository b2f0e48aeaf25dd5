/**
 * Respawn history: a short trail of the cells the ball recently entered, and
 * the search that picks a respawn point from it that no enemy threatens.
 *
 * The history keeps at most 4 entries, appends only when the ball enters a
 * cell different from the last recorded one, and ignores calls that come
 * within 50 ms of the last recorded update. The clock reading is a parameter.
 */
module RespawnLogic {
  import opened Common

  datatype HistoryEntry = HistoryEntry(x: real, y: real, cellX: int, cellY: int)

  const UPDATE_THROTTLE := 50
  const HISTORY_CAPACITY := 4

  function EntryCell(e: HistoryEntry): Cell
  {
    Cell(e.cellX, e.cellY)
  }

  /** `array.slice(-n)` for n > 0: the last `n` elements, or all of them. */
  function KeepLast<T>(s: seq<T>, n: nat): (r: seq<T>)
    requires n > 0
    ensures |r| == if |s| <= n then |s| else n
    ensures forall i :: 0 <= i < |r| ==> r[i] == s[|s| - |r| + i]
  {
    if |s| <= n then s else s[|s| - n..]
  }

  /** Consecutive entries name different cells. */
  predicate ConsecutiveDistinct(h: seq<HistoryEntry>)
  {
    forall i :: 0 < i < |h| ==> EntryCell(h[i - 1]) != EntryCell(h[i])
  }

  /**
   * The cell lies under an enemy: some enemy centre is closer to the cell's
   * centre than half a cell plus the ball size.
   */
  predicate Occupied(cell: Cell, enemyPositions: seq<Point>, cellSize: real, ballSize: real)
  {
    exists i :: 0 <= i < |enemyPositions| &&
      Within(CellCentre(cell, cellSize), enemyPositions[i], cellSize / 2.0 + ballSize)
  }

  /** `isCellOccupiedByEnemy`: a scan over the enemies that stops at the first close one. */
  method IsCellOccupiedByEnemy(cellX: int, cellY: int, enemyPositions: seq<Point>, cellSize: real, ballSize: real)
    returns (occupied: bool)
    ensures occupied <==> Occupied(Cell(cellX, cellY), enemyPositions, cellSize, ballSize)
  {
    var centre := CellCentre(Cell(cellX, cellY), cellSize);
    var checkRadius := cellSize / 2.0;
    var i := 0;
    while i < |enemyPositions|
      invariant 0 <= i <= |enemyPositions|
      invariant forall j :: 0 <= j < i ==> !Within(centre, enemyPositions[j], checkRadius + ballSize)
    {
      if Within(centre, enemyPositions[i], checkRadius + ballSize) {
        return true;
      }
      i := i + 1;
    }
    return false;
  }

  class RespawnHistory {
    var positionHistory: seq<HistoryEntry>
    var lastRecordedCell: Option<Cell>
    var lastUpdateTime: int

    /**
     * At most 4 entries, consecutive ones in different cells, and the last
     * recorded cell is the cell of the newest entry (none when empty).
     */
    predicate Valid()
      reads this
    {
      && |positionHistory| <= HISTORY_CAPACITY
      && ConsecutiveDistinct(positionHistory)
      && (positionHistory == [] <==> lastRecordedCell == None)
      && (positionHistory != [] ==> lastRecordedCell == Some(EntryCell(positionHistory[|positionHistory| - 1])))
    }

    constructor ()
      ensures Valid()
      ensures positionHistory == [] && lastRecordedCell == None && lastUpdateTime == 0
    {
      positionHistory := [];
      lastRecordedCell := None;
      lastUpdateTime := 0;
    }

    /**
     * `recordPosition` at clock reading `now`. Throttled calls change nothing;
     * otherwise an entry is appended, and the oldest dropped beyond 4, only
     * when the ball's cell differs from the last recorded cell, and only then
     * does the throttle clock advance.
     */
    method RecordPosition(x: real, y: real, cellSize: real, now: int)
      requires Valid() && cellSize > 0.0
      modifies this
      ensures Valid()
      ensures var cell := Cell(CellIndex(x, cellSize), CellIndex(y, cellSize));
        if now - old(lastUpdateTime) < UPDATE_THROTTLE || old(lastRecordedCell) == Some(cell) then
          && positionHistory == old(positionHistory)
          && lastRecordedCell == old(lastRecordedCell)
          && lastUpdateTime == old(lastUpdateTime)
        else
          && positionHistory == KeepLast(old(positionHistory) + [HistoryEntry(x, y, cell.x, cell.y)], HISTORY_CAPACITY)
          && lastRecordedCell == Some(cell)
          && lastUpdateTime == now
    {
      if now - lastUpdateTime < UPDATE_THROTTLE {
        return;
      }
      var cellX := CellIndex(x, cellSize);
      var cellY := CellIndex(y, cellSize);
      if lastRecordedCell.None? || lastRecordedCell.value.x != cellX || lastRecordedCell.value.y != cellY {
        lastRecordedCell := Some(Cell(cellX, cellY));
        lastUpdateTime := now;
        var newHistory := positionHistory + [HistoryEntry(x, y, cellX, cellY)];
        positionHistory := KeepLast(newHistory, HISTORY_CAPACITY);
        assert positionHistory[|positionHistory| - 1] == newHistory[|newHistory| - 1];
      }
    }

    /**
     * `findSafeRespawnPosition`: scan the history from the second-newest entry
     * back to the oldest and return the centre of the first cell no enemy
     * occupies. The newest entry (the cell of the hit) is never a candidate.
     * The death cell arguments are accepted and unused, as in the source.
     */
    method FindSafeRespawnPosition(deathCellX: int, deathCellY: int, enemyPositions: seq<Point>,
                                   cellSize: real, ballSize: real)
      returns (r: Option<Point>)
      ensures r.Some? ==> exists i ::
        && 0 <= i < |positionHistory| - 1
        && r.value == CellCentre(EntryCell(positionHistory[i]), cellSize)
        && !Occupied(EntryCell(positionHistory[i]), enemyPositions, cellSize, ballSize)
        && forall j :: i < j < |positionHistory| - 1 ==>
             Occupied(EntryCell(positionHistory[j]), enemyPositions, cellSize, ballSize)
      ensures r.None? <==> forall i :: 0 <= i < |positionHistory| - 1 ==>
        Occupied(EntryCell(positionHistory[i]), enemyPositions, cellSize, ballSize)
    {
      var i := |positionHistory| - 2;
      while i >= 0
        invariant -1 <= i <= |positionHistory| - 2 || (i == -2 && |positionHistory| == 0)
        invariant forall j :: i < j < |positionHistory| - 1 ==>
          Occupied(EntryCell(positionHistory[j]), enemyPositions, cellSize, ballSize)
      {
        var historyPos := positionHistory[i];
        var occupied := IsCellOccupiedByEnemy(historyPos.cellX, historyPos.cellY, enemyPositions, cellSize, ballSize);
        if !occupied {
          return Some(Point(Middle(historyPos.cellX, cellSize), Middle(historyPos.cellY, cellSize)));
        }
        i := i - 1;
      }
      return None;
    }

    /** `clearHistory`: empty history, no last cell, throttle clock back to 0. */
    method ClearHistory()
      modifies this
      ensures Valid()
      ensures positionHistory == [] && lastRecordedCell == None && lastUpdateTime == 0
    {
      positionHistory := [];
      lastRecordedCell := None;
      lastUpdateTime := 0;
    }
  }
}
