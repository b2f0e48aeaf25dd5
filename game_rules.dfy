/**
 * The computations of the game screen that do not change state: the maze's
 * pixel size, cell codes, what a candidate ball position touches, stars,
 * snack bookkeeping, level navigation arithmetic and the button title.
 */
module GameRules {
  import opened Common
  import opened GameHelpers
  import opened Physics

  const WALL_CELL := 1
  const GOAL_CELL := 2
  const DANGER_CELL := 3
  const SNACK_CELL := 4
  const SECRET_WALL_CELL := 5
  const SECRET_SNACK_CELL := 6

  const MIN_MAZE_SIZE := 300

  function MaxMazeSize(layoutSize: int): int
  {
    if layoutSize > 10 then 720 else 600
  }

  /** 80% of the smaller screen side, scaled by 1.2 for layouts of more than 10 rows, each step floored. */
  function UnclampedMazeSize(layoutSize: int, screenWidth: real, screenHeight: real): int
  {
    var baseSize := (RMin(screenWidth, screenHeight) * 0.8).Floor;
    var multiplier := if layoutSize > 10 then 1.2 else 1.0;
    (baseSize as real * multiplier).Floor
  }

  /**
   * `getResponsiveMazeSize`: the unclamped size, clamped to
   * [300, 600], or to [300, 720] for layouts of more than 10 rows.
   */
  function GetResponsiveMazeSize(layoutSize: int, screenWidth: real, screenHeight: real): (size: int)
    ensures MIN_MAZE_SIZE <= size <= MaxMazeSize(layoutSize)
    ensures var m := UnclampedMazeSize(layoutSize, screenWidth, screenHeight);
      && (MIN_MAZE_SIZE <= m <= MaxMazeSize(layoutSize) ==> size == m)
      && (m < MIN_MAZE_SIZE ==> size == MIN_MAZE_SIZE)
      && (m > MaxMazeSize(layoutSize) ==> size == MaxMazeSize(layoutSize))
  {
    Max(MIN_MAZE_SIZE, Min(MaxMazeSize(layoutSize), UnclampedMazeSize(layoutSize, screenWidth, screenHeight)))
  }

  /** `BALL_SIZE`: a fifteenth of the maze size, floored. */
  function BallSize(mazeSize: int): (b: int)
    ensures 15 * b <= mazeSize < 15 * b + 15
    ensures 300 <= mazeSize <= 720 ==> 20 <= b <= 48
  {
    mazeSize / 15
  }

  // ---------------------------------------------------------------------
  // What a candidate ball position touches

  /** The code of the cell under a point, `None` off the grid. */
  function SampleCode(p: Point, layout: Layout, cellSize: real): Option<int>
    requires |layout| > 0 && cellSize > 0.0
  {
    var c := CellOf(p, cellSize);
    GetMazeCell(c.x, c.y, layout)
  }

  /** The circumference scan stops at a wall or a danger cell; every other code lets it go on. */
  predicate Stops(code: Option<int>)
  {
    code == Some(WALL_CELL) || code == Some(DANGER_CELL)
  }

  /** The index of the first sample point the scan stops at, or the number of points. */
  function FirstStop(points: seq<Point>, layout: Layout, cellSize: real): (i: nat)
    requires |layout| > 0 && cellSize > 0.0
    ensures i <= |points|
    ensures forall j :: 0 <= j < i ==> !Stops(SampleCode(points[j], layout, cellSize))
    ensures i < |points| ==> Stops(SampleCode(points[i], layout, cellSize))
  {
    if points == [] then 0
    else if Stops(SampleCode(points[0], layout, cellSize)) then 0
    else 1 + FirstStop(points[1..], layout, cellSize)
  }

  /** The scan stops at a cell holding `code`. */
  predicate FirstStopIs(points: seq<Point>, layout: Layout, cellSize: real, code: int)
    requires |layout| > 0 && cellSize > 0.0
  {
    var i := FirstStop(points, layout, cellSize);
    i < |points| && SampleCode(points[i], layout, cellSize) == Some(code)
  }

  /** Some enemy centre is closer than two ball radii. */
  predicate TouchesEnemy(ball: Point, enemyPositions: seq<Point>, ballRadius: real)
  {
    exists i :: 0 <= i < |enemyPositions| && Within(ball, enemyPositions[i], 2.0 * ballRadius)
  }

  predicate OutsideMaze(newX: real, newY: real, ballRadius: real, mazeSize: real)
  {
    newX - ballRadius < 0.0 || newX + ballRadius > mazeSize || newY - ballRadius < 0.0 || newY + ballRadius > mazeSize
  }

  /**
   * What a candidate centre runs into, in the order `checkCollision` tests:
   * the maze's bounding box, then the sample points one by one (wall before
   * danger at each point), then the enemies. A danger hit names the cell of
   * the sample; an enemy hit and a clear position name the ball's own cell.
   */
  datatype Contact = OutOfMaze | Wall | Danger(cell: Cell) | Enemy(cell: Cell) | Clear(cell: Cell)

  function Classify(newX: real, newY: real, points: seq<Point>, enemyPositions: seq<Point>, layout: Layout,
                    mazeSize: real, cellSize: real, ballRadius: real): (r: Contact)
    requires |layout| > 0 && cellSize > 0.0
    ensures r == OutOfMaze <==> OutsideMaze(newX, newY, ballRadius, mazeSize)
    ensures r == Wall <==> !OutsideMaze(newX, newY, ballRadius, mazeSize) && FirstStopIs(points, layout, cellSize, WALL_CELL)
    ensures r.Danger? <==> !OutsideMaze(newX, newY, ballRadius, mazeSize) && FirstStopIs(points, layout, cellSize, DANGER_CELL)
    ensures r.Danger? ==> r.cell == CellOf(points[FirstStop(points, layout, cellSize)], cellSize)
    ensures r.Enemy? || r.Clear? <==>
      !OutsideMaze(newX, newY, ballRadius, mazeSize) && FirstStop(points, layout, cellSize) == |points|
    ensures r.Enemy? || r.Clear? ==>
      (r.Enemy? <==> TouchesEnemy(Point(newX, newY), enemyPositions, ballRadius))
    ensures r.Enemy? || r.Clear? ==> r.cell == CellOf(Point(newX, newY), cellSize)
  {
    if OutsideMaze(newX, newY, ballRadius, mazeSize) then OutOfMaze
    else
      var i := FirstStop(points, layout, cellSize);
      if i < |points| then
        if SampleCode(points[i], layout, cellSize) == Some(WALL_CELL) then Wall
        else Danger(CellOf(points[i], cellSize))
      else if TouchesEnemy(Point(newX, newY), enemyPositions, ballRadius) then Enemy(CellOf(Point(newX, newY), cellSize))
      else Clear(CellOf(Point(newX, newY), cellSize))
  }

  /**
   * Secret walls (code 5) are never tested: inside the maze, with every
   * sample on a path or secret-wall cell, only an enemy can stop the ball.
   */
  lemma SecretWallsArePassable(newX: real, newY: real, points: seq<Point>, enemyPositions: seq<Point>,
                               layout: Layout, mazeSize: real, cellSize: real, ballRadius: real)
    requires |layout| > 0 && cellSize > 0.0
    requires !OutsideMaze(newX, newY, ballRadius, mazeSize)
    requires forall j :: 0 <= j < |points| ==>
      SampleCode(points[j], layout, cellSize) == Some(SECRET_WALL_CELL) ||
      SampleCode(points[j], layout, cellSize) == Some(PATH_CELL)
    ensures var r := Classify(newX, newY, points, enemyPositions, layout, mazeSize, cellSize, ballRadius);
      r.Enemy? || r.Clear?
  {
  }

  // ---------------------------------------------------------------------
  // Snacks

  /** `${row}-${col}`: distinct cells give distinct keys. */
  datatype SnackKey = SnackKey(row: int, col: int)

  predicate IsSnackCode(code: Option<int>)
  {
    code == Some(SNACK_CELL) || code == Some(SECRET_SNACK_CELL)
  }

  datatype SnackState = SnackState(eatenSnacks: set<SnackKey>, extraLives: int)

  /** Eating the snack under `key`: recorded once, and only the first time worth a life. */
  function EatSnack(eatenSnacks: set<SnackKey>, extraLives: int, key: SnackKey): (r: SnackState)
    ensures r.eatenSnacks == eatenSnacks + {key}
    ensures key in eatenSnacks ==> r.extraLives == extraLives
    ensures key !in eatenSnacks ==> r.extraLives == extraLives + 1
  {
    if key in eatenSnacks then SnackState(eatenSnacks, extraLives)
    else SnackState(eatenSnacks + {key}, extraLives + 1)
  }

  /** Eating the same snack again changes nothing. */
  lemma EatSnackIdempotent(eatenSnacks: set<SnackKey>, extraLives: int, key: SnackKey)
    ensures var once := EatSnack(eatenSnacks, extraLives, key);
      EatSnack(once.eatenSnacks, once.extraLives, key) == once
  {
  }

  // ---------------------------------------------------------------------
  // Stars

  datatype LevelStars = LevelStars(completedNormalMode: bool, completedChaosMode: bool, allSnacksEaten: bool,
                                   underMazeTimeLimit: bool, noExtraLivesUsed: bool)

  /** Cells of `row` holding `code`. */
  function RowCount(row: seq<int>, code: int): nat
  {
    if row == [] then 0 else RowCount(row[..|row| - 1], code) + (if row[|row| - 1] == code then 1 else 0)
  }

  /** `layout.flat().filter(cell => cell === code).length`. */
  function GridCount(layout: Layout, code: int): nat
  {
    if layout == [] then 0 else GridCount(layout[..|layout| - 1], code) + RowCount(layout[|layout| - 1], code)
  }

  /** Regular snack cells of row `r` whose key is eaten. */
  function RowEaten(row: seq<int>, r: int, eaten: set<SnackKey>): nat
  {
    if row == [] then 0
    else
      var last := if row[|row| - 1] == SNACK_CELL && SnackKey(r, |row| - 1) in eaten then 1 else 0;
      RowEaten(row[..|row| - 1], r, eaten) + last
  }

  function GridEaten(layout: Layout, eaten: set<SnackKey>): nat
  {
    if layout == [] then 0 else GridEaten(layout[..|layout| - 1], eaten) + RowEaten(layout[|layout| - 1], |layout| - 1, eaten)
  }

  predicate RowAllEaten(row: seq<int>, r: int, eaten: set<SnackKey>)
  {
    forall c :: 0 <= c < |row| && row[c] == SNACK_CELL ==> SnackKey(r, c) in eaten
  }

  /** Every regular snack cell of the layout has its key among the eaten snacks. */
  predicate AllRegularSnacksEaten(layout: Layout, eaten: set<SnackKey>)
  {
    forall r :: 0 <= r < |layout| ==> RowAllEaten(layout[r], r, eaten)
  }

  lemma {:induction false} RowEatenExact(row: seq<int>, r: int, eaten: set<SnackKey>)
    ensures RowEaten(row, r, eaten) <= RowCount(row, SNACK_CELL)
    ensures RowEaten(row, r, eaten) == RowCount(row, SNACK_CELL) <==> RowAllEaten(row, r, eaten)
  {
    if row != [] {
      var front := row[..|row| - 1];
      RowEatenExact(front, r, eaten);
      assert forall c :: 0 <= c < |front| ==> front[c] == row[c];
      if RowAllEaten(row, r, eaten) {
        assert RowAllEaten(front, r, eaten);
      }
    }
  }

  /** The eaten regular snacks number as many as the regular snack cells exactly when all are eaten. */
  lemma {:induction false} GridEatenExact(layout: Layout, eaten: set<SnackKey>)
    ensures GridEaten(layout, eaten) <= GridCount(layout, SNACK_CELL)
    ensures GridEaten(layout, eaten) == GridCount(layout, SNACK_CELL) <==> AllRegularSnacksEaten(layout, eaten)
  {
    if layout != [] {
      var front := layout[..|layout| - 1];
      GridEatenExact(front, eaten);
      RowEatenExact(layout[|layout| - 1], |layout| - 1, eaten);
      assert forall r :: 0 <= r < |front| ==> front[r] == layout[r];
      if AllRegularSnacksEaten(layout, eaten) {
        assert AllRegularSnacksEaten(front, eaten);
      }
    }
  }

  /** `currentLevel.timeLimit ? completionTime <= timeLimit : false`; a limit of 0 counts as none. */
  predicate UnderTimeLimit(timeLimit: Option<int>, completionTime: int)
  {
    timeLimit.Some? && timeLimit.value != 0 && completionTime <= timeLimit.value
  }

  /**
   * The stars of a completion as `checkAndSaveStars` writes them: the snack
   * star compares the number of eaten snacks, secret ones included, with the
   * number of regular snack cells.
   */
  function NewStarsAsWritten(gyroMode: GyroMode, layout: Layout, eatenSnacks: set<SnackKey>, timeLimit: Option<int>,
                             completionTime: int, extraLivesUsed: int): (s: LevelStars)
    ensures s.completedNormalMode <==> gyroMode == Normal
    ensures s.completedChaosMode <==> gyroMode == Chaos
    ensures s.allSnacksEaten <==> |eatenSnacks| == GridCount(layout, SNACK_CELL) && GridCount(layout, SNACK_CELL) > 0
    ensures s.underMazeTimeLimit <==> timeLimit.Some? && timeLimit.value != 0 && completionTime <= timeLimit.value
    ensures s.noExtraLivesUsed <==> extraLivesUsed == 0
  {
    var totalSnacks := GridCount(layout, SNACK_CELL);
    LevelStars(gyroMode == Normal, gyroMode == Chaos, |eatenSnacks| == totalSnacks && totalSnacks > 0,
               UnderTimeLimit(timeLimit, completionTime), extraLivesUsed == 0)
  }

  /** The stars as written and as intended differ in the snack star alone. */
  lemma AsWrittenDiffersInSnackStarOnly(gyroMode: GyroMode, layout: Layout, eatenSnacks: set<SnackKey>,
                                        timeLimit: Option<int>, completionTime: int, extraLivesUsed: int)
    ensures var w := NewStarsAsWritten(gyroMode, layout, eatenSnacks, timeLimit, completionTime, extraLivesUsed);
      w == NewStars(gyroMode, layout, eatenSnacks, timeLimit, completionTime, extraLivesUsed).(allSnacksEaten := w.allSnacksEaten)
  {
  }

  /** A secret snack stands in for an uneaten regular one: the star is granted with the regular snack left. */
  lemma AsWrittenSecretSnackCounts()
    ensures var layout := [[SNACK_CELL, SECRET_SNACK_CELL]];
      var eaten := {SnackKey(0, 1)};
      && NewStarsAsWritten(Normal, layout, eaten, None, 1000, 0).allSnacksEaten
      && !AllRegularSnacksEaten(layout, eaten)
  {
    var layout := [[SNACK_CELL, SECRET_SNACK_CELL]];
    var eaten := {SnackKey(0, 1)};
    assert layout[..0] == [];
    assert layout[0][..1] == [SNACK_CELL];
    assert [SNACK_CELL][..0] == [];
    assert RowCount([SNACK_CELL], SNACK_CELL) == 1;
    assert RowCount(layout[0], SNACK_CELL) == 1;
    assert GridCount(layout, SNACK_CELL) == 1;
    assert layout[0][0] == SNACK_CELL && SnackKey(0, 0) !in eaten;
  }

  /** A secret snack eaten on top of every regular one withholds the star. */
  lemma AsWrittenSecretSnackBlocksStar()
    ensures var layout := [[SNACK_CELL, SECRET_SNACK_CELL]];
      var eaten := {SnackKey(0, 0), SnackKey(0, 1)};
      && AllRegularSnacksEaten(layout, eaten)
      && !NewStarsAsWritten(Normal, layout, eaten, None, 1000, 0).allSnacksEaten
  {
    var layout := [[SNACK_CELL, SECRET_SNACK_CELL]];
    var eaten := {SnackKey(0, 0), SnackKey(0, 1)};
    assert layout[..0] == [];
    assert layout[0][..1] == [SNACK_CELL];
    assert [SNACK_CELL][..0] == [];
    assert RowCount([SNACK_CELL], SNACK_CELL) == 1;
    assert RowCount(layout[0], SNACK_CELL) == 1;
    assert GridCount(layout, SNACK_CELL) == 1;
    assert |eaten| == 2;
  }

  /**
   * The stars of a completion, with the snack star granted exactly when the
   * level has regular snacks and every one of them is eaten (secret snacks
   * neither help nor hurt).
   */
  function NewStars(gyroMode: GyroMode, layout: Layout, eatenSnacks: set<SnackKey>, timeLimit: Option<int>,
                    completionTime: int, extraLivesUsed: int): (s: LevelStars)
    ensures s.completedNormalMode <==> gyroMode == Normal
    ensures s.completedChaosMode <==> gyroMode == Chaos
    ensures s.allSnacksEaten <==> GridCount(layout, SNACK_CELL) > 0 && AllRegularSnacksEaten(layout, eatenSnacks)
    ensures s.underMazeTimeLimit <==> timeLimit.Some? && timeLimit.value != 0 && completionTime <= timeLimit.value
    ensures s.noExtraLivesUsed <==> extraLivesUsed == 0
  {
    var totalSnacks := GridCount(layout, SNACK_CELL);
    GridEatenExact(layout, eatenSnacks);
    LevelStars(gyroMode == Normal, gyroMode == Chaos, GridEaten(layout, eatenSnacks) == totalSnacks && totalSnacks > 0,
               UnderTimeLimit(timeLimit, completionTime), extraLivesUsed == 0)
  }

  /** Every star of `b` is also a star of `a`. */
  predicate Covers(a: LevelStars, b: LevelStars)
  {
    && (b.completedNormalMode ==> a.completedNormalMode)
    && (b.completedChaosMode ==> a.completedChaosMode)
    && (b.allSnacksEaten ==> a.allSnacksEaten)
    && (b.underMazeTimeLimit ==> a.underMazeTimeLimit)
    && (b.noExtraLivesUsed ==> a.noExtraLivesUsed)
  }

  /**
   * The merge of stored and new stars, star by star with `||`: it keeps
   * every stored and every new star and adds nothing else.
   */
  function MergeStars(existing: Option<LevelStars>, gained: LevelStars): (m: LevelStars)
    ensures Covers(m, gained)
    ensures existing.Some? ==> Covers(m, existing.value)
    ensures forall s :: Covers(s, gained) && (existing.Some? ==> Covers(s, existing.value)) ==> Covers(s, m)
  {
    match existing
    case None => gained
    case Some(e) =>
      LevelStars(e.completedNormalMode || gained.completedNormalMode, e.completedChaosMode || gained.completedChaosMode,
                 e.allSnacksEaten || gained.allSnacksEaten, e.underMazeTimeLimit || gained.underMazeTimeLimit,
                 e.noExtraLivesUsed || gained.noExtraLivesUsed)
  }

  /** Saving the same completion twice stores the same stars as saving it once. */
  lemma MergeStarsIdempotent(existing: Option<LevelStars>, gained: LevelStars)
    ensures MergeStars(Some(MergeStars(existing, gained)), gained) == MergeStars(existing, gained)
  {
  }

  // ---------------------------------------------------------------------
  // Level navigation

  /** `nextLevel`: one up; past the last level back to 1 only once the last level is completed. */
  function NextLevelId(current: int, maxLevel: int, lastCompleted: bool): (r: int)
    ensures 1 <= current <= maxLevel ==> 1 <= r <= maxLevel
    ensures current < maxLevel ==> r == current + 1
    ensures current >= maxLevel ==> (r == 1 <==> lastCompleted || maxLevel == 1) && (!lastCompleted ==> r == maxLevel)
  {
    if current >= maxLevel then (if lastCompleted then 1 else maxLevel) else current + 1
  }

  /** `previousLevel`: one down; below 1 to the last level only once the last level is completed. */
  function PreviousLevelId(current: int, maxLevel: int, lastCompleted: bool): (r: int)
    ensures 1 <= current <= maxLevel ==> 1 <= r <= maxLevel
    ensures current > 1 ==> r == current - 1
    ensures current <= 1 ==> (r == maxLevel <==> lastCompleted || maxLevel == 1) && (!lastCompleted ==> r == 1)
  {
    if current <= 1 then (if lastCompleted then maxLevel else 1) else current - 1
  }

  /** Going back undoes going forward, at the wrap too once the last level is completed. */
  lemma {:induction false} PreviousUndoesNext(current: int, maxLevel: int, lastCompleted: bool)
    requires 1 <= current <= maxLevel
    requires current < maxLevel || lastCompleted
    ensures PreviousLevelId(NextLevelId(current, maxLevel, lastCompleted), maxLevel, lastCompleted) == current
  {
  }

  /** Going forward undoes going back, at the wrap too once the last level is completed. */
  lemma {:induction false} NextUndoesPrevious(current: int, maxLevel: int, lastCompleted: bool)
    requires 1 <= current <= maxLevel
    requires current > 1 || lastCompleted
    ensures NextLevelId(PreviousLevelId(current, maxLevel, lastCompleted), maxLevel, lastCompleted) == current
  {
  }

  /** `jump10Forward`: ten up, stopping at the last level. */
  function Jump10Forward(current: int, maxLevel: int): (r: int)
    ensures 1 <= current <= maxLevel ==> current <= r <= maxLevel
    ensures r == current + 10 || r == maxLevel
    ensures r <= maxLevel
    ensures current + 10 <= maxLevel ==> r == current + 10
    ensures current + 10 > maxLevel ==> r == maxLevel
  {
    Min(current + 10, maxLevel)
  }

  /** `jump10Backward`: ten down, stopping at level 1. */
  function Jump10Backward(current: int): (r: int)
    ensures 1 <= r && r <= Max(current, 1)
    ensures r == current - 10 || r == 1
    ensures current - 10 >= 1 ==> r == current - 10
    ensures current - 10 < 1 ==> r == 1
  {
    Max(current - 10, 1)
  }

  /** `gyroMode.toString()`: the enum's string value. */
  function ModeString(mode: GyroMode): (s: string)
    ensures s == "normal" <==> mode == Normal
    ensures s == "chaos" <==> mode == Chaos
  {
    match mode
    case Normal => "normal"
    case Chaos => "chaos"
  }

  // ---------------------------------------------------------------------
  // The start button

  datatype ButtonTitle = Continue | Restart | Ready

  /** `getButtonTitle`: continue while respawning, restart once dead or counted down, ready otherwise. */
  function GetButtonTitle(isRespawning: bool, isDead: bool, isCountdownComplete: bool): (t: ButtonTitle)
    ensures t == Continue <==> isRespawning
    ensures t == Restart <==> !isRespawning && (isDead || isCountdownComplete)
    ensures t == Ready <==> !isRespawning && !isDead && !isCountdownComplete
  {
    if isRespawning then Continue
    else if isDead then Restart
    else if isCountdownComplete then Restart
    else Ready
  }
}
