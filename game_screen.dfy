/**
 * The game screen's state and the handlers that change it: the collision
 * check with its side effects (respawn, death, snacks, the goal), the
 * respawn itself, restarting a level and moving between levels.
 *
 * The ball, the respawn history, the outcome flags, the timer and the score
 * store are the objects of the hooks and stores the screen uses; the saved
 * lives, snacks and stars are the screen's persisted key families.
 */
module Game {
  import opened Common
  import opened GameHelpers
  import opened Physics
  import opened RespawnLogic
  import opened ScoreManager
  import opened GameAtoms
  import opened GameTimer
  import opened GameRules

  /** The circumference scan: the index of the first sample on a wall or danger cell, or the number of samples. */
  method ScanSamples(points: seq<Point>, layout: Layout, cellSize: real) returns (i: nat)
    requires |layout| > 0 && cellSize > 0.0
    ensures i == FirstStop(points, layout, cellSize)
  {
    i := 0;
    while i < |points|
      invariant i <= |points|
      invariant forall j :: 0 <= j < i ==> !Stops(SampleCode(points[j], layout, cellSize))
    {
      var point := points[i];
      var pCellX := CellIndex(point.x, cellSize);
      var pCellY := CellIndex(point.y, cellSize);
      if GetMazeCell(pCellX, pCellY, layout) == Some(WALL_CELL) {
        break;
      }
      if GetMazeCell(pCellX, pCellY, layout) == Some(DANGER_CELL) {
        break;
      }
      i := i + 1;
    }
  }

  /** The enemy scan: whether some enemy centre lies closer than two ball radii. */
  method EnemyContact(ball: Point, enemyPositions: seq<Point>, ballRadius: real) returns (hit: bool)
    ensures hit <==> TouchesEnemy(ball, enemyPositions, ballRadius)
  {
    var i := 0;
    while i < |enemyPositions|
      invariant i <= |enemyPositions|
      invariant forall j :: 0 <= j < i ==> !Within(ball, enemyPositions[j], 2.0 * ballRadius)
    {
      var enemy := enemyPositions[i];
      var dx := ball.x - enemy.x;
      var dy := ball.y - enemy.y;
      if 0.0 < 2.0 * ballRadius && dx * dx + dy * dy < (2.0 * ballRadius) * (2.0 * ballRadius) {
        assert Within(ball, enemyPositions[i], 2.0 * ballRadius);
        return true;
      }
      i := i + 1;
    }
    return false;
  }

  /** A history cell is the respawn point: the newest unoccupied candidate, as the history scan finds it. */
  predicate FromHistory(p: Point, h: seq<HistoryEntry>, enemyPositions: seq<Point>, cellSize: real, ballSize: real)
  {
    exists i ::
      && 0 <= i < |h| - 1
      && p == CellCentre(EntryCell(h[i]), cellSize)
      && !Occupied(EntryCell(h[i]), enemyPositions, cellSize, ballSize)
      && forall j :: i < j < |h| - 1 ==> Occupied(EntryCell(h[j]), enemyPositions, cellSize, ballSize)
  }

  predicate AllCandidatesOccupied(h: seq<HistoryEntry>, enemyPositions: seq<Point>, cellSize: real, ballSize: real)
  {
    forall i :: 0 <= i < |h| - 1 ==> Occupied(EntryCell(h[i]), enemyPositions, cellSize, ballSize)
  }

  /** `c` is the cell the nearest-safe-cell search finds around (startX, startY). */
  ghost predicate NearestSafe(startX: int, startY: int, layout: Layout, c: Cell)
    requires |layout| > 0
  {
    && IsSafeCell(layout, c.x, c.y)
    && Ring(startX, startY, c.x, c.y) < DEFAULT_SEARCH_RADIUS
    && (forall x, y :: IsSafeCell(layout, x, y) ==> Ring(startX, startY, c.x, c.y) <= Ring(startX, startY, x, y))
    && forall x, y :: IsSafeCell(layout, x, y) && Chebyshev(startX, startY, x, y) <= Ring(startX, startY, c.x, c.y) ==>
         c.y < y || (c.y == y && c.x <= x)
  }

  ghost predicate NoSafeCellNear(startX: int, startY: int, layout: Layout)
    requires |layout| > 0
  {
    forall x, y :: IsSafeCell(layout, x, y) ==> Ring(startX, startY, x, y) >= DEFAULT_SEARCH_RADIUS
  }

  /**
   * Where a respawn moves the ball from `prev`: the history's choice if there
   * is one; failing that, the centre of the nearest safe cell; failing both,
   * nowhere.
   */
  ghost predicate RespawnTarget(p: Point, prev: Point, h: seq<HistoryEntry>, cellX: int, cellY: int,
                          enemyPositions: seq<Point>, layout: Layout, cellSize: real, ballSize: real)
    requires |layout| > 0
  {
    || FromHistory(p, h, enemyPositions, cellSize, ballSize)
    || (&& AllCandidatesOccupied(h, enemyPositions, cellSize, ballSize)
        && exists c :: NearestSafe(cellX, cellY, layout, c) && p == CellCentre(c, cellSize))
    || (&& AllCandidatesOccupied(h, enemyPositions, cellSize, ballSize)
        && NoSafeCellNear(cellX, cellY, layout)
        && p == prev)
  }

  lemma TargetFromHistory(p: Point, prev: Point, h: seq<HistoryEntry>, cellX: int, cellY: int,
                          enemyPositions: seq<Point>, layout: Layout, cellSize: real, ballSize: real)
    requires |layout| > 0
    requires FromHistory(p, h, enemyPositions, cellSize, ballSize)
    ensures RespawnTarget(p, prev, h, cellX, cellY, enemyPositions, layout, cellSize, ballSize)
  {
  }

  lemma TargetNearestSafe(p: Point, prev: Point, h: seq<HistoryEntry>, cellX: int, cellY: int,
                          enemyPositions: seq<Point>, layout: Layout, cellSize: real, ballSize: real, c: Cell)
    requires |layout| > 0
    requires AllCandidatesOccupied(h, enemyPositions, cellSize, ballSize)
    requires IsSafeCell(layout, c.x, c.y) && Ring(cellX, cellY, c.x, c.y) < DEFAULT_SEARCH_RADIUS
    requires forall x, y :: IsSafeCell(layout, x, y) ==> Ring(cellX, cellY, c.x, c.y) <= Ring(cellX, cellY, x, y)
    requires forall x, y ::
      IsSafeCell(layout, x, y) && Chebyshev(cellX, cellY, x, y) <= Ring(cellX, cellY, c.x, c.y) ==>
      c.y < y || (c.y == y && c.x <= x)
    requires p == Point(c.x as real * cellSize + cellSize / 2.0, c.y as real * cellSize + cellSize / 2.0)
    ensures RespawnTarget(p, prev, h, cellX, cellY, enemyPositions, layout, cellSize, ballSize)
  {
    assert NearestSafe(cellX, cellY, layout, c) && p == CellCentre(c, cellSize);
  }

  lemma TargetUnchanged(prev: Point, h: seq<HistoryEntry>, cellX: int, cellY: int,
                        enemyPositions: seq<Point>, layout: Layout, cellSize: real, ballSize: real)
    requires |layout| > 0
    requires AllCandidatesOccupied(h, enemyPositions, cellSize, ballSize)
    requires NoSafeCellNear(cellX, cellY, layout)
    ensures RespawnTarget(prev, prev, h, cellX, cellY, enemyPositions, layout, cellSize, ballSize)
  {
  }

  /** The screen's own state values, as its `useState` hooks and refs hold them. */
  datatype ScreenState = ScreenState(
    currentLevelId: int,
    currentLevel: MazeLevel,
    completedLevels: set<int>,
    currentAttempt: int,
    extraLives: int,
    extraLivesUsed: int,
    eatenSnacks: set<SnackKey>,
    levelStats: Option<LevelStats>,
    levelStarsData: Option<LevelStars>,
    isProcessingWin: bool,
    isRespawning: bool,
    isCountdownComplete: bool,
    isReady: bool,
    hasStartedTimer: bool)

  /** The persisted lives counter, eaten snacks per level and stars per level. */
  datatype Saved = Saved(lives: int, snacks: map<int, set<SnackKey>>, stars: map<int, LevelStars>)

  class GameScreen {
    const ball: BallPhysics
    const history: RespawnHistory
    const flags: GameFlags
    const timer: Timer
    const store: ScoreStore

    const levels: seq<MazeLevel>
    const screenWidth: real
    const screenHeight: real
    const gyroMode: GyroMode
    const inverted: bool
    const petId: string
    const petName: string
    const petEmoji: string

    var state: ScreenState
    var saved: Saved
    /** Set while the screen has lost focus. */
    var isGamePaused: bool

    /** The current level is level `currentLevelId` of the list, and every level has rows. */
    predicate Valid()
      reads this, history, timer
    {
      && 1 <= state.currentLevelId <= |levels|
      && state.currentLevel == levels[state.currentLevelId - 1]
      && (forall l :: l in levels ==> |l.layout| > 0)
      && history.Valid()
      && timer.Valid()
    }

    function Layout(): Layout
      reads this
    {
      state.currentLevel.layout
    }

    /** `MAZE_SIZE` of the current level. */
    function MazeSize(): int
      reads this
    {
      GetResponsiveMazeSize(|state.currentLevel.layout|, screenWidth, screenHeight)
    }

    /** `CELL_SIZE`: the maze size over the number of rows. */
    function CellSize(): (cs: real)
      requires |state.currentLevel.layout| > 0
      reads this
      ensures cs > 0.0
    {
      MazeSize() as real / |state.currentLevel.layout| as real
    }

    function BallRadius(): real
      reads this
    {
      BallSize(MazeSize()) as real / 2.0
    }

    /** `getStartPosition`: the centre of the level's start cell, at the current maze size. */
    function StartPosition(): Point
      requires |state.currentLevel.layout| > 0
      reads this
    {
      GetPosition(|state.currentLevel.layout|, state.currentLevel.startPosition, MazeSize() as real)
    }

    /** What a candidate centre runs into on the current level. */
    function ContactAt(newX: real, newY: real, points: seq<Point>, enemyPositions: seq<Point>): Contact
      requires |state.currentLevel.layout| > 0
      reads this
    {
      Classify(newX, newY, points, enemyPositions, state.currentLevel.layout, MazeSize() as real, CellSize(), BallRadius())
    }

    /** `levelStats?.totalDeaths || 0`. */
    function TotalDeaths(): int
      reads this
    {
      if state.levelStats.Some? then state.levelStats.value.totalDeaths else 0
    }

    /** The win handed to the win recorder for a completion taking `completionTime`. */
    function Win(completionTime: int): WinData
      reads this
    {
      WinData(state.currentLevelId, completionTime, petId, petName, petEmoji, state.currentAttempt, TotalDeaths(),
              state.extraLivesUsed, ModeString(gyroMode))
    }

    /** The stars the current completion earns, merged into the saved ones. */
    function MergedStars(completionTime: int): LevelStars
      reads this
    {
      var existing := if state.currentLevelId in saved.stars then Some(saved.stars[state.currentLevelId]) else None;
      MergeStars(existing, NewStars(gyroMode, state.currentLevel.layout, state.eatenSnacks, state.currentLevel.timeLimit,
                                    completionTime, state.extraLivesUsed))
    }

    function SavedSnacksOf(levelId: int): set<SnackKey>
      reads this
    {
      if levelId in saved.snacks then saved.snacks[levelId] else {}
    }

    function Title(): ButtonTitle
      reads this, flags
    {
      GetButtonTitle(state.isRespawning, flags.isDead, state.isCountdownComplete)
    }

    /** The timer hook's `isActive` argument. */
    predicate TimerActive()
      reads this, flags
    {
      !flags.isGameWon && !flags.isDead && !isGamePaused && state.isCountdownComplete && !state.isRespawning
    }

    /** The physics hook's `isDead` argument: a pause, the countdown and a respawn freeze the ball like a death. */
    predicate BallFrozen()
      reads this, flags
    {
      flags.isDead || isGamePaused || !state.isCountdownComplete || state.isRespawning
    }

    /** The patrol hook's `isGameActive` argument. */
    predicate EnemiesActive()
      reads this, flags
    {
      !flags.isDead && !flags.isGameWon && state.isCountdownComplete && !state.isRespawning
    }

    /** While the clock may run, the ball rolls and the enemies move. */
    lemma ClockMeansPlay()
      ensures TimerActive() ==> !BallFrozen() && EnemiesActive()
      ensures BallFrozen() && !isGamePaused ==> !TimerActive() && !EnemiesActive()
    {
    }

    /**
     * The screen for `levels`, opened at `initialLevel` (0 for none, which
     * opens level 1), before the initial data is loaded.
     */
    constructor (levels: seq<MazeLevel>, initialLevel: int, screenWidth: real, screenHeight: real,
                 gyroMode: GyroMode, inverted: bool, petId: string, petName: string, petEmoji: string,
                 store: ScoreStore, saved: Saved)
      requires forall l :: l in levels ==> |l.layout| > 0
      requires 0 <= initialLevel <= |levels| && |levels| > 0
      ensures Valid()
      ensures this.levels == levels && this.store == store && this.gyroMode == gyroMode && this.saved == saved
      ensures var id := if initialLevel == 0 then 1 else initialLevel;
        state == ScreenState(id, levels[id - 1], {}, 1, 0, 0, {}, None, None, false, false, false, false, false)
      ensures ball.ballPosition == StartPosition() && ball.velocity == Point(0.0, 0.0)
      ensures history.positionHistory == [] && !flags.isGameWon && !flags.isDead
      ensures timer.startTime == None && timer.running == None && timer.gameTime == 0
      ensures !isGamePaused && timer.isActive == TimerActive()
    {
      var id := if initialLevel == 0 then 1 else initialLevel;
      var level := levels[id - 1];
      assert level in levels;
      var size := GetResponsiveMazeSize(|level.layout|, screenWidth, screenHeight);
      ball := new BallPhysics(GetPosition(|level.layout|, level.startPosition, size as real));
      history := new RespawnHistory();
      flags := new GameFlags();
      timer := new Timer(false);
      this.store := store;
      this.levels := levels;
      this.screenWidth := screenWidth;
      this.screenHeight := screenHeight;
      this.gyroMode := gyroMode;
      this.inverted := inverted;
      this.petId := petId;
      this.petName := petName;
      this.petEmoji := petEmoji;
      state := ScreenState(id, level, {}, 1, 0, 0, {}, None, None, false, false, false, false, false);
      this.saved := saved;
      isGamePaused := false;
    }

    /**
     * The render after a handler: the timer hook receives its new `isActive`
     * argument, so an interval survives only while the clock may run.
     */
    method Render()
      requires Valid()
      modifies timer
      ensures Valid()
      ensures timer.isActive == TimerActive()
      ensures timer.running.Some? ==> TimerActive()
      ensures TimerActive() != old(timer.isActive) ==>
        timer.running == if TimerActive() && Started(timer.startTime) && timer.pausedAt.None? then timer.startTime else None
      ensures TimerActive() == old(timer.isActive) ==> timer.running == old(timer.running)
      ensures timer.gameTime == old(timer.gameTime) && timer.startTime == old(timer.startTime)
      ensures timer.pausedAt == old(timer.pausedAt)
    {
      timer.SetActive(TimerActive());
    }

    /** The focus effect: losing focus pauses the game, gaining it unpauses it; then the screen re-renders. */
    method SetFocused(focused: bool)
      requires Valid()
      modifies this, timer
      ensures Valid()
      ensures isGamePaused == !focused && state == old(state) && saved == old(saved)
      ensures timer.isActive == TimerActive() && (timer.running.Some? ==> TimerActive())
      ensures !focused ==> timer.running == None
      ensures timer.gameTime == old(timer.gameTime) && timer.startTime == old(timer.startTime)
      ensures timer.pausedAt == old(timer.pausedAt)
    {
      isGamePaused := !focused;
      Render();
    }

    /**
     * One frame of the physics hook with the screen's arguments: the won
     * flag, and `BallFrozen` for its `isDead` argument. `collides` is the
     * collision test the hook calls.
     */
    method MoveBall(accelData: Point, gyroData: Point, collides: (real, real) -> bool) returns (rescheduled: bool)
      modifies ball
      ensures rescheduled <==> !flags.isGameWon && !BallFrozen()
      ensures flags.isGameWon || BallFrozen() ==> ball.ballPosition == old(ball.ballPosition) && ball.velocity == old(ball.velocity)
      ensures !flags.isGameWon && !BallFrozen() && gyroMode == Normal ==>
        Motion(ball.ballPosition, ball.velocity) == NormalStep(old(ball.ballPosition), old(ball.velocity), accelData, inverted, collides)
      ensures !flags.isGameWon && !BallFrozen() && gyroMode == Chaos ==>
        ball.ballPosition == ChaosStep(old(ball.ballPosition), gyroData, inverted, collides) && ball.velocity == old(ball.velocity)
    {
      rescheduled := ball.UpdateBallPosition(gyroMode, accelData, gyroData, inverted, flags.isGameWon, BallFrozen(), collides);
    }

    /** The mount effect: clear the outcome flags, load the completed levels and the saved lives. */
    method LoadInitialData()
      requires Valid()
      modifies this, flags
      ensures isGamePaused == old(isGamePaused)
      ensures Valid()
      ensures !flags.isGameWon && !flags.isDead
      ensures state == old(state).(completedLevels := (set l | l in store.GetGameProgress().completedLevels),
                                   extraLives := saved.lives)
      ensures saved == old(saved)
    {
      flags.ResetGameState();
      var progress := store.GetGameProgress();
      state := state.(completedLevels := (set l | l in progress.completedLevels), extraLives := saved.lives);
    }

    /**
     * The first half of `triggerRespawn`: ask the history for a free cell,
     * fall back to the nearest safe cell, and move the ball there, if anywhere.
     */
    method MoveToRespawnPoint(cellX: int, cellY: int, enemyPositions: seq<Point>)
      requires Valid()
      modifies ball
      ensures RespawnTarget(ball.ballPosition, old(ball.ballPosition), history.positionHistory, cellX, cellY,
                            enemyPositions, Layout(), CellSize(), BallSize(MazeSize()) as real)
      ensures ball.velocity == old(ball.velocity)
    {
      var layout := state.currentLevel.layout;
      var cellSize := CellSize();
      var ballSize := BallSize(MazeSize()) as real;
      var h := history.positionHistory;
      var prev := ball.ballPosition;
      var respawnPosition := history.FindSafeRespawnPosition(cellX, cellY, enemyPositions, cellSize, ballSize);
      if respawnPosition.Some? {
        var p := Point(respawnPosition.value.x, respawnPosition.value.y);
        ball.SetBallPosition(p);
        TargetFromHistory(p, prev, h, cellX, cellY, enemyPositions, layout, cellSize, ballSize);
      } else {
        var safeCell := FindNearestSafeCell(cellX, cellY, layout, DEFAULT_SEARCH_RADIUS);
        if safeCell.Some? {
          var centeredX := safeCell.value.x as real * cellSize + cellSize / 2.0;
          var centeredY := safeCell.value.y as real * cellSize + cellSize / 2.0;
          var p := Point(centeredX, centeredY);
          ball.SetBallPosition(p);
          TargetNearestSafe(p, prev, h, cellX, cellY, enemyPositions, layout, cellSize, ballSize, safeCell.value);
        } else {
          TargetUnchanged(prev, h, cellX, cellY, enemyPositions, layout, cellSize, ballSize);
        }
      }
    }

    /**
     * `triggerRespawn` for a hit in cell (cellX, cellY): move the ball (see
     * `RespawnTarget`), clear the outcome flags, spend a life, save the
     * count and pause the timer.
     */
    method TriggerRespawn(cellX: int, cellY: int, enemyPositions: seq<Point>)
      requires Valid()
      modifies this, ball, flags, timer
      ensures isGamePaused == old(isGamePaused)
      ensures Valid()
      ensures RespawnTarget(ball.ballPosition, old(ball.ballPosition), history.positionHistory, cellX, cellY,
                            enemyPositions, Layout(), CellSize(), BallSize(MazeSize()) as real)
      ensures ball.velocity == old(ball.velocity)
      ensures !flags.isGameWon && !flags.isDead
      ensures state == old(state).(extraLives := old(state.extraLives) - 1, extraLivesUsed := old(state.extraLivesUsed) + 1)
      ensures saved == old(saved).(lives := state.extraLives)
      ensures timer.pausedAt == Some(old(timer.gameTime)) && timer.running == None
      ensures timer.gameTime == old(timer.gameTime) && timer.startTime == old(timer.startTime)
      ensures timer.isActive == old(timer.isActive)
    {
      MoveToRespawnPoint(cellX, cellY, enemyPositions);
      flags.ResetGameState();
      var newLives := state.extraLives - 1;
      state := state.(extraLives := newLives, extraLivesUsed := state.extraLivesUsed + 1);
      saved := saved.(lives := newLives);
      timer.Pause();
    }

    /**
     * A hazard hit (a danger sample or an enemy) with lives left: flag the
     * respawn and run it; the ball is not blocked.
     */
    method SurviveHazard(cellX: int, cellY: int, enemyPositions: seq<Point>)
      requires Valid()
      modifies this, ball, flags, timer
      ensures isGamePaused == old(isGamePaused)
      ensures Valid()
      ensures RespawnTarget(ball.ballPosition, old(ball.ballPosition), history.positionHistory, cellX, cellY,
                            enemyPositions, Layout(), CellSize(), BallSize(MazeSize()) as real)
      ensures ball.velocity == old(ball.velocity)
      ensures !flags.isGameWon && !flags.isDead
      ensures state == old(state).(isRespawning := true, extraLives := old(state.extraLives) - 1,
                                   extraLivesUsed := old(state.extraLivesUsed) + 1)
      ensures saved == old(saved).(lives := state.extraLives)
      ensures timer.pausedAt == Some(old(timer.gameTime)) && timer.running == None
      ensures timer.gameTime == old(timer.gameTime) && timer.startTime == old(timer.startTime)
      ensures timer.isActive == old(timer.isActive)
    {
      state := state.(isRespawning := true);
      TriggerRespawn(cellX, cellY, enemyPositions);
    }

    /** A hazard hit with no lives left: record the death once and keep the stats it returns; the ball is blocked. */
    method Die()
      requires Valid()
      modifies this, flags, store
      ensures isGamePaused == old(isGamePaused)
      ensures Valid()
      ensures flags.isDead && flags.isGameWon == old(flags.isGameWon)
      ensures old(flags.isDead) ==> state == old(state) && store.levelStats == old(store.levelStats)
      ensures !old(flags.isDead) ==>
        var s := old(store.GetLevelStats(state.currentLevelId)).(totalDeaths := old(store.GetLevelStats(state.currentLevelId)).totalDeaths + 1);
        && state == old(state).(levelStats := Some(s))
        && store.levelStats == old(store.levelStats)[state.currentLevelId := s]
      ensures store.progress == old(store.progress) && store.completionLists == old(store.completionLists)
      ensures saved == old(saved)
    {
      var updatedStats := flags.RecordDeath(store, state.currentLevelId);
      if updatedStats.Some? {
        state := state.(levelStats := updatedStats);
      }
    }

    /** The snack check on the ball's cell: a snack not yet eaten is recorded, saved and worth a life. */
    method EatSnackAt(cell: Cell)
      requires Valid()
      modifies this
      ensures Valid()
      ensures IsSnackCode(GetMazeCell(cell.x, cell.y, Layout())) ==>
        var key := SnackKey(cell.y, cell.x);
        var eaten := EatSnack(old(state.eatenSnacks), old(state.extraLives), key);
        && state == old(state).(eatenSnacks := eaten.eatenSnacks, extraLives := eaten.extraLives)
        && (key !in old(state.eatenSnacks) ==>
              saved == old(saved).(lives := eaten.extraLives, snacks := old(saved.snacks)[state.currentLevelId := eaten.eatenSnacks]))
        && (key in old(state.eatenSnacks) ==> saved == old(saved))
      ensures !IsSnackCode(GetMazeCell(cell.x, cell.y, Layout())) ==> state == old(state) && saved == old(saved)
      ensures isGamePaused == old(isGamePaused)
    {
      var code := GetMazeCell(cell.x, cell.y, state.currentLevel.layout);
      if code == Some(SNACK_CELL) || code == Some(SECRET_SNACK_CELL) {
        var snackKey := SnackKey(cell.y, cell.x);
        if snackKey !in state.eatenSnacks {
          var newSet := state.eatenSnacks + {snackKey};
          var newLives := state.extraLives + 1;
          assert EatSnack(state.eatenSnacks, state.extraLives, snackKey) == SnackState(newSet, newLives);
          state := state.(eatenSnacks := newSet, extraLives := newLives);
          saved := saved.(lives := newLives, snacks := saved.snacks[state.currentLevelId := newSet]);
        }
      }
    }

    /** `checkAndSaveStars`: merge the stars of this completion into the saved ones, save and show them. */
    method SaveStars(completionTime: int)
      requires Valid()
      modifies this
      ensures isGamePaused == old(isGamePaused)
      ensures Valid()
      ensures state == old(state).(levelStarsData := Some(old(MergedStars(completionTime))))
      ensures saved == old(saved).(stars := old(saved.stars)[state.currentLevelId := old(MergedStars(completionTime))])
    {
      var layout := state.currentLevel.layout;
      var newStars := NewStars(gyroMode, layout, state.eatenSnacks, state.currentLevel.timeLimit, completionTime,
                               state.extraLivesUsed);
      var existingStars := if state.currentLevelId in saved.stars then Some(saved.stars[state.currentLevelId]) else None;
      var mergedStars := MergeStars(existingStars, newStars);
      saved := saved.(stars := saved.stars[state.currentLevelId := mergedStars]);
      state := state.(levelStarsData := Some(mergedStars));
    }

    /**
     * The goal check on the ball's cell, processed once until the guard is
     * cleared: stop the timer, mark the level completed, save the stars and
     * record the win with the elapsed time.
     */
    method ReachGoal(now: int)
      requires Valid()
      modifies this, flags, timer, store
      ensures isGamePaused == old(isGamePaused)
      ensures Valid()
      ensures old(state.isProcessingWin) ==> unchanged(this, flags, timer, store)
      ensures !old(state.isProcessingWin) ==>
        && state == old(state).(isProcessingWin := true,
                                completedLevels := old(state.completedLevels) + {state.currentLevelId},
                                levelStarsData := Some(old(MergedStars(timer.gameTime))))
        && saved == old(saved).(stars := old(saved.stars)[state.currentLevelId := old(MergedStars(timer.gameTime))])
        && timer.running == None && timer.gameTime == old(timer.gameTime)
        && flags.isGameWon && flags.isDead == old(flags.isDead)
      ensures !old(state.isProcessingWin) && old(flags.isGameWon) ==>
        unchanged(store`levelStats, store`progress, store`completionLists)
      ensures !old(state.isProcessingWin) && !old(flags.isGameWon) ==>
        var id := state.currentLevelId;
        var win := old(Win(timer.gameTime));
        && store.levelStats == old(store.levelStats)[id := Completed(old(store.GetLevelStats(id)), win.completionTime).stats]
        && store.progress == Some(AddProgress(old(store.GetGameProgress()), id))
        && id in store.completionLists
        && SortedByTime(store.completionLists[id])
        && multiset(store.completionLists[id]) ==
             multiset(if id in old(store.completionLists) then old(store.completionLists)[id] else [])
             + multiset{WinRecord(win, RecordedMode(win), now)}
    {
      if state.isProcessingWin {
        return;
      }
      ghost var stars0, win0 := MergedStars(timer.gameTime), Win(timer.gameTime);
      ghost var stats0, progress0 := store.GetLevelStats(state.currentLevelId), store.GetGameProgress();
      state := state.(isProcessingWin := true);
      var completionTime := timer.Stop();
      state := state.(completedLevels := state.completedLevels + {state.currentLevelId});
      var win := Win(completionTime);
      assert MergedStars(completionTime) == stars0 && win == win0;
      SaveStars(completionTime);
      assert win.currentLevelId == state.currentLevelId;
      assert store.GetLevelStats(win.currentLevelId) == stats0 && store.GetGameProgress() == progress0;
      var result := flags.RecordWin(store, win, now);
    }

    /**
     * The tests of `checkCollision` that change nothing, in its order: the
     * bounding box, the sample scan, then the enemy scan.
     */
    method Probe(newX: real, newY: real, points: seq<Point>, enemyPositions: seq<Point>) returns (c: Contact)
      requires Valid()
      ensures c == ContactAt(newX, newY, points, enemyPositions)
    {
      var layout := state.currentLevel.layout;
      var cellSize := CellSize();
      var mazeSize := MazeSize() as real;
      var ballRadius := BallRadius();
      if newX - ballRadius < 0.0 || newX + ballRadius > mazeSize || newY - ballRadius < 0.0 || newY + ballRadius > mazeSize {
        return OutOfMaze;
      }
      var cellX := CellIndex(newX, cellSize);
      var cellY := CellIndex(newY, cellSize);
      var i := ScanSamples(points, layout, cellSize);
      if i < |points| {
        var pCellX := CellIndex(points[i].x, cellSize);
        var pCellY := CellIndex(points[i].y, cellSize);
        if GetMazeCell(pCellX, pCellY, layout) == Some(WALL_CELL) {
          return Wall;
        }
        return Danger(Cell(pCellX, pCellY));
      }
      var touching := EnemyContact(Point(newX, newY), enemyPositions, ballRadius);
      if touching {
        return Enemy(Cell(cellX, cellY));
      }
      return Clear(Cell(cellX, cellY));
    }

    /**
     * A hazard hit in cell (cellX, cellY): with a life banked, the respawn
     * runs and the move is not blocked; without one, the death is recorded
     * and the move is blocked.
     */
    method HitHazard(cellX: int, cellY: int, enemyPositions: seq<Point>) returns (blocked: bool)
      requires Valid()
      modifies this, ball, flags, timer, store
      ensures isGamePaused == old(isGamePaused)
      ensures Valid()
      ensures blocked <==> old(state.extraLives) <= 0
      ensures state.currentLevelId == old(state.currentLevelId) && state.currentLevel == old(state.currentLevel)
      ensures old(state.extraLives) > 0 ==>
        && state == old(state).(isRespawning := true, extraLives := old(state.extraLives) - 1,
                                extraLivesUsed := old(state.extraLivesUsed) + 1)
        && saved == old(saved).(lives := state.extraLives)
        && RespawnTarget(ball.ballPosition, old(ball.ballPosition), history.positionHistory, cellX, cellY,
                         enemyPositions, Layout(), CellSize(), BallSize(MazeSize()) as real)
        && ball.velocity == old(ball.velocity)
        && !flags.isGameWon && !flags.isDead && unchanged(store)
        && timer.pausedAt == Some(old(timer.gameTime)) && timer.running == None
        && timer.gameTime == old(timer.gameTime) && timer.startTime == old(timer.startTime)
      ensures old(state.extraLives) <= 0 ==>
        && flags.isDead && flags.isGameWon == old(flags.isGameWon) && unchanged(ball, timer) && saved == old(saved)
        && (old(flags.isDead) ==> state == old(state) && unchanged(store`levelStats, store`progress, store`completionLists))
        && (!old(flags.isDead) ==>
              var s := old(store.GetLevelStats(state.currentLevelId)).(totalDeaths := old(store.GetLevelStats(state.currentLevelId)).totalDeaths + 1);
              && state == old(state).(levelStats := Some(s))
              && store.levelStats == old(store.levelStats)[state.currentLevelId := s]
              && store.progress == old(store.progress) && store.completionLists == old(store.completionLists))
    {
      if state.extraLives > 0 {
        SurviveHazard(cellX, cellY, enemyPositions);
        blocked := false;
      } else {
        Die();
        blocked := true;
      }
    }

    /**
     * The centre's own cell once nothing blocks it: the snack check, then
     * the goal check. The move is never blocked here.
     */
    method EnterCell(cell: Cell, now: int)
      requires Valid()
      modifies this, flags, timer, store
      ensures Valid()
      ensures state.currentLevelId == old(state.currentLevelId) && state.currentLevel == old(state.currentLevel)
      ensures IsSnackCode(GetMazeCell(cell.x, cell.y, Layout())) ==>
        var key := SnackKey(cell.y, cell.x);
        var eaten := EatSnack(old(state.eatenSnacks), old(state.extraLives), key);
        && state == old(state).(eatenSnacks := eaten.eatenSnacks, extraLives := eaten.extraLives)
        && (key !in old(state.eatenSnacks) ==>
              saved == old(saved).(lives := eaten.extraLives, snacks := old(saved.snacks)[state.currentLevelId := eaten.eatenSnacks]))
        && (key in old(state.eatenSnacks) ==> saved == old(saved))
        && unchanged(flags, timer, store)
      ensures GetMazeCell(cell.x, cell.y, Layout()) == Some(GOAL_CELL) && !old(state.isProcessingWin) ==>
        && state == old(state).(isProcessingWin := true,
                                completedLevels := old(state.completedLevels) + {state.currentLevelId},
                                levelStarsData := Some(old(MergedStars(timer.gameTime))))
        && saved == old(saved).(stars := old(saved.stars)[state.currentLevelId := old(MergedStars(timer.gameTime))])
        && timer.running == None && timer.gameTime == old(timer.gameTime)
        && flags.isGameWon && flags.isDead == old(flags.isDead)
        && (old(flags.isGameWon) ==> unchanged(store`levelStats, store`progress, store`completionLists))
        && (!old(flags.isGameWon) ==>
              var id := state.currentLevelId;
              var win := old(Win(timer.gameTime));
              && store.levelStats == old(store.levelStats)[id := Completed(old(store.GetLevelStats(id)), win.completionTime).stats]
              && store.progress == Some(AddProgress(old(store.GetGameProgress()), id))
              && id in store.completionLists
              && SortedByTime(store.completionLists[id])
              && multiset(store.completionLists[id]) ==
                   multiset(if id in old(store.completionLists) then old(store.completionLists)[id] else [])
                   + multiset{WinRecord(win, RecordedMode(win), now)})
      ensures (!IsSnackCode(GetMazeCell(cell.x, cell.y, Layout())) && GetMazeCell(cell.x, cell.y, Layout()) != Some(GOAL_CELL))
              || (GetMazeCell(cell.x, cell.y, Layout()) == Some(GOAL_CELL) && old(state.isProcessingWin)) ==>
        state == old(state) && saved == old(saved) && unchanged(flags, timer, store)
      ensures isGamePaused == old(isGamePaused)
    {
      // A cell holds one code, so at most one of the two checks fires.
      var code := GetMazeCell(cell.x, cell.y, state.currentLevel.layout);
      if IsSnackCode(code) {
        EatSnackAt(cell);
      } else if code == Some(GOAL_CELL) {
        ReachGoal(now);
      }
    }

    /** The side effects of a contact `c` found by the scan, and whether it blocks the move. */
    method Touch(c: Contact, enemyPositions: seq<Point>, now: int)
      returns (blocked: bool)
      requires Valid()
      modifies this, ball, flags, timer, store
      ensures isGamePaused == old(isGamePaused)
      ensures Valid()
      ensures state.currentLevelId == old(state.currentLevelId) && state.currentLevel == old(state.currentLevel)
      ensures blocked <==> c == OutOfMaze || c == Wall || ((c.Danger? || c.Enemy?) && old(state.extraLives) <= 0)
      ensures c == OutOfMaze || c == Wall ==> unchanged(this, ball, flags, timer, store)
      ensures (c.Danger? || c.Enemy?) && old(state.extraLives) > 0 ==>
          && state == old(state).(isRespawning := true, extraLives := old(state.extraLives) - 1,
                                  extraLivesUsed := old(state.extraLivesUsed) + 1)
          && saved == old(saved).(lives := state.extraLives)
          && RespawnTarget(ball.ballPosition, old(ball.ballPosition), history.positionHistory, c.cell.x, c.cell.y,
                           enemyPositions, Layout(), CellSize(), BallSize(MazeSize()) as real)
          && ball.velocity == old(ball.velocity)
          && !flags.isGameWon && !flags.isDead && unchanged(store)
          && timer.pausedAt == Some(old(timer.gameTime)) && timer.running == None
          && timer.gameTime == old(timer.gameTime) && timer.startTime == old(timer.startTime)
      ensures (c.Danger? || c.Enemy?) && old(state.extraLives) <= 0 ==>
          && flags.isDead && flags.isGameWon == old(flags.isGameWon) && unchanged(ball, timer) && saved == old(saved)
          && (old(flags.isDead) ==> state == old(state) && unchanged(store`levelStats, store`progress, store`completionLists))
          && (!old(flags.isDead) ==>
                var s := old(store.GetLevelStats(state.currentLevelId)).(totalDeaths := old(store.GetLevelStats(state.currentLevelId)).totalDeaths + 1);
                && state == old(state).(levelStats := Some(s))
                && store.levelStats == old(store.levelStats)[state.currentLevelId := s]
                && store.progress == old(store.progress) && store.completionLists == old(store.completionLists))
      ensures c.Clear? ==> unchanged(ball)
      ensures c.Clear? && IsSnackCode(GetMazeCell(c.cell.x, c.cell.y, Layout())) ==>
          var key := SnackKey(c.cell.y, c.cell.x);
          var eaten := EatSnack(old(state.eatenSnacks), old(state.extraLives), key);
          && state == old(state).(eatenSnacks := eaten.eatenSnacks, extraLives := eaten.extraLives)
          && (key !in old(state.eatenSnacks) ==>
                saved == old(saved).(lives := eaten.extraLives, snacks := old(saved.snacks)[state.currentLevelId := eaten.eatenSnacks]))
          && (key in old(state.eatenSnacks) ==> saved == old(saved))
          && unchanged(flags, timer, store)
      ensures c.Clear? && GetMazeCell(c.cell.x, c.cell.y, Layout()) == Some(GOAL_CELL) && !old(state.isProcessingWin) ==>
          && state == old(state).(isProcessingWin := true,
                                  completedLevels := old(state.completedLevels) + {state.currentLevelId},
                                  levelStarsData := Some(old(MergedStars(timer.gameTime))))
          && saved == old(saved).(stars := old(saved.stars)[state.currentLevelId := old(MergedStars(timer.gameTime))])
          && timer.running == None && timer.gameTime == old(timer.gameTime)
          && flags.isGameWon && flags.isDead == old(flags.isDead)
          && (old(flags.isGameWon) ==> unchanged(store`levelStats, store`progress, store`completionLists))
          && (!old(flags.isGameWon) ==>
                var id := state.currentLevelId;
                var win := old(Win(timer.gameTime));
                && store.levelStats == old(store.levelStats)[id := Completed(old(store.GetLevelStats(id)), win.completionTime).stats]
                && store.progress == Some(AddProgress(old(store.GetGameProgress()), id))
                && id in store.completionLists
                && SortedByTime(store.completionLists[id])
                && multiset(store.completionLists[id]) ==
                     multiset(if id in old(store.completionLists) then old(store.completionLists)[id] else [])
                     + multiset{WinRecord(win, RecordedMode(win), now)})
      ensures (c.Clear? &&
               ((!IsSnackCode(GetMazeCell(c.cell.x, c.cell.y, Layout())) && GetMazeCell(c.cell.x, c.cell.y, Layout()) != Some(GOAL_CELL))
                || (GetMazeCell(c.cell.x, c.cell.y, Layout()) == Some(GOAL_CELL) && old(state.isProcessingWin)))) ==>
          state == old(state) && saved == old(saved) && unchanged(ball, flags, timer, store)
    {
      match c
      case OutOfMaze => blocked := true;
      case Wall => blocked := true;
      case Danger(cell) => blocked := HitHazard(cell.x, cell.y, enemyPositions);
      case Enemy(cell) => blocked := HitHazard(cell.x, cell.y, enemyPositions);
      case Clear(cell) =>
        EnterCell(cell, now);
        blocked := false;
    }

    /**
     * `checkCollision` for the candidate centre (newX, newY), with the 16
     * circumference samples and the enemies' current centres: whether the
     * move is blocked, and the side effects of what the centre runs into
     * (`HitHazard` for a danger sample or an enemy, `EnterCell` otherwise).
     * The contact found (the one `Probe` computes) is returned too, so
     * that callers and the contract can name it.
     */
    method CheckCollision(newX: real, newY: real, points: seq<Point>, enemyPositions: seq<Point>, now: int)
      returns (blocked: bool, c: Contact)
      requires Valid()
      modifies this, ball, flags, timer, store
      ensures c == old(ContactAt(newX, newY, points, enemyPositions))
      ensures isGamePaused == old(isGamePaused)
      ensures Valid()
      ensures state.currentLevelId == old(state.currentLevelId) && state.currentLevel == old(state.currentLevel)
      ensures blocked <==> c == OutOfMaze || c == Wall || ((c.Danger? || c.Enemy?) && old(state.extraLives) <= 0)
      ensures c == OutOfMaze || c == Wall ==> unchanged(this, ball, flags, timer, store)
      ensures (c.Danger? || c.Enemy?) && old(state.extraLives) > 0 ==>
          && state == old(state).(isRespawning := true, extraLives := old(state.extraLives) - 1,
                                  extraLivesUsed := old(state.extraLivesUsed) + 1)
          && saved == old(saved).(lives := state.extraLives)
          && RespawnTarget(ball.ballPosition, old(ball.ballPosition), history.positionHistory, c.cell.x, c.cell.y,
                           enemyPositions, Layout(), CellSize(), BallSize(MazeSize()) as real)
          && ball.velocity == old(ball.velocity)
          && !flags.isGameWon && !flags.isDead && unchanged(store)
          && timer.pausedAt == Some(old(timer.gameTime)) && timer.running == None
          && timer.gameTime == old(timer.gameTime) && timer.startTime == old(timer.startTime)
      ensures (c.Danger? || c.Enemy?) && old(state.extraLives) <= 0 ==>
          && flags.isDead && flags.isGameWon == old(flags.isGameWon) && unchanged(ball, timer) && saved == old(saved)
          && (old(flags.isDead) ==> state == old(state) && unchanged(store`levelStats, store`progress, store`completionLists))
          && (!old(flags.isDead) ==>
                var s := old(store.GetLevelStats(state.currentLevelId)).(totalDeaths := old(store.GetLevelStats(state.currentLevelId)).totalDeaths + 1);
                && state == old(state).(levelStats := Some(s))
                && store.levelStats == old(store.levelStats)[state.currentLevelId := s]
                && store.progress == old(store.progress) && store.completionLists == old(store.completionLists))
      ensures c.Clear? ==> unchanged(ball)
      ensures c.Clear? && IsSnackCode(GetMazeCell(c.cell.x, c.cell.y, Layout())) ==>
          var key := SnackKey(c.cell.y, c.cell.x);
          var eaten := EatSnack(old(state.eatenSnacks), old(state.extraLives), key);
          && state == old(state).(eatenSnacks := eaten.eatenSnacks, extraLives := eaten.extraLives)
          && (key !in old(state.eatenSnacks) ==>
                saved == old(saved).(lives := eaten.extraLives, snacks := old(saved.snacks)[state.currentLevelId := eaten.eatenSnacks]))
          && (key in old(state.eatenSnacks) ==> saved == old(saved))
          && unchanged(flags, timer, store)
      ensures c.Clear? && GetMazeCell(c.cell.x, c.cell.y, Layout()) == Some(GOAL_CELL) && !old(state.isProcessingWin) ==>
          && state == old(state).(isProcessingWin := true,
                                  completedLevels := old(state.completedLevels) + {state.currentLevelId},
                                  levelStarsData := Some(old(MergedStars(timer.gameTime))))
          && saved == old(saved).(stars := old(saved.stars)[state.currentLevelId := old(MergedStars(timer.gameTime))])
          && timer.running == None && timer.gameTime == old(timer.gameTime)
          && flags.isGameWon && flags.isDead == old(flags.isDead)
          && (old(flags.isGameWon) ==> unchanged(store`levelStats, store`progress, store`completionLists))
          && (!old(flags.isGameWon) ==>
                var id := state.currentLevelId;
                var win := old(Win(timer.gameTime));
                && store.levelStats == old(store.levelStats)[id := Completed(old(store.GetLevelStats(id)), win.completionTime).stats]
                && store.progress == Some(AddProgress(old(store.GetGameProgress()), id))
                && id in store.completionLists
                && SortedByTime(store.completionLists[id])
                && multiset(store.completionLists[id]) ==
                     multiset(if id in old(store.completionLists) then old(store.completionLists)[id] else [])
                     + multiset{WinRecord(win, RecordedMode(win), now)})
      ensures (c.Clear? &&
               ((!IsSnackCode(GetMazeCell(c.cell.x, c.cell.y, Layout())) && GetMazeCell(c.cell.x, c.cell.y, Layout()) != Some(GOAL_CELL))
                || (GetMazeCell(c.cell.x, c.cell.y, Layout()) == Some(GOAL_CELL) && old(state.isProcessingWin)))) ==>
          state == old(state) && saved == old(saved) && unchanged(ball, flags, timer, store)
    {
      // `Probe` is the scan itself and computes exactly this contact.
      c := ContactAt(newX, newY, points, enemyPositions);
      blocked := Touch(c, enemyPositions, now);
    }

    /** The position effect: while the ball is in play, its position goes into the respawn history. */
    method RecordBallPosition(now: int)
      requires Valid()
      modifies history
      ensures Valid()
      ensures !(state.isCountdownComplete && !flags.isDead && !flags.isGameWon && !state.isRespawning) ==>
        unchanged(history`positionHistory, history`lastRecordedCell, history`lastUpdateTime)
      ensures state.isCountdownComplete && !flags.isDead && !flags.isGameWon && !state.isRespawning ==>
        var p := ball.ballPosition;
        var cell := CellOf(p, CellSize());
        if now - old(history.lastUpdateTime) < UPDATE_THROTTLE || old(history.lastRecordedCell) == Some(cell) then
          unchanged(history`positionHistory, history`lastRecordedCell, history`lastUpdateTime)
        else
          && history.positionHistory == KeepLast(old(history.positionHistory) + [HistoryEntry(p.x, p.y, cell.x, cell.y)], HISTORY_CAPACITY)
          && history.lastRecordedCell == Some(cell)
          && history.lastUpdateTime == now
    {
      if state.isCountdownComplete && !flags.isDead && !flags.isGameWon && !state.isRespawning {
        history.RecordPosition(ball.ballPosition.x, ball.ballPosition.y, CellSize(), now);
      }
    }

    /**
     * The end of the countdown at clock reading `now`: after a respawn the
     * timer resumes; otherwise the countdown effect starts the timer once.
     */
    method CountdownComplete(now: int)
      requires Valid()
      modifies this, timer
      ensures isGamePaused == old(isGamePaused)
      ensures Valid()
      ensures old(state.isRespawning) ==>
        && state == old(state).(isCountdownComplete := true, isReady := false, isRespawning := false, hasStartedTimer := true)
        && timer.pausedAt == None && timer.gameTime == old(timer.gameTime)
        && (old(timer.pausedAt).Some? ==> timer.startTime == Some(now - old(timer.pausedAt).value))
      ensures !old(state.isRespawning) && !old(state.isCountdownComplete) && !old(state.hasStartedTimer) ==>
        && state == old(state).(isCountdownComplete := true, isReady := false, hasStartedTimer := true)
        && timer.startTime == Some(now) && timer.gameTime == 0 && timer.pausedAt == None
      ensures !old(state.isRespawning) && (old(state.isCountdownComplete) || old(state.hasStartedTimer)) ==>
        state == old(state).(isCountdownComplete := true, isReady := false) && unchanged(timer)
      ensures saved == old(saved)
    {
      var wasComplete := state.isCountdownComplete;
      state := state.(isCountdownComplete := true, isReady := false);
      if state.isRespawning {
        timer.Resume(now);
        state := state.(isRespawning := false, hasStartedTimer := true);
      } else if !wasComplete && !state.hasStartedTimer {
        timer.Start(now);
        state := state.(hasStartedTimer := true);
      }
    }

    /** The respawn half of `resetGame`: clear the outcome flags and re-arm the countdown. */
    method RearmCountdown()
      requires Valid()
      modifies this, flags
      ensures isGamePaused == old(isGamePaused)
      ensures Valid()
      ensures !flags.isGameWon && !flags.isDead && saved == old(saved)
      ensures state == old(state).(isCountdownComplete := false, isReady := true)
    {
      flags.ResetGameState();
      state := state.(isCountdownComplete := false, isReady := true);
    }

    /** The timer, ball and history part of a restart. */
    method ResetPlay()
      requires Valid()
      modifies flags, timer, ball, history
      ensures Valid()
      ensures !flags.isGameWon && !flags.isDead
      ensures timer.gameTime == 0 && timer.startTime == None && timer.running == None
      ensures ball.ballPosition == StartPosition() && ball.velocity == Point(0.0, 0.0)
      ensures history.positionHistory == []
    {
      flags.ResetGameState();
      timer.Reset();
      ball.ResetPosition(StartPosition());
      ball.SetVelocity(Point(0.0, 0.0));
      history.ClearHistory();
    }

    /**
     * The restart half of `resetGame`: reset timer, ball and history, clear
     * the snacks when no life is banked and reload the saved ones otherwise,
     * and record an attempt.
     */
    method RestartAttempt()
      requires Valid()
      modifies this, ball, flags, timer, history, store
      ensures isGamePaused == old(isGamePaused)
      ensures Valid()
      ensures !flags.isGameWon && !flags.isDead && saved == old(saved)
      ensures var s := old(store.GetLevelStats(state.currentLevelId)).(totalAttempts := old(store.GetLevelStats(state.currentLevelId)).totalAttempts + 1);
        && state == old(state).(extraLivesUsed := 0,
                                eatenSnacks := if old(state.extraLives) == 0 then {} else old(SavedSnacksOf(state.currentLevelId)),
                                levelStats := Some(s), currentAttempt := s.totalAttempts + 1,
                                isCountdownComplete := false, isReady := true, hasStartedTimer := false)
        && store.levelStats == old(store.levelStats)[state.currentLevelId := s]
      ensures store.progress == old(store.progress) && store.completionLists == old(store.completionLists)
      ensures timer.gameTime == 0 && timer.startTime == None && timer.running == None
      ensures ball.ballPosition == StartPosition() && ball.velocity == Point(0.0, 0.0)
      ensures history.positionHistory == []
    {
      ResetPlay();
      var snacks := if state.extraLives == 0 then {} else SavedSnacksOf(state.currentLevelId);
      var updatedStats := store.RecordAttempt(state.currentLevelId);
      state := state.(extraLivesUsed := 0, eatenSnacks := snacks, levelStats := Some(updatedStats),
                      currentAttempt := updatedStats.totalAttempts + 1,
                      isCountdownComplete := false, isReady := true, hasStartedTimer := false);
    }

    /**
     * `resetGame`. During a respawn only the flags are cleared and the
     * countdown re-armed. Otherwise the attempt restarts (see `RestartAttempt`).
     */
    method ResetGame()
      requires Valid()
      modifies this, ball, flags, timer, history, store
      ensures isGamePaused == old(isGamePaused)
      ensures Valid()
      ensures !flags.isGameWon && !flags.isDead && saved == old(saved)
      ensures old(state.isRespawning) ==>
        && state == old(state).(isProcessingWin := false, isCountdownComplete := false, isReady := true)
        && unchanged(ball, timer, history, store)
      ensures !old(state.isRespawning) ==>
        var s := old(store.GetLevelStats(state.currentLevelId)).(totalAttempts := old(store.GetLevelStats(state.currentLevelId)).totalAttempts + 1);
        && state == old(state).(isProcessingWin := false, extraLivesUsed := 0,
                                eatenSnacks := if old(state.extraLives) == 0 then {} else old(SavedSnacksOf(state.currentLevelId)),
                                levelStats := Some(s), currentAttempt := s.totalAttempts + 1,
                                isCountdownComplete := false, isReady := true, hasStartedTimer := false)
        && store.levelStats == old(store.levelStats)[state.currentLevelId := s]
        && timer.gameTime == 0 && timer.startTime == None && timer.running == None
        && ball.ballPosition == StartPosition() && ball.velocity == Point(0.0, 0.0)
        && history.positionHistory == []
      ensures store.progress == old(store.progress) && store.completionLists == old(store.completionLists)
    {
      state := state.(isProcessingWin := false);
      if state.isRespawning {
        RearmCountdown();
      } else {
        RestartAttempt();
      }
    }

    /**
     * `navigateToLevel`: open level `newLevelId`, clearing the outcome
     * flags, the win guard, the lives used and the countdown, and resetting
     * the timer, the ball and the history. The eaten snacks, the stats, the
     * stars, the attempt number and the respawn flag carry over. The ball is
     * placed with the maze size of the level being left, the value the
     * handler closes over.
     */
    method NavigateToLevel(newLevelId: int)
      requires Valid() && 1 <= newLevelId <= |levels|
      modifies this, ball, flags, timer, history
      ensures isGamePaused == old(isGamePaused)
      ensures Valid()
      ensures state == old(state).(currentLevelId := newLevelId, currentLevel := levels[newLevelId - 1],
                                   isProcessingWin := false, extraLivesUsed := 0, isReady := false,
                                   isCountdownComplete := false)
      ensures saved == old(saved)
      ensures ball.ballPosition == GetPosition(|state.currentLevel.layout|, state.currentLevel.startPosition, old(MazeSize()) as real)
      ensures ball.velocity == Point(0.0, 0.0)
      ensures !flags.isGameWon && !flags.isDead
      ensures timer.gameTime == 0 && timer.startTime == None && timer.running == None
      ensures history.positionHistory == []
    {
      var size := MazeSize();
      flags.ResetGameState();
      timer.Reset();
      var newLevel := levels[newLevelId - 1];
      assert newLevel in levels;
      ball.SetBallPosition(GetPosition(|newLevel.layout|, newLevel.startPosition, size as real));
      ball.SetVelocity(Point(0.0, 0.0));
      history.ClearHistory();
      state := state.(currentLevelId := newLevelId, currentLevel := newLevel, isProcessingWin := false,
                      extraLivesUsed := 0, isReady := false, isCountdownComplete := false);
    }

    /** `nextLevel`: see `NextLevelId`. */
    method NextLevel()
      requires Valid()
      modifies this, ball, flags, timer, history
      ensures isGamePaused == old(isGamePaused)
      ensures Valid()
      ensures state.currentLevelId == NextLevelId(old(state.currentLevelId), |levels|, |levels| in old(state.completedLevels))
      ensures state == old(state).(currentLevelId := state.currentLevelId, currentLevel := levels[state.currentLevelId - 1],
                                   isProcessingWin := false, extraLivesUsed := 0, isReady := false,
                                   isCountdownComplete := false)
      ensures ball.ballPosition == GetPosition(|state.currentLevel.layout|, state.currentLevel.startPosition, old(MazeSize()) as real)
      ensures !flags.isGameWon && !flags.isDead && saved == old(saved)
    {
      var maxLevel := |levels|;
      var allCompleted := maxLevel in state.completedLevels;
      var nextId;
      if state.currentLevelId >= maxLevel {
        nextId := if allCompleted then 1 else maxLevel;
      } else {
        nextId := state.currentLevelId + 1;
      }
      NavigateToLevel(nextId);
    }

    /** `previousLevel`: see `PreviousLevelId`. */
    method PreviousLevel()
      requires Valid()
      modifies this, ball, flags, timer, history
      ensures isGamePaused == old(isGamePaused)
      ensures Valid()
      ensures state.currentLevelId == PreviousLevelId(old(state.currentLevelId), |levels|, |levels| in old(state.completedLevels))
      ensures state == old(state).(currentLevelId := state.currentLevelId, currentLevel := levels[state.currentLevelId - 1],
                                   isProcessingWin := false, extraLivesUsed := 0, isReady := false,
                                   isCountdownComplete := false)
      ensures ball.ballPosition == GetPosition(|state.currentLevel.layout|, state.currentLevel.startPosition, old(MazeSize()) as real)
      ensures !flags.isGameWon && !flags.isDead && saved == old(saved)
    {
      var maxLevel := |levels|;
      var allCompleted := maxLevel in state.completedLevels;
      var prevId;
      if state.currentLevelId <= 1 {
        prevId := if allCompleted then maxLevel else 1;
      } else {
        prevId := state.currentLevelId - 1;
      }
      NavigateToLevel(prevId);
    }

    /** `jump10Forward`: see `Jump10Forward`. */
    method Jump10ForwardLevel()
      requires Valid()
      modifies this, ball, flags, timer, history
      ensures isGamePaused == old(isGamePaused)
      ensures Valid()
      ensures state.currentLevelId == Jump10Forward(old(state.currentLevelId), |levels|)
      ensures state == old(state).(currentLevelId := state.currentLevelId, currentLevel := levels[state.currentLevelId - 1],
                                   isProcessingWin := false, extraLivesUsed := 0, isReady := false,
                                   isCountdownComplete := false)
      ensures !flags.isGameWon && !flags.isDead && saved == old(saved)
    {
      var maxLevel := |levels|;
      NavigateToLevel(Min(state.currentLevelId + 10, maxLevel));
    }

    /** `jump10Backward`: see `Jump10Backward`. */
    method Jump10BackwardLevel()
      requires Valid()
      modifies this, ball, flags, timer, history
      ensures isGamePaused == old(isGamePaused)
      ensures Valid()
      ensures state.currentLevelId == Jump10Backward(old(state.currentLevelId))
      ensures state == old(state).(currentLevelId := state.currentLevelId, currentLevel := levels[state.currentLevelId - 1],
                                   isProcessingWin := false, extraLivesUsed := 0, isReady := false,
                                   isCountdownComplete := false)
      ensures !flags.isGameWon && !flags.isDead && saved == old(saved)
    {
      NavigateToLevel(Max(state.currentLevelId - 10, 1));
    }
  }
}
