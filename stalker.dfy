/**
 * Stalker enemies: a ghost that waits at its start cell until the player
 * steps on its trigger cell, activates once the player is at least three
 * cells away from that trigger, and then replays the player's trail cell by
 * cell while it fades in.
 *
 * The hook's refs (stalker states by id, the player's trail of cells and the
 * last cell seen) are the fields of `StalkerTracker`; its effects and frame
 * callback are the methods. `updateStalker` is the pure `UpdateStalker`.
 * Clock readings are parameters and `Math.sqrt(dx*dx + dy*dy)` is the
 * injected `hypot`.
 */
module StalkerEnemies {
  import opened Common

  datatype StalkerEnemy = StalkerEnemy(id: string, startCell: Cell, triggerCell: Cell, speed: real)

  datatype StalkerState = StalkerState(id: string, x: real, y: real, isTriggered: bool, isActivated: bool,
                                       opacity: real, currentPathIndex: int)

  const PROXIMITY_THRESHOLD := 3.0
  const SNAP_DISTANCE := 3.0
  const FADE_RATE := 0.05
  const FRAME_MS := 16.67

  /** The state a stalker starts (and restarts) in: at its start cell, dormant and invisible. */
  function StartState(s: StalkerEnemy, cellSize: real): StalkerState
  {
    var c := CellCentre(s.startCell, cellSize);
    StalkerState(s.id, c.x, c.y, false, false, 0.0, 0)
  }

  /**
   * The fade-in: while activated and not yet opaque, the opacity grows by
   * `dt * 0.05` and is capped at 1.
   */
  function FadedOpacity(state: StalkerState, dt: real): (o: real)
    ensures state.isActivated && state.opacity < 1.0 ==> o == RMin(1.0, state.opacity + dt * FADE_RATE)
    ensures !(state.isActivated && state.opacity < 1.0) ==> o == state.opacity
    ensures o <= RMax(1.0, state.opacity)
    ensures 0.0 <= state.opacity && dt >= 0.0 ==> state.opacity <= o
  {
    if state.isActivated && state.opacity < 1.0 then RMin(1.0, state.opacity + dt * FADE_RATE) else state.opacity
  }

  /**
   * `updateStalker`: one frame of one stalker. A dormant stalker, or one with
   * no trail cell left to reach, only fades. Otherwise it heads for the centre
   * of trail cell `currentPathIndex`: closer than 3 pixels it snaps there and
   * moves on to the next cell, farther away it steps `speed` pixels toward it.
   */
  function UpdateStalker(stalker: StalkerEnemy, state: StalkerState, dt: real, playerPath: seq<Cell>,
                         cellSize: real, hypot: (real, real) -> real): (r: StalkerState)
    requires IsHypot(hypot) && state.currentPathIndex >= 0
    ensures r.id == state.id && r.isTriggered == state.isTriggered && r.isActivated == state.isActivated
    ensures r.opacity == FadedOpacity(state, dt)
    ensures state.currentPathIndex <= r.currentPathIndex <= state.currentPathIndex + 1
    ensures state.currentPathIndex <= |playerPath| ==> r.currentPathIndex <= |playerPath|
    ensures !state.isActivated || state.currentPathIndex >= |playerPath| ==>
      r == state.(opacity := FadedOpacity(state, dt))
    ensures state.isActivated && state.currentPathIndex < |playerPath| ==>
      var target := CellCentre(playerPath[state.currentPathIndex], cellSize);
      && (SqDist(target, Point(state.x, state.y)) < SNAP_DISTANCE * SNAP_DISTANCE <==>
            r.currentPathIndex == state.currentPathIndex + 1)
      && (r.currentPathIndex == state.currentPathIndex + 1 ==> Point(r.x, r.y) == target)
  {
    var newOpacity := FadedOpacity(state, dt);
    if !state.isActivated then state.(opacity := newOpacity)
    else if |playerPath| == 0 || state.currentPathIndex >= |playerPath| then state.(opacity := newOpacity)
    else Pursue(state, CellCentre(playerPath[state.currentPathIndex], cellSize), stalker.speed, newOpacity, hypot)
  }

  /**
   * The moving part of `updateStalker`, toward `target`: closer than 3 pixels
   * the stalker snaps there and moves on to the next cell, farther away it
   * takes a chasing step.
   */
  function Pursue(state: StalkerState, target: Point, speed: real, newOpacity: real,
                  hypot: (real, real) -> real): (r: StalkerState)
    requires IsHypot(hypot)
    ensures r.id == state.id && r.isTriggered == state.isTriggered && r.isActivated == state.isActivated
    ensures r.opacity == newOpacity
    ensures SqDist(target, Point(state.x, state.y)) < SNAP_DISTANCE * SNAP_DISTANCE ==>
      r == state.(x := target.x, y := target.y, currentPathIndex := state.currentPathIndex + 1, opacity := newOpacity)
    ensures SqDist(target, Point(state.x, state.y)) >= SNAP_DISTANCE * SNAP_DISTANCE ==>
      r.currentPathIndex == state.currentPathIndex
  {
    var dx := target.x - state.x;
    var dy := target.y - state.y;
    assert dx * dx + dy * dy == SqDist(target, Point(state.x, state.y));
    if dx * dx + dy * dy < SNAP_DISTANCE * SNAP_DISTANCE then
      state.(x := target.x, y := target.y, currentPathIndex := state.currentPathIndex + 1, opacity := newOpacity)
    else
      HypotOfOffset(hypot, dx, dy);
      var distance := hypot(dx, dy);
      var p := StepToward(Point(state.x, state.y), target, speed, distance);
      state.(x := p.x, y := p.y, opacity := newOpacity)
  }

  /**
   * A chasing step from `from` toward `target` at distance `distance`: the
   * offset divided by the distance, times `speed`.
   */
  function StepToward(from: Point, target: Point, speed: real, distance: real): Point
    requires distance != 0.0
  {
    var dx := target.x - from.x;
    var dy := target.y - from.y;
    Point(from.x + (dx / distance) * speed, from.y + (dy / distance) * speed)
  }

  /**
   * When `distance` is the true distance to the target, a chasing step goes
   * straight toward the target (the offset scaled by the positive factor
   * `speed / distance`) and is exactly `speed` pixels long.
   */
  lemma StepTowardTarget(from: Point, target: Point, speed: real, distance: real)
    requires distance > 0.0 && distance * distance == SqDist(target, from) && speed > 0.0
    ensures var p := StepToward(from, target, speed, distance);
      && speed / distance > 0.0
      && p.x - from.x == (speed / distance) * (target.x - from.x)
      && p.y - from.y == (speed / distance) * (target.y - from.y)
      && SqDist(p, from) == speed * speed
  {
    var dx := target.x - from.x;
    var dy := target.y - from.y;
    var k := speed / distance;
    assert k * distance == speed;
    assert (dx / distance) * speed == k * dx && (dy / distance) * speed == k * dy;
    calc {
      (k * dx) * (k * dx) + (k * dy) * (k * dy);
      k * k * (dx * dx + dy * dy);
      k * k * (distance * distance);
      (k * distance) * (k * distance);
    }
  }

  /**
   * An activated stalker farther than 3 pixels from its target takes a
   * chasing step at the true distance and keeps its path index.
   */
  lemma ChaseStep(stalker: StalkerEnemy, state: StalkerState, dt: real, playerPath: seq<Cell>,
                  cellSize: real, hypot: (real, real) -> real)
    requires IsHypot(hypot) && 0 <= state.currentPathIndex < |playerPath| && state.isActivated
    requires SqDist(CellCentre(playerPath[state.currentPathIndex], cellSize), Point(state.x, state.y))
             >= SNAP_DISTANCE * SNAP_DISTANCE
    ensures var r := UpdateStalker(stalker, state, dt, playerPath, cellSize, hypot);
      var from := Point(state.x, state.y);
      var target := CellCentre(playerPath[state.currentPathIndex], cellSize);
      var distance := hypot(target.x - from.x, target.y - from.y);
      && distance > 0.0 && distance * distance == SqDist(target, from)
      && Point(r.x, r.y) == StepToward(from, target, stalker.speed, distance)
      && r == state.(x := r.x, y := r.y, opacity := FadedOpacity(state, dt))
  {
    var target := CellCentre(playerPath[state.currentPathIndex], cellSize);
    var dx := target.x - state.x;
    var dy := target.y - state.y;
    assert !(dx == 0.0 && dy == 0.0);
  }

  /** The distance of an offset of at least 3 pixels is positive and squares to its squared length. */
  lemma HypotOfOffset(hypot: (real, real) -> real, dx: real, dy: real)
    requires IsHypot(hypot) && dx * dx + dy * dy >= SNAP_DISTANCE * SNAP_DISTANCE
    ensures hypot(dx, dy) > 0.0 && hypot(dx, dy) * hypot(dx, dy) == dx * dx + dy * dy
  {
    assert !(dx == 0.0 && dy == 0.0);
  }

  /** The properties every stored stalker state keeps. */
  predicate StateOk(key: string, s: StalkerState, pathLength: int)
  {
    && s.id == key
    && 0.0 <= s.opacity <= 1.0
    && 0 <= s.currentPathIndex <= pathLength
    && (s.isActivated ==> s.isTriggered)
    && (!s.isActivated ==> s.opacity == 0.0 && s.currentPathIndex == 0)
  }

  predicate StatesOk(states: map<string, StalkerState>, pathLength: int)
  {
    forall k :: k in states ==> StateOk(k, states[k], pathLength)
  }

  predicate HasId(stalkers: seq<StalkerEnemy>, k: string)
  {
    exists i :: 0 <= i < |stalkers| && stalkers[i].id == k
  }

  lemma HasIdStep(stalkers: seq<StalkerEnemy>, i: int)
    requires 0 <= i < |stalkers|
    ensures forall k :: HasId(stalkers[..i + 1], k) <==> HasId(stalkers[..i], k) || stalkers[i].id == k
  {
    forall k ensures HasId(stalkers[..i + 1], k) <==> HasId(stalkers[..i], k) || stalkers[i].id == k {
      if HasId(stalkers[..i + 1], k) {
        var j :| 0 <= j < i + 1 && stalkers[..i + 1][j].id == k;
        if j < i { assert stalkers[..i][j] == stalkers[j]; }
      }
      if HasId(stalkers[..i], k) {
        var j :| 0 <= j < i && stalkers[..i][j].id == k;
        assert stalkers[..i + 1][j] == stalkers[j];
      }
      if stalkers[i].id == k { assert stalkers[..i + 1][i] == stalkers[i]; }
    }
  }

  /**
   * The start states by id, built in list order, so a later stalker with the
   * same id replaces an earlier one.
   */
  function InitialStates(stalkers: seq<StalkerEnemy>, cellSize: real): (m: map<string, StalkerState>)
    ensures forall k :: k in m <==> HasId(stalkers, k)
    ensures StatesOk(m, 0)
    ensures forall k :: k in m ==> exists i :: 0 <= i < |stalkers| && m[k] == StartState(stalkers[i], cellSize)
  {
    if |stalkers| == 0 then map[]
    else
      var n := |stalkers| - 1;
      var m0 := InitialStates(stalkers[..n], cellSize);
      var m := m0[stalkers[n].id := StartState(stalkers[n], cellSize)];
      HasIdStep(stalkers, n);
      assert stalkers[..n + 1] == stalkers;
      StartStatesFrom(stalkers, n, m0, m, cellSize);
      m
  }

  lemma StartStatesFrom(stalkers: seq<StalkerEnemy>, n: int, m0: map<string, StalkerState>,
                        m: map<string, StalkerState>, cellSize: real)
    requires 0 <= n < |stalkers|
    requires forall k :: k in m0 ==> exists i :: 0 <= i < n && m0[k] == StartState(stalkers[..n][i], cellSize)
    requires m == m0[stalkers[n].id := StartState(stalkers[n], cellSize)]
    ensures forall k :: k in m ==> exists i :: 0 <= i < |stalkers| && m[k] == StartState(stalkers[i], cellSize)
  {
    forall k | k in m ensures exists i :: 0 <= i < |stalkers| && m[k] == StartState(stalkers[i], cellSize) {
      if k != stalkers[n].id {
        var i :| 0 <= i < n && m0[k] == StartState(stalkers[..n][i], cellSize);
        assert stalkers[..n][i] == stalkers[i];
      }
    }
  }

  /** The `stalkers.forEach` that builds the start states. */
  method BuildStartStates(stalkers: seq<StalkerEnemy>, cellSize: real) returns (m: map<string, StalkerState>)
    ensures m == InitialStates(stalkers, cellSize)
  {
    m := map[];
    for i := 0 to |stalkers|
      invariant m == InitialStates(stalkers[..i], cellSize)
    {
      assert stalkers[..i + 1][..i] == stalkers[..i];
      m := m[stalkers[i].id := StartState(stalkers[i], cellSize)];
    }
    assert stalkers[..|stalkers|] == stalkers;
  }

  /** Some stalker with this id has its trigger at `cell`. */
  predicate TriggeredBy(stalkers: seq<StalkerEnemy>, k: string, cell: Cell)
  {
    exists i :: 0 <= i < |stalkers| && stalkers[i].id == k && stalkers[i].triggerCell == cell
  }

  lemma TriggeredByStep(stalkers: seq<StalkerEnemy>, i: int, cell: Cell)
    requires 0 <= i < |stalkers|
    ensures forall k :: TriggeredBy(stalkers[..i + 1], k, cell) <==>
      TriggeredBy(stalkers[..i], k, cell) || (stalkers[i].id == k && stalkers[i].triggerCell == cell)
  {
    forall k ensures TriggeredBy(stalkers[..i + 1], k, cell) <==>
      TriggeredBy(stalkers[..i], k, cell) || (stalkers[i].id == k && stalkers[i].triggerCell == cell)
    {
      if TriggeredBy(stalkers[..i + 1], k, cell) {
        var j :| 0 <= j < i + 1 && stalkers[..i + 1][j].id == k && stalkers[..i + 1][j].triggerCell == cell;
        if j < i { assert stalkers[..i][j] == stalkers[j]; }
      }
      if TriggeredBy(stalkers[..i], k, cell) {
        var j :| 0 <= j < i && stalkers[..i][j].id == k && stalkers[..i][j].triggerCell == cell;
        assert stalkers[..i + 1][j] == stalkers[j];
      }
      if stalkers[i].id == k && stalkers[i].triggerCell == cell {
        assert stalkers[..i + 1][i] == stalkers[i];
      }
    }
  }

  /**
   * `distance / cellSize >= 3` for the distance from the ball to the centre
   * of the trigger cell, restated on squares (the cell size is positive).
   */
  predicate FarFromTrigger(ball: Point, trigger: Cell, cellSize: real)
  {
    SqDist(ball, CellCentre(trigger, cellSize)) >= PROXIMITY_THRESHOLD * PROXIMITY_THRESHOLD * cellSize * cellSize
  }

  /** Some stalker with this id has its trigger cell at least three cells from the ball. */
  predicate ActivatedBy(stalkers: seq<StalkerEnemy>, k: string, ball: Point, cellSize: real)
  {
    exists i :: 0 <= i < |stalkers| && stalkers[i].id == k && FarFromTrigger(ball, stalkers[i].triggerCell, cellSize)
  }

  lemma ActivatedByStep(stalkers: seq<StalkerEnemy>, i: int, ball: Point, cellSize: real)
    requires 0 <= i < |stalkers|
    ensures forall k :: ActivatedBy(stalkers[..i + 1], k, ball, cellSize) <==>
      ActivatedBy(stalkers[..i], k, ball, cellSize) ||
      (stalkers[i].id == k && FarFromTrigger(ball, stalkers[i].triggerCell, cellSize))
  {
    forall k ensures ActivatedBy(stalkers[..i + 1], k, ball, cellSize) <==>
      ActivatedBy(stalkers[..i], k, ball, cellSize) ||
      (stalkers[i].id == k && FarFromTrigger(ball, stalkers[i].triggerCell, cellSize))
    {
      if ActivatedBy(stalkers[..i + 1], k, ball, cellSize) {
        var j :| 0 <= j < i + 1 && stalkers[..i + 1][j].id == k &&
          FarFromTrigger(ball, stalkers[..i + 1][j].triggerCell, cellSize);
        if j < i { assert stalkers[..i][j] == stalkers[j]; }
      }
      if ActivatedBy(stalkers[..i], k, ball, cellSize) {
        var j :| 0 <= j < i && stalkers[..i][j].id == k && FarFromTrigger(ball, stalkers[..i][j].triggerCell, cellSize);
        assert stalkers[..i + 1][j] == stalkers[j];
      }
      if stalkers[i].id == k && FarFromTrigger(ball, stalkers[i].triggerCell, cellSize) {
        assert stalkers[..i + 1][i] == stalkers[i];
      }
    }
  }

  /**
   * The states after one `updateStalkers` frame: each listed stalker that has
   * a state is updated from its state BEFORE the frame, later duplicates
   * replacing earlier ones; states of unlisted ids are dropped.
   */
  function UpdateAll(stalkers: seq<StalkerEnemy>, states: map<string, StalkerState>, dt: real,
                     playerPath: seq<Cell>, cellSize: real, hypot: (real, real) -> real): (m: map<string, StalkerState>)
    requires IsHypot(hypot) && StatesOk(states, |playerPath|)
    ensures forall k :: k in m <==> k in states && HasId(stalkers, k)
    ensures forall k :: k in m ==>
      exists i :: 0 <= i < |stalkers| && stalkers[i].id == k && m[k] == UpdateStalker(stalkers[i], states[k], dt, playerPath, cellSize, hypot)
  {
    if |stalkers| == 0 then map[]
    else
      var n := |stalkers| - 1;
      var m0 := UpdateAll(stalkers[..n], states, dt, playerPath, cellSize, hypot);
      var m := if stalkers[n].id in states
        then m0[stalkers[n].id := UpdateStalker(stalkers[n], states[stalkers[n].id], dt, playerPath, cellSize, hypot)]
        else m0;
      HasIdStep(stalkers, n);
      assert stalkers[..n + 1] == stalkers;
      UpdatedFrom(stalkers, n, states, m0, m, dt, playerPath, cellSize, hypot);
      m
  }

  lemma UpdatedFrom(stalkers: seq<StalkerEnemy>, n: int, states: map<string, StalkerState>,
                    m0: map<string, StalkerState>, m: map<string, StalkerState>, dt: real,
                    playerPath: seq<Cell>, cellSize: real, hypot: (real, real) -> real)
    requires IsHypot(hypot) && StatesOk(states, |playerPath|) && 0 <= n < |stalkers|
    requires forall k :: k in m0 ==> k in states
    requires forall k :: k in m0 ==>
      exists i :: 0 <= i < n && stalkers[..n][i].id == k && m0[k] == UpdateStalker(stalkers[..n][i], states[k], dt, playerPath, cellSize, hypot)
    requires m == if stalkers[n].id in states
      then m0[stalkers[n].id := UpdateStalker(stalkers[n], states[stalkers[n].id], dt, playerPath, cellSize, hypot)]
      else m0
    ensures forall k :: k in m ==>
      exists i :: 0 <= i < |stalkers| && stalkers[i].id == k && m[k] == UpdateStalker(stalkers[i], states[k], dt, playerPath, cellSize, hypot)
  {
    forall k | k in m
      ensures exists i :: 0 <= i < |stalkers| && stalkers[i].id == k && m[k] == UpdateStalker(stalkers[i], states[k], dt, playerPath, cellSize, hypot)
    {
      if !(k == stalkers[n].id && k in states) {
        var i :| 0 <= i < n && stalkers[..n][i].id == k && m0[k] == UpdateStalker(stalkers[..n][i], states[k], dt, playerPath, cellSize, hypot);
        assert stalkers[..n][i] == stalkers[i];
      }
    }
  }

  /**
   * A frame keeps every state well formed (provided time does not run
   * backwards), leaves the trigger and activation flags alone, and never
   * moves a path index back.
   */
  lemma UpdateAllPreserves(stalkers: seq<StalkerEnemy>, states: map<string, StalkerState>, dt: real,
                           playerPath: seq<Cell>, cellSize: real, hypot: (real, real) -> real)
    requires IsHypot(hypot) && StatesOk(states, |playerPath|) && dt >= 0.0
    ensures var m := UpdateAll(stalkers, states, dt, playerPath, cellSize, hypot);
      && StatesOk(m, |playerPath|)
      && forall k :: k in m ==>
           && m[k].isTriggered == states[k].isTriggered && m[k].isActivated == states[k].isActivated
           && m[k].currentPathIndex >= states[k].currentPathIndex
  {
    var m := UpdateAll(stalkers, states, dt, playerPath, cellSize, hypot);
    forall k | k in m
      ensures StateOk(k, m[k], |playerPath|)
      ensures m[k].isTriggered == states[k].isTriggered && m[k].isActivated == states[k].isActivated
      ensures m[k].currentPathIndex >= states[k].currentPathIndex
    {
      var i :| 0 <= i < |stalkers| && stalkers[i].id == k &&
        m[k] == UpdateStalker(stalkers[i], states[k], dt, playerPath, cellSize, hypot);
      assert StateOk(k, states[k], |playerPath|);
    }
  }

  /** The `stalkers.forEach` of `updateStalkers`, reading the old map and filling a new one. */
  method UpdateFrame(stalkers: seq<StalkerEnemy>, states: map<string, StalkerState>, dt: real,
                     playerPath: seq<Cell>, cellSize: real, hypot: (real, real) -> real)
    returns (newStates: map<string, StalkerState>)
    requires IsHypot(hypot) && StatesOk(states, |playerPath|)
    ensures newStates == UpdateAll(stalkers, states, dt, playerPath, cellSize, hypot)
  {
    newStates := map[];
    for i := 0 to |stalkers|
      invariant newStates == UpdateAll(stalkers[..i], states, dt, playerPath, cellSize, hypot)
    {
      assert stalkers[..i + 1][..i] == stalkers[..i];
      var stalker := stalkers[i];
      if stalker.id in states {
        var currentState := states[stalker.id];
        assert StateOk(stalker.id, currentState, |playerPath|);
        newStates := newStates[stalker.id := UpdateStalker(stalker, currentState, dt, playerPath, cellSize, hypot)];
      }
    }
    assert stalkers[..|stalkers|] == stalkers;
  }

  /**
   * The states after the trigger check for the ball entering `cell`: a
   * stalker is triggered when it was already or when some stalker with its
   * id has `cell` as its trigger cell. Nothing else changes.
   */
  function Triggered(stalkers: seq<StalkerEnemy>, states: map<string, StalkerState>, cell: Cell)
    : map<string, StalkerState>
  {
    map k | k in states :: states[k].(isTriggered := states[k].isTriggered || TriggeredBy(stalkers, k, cell))
  }

  /**
   * The states after the activation check: a triggered, dormant stalker
   * activates, invisible and chasing from the newest trail index
   * `max(0, pathLength - 1)`, when some stalker with its id has its trigger
   * cell at least three cells from the ball. Nothing else changes.
   */
  function Activated(stalkers: seq<StalkerEnemy>, states: map<string, StalkerState>, ball: Point,
                     cellSize: real, pathLength: int): map<string, StalkerState>
  {
    map k | k in states ::
      if states[k].isTriggered && !states[k].isActivated && ActivatedBy(stalkers, k, ball, cellSize)
      then states[k].(isActivated := true, opacity := 0.0, currentPathIndex := Max(0, pathLength - 1))
      else states[k]
  }

  /** The trigger check keeps every state well formed against the trail grown by one cell. */
  lemma TriggeredKeepsStates(stalkers: seq<StalkerEnemy>, states: map<string, StalkerState>, cell: Cell,
                             pathLength: int)
    requires StatesOk(states, pathLength)
    ensures StatesOk(Triggered(stalkers, states, cell), pathLength + 1)
  {
    var m := Triggered(stalkers, states, cell);
    forall k | k in m ensures StateOk(k, m[k], pathLength + 1) {
      assert StateOk(k, states[k], pathLength);
    }
  }

  /** The activation check keeps every state well formed. */
  lemma ActivatedKeepsStates(stalkers: seq<StalkerEnemy>, states: map<string, StalkerState>, ball: Point,
                             cellSize: real, pathLength: int)
    requires StatesOk(states, pathLength)
    ensures StatesOk(Activated(stalkers, states, ball, cellSize, pathLength), pathLength)
  {
    var m := Activated(stalkers, states, ball, cellSize, pathLength);
    forall k | k in m ensures StateOk(k, m[k], pathLength) {
      assert StateOk(k, states[k], pathLength);
    }
  }

  /** The `stalkers.forEach` of the path-tracking effect, on a copy of the states. */
  method TriggerStates(stalkers: seq<StalkerEnemy>, states: map<string, StalkerState>, cell: Cell)
    returns (newStates: map<string, StalkerState>)
    ensures newStates == Triggered(stalkers, states, cell)
  {
    newStates := states;
    for i := 0 to |stalkers|
      invariant newStates.Keys == states.Keys
      invariant forall k :: k in newStates ==>
        newStates[k] == states[k].(isTriggered := states[k].isTriggered || TriggeredBy(stalkers[..i], k, cell))
    {
      var stalker := stalkers[i];
      if stalker.id in newStates && !newStates[stalker.id].isTriggered && cell == stalker.triggerCell {
        newStates := newStates[stalker.id := newStates[stalker.id].(isTriggered := true)];
      }
      TriggeredByStep(stalkers, i, cell);
    }
    assert stalkers[..|stalkers|] == stalkers;
  }

  /** The `stalkers.forEach` of the activation effect, on a copy of the states. */
  method ActivateStates(stalkers: seq<StalkerEnemy>, states: map<string, StalkerState>, ballPosition: Point,
                        cellSize: real, pathLength: int)
    returns (newStates: map<string, StalkerState>)
    ensures newStates == Activated(stalkers, states, ballPosition, cellSize, pathLength)
  {
    newStates := states;
    for i := 0 to |stalkers|
      invariant newStates.Keys == states.Keys
      invariant forall k :: k in newStates ==>
        newStates[k] == if states[k].isTriggered && !states[k].isActivated &&
                           ActivatedBy(stalkers[..i], k, ballPosition, cellSize)
                        then states[k].(isActivated := true, opacity := 0.0, currentPathIndex := Max(0, pathLength - 1))
                        else states[k]
    {
      var stalker := stalkers[i];
      if stalker.id in newStates && newStates[stalker.id].isTriggered && !newStates[stalker.id].isActivated {
        var trigger := CellCentre(stalker.triggerCell, cellSize);
        if SqDist(ballPosition, trigger) >= PROXIMITY_THRESHOLD * PROXIMITY_THRESHOLD * cellSize * cellSize {
          var currentPathIndex := Max(0, pathLength - 1);
          newStates := newStates[stalker.id := newStates[stalker.id].(isActivated := true, opacity := 0.0,
                                                                      currentPathIndex := currentPathIndex)];
        }
      }
      ActivatedByStep(stalkers, i, ballPosition, cellSize);
    }
    assert stalkers[..|stalkers|] == stalkers;
  }

  /** The refs of the stalker hook. */
  class StalkerTracker {
    var stalkers: seq<StalkerEnemy>
    var cellSize: real
    var states: map<string, StalkerState>
    var playerPath: seq<Cell>
    var lastPlayerCell: Option<Cell>
    var lastUpdate: int

    /**
     * Every state is well formed against the current trail; the trail never
     * repeats a cell twice in a row and ends in the last cell seen.
     */
    predicate Valid()
      reads this
    {
      && cellSize > 0.0
      && StatesOk(states, |playerPath|)
      && (forall i :: 0 < i < |playerPath| ==> playerPath[i - 1] != playerPath[i])
      && (playerPath == [] <==> lastPlayerCell == None)
      && (playerPath != [] ==> lastPlayerCell == Some(playerPath[|playerPath| - 1]))
    }

    /** The initialisation effect, for a stalker list and a cell size. */
    constructor (initialStalkers: seq<StalkerEnemy>, initialCellSize: real, now: int)
      requires initialCellSize > 0.0
      ensures Valid()
      ensures stalkers == initialStalkers && cellSize == initialCellSize && lastUpdate == now
      ensures states == InitialStates(initialStalkers, initialCellSize)
      ensures playerPath == [] && lastPlayerCell == None
    {
      stalkers := initialStalkers;
      cellSize := initialCellSize;
      lastUpdate := now;
      playerPath := [];
      lastPlayerCell := None;
      new;
      states := BuildStartStates(initialStalkers, initialCellSize);
    }

    /**
     * The initialisation effect re-run for a new stalker list or cell size,
     * which `resetStalkers` repeats with the current ones: every stalker back
     * at its start, and the trail and last cell forgotten.
     */
    method Initialise(newStalkers: seq<StalkerEnemy>, newCellSize: real)
      requires newCellSize > 0.0
      modifies this
      ensures Valid()
      ensures stalkers == newStalkers && cellSize == newCellSize && lastUpdate == old(lastUpdate)
      ensures states == InitialStates(newStalkers, newCellSize)
      ensures playerPath == [] && lastPlayerCell == None
    {
      stalkers := newStalkers;
      cellSize := newCellSize;
      states := BuildStartStates(newStalkers, newCellSize);
      playerPath := [];
      lastPlayerCell := None;
    }

    /** `resetStalkers`. */
    method ResetStalkers()
      requires Valid()
      modifies this
      ensures Valid()
      ensures stalkers == old(stalkers) && cellSize == old(cellSize) && lastUpdate == old(lastUpdate)
      ensures states == InitialStates(stalkers, cellSize)
      ensures playerPath == [] && lastPlayerCell == None
    {
      Initialise(stalkers, cellSize);
    }

    /**
     * The path-tracking effect. While the game is active and the ball has
     * entered a cell other than the last one seen, the cell is appended to the
     * trail, and every dormant stalker whose trigger cell it is becomes
     * triggered; nothing else changes.
     */
    method TrackPlayer(ballPosition: Point, isGameActive: bool)
      requires Valid()
      modifies this
      ensures Valid()
      ensures stalkers == old(stalkers) && cellSize == old(cellSize) && lastUpdate == old(lastUpdate)
      ensures var cell := CellOf(ballPosition, cellSize);
        if !isGameActive || old(lastPlayerCell) == Some(cell) then
          states == old(states) && playerPath == old(playerPath) && lastPlayerCell == old(lastPlayerCell)
        else
          && playerPath == old(playerPath) + [cell] && lastPlayerCell == Some(cell)
          && states == Triggered(stalkers, old(states), cell)
    {
      if !isGameActive {
        return;
      }
      var cell := CellOf(ballPosition, cellSize);
      if lastPlayerCell.Some? && lastPlayerCell.value == cell {
        return;
      }
      TriggeredKeepsStates(stalkers, states, cell, |playerPath|);
      lastPlayerCell := Some(cell);
      playerPath := playerPath + [cell];
      states := TriggerStates(stalkers, states, cell);
    }

    /**
     * The activation effect. While the game is active, every triggered but
     * dormant stalker whose trigger cell lies at least three cells from the
     * ball activates: invisible, and set to chase from the player's newest
     * trail cell.
     */
    method CheckActivation(ballPosition: Point, isGameActive: bool)
      requires Valid()
      modifies this
      ensures Valid()
      ensures stalkers == old(stalkers) && cellSize == old(cellSize) && lastUpdate == old(lastUpdate)
      ensures playerPath == old(playerPath) && lastPlayerCell == old(lastPlayerCell)
      ensures !isGameActive ==> states == old(states)
      ensures isGameActive ==> states == Activated(stalkers, old(states), ballPosition, cellSize, |playerPath|)
    {
      if !isGameActive {
        return;
      }
      ActivatedKeepsStates(stalkers, states, ballPosition, cellSize, |playerPath|);
      states := ActivateStates(stalkers, states, ballPosition, cellSize, |playerPath|);
    }

    /** The frame loop starting while the game is active: the clock restarts. */
    method StartUpdates(now: int)
      modifies this
      ensures lastUpdate == now
      ensures stalkers == old(stalkers) && cellSize == old(cellSize) && states == old(states)
      ensures playerPath == old(playerPath) && lastPlayerCell == old(lastPlayerCell)
    {
      lastUpdate := now;
    }

    /**
     * `updateStalkers` at clock reading `now` (milliseconds, not earlier than
     * the last frame): the elapsed time in 60 Hz frames drives `UpdateAll`.
     * No frame runs while the game is inactive.
     */
    method UpdateStalkers(isGameActive: bool, now: int, hypot: (real, real) -> real)
      requires Valid() && IsHypot(hypot) && now >= lastUpdate
      modifies this
      ensures Valid()
      ensures stalkers == old(stalkers) && cellSize == old(cellSize)
      ensures playerPath == old(playerPath) && lastPlayerCell == old(lastPlayerCell)
      ensures !isGameActive ==> states == old(states) && lastUpdate == old(lastUpdate)
      ensures isGameActive ==> lastUpdate == now
      ensures isGameActive ==>
        states == UpdateAll(stalkers, old(states), (now - old(lastUpdate)) as real / FRAME_MS, playerPath, cellSize, hypot)
    {
      if !isGameActive {
        return;
      }
      var deltaTime := (now - lastUpdate) as real / FRAME_MS;
      lastUpdate := now;
      UpdateAllPreserves(stalkers, states, deltaTime, playerPath, cellSize, hypot);
      states := UpdateFrame(stalkers, states, deltaTime, playerPath, cellSize, hypot);
    }
  }
}
