/**
 * Patrol enemies: each walks its waypoint path back and forth. A real
 * `progress` in [0, segments] says how far along the path it is, and a
 * `direction` of +1 or -1 says which way it is going; both live in maps keyed
 * by enemy id that every tick updates in place.
 *
 * The segment length is `Math.sqrt(dx*dx + dy*dy)` in the game; here it is
 * the injected function `segmentLength`, and nothing below depends on it
 * except where a lemma says so.
 */
module EnemyMovement {
  import opened Common

  datatype Enemy = Enemy(id: string, path: seq<Cell>, speed: real)
  datatype EnemyPosition = EnemyPosition(id: string, x: real, y: real)

  /** The index of the first enemy with that id, or `|enemies|` when there is none. */
  function FirstIndex(enemies: seq<Enemy>, id: string): (i: nat)
    ensures i <= |enemies|
    ensures forall j :: 0 <= j < i ==> enemies[j].id != id
    ensures i < |enemies| ==> enemies[i].id == id
  {
    if |enemies| == 0 then 0
    else if enemies[0].id == id then 0
    else 1 + FirstIndex(enemies[1..], id)
  }

  /** `enemies.find(e => e.id === id)`: the first enemy with that id. */
  function FindById(enemies: seq<Enemy>, id: string): (r: Option<Enemy>)
    ensures r.Some? ==>
      r.value.id == id && FirstIndex(enemies, id) < |enemies| && r.value == enemies[FirstIndex(enemies, id)]
    ensures r.None? <==> forall i :: 0 <= i < |enemies| ==> enemies[i].id != id
  {
    var i := FirstIndex(enemies, id);
    if i < |enemies| then Some(enemies[i]) else None
  }

  /** Every stored progress value is non-negative (so every segment index is too). */
  predicate NonNegative(progress: map<string, real>)
  {
    forall k :: k in progress ==> progress[k] >= 0.0
  }

  /** Every stored direction is +1 or -1. */
  predicate Directions(direction: map<string, real>)
  {
    forall k :: k in direction ==> direction[k] == 1.0 || direction[k] == -1.0
  }

  /** The pixel offset from waypoint `i` to waypoint `i + 1`. */
  function Delta(path: seq<Cell>, i: int, cellSize: real): Point
    requires 0 <= i < |path| - 1
  {
    Point((path[i + 1].x - path[i].x) as real * cellSize, (path[i + 1].y - path[i].y) as real * cellSize)
  }

  /** Progress after moving `moveDistance` pixels along a segment of the given length, before clamping. */
  function Moved(progress: real, direction: real, moveDistance: real, segmentDistance: real): (m: real)
    ensures segmentDistance <= 0.0 ==> m == progress
    ensures segmentDistance > 0.0 ==> m == progress + moveDistance / segmentDistance * direction
  {
    if segmentDistance > 0.0 then progress + moveDistance / segmentDistance * direction else progress
  }

  /** The outcome of one tick for one enemy. */
  datatype PatrolResult = PatrolResult(progress: real, direction: real,
                                       segmentStart: int, segmentEnd: int, x: real, y: real)

  /**
   * One tick of `animate` for an enemy whose path has at least two
   * waypoints. The segment is chosen from the progress BEFORE the step:
   * `segmentStart = min(floor(p), segments - 1)`, `segmentEnd =
   * min(floor(p) + 1, segments)`. Progress advances by
   * `direction * speed * cellSize * dt / segmentLength` when the segment has
   * positive length, is then clamped into [0, segments], and the direction
   * flips to -1 at the far end and to +1 at the start. The position is
   * interpolated along the pre-step segment with `t = p' - segmentStart`.
   */
  function PatrolStep(path: seq<Cell>, speed: real, cellSize: real, dt: real,
                      progress: real, direction: real,
                      segmentLength: (real, real) -> real): (r: PatrolResult)
    requires |path| >= 2 && progress >= 0.0
    ensures var segs := |path| - 1;
      && 0.0 <= r.progress <= segs as real
      && 0 <= r.segmentStart && r.segmentEnd == r.segmentStart + 1 && r.segmentEnd <= segs
      && r.segmentStart == Min(progress.Floor, segs - 1)
    ensures r.progress == (|path| - 1) as real ==> r.direction == -1.0
    ensures r.progress == 0.0 ==> r.direction == 1.0
    ensures 0.0 < r.progress < (|path| - 1) as real ==> r.direction == direction
    ensures var d := Delta(path, r.segmentStart, cellSize);
      && (0.0 < r.progress < (|path| - 1) as real ==>
            r.progress == Moved(progress, direction, speed * cellSize * dt, segmentLength(d.x, d.y)))
      && r.x == Middle(path[r.segmentStart].x, cellSize) + d.x * (r.progress - r.segmentStart as real)
      && r.y == Middle(path[r.segmentStart].y, cellSize) + d.y * (r.progress - r.segmentStart as real)
    ensures var d := Delta(path, r.segmentStart, cellSize);
      var m := Moved(progress, direction, speed * cellSize * dt, segmentLength(d.x, d.y));
      var segs := (|path| - 1) as real;
      && (m >= segs ==> r.progress == segs && r.direction == -1.0)
      && (m < segs && m <= 0.0 ==> r.progress == 0.0 && r.direction == 1.0)
      && (0.0 < m < segs ==> r.progress == m && r.direction == direction)
  {
    var totalSegments := |path| - 1;
    var currentSegment := progress.Floor;
    var nextSegment := currentSegment + 1;
    var segmentStart := Min(currentSegment, totalSegments - 1);
    var segmentEnd := Min(nextSegment, totalSegments);
    var start := path[segmentStart];
    var d := Delta(path, segmentStart, cellSize);
    var dx := d.x;
    var dy := d.y;
    var segmentDistance := segmentLength(dx, dy);
    var moved := Moved(progress, direction, speed * cellSize * dt, segmentDistance);
    var newProgress := if moved >= totalSegments as real then totalSegments as real
      else if moved <= 0.0 then 0.0 else moved;
    var newDirection := if moved >= totalSegments as real then -1.0
      else if moved <= 0.0 then 1.0 else direction;
    var t := newProgress - segmentStart as real;
    PatrolResult(newProgress, newDirection, segmentStart, segmentEnd,
                 Middle(start.x, cellSize) + dx * t, Middle(start.y, cellSize) + dy * t)
  }

  /**
   * While `t` stays in [0, 1] the enemy lies on the straight line between
   * the centres of the two waypoints of its pre-step segment.
   */
  lemma PatrolOnSegment(path: seq<Cell>, speed: real, cellSize: real, dt: real,
                        progress: real, direction: real, segmentLength: (real, real) -> real)
    requires |path| >= 2 && progress >= 0.0
    requires var r := PatrolStep(path, speed, cellSize, dt, progress, direction, segmentLength);
      0.0 <= r.progress - r.segmentStart as real <= 1.0
    ensures var r := PatrolStep(path, speed, cellSize, dt, progress, direction, segmentLength);
      var t := r.progress - r.segmentStart as real;
      var a := CellCentre(path[r.segmentStart], cellSize);
      var b := CellCentre(path[r.segmentEnd], cellSize);
      && r.x == (1.0 - t) * a.x + t * b.x
      && r.y == (1.0 - t) * a.y + t * b.y
  {
    var r := PatrolStep(path, speed, cellSize, dt, progress, direction, segmentLength);
    var t := r.progress - r.segmentStart as real;
    var s := path[r.segmentStart];
    var e := path[r.segmentEnd];
    Interpolate(s.x as real, e.x as real, cellSize, t);
    Interpolate(s.y as real, e.y as real, cellSize, t);
  }

  lemma Interpolate(s: real, e: real, cellSize: real, t: real)
    ensures s * cellSize + (e - s) * cellSize * t + cellSize / 2.0
         == (1.0 - t) * (s * cellSize + cellSize / 2.0) + t * (e * cellSize + cellSize / 2.0)
  {
  }

  /**
   * A segment between two equal waypoints has length 0 under a true square
   * root, so an enemy strictly inside its path does not advance on it.
   */
  lemma RepeatedWaypointStalls(path: seq<Cell>, speed: real, cellSize: real, dt: real,
                               progress: real, direction: real, segmentLength: (real, real) -> real)
    requires |path| >= 2 && 0.0 < progress < (|path| - 1) as real
    requires IsHypot(segmentLength)
    requires var i := Min(progress.Floor, |path| - 2); path[i] == path[i + 1]
    ensures PatrolStep(path, speed, cellSize, dt, progress, direction, segmentLength).progress == progress
  {
    var i := Min(progress.Floor, |path| - 2);
    assert Delta(path, i, cellSize) == Point(0.0, 0.0);
    assert segmentLength(0.0, 0.0) == 0.0;
  }

  /** The state one enemy's tick leaves behind. */
  datatype MoveResult = MoveResult(position: EnemyPosition, progress: map<string, real>, direction: map<string, real>)

  /** `progressRef.get(id) || 0`. */
  function StoredProgress(progress: map<string, real>, id: string): real
  {
    if id in progress then progress[id] else 0.0
  }

  /** `directionRef.get(id) || 1`: a missing or zero direction reads as +1. */
  function StoredDirection(direction: map<string, real>, id: string): real
  {
    if id in direction && direction[id] != 0.0 then direction[id] else 1.0
  }

  /**
   * Progress stays within [0, segments] of the enemy it belongs to, for every
   * id whose first listed enemy patrols (has at least two waypoints).
   */
  predicate Bounded(progress: map<string, real>, enemies: seq<Enemy>)
  {
    forall k :: k in progress && FindById(enemies, k).Some? && |FindById(enemies, k).value.path| >= 2 ==>
      0.0 <= progress[k] <= (|FindById(enemies, k).value.path| - 1) as real
  }

  /** An enemy that moves: it has a definition with at least two waypoints. */
  predicate Patrols(enemies: seq<Enemy>, id: string)
  {
    FindById(enemies, id).Some? && |FindById(enemies, id).value.path| >= 2
  }

  /**
   * The `prev.map` callback for one position: an enemy without a definition
   * or with fewer than two waypoints keeps its position and maps; any other
   * takes a patrol step and writes its progress and direction back.
   */
  function AnimateOne(pos: EnemyPosition, enemies: seq<Enemy>, progress: map<string, real>,
                      direction: map<string, real>, cellSize: real, dt: real,
                      segmentLength: (real, real) -> real): (r: MoveResult)
    requires NonNegative(progress)
    ensures NonNegative(r.progress)
    ensures Directions(direction) ==> Directions(r.direction)
    ensures Bounded(progress, enemies) ==> Bounded(r.progress, enemies)
    ensures r.position.id == pos.id
    ensures !Patrols(enemies, pos.id) ==> r == MoveResult(pos, progress, direction)
  {
    match FindById(enemies, pos.id)
    case None => MoveResult(pos, progress, direction)
    case Some(enemy) =>
      if |enemy.path| < 2 then MoveResult(pos, progress, direction)
      else
        var s := PatrolStep(enemy.path, enemy.speed, cellSize, dt,
                            StoredProgress(progress, enemy.id), StoredDirection(direction, enemy.id),
                            segmentLength);
        MoveResult(EnemyPosition(pos.id, s.x, s.y), progress[enemy.id := s.progress],
                   direction[enemy.id := s.direction])
  }

  /** The positions and maps after one `animate` frame: `AnimateOne` over the positions in order. */
  datatype TickResult = TickResult(positions: seq<EnemyPosition>, progress: map<string, real>, direction: map<string, real>)

  function AnimateAll(positions: seq<EnemyPosition>, enemies: seq<Enemy>, progress: map<string, real>,
                      direction: map<string, real>, cellSize: real, dt: real,
                      segmentLength: (real, real) -> real): (r: TickResult)
    requires NonNegative(progress)
    ensures NonNegative(r.progress)
    decreases |positions|
  {
    if |positions| == 0 then TickResult([], progress, direction)
    else
      var one := AnimateOne(positions[0], enemies, progress, direction, cellSize, dt, segmentLength);
      var rest := AnimateAll(positions[1..], enemies, one.progress, one.direction, cellSize, dt, segmentLength);
      TickResult([one.position] + rest.positions, rest.progress, rest.direction)
  }

  /**
   * A frame keeps every direction at +1 or -1 and every progress value within
   * its enemy's path, returns one position per position with the same id, and
   * leaves the positions of enemies that do not patrol as they were.
   */
  lemma {:induction false} AnimateAllPreserves(positions: seq<EnemyPosition>, enemies: seq<Enemy>,
                                               progress: map<string, real>, direction: map<string, real>,
                                               cellSize: real, dt: real, segmentLength: (real, real) -> real)
    requires NonNegative(progress) && Directions(direction) && Bounded(progress, enemies)
    ensures var r := AnimateAll(positions, enemies, progress, direction, cellSize, dt, segmentLength);
      && Directions(r.direction) && Bounded(r.progress, enemies)
      && |r.positions| == |positions|
      && (forall i :: 0 <= i < |positions| ==> r.positions[i].id == positions[i].id)
      && (forall i :: 0 <= i < |positions| && !Patrols(enemies, positions[i].id) ==> r.positions[i] == positions[i])
    decreases |positions|
  {
    if |positions| > 0 {
      var one := AnimateOne(positions[0], enemies, progress, direction, cellSize, dt, segmentLength);
      AnimateAllPreserves(positions[1..], enemies, one.progress, one.direction, cellSize, dt, segmentLength);
      var rest := AnimateAll(positions[1..], enemies, one.progress, one.direction, cellSize, dt, segmentLength);
      var r := AnimateAll(positions, enemies, progress, direction, cellSize, dt, segmentLength);
      assert r.positions == [one.position] + rest.positions;
      forall i | 0 <= i < |positions|
        ensures r.positions[i].id == positions[i].id
        ensures !Patrols(enemies, positions[i].id) ==> r.positions[i] == positions[i]
      {
        if i > 0 {
          assert r.positions[i] == rest.positions[i - 1];
          assert positions[i] == positions[1..][i - 1];
        }
      }
    }
  }

  /** `AnimateAll` on a suffix takes one step on its first position and continues on the rest. */
  lemma AnimateAllStep(positions: seq<EnemyPosition>, i: int, enemies: seq<Enemy>, progress: map<string, real>,
                       direction: map<string, real>, cellSize: real, dt: real,
                       segmentLength: (real, real) -> real)
    requires NonNegative(progress) && 0 <= i < |positions|
    ensures var one := AnimateOne(positions[i], enemies, progress, direction, cellSize, dt, segmentLength);
      var rest := AnimateAll(positions[i + 1..], enemies, one.progress, one.direction, cellSize, dt, segmentLength);
      AnimateAll(positions[i..], enemies, progress, direction, cellSize, dt, segmentLength)
        == TickResult([one.position] + rest.positions, rest.progress, rest.direction)
  {
    assert positions[i..][0] == positions[i];
    assert positions[i..][1..] == positions[i + 1..];
  }

  /**
   * The body of one `animate` frame: the `prev.map` over the enemy positions,
   * reading and writing the progress and direction maps as it goes.
   */
  method AnimateFrame(prev: seq<EnemyPosition>, enemies: seq<Enemy>, progress: map<string, real>,
                      direction: map<string, real>, cellSize: real, deltaTime: real,
                      segmentLength: (real, real) -> real)
    returns (next: seq<EnemyPosition>, newProgress: map<string, real>, newDirection: map<string, real>)
    requires NonNegative(progress) && Directions(direction) && Bounded(progress, enemies)
    ensures TickResult(next, newProgress, newDirection)
      == AnimateAll(prev, enemies, progress, direction, cellSize, deltaTime, segmentLength)
    ensures NonNegative(newProgress) && Directions(newDirection) && Bounded(newProgress, enemies)
  {
    next := [];
    newProgress := progress;
    newDirection := direction;
    ghost var full := AnimateAll(prev, enemies, progress, direction, cellSize, deltaTime, segmentLength);
    var i := 0;
    while i < |prev|
      invariant 0 <= i <= |prev|
      invariant NonNegative(newProgress) && Directions(newDirection)
      invariant var rest := AnimateAll(prev[i..], enemies, newProgress, newDirection, cellSize, deltaTime, segmentLength);
        next + rest.positions == full.positions && rest.progress == full.progress && rest.direction == full.direction
    {
      var one := AnimateOne(prev[i], enemies, newProgress, newDirection, cellSize, deltaTime, segmentLength);
      AnimateAllStep(prev, i, enemies, newProgress, newDirection, cellSize, deltaTime, segmentLength);
      next := next + [one.position];
      newProgress := one.progress;
      newDirection := one.direction;
      i := i + 1;
    }
    assert prev[i..] == [];
    assert AnimateAll(prev[i..], enemies, newProgress, newDirection, cellSize, deltaTime, segmentLength)
      == TickResult([], newProgress, newDirection);
    AnimateAllPreserves(prev, enemies, progress, direction, cellSize, deltaTime, segmentLength);
  }

  /** The centre of each enemy's first waypoint, in list order. */
  function InitialPositions(enemies: seq<Enemy>, cellSize: real): (r: seq<EnemyPosition>)
    requires forall i :: 0 <= i < |enemies| ==> |enemies[i].path| > 0
    ensures |r| == |enemies|
    ensures forall i :: 0 <= i < |enemies| ==>
      var c := CellCentre(enemies[i].path[0], cellSize);
      r[i] == EnemyPosition(enemies[i].id, c.x, c.y)
  {
    seq(|enemies|, i requires 0 <= i < |enemies| =>
      EnemyPosition(enemies[i].id, Middle(enemies[i].path[0].x, cellSize), Middle(enemies[i].path[0].y, cellSize)))
  }

  predicate HasId(enemies: seq<Enemy>, k: string)
  {
    exists i :: 0 <= i < |enemies| && enemies[i].id == k
  }

  /**
   * The enemy hook's state: the enemy list and cell size it was last
   * initialised with, the positions it renders, progress and direction by
   * enemy id, and the clock reading of the last frame.
   */
  class PatrolEnemies {
    var enemies: Option<seq<Enemy>>
    var cellSize: real
    var enemyPositions: seq<EnemyPosition>
    var progress: map<string, real>
    var direction: map<string, real>
    var lastUpdate: int

    /**
     * Directions are +1 or -1, and progress is non-negative and within the
     * path of the enemy it belongs to.
     */
    predicate Valid()
      reads this
    {
      && NonNegative(progress) && Directions(direction)
      && (enemies.Some? ==> Bounded(progress, enemies.value))
    }

    constructor (now: int)
      ensures Valid()
      ensures enemies == None && enemyPositions == [] && progress == map[] && direction == map[]
      ensures lastUpdate == now
    {
      enemies := None;
      cellSize := 0.0;
      enemyPositions := [];
      progress := map[];
      direction := map[];
      lastUpdate := now;
    }

    /**
     * The initialisation effect. Without enemies, positions and both maps are
     * emptied. Otherwise every enemy is placed at the centre of its first
     * waypoint and gets progress 0 and direction +1; entries of ids that are
     * no longer listed stay in the maps.
     */
    method Initialise(newEnemies: Option<seq<Enemy>>, newCellSize: real)
      requires Valid()
      requires newEnemies.Some? ==> forall i :: 0 <= i < |newEnemies.value| ==> |newEnemies.value[i].path| > 0
      modifies this
      ensures Valid()
      ensures enemies == newEnemies && cellSize == newCellSize && lastUpdate == old(lastUpdate)
      ensures newEnemies.None? ==> enemyPositions == [] && progress == map[] && direction == map[]
      ensures newEnemies.Some? ==>
        var es := newEnemies.value;
        && enemyPositions == InitialPositions(es, newCellSize)
        && (forall k :: k in progress <==> k in old(progress) || HasId(es, k))
        && (forall k :: k in direction <==> k in old(direction) || HasId(es, k))
        && (forall k :: HasId(es, k) ==> progress[k] == 0.0 && direction[k] == 1.0)
        && (forall k :: k in old(progress) && !HasId(es, k) ==> progress[k] == old(progress)[k])
        && (forall k :: k in old(direction) && !HasId(es, k) ==> direction[k] == old(direction)[k])
    {
      enemies := newEnemies;
      cellSize := newCellSize;
      if newEnemies.None? {
        enemyPositions := [];
        progress := map[];
        direction := map[];
        return;
      }
      var es := newEnemies.value;
      enemyPositions := InitialPositions(es, cellSize);
      var newProgress := progress;
      var newDirection := direction;
      for i := 0 to |es|
        invariant enemies == newEnemies && cellSize == newCellSize && lastUpdate == old(lastUpdate)
        invariant enemyPositions == InitialPositions(es, cellSize)
        invariant progress == old(progress) && direction == old(direction)
        invariant NonNegative(newProgress) && Directions(newDirection)
        invariant forall k :: k in newProgress <==> k in progress || HasId(es[..i], k)
        invariant forall k :: k in newDirection <==> k in direction || HasId(es[..i], k)
        invariant forall k :: HasId(es[..i], k) ==> newProgress[k] == 0.0 && newDirection[k] == 1.0
        invariant forall k :: k in progress && !HasId(es[..i], k) ==> newProgress[k] == progress[k]
        invariant forall k :: k in direction && !HasId(es[..i], k) ==> newDirection[k] == direction[k]
      {
        PrefixId(es, i);
        newProgress := newProgress[es[i].id := 0.0];
        newDirection := newDirection[es[i].id := 1.0];
      }
      assert es[..|es|] == es;
      forall k | k in newProgress && Patrols(es, k)
        ensures 0.0 <= newProgress[k] <= (|FindById(es, k).value.path| - 1) as real
      {
        assert es[FirstIndex(es, k)].id == k;
      }
      progress := newProgress;
      direction := newDirection;
    }

    /** The animation effect starting (enemies present, game active): the clock restarts. */
    method StartAnimation(now: int)
      modifies this
      ensures lastUpdate == now
      ensures enemies == old(enemies) && cellSize == old(cellSize) && enemyPositions == old(enemyPositions)
      ensures progress == old(progress) && direction == old(direction)
    {
      lastUpdate := now;
    }

    /** The frame `AnimateAll` computes from the current state at clock reading `now`, elapsed time in seconds. */
    function NextFrame(now: int, segmentLength: (real, real) -> real): TickResult
      requires enemies.Some? && NonNegative(progress)
      reads this
    {
      AnimateAll(enemyPositions, enemies.value, progress, direction, cellSize, (now - lastUpdate) as real / 1000.0,
                 segmentLength)
    }

    /**
     * One `animate` frame at clock reading `now`, in milliseconds. No frame
     * runs without enemies or while the game is inactive; otherwise the
     * elapsed time in seconds drives `AnimateAll`.
     */
    method Animate(isGameActive: bool, now: int, segmentLength: (real, real) -> real)
      requires Valid()
      modifies this
      ensures Valid()
      ensures enemies == old(enemies) && cellSize == old(cellSize)
      ensures enemies.None? || !isGameActive ==>
        enemyPositions == old(enemyPositions) && progress == old(progress) &&
        direction == old(direction) && lastUpdate == old(lastUpdate)
      ensures enemies.Some? && isGameActive ==>
        var r := old(NextFrame(now, segmentLength));
        enemyPositions == r.positions && progress == r.progress && direction == r.direction && lastUpdate == now
    {
      if enemies.None? || !isGameActive {
        return;
      }
      var deltaTime := (now - lastUpdate) as real / 1000.0;
      ghost var r := NextFrame(now, segmentLength);
      var next, newProgress, newDirection :=
        AnimateFrame(enemyPositions, enemies.value, progress, direction, cellSize, deltaTime, segmentLength);
      assert next == r.positions && newProgress == r.progress && newDirection == r.direction;
      lastUpdate := now;
      progress := newProgress;
      direction := newDirection;
      enemyPositions := next;
    }
  }

  lemma PrefixId(es: seq<Enemy>, i: int)
    requires 0 <= i < |es|
    ensures forall k :: HasId(es[..i + 1], k) <==> HasId(es[..i], k) || k == es[i].id
  {
    forall k
      ensures HasId(es[..i + 1], k) <==> HasId(es[..i], k) || k == es[i].id
    {
      if HasId(es[..i + 1], k) {
        var j :| 0 <= j < i + 1 && es[..i + 1][j].id == k;
        if j < i { assert es[..i][j].id == k; }
      }
      if HasId(es[..i], k) {
        var j :| 0 <= j < i && es[..i][j].id == k;
        assert es[..i + 1][j].id == k;
      }
      if k == es[i].id { assert es[..i + 1][i].id == k; }
    }
  }
}
