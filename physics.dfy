/**
 * The per-frame ball integrator. Two tilt-to-motion models:
 *
 * - NORMAL (momentum): the stored velocity is accelerated by the
 *   accelerometer reading, damped by friction, clamped to +-20 per axis, and
 *   each axis is checked for collision on its own, so the ball slides along
 *   walls;
 * - CHAOS (direct): the velocity is recomputed from the gyroscope reading
 *   with its axes swapped, and the ball takes the first free move of
 *   {full, X only, Y only}, or stays.
 *
 * The collision test is injected as a predicate on the candidate centre. The
 * animation-frame scheduling is reduced to the boolean "the step rescheduled
 * itself".
 */
module Physics {
  import opened Common

  datatype GyroMode = Normal | Chaos

  const NORMAL_GRAVITY := 1.2
  const NORMAL_FRICTION := 0.9
  const MAX_SPEED := 20.0
  const CHAOS_GRAVITY := 0.6
  const CHAOS_FRICTION := 0.8

  /** `Math.max(-bound, Math.min(bound, v))`. */
  function Clamp(v: real, bound: real): (r: real)
    requires bound >= 0.0
    ensures -bound <= r <= bound
    ensures -bound <= v <= bound ==> r == v
    ensures v > bound ==> r == bound
    ensures v < -bound ==> r == -bound
  {
    RMax(-bound, RMin(bound, v))
  }

  /** `inverted` negates a sensor reading before use. */
  function Orient(v: real, inverted: bool): real
  {
    if inverted then -v else v
  }

  /**
   * NORMAL mode velocity: `clamp(friction * (v + a * gravity))` per axis,
   * where the y acceleration enters negated.
   */
  function NormalVelocity(velocity: Point, accel: Point, inverted: bool): (v: Point)
    ensures -MAX_SPEED <= v.x <= MAX_SPEED && -MAX_SPEED <= v.y <= MAX_SPEED
  {
    var accelX := Orient(accel.x, inverted);
    var accelY := Orient(accel.y, inverted);
    Point(Clamp((velocity.x + accelX * NORMAL_GRAVITY) * NORMAL_FRICTION, MAX_SPEED),
          Clamp((velocity.y + -accelY * NORMAL_GRAVITY) * NORMAL_FRICTION, MAX_SPEED))
  }

  /** Without tilt, friction strictly dissipates speed on each axis (never adds it). */
  lemma FrictionDissipates(velocity: Point, inverted: bool)
    ensures var v := NormalVelocity(velocity, Point(0.0, 0.0), inverted);
      && (if v.x >= 0.0 then v.x else -v.x) <= NORMAL_FRICTION * (if velocity.x >= 0.0 then velocity.x else -velocity.x)
      && (if v.y >= 0.0 then v.y else -v.y) <= NORMAL_FRICTION * (if velocity.y >= 0.0 then velocity.y else -velocity.y)
      && (v.x == 0.0 <==> velocity.x == 0.0) && (v.y == 0.0 <==> velocity.y == 0.0)
  {
  }

  /** Inverted controls are the same as negating the accelerometer reading. */
  lemma InversionNegatesInput(velocity: Point, accel: Point)
    ensures NormalVelocity(velocity, accel, true) == NormalVelocity(velocity, Point(-accel.x, -accel.y), false)
  {
  }

  datatype Motion = Motion(position: Point, velocity: Point)

  /**
   * One NORMAL step. Each axis is decided by the collision test of that axis
   * alone (the other coordinate kept at its previous value); the diagonal
   * candidate is never tested.
   */
  function NormalStep(prev: Point, velocity: Point, accel: Point, inverted: bool,
                      checkCollision: (real, real) -> bool): (m: Motion)
    ensures var v := NormalVelocity(velocity, accel, inverted);
      && (if checkCollision(prev.x + v.x, prev.y)
          then m.position.x == prev.x && m.velocity.x == 0.0
          else m.position.x == prev.x + v.x && m.velocity.x == v.x)
      && (if checkCollision(prev.x, prev.y + v.y)
          then m.position.y == prev.y && m.velocity.y == 0.0
          else m.position.y == prev.y + v.y && m.velocity.y == v.y)
    ensures -MAX_SPEED <= m.velocity.x <= MAX_SPEED && -MAX_SPEED <= m.velocity.y <= MAX_SPEED
    ensures -MAX_SPEED <= m.position.x - prev.x <= MAX_SPEED && -MAX_SPEED <= m.position.y - prev.y <= MAX_SPEED
  {
    var v := NormalVelocity(velocity, accel, inverted);
    var newX := prev.x + v.x;
    var newY := prev.y + v.y;
    var blockedX := checkCollision(newX, prev.y);
    var blockedY := checkCollision(prev.x, newY);
    Motion(Point(if blockedX then prev.x else newX, if blockedY then prev.y else newY),
           Point(if blockedX then 0.0 else v.x, if blockedY then 0.0 else v.y))
  }

  /**
   * Sliding along a wall: when the diagonal move is blocked but the X-only
   * move is free, the NORMAL step still moves along X (and likewise for Y).
   */
  lemma NormalStepSlides(prev: Point, velocity: Point, accel: Point, inverted: bool,
                         checkCollision: (real, real) -> bool)
    requires var v := NormalVelocity(velocity, accel, inverted);
      checkCollision(prev.x + v.x, prev.y + v.y) && !checkCollision(prev.x + v.x, prev.y)
    ensures var v := NormalVelocity(velocity, accel, inverted);
      NormalStep(prev, velocity, accel, inverted, checkCollision).position.x == prev.x + v.x
  {
  }

  /** CHAOS mode velocity: fresh each frame from the gyroscope, axes swapped. */
  function ChaosVelocity(gyro: Point, inverted: bool): (v: Point)
    ensures v.x == Orient(gyro.y, inverted) * CHAOS_GRAVITY * CHAOS_FRICTION
    ensures v.y == Orient(gyro.x, inverted) * CHAOS_GRAVITY * CHAOS_FRICTION
  {
    var gyroX := Orient(gyro.x, inverted);
    var gyroY := Orient(gyro.y, inverted);
    Point(gyroY * CHAOS_GRAVITY * CHAOS_FRICTION, gyroX * CHAOS_GRAVITY * CHAOS_FRICTION)
  }

  /**
   * One CHAOS step: the first of the full move, the X-only move and the
   * Y-only move that does not collide, otherwise the previous position.
   */
  function ChaosStep(prev: Point, gyro: Point, inverted: bool, checkCollision: (real, real) -> bool): (p: Point)
    ensures var v := ChaosVelocity(gyro, inverted);
      var full := Point(prev.x + v.x, prev.y + v.y);
      var xOnly := Point(prev.x + v.x, prev.y);
      var yOnly := Point(prev.x, prev.y + v.y);
      && (p == full || p == xOnly || p == yOnly || p == prev)
      && (p == prev || !checkCollision(p.x, p.y))
      && (!checkCollision(full.x, full.y) ==> p == full)
      && (checkCollision(full.x, full.y) && !checkCollision(xOnly.x, xOnly.y) ==> p == xOnly)
      && (checkCollision(full.x, full.y) && checkCollision(xOnly.x, xOnly.y) && !checkCollision(yOnly.x, yOnly.y) ==> p == yOnly)
      && (checkCollision(full.x, full.y) && checkCollision(xOnly.x, xOnly.y) && checkCollision(yOnly.x, yOnly.y) ==> p == prev)
  {
    var v := ChaosVelocity(gyro, inverted);
    var newX := prev.x + v.x;
    var newY := prev.y + v.y;
    if !checkCollision(newX, newY) then Point(newX, newY)
    else if !checkCollision(newX, prev.y) then Point(newX, prev.y)
    else if !checkCollision(prev.x, newY) then Point(prev.x, newY)
    else prev
  }

  /** The ball's position and velocity, as the physics hook keeps them. */
  class BallPhysics {
    var ballPosition: Point
    var velocity: Point

    constructor (initialPosition: Point)
      ensures ballPosition == initialPosition && velocity == Point(0.0, 0.0)
    {
      ballPosition := initialPosition;
      velocity := Point(0.0, 0.0);
    }

    /** `resetPosition`: back to the initial position, at rest. */
    method ResetPosition(initialPosition: Point)
      modifies this
      ensures ballPosition == initialPosition && velocity == Point(0.0, 0.0)
    {
      ballPosition := initialPosition;
      velocity := Point(0.0, 0.0);
    }

    /** `setBallPosition` as called from outside the hook. */
    method SetBallPosition(p: Point)
      modifies this
      ensures ballPosition == p && velocity == old(velocity)
    {
      ballPosition := p;
    }

    /** `setVelocity` as called from outside the hook. */
    method SetVelocity(v: Point)
      modifies this
      ensures velocity == v && ballPosition == old(ballPosition)
    {
      velocity := v;
    }

    /**
     * `updateBallPosition`: one animation frame. When the game is won or the
     * ball is frozen (`isDead`, which the game screen also raises for pause,
     * countdown and respawn), nothing changes and no next frame is requested.
     */
    method UpdateBallPosition(gyroMode: GyroMode, accelData: Point, gyroData: Point, inverted: bool,
                              isGameWon: bool, isDead: bool, checkCollision: (real, real) -> bool)
      returns (rescheduled: bool)
      modifies this
      ensures rescheduled <==> !isGameWon && !isDead
      ensures (isGameWon || isDead) ==> ballPosition == old(ballPosition) && velocity == old(velocity)
      ensures !isGameWon && !isDead && gyroMode == Normal ==>
        Motion(ballPosition, velocity) == NormalStep(old(ballPosition), old(velocity), accelData, inverted, checkCollision)
      ensures !isGameWon && !isDead && gyroMode == Chaos ==>
        ballPosition == ChaosStep(old(ballPosition), gyroData, inverted, checkCollision) && velocity == old(velocity)
    {
      if isGameWon || isDead {
        return false;
      }
      var prevPosition := ballPosition;
      var newVelX := velocity.x;
      var newVelY := velocity.y;
      if gyroMode == Normal {
        var accelX := Orient(accelData.x, inverted);
        var accelY := Orient(accelData.y, inverted);
        newVelX := newVelX + accelX * NORMAL_GRAVITY;
        newVelY := newVelY + -accelY * NORMAL_GRAVITY;
        newVelX := newVelX * NORMAL_FRICTION;
        newVelY := newVelY * NORMAL_FRICTION;
        newVelX := Clamp(newVelX, MAX_SPEED);
        newVelY := Clamp(newVelY, MAX_SPEED);
        var newX := prevPosition.x + newVelX;
        var newY := prevPosition.y + newVelY;
        var finalX := newX;
        var finalY := newY;
        if checkCollision(newX, prevPosition.y) {
          finalX := prevPosition.x;
          newVelX := 0.0;
        }
        if checkCollision(prevPosition.x, newY) {
          finalY := prevPosition.y;
          newVelY := 0.0;
        }
        velocity := Point(newVelX, newVelY);
        ballPosition := Point(finalX, finalY);
      } else {
        var gyroX := Orient(gyroData.x, inverted);
        var gyroY := Orient(gyroData.y, inverted);
        var velX := gyroY * CHAOS_GRAVITY;
        var velY := gyroX * CHAOS_GRAVITY;
        velX := velX * CHAOS_FRICTION;
        velY := velY * CHAOS_FRICTION;
        var newX := prevPosition.x + velX;
        var newY := prevPosition.y + velY;
        if !checkCollision(newX, newY) {
          ballPosition := Point(newX, newY);
        } else if !checkCollision(newX, prevPosition.y) {
          ballPosition := Point(newX, prevPosition.y);
        } else if !checkCollision(prevPosition.x, newY) {
          ballPosition := Point(prevPosition.x, newY);
        }
      }
      rescheduled := true;
    }
  }
}
