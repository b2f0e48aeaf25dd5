/**
 * The attempt timer. `gameTime` is the elapsed time shown to the player,
 * `startTime` the clock reading the elapsed time counts from, and `pausedAt`
 * the elapsed time saved by a pause.
 *
 * The 100 ms interval is modelled by `running`: the start time the live
 * interval captured, or `None` when no interval runs. The tick effect
 * re-runs whenever `isActive` or `startTime` changes, and starts an interval
 * only when the timer is active, started (a truthy start time) and not
 * paused. Each firing of the interval is a call of `Tick`.
 */
module GameTimer {
  import opened Common

  /** A `number | null` start time that JavaScript treats as true. */
  predicate Started(startTime: Option<int>)
  {
    startTime.Some? && startTime.value != 0
  }

  class Timer {
    var gameTime: int
    var startTime: Option<int>
    var pausedAt: Option<int>
    var isActive: bool
    var running: Option<int>

    /** A live interval belongs to an active, started, unpaused timer and counts from its start time. */
    predicate Valid()
      reads this
    {
      running.Some? ==> isActive && Started(startTime) && running == startTime && pausedAt.None?
    }

    constructor (active: bool)
      ensures Valid()
      ensures gameTime == 0 && startTime == None && pausedAt == None && isActive == active && running == None
    {
      gameTime := 0;
      startTime := None;
      pausedAt := None;
      isActive := active;
      running := None;
    }

    /** The tick effect: clear any interval, and start one when active, started and not paused. */
    method TickEffect()
      modifies this
      ensures Valid()
      ensures running == if isActive && Started(startTime) && pausedAt.None? then startTime else None
      ensures gameTime == old(gameTime) && startTime == old(startTime) && pausedAt == old(pausedAt)
      ensures isActive == old(isActive)
    {
      if isActive && Started(startTime) && pausedAt.None? {
        running := startTime;
      } else {
        running := None;
      }
    }

    /** The render after a state change: the effect re-runs only if one of its dependencies changed. */
    method Rerender(previousActive: bool, previousStart: Option<int>)
      requires isActive == previousActive && startTime == previousStart ==> Valid()
      modifies this
      ensures Valid()
      ensures isActive != previousActive || startTime != previousStart ==>
        running == if isActive && Started(startTime) && pausedAt.None? then startTime else None
      ensures isActive == previousActive && startTime == previousStart ==> running == old(running)
      ensures gameTime == old(gameTime) && startTime == old(startTime) && pausedAt == old(pausedAt)
      ensures isActive == old(isActive)
    {
      if isActive != previousActive || startTime != previousStart {
        TickEffect();
      }
    }

    /** The hook's `isActive` argument changes. */
    method SetActive(active: bool)
      requires Valid()
      modifies this
      ensures Valid() && isActive == active
      ensures active != old(isActive) ==>
        running == if active && Started(startTime) && pausedAt.None? then startTime else None
      ensures active == old(isActive) ==> running == old(running)
      ensures gameTime == old(gameTime) && startTime == old(startTime) && pausedAt == old(pausedAt)
    {
      var previous := isActive;
      isActive := active;
      Rerender(previous, startTime);
    }

    /** `startTimer` at clock reading `now`: the elapsed time restarts from 0 and any pause is dropped. */
    method Start(now: int)
      requires Valid()
      modifies this
      ensures Valid()
      ensures startTime == Some(now) && gameTime == 0 && pausedAt == None && isActive == old(isActive)
      ensures old(startTime) != Some(now) ==> running == if isActive && now != 0 then Some(now) else None
      ensures old(startTime) == Some(now) ==> running == old(running)
    {
      var previous := startTime;
      startTime := Some(now);
      gameTime := 0;
      pausedAt := None;
      Rerender(isActive, previous);
    }

    /** `pauseTimer`: the interval stops and the elapsed time so far is saved. */
    method Pause()
      requires Valid()
      modifies this
      ensures Valid()
      ensures pausedAt == Some(old(gameTime)) && running == None
      ensures gameTime == old(gameTime) && startTime == old(startTime) && isActive == old(isActive)
    {
      running := None;
      pausedAt := Some(gameTime);
    }

    /**
     * `resumeTimer` at clock reading `now`: when paused, the start time moves
     * so that the elapsed time continues from the saved value; otherwise
     * nothing happens.
     */
    method Resume(now: int)
      requires Valid()
      modifies this
      ensures Valid()
      ensures old(pausedAt).None? ==>
        gameTime == old(gameTime) && startTime == old(startTime) && pausedAt == None && running == old(running)
      ensures old(pausedAt).Some? ==>
        && startTime == Some(now - old(pausedAt).value) && pausedAt == None && gameTime == old(gameTime)
        && (startTime != old(startTime) ==> running == if isActive && Started(startTime) then startTime else None)
        && (startTime == old(startTime) ==> running == old(running))
      ensures isActive == old(isActive)
    {
      if pausedAt.Some? {
        var previous := startTime;
        startTime := Some(now - pausedAt.value);
        pausedAt := None;
        Rerender(isActive, previous);
      }
    }

    /** `stopTimer`: the interval stops and the elapsed time is returned unchanged. */
    method Stop() returns (t: int)
      requires Valid()
      modifies this
      ensures Valid()
      ensures t == gameTime && running == None
      ensures gameTime == old(gameTime) && startTime == old(startTime) && pausedAt == old(pausedAt)
      ensures isActive == old(isActive)
    {
      running := None;
      t := gameTime;
    }

    /** `resetTimer`: elapsed time 0, no start time, no interval; a saved pause stays. */
    method Reset()
      requires Valid()
      modifies this
      ensures Valid()
      ensures gameTime == 0 && startTime == None && running == None
      ensures pausedAt == old(pausedAt) && isActive == old(isActive)
    {
      var previous := startTime;
      gameTime := 0;
      startTime := None;
      running := None;
      Rerender(isActive, previous);
    }

    /**
     * One firing of the interval at clock reading `now`: the elapsed time is
     * `now` minus the start time, and only an active, started, unpaused timer
     * has an interval to fire.
     */
    method Tick(now: int)
      requires Valid()
      modifies this
      ensures Valid()
      ensures old(running).None? ==> gameTime == old(gameTime)
      ensures old(running).Some? ==>
        && isActive && Started(startTime) && pausedAt.None?
        && gameTime == now - startTime.value
      ensures startTime == old(startTime) && pausedAt == old(pausedAt) && running == old(running)
      ensures isActive == old(isActive)
    {
      if running.Some? {
        gameTime := now - running.value;
      }
    }
  }
}
