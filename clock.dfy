/** The simulated clock (clock.js): the single sim_clock row. `tick` is the
    number of simulated seconds per real second, 0 meaning paused;
    `pausedTick` is the tick `play` restores. The current real time is the
    parameter `now` (milliseconds). */
module Clock {
  import Config

  /** `getSimTimeMs` on a row: the stored time while paused, otherwise the stored
      time advanced by `tick` simulated seconds per whole real second elapsed
      since `lastUpdateMs` (`Math.floor` of a division by 1000). */
  function SimTime(simTimeMs: int, tick: int, lastUpdateMs: int, now: int): int
  {
    if tick == 0 then simTimeMs
    else simTimeMs + ((now - lastUpdateMs) / 1000) * tick * 1000
  }

  /** While paused, the current time is the stored time at every instant. */
  lemma PausedIsFrozen(simTimeMs: int, lastUpdateMs: int, now: int)
    ensures SimTime(simTimeMs, 0, lastUpdateMs, now) == simTimeMs
  {
  }

  /** With a non-negative tick, the current time never decreases as real time advances. */
  lemma SimTimeMonotone(simTimeMs: int, tick: int, lastUpdateMs: int, now1: int, now2: int)
    requires tick >= 0 && now1 <= now2
    ensures SimTime(simTimeMs, tick, lastUpdateMs, now1) <= SimTime(simTimeMs, tick, lastUpdateMs, now2)
  {
    if tick > 0 {
      var k1, k2 := (now1 - lastUpdateMs) / 1000, (now2 - lastUpdateMs) / 1000;
      FloorDivMonotone(now1 - lastUpdateMs, now2 - lastUpdateMs);
      MulMonotone(k1, k2, tick * 1000);
      assert k1 * tick * 1000 == k1 * (tick * 1000) && k2 * tick * 1000 == k2 * (tick * 1000);
    }
  }

  lemma FloorDivMonotone(a: int, b: int)
    requires a <= b
    ensures a / 1000 <= b / 1000
  {
    var qa, qb := a / 1000, b / 1000;
    assert qa * 1000 <= a && b < qb * 1000 + 1000;
  }

  lemma MulMonotone(x: int, y: int, m: int)
    requires x <= y && m >= 0
    ensures x * m <= y * m
  {
    assert y * m - x * m == (y - x) * m;
  }

  /** At the instant the row was last written, the current time is the stored time. */
  lemma SimTimeAtLastUpdate(simTimeMs: int, tick: int, lastUpdateMs: int)
    ensures SimTime(simTimeMs, tick, lastUpdateMs, lastUpdateMs) == simTimeMs
  {
  }

  class SimClock {
    var simTimeMs: int
    var tick: int
    var pausedTick: int
    var lastUpdateMs: int

    ghost predicate Valid()
      reads this
    {
      tick >= 0 && pausedTick >= 0
    }

    /** `getSimTimeMs`. */
    function SimTimeAt(now: int): int
      reads this
    {
      SimTime(simTimeMs, tick, lastUpdateMs, now)
    }

    /** The row seedGlobals inserts: the epoch, running at the default tick. */
    constructor (now: int)
      ensures Valid()
      ensures simTimeMs == Config.SimEpochMs && tick == Config.DefaultTick
      ensures pausedTick == Config.DefaultTick && lastUpdateMs == now
    {
      simTimeMs, tick, pausedTick, lastUpdateMs := Config.SimEpochMs, Config.DefaultTick, Config.DefaultTick, now;
    }

    /** `updateClock`: folds the elapsed simulated time into the stored time. */
    method UpdateClock(now: int)
      modifies this
      ensures simTimeMs == old(SimTimeAt(now)) && lastUpdateMs == now
      ensures tick == old(tick) && pausedTick == old(pausedTick)
      ensures SimTimeAt(now) == old(SimTimeAt(now))
    {
      var current := SimTimeAt(now);
      simTimeMs, lastUpdateMs := current, now;
    }

    /** `resetClock`: back to the epoch, running at the default tick. */
    method Reset(now: int)
      modifies this
      ensures Valid()
      ensures simTimeMs == Config.SimEpochMs && tick == Config.DefaultTick
      ensures pausedTick == Config.DefaultTick && lastUpdateMs == now
    {
      simTimeMs, tick, pausedTick, lastUpdateMs := Config.SimEpochMs, Config.DefaultTick, Config.DefaultTick, now;
    }

    /** `setTick`: flushes, then changes the rate; the current time is unchanged
        at the instant of the call. Any tick is accepted, as in the code; the
        clock stays valid when the new tick is not negative, as it is from
        `faster` and `slower`, the only callers here. */
    method SetTick(newTick: int, now: int)
      requires Valid()
      modifies this
      ensures newTick >= 0 <==> Valid()
      ensures tick == newTick && pausedTick == old(pausedTick) && lastUpdateMs == now
      ensures simTimeMs == old(SimTimeAt(now))
      ensures SimTimeAt(now) == old(SimTimeAt(now))
    {
      UpdateClock(now);
      tick, lastUpdateMs := newTick, now;
    }

    /** `pause`: remembers the running tick (or keeps the remembered one), flushes
        and stops the clock. */
    method Pause(now: int)
      requires Valid()
      modifies this
      ensures Valid()
      ensures tick == 0 && lastUpdateMs == now
      ensures pausedTick == if old(tick) > 0 then old(tick) else old(pausedTick)
      ensures SimTimeAt(now) == old(SimTimeAt(now))
    {
      var remembered := if tick > 0 then tick else pausedTick;
      UpdateClock(now);
      tick, pausedTick, lastUpdateMs := 0, remembered, now;
    }

    /** `play`: restores the remembered tick (60 if none) WITHOUT flushing: the
        stored time becomes the current time, so the elapsed time since the last
        write is kept only when the clock was paused. */
    method Play(now: int)
      requires Valid()
      modifies this
      ensures Valid()
      ensures tick == (if old(pausedTick) > 0 then old(pausedTick) else Config.DefaultTick)
      ensures tick > 0 && pausedTick == old(pausedTick) && lastUpdateMs == now
      ensures simTimeMs == old(simTimeMs) && SimTimeAt(now) == old(simTimeMs)
      ensures old(tick) == 0 ==> SimTimeAt(now) == old(SimTimeAt(now))
    {
      var newTick := if pausedTick > 0 then pausedTick else Config.DefaultTick;
      tick, lastUpdateMs := newTick, now;
    }

    /** `faster`: doubles the tick; a no-op while paused. */
    method Faster(now: int)
      requires Valid()
      modifies this
      ensures Valid()
      ensures old(tick) == 0 ==> simTimeMs == old(simTimeMs) && tick == 0 && pausedTick == old(pausedTick) && lastUpdateMs == old(lastUpdateMs)
      ensures old(tick) != 0 ==> tick == 2 * old(tick) && lastUpdateMs == now && pausedTick == old(pausedTick)
      ensures SimTimeAt(now) == old(SimTimeAt(now))
    {
      if tick == 0 {
        return;
      }
      SetTick(tick * 2, now);
    }

    /** `slower`: halves the tick (rounding down), never below 60; a no-op while paused. */
    method Slower(now: int)
      requires Valid()
      modifies this
      ensures Valid()
      ensures old(tick) == 0 ==> simTimeMs == old(simTimeMs) && tick == 0 && pausedTick == old(pausedTick) && lastUpdateMs == old(lastUpdateMs)
      ensures old(tick) != 0 ==> tick == (if old(tick) / 2 > 60 then old(tick) / 2 else 60)
      ensures old(tick) != 0 ==> lastUpdateMs == now && pausedTick == old(pausedTick)
      ensures SimTimeAt(now) == old(SimTimeAt(now))
    {
      if tick == 0 {
        return;
      }
      var half := tick / 2;
      SetTick(if half > 60 then half else 60, now);
    }
  }
}
