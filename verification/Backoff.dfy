/** Exponential backoff: 1.5 times the previous interval, given up eight seconds after the start. */
module Backoff {
  import opened Common

  const MAX_ELAPSED_TIME: int := 8 * SECOND
  const INITIAL_INTERVAL: int := SECOND

  datatype Backoff = Backoff(start: Instant, nextTrigger: Instant, interval: int) {
    predicate IsExpired(at: Instant) { at >= start + MAX_ELAPSED_TIME }

    function Stepped(now: Instant): Backoff {
      if IsExpired(now) || now < nextTrigger then this
      else Backoff(start, nextTrigger + interval * 3 / 2, interval * 3 / 2)
    }

    predicate IsDue(now: Instant) { now >= nextTrigger }

    /** How often this backoff has triggered, told from its interval. */
    function Level(): nat {
      if interval <= SECOND then 0
      else if interval <= 3 * SECOND / 2 then 1
      else if interval <= 9 * SECOND / 4 then 2
      else 3
    }

    /** The intervals are exactly 1, 1.5, 2.25 and 3.375 seconds, and triggers add them up. */
    predicate Valid() {
      && interval == IntervalAt(Level())
      && nextTrigger == start + TotalAt(Level())
    }
  }

  function Started(now: Instant): Backoff { Backoff(now, now + INITIAL_INTERVAL, INITIAL_INTERVAL) }

  function IntervalAt(level: nat): int {
    if level == 0 then SECOND else if level == 1 then 3 * SECOND / 2 else if level == 2 then 9 * SECOND / 4
        else 27 * SECOND / 8
  }

  function TotalAt(level: nat): int {
    if level == 0 then SECOND
    else if level == 1 then 5 * SECOND / 2
    else if level == 2 then 19 * SECOND / 4
    else 65 * SECOND / 8
  }

  /** A due backoff either has expired or moves up one level; the fourth trigger is past the end. */
  lemma StepClimbs(b: Backoff, now: Instant)
    requires b.Valid() && b.IsDue(now)
    ensures b.Stepped(now).Valid()
    ensures if b.IsExpired(now) then b.Stepped(now) == b else b.Level() < 3 && b.Stepped(now).Level() == b.Level() + 1
    ensures b.Stepped(now).start == b.start
  {
  }

  class ExponentialBackoff {
    var startTime: Instant
    var nextTrigger: Instant
    var interval: int

    ghost function View(): Backoff
      reads this
    {
      Backoff(startTime, nextTrigger, interval)
    }

    constructor (now: Instant)
      ensures View() == Started(now) && View().Valid()
    {
      startTime, nextTrigger, interval := now, now + INITIAL_INTERVAL, INITIAL_INTERVAL;
    }

    method HandleTimeout(now: Instant)
      modifies this
      ensures View() == old(View()).Stepped(now)
      ensures old(View()).Valid() ==> View().Valid()
      ensures old(View()).Valid() && old(nextTrigger) <= now < startTime + MAX_ELAPSED_TIME ==>
                View().Level() == old(View()).Level() + 1
    {
      if now >= startTime + MAX_ELAPSED_TIME { return; }
      if now < nextTrigger { return; }
      interval := interval * 3 / 2;
      nextTrigger := nextTrigger + interval;
    }
  }
}
