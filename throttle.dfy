/**
 * `useThrottle` from lib/hooks/useThrottle.ts as a state machine driven by the
 * clock: each call passes `Date.now()` in as `now`. `runs` records the times at
 * which the callback ran.
 */
module Throttle {

  const DefaultDelay := 100

  /** The throttled callback with its `lastRun` ref. */
  class Throttled {
    const createdAt: int
    const delay: int
    var lastRun: int
    var runs: seq<int>

    /**
     * `lastRun` is the last run's time, or the creation time before the first
     * run, and any two consecutive runs, the first counted from creation, are at
     * least `delay` apart.
     */
    ghost predicate Valid()
      reads this
    {
      (|runs| == 0 ==> lastRun == createdAt)
      && (|runs| > 0 ==> lastRun == runs[|runs| - 1] && runs[0] - createdAt >= delay)
      && (forall i :: 0 < i < |runs| ==> runs[i] - runs[i - 1] >= delay)
    }

    /** `useRef(Date.now())`, with `delay` defaulting to 100 ms. */
    constructor(now: int, delay: int := DefaultDelay)
      ensures createdAt == now && this.delay == delay
      ensures lastRun == now && runs == []
      ensures Valid()
    {
      createdAt := now;
      this.delay := delay;
      lastRun := now;
      runs := [];
    }

    /**
     * One call: the callback runs iff at least `delay` has passed since
     * `lastRun`, and only a run moves `lastRun`. Calls within `delay` of creation
     * are dropped.
     */
    method Call(now: int) returns (ran: bool)
      modifies this
      ensures ran <==> now - old(lastRun) >= delay
      ensures ran ==> lastRun == now && runs == old(runs) + [now]
      ensures !ran ==> lastRun == old(lastRun) && runs == old(runs)
      ensures old(Valid()) ==> Valid()
      ensures old(Valid()) && old(runs) == [] && now - createdAt < delay ==> !ran
    {
      ran := now - lastRun >= delay;
      if ran {
        lastRun := now;
        runs := runs + [now];
      }
    }
  }
}
