/**
 * The end-of-iteration sleep (`loopEnd`). The daemon's interval is in
 * milliseconds and `usleep` takes microseconds, so the budget of one
 * iteration is `interval * 1000` microseconds.
 */
module Timing {

  /**
   * The clamp: the smallest non-negative value that is at least
   * `budget - duration`, that is the difference itself when it is
   * non-negative and 0 otherwise.
   */
  function ClampedSleep(budget: int, duration: int): (r: int)
    ensures r >= 0 && r >= budget - duration
    ensures r == 0 || r == budget - duration
  {
    if budget - duration < 0 then 0 else budget - duration
  }

  /**
   * `loopEnd` as written: the duration subtracts the value of a call to
   * the `loopStart` method, which returns nothing (PHP null, read as 0), so
   * the duration is the clock reading `now` itself, in seconds, taken from a
   * budget in microseconds.
   */
  function AsWrittenSleep(intervalMs: int, now: int): (r: int)
    ensures r >= 0 && r >= intervalMs * 1000 - now
    ensures r == 0 || r == intervalMs * 1000 - now
  {
    ClampedSleep(intervalMs * 1000, now - 0)
  }

  /**
   * What `loopEnd` evidently means: with the iteration's start and the
   * current time both in microseconds, the daemon wakes exactly one
   * interval after the iteration started, or at once after an overrun,
   * never compensating for it.
   */
  function IntendedSleep(intervalMs: int, startMicros: int, nowMicros: int): (r: int)
    ensures r >= 0
    ensures nowMicros - startMicros <= intervalMs * 1000 ==> nowMicros + r == startMicros + intervalMs * 1000
    ensures nowMicros - startMicros > intervalMs * 1000 ==> r == 0
  {
    ClampedSleep(intervalMs * 1000, nowMicros - startMicros)
  }

  /**
   * As written the computed sleep ignores when the iteration started: at
   * any clock reading of at least `interval * 1000` seconds (about 11.6
   * days after 1970 for a 1000 ms interval) it is 0, so the loop never sleeps.
   */
  lemma AsWrittenNeverSleeps(intervalMs: int, now: int)
    requires now >= intervalMs * 1000
    ensures AsWrittenSleep(intervalMs, now) == 0
  {
  }

  /**
   * The concrete case: a 1000 ms interval, an iteration that took no time,
   * at the clock reading 1700000000 s. As written it sleeps 0 microseconds;
   * as intended, 1000000.
   */
  lemma BusyLoopExample()
    ensures AsWrittenSleep(1000, 1700000000) == 0
    ensures IntendedSleep(1000, 1700000000 * 1000000, 1700000000 * 1000000) == 1000000
  {
  }

}
