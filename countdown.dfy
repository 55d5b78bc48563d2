/**
 * The one-second interval updater shared by both timed screens:
 * `prev <= 1 ? 0 : prev - 1`, where the `prev <= 1` branch also clears the interval.
 */
module Countdown {

  /** The value the updater returns for the previous value `prev`. */
  function Next(prev: int): int
  {
    if prev <= 1 then 0 else prev - 1
  }

  /** The updater takes its expiry branch (clears the interval, returns 0). */
  predicate Expires(prev: int)
  {
    prev <= 1
  }

  /** The counter after `ticks` callbacks starting from `start`. */
  function After(start: int, ticks: nat): int
  {
    if ticks == 0 then start else Next(After(start, ticks - 1))
  }

  /** A tick never leaves a negative counter and strictly lowers a positive one. */
  lemma NextStep(prev: int)
    ensures Next(prev) >= 0
    ensures prev > 0 ==> Next(prev) < prev
    ensures Expires(prev) <==> Next(prev) == 0
  {
  }

  /** Counting down from `start` loses exactly one per tick until it reaches 0. */
  lemma {:induction false} AfterTicks(start: nat, ticks: nat)
    ensures After(start, ticks) == if ticks < start then start - ticks else 0
  {
    if ticks > 0 {
      AfterTicks(start, ticks - 1);
    }
  }

  /**
   * Started at `start` (at least 1), the expiry branch is taken for the first time by
   * tick number `start`: the callback that runs after `start - 1` earlier ticks.
   */
  lemma ExpiresFirstAtTickStart(start: nat, earlier: nat)
    requires start >= 1
    ensures Expires(After(start, earlier)) <==> earlier >= start - 1
  {
    AfterTicks(start, earlier);
  }
}
