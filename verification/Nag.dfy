/** The retry schedule (backend/internal/nag/schedule.go) and the arithmetic the
    protocol's bounds rest on. */
module Nag {
  import opened Model

  /** Delays[i] is the wait between attempt i and attempt i+1. */
  const DELAYS: seq<Duration> := [
    30 * SECOND,
    30 * SECOND,
    60 * SECOND,
    2 * MINUTE,
    5 * MINUTE,
    5 * MINUTE,
    5 * MINUTE,
    5 * MINUTE,
    5 * MINUTE,
    5 * MINUTE]

  const EXPIRY: Duration := 30 * MINUTE

  /** The wait before an upcoming attempt, or None when the schedule is exhausted. */
  function NextDelay(nextAttempt: int): Option<Duration> {
    if nextAttempt <= 0 then Some(0)
    else if nextAttempt - 1 >= |DELAYS| then None
    else Some(DELAYS[nextAttempt - 1])
  }

  /** What SQS makes of a delay: DelaySeconds drops the fraction of a second. */
  function WholeSeconds(d: Duration): Duration
    requires d >= 0
  {
    d / SECOND * SECOND
  }

  /** The sum of the waits before attempt k. */
  function Earliest(k: nat): Duration
    requires k <= |DELAYS|
  {
    if k == 0 then 0 else Earliest(k - 1) + DELAYS[k - 1]
  }

  /** When attempt k is due, counted from the creation of its page, and how long a page lives. */
  lemma ScheduleInSeconds(k: nat)
    requires k <= 10
    ensures |DELAYS| == 10
    ensures Earliest(k) == [0, 30, 60, 120, 240, 540, 840, 1140, 1440, 1740, 2040][k] * 1_000_000_000
    ensures EXPIRY == 1800 * 1_000_000_000
  {
    if k > 0 { ScheduleInSeconds(k - 1); }
  }

  /** One step of the chain: an attempt that fires no earlier than Earliest(k) and asks for
      the next one schedules it no earlier than Earliest(k + 1), although SQS truncates. */
  lemma ScheduleAdvances(k: nat)
    requires k < |DELAYS|
    ensures NextDelay(k + 1) == Some(DELAYS[k]) == Some(Earliest(k + 1) - Earliest(k))
    ensures 0 < DELAYS[k] <= 900 * SECOND
    ensures WholeSeconds(DELAYS[k]) == DELAYS[k]
    ensures Earliest(k + 1) == Earliest(k) + DELAYS[k]
  {
  }

  /** The schedule has a delay for attempts up to the tenth and none after, and never speeds up:
      the wait before a later attempt is no shorter than that before an earlier one. */
  lemma DelaysNeverShrink(m: int, n: int)
    requires m <= n
    ensures NextDelay(n).None? <==> n > 10
    ensures NextDelay(n).Some? ==> NextDelay(m).Some? && NextDelay(m).value <= NextDelay(n).value
    ensures NextDelay(n) == Some(0) <==> n <= 0
  {
    if 0 < m && n <= 10 {
      ShrinksNowhere(m - 1, n - 1);
    }
  }

  lemma {:induction false} ShrinksNowhere(i: nat, j: nat)
    requires i <= j < |DELAYS|
    ensures DELAYS[i] <= DELAYS[j]
  {
    if i < j { ShrinksNowhere(i, j - 1); }
  }

  /** What SQS makes of a delay is the longest one of whole seconds that is no longer. */
  lemma WholeSecondsTruncates(d: Duration, n: nat)
    requires d >= 0
    ensures n * 1_000_000_000 <= d <==> n * 1_000_000_000 <= WholeSeconds(d)
    ensures exists s: nat :: WholeSeconds(d) == s * 1_000_000_000
  {
    assert WholeSeconds(d) == (d / SECOND) * 1_000_000_000;
  }

  /** The one attempt of the schedule that cannot fit into the expiry window is the last:
      an attempt k can fire at or before the expiry instant exactly when k <= 9. */
  lemma LastAttemptOvershoots(k: nat)
    requires k <= |DELAYS|
    ensures Earliest(k) <= EXPIRY <==> k <= 9
  {
    ScheduleInSeconds(k);
  }
}
