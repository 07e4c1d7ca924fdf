/** What the pager does by table rather than by control flow: the order of its conditional
    writes and the delay of its next task (backend/cmd/pager/main.go:183-231). */
module PagerRules {
  import opened Model
  import opened Nag

  datatype SendResult = SendOk | SendFailed | SendGone

  const MAX_FINAL_DELAY: Duration := 15 * MINUTE

  /** The three conditional writes that record an attempt without lowering the state. */
  const ROUNDS: seq<(seq<PageState>, PageState)> := [
    ([Created, Pushed], Pushed),
    ([Delivered], Delivered),
    ([Seen], Seen)]

  /** The delay with which the pager enqueues the attempt after `attempt`: the schedule's, or a
      last tick at the expiry boundary, or nothing at all. */
  function FollowUp(attempt: int, at: Time, expiresAt: Time): Option<Duration> {
    match NextDelay(attempt + 1)
    case Some(d) => Some(d)
    case None =>
      if at < expiresAt then
        Some(if expiresAt - at > MAX_FINAL_DELAY then MAX_FINAL_DELAY else expiresAt - at)
      else
        None
  }

  /** The last tick when the schedule is exhausted: within what the queue can delay it fires at the
      expiry instant exactly, and otherwise a quarter of an hour on, but still before it. */
  lemma FinalTick(attempt: int, at: Time, expiresAt: Time)
    requires attempt >= 10
    ensures FollowUp(attempt, at, expiresAt).Some? <==> at < expiresAt
    ensures at < expiresAt ==>
      var tick := at + FollowUp(attempt, at, expiresAt).value;
      at < tick <= expiresAt && (tick == expiresAt || tick == at + 900 * 1_000_000_000)
  {
  }

  /** Which write accepts which state, and what it makes of it. */
  lemma RoundsMeaning(st: PageState)
    ensures |ROUNDS| == 3
    ensures st in ROUNDS[0].0 <==> st.Created? || st.Pushed?
    ensures st in ROUNDS[1].0 <==> st.Delivered?
    ensures st in ROUNDS[2].0 <==> st.Seen?
    ensures ROUNDS[0].1 == Pushed && ROUNDS[1].1 == Delivered && ROUNDS[2].1 == Seen
  {
  }
}
