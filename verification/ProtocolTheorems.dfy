/** The main results about the protocol, over whole runs. Every one of them holds for fine
    interleavings: no assumption is made on which handlers overlap. */
module ProtocolTheorems {
  import opened Model
  import opened Nag
  import opened Store
  import opened PagerRules
  import opened Protocol
  import opened ProtocolInvariant
  import opened Frames

  /** The step counter is the position in the run, so `load` and `ackStep` are positions too. */
  lemma {:induction false} StepIsPosition(cs: seq<Config>, steps: seq<Step>, i: nat)
    requires Run(cs, steps) && i < |cs|
    ensures cs[i].hist.step == i
  {
    hide Inv, Enabled, Apply;
    if i > 0 {
      StepIsPosition(cs, steps, i - 1);
      StepFrame(cs[i - 1], steps[i - 1]);
    }
  }

  /** Forward-only lifecycle: from any moment of a run to any later one, a page keeps its parties
      and dates, its state never moves back, and a terminal page never changes again. */
  lemma ForwardOnly(cs: seq<Config>, steps: seq<Step>, i: nat, j: nat, id: string)
    requires Run(cs, steps) && i <= j < |cs| && id in cs[i].store.pages
    ensures id in cs[j].store.pages
    ensures var p := cs[i].store.pages[id]; var q := cs[j].store.pages[id];
      && Rank(p.state) <= Rank(q.state)
      && (!Active(p.state) ==> q == p)
      && (p.senderId, p.recipientId, p.message, p.idempotencyKey, p.createdAt, p.expiresAt)
         == (q.senderId, q.recipientId, q.message, q.idempotencyKey, q.createdAt, q.expiresAt)
  {
    hide Run;
    RunGrows(cs, steps, i, j);
    assert PageAdvances(cs[i].store.pages[id], cs[j].store.pages[id]);
  }

  /** An acknowledgement is written once: the time is present exactly on acked pages, and time
      and note are the same at every later moment. */
  lemma AckIsWriteOnce(cs: seq<Config>, steps: seq<Step>, i: nat, j: nat, id: string)
    requires Run(cs, steps) && i <= j < |cs| && id in cs[i].store.pages
    ensures var p := cs[i].store.pages[id];
      && (p.ackedAt.Some? <==> p.state.Acked?)
      && (p.state.Acked? ==> id in cs[j].store.pages && cs[j].store.pages[id] == p)
  {
    hide Run;
    Reachable(cs, steps, i);
    SnapshotNow(cs[i], id);
    ForwardOnly(cs, steps, i, j, id);
  }

  /** Every 200 answer to an ack, whether it won or came second, carries the stored
      acknowledgement, and goes on agreeing with the store for ever. */
  lemma AckRepliesAgree(cs: seq<Config>, steps: seq<Step>, i: nat, j: nat, r: AckReply)
    requires Run(cs, steps) && i <= j < |cs| && r in cs[i].hist.ackReplies
    ensures r.state.Acked? && r.ackedAt.Some?
    ensures r.pageId in cs[j].store.pages
    ensures var q := cs[j].store.pages[r.pageId];
      q.state.Acked? && q.ackedAt == r.ackedAt && q.ackNote == r.note
  {
    hide Run;
    Reachable(cs, steps, i);
    SnapshotNow(cs[i], r.pageId);
    ForwardOnly(cs, steps, i, j, r.pageId);
  }

  /** Nothing is pushed and nothing enqueued by a pager that loaded the page once it was acked:
      whatever was sent or enqueued for it, at whatever later time, had loaded it before. */
  lemma NothingSentAfterAck(cs: seq<Config>, steps: seq<Step>, k: nat, j: nat, e: Effect)
    requires Run(cs, steps) && k < |cs| && j < |cs|
    requires e in cs[j].hist.effects
    requires e.pageId in cs[k].store.pages && cs[k].store.pages[e.pageId].state.Acked?
    ensures e.load < k
  {
    hide Run, PageAdvances;
    Reachable(cs, steps, k);
    Reachable(cs, steps, j);
    SnapshotNow(cs[k], e.pageId);
    StepIsPosition(cs, steps, k);
    StepIsPosition(cs, steps, j);
    if j <= k {
      RunGrows(cs, steps, j, k);
    } else {
      RunGrows(cs, steps, k, j);
    }
  }

  /** Timing: whatever is duplicated or reordered, attempt k of a page is never handled before its
      creation time plus the first k delays of the schedule. */
  lemma NeverEarly(cs: seq<Config>, steps: seq<Step>, i: nat)
    requires Run(cs, steps) && i < |steps| && steps[i].PagerLoad?
    ensures var task := steps[i].m.task;
      && task.pageId in cs[i].store.pages
      && 0 <= task.attempt <= |DELAYS|
      && cs[i].now >= cs[i].store.pages[task.pageId].createdAt + Earliest(task.attempt)
  {
    Reachable(cs, steps, i);
    assert Enabled(cs[i], steps[i]);
    assert MsgOK(cs[i], steps[i].m);
  }

  /** The last scheduled attempt always finds the page past its expiry. */
  lemma LastAttemptExpires(cs: seq<Config>, steps: seq<Step>, i: nat)
    requires Run(cs, steps) && i < |steps| && steps[i].PagerClock?
    requires steps[i].pid in cs[i].procs && cs[i].procs[steps[i].pid].PagerLoaded?
    requires cs[i].procs[steps[i].pid].m.task.attempt >= 10
    ensures cs[i + 1].procs[steps[i].pid].PagerExpiring?
  {
    hide Inv, Enabled, Apply, DoPagerClock, Count1;
    Reachable(cs, steps, i);
    Unfolded(cs[i], steps[i]);
    LateClock(cs[i], steps[i].pid);
  }

  /** The two steps looked at here, by their effects. */
  lemma Unfolded(c: Config, s: Step)
    requires Enabled(c, s)
    ensures s.PagerClock? ==>
      s.pid in c.procs && c.procs[s.pid].PagerLoaded? && Apply(c, s) == Count1(DoPagerClock(c, s.pid))
    ensures s.PagerEnqueue? ==>
      s.pid in c.procs && c.procs[s.pid].PagerEnqueuing? && Apply(c, s) == Count1(DoPagerEnqueue(c, s.pid))
  {
    hide DoPagerClock, DoPagerEnqueue, Count1;
  }

  lemma LateClock(c: Config, pid: nat)
    requires Inv(c) && pid in c.procs && c.procs[pid].PagerLoaded? && c.procs[pid].m.task.attempt >= 10
    ensures var d := Count1(DoPagerClock(c, pid)); pid in d.procs && d.procs[pid].PagerExpiring?
  {
    hide Inv;
    Here(c, pid);
    ScheduleInSeconds(10);
  }

  /** Only attempts 0 to 9 are ever pushed. */
  lemma OnlyTenPushed(cs: seq<Config>, steps: seq<Step>, i: nat)
    requires Run(cs, steps) && i < |steps| && steps[i].PagerSend?
    ensures steps[i].pid in cs[i].procs && cs[i].procs[steps[i].pid].PagerPushing?
    ensures 0 <= cs[i].procs[steps[i].pid].job.m.task.attempt <= 9
  {
    hide Inv, Apply;
    Reachable(cs, steps, i);
    SenderIsInTime(cs[i], steps[i]);
  }

  lemma SenderIsInTime(c: Config, s: Step)
    requires Inv(c) && Enabled(c, s) && s.PagerSend?
    ensures s.pid in c.procs && c.procs[s.pid].PagerPushing? && 0 <= c.procs[s.pid].job.m.task.attempt <= 9
  {
    hide Inv, MsgOK, LoadOK;
    Here(c, s.pid);
  }

  /** Only attempts 0 to 9 are ever recorded. */
  lemma AtMostTenAttempts(cs: seq<Config>, steps: seq<Step>, i: nat, id: string)
    requires Run(cs, steps) && i < |cs| && id in cs[i].store.pages
    ensures -1 <= cs[i].store.pages[id].attempt <= 9
    ensures id in cs[i].hist.high && cs[i].store.pages[id].attempt <= cs[i].hist.high[id] <= 9
  {
    hide Run;
    Reachable(cs, steps, i);
    SnapshotNow(cs[i], id);
  }

  /** Every pager that reaches its enqueue finds a delay in the schedule: the final-tick branch
      and the branch that enqueues nothing are dead for pages the API created. */
  lemma ScheduleNeverExhausted(cs: seq<Config>, steps: seq<Step>, i: nat)
    requires Run(cs, steps) && i < |steps| && steps[i].PagerEnqueue?
    requires steps[i].pid in cs[i].procs && cs[i].procs[steps[i].pid].PagerEnqueuing?
    ensures var job := cs[i].procs[steps[i].pid].job; var k := job.m.task.attempt;
      && 0 <= k <= 9
      && cs[i + 1].queue == cs[i].queue
           + multiset{Msg(PageTask(job.page.id, k + 1), cs[i].now + (Earliest(k + 1) - Earliest(k)))}
  {
    hide Inv, Enabled, Apply, DoPagerEnqueue, Count1;
    Reachable(cs, steps, i);
    Unfolded(cs[i], steps[i]);
    EnqueueFinds(cs[i], steps[i].pid);
  }

  lemma EnqueueFinds(c: Config, pid: nat)
    requires Inv(c) && pid in c.procs && c.procs[pid].PagerEnqueuing?
    ensures var job := c.procs[pid].job; var k := job.m.task.attempt;
      && 0 <= k <= 9
      && Count1(DoPagerEnqueue(c, pid)).queue == c.queue
           + multiset{Msg(PageTask(job.page.id, k + 1), c.now + (Earliest(k + 1) - Earliest(k)))}
  {
    hide Inv, MsgOK, LoadOK, Earliest;
    Here(c, pid);
    ScheduleAdvances(c.procs[pid].job.m.task.attempt);
  }

  /** recordAttempt under interference: each of its writes either succeeds at that instant, sets
      the attempt and does not lower the state, or leaves the page alone; and if the third one
      fails too, then the page is terminal, whatever happened between the three. */
  lemma RecordAttemptUnderInterference(cs: seq<Config>, steps: seq<Step>, i: nat)
    requires Run(cs, steps) && i < |steps| && steps[i].PagerRecord?
    requires steps[i].pid in cs[i].procs && cs[i].procs[steps[i].pid].PagerRecording?
    ensures var p := cs[i].procs[steps[i].pid]; var id := p.job.page.id;
      && id in cs[i].store.pages && id in cs[i + 1].store.pages
      && steps[i].pid in cs[i + 1].procs
      && var before := cs[i].store.pages[id]; var after := cs[i + 1].store.pages[id];
         var q := cs[i + 1].procs[steps[i].pid];
      && (q == PagerRecorded(p.job, true) ==>
            && after == before.(state := after.state, attempt := p.job.m.task.attempt)
            && Active(after.state) && Rank(before.state) <= Rank(after.state))
      && (q != PagerRecorded(p.job, true) ==> after == before)
      && (q == PagerRecorded(p.job, false) ==> !Active(after.state))
      && (q == PagerRecorded(p.job, true) || q == PagerRecorded(p.job, false)
          || (p.round < 2 && q == PagerRecording(p.job, p.round + 1)))
  {
    var pid := steps[i].pid;
    assert Enabled(cs[i], steps[i]) && cs[i + 1] == Apply(cs[i], steps[i]);
    Reachable(cs, steps, i);
    RecordStep(cs[i], pid);
  }

  lemma RecordStep(c: Config, pid: nat)
    requires Inv(c) && pid in c.procs && c.procs[pid].PagerRecording? && c.procs[pid].round < |ROUNDS|
    ensures var p := c.procs[pid]; var id := p.job.page.id; var d := Count1(DoPagerRecord(c, pid));
      && id in c.store.pages && id in d.store.pages && pid in d.procs
      && var before := c.store.pages[id]; var after := d.store.pages[id]; var q := d.procs[pid];
      && (q == PagerRecorded(p.job, true) ==>
            && after == before.(state := after.state, attempt := p.job.m.task.attempt)
            && Active(after.state) && Rank(before.state) <= Rank(after.state))
      && (q != PagerRecorded(p.job, true) ==> after == before)
      && (q == PagerRecorded(p.job, false) ==> !Active(after.state))
      && (q == PagerRecorded(p.job, true) || q == PagerRecorded(p.job, false)
          || (p.round < 2 && q == PagerRecording(p.job, p.round + 1)))
  {
    hide Inv, MsgOK, PageAdvances;
    Here(c, pid);
  }
}
