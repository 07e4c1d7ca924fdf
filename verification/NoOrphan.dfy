/** No orphaned page: under free interleaving, as long as no handler is lost between recording an
    attempt (or creating the page) and enqueuing the next one, every active page has its next
    attempt queued or about to be enqueued. */
module NoOrphan {
  import opened Model
  import opened Nag
  import opened Store
  import opened PagerRules
  import opened Protocol
  import opened ProtocolInvariant
  import opened Frames

  ghost predicate Queued(c: Config, t: PageTask) {
    exists m :: m in c.queue && m.task == t
  }

  ghost predicate Promised(c: Config, t: PageTask) {
    exists pid :: pid in c.procs && Committed(c.procs[pid]) && Owed(c.procs[pid]) == t
  }

  /** The attempt after the highest one ever recorded is queued (a delivered message stays queued
      until its handler is done with it) or about to be. */
  ghost predicate Pending(c: Config, id: string)
    requires id in c.hist.high
  {
    var t := PageTask(id, c.hist.high[id] + 1);
    Queued(c, t) || Promised(c, t)
  }

  ghost predicate NoneOrphaned(c: Config) {
    forall id :: id in c.store.pages && Active(c.store.pages[id].state) ==> id in c.hist.high && Pending(c, id)
  }

  /** The assumption: no committed handler crashes. A failing Enqueue counts as such a crash,
      because the redelivered message is then dropped as a duplicate. */
  ghost predicate LosesNothing(c: Config, s: Step) {
    s.Crash? ==> s.pid in c.procs && !Committed(c.procs[s.pid])
  }

  ghost predicate RunLosesNothing(cs: seq<Config>, steps: seq<Step>)
    requires |cs| == |steps| + 1
  {
    forall i :: 0 <= i < |steps| ==> LosesNothing(cs[i], steps[i])
  }

  /** A step that takes nothing away: messages and committed handlers stay as they are, no attempt
      is recorded, no page becomes active. */
  ghost predicate TakesNothing(c: Config, d: Config) {
    && (forall m :: m in c.queue ==> m in d.queue)
    && (forall pid :: pid in c.procs && Committed(c.procs[pid]) ==> pid in d.procs && d.procs[pid] == c.procs[pid])
    && d.hist.high == c.hist.high
    && d.store.pages.Keys == c.store.pages.Keys
  }

  lemma TakesNothingKeeps(c: Config, d: Config)
    requires NoneOrphaned(c) && TakesNothing(c, d) && Grows(c, d)
    ensures NoneOrphaned(d)
  {
    forall id | id in d.store.pages && Active(d.store.pages[id].state) ensures id in d.hist.high && Pending(d, id) {
      assert PageAdvances(c.store.pages[id], d.store.pages[id]);
      assert Pending(c, id);
      PendingKept(c, d, PageTask(id, c.hist.high[id] + 1));
    }
  }

  lemma PendingKept(c: Config, d: Config, t: PageTask)
    requires TakesNothing(c, d) && (Queued(c, t) || Promised(c, t))
    ensures Queued(d, t) || Promised(d, t)
  {
  }

  /** The steps that neither record, nor create, nor enqueue, nor delete a message. */
  predicate Plain(s: Step) {
    !s.CreateCommit? && !s.CreateEnqueue? && !s.PagerRecord? && !s.PagerPushEvent? && !s.PagerEnqueue?
      && !s.PagerFinish?
  }

  /** Whoever is committed moves on by one of four steps only. */
  lemma CommittedMoves(c: Config, s: Step)
    requires Enabled(c, s) && Taker(s).Some? && Taker(s).value in c.procs && Committed(c.procs[Taker(s).value])
    ensures s.CreateEnqueue? || s.PagerPushEvent? || s.PagerEnqueue? || s.Crash?
  {
    hide ListsDevices;
  }

  lemma PlainTakesNothing(c: Config, s: Step)
    requires Enabled(c, s) && Plain(s) && LosesNothing(c, s)
    ensures TakesNothing(c, Apply(c, s))
  {
    hide Enabled, Apply;
    var d := Apply(c, s);
    StepFrame(c, s);
    forall q | q in c.procs && Committed(c.procs[q]) ensures q in d.procs && d.procs[q] == c.procs[q] {
      if Taker(s) == Some(q) { CommittedMoves(c, s); }
      OthersStay(c, s, d, q);
    }
  }

  lemma PlainKeeps(c: Config, s: Step)
    requires Enabled(c, s) && Plain(s) && LosesNothing(c, s) && NoneOrphaned(c) && Grows(c, Apply(c, s))
    ensures NoneOrphaned(Apply(c, s))
  {
    hide Apply, Enabled, TakesNothing, NoneOrphaned, Grows, LosesNothing;
    PlainTakesNothing(c, s);
    TakesNothingKeeps(c, Apply(c, s));
  }

  /** One handler moves, everything else stays. */
  lemma OneHandlerMoves(c: Config, d: Config, pid: nat, t: PageTask)
    requires forall m :: m in c.queue ==> m in d.queue
    requires forall q :: q in c.procs && q != pid ==> q in d.procs && d.procs[q] == c.procs[q]
    requires Queued(c, t) || Promised(c, t)
    requires pid in c.procs && Committed(c.procs[pid]) ==>
               || (pid in d.procs && Committed(d.procs[pid]) && Owed(d.procs[pid]) == Owed(c.procs[pid]))
               || Queued(d, Owed(c.procs[pid]))
    ensures Queued(d, t) || Promised(d, t)
  {
  }

  lemma CreateCommitPends(c: Config, pid: nat)
    requires pid in c.procs && c.procs[pid].CreateBuilt? && NoneOrphaned(c)
    requires Grows(c, Count1(DoCreateCommit(c, pid)))
    ensures NoneOrphaned(Count1(DoCreateCommit(c, pid)))
  {
    var d := Count1(DoCreateCommit(c, pid));
    var page := c.procs[pid].page;
    forall id | id in d.store.pages && Active(d.store.pages[id].state) ensures id in d.hist.high && Pending(d, id) {
      if id in c.store.pages {
        assert PageAdvances(c.store.pages[id], d.store.pages[id]);
        assert d.hist.high[id] == c.hist.high[id];
        OneHandlerMoves(c, d, pid, PageTask(id, c.hist.high[id] + 1));
      } else {
        assert pid in d.procs && Committed(d.procs[pid]) && Owed(d.procs[pid]) == PageTask(id, 0);
      }
    }
  }

  lemma CreateEnqueuePends(c: Config, pid: nat)
    requires pid in c.procs && c.procs[pid].CreateStored? && NoneOrphaned(c)
    ensures NoneOrphaned(Count1(DoCreateEnqueue(c, pid)))
  {
    var d := Count1(DoCreateEnqueue(c, pid));
    var msg := Msg(PageTask(c.procs[pid].page.id, 0), c.now);
    assert msg in d.queue && msg.task == Owed(c.procs[pid]);
    forall id | id in d.store.pages && Active(d.store.pages[id].state) ensures id in d.hist.high && Pending(d, id) {
      OneHandlerMoves(c, d, pid, PageTask(id, c.hist.high[id] + 1));
    }
  }

  /** Recording attempt k either leaves the highest attempt of every page alone or makes it k, and
      the recording handler now owes attempt k + 1. */
  lemma RecordOutcome(c: Config, pid: nat, id: string)
    requires pid in c.procs && c.procs[pid].PagerRecording? && c.procs[pid].round < |ROUNDS| && id in c.hist.high
    ensures var d := Count1(DoPagerRecord(c, pid)); var p := c.procs[pid];
      && id in d.hist.high
      && (d.hist.high[id] == c.hist.high[id]
          || (id == p.job.page.id && d.hist.high[id] == p.job.m.task.attempt
              && pid in d.procs && d.procs[pid] == PagerRecorded(p.job, true)))
  {
    hide SetPageState;
  }

  lemma PagerRecordPends(c: Config, pid: nat)
    requires pid in c.procs && c.procs[pid].PagerRecording? && c.procs[pid].round < |ROUNDS| && NoneOrphaned(c)
    requires Grows(c, Count1(DoPagerRecord(c, pid)))
    ensures NoneOrphaned(Count1(DoPagerRecord(c, pid)))
  {
    hide DoPagerRecord, Count1;
    var d := Count1(DoPagerRecord(c, pid));
    var p := c.procs[pid];
    PagerRecordFrame(c, pid);
    forall id | id in d.store.pages && Active(d.store.pages[id].state) ensures id in d.hist.high && Pending(d, id) {
      assert id in c.store.pages && PageAdvances(c.store.pages[id], d.store.pages[id]);
      RecordOutcome(c, pid, id);
      if d.hist.high[id] == c.hist.high[id] {
        OneHandlerMoves(c, d, pid, PageTask(id, c.hist.high[id] + 1));
      } else {
        assert pid in d.procs && Committed(d.procs[pid]) && Owed(d.procs[pid]) == PageTask(id, d.hist.high[id] + 1);
      }
    }
  }

  lemma PagerPushEventPends(c: Config, pid: nat, stored: bool)
    requires pid in c.procs && c.procs[pid].PagerRecorded? && NoneOrphaned(c)
    ensures NoneOrphaned(Count1(DoPagerPushEvent(c, pid, stored)))
  {
    var d := Count1(DoPagerPushEvent(c, pid, stored));
    forall id | id in d.store.pages && Active(d.store.pages[id].state) ensures id in d.hist.high && Pending(d, id) {
      OneHandlerMoves(c, d, pid, PageTask(id, c.hist.high[id] + 1));
    }
  }

  lemma PagerEnqueuePends(c: Config, pid: nat)
    requires pid in c.procs && c.procs[pid].PagerEnqueuing? && NoneOrphaned(c)
    requires ProcOK(c, c.procs[pid]) && Grows(c, c)
    ensures NoneOrphaned(Count1(DoPagerEnqueue(c, pid)))
  {
    var d := Count1(DoPagerEnqueue(c, pid));
    PagerEnqueueOK(c, c, c.procs[pid]);
    hide ProcOK, Grows, MsgOK, FollowUp, NextDelay;
    var job := c.procs[pid].job;
    var msg := NextMsg(c.now, job, FollowUp(job.m.task.attempt, job.at, job.page.expiresAt).value);
    assert msg in d.queue && msg.task == Owed(c.procs[pid]);
    forall id | id in d.store.pages && Active(d.store.pages[id].state) ensures id in d.hist.high && Pending(d, id) {
      OneHandlerMoves(c, d, pid, PageTask(id, c.hist.high[id] + 1));
    }
  }

  /** The message a pager deletes is never the one an active page waits for. */
  lemma PagerFinishPends(c: Config, pid: nat, deleted: bool)
    requires pid in c.procs && c.procs[pid].PagerDone? && NoneOrphaned(c)
    requires ProcOK(c, c.procs[pid])
    ensures NoneOrphaned(Count1(DoPagerFinish(c, pid, deleted)))
  {
    hide MsgOK;
    var d := Count1(DoPagerFinish(c, pid, deleted));
    var gone := c.procs[pid].m;
    forall id | id in d.store.pages && Active(d.store.pages[id].state) ensures id in d.hist.high && Pending(d, id) {
      var t := PageTask(id, c.hist.high[id] + 1);
      assert Pending(c, id);
      if Queued(c, t) {
        var m :| m in c.queue && m.task == t;
        assert m != gone;
        assert m in d.queue;
      } else {
        var q :| q in c.procs && Committed(c.procs[q]) && Owed(c.procs[q]) == t;
        assert q in d.procs && Committed(d.procs[q]) && Owed(d.procs[q]) == t;
      }
    }
  }

  lemma StepOrphansNone(c: Config, s: Step)
    requires Inv(c) && Enabled(c, s) && LosesNothing(c, s) && NoneOrphaned(c)
    ensures NoneOrphaned(Apply(c, s))
  {
    hide Inv, Enabled, Apply, NoneOrphaned, LosesNothing, Grows;
    if Plain(s) {
      StepGrows(c, s);
      PlainKeeps(c, s);
    } else if s.CreateCommit? || s.CreateEnqueue? || s.PagerRecord? {
      WriterOrphansNone(c, s);
    } else {
      CommittedOrphansNone(c, s);
    }
  }

  lemma WriterOrphansNone(c: Config, s: Step)
    requires Inv(c) && Enabled(c, s) && NoneOrphaned(c) && (s.CreateCommit? || s.CreateEnqueue? || s.PagerRecord?)
    ensures NoneOrphaned(Apply(c, s))
  {
    hide Inv, ProcOK, NoneOrphaned, LosesNothing, ListsDevices, Grows, Count1, Goto, Leave, DoIssueInvite,
      DoRedeemInvite, DoCreateBegin, DoCreateBuild, DoCreateCommit, DoCreateLookup, DoCreateEnqueue, DoAckCommit,
      DoAckEvent, DoAckReread, DoReceiptCommit, DoReceiptEvent, DoPagerLoad, DoPagerClock, DoPagerExpire,
      DoPagerExpireEvent, DoPagerList, DoPagerNoDevicesEvent, DoPagerSend, DoPagerPrune, DoPagerRecord,
      DoPagerPushEvent, DoPagerEnqueue, DoPagerFinish;
    StepGrows(c, s);
    match s
    case CreateCommit(pid) => CreateCommitPends(c, pid);
    case CreateEnqueue(pid) => CreateEnqueuePends(c, pid);
    case PagerRecord(pid) => PagerRecordPends(c, pid);
  }

  lemma CommittedOrphansNone(c: Config, s: Step)
    requires Inv(c) && Enabled(c, s) && NoneOrphaned(c) && (s.PagerPushEvent? || s.PagerEnqueue? || s.PagerFinish?)
    ensures NoneOrphaned(Apply(c, s))
  {
    hide Inv, ProcOK, NoneOrphaned, LosesNothing, ListsDevices, Grows, Count1, Goto, Leave, DoIssueInvite,
      DoRedeemInvite, DoCreateBegin, DoCreateBuild, DoCreateCommit, DoCreateLookup, DoCreateEnqueue, DoAckCommit,
      DoAckEvent, DoAckReread, DoReceiptCommit, DoReceiptEvent, DoPagerLoad, DoPagerClock, DoPagerExpire,
      DoPagerExpireEvent, DoPagerList, DoPagerNoDevicesEvent, DoPagerSend, DoPagerPrune, DoPagerRecord,
      DoPagerPushEvent, DoPagerEnqueue, DoPagerFinish;
    match s
    case PagerPushEvent(pid, stored) => PagerPushEventPends(c, pid, stored);
    case PagerEnqueue(pid) => Here(c, pid); GrowsReflexive(c); PagerEnqueuePends(c, pid);
    case PagerFinish(pid, deleted) => Here(c, pid); PagerFinishPends(c, pid, deleted);
  }

  lemma StepGrows(c: Config, s: Step)
    requires Inv(c) && Enabled(c, s)
    ensures Grows(c, Apply(c, s))
  {
    hide Inv, Grows, Enabled, Apply;
    StepKeeps(c, s);
  }

  /** In a run that loses no committed handler, at every moment every active page has an attempt
      number no higher than the highest one recorded, and the attempt after that is queued, being
      handled, or about to be enqueued, despite duplicates, reordering and stale receipts. */
  lemma {:induction false} NoOrphanedPage(cs: seq<Config>, steps: seq<Step>, i: nat)
    requires Run(cs, steps) && RunLosesNothing(cs, steps) && i < |cs|
    ensures NoneOrphaned(cs[i])
    ensures forall id :: id in cs[i].store.pages && Active(cs[i].store.pages[id].state) ==>
              id in cs[i].hist.high && cs[i].store.pages[id].attempt <= cs[i].hist.high[id]
  {
    hide Inv, Enabled, Effects;
    if i > 0 {
      NoOrphanedPage(cs, steps, i - 1);
      Reachable(cs, steps, i - 1);
      StepOrphansNone(cs[i - 1], steps[i - 1]);
    }
    Reachable(cs, steps, i);
    forall id | id in cs[i].store.pages
      ensures id in cs[i].hist.high && cs[i].store.pages[id].attempt <= cs[i].hist.high[id]
    {
      SnapshotNow(cs[i], id);
    }
  }
}
