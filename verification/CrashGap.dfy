/** What the no-orphan theorem cannot do without: a handler lost between its write and its Enqueue
    takes the page's next attempt with it, exactly when nobody else holds that task. */
module CrashGap {
  import opened Model
  import opened Nag
  import opened Store
  import opened PagerRules
  import opened Protocol
  import opened ProtocolInvariant
  import opened Frames
  import opened NoOrphan
  import Pager

  /** The handler alone holds the next task of an active page. */
  ghost predicate SoleKeeper(c: Config, pid: nat) {
    && pid in c.procs && Committed(c.procs[pid])
    && var t := Owed(c.procs[pid]);
    && t.pageId in c.store.pages && Active(c.store.pages[t.pageId].state)
    && t.pageId in c.hist.high && t.attempt == c.hist.high[t.pageId] + 1
    && !Queued(c, t)
    && forall other :: other in c.procs && other != pid && Committed(c.procs[other]) ==> Owed(c.procs[other]) != t
  }

  lemma SoleKeeperCrash(c: Config, pid: nat)
    requires SoleKeeper(c, pid)
    ensures !NoneOrphaned(Apply(c, Crash(pid)))
  {
    var d := Apply(c, Crash(pid));
    var t := Owed(c.procs[pid]);
    assert d.procs == c.procs - {pid} && d.queue == c.queue && d.store == c.store && d.hist.high == c.hist.high;
    hide Apply;
    assert !Queued(d, t) && !Promised(d, t);
    assert !Pending(d, t.pageId) by { assert PageTask(t.pageId, d.hist.high[t.pageId] + 1) == t; }
  }

  lemma SharedCrash(c: Config, pid: nat)
    requires NoneOrphaned(c) && pid in c.procs && !SoleKeeper(c, pid)
    ensures NoneOrphaned(Apply(c, Crash(pid)))
  {
    var d := Apply(c, Crash(pid));
    assert d.procs == c.procs - {pid} && d.queue == c.queue && d.store == c.store && d.hist.high == c.hist.high;
    hide Apply;
    forall id | id in d.store.pages && Active(d.store.pages[id].state) ensures id in d.hist.high && Pending(d, id) {
      var t := PageTask(id, c.hist.high[id] + 1);
      assert Pending(c, id);
      if Queued(c, t) {
        var m :| m in c.queue && m.task == t;
        assert m in d.queue;
      } else {
        var q :| q in c.procs && Committed(c.procs[q]) && Owed(c.procs[q]) == t;
        var r := if q != pid then q else
                 var other :|
                   other in c.procs && other != pid && Committed(c.procs[other]) && Owed(c.procs[other]) == t;
                 other;
        assert r in d.procs && Committed(d.procs[r]) && Owed(d.procs[r]) == t;
      }
    }
  }

  /** A crash orphans a page exactly when the crashed handler alone held its next task. */
  lemma CrashOrphansExactlyWhen(c: Config, pid: nat)
    requires NoneOrphaned(c) && pid in c.procs
    ensures NoneOrphaned(Apply(c, Crash(pid))) <==> !SoleKeeper(c, pid)
  {
    if SoleKeeper(c, pid) { SoleKeeperCrash(c, pid); } else { SharedCrash(c, pid); }
  }

  // ------------------------------------------------------------ from commit to enqueue

  /** A handler in flight that carries a message for the page. */
  predicate CarriesFor(p: Proc, id: string) {
    Carries(p).Some? && Carries(p).value.task.pageId == id
  }

  /** Nobody but the keeper, if there is one, has anything to do with the tasks of a stored page: no
      attempt is recorded, nothing was pushed or enqueued for it by a pager, no message names it, no
      pager carries one, and no other create stored it. */
  ghost predicate Untouched(c: Config, id: string, keeper: Option<nat>) {
    && id in c.store.pages && id in c.hist.high && c.hist.high[id] == -1
    && (c.store.pages[id].state.Created? || c.store.pages[id].state.Delivered? || c.store.pages[id].state.Acked?)
    && (forall e :: e in c.hist.effects ==> e.pageId != id)
    && (forall m :: m in c.queue ==> m.task.pageId != id)
    && (forall q :: q in c.procs ==> !CarriesFor(c.procs[q], id))
    && (forall q :: q in c.procs && c.procs[q].CreateStored? && c.procs[q].page.id == id ==> keeper == Some(q))
  }

  /** The handler has stored the page and not enqueued its first task, and nobody else touched it. */
  ghost predicate FirstTaskHeld(c: Config, pid: nat)
    requires pid in c.procs && c.procs[pid].CreateStored?
  {
    Untouched(c, c.procs[pid].page.id, Some(pid))
  }

  ghost predicate FirstTasksHeld(c: Config) {
    && (forall e :: e in c.hist.effects ==> e.pageId in c.store.pages)
    && forall pid :: pid in c.procs && c.procs[pid].CreateStored? ==> FirstTaskHeld(c, pid)
  }

  /** Nobody has anything to do with a page that is not stored yet. */
  lemma NoneBefore(c: Config, id: string)
    requires Inv(c) && id !in c.store.pages
    ensures forall m :: m in c.queue ==> m.task.pageId != id
    ensures forall q :: q in c.procs ==> !CarriesFor(c.procs[q], id)
    ensures forall q :: q in c.procs && c.procs[q].CreateStored? ==> c.procs[q].page.id != id
  {
    forall m | m in c.queue ensures m.task.pageId != id { assert MsgOK(c, m); }
    forall q | q in c.procs
      ensures !CarriesFor(c.procs[q], id) && (c.procs[q].CreateStored? ==> c.procs[q].page.id != id) {
      Here(c, q);
    }
  }

  /** What a pager carries is for the page it works on, which is stored. */
  lemma CarriedPage(c: Config, pid: nat)
    requires Inv(c) && pid in c.procs
    ensures var p := c.procs[pid];
      && (Committed(p) && !p.CreateStored? ==> CarriesFor(p, Owed(p).pageId))
      && (p.PagerPushing? || p.PagerEnqueuing? || p.PagerRecording? || p.PagerExpiring? ==>
            CarriesFor(p, p.job.page.id) && p.job.page.id in c.store.pages)
  {
    hide MsgOK, PageAdvances;
    Here(c, pid);
  }

  lemma CommitTouchesNot(c: Config, pid: nat)
    requires Inv(c) && FirstTasksHeld(c) && pid in c.procs && c.procs[pid].CreateBuilt?
    requires CreatePage(c.store, c.procs[pid].page).1.Pass?
    ensures Untouched(Count1(DoCreateCommit(c, pid)), c.procs[pid].page.id, Some(pid))
  {
    hide Inv, FirstTaskHeld;
    var page := c.procs[pid].page;
    var d := Count1(DoCreateCommit(c, pid));
    FreshlyBuilt(c, pid);
    NoneBefore(c, page.id);
    assert d.procs == c.procs[pid := CreateStored(page)] && d.queue == c.queue && d.hist.effects == c.hist.effects;
  }

  lemma CommitHolds(c: Config, pid: nat)
    requires Inv(c) && FirstTasksHeld(c) && pid in c.procs && c.procs[pid].CreateBuilt?
    ensures FirstTasksHeld(Count1(DoCreateCommit(c, pid)))
  {
    hide Inv, Untouched, AppendEvent;
    var d := Count1(DoCreateCommit(c, pid));
    var page := c.procs[pid].page;
    if CreatePage(c.store, page).1.Pass? {
      CommitTouchesNot(c, pid);
      assert d.procs == c.procs[pid := CreateStored(page)];
    } else {
      assert d.procs == c.procs[pid := CreateLost(page.idempotencyKey)];
    }
    forall q | q in d.procs && d.procs[q].CreateStored? && q != pid ensures FirstTaskHeld(d, q) {
      assert FirstTaskHeld(c, q);
      CommitSpares(c, pid, c.procs[q].page.id, Some(q));
    }
    CreateCommitFrame(c, pid);
  }

  lemma FreshlyBuilt(c: Config, pid: nat)
    requires Inv(c) && pid in c.procs && c.procs[pid].CreateBuilt?
    ensures c.procs[pid].page.state.Created?
  {
    hide Inv;
    Here(c, pid);
  }

  /** The commit of one page does not touch another. */
  lemma CommitSpares(c: Config, pid: nat, id: string, keeper: Option<nat>)
    requires pid in c.procs && c.procs[pid].CreateBuilt? && Untouched(c, id, keeper) && keeper != Some(pid)
    ensures Untouched(Count1(DoCreateCommit(c, pid)), id, keeper)
  {
    var d := Count1(DoCreateCommit(c, pid));
    var page := c.procs[pid].page;
    assert d.procs == c.procs[pid := CreateStored(page)] || d.procs == c.procs[pid := CreateLost(page.idempotencyKey)];
    assert d.procs[pid].CreateStored? ==> page.id !in c.store.pages;
  }

  /** The messages a step adds are owed by the handler that takes it. */
  lemma NewMessages(c: Config, s: Step, m: Msg)
    requires Enabled(c, s) && m in Apply(c, s).queue && m !in c.queue
    ensures Taker(s).Some? && Taker(s).value in c.procs && Committed(c.procs[Taker(s).value])
    ensures !s.Crash? && m.task == Owed(c.procs[Taker(s).value])
  {
    StepFrame(c, s);
    hide Frame, DoPagerFinish, FollowUp;
    if s.PagerFinish? { FinishAddsNothing(c, s.pid, s.deleted); }
  }

  lemma FinishAddsNothing(c: Config, pid: nat, deleted: bool)
    requires pid in c.procs && c.procs[pid].PagerDone?
    ensures forall m :: m in DoPagerFinish(c, pid, deleted).queue ==> m in c.queue
  {
  }

  /** The effects a step adds are for the page of the pager that takes it. */
  lemma NewEffects(c: Config, s: Step, e: Effect)
    requires Enabled(c, s) && e in Apply(c, s).hist.effects && e !in c.hist.effects
    ensures (s.PagerSend? || s.PagerEnqueue?) && s.pid in c.procs
    ensures (c.procs[s.pid].PagerPushing? || c.procs[s.pid].PagerEnqueuing?) && e.pageId == c.procs[s.pid].job.page.id
  {
    StepFrame(c, s);
    hide Frame, FollowUp, AfterSend, NextMsg;
  }

  /** A step not taken by the keeper leaves an untouched page untouched. */
  lemma OthersLeaveIt(c: Config, s: Step, id: string, keeper: Option<nat>)
    requires Inv(c) && Enabled(c, s) && Untouched(c, id, keeper) && (keeper.Some? ==> Taker(s) != keeper)
    ensures Untouched(Apply(c, s), id, keeper)
  {
    hide Inv, Enabled, Apply, DoCreateCommit, Count1;
    if s.CreateCommit? {
      WritersApply(c, s);
      CommitSpares(c, s.pid, id, keeper);
    } else {
      PageSpared(c, s, id, keeper);
      TasksSpared(c, s, id, keeper);
    }
  }

  /** The page itself moves by acks and receipts only. */
  lemma PageSpared(c: Config, s: Step, id: string, keeper: Option<nat>)
    requires Inv(c) && Enabled(c, s) && Untouched(c, id, keeper) && !s.CreateCommit?
    ensures var d := Apply(c, s);
      && id in d.store.pages && id in d.hist.high && d.hist.high[id] == -1
      && (d.store.pages[id].state.Created? || d.store.pages[id].state.Delivered? || d.store.pages[id].state.Acked?)
  {
    hide Inv, Enabled, Apply, DoAckCommit, DoReceiptCommit, DoPagerExpire, DoPagerRecord, Count1;
    StepFrame(c, s);
    WritersApply(c, s);
    if s.AckCommit? {
      AckMoves(c, s.pid, id);
    } else if s.ReceiptCommit? {
      ReceiptMoves(c, s.pid, id);
    } else if s.PagerExpire? {
      CarriedPage(c, s.pid);
      ExpireMovesNot(c, s.pid, id);
    } else if s.PagerRecord? {
      CarriedPage(c, s.pid);
      RecordMovesNot(c, s.pid, id);
    }
  }

  lemma AckMoves(c: Config, pid: nat, id: string)
    requires pid in c.procs && c.procs[pid].AckTimed? && id in c.store.pages
    ensures var d := Count1(DoAckCommit(c, pid));
      id in d.store.pages && (d.store.pages[id] == c.store.pages[id] || d.store.pages[id].state.Acked?)
  {
  }

  lemma ReceiptMoves(c: Config, pid: nat, id: string)
    requires pid in c.procs && c.procs[pid].ReceiptLoaded? && id in c.store.pages
    ensures var d := Count1(DoReceiptCommit(c, pid));
      id in d.store.pages && (d.store.pages[id] == c.store.pages[id] || d.store.pages[id].state.Delivered?)
  {
  }

  lemma ExpireMovesNot(c: Config, pid: nat, id: string)
    requires pid in c.procs && c.procs[pid].PagerExpiring? && id in c.store.pages && c.procs[pid].job.page.id != id
    ensures var d := Count1(DoPagerExpire(c, pid)); id in d.store.pages && d.store.pages[id] == c.store.pages[id]
  {
  }

  lemma RecordMovesNot(c: Config, pid: nat, id: string)
    requires pid in c.procs && c.procs[pid].PagerRecording? && c.procs[pid].round < |ROUNDS| && id in c.store.pages
    requires id in c.hist.high && c.procs[pid].job.page.id != id
    ensures var d := Count1(DoPagerRecord(c, pid));
      && id in d.store.pages && d.store.pages[id] == c.store.pages[id]
      && id in d.hist.high && d.hist.high[id] == c.hist.high[id]
  {
  }

  lemma TasksSpared(c: Config, s: Step, id: string, keeper: Option<nat>)
    requires Inv(c) && Enabled(c, s) && Untouched(c, id, keeper) && !s.CreateCommit?
      && (keeper.Some? ==> Taker(s) != keeper)
    ensures var d := Apply(c, s);
      && (forall e :: e in d.hist.effects ==> e.pageId != id)
      && (forall m :: m in d.queue ==> m.task.pageId != id)
      && (forall q :: q in d.procs ==> !CarriesFor(d.procs[q], id))
      && (forall q :: q in d.procs && d.procs[q].CreateStored? && d.procs[q].page.id == id ==> keeper == Some(q))
  {
    hide Inv, Enabled, Apply, Frame, Arrives;
    var d := Apply(c, s);
    StepFrame(c, s);
    forall e | e in d.hist.effects ensures e.pageId != id {
      if e !in c.hist.effects { NewEffects(c, s, e); CarriedPage(c, s.pid); }
    }
    forall m | m in d.queue ensures m.task.pageId != id {
      if m !in c.queue { NewMessages(c, s, m); CarriedPage(c, Taker(s).value); }
    }
    forall q | q in d.procs
      ensures !CarriesFor(d.procs[q], id)
        && (d.procs[q].CreateStored? && d.procs[q].page.id == id ==> keeper == Some(q))
    {
      if Taker(s) == Some(q) { TakerSpares(c, s, q, id); } else { OthersStay(c, s, d, q); }
    }
  }

  lemma TakerSpares(c: Config, s: Step, q: nat, id: string)
    requires Enabled(c, s) && !s.CreateCommit? && Taker(s) == Some(q) && q in Apply(c, s).procs
    requires Frame(c, s, Apply(c, s))
    requires forall m :: m in c.queue ==> m.task.pageId != id
    requires forall p :: p in c.procs ==> !CarriesFor(c.procs[p], id)
    ensures !CarriesFor(Apply(c, s).procs[q], id) && !Apply(c, s).procs[q].CreateStored?
  {
    hide Apply, ListsDevices;
  }

  lemma StillCreating(c: Config, s: Step, q: nat)
    requires Enabled(c, s) && !s.CreateCommit? && q in Apply(c, s).procs && Apply(c, s).procs[q].CreateStored?
    ensures Taker(s) != Some(q) && q in c.procs && c.procs[q] == Apply(c, s).procs[q]
  {
    hide Enabled, Apply;
    StepFrame(c, s);
    if Taker(s) != Some(q) { OthersStay(c, s, Apply(c, s), q); }
  }

  lemma EffectsHavePages(c: Config, s: Step)
    requires Inv(c) && Enabled(c, s) && forall e :: e in c.hist.effects ==> e.pageId in c.store.pages
    ensures forall e :: e in Apply(c, s).hist.effects ==> e.pageId in Apply(c, s).store.pages
  {
    hide Inv, Enabled, Apply;
    StepFrame(c, s);
    forall e | e in Apply(c, s).hist.effects ensures e.pageId in c.store.pages {
      if e !in c.hist.effects { NewEffects(c, s, e); CarriedPage(c, s.pid); }
    }
  }

  lemma StepHolds(c: Config, s: Step)
    requires Inv(c) && FirstTasksHeld(c) && Enabled(c, s)
    ensures FirstTasksHeld(Apply(c, s))
  {
    hide Inv, Enabled, Apply, Untouched, DoCreateCommit, Count1;
    if s.CreateCommit? {
      WritersApply(c, s);
      CommitHolds(c, s.pid);
    } else {
      EffectsHavePages(c, s);
      forall q | q in Apply(c, s).procs && Apply(c, s).procs[q].CreateStored? ensures FirstTaskHeld(Apply(c, s), q) {
        StillCreating(c, s, q);
        assert FirstTaskHeld(c, q);
        OthersLeaveIt(c, s, c.procs[q].page.id, Some(q));
      }
    }
  }

  lemma {:induction false} RunHolds(cs: seq<Config>, steps: seq<Step>, i: nat)
    requires Run(cs, steps) && i < |cs|
    ensures FirstTasksHeld(cs[i])
  {
    hide Inv, Enabled, Apply, Untouched;
    if i > 0 {
      RunHolds(cs, steps, i - 1);
      Reachable(cs, steps, i - 1);
      StepHolds(cs[i - 1], steps[i - 1]);
    }
  }

  /** From the commit of a page to the Enqueue of its first task, at every moment of every run, the
      API handler is the only one that holds that task: no attempt of the page is recorded, no
      message names it, no pager carries one, no other handler owes one. While the page is active
      the handler is its sole keeper. */
  lemma FreshCommitIsSole(cs: seq<Config>, steps: seq<Step>, i: nat, pid: nat)
    requires Run(cs, steps) && i < |cs| && pid in cs[i].procs && cs[i].procs[pid].CreateStored?
    ensures Untouched(cs[i], cs[i].procs[pid].page.id, Some(pid))
    ensures forall q :: q in cs[i].procs && q != pid && Committed(cs[i].procs[q]) ==>
        Owed(cs[i].procs[q]).pageId != cs[i].procs[pid].page.id
    ensures Active(cs[i].store.pages[cs[i].procs[pid].page.id].state) <==> SoleKeeper(cs[i], pid)
  {
    hide Run, Inv;
    RunHolds(cs, steps, i);
    Reachable(cs, steps, i);
    assert FirstTaskHeld(cs[i], pid);
    forall q | q in cs[i].procs && q != pid && Committed(cs[i].procs[q])
      ensures Owed(cs[i].procs[q]).pageId != cs[i].procs[pid].page.id {
      CarriedPage(cs[i], q);
    }
  }

  lemma CrashLeaves(c: Config, pid: nat)
    requires pid in c.procs && c.procs[pid].CreateStored? && Untouched(c, c.procs[pid].page.id, Some(pid))
    ensures Enabled(c, Crash(pid)) && Untouched(Apply(c, Crash(pid)), c.procs[pid].page.id, None)
  {
  }

  /** An untouched page without a keeper stays untouched for ever. */
  lemma {:induction false} RunSpares(cs: seq<Config>, steps: seq<Step>, i: nat, j: nat, id: string)
    requires Run(cs, steps) && i <= j < |cs| && Untouched(cs[i], id, None)
    ensures Untouched(cs[j], id, None)
    decreases j
  {
    hide Inv, Enabled, Apply, Untouched;
    if i < j {
      RunSpares(cs, steps, i, j - 1, id);
      Reachable(cs, steps, j - 1);
      OthersLeaveIt(cs[j - 1], steps[j - 1], id, None);
    }
  }

  /** An orphan is one for ever: after the API handler is lost between the commit of a page and the
      Enqueue of its first task, at every later moment of the run no message names the page, no
      pager carries one, no handler owes one, nothing was ever pushed or enqueued for it by a pager,
      no attempt is recorded, and it is acknowledged or still active, never expired. */
  lemma OrphanIsForEver(cs: seq<Config>, steps: seq<Step>, i: nat, j: nat)
    requires Run(cs, steps) && i < j < |cs| && steps[i].Crash?
    requires steps[i].pid in cs[i].procs && cs[i].procs[steps[i].pid].CreateStored?
    ensures var id := cs[i].procs[steps[i].pid].page.id; var c := cs[j];
      && Untouched(c, id, None)
      && (forall q :: q in c.procs && Committed(c.procs[q]) ==> Owed(c.procs[q]).pageId != id)
      && c.store.pages[id].attempt == -1
      && (Active(c.store.pages[id].state) || c.store.pages[id].state.Acked?)
  {
    hide Inv, Enabled, Apply, Untouched;
    var pid := steps[i].pid;
    var id := cs[i].procs[pid].page.id;
    FreshCommitIsSole(cs, steps, i, pid);
    CrashLeaves(cs[i], pid);
    assert steps[i] == Crash(pid);
    RunSpares(cs, steps, i + 1, j, id);
    Reachable(cs, steps, j);
    UntouchedMeans(cs[j], id);
  }

  lemma UntouchedMeans(c: Config, id: string)
    requires Inv(c) && Untouched(c, id, None)
    ensures id in c.store.pages && c.store.pages[id].attempt == -1
    ensures Active(c.store.pages[id].state) || c.store.pages[id].state.Acked?
    ensures forall q :: q in c.procs && Committed(c.procs[q]) ==> Owed(c.procs[q]).pageId != id
  {
    hide Inv;
    SnapshotNow(c, id);
    forall q | q in c.procs && Committed(c.procs[q]) ensures Owed(c.procs[q]).pageId != id { CarriedPage(c, q); }
  }

  // ------------------------------------------------------------ the pager's version

  /** A delivery that sends nothing and enqueues nothing. */
  predicate Inert(s: State, task: PageTask, env: Pager.Env) {
    !Pager.Pushes(s, task, env) && Pager.Handle(s, task, env).next.None?
  }

  /** When no call fails on the way, a task of the schedule is inert exactly when its page is gone
      or terminal, or past its expiry, or has an attempt no lower than the task's. */
  lemma InertExactlyWhen(s: State, task: PageTask, env: Pager.Env)
    requires 0 <= task.attempt < |DELAYS|
    requires {Pager.LoadCall, Pager.ListCall, Pager.SenderCall, Pager.RecordCall, Pager.EnqueueCall} !! env.faults
    ensures Inert(s, task, env) <==>
              || task.pageId !in s.pages || !Active(s.pages[task.pageId].state)
              || env.now > s.pages[task.pageId].expiresAt
              || s.pages[task.pageId].attempt >= task.attempt
  {
    hide DevicesOf, Pager.AfterPush;
  }

  /** When the Enqueue of the next task fails, the record is reported and redelivered, but by then
      the attempt is recorded: the redelivery, at whatever later time and however the page moved
      on, is inert exactly when the page is terminal, or past its expiry, or has not lost that
      attempt. It has lost it only after a stale write. */
  lemma FailedEnqueueEndsTheNag(s: State, task: PageTask, env: Pager.Env, later: State, env2: Pager.Env)
    requires Filed(s) && Pager.Due(s, task, env) && 0 <= task.attempt < |DELAYS|
    requires {Pager.ListCall, Pager.SenderCall, Pager.RecordCall} !! env.faults && Pager.EnqueueCall in env.faults
    requires {Pager.LoadCall, Pager.ListCall, Pager.SenderCall, Pager.RecordCall, Pager.EnqueueCall} !! env2.faults
    requires PagesAdvance(Pager.Handle(s, task, env).store, later)
    ensures Pager.Handle(s, task, env).failed && Pager.Handle(s, task, env).next.None?
    ensures task.pageId in later.pages
    ensures var page := Pager.Handle(s, task, env).store.pages[task.pageId];
      Active(page.state) && page.attempt == task.attempt
    ensures Inert(later, task, env2) <==>
              || !Active(later.pages[task.pageId].state)
              || env2.now > later.pages[task.pageId].expiresAt
              || later.pages[task.pageId].attempt >= Pager.Handle(s, task, env).store.pages[task.pageId].attempt
  {
    hide Inert, Pager.Handle;
    AttemptSurvives(s, task, env);
    InertExactlyWhen(later, task, env2);
  }

  lemma AttemptSurvives(s: State, task: PageTask, env: Pager.Env)
    requires Filed(s) && Pager.Due(s, task, env) && 0 <= task.attempt < |DELAYS|
    requires {Pager.ListCall, Pager.SenderCall, Pager.RecordCall} !! env.faults && Pager.EnqueueCall in env.faults
    ensures var h := Pager.Handle(s, task, env);
      && h.failed && h.next.None? && task.pageId in h.store.pages
      && Active(h.store.pages[task.pageId].state) && h.store.pages[task.pageId].attempt == task.attempt
  {
    hide DevicesOf;
    Pager.FiledPage(s, task.pageId);
    Pager.AfterPushKeepsPages(s, s.pages[task.pageId], env);
  }
}
