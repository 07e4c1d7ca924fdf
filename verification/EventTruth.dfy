/** When the timeline tells the truth under free interleaving. The pager logs "expired" and
    "push_attempt" whether or not its conditional write went through; these are the moments that
    decide. */
module EventTruth {
  import opened Model
  import opened Store
  import opened PagerRules
  import opened Protocol
  import opened ProtocolInvariant
  import opened ProtocolTheorems
  import opened Frames

  // ------------------------------------------------------------ no page is ever cancelled

  ghost predicate NoneCancelled(s: State) {
    forall id :: id in s.pages ==> !s.pages[id].state.Cancelled?
  }

  lemma SetCancelsNone(s: State, id: string, from: seq<PageState>, to: PageState, attempt: int)
    requires NoneCancelled(s) && !to.Cancelled?
    ensures NoneCancelled(SetPageState(s, id, from, to, attempt).0)
  {
  }

  lemma CreateCancelsNone(c: Config, pid: nat)
    requires Inv(c) && NoneCancelled(c.store) && pid in c.procs && c.procs[pid].CreateBuilt?
    ensures NoneCancelled(Count1(DoCreateCommit(c, pid)).store)
  {
    hide Inv;
    Here(c, pid);
  }

  lemma AckCancelsNone(c: Config, pid: nat)
    requires NoneCancelled(c.store) && pid in c.procs && c.procs[pid].AckTimed?
    ensures NoneCancelled(Count1(DoAckCommit(c, pid)).store)
  {
  }

  lemma ReceiptCancelsNone(c: Config, pid: nat)
    requires NoneCancelled(c.store) && pid in c.procs && c.procs[pid].ReceiptLoaded?
    ensures NoneCancelled(Count1(DoReceiptCommit(c, pid)).store)
  {
    hide SetPageState, NoneCancelled;
    var page := c.procs[pid].page;
    SetCancelsNone(c.store, page.id, [Created, Pushed], Delivered, page.attempt);
  }

  lemma ExpireCancelsNone(c: Config, pid: nat)
    requires NoneCancelled(c.store) && pid in c.procs && c.procs[pid].PagerExpiring?
    ensures NoneCancelled(Count1(DoPagerExpire(c, pid)).store)
  {
    hide SetPageState, NoneCancelled;
    var page := c.procs[pid].job.page;
    SetCancelsNone(c.store, page.id, ACTIVE_STATES, Expired, page.attempt);
  }

  lemma RecordCancelsNone(c: Config, pid: nat)
    requires NoneCancelled(c.store) && pid in c.procs && c.procs[pid].PagerRecording? && c.procs[pid].round < |ROUNDS|
    ensures NoneCancelled(Count1(DoPagerRecord(c, pid)).store)
  {
    hide SetPageState, NoneCancelled;
    var p := c.procs[pid];
    SetCancelsNone(c.store, p.job.page.id, ROUNDS[p.round].0, ROUNDS[p.round].1, p.job.m.task.attempt);
  }

  lemma WriterCancelsNone(c: Config, s: Step)
    requires Inv(c) && NoneCancelled(c.store) && Enabled(c, s) && Writer(s)
    ensures NoneCancelled(Apply(c, s).store)
  {
    hide Inv, Enabled, Apply, Count1, NoneCancelled, DoCreateCommit, DoAckCommit, DoReceiptCommit, DoPagerExpire,
      DoPagerRecord;
    WritersApply(c, s);
    match s
    case CreateCommit(pid) => CreateCancelsNone(c, pid);
    case AckCommit(pid) => AckCancelsNone(c, pid);
    case ReceiptCommit(pid) => ReceiptCancelsNone(c, pid);
    case PagerExpire(pid) => ExpireCancelsNone(c, pid);
    case PagerRecord(pid) => RecordCancelsNone(c, pid);
  }

  lemma StepCancelsNone(c: Config, s: Step)
    requires Inv(c) && NoneCancelled(c.store) && Enabled(c, s)
    ensures NoneCancelled(Apply(c, s).store)
  {
    hide Inv, Enabled, Apply;
    if Writer(s) { WriterCancelsNone(c, s); } else { StepFrame(c, s); }
  }

  /** No handler cancels a page: the state exists in the lifecycle only. */
  lemma {:induction false} NothingCancels(cs: seq<Config>, steps: seq<Step>, i: nat)
    requires Run(cs, steps) && i < |cs|
    ensures NoneCancelled(cs[i].store)
  {
    hide Inv, Enabled, Apply;
    if i > 0 {
      NothingCancels(cs, steps, i - 1);
      Reachable(cs, steps, i - 1);
      StepCancelsNone(cs[i - 1], steps[i - 1]);
    }
  }

  // ------------------------------------------------------------ "expired"

  /** A handler that is past its conditional expiry made it at an earlier step. */
  lemma {:induction false} ExpiredOrigin(cs: seq<Config>, steps: seq<Step>, j: nat, pid: nat) returns (i: nat)
    requires Run(cs, steps) && j < |cs| && pid in cs[j].procs && cs[j].procs[pid].PagerExpired?
    ensures i < j && steps[i] == PagerExpire(pid)
    ensures pid in cs[i].procs && cs[i].procs[pid] == PagerExpiring(cs[j].procs[pid].job)
  {
    hide Enabled, Apply, DoPagerExpire, Count1;
    assert j > 0;
    var c, s := cs[j - 1], steps[j - 1];
    StepFrame(c, s);
    if Taker(s) == Some(pid) {
      i := j - 1;
      WritersApply(c, s);
      ExpireMoves(c, pid);
    } else {
      OthersStay(c, s, cs[j], pid);
      i := ExpiredOrigin(cs, steps, j - 1, pid);
    }
  }

  lemma ExpireMoves(c: Config, pid: nat)
    requires pid in c.procs && c.procs[pid].PagerExpiring?
    ensures var d := Count1(DoPagerExpire(c, pid));
      pid in d.procs ==> d.procs[pid] == PagerExpired(c.procs[pid].job)
  {
    hide SetPageState;
  }

  /** The conditional expiry leaves the page expired unless it was acknowledged. */
  lemma ExpireOutcome(c: Config, pid: nat)
    requires Inv(c) && NoneCancelled(c.store) && pid in c.procs && c.procs[pid].PagerExpiring?
    ensures var id := c.procs[pid].job.page.id; var d := Count1(DoPagerExpire(c, pid));
      && id in c.store.pages && id in d.store.pages && !Active(d.store.pages[id].state)
      && (d.store.pages[id].state.Expired? <==> !c.store.pages[id].state.Acked?)
  {
    hide Inv, MsgOK;
    Here(c, pid);
  }

  /** A logged "expired" is true exactly when the page was not acknowledged at the moment of the
      handler's conditional write: then, and only then, the page is expired when the event is
      appended, and ever after. */
  lemma ExpiredLogIsTrueExactly(cs: seq<Config>, steps: seq<Step>, j: nat) returns (i: nat)
    requires Run(cs, steps) && j < |steps| && steps[j].PagerExpireEvent?
    ensures var pid := steps[j].pid;
      && pid in cs[j].procs && cs[j].procs[pid].PagerExpired?
      && i < j && steps[i] == PagerExpire(pid) && pid in cs[i].procs
      && cs[i].procs[pid] == PagerExpiring(cs[j].procs[pid].job)
    ensures var job := cs[j].procs[steps[j].pid].job; var id := job.page.id;
      && id in cs[i].store.pages
      && (steps[j].stored ==>
            Events(cs[j + 1].store, id) == Events(cs[j].store, id) + [PageEvent(id, EvExpired, "", job.at)])
      && forall k :: i < k < |cs| ==>
           id in cs[k].store.pages && (cs[k].store.pages[id].state.Expired? <==> !cs[i].store.pages[id].state.Acked?)
  {
    hide Inv, Enabled, Apply, DoPagerExpire, Count1, NoneCancelled;
    var pid := steps[j].pid;
    LogsExpired(cs[j], steps[j]);
    i := ExpiredOrigin(cs, steps, j, pid);
    var id := cs[i].procs[pid].job.page.id;
    Reachable(cs, steps, i);
    NothingCancels(cs, steps, i);
    WritersApply(cs[i], steps[i]);
    ExpireOutcome(cs[i], pid);
    forall k | i < k < |cs|
      ensures id in cs[k].store.pages && (cs[k].store.pages[id].state.Expired? <==> !cs[i].store.pages[id].state.Acked?)
    {
      ForwardOnly(cs, steps, i + 1, k, id);
    }
  }

  lemma LogsExpired(c: Config, s: Step)
    requires Enabled(c, s) && s.PagerExpireEvent?
    ensures s.pid in c.procs && c.procs[s.pid].PagerExpired?
    ensures var job := c.procs[s.pid].job;
      s.stored ==>
        Events(Apply(c, s).store, job.page.id)
          == Events(c.store, job.page.id) + [PageEvent(job.page.id, EvExpired, "", job.at)]
  {
    hide ListsDevices;
  }

  // ------------------------------------------------------------ "push_attempt"

  /** A handler that is past its conditional writes made the last of them at an earlier step. */
  lemma {:induction false} RecordedOrigin(cs: seq<Config>, steps: seq<Step>, j: nat, pid: nat) returns (i: nat)
    requires Run(cs, steps) && j < |cs| && pid in cs[j].procs && cs[j].procs[pid].PagerRecorded?
    ensures i < j && steps[i] == PagerRecord(pid)
    ensures pid in cs[i].procs && cs[i].procs[pid].PagerRecording? && cs[i].procs[pid].job == cs[j].procs[pid].job
    ensures pid in cs[i + 1].procs && cs[i + 1].procs[pid] == cs[j].procs[pid]
  {
    hide Enabled, Apply, DoPagerRecord, Count1;
    assert j > 0;
    var c, s := cs[j - 1], steps[j - 1];
    StepFrame(c, s);
    if Taker(s) == Some(pid) {
      i := j - 1;
      WritersApply(c, s);
      RecordMoves(c, pid);
    } else {
      OthersStay(c, s, cs[j], pid);
      i := RecordedOrigin(cs, steps, j - 1, pid);
    }
  }

  lemma RecordMoves(c: Config, pid: nat)
    requires pid in c.procs && c.procs[pid].PagerRecording? && c.procs[pid].round < |ROUNDS|
    ensures var d := Count1(DoPagerRecord(c, pid));
      pid in d.procs && d.procs[pid].PagerRecorded? ==> d.procs[pid].job == c.procs[pid].job
  {
    hide SetPageState;
  }

  /** The last write goes through exactly when the page is active at that moment. */
  lemma RecordWon(c: Config, pid: nat)
    requires Inv(c) && pid in c.procs && c.procs[pid].PagerRecording? && c.procs[pid].round < |ROUNDS|
    requires var d := Count1(DoPagerRecord(c, pid)); pid in d.procs && d.procs[pid].PagerRecorded?
    ensures var p := c.procs[pid]; var id := p.job.page.id; var d := Count1(DoPagerRecord(c, pid));
      && id in c.store.pages && id in d.store.pages
      && (d.procs[pid].won <==> Active(c.store.pages[id].state))
      && (d.procs[pid].won ==> Active(d.store.pages[id].state) && d.store.pages[id].attempt == p.job.m.task.attempt)
      && (!d.procs[pid].won ==> d.store.pages[id] == c.store.pages[id])
  {
    hide Inv, DoPagerRecord, Count1;
    RecordStep(c, pid);
    RecordMoves(c, pid);
    RecordedWhenActive(c, pid);
  }

  lemma RecordedWhenActive(c: Config, pid: nat)
    requires pid in c.procs && c.procs[pid].PagerRecording? && c.procs[pid].round < |ROUNDS|
    ensures var d := Count1(DoPagerRecord(c, pid)); var id := c.procs[pid].job.page.id;
      pid in d.procs && d.procs[pid].PagerRecorded? && d.procs[pid].won ==>
        id in c.store.pages && Active(c.store.pages[id].state)
  {
  }

  /** A logged "push_attempt" is true exactly when the page was active at the moment of the
      handler's last conditional write: then the attempt was written, otherwise the page was
      terminal and is for ever as it was. */
  lemma PushLogIsTrueExactly(cs: seq<Config>, steps: seq<Step>, j: nat) returns (i: nat)
    requires Run(cs, steps) && j < |steps| && steps[j].PagerPushEvent?
    ensures var pid := steps[j].pid;
      && pid in cs[j].procs && cs[j].procs[pid].PagerRecorded?
      && i < j && steps[i] == PagerRecord(pid) && pid in cs[i].procs && cs[i].procs[pid].PagerRecording?
      && cs[i].procs[pid].job == cs[j].procs[pid].job
    ensures var p := cs[j].procs[steps[j].pid]; var id := p.job.page.id;
      && id in cs[i].store.pages && id in cs[i + 1].store.pages
      && (steps[j].stored ==>
            Events(cs[j + 1].store, id) == Events(cs[j].store, id) + [PageEvent(id, EvPushAttempt, "", p.job.at)])
      && (p.won <==> Active(cs[i].store.pages[id].state))
      && (p.won ==>
            cs[i + 1].store.pages[id].attempt == p.job.m.task.attempt && Active(cs[i + 1].store.pages[id].state))
      && (!p.won ==> forall k :: i <= k < |cs| ==>
            id in cs[k].store.pages && cs[k].store.pages[id] == cs[i].store.pages[id])
  {
    hide Inv, Enabled, Apply, DoPagerRecord, Count1;
    var pid := steps[j].pid;
    LogsPush(cs[j], steps[j]);
    i := RecordedOrigin(cs, steps, j, pid);
    var id := cs[i].procs[pid].job.page.id;
    Reachable(cs, steps, i);
    WritersApply(cs[i], steps[i]);
    RecordWon(cs[i], pid);
    if !cs[j].procs[pid].won {
      forall k | i <= k < |cs| ensures id in cs[k].store.pages && cs[k].store.pages[id] == cs[i].store.pages[id] {
        ForwardOnly(cs, steps, i, k, id);
      }
    }
  }

  lemma LogsPush(c: Config, s: Step)
    requires Enabled(c, s) && s.PagerPushEvent?
    ensures s.pid in c.procs && c.procs[s.pid].PagerRecorded?
    ensures var job := c.procs[s.pid].job;
      s.stored ==>
        Events(Apply(c, s).store, job.page.id)
          == Events(c.store, job.page.id) + [PageEvent(job.page.id, EvPushAttempt, "", job.at)]
  {
    hide ListsDevices;
  }
}
