/** Where a page's state comes from: the four moves the lifecycle knows, and, behind every acknowledged
    page, the ack of its recipient that made it so. */
module Acking {
  import opened Model
  import opened Nag
  import opened Store
  import opened PagerRules
  import opened Protocol
  import opened ProtocolInvariant
  import opened ProtocolTheorems
  import opened Frames

  // ------------------------------------------------------------ the moves of a page

  /** The moves of the lifecycle, each with the step that makes it. */
  predicate Move(p: PageState, q: PageState, s: Step) {
    || (s.PagerRecord? && p == Created && q == Pushed)
    || (s.ReceiptCommit? && p in {Created, Pushed} && q == Delivered)
    || (s.AckCommit? && Active(p) && q == Acked)
    || (s.PagerExpire? && Active(p) && q == Expired)
  }

  ghost predicate StatesMove(s: State, t: State, step: Step) {
    forall id :: id in s.pages ==>
      id in t.pages && (t.pages[id].state == s.pages[id].state || Move(s.pages[id].state, t.pages[id].state, step))
  }

  lemma SetMoves(s: State, id: string, from: seq<PageState>, to: PageState, attempt: int, step: Step)
    requires forall st :: st in from ==> st == to || Move(st, to, step)
    ensures StatesMove(s, SetPageState(s, id, from, to, attempt).0, step)
  {
  }

  lemma CreateMoves(c: Config, pid: nat)
    requires pid in c.procs && c.procs[pid].CreateBuilt?
    ensures StatesMove(c.store, Count1(DoCreateCommit(c, pid)).store, CreateCommit(pid))
  {
  }

  lemma AckMoves(c: Config, pid: nat)
    requires pid in c.procs && c.procs[pid].AckTimed?
    ensures StatesMove(c.store, Count1(DoAckCommit(c, pid)).store, AckCommit(pid))
  {
  }

  lemma ReceiptMoves(c: Config, pid: nat)
    requires pid in c.procs && c.procs[pid].ReceiptLoaded?
    ensures StatesMove(c.store, Count1(DoReceiptCommit(c, pid)).store, ReceiptCommit(pid))
  {
    hide SetPageState;
    var page := c.procs[pid].page;
    SetMoves(c.store, page.id, [Created, Pushed], Delivered, page.attempt, ReceiptCommit(pid));
  }

  lemma ExpireMoves(c: Config, pid: nat)
    requires pid in c.procs && c.procs[pid].PagerExpiring?
    ensures StatesMove(c.store, Count1(DoPagerExpire(c, pid)).store, PagerExpire(pid))
  {
    hide SetPageState;
    var page := c.procs[pid].job.page;
    SetMoves(c.store, page.id, ACTIVE_STATES, Expired, page.attempt, PagerExpire(pid));
  }

  lemma RecordMoves(c: Config, pid: nat)
    requires pid in c.procs && c.procs[pid].PagerRecording? && c.procs[pid].round < |ROUNDS|
    ensures StatesMove(c.store, Count1(DoPagerRecord(c, pid)).store, PagerRecord(pid))
  {
    hide SetPageState;
    var p := c.procs[pid];
    SetMoves(c.store, p.job.page.id, ROUNDS[p.round].0, ROUNDS[p.round].1, p.job.m.task.attempt, PagerRecord(pid));
  }

  /** Whatever step is taken, no page disappears, and a page whose state changes makes one of the four
      moves, by the step that this move belongs to. */
  lemma OnlyFourMoves(c: Config, s: Step)
    requires Enabled(c, s)
    ensures StatesMove(c.store, Apply(c, s).store, s)
  {
    hide Enabled, Apply, Count1, DoCreateCommit, DoAckCommit, DoReceiptCommit, DoPagerExpire, DoPagerRecord, Move;
    if Writer(s) {
      WritersApply(c, s);
      match s
      case CreateCommit(pid) => CreateMoves(c, pid);
      case AckCommit(pid) => AckMoves(c, pid);
      case ReceiptCommit(pid) => ReceiptMoves(c, pid);
      case PagerExpire(pid) => ExpireMoves(c, pid);
      case PagerRecord(pid) => RecordMoves(c, pid);
    } else {
      StepFrame(c, s);
    }
  }

  // ------------------------------------------------------------ who acknowledged a page

  /** The handler is on its way to acknowledging page id with this note. */
  predicate Acknowledging(p: Proc, id: string, note: string) {
    (p.AckLoaded? || p.AckTimed?) && p.page.id == id && p.note == note
  }

  /** An acknowledged page was acknowledged by the commit of one ack handler. */
  lemma {:induction false} AckedOrigin(cs: seq<Config>, steps: seq<Step>, i: nat, id: string) returns (m: nat)
    requires Run(cs, steps) && i < |cs| && id in cs[i].store.pages && cs[i].store.pages[id].state == Acked
    ensures m < i && steps[m].AckCommit?
    ensures id in cs[m].store.pages && Active(cs[m].store.pages[id].state)
    ensures id in cs[m + 1].store.pages && cs[m + 1].store.pages[id] == cs[i].store.pages[id]
  {
    hide Enabled, Apply;
    assert i > 0;
    var c, s := cs[i - 1], steps[i - 1];
    OnlyFourMoves(c, s);
    if id in c.store.pages && c.store.pages[id].state == Acked {
      m := AckedOrigin(cs, steps, i - 1, id);
      ForwardOnly(cs, steps, i - 1, i, id);
    } else if id in c.store.pages {
      m := i - 1;
    } else {
      m := i - 1;
      Reachable(cs, steps, m);
      FreshIsNotAcked(c, s, id);
    }
  }

  lemma FreshIsNotAcked(c: Config, s: Step, id: string)
    requires Inv(c) && Enabled(c, s) && id !in c.store.pages && id in Apply(c, s).store.pages
    ensures Apply(c, s).store.pages[id].state == Created
  {
    hide Inv, Enabled, Apply;
    StepFrame(c, s);
    WritersApply(c, s);
    Here(c, s.pid);
  }

  /** What the commit of an ack writes. */
  lemma CommitAcks(c: Config, pid: nat, id: string)
    requires pid in c.procs && c.procs[pid].AckTimed? && id in c.store.pages && Active(c.store.pages[id].state)
    requires var d := Count1(DoAckCommit(c, pid)); id in d.store.pages && d.store.pages[id].state == Acked
    ensures var p := c.procs[pid]; var d := Count1(DoAckCommit(c, pid));
      && p.page.id == id && d.store.pages[id].ackedAt == Some(p.at) && d.store.pages[id].ackNote == p.note
  {
  }

  /** A handler that has read the clock for an ack read it at an earlier step, and was acknowledging
      the same page then. */
  lemma {:induction false} TimedOrigin(cs: seq<Config>, steps: seq<Step>, m: nat, pid: nat) returns (t: nat)
    requires Run(cs, steps) && m < |cs| && pid in cs[m].procs && cs[m].procs[pid].AckTimed?
    ensures t < m && steps[t] == AckClock(pid) && cs[t].now == cs[m].procs[pid].at
    ensures pid in cs[t].procs && cs[t].procs[pid] == AckLoaded(cs[m].procs[pid].page, cs[m].procs[pid].note)
    ensures forall n :: t < n <= m ==> pid in cs[n].procs && cs[n].procs[pid] == cs[m].procs[pid]
  {
    hide Enabled, Apply;
    assert m > 0;
    var c, s := cs[m - 1], steps[m - 1];
    StepFrame(c, s);
    if Taker(s) == Some(pid) {
      t := m - 1;
      ClockApplies(c, s);
    } else {
      OthersStay(c, s, cs[m], pid);
      t := TimedOrigin(cs, steps, m - 1, pid);
    }
  }

  lemma ClockApplies(c: Config, s: Step)
    requires Enabled(c, s) && s.AckClock?
    ensures s.pid in c.procs && c.procs[s.pid].AckLoaded?
    ensures Apply(c, s).procs == c.procs[s.pid := AckTimed(c.procs[s.pid].page, c.procs[s.pid].note, c.now)]
  {
  }

  /** A handler that has loaded the page for an ack did so at an earlier step, for the recipient. */
  lemma {:induction false} LoadedOrigin(cs: seq<Config>, steps: seq<Step>, t: nat, pid: nat) returns (k: nat)
    requires Run(cs, steps) && t < |cs| && pid in cs[t].procs && cs[t].procs[pid].AckLoaded?
    ensures k < t && steps[k].AckBegin? && steps[k].pid == pid && steps[k].note == cs[t].procs[pid].note
    ensures steps[k].id in cs[k].store.pages && cs[k].store.pages[steps[k].id] == cs[t].procs[pid].page
    ensures cs[t].procs[pid].page.recipientId == steps[k].caller
    ensures forall n :: k < n <= t ==> pid in cs[n].procs && cs[n].procs[pid] == cs[t].procs[pid]
  {
    hide Enabled, Apply;
    assert t > 0;
    var c, s := cs[t - 1], steps[t - 1];
    StepFrame(c, s);
    if Taker(s) == Some(pid) {
      k := t - 1;
      BeginApplies(c, s);
    } else {
      OthersStay(c, s, cs[t], pid);
      k := LoadedOrigin(cs, steps, t - 1, pid);
    }
  }

  lemma BeginApplies(c: Config, s: Step)
    requires Enabled(c, s) && s.AckBegin?
    ensures s.id in c.store.pages && c.store.pages[s.id].recipientId == s.caller
    ensures Apply(c, s).procs == c.procs[s.pid := AckLoaded(c.store.pages[s.id], s.note)]
  {
  }

  /** Behind every acknowledged page there is an ack of its recipient: a handler that the recipient
      began at a moment k, that was in flight until it acknowledged this active page at a later
      moment m, and whose note and clock reading, taken at a moment t between, are on the page. */
  lemma AckedByItsRecipient(cs: seq<Config>, steps: seq<Step>, i: nat, id: string) returns (k: nat, t: nat, m: nat)
    requires Run(cs, steps) && i < |cs| && id in cs[i].store.pages && cs[i].store.pages[id].state == Acked
    ensures k < t < m < i
    ensures steps[k].AckBegin? && steps[t] == AckClock(steps[k].pid) && steps[m] == AckCommit(steps[k].pid)
    ensures var p, s := cs[i].store.pages[id], steps[k];
      && s.id == id && s.caller == p.recipientId && s.note == p.ackNote && Some(cs[t].now) == p.ackedAt
      && (forall n :: k < n <= m ==> s.pid in cs[n].procs && Acknowledging(cs[n].procs[s.pid], id, s.note))
    ensures id in cs[m].store.pages && Active(cs[m].store.pages[id].state)
    ensures id in cs[m + 1].store.pages && cs[m + 1].store.pages[id] == cs[i].store.pages[id]
  {
    hide Inv, Enabled, Apply, DoAckCommit, Count1;
    m := AckedOrigin(cs, steps, i, id);
    var pid := steps[m].pid;
    WritersApply(cs[m], steps[m]);
    CommitAcks(cs[m], pid, id);
    t := TimedOrigin(cs, steps, m, pid);
    k := LoadedOrigin(cs, steps, t, pid);
    Reachable(cs, steps, k);
    SnapshotNow(cs[k], steps[k].id);
    ForwardOnly(cs, steps, k, i, steps[k].id);
  }
}
