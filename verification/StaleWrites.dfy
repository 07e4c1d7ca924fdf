/** Attempt numbers under free interleaving. They are not monotone: a handler writes back the
    attempt of a snapshot another handler has overtaken. This is exactly when, and an example of
    it for every page that is created or pushed. */
module StaleWrites {
  import opened Model
  import opened PagerRules
  import opened Store
  import opened Protocol
  import opened Frames
  import opened Uninterrupted
  import Pager

  /** The step writes an attempt older than the stored one, and its condition lets it through. */
  ghost predicate StaleWrite(c: Config, s: Step, id: string)
    requires id in c.store.pages
  {
    var page := c.store.pages[id];
    match s
    case ReceiptCommit(pid) =>
      && pid in c.procs && c.procs[pid].ReceiptLoaded? && c.procs[pid].page.id == id
      && (page.state.Created? || page.state.Pushed?)
      && c.procs[pid].page.attempt < page.attempt
    case PagerExpire(pid) =>
      && pid in c.procs && c.procs[pid].PagerExpiring? && c.procs[pid].job.page.id == id
      && Active(page.state)
      && c.procs[pid].job.page.attempt < page.attempt
    case PagerRecord(pid) =>
      && pid in c.procs && c.procs[pid].PagerRecording? && c.procs[pid].job.page.id == id
      && c.procs[pid].round < |ROUNDS| && page.state in ROUNDS[c.procs[pid].round].0
      && c.procs[pid].job.m.task.attempt < page.attempt
    case _ => false
  }

  lemma AckAttempt(c: Config, pid: nat, id: string)
    requires pid in c.procs && c.procs[pid].AckTimed? && id in c.store.pages
    ensures var d := DoAckCommit(c, pid); id in d.store.pages && d.store.pages[id].attempt == c.store.pages[id].attempt
  {
  }

  lemma CreateAttempt(c: Config, pid: nat, id: string)
    requires pid in c.procs && c.procs[pid].CreateBuilt? && id in c.store.pages
    ensures var d := DoCreateCommit(c, pid);
      id in d.store.pages && d.store.pages[id].attempt == c.store.pages[id].attempt
  {
  }

  lemma SetAttempt(s: State, written: string, from: seq<PageState>, to: PageState, attempt: int, id: string)
    requires id in s.pages
    ensures id in SetPageState(s, written, from, to, attempt).0.pages
    ensures SetPageState(s, written, from, to, attempt).0.pages[id].attempt
         == if written == id && s.pages[id].state in from then attempt else s.pages[id].attempt
    ensures SetPageState(s, written, from, to, attempt).1.Pass?
      <==> written in s.pages && s.pages[written].state in from
    ensures SetPageState(s, written, from, to, attempt).1.Fail? ==> SetPageState(s, written, from, to, attempt).0 == s
  {
  }

  lemma ReceiptAttempt(c: Config, pid: nat, id: string)
    requires pid in c.procs && c.procs[pid].ReceiptLoaded? && id in c.store.pages
    ensures var d := DoReceiptCommit(c, pid);
      id in d.store.pages
      && (d.store.pages[id].attempt < c.store.pages[id].attempt <==> StaleWrite(c, ReceiptCommit(pid), id))
  {
    hide SetPageState;
    SetAttempt(c.store, c.procs[pid].page.id, [Created, Pushed], Delivered, c.procs[pid].page.attempt, id);
  }

  lemma ExpireAttempt(c: Config, pid: nat, id: string)
    requires pid in c.procs && c.procs[pid].PagerExpiring? && id in c.store.pages
    ensures var d := DoPagerExpire(c, pid);
      id in d.store.pages
      && (d.store.pages[id].attempt < c.store.pages[id].attempt <==> StaleWrite(c, PagerExpire(pid), id))
  {
    hide SetPageState;
    SetAttempt(c.store, c.procs[pid].job.page.id, ACTIVE_STATES, Expired, c.procs[pid].job.page.attempt, id);
  }

  lemma RecordAttempt(c: Config, pid: nat, id: string)
    requires pid in c.procs && c.procs[pid].PagerRecording? && c.procs[pid].round < |ROUNDS| && id in c.store.pages
    ensures var d := DoPagerRecord(c, pid);
      id in d.store.pages
      && (d.store.pages[id].attempt < c.store.pages[id].attempt <==> StaleWrite(c, PagerRecord(pid), id))
  {
    hide SetPageState;
    var p := c.procs[pid];
    SetAttempt(c.store, p.job.page.id, ROUNDS[p.round].0, ROUNDS[p.round].1, p.job.m.task.attempt, id);
  }

  lemma OnlyThreeAreStale(c: Config, s: Step, id: string)
    requires id in c.store.pages && StaleWrite(c, s, id)
    ensures s.ReceiptCommit? || s.PagerExpire? || s.PagerRecord?
  {
  }

  lemma OtherAttempt(c: Config, s: Step, id: string)
    requires Enabled(c, s) && id in c.store.pages && !s.ReceiptCommit? && !s.PagerExpire? && !s.PagerRecord?
    ensures id in Apply(c, s).store.pages && Apply(c, s).store.pages[id].attempt == c.store.pages[id].attempt
  {
    hide Apply, Enabled, DoAckCommit, DoCreateCommit;
    if s.AckCommit? {
      WritersApply(c, s);
      AckAttempt(c, s.pid, id);
    } else if s.CreateCommit? {
      WritersApply(c, s);
      CreateAttempt(c, s.pid, id);
    } else {
      StepFrame(c, s);
    }
  }

  /** A step lowers a page's attempt exactly when it is one of the three stale writes. */
  lemma AttemptFallsExactlyWhen(c: Config, s: Step, id: string)
    requires Enabled(c, s) && id in c.store.pages
    ensures id in Apply(c, s).store.pages
    ensures Apply(c, s).store.pages[id].attempt < c.store.pages[id].attempt <==> StaleWrite(c, s, id)
  {
    hide Apply, Enabled, StaleWrite, DoReceiptCommit, DoPagerExpire, DoPagerRecord;
    WritersApply(c, s);
    if s.ReceiptCommit? {
      ReceiptAttempt(c, s.pid, id);
    } else if s.PagerExpire? {
      ExpireAttempt(c, s.pid, id);
    } else if s.PagerRecord? {
      RecordAttempt(c, s.pid, id);
    } else {
      OtherAttempt(c, s, id);
      if StaleWrite(c, s, id) { OnlyThreeAreStale(c, s, id); }
    }
  }

  /** The receipt overtaken by the pager: whenever a created or pushed page has its next attempt
      queued and due, a receipt that loads it first and writes last leaves the attempt where it
      was before the pager recorded the new one. */
  lemma ReceiptUndoesAttempt(c: Config, receipt: nat, pager: nat, caller: string, id: string, m: Msg, env: Pager.Env,
                             listed: seq<Device>)
      returns (t: Trace, d: Config)
    requires Filed(c.store) && receipt !in c.procs && pager !in c.procs && receipt != pager
    requires OwnPage(c, caller, id) && (c.store.pages[id].state.Created? || c.store.pages[id].state.Pushed?)
    requires m in c.queue && m.ready <= c.now <= c.store.pages[id].expiresAt && m.task.pageId == id
    requires c.store.pages[id].attempt < m.task.attempt
    requires env == Pager.Calm(c.now) && ListsDevices(c.store, c.store.pages[id].recipientId, listed)
    ensures Enabled(c, ReceiptBegin(receipt, caller, id)) && Solo(t, Apply(c, ReceiptBegin(receipt, caller, id)), pager)
    ensures id in End(t).store.pages && End(t).store.pages[id].attempt == m.task.attempt
    ensures Enabled(End(t), ReceiptCommit(receipt)) && d == Apply(End(t), ReceiptCommit(receipt))
    ensures id in d.store.pages && d.store.pages[id].attempt == c.store.pages[id].attempt < m.task.attempt
  {
    hide ListsDevices;
    var b := Apply(c, ReceiptBegin(receipt, caller, id));
    assert b.procs == c.procs[receipt := ReceiptLoaded(c.store.pages[id])] && b.store == c.store && b.queue == c.queue;
    PagerRecords(c.store, m.task, env);
    var page := c.store.pages[id];
    t := UninterruptedPagerIsHandle(b, pager, m, env, listed);
    d := LateReceipt(c, b, t, receipt, pager, id, m, env);
  }

  lemma PagerRecords(s: State, task: PageTask, env: Pager.Env)
    requires Filed(s) && Pager.Due(s, task, env) && env.faults == {}
    ensures var h := Pager.Handle(s, task, env); var page := s.pages[task.pageId];
      && page.id == task.pageId
      && task.pageId in h.store.pages
      && h.store.pages[task.pageId]
         == page.(attempt := task.attempt, state := if page.state.Created? then Pushed else page.state)
  {
    hide DevicesOf, Filed, Pager.AfterPush, Pager.Append;
    Pager.FiledPage(s, task.pageId);
    Pager.AfterPushKeepsPages(s, s.pages[task.pageId], env);
    Pager.AppendLeavesPages(env, task.pageId);
  }

  lemma LateReceipt(c: Config, b: Config, t: Trace, receipt: nat, pager: nat, id: string, m: Msg, env: Pager.Env)
      returns (d: Config)
    requires id in c.store.pages && c.store.pages[id].id == id
      && b.procs == c.procs[receipt := ReceiptLoaded(c.store.pages[id])]
    requires var h := Pager.Handle(c.store, m.task, env);
      && Gone(t, b, pager, h.store, QueueAfter(b, h, m))
      && id in h.store.pages && (h.store.pages[id].state.Created? || h.store.pages[id].state.Pushed?)
    ensures t.cs != [] && Enabled(End(t), ReceiptCommit(receipt)) && d == Apply(End(t), ReceiptCommit(receipt))
    ensures id in d.store.pages && d.store.pages[id].attempt == c.store.pages[id].attempt
  {
    hide Pager.Handle, Solo, QueueAfter;
    SoloHasEnd(t, b, pager);
    d := Apply(End(t), ReceiptCommit(receipt));
  }

  lemma SoloHasEnd(t: Trace, c: Config, pid: nat)
    requires Solo(t, c, pid)
    ensures t.cs != []
  {
  }
}
