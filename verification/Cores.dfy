/** Where the protocol meets the single table: the conditional writes of the protocol are calls on
    which the table and the reference store agree. */
module Cores {
  import opened Model
  import opened PagerRules
  import S = Store
  import opened Protocol
  import opened ProtocolInvariant
  import Dynamo

  /** In every run each conditional write names a page that exists and at least one state, so the
      table's conditional update has exactly the effect and the outcome the step takes. */
  lemma ConditionalWritesAgree(cs: seq<Config>, steps: seq<Step>, i: nat)
    requires Run(cs, steps) && i < |steps|
    ensures var c := cs[i]; var s := steps[i];
      && (s.AckCommit? && s.pid in c.procs && c.procs[s.pid].AckTimed? ==>
            var p := c.procs[s.pid];
            Dynamo.AckOnTable(c.store, p.page.id, p.note, p.at) == S.AckPage(c.store, p.page.id, p.note, p.at))
      && (s.ReceiptCommit? && s.pid in c.procs && c.procs[s.pid].ReceiptLoaded? ==>
            var p := c.procs[s.pid].page;
            Dynamo.SetOnTable(c.store, p.id, [Created, Pushed], Delivered, p.attempt)
              == S.SetPageState(c.store, p.id, [Created, Pushed], Delivered, p.attempt))
      && (s.PagerExpire? && s.pid in c.procs && c.procs[s.pid].PagerExpiring? ==>
            var p := c.procs[s.pid].job.page;
            Dynamo.SetOnTable(c.store, p.id, S.ACTIVE_STATES, Expired, p.attempt)
              == S.SetPageState(c.store, p.id, S.ACTIVE_STATES, Expired, p.attempt))
      && (s.PagerRecord? && s.pid in c.procs && c.procs[s.pid].PagerRecording? && c.procs[s.pid].round < |ROUNDS| ==>
            var p := c.procs[s.pid]; var (from, to) := ROUNDS[p.round];
            Dynamo.SetOnTable(c.store, p.job.page.id, from, to, p.job.m.task.attempt)
              == S.SetPageState(c.store, p.job.page.id, from, to, p.job.m.task.attempt))
  {
    hide S.AckPage, S.SetPageState, Enabled, Apply, Inv;
    Reachable(cs, steps, i);
    Participants(cs[i]);
  }

  /** Whoever is about to write a page has seen it stored, and pages do not disappear. */
  lemma Participants(c: Config)
    requires Inv(c)
    ensures forall pid :: pid in c.procs ==>
      var p := c.procs[pid];
      && (p.AckTimed? || p.ReceiptLoaded? ==> p.page.id in c.store.pages)
      && (p.PagerExpiring? || p.PagerRecording? ==> p.job.page.id in c.store.pages)
  {
    hide S.PageAdvances, MsgOK, FreshPage, AckedAs;
    forall pid | pid in c.procs
      ensures var p := c.procs[pid];
        && (p.AckTimed? || p.ReceiptLoaded? ==> p.page.id in c.store.pages)
        && (p.PagerExpiring? || p.PagerRecording? ==> p.job.page.id in c.store.pages)
    {
      assert ProcOK(c, c.procs[pid]);
    }
  }
}
