/** Settling under free interleaving: as long as no committed handler was lost, every configuration
    of every run can still go on to one in which every page is acknowledged or expired. */
module Settling {
  import opened Model
  import opened Nag
  import opened Store
  import opened PagerRules
  import opened Protocol
  import opened ProtocolInvariant
  import opened Frames
  import opened NoOrphan
  import opened EventTruth

  /** A stretch of a run from c to d in which nobody crashes. */
  ghost predicate Joins(c: Config, cs: seq<Config>, steps: seq<Step>, d: Config) {
    && |cs| == |steps| + 1 && cs[0] == c && cs[|steps|] == d
    && forall i :: 0 <= i < |steps| ==>
         !steps[i].Crash? && Enabled(cs[i], steps[i]) && cs[i + 1] == Apply(cs[i], steps[i])
  }

  ghost predicate Leads(c: Config, d: Config) {
    exists cs, steps :: Joins(c, cs, steps, d)
  }

  lemma LeadsNowhere(c: Config)
    ensures Leads(c, c)
  {
    assert Joins(c, [c], [], c);
  }

  lemma LeadsOn(c: Config, d: Config, s: Step)
    requires Leads(c, d) && Enabled(d, s) && !s.Crash?
    ensures Leads(c, Apply(d, s))
  {
    hide Enabled, Apply;
    var cs: seq<Config>, steps: seq<Step> :| Joins(c, cs, steps, d);
    var e := Apply(d, s);
    var ds, ts := cs + [e], steps + [s];
    forall i | 0 <= i < |ts| ensures !ts[i].Crash? && Enabled(ds[i], ts[i]) && ds[i + 1] == Apply(ds[i], ts[i]) {
      if i < |steps| { assert ts[i] == steps[i] && ds[i] == cs[i] && ds[i + 1] == cs[i + 1]; }
    }
    assert Joins(c, ds, ts, e);
  }

  /** Everything the reachable configurations of runs without a lost committed handler have. */
  ghost predicate Good(c: Config) {
    Inv(c) && NoneOrphaned(c) && NoneCancelled(c.store)
  }

  lemma GoodOn(c: Config, s: Step)
    requires Good(c) && Enabled(c, s) && !s.Crash?
    ensures Good(Apply(c, s))
  {
    hide Inv, NoneOrphaned, NoneCancelled, Enabled, Apply, Grows;
    StepKeeps(c, s);
    StepOrphansNone(c, s);
    StepCancelsNone(c, s);
  }

  /** d is good and can be reached from c; page id is as it was, and so are the others. */
  ghost predicate Towards(c: Config, d: Config) {
    Leads(c, d) && Good(d) && d.store.pages == c.store.pages
  }

  lemma TowardsOn(c: Config, d: Config, s: Step)
    requires Towards(c, d) && Enabled(d, s) && !s.Crash? && !Writer(s)
    ensures Towards(c, Apply(d, s))
  {
    hide Leads, Good, Enabled, Apply;
    LeadsOn(c, d, s);
    GoodOn(d, s);
    StepFrame(d, s);
  }

  // ------------------------------------------------------------ a message for the page

  ghost predicate HasMessage(c: Config, id: string) {
    exists m :: m in c.queue && m.task.pageId == id
  }

  lemma CreateSends(d: Config, pid: nat)
    requires pid in d.procs && d.procs[pid].CreateStored?
    ensures Enabled(d, CreateEnqueue(pid)) && HasMessage(Apply(d, CreateEnqueue(pid)), d.procs[pid].page.id)
  {
    var m := Msg(PageTask(d.procs[pid].page.id, 0), d.now);
    assert m in Apply(d, CreateEnqueue(pid)).queue;
  }

  lemma PagerSends(d: Config, pid: nat)
    requires Inv(d) && pid in d.procs && d.procs[pid].PagerEnqueuing?
    ensures Enabled(d, PagerEnqueue(pid)) && HasMessage(Apply(d, PagerEnqueue(pid)), d.procs[pid].job.page.id)
  {
    hide Inv, ProcOK, FollowUp, Grows, MsgOK, NextDelay;
    var job := d.procs[pid].job;
    Here(d, pid);
    GrowsReflexive(d);
    PagerEnqueueOK(d, d, d.procs[pid]);
    var m := NextMsg(d.now, job, FollowUp(job.m.task.attempt, job.at, job.page.expiresAt).value);
    assert m in Apply(d, PagerEnqueue(pid)).queue;
  }

  lemma LogThenSend(d: Config, pid: nat)
    requires pid in d.procs && d.procs[pid].PagerRecorded?
    ensures Enabled(d, PagerPushEvent(pid, false))
    ensures var e := Apply(d, PagerPushEvent(pid, false));
      pid in e.procs && e.procs[pid].PagerEnqueuing? && e.procs[pid].job == d.procs[pid].job
  {
  }

  /** The owner of the next task enqueues it. */
  lemma OwnerSends(c: Config, d: Config, pid: nat) returns (e: Config)
    requires Towards(c, d) && pid in d.procs && Committed(d.procs[pid])
    ensures Towards(c, e) && HasMessage(e, Owed(d.procs[pid]).pageId)
  {
    hide Leads, Inv, NoneOrphaned, NoneCancelled, Enabled, Apply, HasMessage;
    if d.procs[pid].CreateStored? {
      CreateSends(d, pid);
      TowardsOn(c, d, CreateEnqueue(pid));
      e := Apply(d, CreateEnqueue(pid));
    } else {
      e := d;
      if d.procs[pid].PagerRecorded? {
        LogThenSend(d, pid);
        TowardsOn(c, d, PagerPushEvent(pid, false));
        e := Apply(d, PagerPushEvent(pid, false));
      }
      PagerSends(e, pid);
      TowardsOn(c, e, PagerEnqueue(pid));
      e := Apply(e, PagerEnqueue(pid));
    }
  }

  lemma SomeMessage(c: Config, id: string) returns (d: Config)
    requires Good(c) && id in c.store.pages && Active(c.store.pages[id].state)
    ensures Towards(c, d) && HasMessage(d, id)
  {
    hide Inv, NoneCancelled, Leads;
    LeadsNowhere(c);
    assert Pending(c, id);
    var t := PageTask(id, c.hist.high[id] + 1);
    if Queued(c, t) {
      d := c;
    } else {
      hide Pending, NoneOrphaned;
      var pid :| pid in c.procs && Committed(c.procs[pid]) && Owed(c.procs[pid]) == t;
      d := OwnerSends(c, c, pid);
    }
  }

  // ------------------------------------------------------------ expiring it

  lemma {:induction false} FreshBound(pids: set<nat>) returns (n: nat)
    ensures forall pid :: pid in pids ==> pid < n
  {
    if pids == {} {
      n := 0;
    } else {
      var pid :| pid in pids;
      var k := FreshBound(pids - {pid});
      n := if k <= pid then pid + 1 else k;
      assert forall q :: q in pids ==> q == pid || q in pids - {pid};
    }
  }

  lemma Loads(d: Config, pid: nat, m: Msg)
    requires pid !in d.procs && m in d.queue && m.ready <= d.now
    requires m.task.pageId in d.store.pages && Active(d.store.pages[m.task.pageId].state)
    ensures Enabled(d, PagerLoad(pid, m))
    ensures var e := Apply(d, PagerLoad(pid, m));
      e.now == d.now && pid in e.procs && e.procs[pid] == PagerLoaded(m, d.store.pages[m.task.pageId], d.hist.step)
  {
  }

  lemma FindsLate(d: Config, pid: nat)
    requires pid in d.procs && d.procs[pid].PagerLoaded? && d.now > d.procs[pid].page.expiresAt
    ensures Enabled(d, PagerClock(pid))
    ensures var e := Apply(d, PagerClock(pid));
      pid in e.procs && e.procs[pid].PagerExpiring? && e.procs[pid].job.page == d.procs[pid].page
  {
  }

  /** The message is delivered to a new pager, which finds the page past its expiry. */
  lemma LoadsLate(c: Config, d: Config, m: Msg) returns (e: Config, pid: nat)
    requires Towards(c, d) && m in d.queue && m.task.pageId in d.store.pages
    requires Active(d.store.pages[m.task.pageId].state)
    requires m.ready <= d.now && d.now > d.store.pages[m.task.pageId].expiresAt
    ensures Towards(c, e) && pid in e.procs && e.procs[pid].PagerExpiring?
    ensures e.procs[pid].job.page == d.store.pages[m.task.pageId]
  {
    hide Towards, Enabled, Apply;
    pid := FreshBound(d.procs.Keys);
    Loads(d, pid, m);
    TowardsOn(c, d, PagerLoad(pid, m));
    e := Apply(d, PagerLoad(pid, m));
    FindsLate(e, pid);
    TowardsOn(c, e, PagerClock(pid));
    e := Apply(e, PagerClock(pid));
  }

  lemma WaitsLong(c: Config, d: Config, until: Time) returns (e: Config)
    requires Towards(c, d)
    ensures Towards(c, e) && e.now > until && e.queue == d.queue && e.store == d.store
  {
    hide Towards;
    var t := if until >= d.now then until + 1 - d.now else 0;
    TowardsOn(c, d, Tick(t));
    e := Apply(d, Tick(t));
  }

  lemma ExpiresOne(c: Config, pid: nat)
    requires Good(c) && pid in c.procs && c.procs[pid].PagerExpiring?
    requires var id := c.procs[pid].job.page.id; id in c.store.pages && Active(c.store.pages[id].state)
    ensures Enabled(c, PagerExpire(pid))
    ensures var id := c.procs[pid].job.page.id; var d := Apply(c, PagerExpire(pid));
      id in d.store.pages && d.store.pages == c.store.pages[id := d.store.pages[id]] && d.store.pages[id].state.Expired?
  {
    hide Good;
  }

  /** One active page is expired, the others stay as they are. */
  lemma SettleOne(c: Config, id: string) returns (d: Config)
    requires Good(c) && id in c.store.pages && Active(c.store.pages[id].state)
    ensures Leads(c, d) && Good(d)
    ensures id in d.store.pages && d.store.pages == c.store.pages[id := d.store.pages[id]]
      && d.store.pages[id].state.Expired?
  {
    hide Leads, Inv, NoneOrphaned, NoneCancelled, Enabled, Apply;
    var page := c.store.pages[id];
    SnapshotNow(c, id);
    hide PageOK, Snapshot;
    d := SomeMessage(c, id);
    var m :| m in d.queue && m.task.pageId == id;
    d := WaitsLong(c, d, if m.ready > page.expiresAt then m.ready else page.expiresAt);
    var pid;
    d, pid := LoadsLate(c, d, m);
    PageId(c, id);
    ExpiresOne(d, pid);
    LeadsOn(c, d, PagerExpire(pid));
    GoodOn(d, PagerExpire(pid));
    d := Apply(d, PagerExpire(pid));
  }

  lemma PageId(c: Config, id: string)
    requires Inv(c) && id in c.store.pages
    ensures c.store.pages[id].id == id
  {
  }

  // ------------------------------------------------------------ all of them

  function ActiveIds(pages: map<string, Page>): set<string> {
    set id | id in pages && Active(pages[id].state)
  }

  ghost predicate Settled(c: Config) {
    forall id :: id in c.store.pages ==> c.store.pages[id].state.Acked? || c.store.pages[id].state.Expired?
  }

  lemma LeadsFurther(c: Config, d: Config, e: Config)
    requires Leads(c, d) && Leads(d, e)
    ensures Leads(c, e)
  {
    hide Enabled, Apply;
    var cs: seq<Config>, steps: seq<Step> :| Joins(c, cs, steps, d);
    var ds: seq<Config>, ts: seq<Step> :| Joins(d, ds, ts, e);
    var es, us := cs[..|steps|] + ds, steps + ts;
    forall i | 0 <= i < |us| ensures !us[i].Crash? && Enabled(es[i], us[i]) && es[i + 1] == Apply(es[i], us[i]) {
      if i < |steps| {
        assert us[i] == steps[i] && es[i] == cs[i] && es[i + 1] == cs[i + 1];
      } else {
        assert us[i] == ts[i - |steps|] && es[i] == ds[i - |steps|] && es[i + 1] == ds[i - |steps| + 1];
      }
    }
    assert Joins(c, es, us, e);
  }

  lemma {:induction false} Settles(c: Config) returns (d: Config)
    requires Good(c)
    ensures Leads(c, d) && Good(d) && Settled(d) && d.store.pages.Keys == c.store.pages.Keys
    decreases |ActiveIds(c.store.pages)|
  {
    hide Leads, Inv, NoneOrphaned;
    if ActiveIds(c.store.pages) == {} {
      LeadsNowhere(c);
      d := c;
      assert forall id :: id in c.store.pages ==> id !in ActiveIds(c.store.pages);
    } else {
      hide NoneCancelled, Settled;
      var id :| id in ActiveIds(c.store.pages);
      var e := SettleOne(c, id);
      assert ActiveIds(e.store.pages) == ActiveIds(c.store.pages) - {id};
      d := Settles(e);
      LeadsFurther(c, e, d);
    }
  }

  /** From every configuration of a run that lost no committed handler there is a continuation, with
      no crash in it, that leaves every page acknowledged or expired. */
  lemma EveryRunCanSettle(cs: seq<Config>, steps: seq<Step>, i: nat) returns (d: Config)
    requires Run(cs, steps) && RunLosesNothing(cs, steps) && i < |cs|
    ensures Leads(cs[i], d) && Settled(d) && d.store.pages.Keys == cs[i].store.pages.Keys
  {
    hide Run, Inv, NoneOrphaned, NoneCancelled, Leads, Settled;
    Reachable(cs, steps, i);
    NoOrphanedPage(cs, steps, i);
    NothingCancels(cs, steps, i);
    d := Settles(cs[i]);
  }
}
