/** Runs that exist: the theorems about runs are about something, the assumption of the no-orphan
    theorem cannot be dropped, and each way in which attempts and timelines go astray under free
    interleaving does occur. */
module Witness {
  import opened Model
  import opened Nag
  import opened Store
  import opened PagerRules
  import opened Protocol
  import opened ProtocolInvariant
  import opened Frames
  import opened NoOrphan
  import opened CrashGap
  import opened Uninterrupted
  import opened StaleWrites
  import Pager
  import Serial
  import SerialTheorems

  lemma Grow(cs: seq<Config>, steps: seq<Step>, s: Step) returns (ds: seq<Config>, ts: seq<Step>)
    requires Run(cs, steps) && Enabled(cs[|steps|], s)
    ensures Run(ds, ts) && ts == steps + [s] && ds[|ts|] == Apply(cs[|steps|], s) && ds[..|cs|] == cs
  {
    hide Enabled, Effects;
    ds, ts := cs + [Apply(cs[|steps|], s)], steps + [s];
    forall i | 0 <= i < |ts| ensures Enabled(ds[i], ts[i]) && ds[i + 1] == Apply(ds[i], ts[i]) {
      if i < |steps| { assert ts[i] == steps[i] && ds[i] == cs[i] && ds[i + 1] == cs[i + 1]; }
    }
  }

  const ALICE: User := User("a", "Alice", 0)
  const BOB: User := User("b", "Bob", 0)

  /** Two people pair up. */
  lemma Paired() returns (cs: seq<Config>, steps: seq<Step>)
    ensures Run(cs, steps)
    ensures var c := cs[|steps|];
      && c.now == 0 && c.procs == map[] && c.queue == multiset{}
      && c.store.pages == map[] && c.store.idem == map[] && c.store.devices == map[] && c.store.events == map[]
      && Filed(c.store)
      && GetPairing(c.store, "a", "b").Ok? && GetPairing(c.store, "a", "b").value.status.PairingActive?
    ensures forall s :: s in steps ==> !s.Crash?
  {
    hide Filed, GetPairing;
    cs, steps := Invited();
    PairedStore(cs[|steps|].store);
    hide Run;
    cs, steps := Grow(cs, steps, RedeemInvite("x", BOB, 0));
  }

  lemma Invited() returns (cs: seq<Config>, steps: seq<Step>)
    ensures Run(cs, steps)
    ensures var c := cs[|steps|];
      && c.now == 0 && c.procs == map[] && c.queue == multiset{}
      && c.store == EMPTY.(users := map["a" := ALICE], invites := map["x" := Invite("x", "a", 1)])
    ensures forall s :: s in steps ==> !s.Crash?
  {
    var c := Config(0, EMPTY, multiset{}, map[], INIT_HISTORY);
    cs, steps := [c], [];
    assert Run(cs, steps);
    hide Run;
    cs, steps := Grow(cs, steps, RegisterUser(ALICE));
    cs, steps := Grow(cs, steps, IssueInvite(Invite("x", "a", 1)));
  }

  lemma PairedStore(s: State)
    requires s == EMPTY.(users := map["a" := ALICE], invites := map["x" := Invite("x", "a", 1)])
    ensures var (t, r) := AcceptInvite(s, "x", BOB, 0, 0);
      && r.Ok? && t == s.(invites := t.invites, pairings := t.pairings) && Filed(t)
      && GetPairing(t, "a", "b").Ok? && GetPairing(t, "a", "b").value.status.PairingActive?
  {
  }

  const PAGE: Page := Page("p", "a", "b", "come", Created, -1, "k", 0, EXPIRY, None, "")

  /** The first then pages the second, and is about to store the page. */
  lemma Composed() returns (cs: seq<Config>, steps: seq<Step>)
    ensures Run(cs, steps)
    ensures var c := cs[|steps|];
      && c.now == 0 && c.queue == multiset{} && c.procs == map[0 := CreateBuilt(PAGE)]
      && c.store.pages == map[] && c.store.idem == map[] && c.store.devices == map[] && c.store.events == map[]
      && Filed(c.store)
    ensures forall s :: s in steps ==> !s.Crash?
  {
    cs, steps := Paired();
    hide Run, GetPairing, Filed;
    cs, steps := Grow(cs, steps, CreateBegin(0, "a", "b", "come", "k"));
    cs, steps := Grow(cs, steps, CreateBuild(0, "p"));
  }

  // ------------------------------------------------------------ an orphan

  lemma PageGoesThrough(s: State)
    requires s.pages == map[] && s.idem == map[] && s.devices == map[] && s.events == map[] && Filed(s)
    ensures var (t, r) := CreatePage(s, PAGE);
      && r.Pass? && t.pages == map["p" := PAGE] && t.devices == map[] && Filed(t)
      && Events(t, "p") == [PageEvent("p", EvCreated, "", 0)]
  {
  }

  /** The page is stored and its first task not yet enqueued. */
  lemma Committed1(c: Config)
    requires c.now == 0 && c.queue == multiset{} && c.procs == map[0 := CreateBuilt(PAGE)]
    requires c.store.pages == map[] && c.store.idem == map[] && c.store.devices == map[] && c.store.events == map[]
      && Filed(c.store)
    ensures Enabled(c, CreateCommit(0))
    ensures var d := Apply(c, CreateCommit(0));
      && d.now == 0 && d.queue == multiset{} && d.procs == map[0 := CreateStored(PAGE)]
      && d.store.pages == map["p" := PAGE] && d.store.devices == map[]
      && Events(d.store, "p") == [PageEvent("p", EvCreated, "", 0)]
      && Filed(d.store)
  {
    hide CreatePage, Filed, Events;
    PageGoesThrough(c.store);
  }

  lemma Stored() returns (cs: seq<Config>, steps: seq<Step>)
    ensures Run(cs, steps)
    ensures var d := cs[|steps|];
      && d.now == 0 && d.queue == multiset{} && d.procs == map[0 := CreateStored(PAGE)]
      && d.store.pages == map["p" := PAGE] && d.store.devices == map[]
      && Events(d.store, "p") == [PageEvent("p", EvCreated, "", 0)]
      && Filed(d.store)
    ensures forall s :: s in steps ==> !s.Crash?
  {
    hide Run, Enabled, Apply, Filed, Events;
    cs, steps := Composed();
    RunLength(cs, steps);
    Committed1(cs[|steps|]);
    cs, steps := Grow(cs, steps, CreateCommit(0));
  }

  lemma RunLength(cs: seq<Config>, steps: seq<Step>)
    requires Run(cs, steps)
    ensures |cs| == |steps| + 1
  {
  }

  lemma CanCrash(c: Config, pid: nat)
    requires pid in c.procs
    ensures Enabled(c, Crash(pid))
  {
  }

  /** One crash is enough to orphan a page: a run in which the API handler stores a page and is
      lost before it enqueues the first task. */
  lemma OneCrashOrphans() returns (cs: seq<Config>, steps: seq<Step>)
    ensures Run(cs, steps) && steps != [] && steps[|steps| - 1].Crash?
    ensures forall i :: 0 <= i < |steps| - 1 ==> !steps[i].Crash?
    ensures NoneOrphaned(cs[|steps| - 1]) && !NoneOrphaned(cs[|steps|])
  {
    hide Run, SoleKeeper, Untouched, Apply, Enabled, NoneOrphaned, Filed, Events;
    cs, steps := Stored();
    RunLength(cs, steps);
    var last := cs[|steps|];
    NoCrashNoOrphan(cs, steps);
    FreshCommitIsSole(cs, steps, |steps|, 0);
    CanCrash(last, 0);
    SoleKeeperCrash(last, 0);
    var before := cs;
    cs, steps := Grow(cs, steps, Crash(0));
    RunLength(cs, steps);
    assert cs[|steps| - 1] == cs[..|before|][|steps| - 1] == last;
  }

  lemma NoCrashNoOrphan(cs: seq<Config>, steps: seq<Step>)
    requires Run(cs, steps) && forall s :: s in steps ==> !s.Crash?
    ensures NoneOrphaned(cs[|steps|])
  {
    hide Enabled, Effects, NoneOrphaned;
    NoOrphanedPage(cs, steps, |steps|);
  }

  // ------------------------------------------------------------ reaching configurations

  /** Some run ends in c. */
  ghost predicate Reached(c: Config) {
    exists cs, steps :: Run(cs, steps) && |cs| == |steps| + 1 && cs[|steps|] == c
  }

  lemma ReachNext(c: Config, s: Step)
    requires Reached(c) && Enabled(c, s)
    ensures Reached(Apply(c, s))
  {
    hide Run, Enabled, Apply;
    var cs, steps :| Run(cs, steps) && |cs| == |steps| + 1 && cs[|steps|] == c;
    var ds, ts := Grow(cs, steps, s);
    RunLength(ds, ts);
  }

  /** What a stretch of a run leads to is reached if its start is. */
  lemma {:induction false} ReachAlong(t: Trace, c: Config, pid: nat, i: nat)
    requires Reached(c) && Solo(t, c, pid) && i < |t.cs|
    ensures Reached(t.cs[i])
  {
    hide Reached, Enabled, Apply, Taker;
    if i > 0 {
      ReachAlong(t, c, pid, i - 1);
      ReachNext(t.cs[i - 1], t.steps[i - 1]);
    }
  }

  lemma ReachEnd(t: Trace, c: Config, pid: nat)
    requires Reached(c) && Solo(t, c, pid)
    ensures t.cs != [] && Reached(End(t))
  {
    hide Reached, Enabled, Apply, Taker;
    ReachAlong(t, c, pid, |t.cs| - 1);
  }

  const FIRST: Msg := Msg(PageTask("p", 0), 0)

  /** The page is stored and its first task queued and due. */
  ghost predicate Paging(c: Config) {
    && c.now == 0 && c.queue == multiset{FIRST} && c.procs == map[]
    && c.store.pages == map["p" := PAGE] && c.store.devices == map[]
    && Filed(c.store)
  }

  lemma Enqueued(c: Config)
    requires c.now == 0 && c.queue == multiset{} && c.procs == map[0 := CreateStored(PAGE)]
    requires c.store.pages == map["p" := PAGE] && c.store.devices == map[] && Filed(c.store)
    ensures Enabled(c, CreateEnqueue(0)) && Paging(Apply(c, CreateEnqueue(0)))
  {
    hide Filed;
    assert map[0 := CreateStored(PAGE)] - {0} == map[];
  }

  lemma SomeRunPages() returns (c: Config)
    ensures Reached(c) && Paging(c)
  {
    hide Run, Enabled, Apply, Filed, Paging, Events;
    var cs, steps := Stored();
    RunLength(cs, steps);
    var d := cs[|steps|];
    assert Reached(d);
    Enqueued(d);
    ReachNext(d, CreateEnqueue(0));
    c := Apply(d, CreateEnqueue(0));
  }

  // ------------------------------------------------------------ an attempt that falls

  /** A reachable step lowers an attempt: a receipt that loaded the page before its first push
      writes after the pager has recorded it. */
  lemma SomeAttemptFalls() returns (c: Config, s: Step)
    ensures Reached(c) && Enabled(c, s) && "p" in c.store.pages && "p" in Apply(c, s).store.pages
    ensures Apply(c, s).store.pages["p"].attempt < c.store.pages["p"].attempt
  {
    hide Run, Reached, Enabled, Apply, Filed, ListsDevices, Solo;
    var b := SomeRunPages();
    NoDevices(b.store, "b");
    var t, d := ReceiptUndoesAttempt(b, 1, 2, "b", "p", FIRST, Pager.Calm(0), []);
    ReachNext(b, ReceiptBegin(1, "b", "p"));
    ReachEnd(t, Apply(b, ReceiptBegin(1, "b", "p")), 2);
    c, s := End(t), ReceiptCommit(1);
  }

  lemma NoDevices(s: State, userId: string)
    requires s.devices == map[]
    ensures ListsDevices(s, userId, [])
  {
  }

  // ------------------------------------------------------------ timelines that err

  /** The recipient acknowledges while pager 1 stands at p. */
  lemma AckMeanwhile(c: Config, p: Proc) returns (d: Config)
    requires Reached(c) && Filed(c.store) && c.store.pages == map["p" := PAGE] && c.procs == map[1 := p]
    ensures Reached(d) && d.procs == c.procs && d.now == c.now && d.queue == c.queue
    ensures "p" in d.store.pages && d.store.pages["p"].state.Acked? && d.store.pages["p"].attempt == -1
  {
    hide Reached, Solo;
    var t := UninterruptedAck(c, 2, "b", "p", "coming", true);
    ReachEnd(t, c, 2);
    d := End(t);
  }

  /** Pager 1 has found the page past its expiry. */
  lemma SomePagerExpires() returns (c: Config, job: Job)
    ensures Reached(c) && Filed(c.store) && c.store.pages == map["p" := PAGE] && c.procs == map[1 := PagerExpiring(job)]
    ensures job.page == PAGE
  {
    hide Reached, Filed;
    c := SomeRunPages();
    ReachNext(c, Tick(EXPIRY + 1));
    c := Apply(c, Tick(EXPIRY + 1));
    ReachNext(c, PagerLoad(1, FIRST));
    c := Apply(c, PagerLoad(1, FIRST));
    job := Job(FIRST, PAGE, c.now, c.procs[1].load);
    ReachNext(c, PagerClock(1));
    c := Apply(c, PagerClock(1));
  }

  /** Pager 1 lost its expiry to an acknowledgement and logs it all the same. */
  lemma LostExpiry(c: Config, job: Job) returns (d: Config)
    requires Reached(c) && c.procs == map[1 := PagerExpiring(job)] && job.page.id == "p"
    requires "p" in c.store.pages && c.store.pages["p"].state.Acked?
    ensures Reached(d) && d.store == c.store && d.procs == map[1 := PagerExpired(job)]
  {
    hide Reached;
    ReachNext(c, PagerExpire(1));
    d := Apply(c, PagerExpire(1));
  }

  lemma LoggedExpiry(c: Config, job: Job) returns (d: Config)
    requires Reached(c) && c.procs == map[1 := PagerExpired(job)] && job.page.id == "p"
    ensures Reached(d) && d.store.pages == c.store.pages
    ensures Events(d.store, "p") == Events(c.store, "p") + [PageEvent("p", EvExpired, "", job.at)]
  {
    hide Reached;
    ReachNext(c, PagerExpireEvent(1, true));
    d := Apply(c, PagerExpireEvent(1, true));
  }

  /** A reachable page is acknowledged and its timeline ends in "expired". */
  lemma SomeTimelineSaysExpired() returns (d: Config)
    ensures Reached(d) && "p" in d.store.pages && d.store.pages["p"].state.Acked?
    ensures var es := Events(d.store, "p"); es != [] && es[|es| - 1].kind.EvExpired?
  {
    hide Reached, Filed, Events;
    var c, job := SomePagerExpires();
    c := AckMeanwhile(c, PagerExpiring(job));
    c := LostExpiry(c, job);
    d := LoggedExpiry(c, job);
  }

  /** Pager 1 has found no devices and is about to record attempt 0. */
  lemma SomePagerRecords() returns (c: Config, job: Job)
    ensures Reached(c) && Filed(c.store) && c.store.pages == map["p" := PAGE]
      && c.procs == map[1 := PagerRecording(job, 0)]
    ensures job.page == PAGE && job.m == FIRST
  {
    hide Reached, Filed, ListsDevices;
    c := SomePagerLists();
    job := c.procs[1].job;
    NoDevices(c.store, "b");
    ReachNext(c, PagerList(1, []));
    c := Apply(c, PagerList(1, []));
    ReachNext(c, PagerNoDevicesEvent(1, false));
    c := Apply(c, PagerNoDevicesEvent(1, false));
  }

  lemma SomePagerLists() returns (c: Config)
    ensures Reached(c) && Filed(c.store) && c.store.pages == map["p" := PAGE] && c.store.devices == map[]
    ensures 1 in c.procs && c.procs[1].PagerListing? && c.procs == map[1 := c.procs[1]]
    ensures c.procs[1].job.page == PAGE && c.procs[1].job.m == FIRST
  {
    hide Reached, Filed;
    c := SomeRunPages();
    ReachNext(c, PagerLoad(1, FIRST));
    c := Apply(c, PagerLoad(1, FIRST));
    ReachNext(c, PagerClock(1));
    c := Apply(c, PagerClock(1));
  }

  /** One of pager 1's writes meets an acknowledged page. */
  lemma LostRound(c: Config, job: Job, round: nat) returns (d: Config)
    requires Reached(c) && round < |ROUNDS| && c.procs == map[1 := PagerRecording(job, round)] && job.page.id == "p"
    requires "p" in c.store.pages && c.store.pages["p"].state.Acked?
    ensures Reached(d) && d.store == c.store
    ensures d.procs == map[1 :=
              if round + 1 < |ROUNDS| then PagerRecording(job, round + 1) else PagerRecorded(job, false)]
  {
    hide Reached;
    RoundsMeaning(Acked);
    ReachNext(c, PagerRecord(1));
    d := Apply(c, PagerRecord(1));
  }

  lemma LoggedPush(c: Config, job: Job) returns (d: Config)
    requires Reached(c) && c.procs == map[1 := PagerRecorded(job, false)] && job.page.id == "p"
    ensures Reached(d) && d.store.pages == c.store.pages
    ensures Events(d.store, "p") == Events(c.store, "p") + [PageEvent("p", EvPushAttempt, "", job.at)]
  {
    hide Reached;
    ReachNext(c, PagerPushEvent(1, true));
    d := Apply(c, PagerPushEvent(1, true));
  }

  /** A reachable page was acknowledged before any attempt was recorded, and its timeline ends in
      "push_attempt". */
  lemma SomeTimelineSaysPushed() returns (d: Config)
    ensures Reached(d) && "p" in d.store.pages && d.store.pages["p"].state.Acked? && d.store.pages["p"].attempt == -1
    ensures var es := Events(d.store, "p"); es != [] && es[|es| - 1].kind.EvPushAttempt?
  {
    hide Reached, Filed, Events;
    var c, job := SomePagerRecords();
    c := AckMeanwhile(c, PagerRecording(job, 0));
    c := LostRound(c, job, 0);
    c := LostRound(c, job, 1);
    c := LostRound(c, job, 2);
    d := LoggedPush(c, job);
  }

  // ------------------------------------------------------------ serial runs

  lemma SerialPairing() returns (cs: seq<Serial.Config>, steps: seq<Serial.Step>)
    ensures SerialTheorems.Run(cs, steps) && |cs| == 4
    ensures var c := cs[3];
      && c.store.pages == map[] && c.store.idem == map[] && c.queue == []
      && ("a", "b") in c.store.pairings && c.store.pairings[("a", "b")].status.PairingActive?
  {
    var c0 := Serial.Config(0, EMPTY, [], map[], 0);
    var s0 := Serial.BookkeepingCall(Serial.UserCall(ALICE));
    var s1 := Serial.BookkeepingCall(Serial.InviteCall(Invite("x", "a", 1)));
    var s2 := Serial.BookkeepingCall(Serial.AcceptCall("x", BOB, 0));
    var c1 := Serial.Apply(c0, s0);
    var c2 := Serial.Apply(c1, s1);
    cs, steps := [c0, c1, c2, Serial.Apply(c2, s2)], [s0, s1, s2];
  }

  /** Serial runs reach pages too: two people pair up and one pages the other. */
  lemma SerialRunHasPage() returns (cs: seq<Serial.Config>, steps: seq<Serial.Step>)
    ensures SerialTheorems.Run(cs, steps) && |cs| == |steps| + 1
    ensures "p" in cs[|steps|].store.pages && cs[|steps|].queue != []
  {
    hide Serial.Delivers, Serial.DoDeliver, Serial.Bookkeep, Api.AckEffect, Api.ReceiptEffect;
    cs, steps := SerialPairing();
    var create := Serial.CreateCall("a", "b", "come", "k", "p");
    cs, steps := cs + [Serial.Apply(cs[3], create)], steps + [create];
  }
}
