/** The converse of the uninterrupted outcomes: however a pager invocation that no other handler
    interrupts gets to its end, however long it takes, and whichever sends, deletions and appends fail
    on the way, it leaves exactly what the imperative handler leaves for some such environment. */
module Determined {
  import opened Model
  import opened Nag
  import opened PagerRules
  import S = Store
  import opened Protocol
  import opened Frames
  import opened Pager
  import opened Uninterrupted

  /** From c on, nothing but steps of one handler, and time. */
  ghost predicate Alone(t: Trace, c: Config, pid: nat) {
    && |t.cs| == |t.steps| + 1
    && t.cs[0] == c
    && forall i :: 0 <= i < |t.steps| ==>
         && (Taker(t.steps[i]) == Some(pid) || t.steps[i].Tick?)
         && Enabled(t.cs[i], t.steps[i]) && t.cs[i + 1] == Apply(t.cs[i], t.steps[i])
  }

  /** Only appends fail; what sends and deletions meet is in the token sets. */
  predicate OnlyAppendsFail(env: Env) {
    env.faults <= {NoDevicesCall, EventCall}
  }

  /** The page the message is about, as the invocation loaded it. */
  predicate Loaded(c: Config, m: Msg, page: Page) {
    m.task.pageId in c.store.pages && page == c.store.pages[m.task.pageId] && page.id == m.task.pageId
      && Active(page.state)
  }

  predicate Late(c: Config, m: Msg, job: Job, env: Env) {
    job.m == m && job.at == env.now && Loaded(c, m, job.page) && env.now > job.page.expiresAt
  }

  predicate InTime(c: Config, m: Msg, job: Job, env: Env) {
    && job.m == m && job.at == env.now && Loaded(c, m, job.page)
    && env.now <= job.page.expiresAt && job.page.attempt < m.task.attempt
  }

  /** The devices in front of todo have been pushed to, and env tells how that went. */
  ghost predicate Pushed(c: Config, job: Job, todo: seq<Device>, env: Env, listed: seq<Device>, store: S.State) {
    && S.ListsDevices(c.store, job.page.recipientId, listed) && listed != []
    && |todo| <= |listed| && todo == listed[|listed| - |todo|..]
    && (forall token :: token in env.gone ==> exists d :: d in listed[..|listed| - |todo|] && d.token == token)
    && env.stuck <= env.gone
    && store == c.store.(devices := c.store.devices - GoneAmong(listed[..|listed| - |todo|], env))
  }

  /** The next task, sent at some moment since the invocation read its clock. */
  function NextAt(next: Option<QueuedTask>, at: Time): multiset<Msg> {
    match next
    case None => multiset{}
    case Some(q) => multiset{Msg(q.task, at + if q.delay >= 0 then WholeSeconds(q.delay) else 0)}
  }

  ghost predicate Sent(c: Config, d: Config, next: Option<QueuedTask>, env: Env, sentAt: Time) {
    env.now <= sentAt <= d.now && d.queue == c.queue + NextAt(next, sentAt)
  }

  /** What holds of store and queue while the invocation stands at p. */
  ghost predicate Stage(c: Config, m: Msg, d: Config, p: Proc, env: Env, listed: seq<Device>) {
    match p
    case PagerLoaded(n, page, _) => n == m && Loaded(c, m, page) && d.store == c.store && d.queue == c.queue
    case PagerExpiring(job) => Late(c, m, job, env) && d.store == c.store && d.queue == c.queue
    case PagerExpired(job) =>
      && Late(c, m, job, env) && d.queue == c.queue
      && d.store == c.store.(pages := c.store.pages[job.page.id := job.page.(state := Expired)])
    case PagerListing(job) => InTime(c, m, job, env) && env == Calm(env.now) && d.store == c.store && d.queue == c.queue
    case PagerNoDevices(job) =>
      && InTime(c, m, job, env) && env == Calm(env.now) && d.store == c.store && d.queue == c.queue
      && S.DevicesOf(c.store, job.page.recipientId) == {}
    case PagerPushing(job, todo) =>
      InTime(c, m, job, env) && env.faults == {} && d.queue == c.queue && Pushed(c, job, todo, env, listed, d.store)
        && todo != []
    case PagerPruning(job, todo) =>
      InTime(c, m, job, env) && env.faults == {} && d.queue == c.queue && Pushed(c, job, todo, env, listed, d.store)
        && todo != []
    case PagerRecording(job, round) =>
      && InTime(c, m, job, env) && EventCall !in env.faults && d.queue == c.queue
      && d.store == AfterPush(c.store, job.page, env)
      && round < |ROUNDS| && forall k :: 0 <= k < round ==> job.page.state !in ROUNDS[k].0
    case PagerRecorded(job, _) =>
      && InTime(c, m, job, env) && EventCall !in env.faults && d.queue == c.queue
      && d.store == AttemptRecorded(AfterPush(c.store, job.page, env), job.page.id, m.task.attempt)
    case PagerEnqueuing(job, _) =>
      && InTime(c, m, job, env) && d.queue == c.queue
      && d.store == Attempted(AfterPush(c.store, job.page, env), job.page, m.task, env).store
    case PagerDone(n) =>
      var h := Handle(c.store, m.task, env);
      n == m && d.store == h.store && !h.failed && exists sentAt :: Sent(c, d, h.next, env, sentAt)
    case _ => false
  }

  ghost predicate OnTrack(c: Config, m: Msg, pid: nat, d: Config, env: Env, listed: seq<Device>) {
    && c.now <= d.now && OnlyAppendsFail(env)
    && pid in d.procs && d.procs == c.procs[pid := d.procs[pid]]
    && (d.procs[pid].PagerLoaded? || c.now <= env.now <= d.now)
    && Stage(c, m, d, d.procs[pid], env, listed)
  }

  /** The invocation has ended, having sent its next task, if any, at sentAt. */
  ghost predicate Ended(c: Config, m: Msg, d: Config, env: Env, sentAt: Time, deleted: bool) {
    var h := Handle(c.store, m.task, env);
    var queue := c.queue + NextAt(h.next, sentAt);
    && c.now <= env.now <= sentAt <= d.now
    && d.store == h.store && !h.failed && d.procs == c.procs
    && d.queue == if deleted then queue - multiset{m} else queue
  }

  // ------------------------------------------------------------ the outcome, branch by branch

  lemma DroppedOutcome(c: Config, m: Msg, env: Env)
    requires OnlyAppendsFail(env)
    requires m.task.pageId in c.store.pages && Active(c.store.pages[m.task.pageId].state) ==>
               env.now <= c.store.pages[m.task.pageId].expiresAt
                 && c.store.pages[m.task.pageId].attempt >= m.task.attempt
    ensures Handle(c.store, m.task, env) == Handled(c.store, None, false)
  {
  }

  lemma LateOutcome(c: Config, m: Msg, job: Job, env: Env)
    requires OnlyAppendsFail(env) && Late(c, m, job, env)
    ensures Handle(c.store, m.task, env) == Handled(Expire(c.store, job.page, env), None, false)
  {
  }

  lemma InTimeOutcome(c: Config, m: Msg, job: Job, env: Env)
    requires OnlyAppendsFail(env) && InTime(c, m, job, env)
    ensures Handle(c.store, m.task, env) == Attempted(AfterPush(c.store, job.page, env), job.page, m.task, env)
    ensures var h := Handle(c.store, m.task, env); !h.failed && h.next == NextTask(job.page, m.task.attempt, env.now)
  {
    hide S.DevicesOf, AfterPush, NextTask;
  }

  // ------------------------------------------------------------ step by step

  lemma NothingSent(c: Config, d: Config, env: Env)
    requires env.now <= d.now && d.queue == c.queue
    ensures Sent(c, d, None, env, d.now)
  {
    assert c.queue + multiset{} == c.queue;
  }

  lemma LoadOnTrack(c: Config, m: Msg, pid: nat)
    requires S.Filed(c.store)
    ensures OnTrack(c, m, pid, Count1(DoPagerLoad(c, pid, m)), Calm(c.now), [])
  {
    hide Handle, Sent;
    var d := Count1(DoPagerLoad(c, pid, m));
    if m.task.pageId in c.store.pages { FiledPage(c.store, m.task.pageId); }
    if m.task.pageId in c.store.pages ==> !Active(c.store.pages[m.task.pageId].state) {
      DroppedOutcome(c, m, Calm(c.now));
      NothingSent(c, d, Calm(c.now));
    }
    hide S.Filed;
  }

  lemma TickOnTrack(c: Config, m: Msg, pid: nat, d: Config, env: Env, listed: seq<Device>, t: Duration)
    requires OnTrack(c, m, pid, d, env, listed) && t >= 0
    ensures OnTrack(c, m, pid, Count1(d.(now := d.now + t)), env, listed)
  {
    hide Handle, AfterPush, Attempted, AttemptRecorded, Pushed, NextAt;
    var e := Count1(d.(now := d.now + t));
    if d.procs[pid].PagerDone? {
      var h := Handle(c.store, m.task, env);
      var sentAt :| Sent(c, d, h.next, env, sentAt);
      assert Sent(c, e, h.next, env, sentAt);
    }
  }

  lemma ClockOnTrack(c: Config, m: Msg, pid: nat, d: Config, env: Env, listed: seq<Device>)
    requires OnTrack(c, m, pid, d, env, listed) && d.procs[pid].PagerLoaded?
    ensures OnTrack(c, m, pid, Count1(DoPagerClock(d, pid)), Calm(d.now), [])
  {
    hide Handle, Sent;
    var page := d.procs[pid].page;
    var e := Count1(DoPagerClock(d, pid));
    if d.now <= page.expiresAt && page.attempt >= m.task.attempt {
      DroppedOutcome(c, m, Calm(d.now));
      NothingSent(c, e, Calm(d.now));
    }
  }

  lemma ExpireOnTrack(c: Config, m: Msg, pid: nat, d: Config, env: Env, listed: seq<Device>)
    requires OnTrack(c, m, pid, d, env, listed) && d.procs[pid].PagerExpiring?
    ensures OnTrack(c, m, pid, Count1(DoPagerExpire(d, pid)), env, listed)
  {
    hide Handle;
    assert d.procs[pid].job.page.state in S.ACTIVE_STATES;
  }

  /** The environment in which telling events are appended or not. */
  function Appending(env: Env, stored: bool): Env {
    if stored then env.(faults := env.faults - {EventCall}) else env.(faults := env.faults + {EventCall})
  }

  lemma ExpireEventOnTrack(c: Config, m: Msg, pid: nat, d: Config, env: Env, listed: seq<Device>, stored: bool)
    requires OnTrack(c, m, pid, d, env, listed) && d.procs[pid].PagerExpired?
    ensures OnTrack(c, m, pid, Count1(DoPagerExpireEvent(d, pid, stored)), Appending(env, stored), listed)
  {
    hide Handle, Sent, S.AppendEvent;
    var job := d.procs[pid].job;
    LateOutcome(c, m, job, Appending(env, stored));
    NothingSent(c, Count1(DoPagerExpireEvent(d, pid, stored)), Appending(env, stored));
  }

  lemma ListOnTrack(c: Config, m: Msg, pid: nat, d: Config, env: Env, devices: seq<Device>)
    requires OnTrack(c, m, pid, d, env, []) && d.procs[pid].PagerListing?
    requires S.ListsDevices(d.store, d.procs[pid].job.page.recipientId, devices)
    ensures OnTrack(c, m, pid, Count1(DoPagerList(d, pid, devices)), env, devices)
  {
    hide Handle, S.ListsDevices, S.DevicesOf;
    NoneListed(c.store, d.procs[pid].job.page.recipientId, devices);
    NoneGone(env);
    assert devices[..0] == [];
  }

  lemma NoDevicesOnTrack(c: Config, m: Msg, pid: nat, d: Config, env: Env, listed: seq<Device>, stored: bool)
    requires OnTrack(c, m, pid, d, env, listed) && d.procs[pid].PagerNoDevices?
    ensures OnTrack(c, m, pid, Count1(DoPagerNoDevicesEvent(d, pid, stored)),
                    env.(faults := if stored then {} else {NoDevicesCall}), listed)
  {
    hide Handle, S.AppendEvent, S.DevicesOf;
  }

  /** When the last device has been pushed to, the store is as the push loop leaves it. */
  lemma AllPushed(c: Config, job: Job, env: Env, listed: seq<Device>, store: S.State)
    requires S.Filed(c.store) && Pushed(c, job, [], env, listed, store)
    ensures store == AfterPush(c.store, job.page, env)
  {
    hide S.Filed, GoneAmong;
    assert listed[..|listed|] == listed;
    NoneListed(c.store, job.page.recipientId, listed);
    hide S.ListsDevices, S.DevicesOf, Prune;
    GoneAmongAll(c.store, job.page.recipientId, listed, env);
  }

  /** The devices of a user have different tokens. */
  lemma TokenIsNew(c: Config, job: Job, todo: seq<Device>, env: Env, listed: seq<Device>, store: S.State)
    requires S.Filed(c.store) && todo != [] && Pushed(c, job, todo, env, listed, store)
    ensures todo[0].token !in env.gone
    ensures forall d :: d in listed[..|listed| - |todo|] ==> d.token != todo[0].token
  {
    var n := |listed| - |todo|;
    var x := todo[0];
    assert listed[n] == x;
    forall d | d in listed[..n] ensures d.token != x.token {
      var k :| 0 <= k < n && listed[k] == d;
      assert listed[k] in listed && listed[n] in listed;
      OneDevice(c.store, job.page.recipientId, d, x);
    }
  }

  lemma OneDevice(s: S.State, userId: string, d: Device, e: Device)
    requires S.Filed(s) && d in S.DevicesOf(s, userId) && e in S.DevicesOf(s, userId)
    ensures d.token == e.token ==> d == e
  {
  }

  /** What is known of a device after its push. */
  function Learned(env: Env, token: string, gone: bool, deleted: bool): Env {
    if !gone then env
    else env.(gone := env.gone + {token}, stuck := if deleted then env.stuck else env.stuck + {token})
  }

  /** One more device has been pushed to. */
  lemma PushedNext(c: Config, job: Job, todo: seq<Device>, env: Env, listed: seq<Device>, store: S.State, gone: bool,
                   deleted: bool)
    requires S.Filed(c.store) && todo != [] && Pushed(c, job, todo, env, listed, store)
    ensures Pushed(c, job, todo[1..], Learned(env, todo[0].token, gone, deleted), listed,
                   if gone && deleted then S.DeleteDevice(store, todo[0].userId, todo[0].token) else store)
  {
    hide S.Filed, S.ListsDevices, GoneAmong, Dropped, S.DevicesOf;
    var n := |listed| - |todo|;
    var x := todo[0];
    var env2 := Learned(env, x.token, gone, deleted);
    var more := if gone && deleted then {(x.userId, x.token)} else {};
    TokenIsNew(c, job, todo, env, listed, store);
    assert x == listed[n];
    DroppedNow(env, x.token, gone, deleted);
    GoneMeans(listed, n, env, env2, more);
    SetMinus(c.store.devices, GoneAmong(listed[..n], env), more);
    TokensPushed(listed, n, env, env2);
  }

  lemma DroppedNow(env: Env, token: string, gone: bool, deleted: bool)
    requires token !in env.gone && env.stuck <= env.gone
    ensures Dropped(Learned(env, token, gone, deleted), token) <==> gone && deleted
  {
  }

  lemma TokensPushed(listed: seq<Device>, n: nat, env: Env, env2: Env)
    requires n < |listed| && env2.gone <= env.gone + {listed[n].token}
    requires forall token :: token in env.gone ==> exists d :: d in listed[..n] && d.token == token
    ensures forall token :: token in env2.gone ==> exists d :: d in listed[..n + 1] && d.token == token
  {
    assert listed[..n + 1] == listed[..n] + [listed[n]];
    forall token | token in env2.gone ensures exists d :: d in listed[..n + 1] && d.token == token {
      if token in env.gone {
        var d :| d in listed[..n] && d.token == token;
        assert d in listed[..n + 1];
      } else {
        assert listed[n] in listed[..n + 1];
      }
    }
  }

  lemma SetMinus(m: map<(string, string), Device>, a: set<(string, string)>, b: set<(string, string)>)
    ensures m - (a + b) == (m - a) - b
    ensures (m - a) - {} == m - a
  {
  }

  lemma GoneMeans(listed: seq<Device>, n: nat, env: Env, env2: Env, more: set<(string, string)>)
    requires n < |listed| && env2.stuck <= env2.gone
    requires forall d :: d in listed[..n] ==> d.token != listed[n].token
    requires listed[n].token !in env.gone
    requires forall token :: token != listed[n].token ==>
               (token in env2.gone <==> token in env.gone) && (token in env2.stuck <==> token in env.stuck)
    requires more == if Dropped(env2, listed[n].token) then {(listed[n].userId, listed[n].token)} else {}
    ensures GoneAmong(listed[..n + 1], env2) == GoneAmong(listed[..n], env) + more
  {
    GoneAmongNext(listed, n, env2);
    assert GoneAmong(listed[..n], env2) == GoneAmong(listed[..n], env);
  }

  lemma SendOnTrack(c: Config, m: Msg, pid: nat, d: Config, env: Env, listed: seq<Device>, result: SendResult)
    requires OnTrack(c, m, pid, d, env, listed) && d.procs[pid].PagerPushing? && S.Filed(c.store)
    ensures OnTrack(c, m, pid, Count1(DoPagerSend(d, pid, result)), env, listed)
  {
    hide Handle, S.Filed, Pushed, AfterPush;
    var p := d.procs[pid];
    if !result.SendGone? {
      PushedNext(c, p.job, p.todo, env, listed, d.store, false, false);
      if p.todo[1..] == [] { AllPushed(c, p.job, env, listed, d.store); }
    }
  }

  lemma PruneOnTrack(c: Config, m: Msg, pid: nat, d: Config, env: Env, listed: seq<Device>, deleted: bool)
    requires OnTrack(c, m, pid, d, env, listed) && d.procs[pid].PagerPruning? && S.Filed(c.store)
    ensures OnTrack(c, m, pid, Count1(DoPagerPrune(d, pid, deleted)),
                    Learned(env, d.procs[pid].todo[0].token, true, deleted), listed)
  {
    hide Handle, S.Filed, Pushed, AfterPush, S.DeleteDevice;
    var p := d.procs[pid];
    PushedNext(c, p.job, p.todo, env, listed, d.store, true, deleted);
    if p.todo[1..] == [] {
      AllPushed(c, p.job, Learned(env, p.todo[0].token, true, deleted), listed,
        Count1(DoPagerPrune(d, pid, deleted)).store);
    }
  }

  lemma RecordOnTrack(c: Config, m: Msg, pid: nat, d: Config, env: Env, listed: seq<Device>)
    requires OnTrack(c, m, pid, d, env, listed) && d.procs[pid].PagerRecording? && d.procs[pid].round < |ROUNDS|
    ensures OnTrack(c, m, pid, Count1(DoPagerRecord(d, pid)), env, listed)
  {
    hide Handle, AfterPush;
    var job := d.procs[pid].job;
    RoundsMeaning(job.page.state);
    AfterPushKeepsPages(c.store, job.page, env);
  }

  lemma PushEventOnTrack(c: Config, m: Msg, pid: nat, d: Config, env: Env, listed: seq<Device>, stored: bool)
    requires OnTrack(c, m, pid, d, env, listed) && d.procs[pid].PagerRecorded?
    ensures OnTrack(c, m, pid, Count1(DoPagerPushEvent(d, pid, stored)), Appending(env, stored), listed)
  {
    hide Handle, AttemptRecorded, AfterPush, S.AppendEvent, NextTask;
    SamePush(c.store, d.procs[pid].job.page, env, stored);
  }

  lemma SamePush(s: S.State, page: Page, env: Env, stored: bool)
    ensures AfterPush(s, page, Appending(env, stored)) == AfterPush(s, page, env)
  {
    hide S.DevicesOf, S.AppendEvent;
    assert GoneDevices(s, page.recipientId, Appending(env, stored)) == GoneDevices(s, page.recipientId, env);
  }

  lemma EnqueueOnTrack(c: Config, m: Msg, pid: nat, d: Config, env: Env, listed: seq<Device>)
    requires OnTrack(c, m, pid, d, env, listed) && d.procs[pid].PagerEnqueuing?
    ensures OnTrack(c, m, pid, Count1(DoPagerEnqueue(d, pid)), env, listed)
  {
    hide Handle, AfterPush, Attempted, DoPagerEnqueue;
    var job := d.procs[pid].job;
    InTimeOutcome(c, m, job, env);
    EnqueuedIsNext(d, d, pid, job, d.procs[pid].won, d.store);
    assert Sent(c, Count1(DoPagerEnqueue(d, pid)), NextTask(job.page, m.task.attempt, env.now), env, d.now);
  }

  lemma FinishEnds(c: Config, m: Msg, pid: nat, d: Config, env: Env, listed: seq<Device>, deleted: bool)
      returns (sentAt: Time)
    requires OnTrack(c, m, pid, d, env, listed) && d.procs[pid].PagerDone? && pid !in c.procs
    ensures Ended(c, m, Count1(DoPagerFinish(d, pid, deleted)), env, sentAt, deleted)
  {
    hide Handle, NextAt;
    Left(c.procs, pid, d.procs[pid]);
    sentAt :| Sent(c, d, Handle(c.store, m.task, env).next, env, sentAt);
  }

  /** The handler is a pager throughout, and before its listing no device is listed. */
  lemma AtPager(c: Config, m: Msg, pid: nat, d: Config, env: Env, listed: seq<Device>)
    requires OnTrack(c, m, pid, d, env, listed)
    ensures pid in d.procs && Carries(d.procs[pid]).Some?
    ensures d.procs[pid].PagerListing? ==> OnTrack(c, m, pid, d, env, [])
  {
    hide Handle;
  }

  lemma EarlyOnTrack(c: Config, m: Msg, pid: nat, d: Config, s: Step, env: Env, listed: seq<Device>)
      returns (env2: Env, listed2: seq<Device>)
    requires OnTrack(c, m, pid, d, env, listed) && Enabled(d, s) && Taker(s) == Some(pid)
    requires s.PagerClock? || s.PagerExpire? || s.PagerExpireEvent? || s.PagerList? || s.PagerNoDevicesEvent?
    ensures OnTrack(c, m, pid, Apply(d, s), env2, listed2)
  {
    hide OnTrack, S.ListsDevices, Count1, DoPagerClock, DoPagerExpire, DoPagerExpireEvent, DoPagerList,
      DoPagerNoDevicesEvent;
    AtPager(c, m, pid, d, env, listed);
    env2, listed2 := env, listed;
    match s
    case PagerClock(_) => ClockOnTrack(c, m, pid, d, env, listed); env2, listed2 := Calm(d.now), [];
    case PagerExpire(_) => ExpireOnTrack(c, m, pid, d, env, listed);
    case PagerExpireEvent(_, stored) =>
      ExpireEventOnTrack(c, m, pid, d, env, listed, stored); env2 := Appending(env, stored);
    case PagerList(_, devices) => ListOnTrack(c, m, pid, d, env, devices); listed2 := devices;
    case PagerNoDevicesEvent(_, stored) =>
      NoDevicesOnTrack(c, m, pid, d, env, listed, stored);
      env2 := env.(faults := if stored then {} else {NoDevicesCall});
  }

  lemma LateOnTrack(c: Config, m: Msg, pid: nat, d: Config, s: Step, env: Env, listed: seq<Device>) returns (env2: Env)
    requires S.Filed(c.store) && OnTrack(c, m, pid, d, env, listed) && Enabled(d, s) && Taker(s) == Some(pid)
    requires s.PagerSend? || s.PagerPrune? || s.PagerRecord? || s.PagerPushEvent? || s.PagerEnqueue?
    ensures OnTrack(c, m, pid, Apply(d, s), env2, listed)
  {
    hide OnTrack, S.Filed, Count1, DoPagerSend, DoPagerPrune, DoPagerRecord, DoPagerPushEvent, DoPagerEnqueue;
    AtPager(c, m, pid, d, env, listed);
    env2 := env;
    match s
    case PagerSend(_, result) => SendOnTrack(c, m, pid, d, env, listed, result);
    case PagerPrune(_, deleted) =>
      PruneOnTrack(c, m, pid, d, env, listed, deleted);
      env2 := Learned(env, d.procs[pid].todo[0].token, true, deleted);
    case PagerRecord(_) => RecordOnTrack(c, m, pid, d, env, listed);
    case PagerPushEvent(_, stored) =>
      PushEventOnTrack(c, m, pid, d, env, listed, stored); env2 := Appending(env, stored);
    case PagerEnqueue(_) => EnqueueOnTrack(c, m, pid, d, env, listed);
  }

  /** A pager in flight takes only steps of a pager. */
  lemma PagerTakes(d: Config, s: Step, pid: nat)
    requires Enabled(d, s) && Taker(s) == Some(pid) && pid in d.procs && Carries(d.procs[pid]).Some?
    ensures PagerStep(s) || s.Crash?
    ensures !s.PagerLoad?
  {
    hide S.ListsDevices;
  }

  lemma StepOnTrack(c: Config, m: Msg, pid: nat, d: Config, s: Step, env: Env, listed: seq<Device>)
      returns (env2: Env, listed2: seq<Device>)
    requires S.Filed(c.store) && OnTrack(c, m, pid, d, env, listed) && Enabled(d, s)
    requires (Taker(s) == Some(pid) || s.Tick?) && !s.Crash? && !s.PagerFinish?
    ensures OnTrack(c, m, pid, Apply(d, s), env2, listed2)
  {
    hide OnTrack, Enabled, Apply, S.Filed, Taker;
    if s.Tick? {
      TickApplies(d, s);
      TickOnTrack(c, m, pid, d, env, listed, s.d);
      env2, listed2 := env, listed;
    } else {
      AtPager(c, m, pid, d, env, listed);
      PagerTakes(d, s, pid);
      if s.PagerSend? || s.PagerPrune? || s.PagerRecord? || s.PagerPushEvent? || s.PagerEnqueue? {
        env2 := LateOnTrack(c, m, pid, d, s, env, listed);
        listed2 := listed;
      } else {
        env2, listed2 := EarlyOnTrack(c, m, pid, d, s, env, listed);
      }
    }
  }

  lemma TickApplies(d: Config, s: Step)
    requires Enabled(d, s) && s.Tick?
    ensures s.d >= 0 && Apply(d, s) == Count1(d.(now := d.now + s.d))
  {
  }

  lemma {:induction false} RunOnTrack(t: Trace, c: Config, pid: nat, m: Msg, i: nat)
      returns (env: Env, listed: seq<Device>)
    requires Alone(t, c, pid) && S.Filed(c.store) && t.steps != [] && t.steps[0] == PagerLoad(pid, m)
    requires 1 <= i < |t.cs| && forall k :: 0 <= k < i ==> !t.steps[k].Crash? && !t.steps[k].PagerFinish?
    ensures OnTrack(c, m, pid, t.cs[i], env, listed)
  {
    hide OnTrack, Enabled, DoPagerLoad, Count1, S.Filed, Taker;
    if i == 1 {
      LoadOnTrack(c, m, pid);
      env, listed := Calm(c.now), [];
    } else {
      hide Apply;
      env, listed := RunOnTrack(t, c, pid, m, i - 1);
      env, listed := StepOnTrack(c, m, pid, t.cs[i - 1], t.steps[i - 1], env, listed);
    }
  }

  lemma FinishApplies(d: Config, pid: nat, deleted: bool)
    requires Enabled(d, PagerFinish(pid, deleted))
    ensures pid in d.procs && d.procs[pid].PagerDone?
    ensures Apply(d, PagerFinish(pid, deleted)) == Count1(DoPagerFinish(d, pid, deleted))
  {
  }

  lemma OnlyAppends(c: Config, m: Msg, pid: nat, d: Config, env: Env, listed: seq<Device>)
    requires OnTrack(c, m, pid, d, env, listed)
    ensures OnlyAppendsFail(env)
  {
  }

  /** Every invocation that no other handler interrupts and that reaches its end leaves store, queue
      and the other handlers exactly as the imperative handler does for some clock reading, some
      outcomes of sends and deletions, and some failing appends; however long it takes. */
  lemma CompletedPagerIsHandle(t: Trace, c: Config, pid: nat, m: Msg, deleted: bool) returns (env: Env, sentAt: Time)
    requires Alone(t, c, pid) && S.Filed(c.store) && pid !in c.procs
    requires |t.steps| >= 2 && t.steps[0] == PagerLoad(pid, m) && t.steps[|t.steps| - 1] == PagerFinish(pid, deleted)
    requires forall k :: 0 <= k < |t.steps| - 1 ==> !t.steps[k].Crash? && !t.steps[k].PagerFinish?
    ensures t.cs != [] && OnlyAppendsFail(env) && Ended(c, m, End(t), env, sentAt, deleted)
  {
    hide OnTrack, Enabled, Apply, Ended, S.Filed, Taker, OnlyAppendsFail;
    var n := |t.steps| - 1;
    var listed;
    env, listed := RunOnTrack(t, c, pid, m, n);
    OnlyAppends(c, m, pid, t.cs[n], env, listed);
    FinishApplies(t.cs[n], pid, deleted);
    sentAt := FinishEnds(c, m, pid, t.cs[n], env, listed, deleted);
  }
}
