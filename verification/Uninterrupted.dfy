/** The two models of the handlers meet: a handler of the fine-grained protocol whose steps no
    other handler comes between does to store and queue what the imperative handler is proved to
    do. */
module Uninterrupted {
  import opened Model
  import opened Nag
  import opened PagerRules
  import S = Store
  import opened Protocol
  import opened Frames
  import opened Pager
  import Api

  /** A stretch of a run. */
  datatype Trace = Trace(cs: seq<Config>, steps: seq<Step>)

  /** From c on, nothing but steps of one handler. */
  ghost predicate Solo(t: Trace, c: Config, pid: nat) {
    && |t.cs| == |t.steps| + 1
    && t.cs[0] == c
    && forall i :: 0 <= i < |t.steps| ==>
         Taker(t.steps[i]) == Some(pid) && Enabled(t.cs[i], t.steps[i]) && t.cs[i + 1] == Apply(t.cs[i], t.steps[i])
  }

  function End(t: Trace): Config
    requires t.cs != []
  {
    t.cs[|t.cs| - 1]
  }

  lemma Extend(t: Trace, c: Config, pid: nat, s: Step) returns (u: Trace)
    requires Solo(t, c, pid) && Taker(s) == Some(pid) && Enabled(End(t), s)
    ensures Solo(u, c, pid) && End(u) == Apply(End(t), s)
  {
    hide Enabled, Effects, Taker;
    u := Trace(t.cs + [Apply(End(t), s)], t.steps + [s]);
    forall i | 0 <= i < |u.steps|
      ensures Taker(u.steps[i]) == Some(pid) && Enabled(u.cs[i], u.steps[i])
        && u.cs[i + 1] == Apply(u.cs[i], u.steps[i])
    {
      if i < |t.steps| { assert u.steps[i] == t.steps[i] && u.cs[i] == t.cs[i] && u.cs[i + 1] == t.cs[i + 1]; }
    }
  }

  /** The handler stands at p over the given store and queue; everyone else is where they were. */
  ghost predicate At(t: Trace, c: Config, pid: nat, p: Proc, store: S.State, queue: multiset<Msg>) {
    && Solo(t, c, pid)
    && End(t).now == c.now && End(t).store == store && End(t).queue == queue && End(t).procs == c.procs[pid := p]
  }

  ghost predicate Gone(t: Trace, c: Config, pid: nat, store: S.State, queue: multiset<Msg>) {
    && Solo(t, c, pid)
    && End(t).now == c.now && End(t).store == store && End(t).queue == queue && End(t).procs == c.procs
  }

  lemma CrashStage(t: Trace, c: Config, pid: nat, p: Proc, store: S.State, queue: multiset<Msg>) returns (u: Trace)
    requires pid !in c.procs && At(t, c, pid, p, store, queue)
    ensures Gone(u, c, pid, store, queue)
  {
    hide Solo;
    AtSolo(t, c, pid, p, store, queue);
    u := Extend(t, c, pid, Crash(pid));
    assert c.procs[pid := p] - {pid} == c.procs;
  }

  lemma AtSolo(t: Trace, c: Config, pid: nat, p: Proc, store: S.State, queue: multiset<Msg>)
    requires At(t, c, pid, p, store, queue)
    ensures t.cs != []
  {
  }

  lemma FinishStage(t: Trace, c: Config, pid: nat, m: Msg, store: S.State, queue: multiset<Msg>) returns (u: Trace)
    requires pid !in c.procs && At(t, c, pid, PagerDone(m), store, queue)
    ensures Gone(u, c, pid, store, queue - multiset{m})
  {
    hide Solo;
    AtSolo(t, c, pid, PagerDone(m), store, queue);
    u := Extend(t, c, pid, PagerFinish(pid, true));
    assert c.procs[pid := PagerDone(m)] - {pid} == c.procs;
  }

  lemma LoadStage(c: Config, pid: nat, m: Msg) returns (u: Trace)
    requires pid !in c.procs && m in c.queue && m.ready <= c.now
    ensures At(u, c, pid, AfterLoad(m, S.GetPage(c.store, m.task.pageId), c.hist.step), c.store, c.queue)
  {
    hide AfterLoad;
    var t := Trace([c], []);
    assert Solo(t, c, pid);
    u := Extend(t, c, pid, PagerLoad(pid, m));
  }

  lemma ClockStage(t: Trace, c: Config, pid: nat, p: Proc) returns (u: Trace)
    requires p.PagerLoaded? && At(t, c, pid, p, c.store, c.queue)
    ensures At(u, c, pid, AfterClock(p, c.now), c.store, c.queue)
  {
    hide Solo, AfterClock;
    AtSolo(t, c, pid, p, c.store, c.queue);
    u := Extend(t, c, pid, PagerClock(pid));
  }

  lemma ExpireStage(t: Trace, c: Config, pid: nat, job: Job, env: Env) returns (u: Trace)
    requires At(t, c, pid, PagerExpiring(job), c.store, c.queue)
    requires job.page.id in c.store.pages && c.store.pages[job.page.id] == job.page && Active(job.page.state)
    requires env.now == job.at
    ensures At(u, c, pid, PagerDone(job.m), Expire(c.store, job.page, env), c.queue)
  {
    hide Solo, S.AppendEvent;
    AtSolo(t, c, pid, PagerExpiring(job), c.store, c.queue);
    assert job.page.state in S.ACTIVE_STATES;
    u := Extend(t, c, pid, PagerExpire(pid));
    var expired := c.store.(pages := c.store.pages[job.page.id := job.page.(state := Expired)]);
    assert At(u, c, pid, PagerExpired(job), expired, c.queue);
    hide *;
    u := ExpireEventStage(u, c, pid, job, env, expired);
    ExpireMeans(c.store, job.page, env);
  }

  lemma ExpireMeans(s: S.State, page: Page, env: Env)
    ensures Expire(s, page, env)
      == Append(s.(pages := s.pages[page.id := page.(state := Expired)]), env, page.id, EvExpired)
  {
  }

  lemma ExpireEventStage(t: Trace, c: Config, pid: nat, job: Job, env: Env, store: S.State) returns (u: Trace)
    requires At(t, c, pid, PagerExpired(job), store, c.queue) && env.now == job.at
    ensures At(u, c, pid, PagerDone(job.m), Append(store, env, job.page.id, EvExpired), c.queue)
  {
    hide Solo, S.AppendEvent;
    AtSolo(t, c, pid, PagerExpired(job), store, c.queue);
    u := Extend(t, c, pid, PagerExpireEvent(pid, Logs(env, EvExpired)));
  }

  // ------------------------------------------------------------ the push loop

  function Reported(env: Env, token: string): SendResult {
    if token in env.gone then SendGone else if token in env.failing then SendFailed else SendOk
  }

  lemma SendStage(t: Trace, c: Config, pid: nat, job: Job, todo: seq<Device>, store: S.State, env: Env)
      returns (u: Trace)
    requires todo != [] && At(t, c, pid, PagerPushing(job, todo), store, c.queue)
    ensures At(u, c, pid,
               if todo[0].token in env.gone then PagerPruning(job, todo) else AfterSend(job, todo[1..]),
               store, c.queue)
  {
    hide Solo, AfterSend;
    AtSolo(t, c, pid, PagerPushing(job, todo), store, c.queue);
    u := Extend(t, c, pid, PagerSend(pid, Reported(env, todo[0].token)));
  }

  lemma PruneStage(t: Trace, c: Config, pid: nat, job: Job, todo: seq<Device>, store: S.State, deleted: bool)
      returns (u: Trace)
    requires todo != [] && At(t, c, pid, PagerPruning(job, todo), store, c.queue)
    ensures At(u, c, pid, AfterSend(job, todo[1..]),
               if deleted then S.DeleteDevice(store, todo[0].userId, todo[0].token) else store, c.queue)
  {
    hide Solo, AfterSend, S.DeleteDevice;
    AtSolo(t, c, pid, PagerPruning(job, todo), store, c.queue);
    u := Extend(t, c, pid, PagerPrune(pid, deleted));
  }

  /** Pushing to one device, and deleting it if it is reported gone. */
  lemma PushOne(t: Trace, c: Config, pid: nat, job: Job, todo: seq<Device>, store: S.State, env: Env)
      returns (u: Trace, left: S.State)
    requires todo != [] && At(t, c, pid, PagerPushing(job, todo), store, c.queue)
    ensures left == store.(devices := store.devices - GoneAmong([todo[0]], env))
    ensures At(u, c, pid, AfterSend(job, todo[1..]), left, c.queue)
  {
    hide At, AfterSend;
    left := store.(devices := store.devices - GoneAmong([todo[0]], env));
    u := SendStage(t, c, pid, job, todo, store, env);
    if todo[0].token in env.gone {
      u := PruneStage(u, c, pid, job, todo, store, todo[0].token !in env.stuck);
      assert left.devices == if todo[0].token in env.stuck then store.devices
        else store.devices - {(todo[0].userId, todo[0].token)};
    } else {
      assert left.devices == store.devices;
    }
  }

  lemma {:induction false} PushStage(t: Trace, c: Config, pid: nat, job: Job, todo: seq<Device>, store: S.State,
                                     env: Env) returns (u: Trace)
    requires At(t, c, pid, AfterSend(job, todo), store, c.queue)
    ensures At(u, c, pid, PagerRecording(job, 0), store.(devices := store.devices - GoneAmong(todo, env)), c.queue)
    decreases |todo|
  {
    hide At;
    if todo == [] {
      u := t;
      assert store.devices - GoneAmong(todo, env) == store.devices;
    } else {
      var left;
      u, left := PushOne(t, c, pid, job, todo, store, env);
      u := PushStage(u, c, pid, job, todo[1..], left, env);
      assert todo == [todo[0]] + todo[1..];
      assert GoneAmong(todo, env) == GoneAmong([todo[0]], env) + GoneAmong(todo[1..], env);
      assert left.devices - GoneAmong(todo[1..], env) == store.devices - GoneAmong(todo, env);
    }
  }

  lemma ListingStage(t: Trace, c: Config, pid: nat, job: Job, listed: seq<Device>) returns (u: Trace)
    requires At(t, c, pid, PagerListing(job), c.store, c.queue)
    requires S.ListsDevices(c.store, job.page.recipientId, listed)
    ensures At(u, c, pid, if listed == [] then PagerNoDevices(job) else PagerPushing(job, listed), c.store, c.queue)
  {
    hide Solo, S.ListsDevices;
    AtSolo(t, c, pid, PagerListing(job), c.store, c.queue);
    u := Extend(t, c, pid, PagerList(pid, listed));
  }

  lemma NoDevicesStage(t: Trace, c: Config, pid: nat, job: Job, env: Env) returns (u: Trace)
    requires At(t, c, pid, PagerNoDevices(job), c.store, c.queue) && env.now == job.at
    ensures At(u, c, pid, PagerRecording(job, 0), Append(c.store, env, job.page.id, EvNoDevices), c.queue)
  {
    hide Solo, S.AppendEvent;
    AtSolo(t, c, pid, PagerNoDevices(job), c.store, c.queue);
    u := Extend(t, c, pid, PagerNoDevicesEvent(pid, Logs(env, EvNoDevices)));
  }

  /** Listing the devices, and pushing to them or noting that there are none. */
  lemma ListStage(t: Trace, c: Config, pid: nat, job: Job, env: Env, listed: seq<Device>) returns (u: Trace)
    requires At(t, c, pid, PagerListing(job), c.store, c.queue) && S.Filed(c.store)
    requires S.ListsDevices(c.store, job.page.recipientId, listed) && env.now == job.at
    ensures At(u, c, pid, PagerRecording(job, 0), AfterPush(c.store, job.page, env), c.queue)
  {
    hide At, S.Filed, S.ListsDevices, S.DevicesOf, Append, Prune, GoneAmong;
    NoneListed(c.store, job.page.recipientId, listed);
    u := ListingStage(t, c, pid, job, listed);
    if listed == [] {
      u := NoDevicesStage(u, c, pid, job, env);
    } else {
      u := PushStage(u, c, pid, job, listed, c.store, env);
      GoneAmongAll(c.store, job.page.recipientId, listed, env);
    }
  }

  lemma NoneListed(s: S.State, userId: string, listed: seq<Device>)
    requires S.ListsDevices(s, userId, listed)
    ensures listed == [] <==> S.DevicesOf(s, userId) == {}
  {
    if listed != [] { assert listed[0] in listed; }
  }

  /** The pager stops at the device it would have pushed to first. */
  lemma SenderDown(t: Trace, c: Config, pid: nat, job: Job, listed: seq<Device>) returns (u: Trace)
    requires pid !in c.procs && At(t, c, pid, PagerListing(job), c.store, c.queue)
    requires S.ListsDevices(c.store, job.page.recipientId, listed) && listed != []
    ensures Gone(u, c, pid, c.store, c.queue)
  {
    hide At, Gone;
    u := ListingStage(t, c, pid, job, listed);
    u := CrashStage(u, c, pid, PagerPushing(job, listed), c.store, c.queue);
  }

  // ------------------------------------------------------------ recording and scheduling

  /** One of the three writes. */
  lemma RoundStage(t: Trace, c: Config, pid: nat, job: Job, round: nat, store: S.State) returns (u: Trace)
    requires round < |ROUNDS| && At(t, c, pid, PagerRecording(job, round), store, c.queue)
    requires job.page.id in store.pages
    ensures store.pages[job.page.id].state in ROUNDS[round].0 ==>
              At(u, c, pid, PagerRecorded(job, true),
                S.SetPageState(store, job.page.id, ROUNDS[round].0, ROUNDS[round].1, job.m.task.attempt).0, c.queue)
    ensures store.pages[job.page.id].state !in ROUNDS[round].0 && round + 1 < |ROUNDS| ==>
              At(u, c, pid, PagerRecording(job, round + 1), store, c.queue)
  {
    hide Solo;
    AtSolo(t, c, pid, PagerRecording(job, round), store, c.queue);
    u := Extend(t, c, pid, PagerRecord(pid));
  }

  /** Without interference the first write that matches the state wins, and nothing is lost. */
  lemma RecordStage(t: Trace, c: Config, pid: nat, job: Job, store: S.State) returns (u: Trace)
    requires At(t, c, pid, PagerRecording(job, 0), store, c.queue)
    requires job.page.id in store.pages && Active(store.pages[job.page.id].state)
    ensures At(u, c, pid, PagerRecorded(job, true), AttemptRecorded(store, job.page.id, job.m.task.attempt), c.queue)
  {
    hide At;
    var st := store.pages[job.page.id].state;
    RoundsMeaning(st);
    u := RoundStage(t, c, pid, job, 0, store);
    if !st.Created? && !st.Pushed? {
      u := RoundStage(u, c, pid, job, 1, store);
      if st.Seen? {
        u := RoundStage(u, c, pid, job, 2, store);
      }
    }
  }

  lemma PushEventStage(t: Trace, c: Config, pid: nat, job: Job, env: Env, store: S.State) returns (u: Trace)
    requires At(t, c, pid, PagerRecorded(job, true), store, c.queue) && env.now == job.at
    ensures At(u, c, pid, PagerEnqueuing(job, true), Append(store, env, job.page.id, EvPushAttempt), c.queue)
  {
    hide Solo, S.AppendEvent;
    AtSolo(t, c, pid, PagerRecorded(job, true), store, c.queue);
    u := Extend(t, c, pid, PagerPushEvent(pid, Logs(env, EvPushAttempt)));
  }

  /** What the enqueueing step adds is what the imperative handler enqueues. */
  lemma EnqueuedIsNext(c: Config, d: Config, pid: nat, job: Job, won: bool, store: S.State)
    requires pid in d.procs && d.procs[pid] == PagerEnqueuing(job, won) && d.now == c.now && d.queue == c.queue
    ensures var e := DoPagerEnqueue(d, pid);
      && e.now == d.now && e.store == d.store && e.procs == d.procs[pid := PagerDone(job.m)]
      && e.queue == c.queue + Next(c, Handled(store, NextTask(job.page, job.m.task.attempt, job.at), false))
  {
    hide FollowUp;
    assert c.queue + multiset{} == c.queue;
  }

  lemma EnqueueStage(t: Trace, c: Config, pid: nat, job: Job, store: S.State) returns (u: Trace)
    requires At(t, c, pid, PagerEnqueuing(job, true), store, c.queue)
    ensures At(u, c, pid, PagerDone(job.m), store,
               c.queue + Next(c, Handled(store, NextTask(job.page, job.m.task.attempt, job.at), false)))
  {
    hide Solo, DoPagerEnqueue, Next;
    AtSolo(t, c, pid, PagerEnqueuing(job, true), store, c.queue);
    EnqueuedIsNext(c, End(t), pid, job, true, store);
    u := Extend(t, c, pid, PagerEnqueue(pid));
  }

  function Next(c: Config, h: Handled): multiset<Msg> {
    match h.next
    case None => multiset{}
    case Some(q) => multiset{Msg(q.task, c.now + if q.delay >= 0 then WholeSeconds(q.delay) else 0)}
  }

  /** What is left of the queue. */
  function QueueAfter(c: Config, h: Handled, m: Msg): multiset<Msg> {
    if h.failed then c.queue else c.queue + Next(c, h) - multiset{m}
  }

  lemma ScheduleStage(t: Trace, c: Config, pid: nat, job: Job, env: Env, store: S.State) returns (u: Trace)
    requires pid !in c.procs && At(t, c, pid, PagerRecording(job, 0), store, c.queue)
    requires job.page.id in store.pages && Active(store.pages[job.page.id].state) && env.now == job.at
    ensures var h := Attempted(store, job.page, job.m.task, env);
      Gone(u, c, pid, h.store, QueueAfter(c, h, job.m))
  {
    hide At, Gone, AttemptRecorded, Append, FollowUp;
    u := RecordStage(t, c, pid, job, store);
    u := PushEventStage(u, c, pid, job, env, AttemptRecorded(store, job.page.id, job.m.task.attempt));
    var h := Attempted(store, job.page, job.m.task, env);
    if h.failed {
      u := CrashStage(u, c, pid, PagerEnqueuing(job, true), h.store, c.queue);
    } else {
      u := EnqueueStage(u, c, pid, job, h.store);
      u := FinishStage(u, c, pid, job.m, h.store, c.queue + Next(c, h));
    }
  }

  // ------------------------------------------------------------ the whole invocation

  lemma DueStage(t: Trace, c: Config, pid: nat, job: Job, env: Env, listed: seq<Device>) returns (u: Trace)
    requires pid !in c.procs && At(t, c, pid, PagerListing(job), c.store, c.queue) && S.Filed(c.store)
    requires job.page.id in c.store.pages && Active(c.store.pages[job.page.id].state)
    requires S.ListsDevices(c.store, job.page.recipientId, listed) && env.now == job.at
    requires ListCall !in env.faults && !(SenderCall in env.faults && listed != [])
    ensures var h := if RecordCall in env.faults then Handled(AfterPush(c.store, job.page, env), None, true)
                     else Attempted(AfterPush(c.store, job.page, env), job.page, job.m.task, env);
      Gone(u, c, pid, h.store, QueueAfter(c, h, job.m))
  {
    hide At, Gone, Attempted, S.Filed, S.ListsDevices;
    u := ListStage(t, c, pid, job, env, listed);
    var pushed := AfterPush(c.store, job.page, env);
    assert pushed.pages == c.store.pages;
    if RecordCall in env.faults {
      u := CrashStage(u, c, pid, PagerRecording(job, 0), pushed, c.queue);
    } else {
      u := ScheduleStage(u, c, pid, job, env, pushed);
    }
  }

  /** Whatever fails, an invocation run without interruption ends with the store, the queue and
      the other handlers exactly as the imperative handler leaves them: the message is deleted
      unless the record failed, and the next task is added if there is one. */
  lemma UninterruptedPagerIsHandle(c: Config, pid: nat, m: Msg, env: Env, listed: seq<Device>) returns (t: Trace)
    requires S.Filed(c.store) && pid !in c.procs && m in c.queue && m.ready <= c.now && env.now == c.now
    requires m.task.pageId in c.store.pages
      ==> S.ListsDevices(c.store, c.store.pages[m.task.pageId].recipientId, listed)
    ensures var h := Handle(c.store, m.task, env);
      Gone(t, c, pid, h.store, QueueAfter(c, h, m))
  {
    hide At, Solo, Attempted, AfterPush, Expire, S.ListsDevices, S.Filed;
    var h := Handle(c.store, m.task, env);
    if LoadCall in env.faults {
      t := Nothing(c, pid);
    } else {
      t := LoadStage(c, pid, m);
      if m.task.pageId !in c.store.pages || !Active(c.store.pages[m.task.pageId].state) {
        t := FinishStage(t, c, pid, m, c.store, c.queue);
      } else {
        FiledPage(c.store, m.task.pageId);
        t := ActiveStage(t, c, pid, m, env, listed);
      }
    }
  }

  lemma Nothing(c: Config, pid: nat) returns (t: Trace)
    ensures Gone(t, c, pid, c.store, c.queue)
  {
    t := Trace([c], []);
  }

  lemma ActiveStage(t: Trace, c: Config, pid: nat, m: Msg, env: Env, listed: seq<Device>) returns (u: Trace)
    requires pid !in c.procs && m.task.pageId in c.store.pages && S.Filed(c.store) && env.now == c.now
    requires var page := c.store.pages[m.task.pageId];
      && page.id == m.task.pageId && Active(page.state)
      && S.ListsDevices(c.store, page.recipientId, listed)
      && At(t, c, pid, PagerLoaded(m, page, c.hist.step), c.store, c.queue)
    requires LoadCall !in env.faults
    ensures var h := Handle(c.store, m.task, env);
      Gone(u, c, pid, h.store, QueueAfter(c, h, m))
  {
    hide At, Gone, Attempted, AfterPush, Expire, S.ListsDevices, S.Filed;
    assert c.queue + multiset{} == c.queue;
    var page := c.store.pages[m.task.pageId];
    var job := Job(m, page, c.now, c.hist.step);
    NoneListed(c.store, page.recipientId, listed);
    u := ClockStage(t, c, pid, PagerLoaded(m, page, c.hist.step));
    if c.now > page.expiresAt {
      if ExpireCall in env.faults {
        u := CrashStage(u, c, pid, PagerExpiring(job), c.store, c.queue);
      } else {
        u := ExpireStage(u, c, pid, job, env);
        u := FinishStage(u, c, pid, m, Expire(c.store, page, env), c.queue);
      }
    } else if page.attempt >= m.task.attempt {
      u := FinishStage(u, c, pid, m, c.store, c.queue);
    } else if ListCall in env.faults {
      u := CrashStage(u, c, pid, PagerListing(job), c.store, c.queue);
    } else if SenderCall in env.faults && listed != [] {
      u := SenderDown(u, c, pid, job, listed);
    } else {
      u := DueStage(u, c, pid, job, env, listed);
    }
  }

  // ------------------------------------------------------------ the API handlers

  lemma AckLoadStage(c: Config, pid: nat, caller: string, id: string, note: string) returns (t: Trace)
    requires pid !in c.procs && OwnPage(c, caller, id)
    ensures At(t, c, pid, AckTimed(c.store.pages[id], note, c.now), c.store, c.queue)
  {
    t := Trace([c], []);
    assert Solo(t, c, pid);
    hide Solo;
    t := Extend(t, c, pid, AckBegin(pid, caller, id, note));
    t := Extend(t, c, pid, AckClock(pid));
  }

  lemma AckCommitStage(t: Trace, c: Config, pid: nat, page: Page, note: string) returns (u: Trace)
    requires At(t, c, pid, AckTimed(page, note, c.now), c.store, c.queue) && page.id in c.store.pages
      && c.store.pages[page.id] == page
    ensures var acked := page.(state := Acked, ackedAt := Some(c.now), ackNote := note);
      if Active(page.state) then
        At(u, c, pid, AckStored(acked), c.store.(pages := c.store.pages[page.id := acked]), c.queue)
      else At(u, c, pid, AckLost(page.id), c.store, c.queue)
  {
    hide Solo;
    AtSolo(t, c, pid, AckTimed(page, note, c.now), c.store, c.queue);
    u := Extend(t, c, pid, AckCommit(pid));
  }

  /** Leaving the handler restores the others' places. */
  lemma Left(procs: map<nat, Proc>, pid: nat, p: Proc)
    requires pid !in procs
    ensures procs[pid := p] - {pid} == procs
  {
  }

  lemma AckWonStage(t: Trace, c: Config, pid: nat, acked: Page, store: S.State, logFails: bool) returns (u: Trace)
    requires pid !in c.procs && At(t, c, pid, AckStored(acked), store, c.queue) && acked.ackedAt.Some?
    ensures Gone(u, c, pid, S.MaybeAppend(store, PageEvent(acked.id, EvAcked, acked.ackNote, acked.ackedAt.value),
      !logFails), c.queue)
    ensures End(u).hist.ackReplies >= {AckReply(acked.id, acked.state, acked.ackedAt, acked.ackNote)}
  {
    hide Solo, S.AppendEvent;
    AtSolo(t, c, pid, AckStored(acked), store, c.queue);
    Left(c.procs, pid, AckStored(acked));
    u := Extend(t, c, pid, AckEvent(pid, !logFails));
  }

  lemma AckLostStage(t: Trace, c: Config, pid: nat, page: Page) returns (u: Trace)
    requires pid !in c.procs && At(t, c, pid, AckLost(page.id), c.store, c.queue)
    requires page.id in c.store.pages && c.store.pages[page.id] == page
    ensures Gone(u, c, pid, c.store, c.queue)
    ensures page.state.Acked? ==> End(u).hist.ackReplies >= {AckReply(page.id, page.state, page.ackedAt, page.ackNote)}
  {
    hide Solo;
    AtSolo(t, c, pid, AckLost(page.id), c.store, c.queue);
    Left(c.procs, pid, AckLost(page.id));
    u := Extend(t, c, pid, AckReread(pid));
  }

  /** An ack that is not interrupted has the effect of the imperative handler, and gives its answer. */
  lemma UninterruptedAck(c: Config, pid: nat, caller: string, id: string, note: string, logFails: bool)
      returns (t: Trace)
    requires S.Filed(c.store) && pid !in c.procs
    ensures var e := Api.AckEffect(c.store, caller, id, note, c.now, logFails);
      && Gone(t, c, pid, e.store, c.queue)
      && (e.answer.AckedPage? ==>
            var p := e.answer.page; AckReply(p.id, p.state, p.ackedAt, p.ackNote) in End(t).hist.ackReplies)
  {
    hide At, Solo, S.Filed, S.AppendEvent;
    if OwnPage(c, caller, id) {
      FiledPage(c.store, id);
      var page := c.store.pages[id];
      t := AckLoadStage(c, pid, caller, id, note);
      t := AckCommitStage(t, c, pid, page, note);
      if Active(page.state) {
        var acked := page.(state := Acked, ackedAt := Some(c.now), ackNote := note);
        t := AckWonStage(t, c, pid, acked, c.store.(pages := c.store.pages[id := acked]), logFails);
      } else {
        t := AckLostStage(t, c, pid, page);
      }
    } else {
      t := Nothing(c, pid);
    }
  }

  lemma ReceiptLoadStage(c: Config, pid: nat, caller: string, id: string) returns (t: Trace)
    requires pid !in c.procs && OwnPage(c, caller, id)
    ensures At(t, c, pid, ReceiptLoaded(c.store.pages[id]), c.store, c.queue)
  {
    t := Trace([c], []);
    assert Solo(t, c, pid);
    hide Solo;
    t := Extend(t, c, pid, ReceiptBegin(pid, caller, id));
  }

  lemma ReceiptStage(t: Trace, c: Config, pid: nat, page: Page) returns (u: Trace)
    requires pid !in c.procs && At(t, c, pid, ReceiptLoaded(page), c.store, c.queue)
    requires page.id in c.store.pages && c.store.pages[page.id] == page
    ensures if page.state.Created? || page.state.Pushed? then
              At(u, c, pid, ReceiptStored(page.id),
                c.store.(pages := c.store.pages[page.id := page.(state := Delivered)]), c.queue)
            else
              Gone(u, c, pid, c.store, c.queue)
  {
    hide Solo;
    AtSolo(t, c, pid, ReceiptLoaded(page), c.store, c.queue);
    Left(c.procs, pid, ReceiptLoaded(page));
    u := Extend(t, c, pid, ReceiptCommit(pid));
  }

  lemma ReceiptEventStage(t: Trace, c: Config, pid: nat, id: string, store: S.State, logFails: bool) returns (u: Trace)
    requires pid !in c.procs && At(t, c, pid, ReceiptStored(id), store, c.queue)
    ensures Gone(u, c, pid, S.MaybeAppend(store, PageEvent(id, EvDelivered, "", c.now), !logFails), c.queue)
  {
    hide Solo, S.AppendEvent;
    AtSolo(t, c, pid, ReceiptStored(id), store, c.queue);
    Left(c.procs, pid, ReceiptStored(id));
    u := Extend(t, c, pid, ReceiptEvent(pid, !logFails));
  }

  /** A receipt that is not interrupted has the effect of the imperative handler; in particular it
      then writes back the attempt that is stored. */
  lemma UninterruptedReceipt(c: Config, pid: nat, caller: string, id: string, logFails: bool) returns (t: Trace)
    requires S.Filed(c.store) && pid !in c.procs
    ensures Gone(t, c, pid, Api.ReceiptEffect(c.store, caller, id, c.now, logFails).store, c.queue)
  {
    hide At, Solo, S.Filed, S.AppendEvent;
    if OwnPage(c, caller, id) {
      FiledPage(c.store, id);
      var page := c.store.pages[id];
      t := ReceiptLoadStage(c, pid, caller, id);
      t := ReceiptStage(t, c, pid, page);
      if page.state.Created? || page.state.Pushed? {
        t := ReceiptEventStage(t, c, pid, id, c.store.(pages := c.store.pages[id := page.(state := Delivered)]),
          logFails);
      }
    } else {
      t := Nothing(c, pid);
    }
  }

  lemma CreateBuildStage(c: Config, pid: nat, caller: string, recipient: string, message: string, key: string,
                         id: string) returns (t: Trace)
    requires pid !in c.procs && (caller, recipient) in c.store.pairings
      && c.store.pairings[(caller, recipient)].status.PairingActive?
    ensures At(t, c, pid, CreateBuilt(NewPage(id, caller, recipient, message, key, c.now, c.now + EXPIRY)), c.store,
      c.queue)
  {
    t := Trace([c], []);
    assert Solo(t, c, pid);
    hide Solo;
    t := Extend(t, c, pid, CreateBegin(pid, caller, recipient, message, key));
    t := Extend(t, c, pid, CreateBuild(pid, id));
  }

  lemma CreateCommitStage(t: Trace, c: Config, pid: nat, page: Page) returns (u: Trace)
    requires At(t, c, pid, CreateBuilt(page), c.store, c.queue)
    ensures if S.CreatePage(c.store, page).1.Pass? then
              At(u, c, pid, CreateStored(page), S.CreatePage(c.store, page).0, c.queue)
            else At(u, c, pid, CreateLost(page.idempotencyKey), c.store, c.queue)
  {
    hide Solo, S.AppendEvent;
    AtSolo(t, c, pid, CreateBuilt(page), c.store, c.queue);
    u := Extend(t, c, pid, CreateCommit(pid));
  }

  lemma CreateLookupStage(t: Trace, c: Config, pid: nat, key: string) returns (u: Trace)
    requires pid !in c.procs && At(t, c, pid, CreateLost(key), c.store, c.queue)
    ensures Gone(u, c, pid, c.store, c.queue)
  {
    hide Solo;
    AtSolo(t, c, pid, CreateLost(key), c.store, c.queue);
    Left(c.procs, pid, CreateLost(key));
    u := Extend(t, c, pid, CreateLookup(pid));
  }

  lemma CreateEnqueueStage(t: Trace, c: Config, pid: nat, page: Page, store: S.State) returns (u: Trace)
    requires pid !in c.procs && At(t, c, pid, CreateStored(page), store, c.queue)
    ensures Gone(u, c, pid, store, c.queue + multiset{Msg(PageTask(page.id, 0), c.now)})
  {
    hide Solo;
    AtSolo(t, c, pid, CreateStored(page), store, c.queue);
    Left(c.procs, pid, CreateStored(page));
    u := Extend(t, c, pid, CreateEnqueue(pid));
  }

  /** A create that is not interrupted has the effect of the imperative handler; a failing Enqueue
      is a crash before the last step. */
  lemma UninterruptedCreate(c: Config, pid: nat, caller: string, recipient: string, message: string, key: string,
                            id: string, enqueueFails: bool) returns (t: Trace)
    requires pid !in c.procs
    ensures var e := Api.CreateEffect(c.store, caller, recipient, message, key, id, c.now, enqueueFails);
      && (e.next.Some? ==> e.next.value == QueuedTask(PageTask(id, 0), 0))
      && Gone(t, c, pid, e.store, if e.next.Some? then c.queue + multiset{Msg(PageTask(id, 0), c.now)} else c.queue)
  {
    hide At, Solo, Gone, S.AppendEvent;
    if (caller, recipient) in c.store.pairings && c.store.pairings[(caller, recipient)].status.PairingActive? {
      var page := NewPage(id, caller, recipient, message, key, c.now, c.now + EXPIRY);
      t := CreateBuildStage(c, pid, caller, recipient, message, key, id);
      t := CreateCommitStage(t, c, pid, page);
      if S.CreatePage(c.store, page).1.Fail? {
        t := CreateLookupStage(t, c, pid, key);
      } else if enqueueFails {
        t := CrashStage(t, c, pid, CreateStored(page), S.CreatePage(c.store, page).0, c.queue);
      } else {
        t := CreateEnqueueStage(t, c, pid, page, S.CreatePage(c.store, page).0);
      }
    } else {
      t := Nothing(c, pid);
    }
  }
}
