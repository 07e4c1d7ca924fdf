/** The pager as it is written: a handler that changes the store, the queue and the device
    list step by step, proved against a function of the state it started from
    (backend/cmd/pager/main.go, backend/internal/store/fake/enqueuer.go). */
module Pager {
  import opened Model
  import opened Nag
  import opened PagerRules
  import opened Counting
  import S = Store
  import Fake

  /** One Enqueue call. */
  datatype QueuedTask = QueuedTask(task: PageTask, delay: Duration)

  /** The calls that can fail for infrastructure reasons; the append of no_devices is one of its own. */
  datatype Call =
    | LoadCall
    | ExpireCall
    | ListCall
    | NameCall       // the lookup of the sender's row
    | SenderCall
    | NoDevicesCall
    | RecordCall
    | EventCall
    | EnqueueCall

  /** What one invocation meets: its clock reading, the calls that fail, the tokens the push provider
      reports as gone or fails on, and the tokens whose deletion fails. */
  datatype Env = Env(now: Time, faults: set<Call>, gone: set<string>, failing: set<string>, stuck: set<string>)

  /** An invocation that meets no obstacle. */
  function Calm(now: Time): Env {
    Env(now, {}, {}, {}, {})
  }

  /** One notification handed to the push provider. */
  datatype Push = Push(device: Device, pageId: string, attempt: int, senderName: string)

  /** One SQS record; a body that does not parse has no task. */
  datatype Record = Record(messageId: string, body: Option<PageTask>)

  /** The outcome of one record: the new store, the task enqueued if any, whether it is an error. */
  datatype Handled = Handled(store: S.State, next: Option<QueuedTask>, failed: bool)

  // ------------------------------------------------------------ the specification

  predicate Logs(env: Env, kind: EventType) {
    (if kind.EvNoDevices? then NoDevicesCall else EventCall) !in env.faults
  }

  function Append(s: S.State, env: Env, pageId: string, kind: EventType): S.State {
    S.MaybeAppend(s, PageEvent(pageId, kind, "", env.now), Logs(env, kind))
  }

  /** The attempt is set on any active page; only a created page changes state. */
  function AttemptRecorded(s: S.State, id: string, attempt: int): S.State {
    if id in s.pages && Active(s.pages[id].state) then
      s.(pages := s.pages[id := s.pages[id].(
                    state := if s.pages[id].state.Created? then Pushed else s.pages[id].state,
                    attempt := attempt)])
    else
      s
  }

  /** The token is reported gone and its deletion goes through. */
  predicate Dropped(env: Env, token: string) {
    token in env.gone && token !in env.stuck
  }

  function GoneDevices(s: S.State, userId: string, env: Env): set<(string, string)> {
    set k | k in s.devices && k.0 == userId && Dropped(env, k.1)
  }

  /** The device list of the recipient without the tokens deleted. */
  function Prune(s: S.State, userId: string, env: Env): S.State {
    s.(devices := s.devices - GoneDevices(s, userId, env))
  }

  function NextTask(page: Page, attempt: int, now: Time): Option<QueuedTask> {
    match FollowUp(attempt, now, page.expiresAt)
    case None => None
    case Some(delay) => Some(QueuedTask(PageTask(page.id, attempt + 1), delay))
  }

  /** Past the expiry check and the duplicate guard. */
  predicate Due(s: S.State, task: PageTask, env: Env) {
    && LoadCall !in env.faults
    && task.pageId in s.pages
    && Active(s.pages[task.pageId].state)
    && env.now <= s.pages[task.pageId].expiresAt
    && s.pages[task.pageId].attempt < task.attempt
  }

  /** Whether the recipient's devices are pushed to. */
  predicate Pushes(s: S.State, task: PageTask, env: Env) {
    && Due(s, task, env)
    && {ListCall, SenderCall} !! env.faults
    && S.DevicesOf(s, s.pages[task.pageId].recipientId) != {}
  }

  /** What is left of the store when the push loop is over. */
  function AfterPush(s: S.State, page: Page, env: Env): S.State {
    if S.DevicesOf(s, page.recipientId) == {} then Append(s, env, page.id, EvNoDevices)
    else Prune(s, page.recipientId, env)
  }

  function Attempted(s: S.State, page: Page, task: PageTask, env: Env): Handled {
    var recorded := Append(AttemptRecorded(s, page.id, task.attempt), env, page.id, EvPushAttempt);
    var next := NextTask(page, task.attempt, env.now);
    if next.Some? && EnqueueCall in env.faults then Handled(recorded, None, true) else Handled(recorded, next, false)
  }

  function Expire(s: S.State, page: Page, env: Env): S.State {
    Append(s.(pages := s.pages[page.id := page.(state := Expired)]), env, page.id, EvExpired)
  }

  function Handle(s: S.State, task: PageTask, env: Env): Handled {
    if LoadCall in env.faults then
      Handled(s, None, true)
    else if task.pageId !in s.pages || !Active(s.pages[task.pageId].state) then
      Handled(s, None, false)
    else
      var page := s.pages[task.pageId];
      if env.now > page.expiresAt then
        if ExpireCall in env.faults then Handled(s, None, true) else Handled(Expire(s, page, env), None, false)
      else if page.attempt >= task.attempt then
        Handled(s, None, false)
      else if ListCall in env.faults || (SenderCall in env.faults && S.DevicesOf(s, page.recipientId) != {}) then
        Handled(s, None, true)
      else if RecordCall in env.faults then
        Handled(AfterPush(s, page, env), None, true)
      else
        Attempted(AfterPush(s, page, env), page, task, env)
  }

  /** A body that does not parse can never succeed and is dropped. */
  function HandleBody(s: S.State, body: Option<PageTask>, env: Env): Handled {
    if body.None? then Handled(s, None, false) else Handle(s, body.value, env)
  }

  /** What the push provider is handed for one record: each device of the recipient once, in whatever
      order they are listed, or nothing if the record does not come to pushing. */
  ghost predicate Notifies(s: S.State, body: Option<PageTask>, env: Env, sends: seq<Push>) {
    if body.Some? && Pushes(s, body.value, env) then
      var page := s.pages[body.value.pageId];
      && |sends| == |S.DevicesOf(s, page.recipientId)|
      && (forall d :: d in S.DevicesOf(s, page.recipientId) <==> exists p :: p in sends && p.device == d)
      && forall p :: p in sends ==>
           && p.pageId == body.value.pageId && p.attempt == body.value.attempt
           && p.senderName == if page.senderId in s.users && NameCall !in env.faults
                              then s.users[page.senderId].displayName else page.senderId
    else
      sends == []
  }

  function Concat(xss: seq<seq<Push>>): seq<Push> {
    if xss == [] then [] else Concat(xss[..|xss| - 1]) + xss[|xss| - 1]
  }

  /** The store and the queue after a batch, and the records reported for redelivery, in order. */
  datatype Batch = Batch(store: S.State, tasks: seq<QueuedTask>, failures: seq<string>)

  function HandleAll(s: S.State, tasks: seq<QueuedTask>, records: seq<Record>, envs: seq<Env>): Batch
    requires |records| == |envs|
  {
    if records == [] then
      Batch(s, tasks, [])
    else
      var n := |records| - 1;
      var before := HandleAll(s, tasks, records[..n], envs[..n]);
      var h := HandleBody(before.store, records[n].body, envs[n]);
      Batch(h.store,
            if h.next.Some? then before.tasks + [h.next.value] else before.tasks,
            if h.failed then before.failures + [records[n].messageId] else before.failures)
  }

  /** One sequence of notifications for each record, as of the store its predecessors left. */
  ghost predicate NotifiesEach(s: S.State, tasks: seq<QueuedTask>, records: seq<Record>, envs: seq<Env>,
                               sends: seq<seq<Push>>)
    requires |records| == |envs|
  {
    && |sends| == |records|
    && forall i :: 0 <= i < |records| ==>
         Notifies(HandleAll(s, tasks, records[..i], envs[..i]).store, records[i].body, envs[i], sends[i])
  }

  // ------------------------------------------------------------ the code

  /** The in-memory enqueuer records every call. */
  class Enqueuer {
    var tasks: seq<QueuedTask>

    constructor ()
      ensures tasks == []
    {
      tasks := [];
    }

    method Enqueue(task: PageTask, delay: Duration, fails: bool) returns (ok: bool)
      modifies this
      ensures ok == !fails
      ensures tasks == if ok then old(tasks) + [QueuedTask(task, delay)] else old(tasks)
    {
      if fails {
        return false;
      }
      tasks := tasks + [QueuedTask(task, delay)];
      return true;
    }
  }

  /** The push provider: what was handed to it. */
  class Sender {
    var sent: seq<Push>

    constructor ()
      ensures sent == []
    {
      sent := [];
    }

    method Send(p: Push, env: Env) returns (r: SendResult)
      modifies this
      ensures sent == old(sent) + [p]
      ensures r.SendGone? <==> p.device.token in env.gone
    {
      sent := sent + [p];
      r := if p.device.token in env.gone then SendGone
        else if p.device.token in env.failing then SendFailed
        else SendOk;
    }
  }

  class Handler {
    const store: Fake.Store
    const queue: Enqueuer
    const sender: Sender

    constructor (store: Fake.Store, queue: Enqueuer, sender: Sender)
      ensures this.store == store && this.queue == queue && this.sender == sender
    {
      this.store, this.queue, this.sender := store, queue, sender;
    }

    method AppendEvent(pageId: string, kind: EventType, env: Env)
      modifies store
      ensures store.Value() == Append(old(store.Value()), env, pageId, kind)
    {
      if Logs(env, kind) {
        store.AppendEvent(PageEvent(pageId, kind, "", env.now));
      }
    }

    /** Bumps the attempt counter without ever regressing the state: up to three conditional
        writes, the first that is not refused counts. */
    method RecordAttempt(pageId: string, attempt: int) returns (r: S.Outcome)
      modifies store
      ensures store.Value() == AttemptRecorded(old(store.Value()), pageId, attempt)
      ensures r == if pageId in old(store.Value()).pages then S.Pass else S.Fail(S.NotFound)
    {
      ghost var st := if pageId in store.pages then store.pages[pageId].state else Cancelled;
      RoundsMeaning(st);
      var i := 0;
      while i < |ROUNDS|
        invariant 0 <= i <= |ROUNDS|
        invariant store.Value() == old(store.Value())
        invariant i > 0 ==> pageId in store.Value().pages
        invariant forall j :: 0 <= j < i ==> st !in ROUNDS[j].0
      {
        r := store.SetPageState(pageId, ROUNDS[i].0, ROUNDS[i].1, attempt);
        if r.Pass? {
          return;
        }
        if r.error != S.Conflict {
          return;
        }
        i := i + 1;
      }
      r := S.Pass;
    }

    /** Sends to each listed device once and deletes those the provider reports gone. */
    method PushAll(page: Page, attempt: int, listed: seq<Device>, env: Env)
      requires S.Filed(store.Value()) && S.ListsDevices(store.Value(), page.recipientId, listed)
      modifies store, sender
      ensures store.Value() == Prune(old(store.Value()), page.recipientId, env)
      ensures var users := old(store.Value()).users;
        var name := if page.senderId in users && NameCall !in env.faults then users[page.senderId].displayName
                    else page.senderId;
        sender.sent == old(sender.sent)
          + seq(|listed|, i requires 0 <= i < |listed| =>
                  Push(device := listed[i], pageId := page.id, attempt := attempt, senderName := name))
    {
      hide S.Filed, S.ListsDevices, GoneAmong, Prune;
      assert GoneAmong([], env) == {} by { NoneGone(env); }
      var senderName := page.senderId;
      if NameCall !in env.faults {
        var user := store.GetUser(page.senderId);
        senderName := if user.Ok? then user.value.displayName else senderName;
      }
      ghost var before := store.Value();
      var i := 0;
      while i < |listed|
        invariant 0 <= i <= |listed|
        invariant sender.sent == old(sender.sent)
          + seq(i, k requires 0 <= k < i => Push(listed[k], page.id, attempt, senderName))
        invariant store.Value() == before.(devices := before.devices - GoneAmong(listed[..i], env))
      {
        var r := sender.Send(Push(listed[i], page.id, attempt, senderName), env);
        if r.SendGone? && listed[i].token !in env.stuck {
          store.DeleteDevice(listed[i].userId, listed[i].token);
        }
        GoneAmongNext(listed, i, env);
        i := i + 1;
      }
      assert listed[..i] == listed;
      GoneAmongAll(before, page.recipientId, listed, env);
    }

    /** The second half of handleRecord: record the attempt, then enqueue the next one. */
    method RecordAndSchedule(page: Page, task: PageTask, env: Env) returns (failed: bool)
      requires page.id in store.Value().pages
      modifies store, queue
      ensures var h := if RecordCall in env.faults then Handled(old(store.Value()), None, true)
                       else Attempted(old(store.Value()), page, task, env);
        && store.Value() == h.store
        && failed == h.failed
        && queue.tasks == if h.next.Some? then old(queue.tasks) + [h.next.value] else old(queue.tasks)
    {
      if RecordCall in env.faults {
        return true;
      }
      var r := RecordAttempt(page.id, task.attempt);
      if r.Fail? {
        return true;
      }
      AppendEvent(page.id, EvPushAttempt, env);

      var nextAttempt := task.attempt + 1;
      var delay := NextDelay(nextAttempt);
      if delay.Some? {
        var ok := queue.Enqueue(PageTask(page.id, nextAttempt), delay.value, EnqueueCall in env.faults);
        return !ok;
      }
      if env.now < page.expiresAt {
        var remaining := page.expiresAt - env.now;
        if remaining > MAX_FINAL_DELAY {
          remaining := MAX_FINAL_DELAY;
        }
        var ok := queue.Enqueue(PageTask(page.id, nextAttempt), remaining, EnqueueCall in env.faults);
        return !ok;
      }
      return false;
    }

    method HandleRecord(record: Record, env: Env) returns (failed: bool, ghost listed: seq<Device>)
      requires S.Filed(store.Value())
      modifies store, queue, sender
      ensures var h := HandleBody(old(store.Value()), record.body, env);
        && store.Value() == h.store
        && failed == h.failed
        && queue.tasks == if h.next.Some? then old(queue.tasks) + [h.next.value] else old(queue.tasks)
      ensures record.body.Some? && Pushes(old(store.Value()), record.body.value, env) ==>
        var s := old(store.Value()); var page := s.pages[record.body.value.pageId];
        && S.ListsDevices(s, page.recipientId, listed)
        && var name := if page.senderId in s.users && NameCall !in env.faults then s.users[page.senderId].displayName
                       else page.senderId;
           sender.sent == old(sender.sent)
             + seq(|listed|, i requires 0 <= i < |listed| =>
                     Push(device := listed[i], pageId := record.body.value.pageId,
                          attempt := record.body.value.attempt, senderName := name))
      ensures record.body.None? || !Pushes(old(store.Value()), record.body.value, env)
        ==> sender.sent == old(sender.sent)
    {
      listed := [];
      if record.body.None? {
        return false, listed;
      }
      var task := record.body.value;
      if LoadCall in env.faults {
        return true, listed;
      }
      var loaded := store.GetPage(task.pageId);
      if loaded.Err? {
        return false, listed;
      }
      var page := loaded.value;
      if !Active(page.state) {
        return false, listed;
      }
      if env.now > page.expiresAt {
        if ExpireCall in env.faults {
          return true, listed;
        }
        assert page.state in S.ACTIVE_STATES;
        var r := store.SetPageState(page.id, S.ACTIVE_STATES, Expired, page.attempt);
        AppendEvent(page.id, EvExpired, env);
        return false, listed;
      }
      if page.attempt >= task.attempt {
        return false, listed;
      }
      if ListCall in env.faults {
        return true, listed;
      }
      var devices := store.ListDevices(page.recipientId);
      assert devices == [] <==> S.DevicesOf(store.Value(), page.recipientId) == {} by {
        if devices != [] { assert devices[0] in devices; }
      }
      listed := devices;
      if |devices| == 0 {
        AppendEvent(page.id, EvNoDevices, env);
      } else {
        if SenderCall in env.faults {
          return true, [];
        }
        PushAll(page, task.attempt, devices, env);
      }
      failed := RecordAndSchedule(page, task, env);
    }

    /** Every record is handled, whatever happens to the others; those that failed are reported. */
    method HandleBatch(records: seq<Record>, envs: seq<Env>)
        returns (failures: seq<string>, ghost sends: seq<seq<Push>>)
      requires S.Filed(store.Value()) && |records| == |envs|
      modifies store, queue, sender
      ensures Batch(store.Value(), queue.tasks, failures)
        == HandleAll(old(store.Value()), old(queue.tasks), records, envs)
      ensures sender.sent == old(sender.sent) + Concat(sends)
      ensures NotifiesEach(old(store.Value()), old(queue.tasks), records, envs, sends)
    {
      hide Notifies, NotifiesEach, HandleAll, HandleBody, S.Filed, Pushes, Concat;
      failures, sends := [], [];
      BatchOfNone(store.Value(), queue.tasks);
      var i := 0;
      while i < |records|
        invariant 0 <= i <= |records|
        invariant S.Filed(store.Value())
        invariant Batch(store.Value(), queue.tasks, failures)
                  == HandleAll(old(store.Value()), old(queue.tasks), records[..i], envs[..i])
        invariant sender.sent == old(sender.sent) + Concat(sends)
        invariant NotifiesEach(old(store.Value()), old(queue.tasks), records[..i], envs[..i], sends)
      {
        ghost var s, sent := store.Value(), sender.sent;
        HandleForward(s, records[i].body, envs[i]);
        ForwardFiled(s, HandleBody(s, records[i].body, envs[i]).store);
        var failed, listed := HandleRecord(records[i], envs[i]);
        if failed {
          failures := failures + [records[i].messageId];
        }
        ListedNotifies(s, records[i].body, envs[i], listed, sent, sender.sent);
        BatchNext(old(store.Value()), old(queue.tasks), records, envs, i, sends, sender.sent[|sent|..]);
        sends := sends + [sender.sent[|sent|..]];
        i := i + 1;
      }
      assert records[..i] == records && envs[..i] == envs;
    }
  }

  /** Pages only move forward, none appears or disappears, entries stay filed under their keys. */
  ghost predicate Forward(s: S.State, t: S.State) {
    S.Filed(t) && t.pages.Keys == s.pages.Keys && S.PagesAdvance(s, t)
  }

  lemma AdvancesTransitive(p: Page, q: Page, r: Page)
    requires S.PageAdvances(p, q) && S.PageAdvances(q, r)
    ensures S.PageAdvances(p, r)
  {
  }

  lemma ForwardTransitive(s: S.State, t: S.State, u: S.State)
    requires Forward(s, t) && Forward(t, u)
    ensures Forward(s, u)
  {
    hide S.PageAdvances, S.Filed;
    forall id | id in s.pages ensures S.PageAdvances(s.pages[id], u.pages[id]) {
      AdvancesTransitive(s.pages[id], t.pages[id], u.pages[id]);
    }
  }

  lemma AppendForward(s: S.State, env: Env, pageId: string, kind: EventType)
    requires S.Filed(s)
    ensures Forward(s, Append(s, env, pageId, kind))
  {
  }

  lemma RecordForward(s: S.State, id: string, attempt: int)
    requires S.Filed(s)
    ensures Forward(s, AttemptRecorded(s, id, attempt))
  {
    hide S.Filed, S.PagesAdvance;
    RecordFiled(s, id, attempt);
    RecordAdvances(s, id, attempt);
  }

  lemma RecordFiled(s: S.State, id: string, attempt: int)
    requires S.Filed(s)
    ensures S.Filed(AttemptRecorded(s, id, attempt))
  {
  }

  lemma RecordAdvances(s: S.State, id: string, attempt: int)
    ensures S.PagesAdvance(s, AttemptRecorded(s, id, attempt))
  {
  }

  lemma PruneForward(s: S.State, userId: string, env: Env)
    requires S.Filed(s)
    ensures Forward(s, Prune(s, userId, env))
  {
  }

  lemma AfterPushForward(s: S.State, page: Page, env: Env)
    requires S.Filed(s)
    ensures Forward(s, AfterPush(s, page, env))
  {
    hide Forward, Append, Prune, S.Filed;
    AppendForward(s, env, page.id, EvNoDevices);
    PruneForward(s, page.recipientId, env);
  }

  lemma ExpireForward(s: S.State, page: Page, env: Env)
    requires S.Filed(s) && page.id in s.pages && s.pages[page.id] == page && Active(page.state)
    ensures Forward(s, Expire(s, page, env))
  {
    hide Append;
    var t := s.(pages := s.pages[page.id := page.(state := Expired)]);
    assert Forward(s, t);
    AppendForward(t, env, page.id, EvExpired);
    ForwardTransitive(s, t, Expire(s, page, env));
  }

  lemma AttemptedForward(s: S.State, page: Page, task: PageTask, env: Env)
    requires S.Filed(s)
    ensures Forward(s, Attempted(s, page, task, env).store)
  {
    hide Append, AttemptRecorded, Forward, S.Filed;
    var t := AttemptRecorded(s, page.id, task.attempt);
    RecordForward(s, page.id, task.attempt);
    ForwardFiled(s, t);
    AppendForward(t, env, page.id, EvPushAttempt);
    ForwardTransitive(s, t, Append(t, env, page.id, EvPushAttempt));
  }

  lemma ForwardFiled(s: S.State, t: S.State)
    requires Forward(s, t)
    ensures S.Filed(t)
  {
  }

  lemma ForwardReflexive(s: S.State)
    requires S.Filed(s)
    ensures Forward(s, s)
  {
  }

  /** However one record ends, and whatever fails, pages only move forward. */
  lemma HandleForward(s: S.State, body: Option<PageTask>, env: Env)
    requires S.Filed(s)
    ensures Forward(s, HandleBody(s, body, env).store)
  {
    ForwardReflexive(s);
    if body.Some? && body.value.pageId in s.pages && Active(s.pages[body.value.pageId].state) {
      HandleActiveForward(s, body.value, env);
    }
    hide S.Filed, Forward;
  }

  lemma FiledPage(s: S.State, id: string)
    requires S.Filed(s) && id in s.pages
    ensures s.pages[id].id == id
  {
  }

  lemma HandleActiveForward(s: S.State, task: PageTask, env: Env)
    requires S.Filed(s) && task.pageId in s.pages && Active(s.pages[task.pageId].state)
    ensures Forward(s, Handle(s, task, env).store)
  {
    hide S.Filed, Forward, Expire, AfterPush, Attempted;
    var page := s.pages[task.pageId];
    FiledPage(s, task.pageId);
    ForwardReflexive(s);
    ExpireForward(s, page, env);
    AfterPushForward(s, page, env);
    var pushed := AfterPush(s, page, env);
    ForwardFiled(s, pushed);
    AttemptedForward(pushed, page, task, env);
    ForwardTransitive(s, pushed, Attempted(pushed, page, task, env).store);
  }

  /** A whole batch only moves pages forward. */
  lemma {:induction false} BatchForward(s: S.State, tasks: seq<QueuedTask>, records: seq<Record>, envs: seq<Env>)
    requires |records| == |envs| && S.Filed(s)
    ensures Forward(s, HandleAll(s, tasks, records, envs).store)
    decreases |records|
  {
    hide HandleBody, S.Filed, Forward;
    if records == [] {
      ForwardReflexive(s);
    } else {
      var n := |records| - 1;
      var before := HandleAll(s, tasks, records[..n], envs[..n]).store;
      BatchForward(s, tasks, records[..n], envs[..n]);
      ForwardFiled(s, before);
      HandleForward(before, records[n].body, envs[n]);
      ForwardTransitive(s, before, HandleBody(before, records[n].body, envs[n]).store);
    }
  }

  /** When a record is an error: each call can only fail where it is made. */
  lemma FailsExactly(s: S.State, task: PageTask, env: Env)
    requires task.pageId in s.pages
    ensures var page := s.pages[task.pageId];
      Handle(s, task, env).failed <==>
        || LoadCall in env.faults
        || (Active(page.state) && env.now > page.expiresAt && ExpireCall in env.faults)
        || (Active(page.state) && env.now <= page.expiresAt && page.attempt < task.attempt
            && (|| ListCall in env.faults
                || (SenderCall in env.faults && S.DevicesOf(s, page.recipientId) != {})
                || RecordCall in env.faults
                || (EnqueueCall in env.faults && (task.attempt < 10 || env.now < page.expiresAt))))
  {
    hide S.DevicesOf, AfterPush, AttemptRecorded, Append;
  }

  /** When a record expires its page and when it records its attempt: an active page expires only after
      its expiry instant, and an attempt is recorded up to and at that instant, and only if it is
      further than the page's. */
  lemma VerdictExactly(s: S.State, task: PageTask, env: Env)
    requires S.Filed(s) && task.pageId in s.pages
    requires {LoadCall, ExpireCall, ListCall, SenderCall, RecordCall} !! env.faults
    ensures var page := s.pages[task.pageId]; var t := Handle(s, task, env).store;
      && task.pageId in t.pages
      && (t.pages[task.pageId].state == Expired != page.state <==> Active(page.state) && env.now > page.expiresAt)
      && t.pages[task.pageId].attempt ==
         if Active(page.state) && env.now <= page.expiresAt && page.attempt < task.attempt then task.attempt
         else page.attempt
  {
    FiledPage(s, task.pageId);
    AfterPushKeepsPages(s, s.pages[task.pageId], env);
    hide AfterPush, S.Filed, S.DevicesOf, Append;
    AppendLeavesPages(env, task.pageId);
  }

  lemma AppendLeavesPages(env: Env, pageId: string)
    ensures forall s, kind :: Append(s, env, pageId, kind).pages == s.pages
  {
  }

  /** A due attempt of the schedule is recorded and followed up, and exactly the tokens reported
      gone disappear, whether pushes fail, all devices are gone, or there is no device at all. */
  lemma PushesCannotStopTheNag(s: S.State, task: PageTask, env: Env)
    requires S.Filed(s) && Due(s, task, env) && 0 <= task.attempt < 10
    requires {ListCall, SenderCall, RecordCall, EnqueueCall} !! env.faults
    ensures var h := Handle(s, task, env); var page := s.pages[task.pageId];
      && !h.failed
      && h.next == Some(QueuedTask(PageTask(task.pageId, task.attempt + 1),
                                   Earliest(task.attempt + 1) - Earliest(task.attempt)))
      && task.pageId in h.store.pages
      && h.store.pages[task.pageId] == page.(attempt := task.attempt, state := h.store.pages[task.pageId].state)
      && Active(h.store.pages[task.pageId].state)
      && (forall k :: k in h.store.devices <==> k in s.devices && !(k.0 == page.recipientId && Dropped(env, k.1)))
      && (forall k :: k in h.store.devices ==> h.store.devices[k] == s.devices[k])
  {
    var page := s.pages[task.pageId];
    FiledPage(s, task.pageId);
    ScheduleAdvances(task.attempt);
    hide S.Filed, S.DevicesOf, Earliest;
    AfterPushDevices(s, page, env);
    AfterPushKeepsPages(s, page, env);
  }

  lemma AfterPushKeepsPages(s: S.State, page: Page, env: Env)
    ensures AfterPush(s, page, env).pages == s.pages
  {
    hide S.DevicesOf, GoneDevices;
  }

  lemma AfterPushDevices(s: S.State, page: Page, env: Env)
    ensures AfterPush(s, page, env).devices == s.devices - GoneDevices(s, page.recipientId, env)
  {
    assert forall k :: k in s.devices && k.0 == page.recipientId ==> s.devices[k] in S.DevicesOf(s, page.recipientId);
  }

  /** A batch of one is its record. */
  lemma BatchOfOne(s: S.State, tasks: seq<QueuedTask>, record: Record, env: Env)
    ensures var h := HandleBody(s, record.body, env);
      HandleAll(s, tasks, [record], [env])
      == Batch(h.store,
               if h.next.Some? then tasks + [h.next.value] else tasks,
               if h.failed then [record.messageId] else [])
  {
    hide HandleBody;
    assert [record][..0] == [] && [env][..0] == [];
  }

  /** A batch in two parts: the second part runs from the store and the queue the first one left,
      whatever failed there, and its failures are reported after those of the first. */
  lemma {:induction false} BatchOfTwoParts(s: S.State, tasks: seq<QueuedTask>, first: seq<Record>, envs1: seq<Env>,
                                           second: seq<Record>, envs2: seq<Env>)
    requires |first| == |envs1| && |second| == |envs2|
    ensures var one := HandleAll(s, tasks, first, envs1);
      var two := HandleAll(one.store, one.tasks, second, envs2);
      HandleAll(s, tasks, first + second, envs1 + envs2)
      == Batch(two.store, two.tasks, one.failures + two.failures)
    decreases |second|
  {
    hide HandleBody;
    if second == [] {
      assert first + second == first && envs1 + envs2 == envs1;
    } else {
      var n := |second| - 1;
      BatchOfTwoParts(s, tasks, first, envs1, second[..n], envs2[..n]);
      assert (first + second)[..|first| + n] == first + second[..n];
      assert (envs1 + envs2)[..|first| + n] == envs1 + envs2[..n];
    }
  }

  /** How record i of a batch ends, in the store its predecessors left. */
  function OutcomeAt(s: S.State, tasks: seq<QueuedTask>, records: seq<Record>, envs: seq<Env>, i: nat): Handled
    requires |records| == |envs| && i < |records|
  {
    HandleBody(HandleAll(s, tasks, records[..i], envs[..i]).store, records[i].body, envs[i])
  }

  lemma OutcomeOfPrefix(s: S.State, tasks: seq<QueuedTask>, records: seq<Record>, envs: seq<Env>, n: nat, i: nat)
    requires |records| == |envs| && i < n <= |records|
    ensures OutcomeAt(s, tasks, records[..n], envs[..n], i) == OutcomeAt(s, tasks, records, envs, i)
  {
    hide HandleBody, HandleAll;
    assert records[..n][..i] == records[..i] && envs[..n][..i] == envs[..i];
  }

  lemma LastOutcome(s: S.State, tasks: seq<QueuedTask>, records: seq<Record>, envs: seq<Env>)
    requires |records| == |envs| && records != []
    ensures var n := |records| - 1;
      var before, h := HandleAll(s, tasks, records[..n], envs[..n]), OutcomeAt(s, tasks, records, envs, n);
      && HandleAll(s, tasks, records, envs).failures
         == before.failures + (if h.failed then [records[n].messageId] else [])
      && HandleAll(s, tasks, records, envs).tasks
         == before.tasks + (if h.next.Some? then [h.next.value] else [])
  {
    hide HandleBody;
  }

  /** Record i bears this message id, and handling it failed. */
  predicate FailsAs(s: S.State, tasks: seq<QueuedTask>, records: seq<Record>, envs: seq<Env>, i: int, id: string)
    requires |records| == |envs|
  {
    0 <= i < |records| && records[i].messageId == id && OutcomeAt(s, tasks, records, envs, i).failed
  }

  /** Partial batch failure: a message is reported if and only if handling one of its records failed,
      whatever became of the other records. */
  lemma {:induction false} ReportedExactly(s: S.State, tasks: seq<QueuedTask>, records: seq<Record>, envs: seq<Env>,
                                           id: string)
    requires |records| == |envs|
    ensures id in HandleAll(s, tasks, records, envs).failures <==> exists i :: FailsAs(s, tasks, records, envs, i, id)
    decreases |records|
  {
    hide HandleBody, HandleAll, OutcomeAt;
    if records == [] {
      BatchOfNone(s, tasks);
    } else {
      var n := |records| - 1;
      ReportedExactly(s, tasks, records[..n], envs[..n], id);
      LastOutcome(s, tasks, records, envs);
      forall i: int
        ensures FailsAs(s, tasks, records, envs, i, id)
           <==> FailsAs(s, tasks, records[..n], envs[..n], i, id) || (i == n && FailsAs(s, tasks, records, envs, n, id))
      {
        if 0 <= i < n { OutcomeOfPrefix(s, tasks, records, envs, n, i); }
      }
      if id in HandleAll(s, tasks, records[..n], envs[..n]).failures {
        var i :| FailsAs(s, tasks, records[..n], envs[..n], i, id);
        assert FailsAs(s, tasks, records, envs, i, id);
      } else if id in HandleAll(s, tasks, records, envs).failures {
        assert FailsAs(s, tasks, records, envs, n, id);
      }
    }
  }

  /** The next task of every record is enqueued, whatever became of the other records. */
  lemma {:induction false} EveryFollowUpIsQueued(s: S.State, tasks: seq<QueuedTask>, records: seq<Record>,
                                                 envs: seq<Env>, i: nat)
    requires |records| == |envs| && i < |records|
    requires OutcomeAt(s, tasks, records, envs, i).next.Some?
    ensures OutcomeAt(s, tasks, records, envs, i).next.value in HandleAll(s, tasks, records, envs).tasks
    decreases |records|
  {
    hide HandleBody, HandleAll, OutcomeAt;
    var n := |records| - 1;
    LastOutcome(s, tasks, records, envs);
    if i < n {
      OutcomeOfPrefix(s, tasks, records, envs, n, i);
      EveryFollowUpIsQueued(s, tasks, records[..n], envs[..n], i);
    }
  }

  /** Partial batch failure: a record that redelivery cannot help (a body that does not parse, a
      missing page, a page that was terminal when the batch began) is not reported, whatever its
      neighbours in the batch do; its turn leaves store and queue alone. */
  lemma HopelessRecordIsDropped(s: S.State, tasks: seq<QueuedTask>, records: seq<Record>, envs: seq<Env>, i: nat)
    requires |records| == |envs| && i < |records| && S.Filed(s)
    requires records[i].body.None?
          || (LoadCall !in envs[i].faults
              && (records[i].body.value.pageId in s.pages ==> !Active(s.pages[records[i].body.value.pageId].state)))
    ensures HandleAll(s, tasks, records[..i + 1], envs[..i + 1]) == HandleAll(s, tasks, records[..i], envs[..i])
  {
    var before := HandleAll(s, tasks, records[..i], envs[..i]);
    BatchForward(s, tasks, records[..i], envs[..i]);
    assert records[..i + 1][..i] == records[..i] && envs[..i + 1][..i] == envs[..i];
    assert HandleBody(before.store, records[i].body, envs[i]) == Handled(before.store, None, false) by {
      if records[i].body.Some? && records[i].body.value.pageId in s.pages {
        var id := records[i].body.value.pageId;
        assert S.PageAdvances(s.pages[id], before.store.pages[id]);
      }
    }
  }

  lemma BatchOfNone(s: S.State, tasks: seq<QueuedTask>)
    ensures HandleAll(s, tasks, [], []) == Batch(s, tasks, []) && Concat([]) == []
    ensures NotifiesEach(s, tasks, [], [], [])
  {
  }

  lemma BatchNext(s: S.State, tasks: seq<QueuedTask>, records: seq<Record>, envs: seq<Env>, i: nat,
                  sends: seq<seq<Push>>, last: seq<Push>)
    requires |records| == |envs| && i < |records|
    requires NotifiesEach(s, tasks, records[..i], envs[..i], sends)
    requires Notifies(HandleAll(s, tasks, records[..i], envs[..i]).store, records[i].body, envs[i], last)
    ensures var before := HandleAll(s, tasks, records[..i], envs[..i]);
      var h := HandleBody(before.store, records[i].body, envs[i]);
      HandleAll(s, tasks, records[..i + 1], envs[..i + 1])
      == Batch(h.store,
               if h.next.Some? then before.tasks + [h.next.value] else before.tasks,
               if h.failed then before.failures + [records[i].messageId] else before.failures)
    ensures Concat(sends + [last]) == Concat(sends) + last
    ensures NotifiesEach(s, tasks, records[..i + 1], envs[..i + 1], sends + [last])
  {
    hide HandleBody, Notifies;
    assert records[..i + 1][..i] == records[..i] && envs[..i + 1][..i] == envs[..i];
    assert (sends + [last])[..i] == sends;
    forall k | 0 <= k < i + 1
      ensures Notifies(HandleAll(s, tasks, records[..i + 1][..k], envs[..i + 1][..k]).store, records[..i + 1][k].body,
                       envs[..i + 1][k], (sends + [last])[k])
    {
      hide HandleAll;
      assert records[..i + 1][..k] == records[..k] == records[..i][..k];
      assert envs[..i + 1][..k] == envs[..k] == envs[..i][..k];
    }
  }

  lemma ListedNotifies(s: S.State, body: Option<PageTask>, env: Env, listed: seq<Device>, sent: seq<Push>,
                       after: seq<Push>)
    requires body.Some? && Pushes(s, body.value, env) ==>
      var page := s.pages[body.value.pageId];
      && S.ListsDevices(s, page.recipientId, listed)
      && var name := if page.senderId in s.users && NameCall !in env.faults then s.users[page.senderId].displayName
                     else page.senderId;
         after == sent
           + seq(|listed|, i requires 0 <= i < |listed| =>
                   Push(device := listed[i], pageId := body.value.pageId, attempt := body.value.attempt,
                        senderName := name))
    requires body.None? || !Pushes(s, body.value, env) ==> after == sent
    ensures sent <= after && Notifies(s, body, env, after[|sent|..])
  {
    if body.Some? && Pushes(s, body.value, env) {
      var devices := S.DevicesOf(s, s.pages[body.value.pageId].recipientId);
      var mine := after[|sent|..];
      DistinctCount(listed);
      assert (set d | d in listed) == devices;
      forall d | d in devices ensures exists p :: p in mine && p.device == d {
        var i :| 0 <= i < |listed| && listed[i] == d;
        assert mine[i].device == d;
      }
    }
  }

  /** The device keys a push to `listed` deletes. */
  ghost function GoneAmong(listed: seq<Device>, env: Env): set<(string, string)> {
    set d | d in listed && Dropped(env, d.token) :: (d.userId, d.token)
  }

  lemma NoneGone(env: Env)
    ensures GoneAmong([], env) == {}
  {
  }

  lemma GoneAmongNext(listed: seq<Device>, i: nat, env: Env)
    requires i < |listed|
    ensures GoneAmong(listed[..i + 1], env)
         == GoneAmong(listed[..i], env)
           + if Dropped(env, listed[i].token) then {(listed[i].userId, listed[i].token)} else {}
  {
  }

  lemma GoneAmongAll(s: S.State, userId: string, listed: seq<Device>, env: Env)
    requires S.Filed(s) && S.ListsDevices(s, userId, listed)
    ensures s.(devices := s.devices - GoneAmong(listed, env)) == Prune(s, userId, env)
  {
    forall k | k in GoneDevices(s, userId, env) ensures k in GoneAmong(listed, env) {
      assert s.devices[k] in S.DevicesOf(s, userId);
      assert s.devices[k] in listed;
    }
    assert s.devices - GoneAmong(listed, env) == s.devices - GoneDevices(s, userId, env);
  }
}
