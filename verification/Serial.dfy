/** Serial runs: handlers do not overlap, so each takes effect as a whole, by the functions the
    imperative handlers are proved to compute. Deliveries may still be duplicated, reordered and
    repeated after failures, and any append to a timeline may fail; only Enqueue succeeds. A handler
    lost after its conditional expiry or acknowledgement is one whose append failed, preceded by a
    duplicate if its message stays; a pager lost while pushing is some devices dropped. */
module Serial {
  import opened Model
  import opened Nag
  import opened PagerRules
  import S = Store
  import opened Pager
  import Api
  import P = Protocol

  /** `recorded` is the sequence of attempts recorded on a page; `budget` bounds the duplicates and
      failures still to come. */
  datatype Config = Config(now: Time, store: S.State, queue: seq<P.Msg>, recorded: map<string, seq<int>>, budget: nat)

  /** The calls that concern people and devices but no page. */
  datatype Bookkeeping =
    | UserCall(user: User)
    | DeviceCall(device: Device)
    | InviteCall(invite: Invite)
    | AcceptCall(code: string, accepter: User, checkedAt: Time)
    | BlockCall(userId: string, peerId: string)
    | DropCall(userId: string, token: string)

  datatype Step =
    | Wait(d: Duration)
    | BookkeepingCall(act: Bookkeeping)
    | CreateCall(caller: string, recipient: string, message: string, key: string, id: string)
    | AckCall(caller: string, id: string, note: string, logFails: bool)
    | ReceiptCall(caller: string, id: string, logFails: bool)
    | Deliver(i: nat, env: Env, end: Time)
    | Duplicate(i: nat)

  /** The invocation gets as far as recording its attempt. */
  predicate Attempts(s: S.State, task: PageTask, env: Env) {
    && Due(s, task, env)
    && {ListCall, RecordCall} !! env.faults
    && !(SenderCall in env.faults && S.DevicesOf(s, s.pages[task.pageId].recipientId) != {})
  }

  /** The invocation finds the page past its expiry. */
  predicate Expires(s: S.State, task: PageTask, env: Env) {
    && {LoadCall, ExpireCall} !! env.faults
    && task.pageId in s.pages && Active(s.pages[task.pageId].state)
    && env.now > s.pages[task.pageId].expiresAt
  }

  predicate Enabled(c: Config, s: Step) {
    match s
    case Wait(d) => d >= 0
    case BookkeepingCall(_) => true
    case CreateCall(_, _, _, _, _) => true
    case AckCall(_, _, _, _) => true
    case ReceiptCall(_, _, _) => true
    case Deliver(i, env, end) =>
      && i < |c.queue| && c.queue[i].ready <= c.now <= env.now <= end
      && EnqueueCall !in env.faults
      && (Handle(c.store, c.queue[i].task, env).failed ==> c.budget > 0)
    case Duplicate(i) => i < |c.queue| && c.budget > 0
  }

  function Without(q: seq<P.Msg>, i: nat): seq<P.Msg>
    requires i < |q|
  {
    q[..i] + q[i + 1..]
  }

  function Sent(next: Option<QueuedTask>, now: Time): seq<P.Msg> {
    if next.None? || next.value.delay < 0 then [] else [P.Msg(next.value.task, now + WholeSeconds(next.value.delay))]
  }

  function Log(r: map<string, seq<int>>, id: string, attempt: int): map<string, seq<int>> {
    r[id := (if id in r then r[id] else []) + [attempt]]
  }

  /** A handled message is gone, a failed one stays for redelivery. */
  function DoDeliver(c: Config, i: nat, env: Env, end: Time): Config
    requires i < |c.queue|
  {
    var task := c.queue[i].task;
    var h := Handle(c.store, task, env);
    Config(end, h.store,
           (if h.failed then c.queue else Without(c.queue, i)) + Sent(h.next, end),
           if Attempts(c.store, task, env) then Log(c.recorded, task.pageId, task.attempt) else c.recorded,
           if h.failed && c.budget > 0 then c.budget - 1 else c.budget)
  }

  function DoCreate(c: Config, caller: string, recipient: string, message: string, key: string, id: string): Config {
    var e := Api.CreateEffect(c.store, caller, recipient, message, key, id, c.now, false);
    c.(store := e.store,
       queue := c.queue + Sent(e.next, c.now),
       recorded := if e.answer.Made? then c.recorded[id := []] else c.recorded)
  }

  function Bookkeep(s: S.State, act: Bookkeeping, now: Time): S.State {
    match act
    case UserCall(u) => S.PutUser(s, u)
    case DeviceCall(d) => S.PutDevice(s, d)
    case InviteCall(inv) => S.CreateInvite(s, inv)
    case AcceptCall(code, accepter, checkedAt) => S.AcceptInvite(s, code, accepter, checkedAt, now).0
    case BlockCall(userId, peerId) => S.BlockPairing(s, userId, peerId).0
    case DropCall(userId, token) => S.DeleteDevice(s, userId, token)
  }

  lemma BookkeepingLeavesPages(s: S.State, act: Bookkeeping, now: Time)
    requires S.Filed(s)
    ensures var t := Bookkeep(s, act, now);
      S.Filed(t) && t.pages == s.pages && t.events == s.events && t.idem == s.idem
  {
    hide S.Filed;
    match act
    case UserCall(u) => UserFiled(s, u);
    case DeviceCall(d) => DeviceFiled(s, d);
    case InviteCall(inv) => InviteFiled(s, inv);
    case AcceptCall(code, accepter, checkedAt) => AcceptFiled(s, code, accepter, checkedAt, now);
    case BlockCall(userId, peerId) => BlockFiled(s, userId, peerId);
    case DropCall(userId, token) => DropFiled(s, userId, token);
  }

  lemma UserFiled(s: S.State, u: User)
    requires S.Filed(s)
    ensures S.Filed(S.PutUser(s, u))
  {
  }

  lemma DeviceFiled(s: S.State, d: Device)
    requires S.Filed(s)
    ensures S.Filed(S.PutDevice(s, d))
  {
  }

  lemma InviteFiled(s: S.State, inv: Invite)
    requires S.Filed(s)
    ensures S.Filed(S.CreateInvite(s, inv))
  {
  }

  lemma AcceptFiled(s: S.State, code: string, accepter: User, checkedAt: Time, now: Time)
    requires S.Filed(s)
    ensures S.Filed(S.AcceptInvite(s, code, accepter, checkedAt, now).0)
  {
  }

  lemma BlockFiled(s: S.State, userId: string, peerId: string)
    requires S.Filed(s)
    ensures S.Filed(S.BlockPairing(s, userId, peerId).0)
  {
  }

  lemma DropFiled(s: S.State, userId: string, token: string)
    requires S.Filed(s)
    ensures S.Filed(S.DeleteDevice(s, userId, token))
  {
  }

  function Apply(c: Config, s: Step): Config
    requires Enabled(c, s)
  {
    match s
    case Wait(d) => c.(now := c.now + d)
    case BookkeepingCall(act) => c.(store := Bookkeep(c.store, act, c.now))
    case CreateCall(caller, recipient, message, key, id) => DoCreate(c, caller, recipient, message, key, id)
    case AckCall(caller, id, note, logFails) =>
      c.(store := Api.AckEffect(c.store, caller, id, note, c.now, logFails).store)
    case ReceiptCall(caller, id, logFails) => c.(store := Api.ReceiptEffect(c.store, caller, id, c.now, logFails).store)
    case Deliver(i, env, end) => DoDeliver(c, i, env, end)
    case Duplicate(i) => c.(queue := c.queue + [c.queue[i]], budget := c.budget - 1)
  }

  // ------------------------------------------------------------ the invariant

  function UpTo(attempt: int): seq<int>
    requires attempt >= -1
  {
    seq(attempt + 1, i => i)
  }

  ghost predicate PageOK(c: Config, id: string)
    requires id in c.store.pages
  {
    var p := c.store.pages[id];
    && p.id == id
    && p.expiresAt == p.createdAt + EXPIRY
    && p.createdAt <= c.now
    && -1 <= p.attempt <= 9
    && !p.state.Cancelled?
    && id in c.recorded && c.recorded[id] == UpTo(p.attempt)
  }

  ghost predicate MsgOK(c: Config, m: P.Msg) {
    && m.task.pageId in c.store.pages
    && 0 <= m.task.attempt <= |DELAYS|
    && m.ready >= c.store.pages[m.task.pageId].createdAt + Earliest(m.task.attempt)
    && (Active(c.store.pages[m.task.pageId].state) ==> m.task.attempt <= c.store.pages[m.task.pageId].attempt + 1)
  }

  ghost predicate NextQueued(c: Config, id: string)
    requires id in c.store.pages
  {
    exists m :: m in c.queue && m.task == PageTask(id, c.store.pages[id].attempt + 1)
  }

  ghost predicate PagesOK(c: Config) {
    && (forall id :: id in c.store.pages ==> PageOK(c, id))
    && (forall id :: id in c.store.events ==> id in c.store.pages)
  }

  ghost predicate QueueOK(c: Config) {
    forall m :: m in c.queue ==> MsgOK(c, m)
  }

  ghost predicate NoneOrphaned(c: Config) {
    forall id :: id in c.store.pages && Active(c.store.pages[id].state) ==> NextQueued(c, id)
  }

  ghost predicate Inv(c: Config) {
    S.Filed(c.store) && PagesOK(c) && QueueOK(c) && NoneOrphaned(c)
  }

  // ------------------------------------------------------------ what a delivery does

  /** A delivery that changes no page and enqueues nothing: dropped, or failed before recording.
      At most it adds a no_devices event to its page. */
  ghost predicate Idle(s: S.State, task: PageTask, h: Handled) {
    && h.store.pages == s.pages && h.next.None?
    && (h.store.events == s.events
        || (task.pageId in s.pages && Active(s.pages[task.pageId].state)
            && exists e: PageEvent :: e.kind.EvNoDevices? && e.pageId == task.pageId
                 && h.store.events == s.events[task.pageId := S.Events(s, task.pageId) + [e]]))
  }

  lemma DeliveryIdles(s: S.State, task: PageTask, env: Env)
    requires S.Filed(s) && !Attempts(s, task, env) && !Expires(s, task, env)
    ensures Idle(s, task, Handle(s, task, env))
  {
    var h := Handle(s, task, env);
    if h.store.events != s.events {
      assert h.store.events
        == s.events[task.pageId := S.Events(s, task.pageId) + [PageEvent(task.pageId, EvNoDevices, "", env.now)]];
    }
  }

  lemma DeliveryExpires(s: S.State, task: PageTask, env: Env)
    requires S.Filed(s) && Expires(s, task, env)
    ensures var h := Handle(s, task, env); var id := task.pageId;
      && !h.failed && h.next.None?
      && h.store.pages == s.pages[id := s.pages[id].(state := Expired)]
      && LogsOnly(s, h.store, id, Kept(env, PageEvent(id, EvExpired, "", env.now)))
  {
  }

  /** The timelines of t are those of s, with es appended to that of page id. */
  ghost predicate LogsOnly(s: S.State, t: S.State, id: string, es: seq<PageEvent>) {
    t.events == if es == [] then s.events else s.events[id := S.Events(s, id) + es]
  }

  /** An event, if it can be appended. */
  function Kept(env: Env, e: PageEvent): seq<PageEvent> {
    if Logs(env, e.kind) then [e] else []
  }

  /** The events of an attempt: no_devices when there was nobody to push to, then push_attempt. */
  function AttemptEvents(s: S.State, page: Page, env: Env): seq<PageEvent> {
    (if S.DevicesOf(s, page.recipientId) == {} then Kept(env, PageEvent(page.id, EvNoDevices, "", env.now)) else [])
    + Kept(env, PageEvent(page.id, EvPushAttempt, "", env.now))
  }

  lemma AppendLogs(s: S.State, env: Env, id: string, kind: EventType)
    ensures var t := Append(s, env, id, kind);
      t.pages == s.pages && LogsOnly(s, t, id, Kept(env, PageEvent(id, kind, "", env.now)))
  {
  }

  lemma PruneLogsNothing(s: S.State, userId: string, env: Env)
    ensures Prune(s, userId, env).pages == s.pages && Prune(s, userId, env).events == s.events
  {
    hide GoneDevices;
  }

  /** The pushing leaves the pages alone; it logs no_devices if there was nobody to push to. */
  lemma AfterPushLogs(s: S.State, page: Page, env: Env)
    ensures var t := AfterPush(s, page, env);
      && t.pages == s.pages
      && LogsOnly(s, t, page.id,
           if S.DevicesOf(s, page.recipientId) == {}
           then Kept(env, PageEvent(page.id, EvNoDevices, "", env.now)) else [])
  {
    hide S.DevicesOf, Append, Prune, Kept;
    AppendLogs(s, env, page.id, EvNoDevices);
    PruneLogsNothing(s, page.recipientId, env);
  }

  lemma AttemptedLogs(t: S.State, page: Page, task: PageTask, env: Env)
    requires EnqueueCall !in env.faults && page.id in t.pages && t.pages[page.id] == page && Active(page.state)
    ensures var h := Attempted(t, page, task, env);
      && !h.failed && h.next == NextTask(page, task.attempt, env.now)
      && h.store.pages == t.pages[page.id :=
           page.(state := if page.state.Created? then Pushed else page.state, attempt := task.attempt)]
      && LogsOnly(t, h.store, page.id, Kept(env, PageEvent(page.id, EvPushAttempt, "", env.now)))
  {
    hide FollowUp;
  }

  lemma LogsTwice(s: S.State, t: S.State, u: S.State, id: string, es: seq<PageEvent>, fs: seq<PageEvent>)
    requires LogsOnly(s, t, id, es) && LogsOnly(t, u, id, fs)
    ensures LogsOnly(s, u, id, es + fs)
  {
    assert S.Events(s, id) + (es + fs) == (S.Events(s, id) + es) + fs;
    assert es == [] ==> es + fs == fs;
    assert fs == [] ==> es + fs == es;
  }

  lemma AttemptReached(s: S.State, task: PageTask, env: Env)
    requires S.Filed(s) && Attempts(s, task, env)
    ensures Handle(s, task, env) == Attempted(AfterPush(s, s.pages[task.pageId], env), s.pages[task.pageId], task, env)
    ensures s.pages[task.pageId].id == task.pageId
  {
    hide S.DevicesOf, AfterPush, Attempted;
  }

  lemma DeliveryAttempts(s: S.State, task: PageTask, env: Env)
    requires S.Filed(s) && Attempts(s, task, env) && EnqueueCall !in env.faults
    ensures var h := Handle(s, task, env); var id := task.pageId; var page := s.pages[id];
      && !h.failed && h.next == NextTask(page, task.attempt, env.now)
      && page.id == id
      && h.store.pages
         == s.pages[id := page.(state := if page.state.Created? then Pushed else page.state, attempt := task.attempt)]
      && LogsOnly(s, h.store, id, AttemptEvents(s, page, env))
  {
    hide S.Filed, S.DevicesOf, AfterPush, Attempted, Handle, NextTask, LogsOnly, Kept;
    var page := s.pages[task.pageId];
    var t := AfterPush(s, page, env);
    AttemptReached(s, task, env);
    AfterPushLogs(s, page, env);
    AttemptedLogs(t, page, task, env);
    var es := if S.DevicesOf(s, page.recipientId) == {} then Kept(env, PageEvent(page.id, EvNoDevices, "", env.now))
      else [];
    LogsTwice(s, t, Attempted(t, page, task, env).store, page.id, es,
      Kept(env, PageEvent(page.id, EvPushAttempt, "", env.now)));
  }

  lemma DroppedMeans(s: S.State, task: PageTask, env: Env)
    requires !Attempts(s, task, env) && !Expires(s, task, env) && !Handle(s, task, env).failed
    requires task.pageId in s.pages && Active(s.pages[task.pageId].state)
    ensures task.attempt <= s.pages[task.pageId].attempt
  {
    hide S.DevicesOf, AfterPush, Attempted;
  }

  // ------------------------------------------------------------ the invariant is kept

  /** Only page id is touched, and only forward. */
  ghost predicate Touches(c: Config, d: Config, id: string) {
    && c.now <= d.now
    && S.Filed(d.store)
    && id in d.store.pages
    && d.store.pages.Keys == c.store.pages.Keys + {id}
    && d.store.events.Keys <= c.store.events.Keys + {id}
    && (forall k :: k in c.store.pages && k != id ==>
          && d.store.pages[k] == c.store.pages[k]
          && k in c.recorded && k in d.recorded && d.recorded[k] == c.recorded[k])
    && (id in c.store.pages ==>
          var p := c.store.pages[id]; var q := d.store.pages[id];
          q.createdAt == p.createdAt && p.attempt <= q.attempt && (Active(q.state) ==> Active(p.state)))
  }

  lemma TouchKeepsPages(c: Config, d: Config, id: string)
    requires PagesOK(c) && Touches(c, d, id) && PageOK(d, id)
    ensures PagesOK(d)
  {
    hide UpTo;
    forall k | k in d.store.pages ensures PageOK(d, k) {
      if k != id { assert PageOK(c, k); }
    }
  }

  lemma TouchKeepsQueue(c: Config, d: Config, id: string)
    requires QueueOK(c) && Touches(c, d, id)
    requires forall m :: m in d.queue ==> m in c.queue || MsgOK(d, m)
    ensures QueueOK(d)
  {
    forall m | m in d.queue && m in c.queue ensures MsgOK(d, m) { assert MsgOK(c, m); }
  }

  /** The tasks other pages wait for are still there. */
  lemma TouchKeepsOthers(c: Config, d: Config, id: string)
    requires NoneOrphaned(c) && Touches(c, d, id)
    requires forall m :: m in c.queue && m.task.pageId != id ==> m in d.queue
    requires Active(d.store.pages[id].state) ==> NextQueued(d, id)
    ensures NoneOrphaned(d)
  {
    forall k | k in d.store.pages && k != id && Active(d.store.pages[k].state) ensures NextQueued(d, k) {
      assert NextQueued(c, k);
    }
  }

  lemma WithoutKeeps(q: seq<P.Msg>, i: nat, m: P.Msg)
    requires i < |q| && m in q && m != q[i]
    ensures m in Without(q, i)
  {
    var j :| 0 <= j < |q| && q[j] == m;
    if j < i { assert Without(q, i)[j] == m; } else { assert Without(q, i)[j - 1] == m; }
  }

  lemma FinishTouch(c: Config, d: Config, id: string)
    requires Inv(c) && Touches(c, d, id) && PageOK(d, id)
    requires forall m :: m in d.queue ==> m in c.queue || MsgOK(d, m)
    requires forall m :: m in c.queue && m.task.pageId != id ==> m in d.queue
    requires Active(d.store.pages[id].state) ==> NextQueued(d, id)
    ensures Inv(d)
  {
    hide PageOK, MsgOK, NextQueued, PagesOK, QueueOK, NoneOrphaned;
    TouchKeepsPages(c, d, id);
    TouchKeepsQueue(c, d, id);
    TouchKeepsOthers(c, d, id);
    TouchFiled(c, d, id);
  }

  lemma TouchFiled(c: Config, d: Config, id: string)
    requires Touches(c, d, id)
    ensures S.Filed(d.store)
  {
  }

  /** In a serial run the attempt that gets recorded is the next one, and it is in time. */
  lemma AttemptIsNext(c: Config, m: P.Msg, env: Env)
    requires Inv(c) && m in c.queue && m.ready <= env.now && Attempts(c.store, m.task, env)
    ensures m.task.attempt == c.store.pages[m.task.pageId].attempt + 1
    ensures 0 <= m.task.attempt <= 9
  {
    assert MsgOK(c, m) && PageOK(c, m.task.pageId);
    LastAttemptOvershoots(m.task.attempt);
  }

  ghost predicate Delivers(c: Config, i: nat, env: Env, end: Time) {
    Enabled(c, Deliver(i, env, end))
  }

  /** Writing one page, its timeline or not, and its log touches that page only. */
  lemma WriteTouches(c: Config, d: Config, id: string)
    requires PagesOK(c) && S.Filed(d.store) && c.now <= d.now
    requires id in c.store.pages && id in d.store.pages
    requires d.store.pages == c.store.pages[id := d.store.pages[id]]
    requires d.store.events.Keys <= c.store.events.Keys + {id}
    requires d.recorded == c.recorded || (id in d.recorded && d.recorded == c.recorded[id := d.recorded[id]])
    requires var p := c.store.pages[id]; var q := d.store.pages[id];
      q.createdAt == p.createdAt && p.attempt <= q.attempt && (Active(q.state) ==> Active(p.state))
    ensures Touches(c, d, id)
  {
    hide UpTo;
    assert forall k :: k in c.store.pages ==> PageOK(c, k);
  }

  lemma Parts(c: Config)
    requires Inv(c)
    ensures S.Filed(c.store) && PagesOK(c) && QueueOK(c) && NoneOrphaned(c)
  {
  }

  lemma DeliverForward(s: S.State, task: PageTask, env: Env)
    requires S.Filed(s)
    ensures S.Filed(Handle(s, task, env).store)
  {
    hide Handle, S.Filed, Forward;
    HandleForward(s, Some(task), env);
    ForwardFiled(s, Handle(s, task, env).store);
  }

  lemma AttemptTouches(c: Config, i: nat, env: Env, end: Time)
    requires Inv(c) && Delivers(c, i, env, end) && Attempts(c.store, c.queue[i].task, env)
    ensures Touches(c, DoDeliver(c, i, env, end), c.queue[i].task.pageId)
  {
    hide Inv, Handle, MsgOK, NextQueued, UpTo, S.Filed, S.DevicesOf, PagesOK, QueueOK, NoneOrphaned, Touches;
    var task := c.queue[i].task;
    Parts(c);
    AttemptIsNext(c, c.queue[i], env);
    DeliveryAttempts(c.store, task, env);
    DeliverForward(c.store, task, env);
    WriteTouches(c, DoDeliver(c, i, env, end), task.pageId);
  }

  lemma AttemptPageOK(c: Config, i: nat, env: Env, end: Time)
    requires Inv(c) && Delivers(c, i, env, end) && Attempts(c.store, c.queue[i].task, env)
    ensures var d := DoDeliver(c, i, env, end); var id := c.queue[i].task.pageId;
      id in d.store.pages && PageOK(d, id)
  {
    hide MsgOK, NextQueued, Handle, NextTask, AttemptEvents;
    var task := c.queue[i].task;
    var d := DoDeliver(c, i, env, end);
    var page := c.store.pages[task.pageId];
    AttemptIsNext(c, c.queue[i], env);
    DeliveryAttempts(c.store, task, env);
    assert PageOK(c, task.pageId);
    assert UpTo(page.attempt) + [task.attempt] == UpTo(task.attempt);
  }

  lemma NextMsgOK(c: Config, i: nat, env: Env, end: Time)
    requires Inv(c) && Delivers(c, i, env, end) && Attempts(c.store, c.queue[i].task, env)
    ensures var task := c.queue[i].task; 0 <= task.attempt < |DELAYS|
    ensures var d := DoDeliver(c, i, env, end); var task := c.queue[i].task;
      var next := P.Msg(PageTask(task.pageId, task.attempt + 1), end + DELAYS[task.attempt]);
      && d.queue == Without(c.queue, i) + [next] && MsgOK(d, next)
      && task.pageId in d.store.pages && (next in d.queue ==> NextQueued(d, task.pageId))
  {
    hide Handle, Without, S.Filed, S.DevicesOf, UpTo, AttemptEvents;
    var task := c.queue[i].task;
    AttemptIsNext(c, c.queue[i], env);
    DeliveryAttempts(c.store, task, env);
    assert PageOK(c, task.pageId) && MsgOK(c, c.queue[i]);
    ScheduleAdvances(task.attempt);
  }

  lemma AttemptQueue(c: Config, i: nat, env: Env, end: Time)
    requires Inv(c) && Delivers(c, i, env, end) && Attempts(c.store, c.queue[i].task, env)
    ensures var d := DoDeliver(c, i, env, end); var m := c.queue[i]; var id := m.task.pageId;
      && |d.queue| == |c.queue|
      && (forall m :: m in d.queue ==> m in c.queue || MsgOK(d, m))
      && (forall m :: m in c.queue && m.task.pageId != id ==> m in d.queue)
      && id in d.store.pages && NextQueued(d, id)
  {
    hide Handle, Inv, Attempts, DoDeliver, MsgOK, NextQueued, Without;
    var task := c.queue[i].task;
    NextMsgOK(c, i, env, end);
    var next := P.Msg(PageTask(task.pageId, task.attempt + 1), end + DELAYS[task.attempt]);
    ReplacedInQueue(c, DoDeliver(c, i, env, end), i, next);
  }

  lemma ReplacedInQueue(c: Config, d: Config, i: nat, next: P.Msg)
    requires i < |c.queue| && d.queue == Without(c.queue, i) + [next]
    ensures |d.queue| == |c.queue| && next in d.queue
    ensures forall m :: m in d.queue ==> m in c.queue || m == next
    ensures forall m :: m in c.queue && m.task.pageId != c.queue[i].task.pageId ==> m in d.queue
  {
    forall m | m in c.queue && m.task.pageId != c.queue[i].task.pageId ensures m in d.queue {
      WithoutKeeps(c.queue, i, m);
    }
  }

  lemma AttemptKeeps(c: Config, i: nat, env: Env, end: Time)
    requires Inv(c) && Delivers(c, i, env, end) && Attempts(c.store, c.queue[i].task, env)
    ensures Inv(DoDeliver(c, i, env, end))
  {
    hide Inv, Handle, Attempts, DoDeliver, Touches, PageOK, MsgOK, NextQueued;
    AttemptTouches(c, i, env, end);
    AttemptPageOK(c, i, env, end);
    AttemptQueue(c, i, env, end);
    FinishTouch(c, DoDeliver(c, i, env, end), c.queue[i].task.pageId);
  }

  lemma ExpireKeeps(c: Config, i: nat, env: Env, end: Time)
    requires Inv(c) && Delivers(c, i, env, end) && Expires(c.store, c.queue[i].task, env)
    ensures Inv(DoDeliver(c, i, env, end))
  {
    hide Inv, Handle, MsgOK, NextQueued, UpTo, S.Filed, S.DevicesOf, PagesOK, QueueOK, NoneOrphaned, Touches;
    var task := c.queue[i].task;
    var id := task.pageId;
    var d := DoDeliver(c, i, env, end);
    Parts(c);
    PageHere(c, id);
    DeliveryExpires(c.store, task, env);
    DeliverForward(c.store, task, env);
    WriteTouches(c, d, id);
    forall m | m in c.queue && m.task.pageId != id ensures m in d.queue { WithoutKeeps(c.queue, i, m); }
    FinishTouch(c, d, id);
  }

  lemma PageHere(c: Config, id: string)
    requires Inv(c) && id in c.store.pages
    ensures PageOK(c, id)
  {
  }

  /** A dropped or failed delivery leaves every page alone; a dropped message is never the one
      an active page waits for. */
  lemma IdleKeeps(c: Config, i: nat, env: Env, end: Time)
    requires Inv(c) && Delivers(c, i, env, end)
    requires !Attempts(c.store, c.queue[i].task, env) && !Expires(c.store, c.queue[i].task, env)
    ensures Inv(DoDeliver(c, i, env, end))
  {
    hide Inv, Handle, Attempts, Expires, MsgOK, NextQueued, UpTo, S.Filed, S.DevicesOf, PagesOK, QueueOK,
      NoneOrphaned, Idle;
    var task := c.queue[i].task;
    var d := DoDeliver(c, i, env, end);
    Parts(c);
    DeliveryIdles(c.store, task, env);
    DeliverForward(c.store, task, env);
    if Handle(c.store, task, env).failed {
      assert d.queue == c.queue;
    } else {
      if task.pageId in c.store.pages && Active(c.store.pages[task.pageId].state) { DroppedMeans(c.store, task, env); }
      assert d.queue == Without(c.queue, i);
    }
    IdlePages(c, d, task, Handle(c.store, task, env));
    IdleQueue(c, d, i);
    Whole(d);
  }

  lemma Whole(c: Config)
    requires S.Filed(c.store) && PagesOK(c) && QueueOK(c) && NoneOrphaned(c)
    ensures Inv(c)
  {
  }

  lemma IdlePages(c: Config, d: Config, task: PageTask, h: Handled)
    requires PagesOK(c) && Idle(c.store, task, h) && d.store == h.store && d.recorded == c.recorded && c.now <= d.now
    ensures PagesOK(d) && d.store.pages == c.store.pages
  {
    hide UpTo;
    forall k | k in d.store.pages ensures PageOK(d, k) { assert PageOK(c, k); }
  }

  lemma IdleQueue(c: Config, d: Config, i: nat)
    requires QueueOK(c) && NoneOrphaned(c) && d.store.pages == c.store.pages && i < |c.queue|
    requires d.queue == c.queue
          || (d.queue == Without(c.queue, i)
              && var task := c.queue[i].task;
                 (task.pageId in c.store.pages && Active(c.store.pages[task.pageId].state) ==>
                    task.attempt <= c.store.pages[task.pageId].attempt))
    ensures QueueOK(d) && NoneOrphaned(d)
  {
    forall m | m in d.queue ensures MsgOK(d, m) { assert m in c.queue && MsgOK(c, m); }
    forall id | id in d.store.pages && Active(d.store.pages[id].state) ensures NextQueued(d, id) {
      var m :| m in c.queue && m.task == PageTask(id, c.store.pages[id].attempt + 1);
      if d.queue != c.queue { WithoutKeeps(c.queue, i, m); }
      assert m in d.queue;
    }
  }

  lemma DeliverKeeps(c: Config, i: nat, env: Env, end: Time)
    requires Inv(c) && Delivers(c, i, env, end)
    ensures Inv(DoDeliver(c, i, env, end))
  {
    hide Inv, DoDeliver, Attempts, Expires;
    if Attempts(c.store, c.queue[i].task, env) {
      AttemptKeeps(c, i, env, end);
    } else if Expires(c.store, c.queue[i].task, env) {
      ExpireKeeps(c, i, env, end);
    } else {
      IdleKeeps(c, i, env, end);
    }
  }

  // ------------------------------------------------------------ the other actors

  lemma CreateKeeps(c: Config, caller: string, recipient: string, message: string, key: string, id: string)
    requires Inv(c)
    ensures Inv(DoCreate(c, caller, recipient, message, key, id))
  {
    hide Inv, UpTo, PagesOK, QueueOK, NoneOrphaned;
    var d := DoCreate(c, caller, recipient, message, key, id);
    Parts(c);
    var e := Api.CreateEffect(c.store, caller, recipient, message, key, id, c.now, false);
    if e.answer.Made? {
      var page := NewPage(id, caller, recipient, message, key, c.now, c.now + EXPIRY);
      var first := P.Msg(PageTask(id, 0), c.now);
      assert d.queue == c.queue + [first];
      CreatedPageOK(c, d, page);
      assert first in d.queue;
      FinishTouch(c, d, id);
    } else {
      assert d.queue == c.queue;
      assert d == c;
    }
  }

  ghost predicate Creates(c: Config, d: Config, page: Page) {
    && page == NewPage(
         page.id, page.senderId, page.recipientId, page.message, page.idempotencyKey, c.now, c.now + EXPIRY)
    && page.id !in c.store.pages && page.idempotencyKey !in c.store.idem
    && d.now == c.now && d.store == S.CreatePage(c.store, page).0 && d.recorded == c.recorded[page.id := []]
  }

  lemma CreatedFiled(c: Config, d: Config, page: Page)
    requires S.Filed(c.store) && Creates(c, d, page)
    ensures S.Filed(d.store)
  {
  }

  lemma CreatedTouches(c: Config, d: Config, page: Page)
    requires S.Filed(d.store) && PagesOK(c) && Creates(c, d, page)
    ensures Touches(c, d, page.id)
  {
    hide S.Filed, UpTo;
    assert forall k :: k in c.store.pages ==> PageOK(c, k);
  }

  lemma CreatedPageOK(c: Config, d: Config, page: Page)
    requires S.Filed(c.store) && PagesOK(c) && Creates(c, d, page)
    ensures Touches(c, d, page.id) && PageOK(d, page.id) && MsgOK(d, P.Msg(PageTask(page.id, 0), c.now))
  {
    CreatedFiled(c, d, page);
    CreatedTouches(c, d, page);
    hide S.Filed, Touches;
    assert UpTo(-1) == [];
  }

  /** An ack or a receipt writes one active page forward; the event that says so may get lost. */
  lemma EventWriteKeeps(c: Config, d: Config, id: string, q: Page, e: PageEvent, logFails: bool)
    requires Inv(c) && id in c.store.pages && Active(c.store.pages[id].state)
    requires d == c.(store := S.MaybeAppend(c.store.(pages := c.store.pages[id := q]), e, !logFails)) && e.pageId == id
    requires q == c.store.pages[id].(state := q.state, ackedAt := q.ackedAt, ackNote := q.ackNote)
      && !q.state.Cancelled?
    ensures Inv(d)
  {
    hide Inv, UpTo, PagesOK, QueueOK, NoneOrphaned, MsgOK, Touches;
    Parts(c);
    PageHere(c, id);
    EventWriteFiled(c.store, id, q, e, logFails);
    WriteTouches(c, d, id);
    if Active(q.state) {
      StillQueued(c, d, id);
    }
    FinishTouch(c, d, id);
  }

  lemma EventWriteFiled(s: S.State, id: string, q: Page, e: PageEvent, logFails: bool)
    requires S.Filed(s) && q.id == id && e.pageId == id
    ensures S.Filed(S.MaybeAppend(s.(pages := s.pages[id := q]), e, !logFails))
  {
  }

  lemma StillQueued(c: Config, d: Config, id: string)
    requires NoneOrphaned(c) && id in c.store.pages && Active(c.store.pages[id].state)
    requires id in d.store.pages && d.store.pages[id].attempt == c.store.pages[id].attempt && d.queue == c.queue
    ensures NextQueued(d, id)
  {
    assert NextQueued(c, id);
  }

  lemma AckKeeps(c: Config, caller: string, id: string, note: string, logFails: bool)
    requires Inv(c)
    ensures Inv(c.(store := Api.AckEffect(c.store, caller, id, note, c.now, logFails).store))
  {
    hide Inv;
    var d := c.(store := Api.AckEffect(c.store, caller, id, note, c.now, logFails).store);
    if id in c.store.pages && c.store.pages[id].recipientId == caller && Active(c.store.pages[id].state) {
      EventWriteKeeps(c, d, id, d.store.pages[id], PageEvent(id, EvAcked, note, c.now), logFails);
    } else {
      assert d == c;
    }
  }

  lemma ReceiptKeeps(c: Config, caller: string, id: string, logFails: bool)
    requires Inv(c)
    ensures Inv(c.(store := Api.ReceiptEffect(c.store, caller, id, c.now, logFails).store))
  {
    hide Inv;
    var d := c.(store := Api.ReceiptEffect(c.store, caller, id, c.now, logFails).store);
    if id in c.store.pages && c.store.pages[id].recipientId == caller
       && (c.store.pages[id].state.Created? || c.store.pages[id].state.Pushed?) {
      EventWriteKeeps(c, d, id, d.store.pages[id], PageEvent(id, EvDelivered, "", c.now), logFails);
    } else {
      assert d == c;
    }
  }

  lemma SamePagesKeep(c: Config, d: Config)
    requires Inv(c) && d.recorded == c.recorded && c.now <= d.now
    requires S.Filed(d.store) && d.store.pages == c.store.pages && d.store.events == c.store.events
    requires forall m :: m in d.queue <==> m in c.queue
    ensures Inv(d)
  {
    hide UpTo;
    forall id | id in d.store.pages ensures PageOK(d, id) { assert PageOK(c, id); }
    forall m | m in d.queue ensures MsgOK(d, m) { assert MsgOK(c, m); }
    forall id | id in d.store.pages && Active(d.store.pages[id].state) ensures NextQueued(d, id) {
      assert NextQueued(c, id);
    }
  }

  lemma StepKeeps(c: Config, s: Step)
    requires Inv(c) && Enabled(c, s)
    ensures Inv(Apply(c, s))
  {
    hide Inv, Handle, DoDeliver, DoCreate, Bookkeep, S.Filed, Api.AckEffect, Api.ReceiptEffect;
    Parts(c);
    match s
    case BookkeepingCall(act) =>
      BookkeepingLeavesPages(c.store, act, c.now);
      SamePagesKeep(c, Apply(c, s));
    case Wait(_) => SamePagesKeep(c, Apply(c, s));
    case Duplicate(_) => SamePagesKeep(c, Apply(c, s));
    case CreateCall(caller, recipient, message, key, id) => CreateKeeps(c, caller, recipient, message, key, id);
    case AckCall(caller, id, note, logFails) => AckKeeps(c, caller, id, note, logFails);
    case ReceiptCall(caller, id, logFails) => ReceiptKeeps(c, caller, id, logFails);
    case Deliver(i, env, end) => DeliverKeeps(c, i, env, end);
  }
}
