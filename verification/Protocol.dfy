/** The nag protocol at its finest granularity: every store call, queue call and clock
    reading is one atomic step, and any number of API handlers and pager invocations
    interleave freely. Messages may be delivered early relative to each other, several
    times at once, and again after they were handled; a handler may crash anywhere.
    (backend/cmd/pager/main.go, backend/internal/api/handlers.go) */
module Protocol {
  import opened Model
  import opened Nag
  import opened Store
  import opened PagerRules

  /** A queued task and the instant before which SQS hides it. */
  datatype Msg = Msg(task: PageTask, ready: Time)

  /** What a pager invocation carries: its message, its snapshot of the page, its one clock
      reading, and the number of the step at which it loaded the page. */
  datatype Job = Job(m: Msg, page: Page, at: Time, load: nat)

  /** A handler in flight, by program counter. */
  datatype Proc =
    | CreateAllowed(sender: string, recipient: string, message: string, key: string)
    | CreateBuilt(page: Page)
    | CreateLost(key: string)
    | CreateStored(page: Page)
    | AckLoaded(page: Page, note: string)
    | AckTimed(page: Page, note: string, at: Time)
    | AckStored(page: Page)
    | AckLost(id: string)
    | ReceiptLoaded(page: Page)
    | ReceiptStored(id: string)
    | PagerLoaded(m: Msg, page: Page, load: nat)
    | PagerExpiring(job: Job)
    | PagerExpired(job: Job)
    | PagerListing(job: Job)
    | PagerNoDevices(job: Job)
    | PagerPushing(job: Job, todo: seq<Device>)
    | PagerPruning(job: Job, todo: seq<Device>)
    | PagerRecording(job: Job, round: nat)
    | PagerRecorded(job: Job, won: bool)
    | PagerEnqueuing(job: Job, won: bool)
    | PagerDone(m: Msg)

  /** What happened so far; no handler reads it. */
  datatype History = History(
    step: nat,
    high: map<string, int>,           // the highest attempt ever recorded on a page, -1 at first
    ackStep: map<string, nat>,        // the step at which a page was acknowledged
    effects: set<Effect>,             // every push sent and every task enqueued by a pager
    ackReplies: set<AckReply>,        // every 200 answer to an ack
    createReplies: set<CreateReply>,  // every 201 and 200 answer to a create
    first: map<string, nat>,          // how often the API enqueued attempt 0 of a page
    accepts: set<(string, string)>,   // (accepter, creator) of every accepted invite
    issued: map<string, nat>,         // how often an invite code was created
    redeemed: map<string, nat>)       // how often it was accepted

  /** A push or an enqueue on behalf of a page by the pager that loaded it at step `load`. */
  datatype Effect = Effect(pageId: string, load: nat)

  datatype AckReply = AckReply(pageId: string, state: PageState, ackedAt: Option<Time>, note: string)

  datatype CreateReply = CreateReply(key: string, pageId: string)

  datatype Config = Config(now: Time, store: State, queue: multiset<Msg>, procs: map<nat, Proc>, hist: History)

  datatype Step =
    | Tick(d: Duration)
    | RegisterUser(user: User)
    | RegisterDevice(device: Device)
    | IssueInvite(invite: Invite)
    | RedeemInvite(code: string, accepter: User, checkedAt: Time)
    | Block(userId: string, peerId: string)
    | CreateBegin(pid: nat, sender: string, recipient: string, message: string, key: string)
    | CreateBuild(pid: nat, id: string)
    | CreateCommit(pid: nat)
    | CreateLookup(pid: nat)
    | CreateEnqueue(pid: nat)
    | AckBegin(pid: nat, caller: string, id: string, note: string)
    | AckClock(pid: nat)
    | AckCommit(pid: nat)
    | AckEvent(pid: nat, stored: bool)
    | AckReread(pid: nat)
    | ReceiptBegin(pid: nat, caller: string, id: string)
    | ReceiptCommit(pid: nat)
    | ReceiptEvent(pid: nat, stored: bool)
    | PagerLoad(pid: nat, m: Msg)
    | PagerClock(pid: nat)
    | PagerExpire(pid: nat)
    | PagerExpireEvent(pid: nat, stored: bool)
    | PagerList(pid: nat, devices: seq<Device>)
    | PagerNoDevicesEvent(pid: nat, stored: bool)
    | PagerSend(pid: nat, result: SendResult)
    | PagerPrune(pid: nat, deleted: bool)
    | PagerRecord(pid: nat)
    | PagerPushEvent(pid: nat, stored: bool)
    | PagerEnqueue(pid: nat)
    | PagerFinish(pid: nat, deleted: bool)
    | Crash(pid: nat)

  const INIT_HISTORY: History := History(0, map[], map[], {}, {}, {}, map[], {}, map[], map[])

  /** The steps that concern people and devices but no handler in flight. */
  predicate PeopleStep(s: Step) {
    s.Tick? || s.RegisterUser? || s.RegisterDevice? || s.IssueInvite? || s.RedeemInvite? || s.Block?
  }

  ghost predicate Init(c: Config) {
    c.store == EMPTY && c.queue == multiset{} && c.procs == map[] && c.hist == INIT_HISTORY
  }

  // ------------------------------------------------------------ what the steps do

  function Goto(c: Config, pid: nat, p: Proc): Config {
    c.(procs := c.procs[pid := p])
  }

  function Leave(c: Config, pid: nat): Config {
    c.(procs := c.procs - {pid})
  }

  function Count(m: map<string, nat>, k: string): nat {
    if k in m then m[k] else 0
  }

  function Max(a: int, b: int): int {
    if a < b then b else a
  }

  // Consent and device bookkeeping, which no handler in flight looks at.

  function DoIssueInvite(c: Config, inv: Invite): Config {
    c.(store := CreateInvite(c.store, inv),
       hist := c.hist.(issued := c.hist.issued[inv.code := Count(c.hist.issued, inv.code) + 1]))
  }

  function DoRedeemInvite(c: Config, code: string, accepter: User, checkedAt: Time): Config {
    var (store, r) := AcceptInvite(c.store, code, accepter, checkedAt, c.now);
    if r.Err? then
      c
    else
      c.(store := store,
         hist := c.hist.(redeemed := c.hist.redeemed[code := Count(c.hist.redeemed, code) + 1],
                         accepts := c.hist.accepts + {(accepter.id, r.value.peerId)}))
  }

  // handleCreatePage

  function DoCreateBegin(c: Config, pid: nat, sender: string, recipient: string, message: string, key: string): Config {
    Goto(c, pid, CreateAllowed(sender, recipient, message, key))
  }

  function DoCreateBuild(c: Config, pid: nat, id: string): Config
    requires pid in c.procs && c.procs[pid].CreateAllowed?
  {
    var p := c.procs[pid];
    Goto(c, pid, CreateBuilt(NewPage(id, p.sender, p.recipient, p.message, p.key, c.now, c.now + EXPIRY)))
  }

  function DoCreateCommit(c: Config, pid: nat): Config
    requires pid in c.procs && c.procs[pid].CreateBuilt?
  {
    var page := c.procs[pid].page;
    var (store, r) := CreatePage(c.store, page);
    if r.Fail? then
      Goto(c, pid, CreateLost(page.idempotencyKey))
    else
      Goto(c, pid, CreateStored(page))
        .(store := store,
          hist := c.hist.(high := c.hist.high[page.id := -1], first := c.hist.first[page.id := 0]))
  }

  function DoCreateLookup(c: Config, pid: nat): Config
    requires pid in c.procs && c.procs[pid].CreateLost?
  {
    var key := c.procs[pid].key;
    var r := GetPageByIdempotencyKey(c.store, key);
    if r.Err? then
      Leave(c, pid)
    else
      Leave(c, pid).(hist := c.hist.(createReplies := c.hist.createReplies + {CreateReply(key, r.value.id)}))
  }

  function DoCreateEnqueue(c: Config, pid: nat): Config
    requires pid in c.procs && c.procs[pid].CreateStored?
  {
    var page := c.procs[pid].page;
    Leave(c, pid)
      .(queue := c.queue + multiset{Msg(PageTask(page.id, 0), c.now)},
        hist := c.hist.(createReplies := c.hist.createReplies + {CreateReply(page.idempotencyKey, page.id)},
                        first := c.hist.first[page.id := Count(c.hist.first, page.id) + 1]))
  }

  // handleAckPage

  /** GetPage succeeds and the caller is the recipient; otherwise the handler answers 404. */
  ghost predicate OwnPage(c: Config, caller: string, id: string) {
    id in c.store.pages && c.store.pages[id].recipientId == caller
  }

  function DoAckCommit(c: Config, pid: nat): Config
    requires pid in c.procs && c.procs[pid].AckTimed?
  {
    var p := c.procs[pid];
    var (store, r) := AckPage(c.store, p.page.id, p.note, p.at);
    if r == Fail(Conflict) then
      Goto(c, pid, AckLost(p.page.id))
    else if r.Fail? then
      Leave(c, pid)
    else
      Goto(c, pid, AckStored(p.page.(state := Acked, ackedAt := Some(p.at), ackNote := p.note)))
        .(store := store, hist := c.hist.(ackStep := c.hist.ackStep[p.page.id := c.hist.step]))
  }

  function Answer(h: History, page: Page): History {
    h.(ackReplies := h.ackReplies + {AckReply(page.id, page.state, page.ackedAt, page.ackNote)})
  }

  function DoAckEvent(c: Config, pid: nat, stored: bool): Config
    requires pid in c.procs && c.procs[pid].AckStored?
  {
    var page := c.procs[pid].page;
    var at := if page.ackedAt.Some? then page.ackedAt.value else 0;
    Leave(c, pid)
      .(store := MaybeAppend(c.store, PageEvent(page.id, EvAcked, page.ackNote, at), stored),
        hist := Answer(c.hist, page))
  }

  function DoAckReread(c: Config, pid: nat): Config
    requires pid in c.procs && c.procs[pid].AckLost?
  {
    var r := GetPage(c.store, c.procs[pid].id);
    if r.Ok? && r.value.state.Acked? then Leave(c, pid).(hist := Answer(c.hist, r.value)) else Leave(c, pid)
  }

  // handleDeliveredReceipt: the attempt it writes back is the one of its snapshot.

  function DoReceiptCommit(c: Config, pid: nat): Config
    requires pid in c.procs && c.procs[pid].ReceiptLoaded?
  {
    var page := c.procs[pid].page;
    var (store, r) := SetPageState(c.store, page.id, [Created, Pushed], Delivered, page.attempt);
    if r.Fail? then Leave(c, pid) else Goto(c, pid, ReceiptStored(page.id)).(store := store)
  }

  function DoReceiptEvent(c: Config, pid: nat, stored: bool): Config
    requires pid in c.procs && c.procs[pid].ReceiptStored?
  {
    Leave(c, pid).(store := MaybeAppend(c.store, PageEvent(c.procs[pid].id, EvDelivered, "", c.now), stored))
  }

  // handleRecord

  function Log(h: History, job: Job): History {
    h.(effects := h.effects + {Effect(job.page.id, job.load)})
  }

  function AfterSend(job: Job, todo: seq<Device>): Proc {
    if todo == [] then PagerRecording(job, 0) else PagerPushing(job, todo)
  }

  function AfterLoad(m: Msg, r: Result<Page>, step: nat): Proc {
    if r.Err? || !Active(r.value.state) then PagerDone(m) else PagerLoaded(m, r.value, step)
  }

  function DoPagerLoad(c: Config, pid: nat, m: Msg): Config {
    Goto(c, pid, AfterLoad(m, GetPage(c.store, m.task.pageId), c.hist.step))
  }

  /** The branch of handleRecord on its clock reading and on the attempt of its snapshot. */
  function AfterClock(p: Proc, now: Time): Proc
    requires p.PagerLoaded?
  {
    if now > p.page.expiresAt then PagerExpiring(Job(p.m, p.page, now, p.load))
    else if p.page.attempt >= p.m.task.attempt then PagerDone(p.m)
    else PagerListing(Job(p.m, p.page, now, p.load))
  }

  function DoPagerClock(c: Config, pid: nat): Config
    requires pid in c.procs && c.procs[pid].PagerLoaded?
  {
    Goto(c, pid, AfterClock(c.procs[pid], c.now))
  }

  function DoPagerExpire(c: Config, pid: nat): Config
    requires pid in c.procs && c.procs[pid].PagerExpiring?
  {
    var job := c.procs[pid].job;
    var (store, r) := SetPageState(c.store, job.page.id, ACTIVE_STATES, Expired, job.page.attempt);
    if r == Fail(NotFound) then Leave(c, pid) else Goto(c, pid, PagerExpired(job)).(store := store)
  }

  function DoPagerExpireEvent(c: Config, pid: nat, stored: bool): Config
    requires pid in c.procs && c.procs[pid].PagerExpired?
  {
    var job := c.procs[pid].job;
    Goto(c, pid, PagerDone(job.m))
      .(store := MaybeAppend(c.store, PageEvent(job.page.id, EvExpired, "", job.at), stored))
  }

  function DoPagerList(c: Config, pid: nat, devices: seq<Device>): Config
    requires pid in c.procs && c.procs[pid].PagerListing?
  {
    var job := c.procs[pid].job;
    Goto(c, pid, if devices == [] then PagerNoDevices(job) else PagerPushing(job, devices))
  }

  function DoPagerNoDevicesEvent(c: Config, pid: nat, stored: bool): Config
    requires pid in c.procs && c.procs[pid].PagerNoDevices?
  {
    var job := c.procs[pid].job;
    Goto(c, pid, PagerRecording(job, 0))
      .(store := MaybeAppend(c.store, PageEvent(job.page.id, EvNoDevices, "", job.at), stored))
  }

  function DoPagerSend(c: Config, pid: nat, result: SendResult): Config
    requires pid in c.procs && c.procs[pid].PagerPushing? && c.procs[pid].todo != []
  {
    var p := c.procs[pid];
    Goto(c, pid, if result.SendGone? then PagerPruning(p.job, p.todo) else AfterSend(p.job, p.todo[1..]))
      .(hist := Log(c.hist, p.job))
  }

  function DoPagerPrune(c: Config, pid: nat, deleted: bool): Config
    requires pid in c.procs && c.procs[pid].PagerPruning? && c.procs[pid].todo != []
  {
    var p := c.procs[pid];
    Goto(c, pid, AfterSend(p.job, p.todo[1..]))
      .(store := if deleted then DeleteDevice(c.store, p.todo[0].userId, p.todo[0].token) else c.store)
  }

  function DoPagerRecord(c: Config, pid: nat): Config
    requires pid in c.procs && c.procs[pid].PagerRecording? && c.procs[pid].round < |ROUNDS|
  {
    var p := c.procs[pid];
    var id, attempt := p.job.page.id, p.job.m.task.attempt;
    var (store, r) := SetPageState(c.store, id, ROUNDS[p.round].0, ROUNDS[p.round].1, attempt);
    if r == Fail(NotFound) then
      Leave(c, pid)
    else if r.Pass? then
      Goto(c, pid, PagerRecorded(p.job, true))
        .(store := store,
          hist := c.hist.(high := c.hist.high[id :=
            if id in c.hist.high then Max(c.hist.high[id], attempt) else attempt]))
    else if p.round + 1 < |ROUNDS| then
      Goto(c, pid, PagerRecording(p.job, p.round + 1))
    else
      Goto(c, pid, PagerRecorded(p.job, false))
  }

  function DoPagerPushEvent(c: Config, pid: nat, stored: bool): Config
    requires pid in c.procs && c.procs[pid].PagerRecorded?
  {
    var p := c.procs[pid];
    Goto(c, pid, PagerEnqueuing(p.job, p.won))
      .(store := MaybeAppend(c.store, PageEvent(p.job.page.id, EvPushAttempt, "", p.job.at), stored))
  }

  function NextMsg(now: Time, job: Job, delay: Duration): Msg {
    Msg(PageTask(job.page.id, job.m.task.attempt + 1), now + if delay >= 0 then WholeSeconds(delay) else 0)
  }

  function DoPagerEnqueue(c: Config, pid: nat): Config
    requires pid in c.procs && c.procs[pid].PagerEnqueuing?
  {
    var job := c.procs[pid].job;
    var delay := FollowUp(job.m.task.attempt, job.at, job.page.expiresAt);
    var done := Goto(c, pid, PagerDone(job.m));
    if delay.None? then done
    else done.(queue := c.queue + multiset{NextMsg(c.now, job, delay.value)}, hist := Log(c.hist, job))
  }

  function DoPagerFinish(c: Config, pid: nat, deleted: bool): Config
    requires pid in c.procs && c.procs[pid].PagerDone?
  {
    Leave(c, pid).(queue := if deleted then c.queue - multiset{c.procs[pid].m} else c.queue)
  }

  function Count1(c: Config): Config {
    c.(hist := c.hist.(step := c.hist.step + 1))
  }

  // ------------------------------------------------------------ which steps can happen

  ghost predicate Enabled(c: Config, s: Step) {
    match s
    case Tick(d) => d >= 0
    case RegisterUser(_) => true
    case RegisterDevice(_) => true
    case IssueInvite(_) => true
    case RedeemInvite(_, _, checkedAt) => checkedAt <= c.now
    case Block(_, _) => true
    case CreateBegin(pid, sender, recipient, _, _) =>
      && pid !in c.procs
      && GetPairing(c.store, sender, recipient).Ok?
      && GetPairing(c.store, sender, recipient).value.status.PairingActive?
    case CreateBuild(pid, _) => pid in c.procs && c.procs[pid].CreateAllowed?
    case CreateCommit(pid) => pid in c.procs && c.procs[pid].CreateBuilt?
    case CreateLookup(pid) => pid in c.procs && c.procs[pid].CreateLost?
    case CreateEnqueue(pid) => pid in c.procs && c.procs[pid].CreateStored?
    case AckBegin(pid, caller, id, _) => pid !in c.procs && OwnPage(c, caller, id)
    case AckClock(pid) => pid in c.procs && c.procs[pid].AckLoaded?
    case AckCommit(pid) => pid in c.procs && c.procs[pid].AckTimed?
    case AckEvent(pid, _) => pid in c.procs && c.procs[pid].AckStored?
    case AckReread(pid) => pid in c.procs && c.procs[pid].AckLost?
    case ReceiptBegin(pid, caller, id) => pid !in c.procs && OwnPage(c, caller, id)
    case ReceiptCommit(pid) => pid in c.procs && c.procs[pid].ReceiptLoaded?
    case ReceiptEvent(pid, _) => pid in c.procs && c.procs[pid].ReceiptStored?
    case PagerLoad(pid, m) => pid !in c.procs && m in c.queue && m.ready <= c.now
    case PagerClock(pid) => pid in c.procs && c.procs[pid].PagerLoaded?
    case PagerExpire(pid) => pid in c.procs && c.procs[pid].PagerExpiring?
    case PagerExpireEvent(pid, _) => pid in c.procs && c.procs[pid].PagerExpired?
    case PagerList(pid, devices) =>
      && pid in c.procs && c.procs[pid].PagerListing?
      && ListsDevices(c.store, c.procs[pid].job.page.recipientId, devices)
    case PagerNoDevicesEvent(pid, _) => pid in c.procs && c.procs[pid].PagerNoDevices?
    case PagerSend(pid, _) => pid in c.procs && c.procs[pid].PagerPushing? && c.procs[pid].todo != []
    case PagerPrune(pid, _) => pid in c.procs && c.procs[pid].PagerPruning? && c.procs[pid].todo != []
    case PagerRecord(pid) => pid in c.procs && c.procs[pid].PagerRecording? && c.procs[pid].round < |ROUNDS|
    case PagerPushEvent(pid, _) => pid in c.procs && c.procs[pid].PagerRecorded?
    case PagerEnqueue(pid) => pid in c.procs && c.procs[pid].PagerEnqueuing?
    case PagerFinish(pid, _) => pid in c.procs && c.procs[pid].PagerDone?
    case Crash(pid) => pid in c.procs
  }

  function Effects(c: Config, s: Step): Config
    requires Enabled(c, s)
  {
    match s
    case Tick(d) => c.(now := c.now + d)
    case RegisterUser(u) => c.(store := PutUser(c.store, u))
    case RegisterDevice(d) => c.(store := PutDevice(c.store, d))
    case IssueInvite(inv) => DoIssueInvite(c, inv)
    case RedeemInvite(code, accepter, checkedAt) => DoRedeemInvite(c, code, accepter, checkedAt)
    case Block(userId, peerId) => c.(store := BlockPairing(c.store, userId, peerId).0)
    case CreateBegin(pid, sender, recipient, message, key) => DoCreateBegin(c, pid, sender, recipient, message, key)
    case CreateBuild(pid, id) => DoCreateBuild(c, pid, id)
    case CreateCommit(pid) => DoCreateCommit(c, pid)
    case CreateLookup(pid) => DoCreateLookup(c, pid)
    case CreateEnqueue(pid) => DoCreateEnqueue(c, pid)
    case AckBegin(pid, _, id, note) => Goto(c, pid, AckLoaded(c.store.pages[id], note))
    case AckClock(pid) => Goto(c, pid, AckTimed(c.procs[pid].page, c.procs[pid].note, c.now))
    case AckCommit(pid) => DoAckCommit(c, pid)
    case AckEvent(pid, stored) => DoAckEvent(c, pid, stored)
    case AckReread(pid) => DoAckReread(c, pid)
    case ReceiptBegin(pid, _, id) => Goto(c, pid, ReceiptLoaded(c.store.pages[id]))
    case ReceiptCommit(pid) => DoReceiptCommit(c, pid)
    case ReceiptEvent(pid, stored) => DoReceiptEvent(c, pid, stored)
    case PagerLoad(pid, m) => DoPagerLoad(c, pid, m)
    case PagerClock(pid) => DoPagerClock(c, pid)
    case PagerExpire(pid) => DoPagerExpire(c, pid)
    case PagerExpireEvent(pid, stored) => DoPagerExpireEvent(c, pid, stored)
    case PagerList(pid, devices) => DoPagerList(c, pid, devices)
    case PagerNoDevicesEvent(pid, stored) => DoPagerNoDevicesEvent(c, pid, stored)
    case PagerSend(pid, result) => DoPagerSend(c, pid, result)
    case PagerPrune(pid, deleted) => DoPagerPrune(c, pid, deleted)
    case PagerRecord(pid) => DoPagerRecord(c, pid)
    case PagerPushEvent(pid, stored) => DoPagerPushEvent(c, pid, stored)
    case PagerEnqueue(pid) => DoPagerEnqueue(c, pid)
    case PagerFinish(pid, deleted) => DoPagerFinish(c, pid, deleted)
    case Crash(pid) => Leave(c, pid)
  }

  function Apply(c: Config, s: Step): Config
    requires Enabled(c, s)
  {
    Count1(Effects(c, s))
  }

  /** A run from the empty system: configurations cs joined by steps. */
  ghost predicate Run(cs: seq<Config>, steps: seq<Step>) {
    && |cs| == |steps| + 1
    && Init(cs[0])
    && forall i :: 0 <= i < |steps| ==> Enabled(cs[i], steps[i]) && cs[i + 1] == Apply(cs[i], steps[i])
  }
}
