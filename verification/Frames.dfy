/** What each step of the protocol leaves alone, said once. */
module Frames {
  import opened Model
  import opened Store
  import opened PagerRules
  import opened Protocol

  /** The handler that takes the step. */
  function Taker(s: Step): Option<nat> {
    match s
    case CreateBegin(pid, _, _, _, _) => Some(pid)
    case CreateBuild(pid, _) => Some(pid)
    case CreateCommit(pid) => Some(pid)
    case CreateLookup(pid) => Some(pid)
    case CreateEnqueue(pid) => Some(pid)
    case AckBegin(pid, _, _, _) => Some(pid)
    case AckClock(pid) => Some(pid)
    case AckCommit(pid) => Some(pid)
    case AckEvent(pid, _) => Some(pid)
    case AckReread(pid) => Some(pid)
    case ReceiptBegin(pid, _, _) => Some(pid)
    case ReceiptCommit(pid) => Some(pid)
    case ReceiptEvent(pid, _) => Some(pid)
    case PagerLoad(pid, _) => Some(pid)
    case PagerClock(pid) => Some(pid)
    case PagerExpire(pid) => Some(pid)
    case PagerExpireEvent(pid, _) => Some(pid)
    case PagerList(pid, _) => Some(pid)
    case PagerNoDevicesEvent(pid, _) => Some(pid)
    case PagerSend(pid, _) => Some(pid)
    case PagerPrune(pid, _) => Some(pid)
    case PagerRecord(pid) => Some(pid)
    case PagerPushEvent(pid, _) => Some(pid)
    case PagerEnqueue(pid) => Some(pid)
    case PagerFinish(pid, _) => Some(pid)
    case Crash(pid) => Some(pid)
    case _ => None
  }

  predicate PagerStep(s: Step) {
    || s.PagerLoad? || s.PagerClock? || s.PagerExpire? || s.PagerExpireEvent? || s.PagerList? || s.PagerNoDevicesEvent?
    || s.PagerSend? || s.PagerPrune? || s.PagerRecord? || s.PagerPushEvent? || s.PagerEnqueue? || s.PagerFinish?
  }

  /** The steps that may write a page. */
  predicate Writer(s: Step) {
    s.CreateCommit? || s.AckCommit? || s.ReceiptCommit? || s.PagerExpire? || s.PagerRecord?
  }

  /** The steps that may append to a timeline. */
  predicate Logger(s: Step) {
    || s.CreateCommit? || s.AckEvent? || s.ReceiptEvent?
    || s.PagerExpireEvent? || s.PagerNoDevicesEvent? || s.PagerPushEvent?
  }

  /** The message a pager carries. */
  function Carries(p: Proc): Option<Msg> {
    match p
    case PagerLoaded(m, _, _) => Some(m)
    case PagerExpiring(job) => Some(job.m)
    case PagerExpired(job) => Some(job.m)
    case PagerListing(job) => Some(job.m)
    case PagerNoDevices(job) => Some(job.m)
    case PagerPushing(job, _) => Some(job.m)
    case PagerPruning(job, _) => Some(job.m)
    case PagerRecording(job, _) => Some(job.m)
    case PagerRecorded(job, _) => Some(job.m)
    case PagerEnqueuing(job, _) => Some(job.m)
    case PagerDone(m) => Some(m)
    case _ => None
  }

  /** A handler that has written what obliges it to enqueue a task, and has not enqueued it yet. */
  predicate Committed(p: Proc) {
    p.CreateStored? || p.PagerRecorded? || p.PagerEnqueuing?
  }

  /** The task a committed handler is about to enqueue. */
  function Owed(p: Proc): PageTask
    requires Committed(p)
  {
    if p.CreateStored? then PageTask(p.page.id, 0) else PageTask(p.job.page.id, p.job.m.task.attempt + 1)
  }

  /** How a handler gets to q: which steps lead there, and that it keeps its message. */
  ghost predicate Arrives(c: Config, s: Step, pid: nat, q: Proc) {
    && (q.CreateAllowed? ==> s.CreateBegin?)
    && (q.CreateBuilt? ==> s.CreateBuild?)
    && (q.CreateStored? ==> s.CreateCommit?)
    && (q.AckLoaded? ==> s.AckBegin?)
    && (q.AckTimed? ==> s.AckClock?)
    && (q.PagerExpired? ==> s.PagerExpire?)
    && (q.PagerRecorded? ==> s.PagerRecord?)
    && (q.PagerEnqueuing? ==> s.PagerPushEvent?)
    && (Carries(q).Some? ==>
          s == PagerLoad(pid, Carries(q).value) || (pid in c.procs && Carries(c.procs[pid]) == Carries(q)))
  }

  ghost predicate Frame(c: Config, s: Step, d: Config) {
    && d.hist.step == c.hist.step + 1
    && (!s.Tick? ==> d.now == c.now)
    && (!Writer(s) ==> d.store.pages == c.store.pages && d.store.idem == c.store.idem)
    && (!Logger(s) ==> d.store.events == c.store.events)
    && c.store.pages.Keys <= d.store.pages.Keys
    && (!s.CreateCommit? ==> d.store.pages.Keys == c.store.pages.Keys)
    && (!s.CreateCommit? && !s.PagerRecord? ==> d.hist.high == c.hist.high)
    && (!s.CreateCommit? && !s.CreateEnqueue? ==> d.hist.first == c.hist.first)
    && (!s.CreateEnqueue? && !s.PagerEnqueue? && !s.PagerFinish? ==> d.queue == c.queue)
    && (!s.PagerSend? && !s.PagerEnqueue? ==> d.hist.effects == c.hist.effects)
    && (!s.IssueInvite? && !s.RedeemInvite? ==>
          && d.store.invites == c.store.invites && d.store.pairings.Keys == c.store.pairings.Keys
          && d.hist.accepts == c.hist.accepts && d.hist.issued == c.hist.issued && d.hist.redeemed == c.hist.redeemed)
    && OneMoves(c, s, d)
  }

  /** At most one handler moves or leaves. */
  ghost predicate OneMoves(c: Config, s: Step, d: Config) {
    match Taker(s)
    case None => d.procs == c.procs
    case Some(pid) =>
      if pid in d.procs then d.procs == c.procs[pid := d.procs[pid]] && Arrives(c, s, pid, d.procs[pid])
      else d.procs == c.procs - {pid}
  }

  lemma PeopleFrame(c: Config, s: Step)
    requires Enabled(c, s) && PeopleStep(s)
    ensures Frame(c, s, Apply(c, s))
  {
  }

  /** An event touches the timelines only. */
  lemma AppendFrame()
    ensures forall s, e, stored :: var t := MaybeAppend(s, e, stored); t == s.(events := t.events)
  {
  }

  /** Each conditional write touches the pages only, and no page comes or goes. */
  lemma SetFrame(s: State, id: string, from: seq<PageState>, to: PageState, attempt: int)
    ensures var t := SetPageState(s, id, from, to, attempt).0;
      t.pages.Keys == s.pages.Keys && t == s.(pages := t.pages)
  {
  }

  lemma AckFrame(s: State, id: string, note: string, at: Time)
    ensures var t := AckPage(s, id, note, at).0;
      t.pages.Keys == s.pages.Keys && t == s.(pages := t.pages)
  {
  }

  /** A handler takes up or moves to p, or leaves. */
  lemma GotoFrame(c: Config, s: Step, pid: nat, p: Proc)
    requires Taker(s) == Some(pid) && Arrives(c, s, pid, p)
    requires !Writer(s) && !s.IssueInvite? && !s.RedeemInvite?
    ensures Frame(c, s, Count1(Goto(c, pid, p)))
  {
  }

  lemma LeaveFrame(c: Config, s: Step, pid: nat)
    requires Taker(s) == Some(pid)
    requires !Writer(s) && !s.IssueInvite? && !s.RedeemInvite?
    ensures Frame(c, s, Count1(Leave(c, pid)))
  {
  }

  lemma CreateBeginFrame(c: Config, pid: nat, sender: string, recipient: string, message: string, key: string)
    ensures Frame(c, CreateBegin(pid, sender, recipient, message, key),
      Count1(DoCreateBegin(c, pid, sender, recipient, message, key)))
  {
  }

  lemma CreateBuildFrame(c: Config, pid: nat, id: string)
    requires pid in c.procs && c.procs[pid].CreateAllowed?
    ensures Frame(c, CreateBuild(pid, id), Count1(DoCreateBuild(c, pid, id)))
  {
  }

  lemma CreateCommitFrame(c: Config, pid: nat)
    requires pid in c.procs && c.procs[pid].CreateBuilt?
    ensures Frame(c, CreateCommit(pid), Count1(DoCreateCommit(c, pid)))
  {
  }

  lemma CreateLookupFrame(c: Config, pid: nat)
    requires pid in c.procs && c.procs[pid].CreateLost?
    ensures Frame(c, CreateLookup(pid), Count1(DoCreateLookup(c, pid)))
  {
    hide GetPageByIdempotencyKey;
  }

  lemma CreateEnqueueFrame(c: Config, pid: nat)
    requires pid in c.procs && c.procs[pid].CreateStored?
    ensures Frame(c, CreateEnqueue(pid), Count1(DoCreateEnqueue(c, pid)))
  {
  }

  lemma AckCommitFrame(c: Config, pid: nat)
    requires pid in c.procs && c.procs[pid].AckTimed?
    ensures Frame(c, AckCommit(pid), Count1(DoAckCommit(c, pid)))
  {
    hide AckPage;
    var p := c.procs[pid];
    AckFrame(c.store, p.page.id, p.note, p.at);
  }

  lemma AckEventFrame(c: Config, pid: nat, stored: bool)
    requires pid in c.procs && c.procs[pid].AckStored?
    ensures Frame(c, AckEvent(pid, stored), Count1(DoAckEvent(c, pid, stored)))
  {
    hide MaybeAppend;
    AppendFrame();
  }

  lemma AckRereadFrame(c: Config, pid: nat)
    requires pid in c.procs && c.procs[pid].AckLost?
    ensures Frame(c, AckReread(pid), Count1(DoAckReread(c, pid)))
  {
    hide GetPage;
  }

  lemma ReceiptCommitFrame(c: Config, pid: nat)
    requires pid in c.procs && c.procs[pid].ReceiptLoaded?
    ensures Frame(c, ReceiptCommit(pid), Count1(DoReceiptCommit(c, pid)))
  {
    hide SetPageState;
    var page := c.procs[pid].page;
    SetFrame(c.store, page.id, [Created, Pushed], Delivered, page.attempt);
  }

  lemma ReceiptEventFrame(c: Config, pid: nat, stored: bool)
    requires pid in c.procs && c.procs[pid].ReceiptStored?
    ensures Frame(c, ReceiptEvent(pid, stored), Count1(DoReceiptEvent(c, pid, stored)))
  {
    hide MaybeAppend;
    AppendFrame();
  }

  lemma PagerLoadFrame(c: Config, pid: nat, m: Msg)
    ensures Frame(c, PagerLoad(pid, m), Count1(DoPagerLoad(c, pid, m)))
  {
    hide GetPage;
  }

  lemma PagerClockFrame(c: Config, pid: nat)
    requires pid in c.procs && c.procs[pid].PagerLoaded?
    ensures Frame(c, PagerClock(pid), Count1(DoPagerClock(c, pid)))
  {
  }

  lemma PagerExpireFrame(c: Config, pid: nat)
    requires pid in c.procs && c.procs[pid].PagerExpiring?
    ensures Frame(c, PagerExpire(pid), Count1(DoPagerExpire(c, pid)))
  {
    hide SetPageState;
    var page := c.procs[pid].job.page;
    SetFrame(c.store, page.id, ACTIVE_STATES, Expired, page.attempt);
  }

  lemma PagerExpireEventFrame(c: Config, pid: nat, stored: bool)
    requires pid in c.procs && c.procs[pid].PagerExpired?
    ensures Frame(c, PagerExpireEvent(pid, stored), Count1(DoPagerExpireEvent(c, pid, stored)))
  {
    hide MaybeAppend;
    AppendFrame();
  }

  lemma PagerListFrame(c: Config, pid: nat, devices: seq<Device>)
    requires pid in c.procs && c.procs[pid].PagerListing?
    ensures Frame(c, PagerList(pid, devices), Count1(DoPagerList(c, pid, devices)))
  {
  }

  lemma PagerNoDevicesEventFrame(c: Config, pid: nat, stored: bool)
    requires pid in c.procs && c.procs[pid].PagerNoDevices?
    ensures Frame(c, PagerNoDevicesEvent(pid, stored), Count1(DoPagerNoDevicesEvent(c, pid, stored)))
  {
    hide MaybeAppend;
    AppendFrame();
  }

  lemma PagerSendFrame(c: Config, pid: nat, result: SendResult)
    requires pid in c.procs && c.procs[pid].PagerPushing? && c.procs[pid].todo != []
    ensures Frame(c, PagerSend(pid, result), Count1(DoPagerSend(c, pid, result)))
  {
  }

  lemma PagerPruneFrame(c: Config, pid: nat, deleted: bool)
    requires pid in c.procs && c.procs[pid].PagerPruning? && c.procs[pid].todo != []
    ensures Frame(c, PagerPrune(pid, deleted), Count1(DoPagerPrune(c, pid, deleted)))
  {
  }

  lemma PagerRecordFrame(c: Config, pid: nat)
    requires pid in c.procs && c.procs[pid].PagerRecording? && c.procs[pid].round < |ROUNDS|
    ensures Frame(c, PagerRecord(pid), Count1(DoPagerRecord(c, pid)))
  {
    hide SetPageState;
    var p := c.procs[pid];
    SetFrame(c.store, p.job.page.id, ROUNDS[p.round].0, ROUNDS[p.round].1, p.job.m.task.attempt);
  }

  lemma PagerPushEventFrame(c: Config, pid: nat, stored: bool)
    requires pid in c.procs && c.procs[pid].PagerRecorded?
    ensures Frame(c, PagerPushEvent(pid, stored), Count1(DoPagerPushEvent(c, pid, stored)))
  {
    hide MaybeAppend;
    AppendFrame();
  }

  lemma PagerEnqueueFrame(c: Config, pid: nat)
    requires pid in c.procs && c.procs[pid].PagerEnqueuing?
    ensures Frame(c, PagerEnqueue(pid), Count1(DoPagerEnqueue(c, pid)))
  {
    hide FollowUp, NextMsg;
  }

  lemma PagerFinishFrame(c: Config, pid: nat, deleted: bool)
    requires pid in c.procs && c.procs[pid].PagerDone?
    ensures Frame(c, PagerFinish(pid, deleted), Count1(DoPagerFinish(c, pid, deleted)))
  {
  }

  lemma ApiFrame(c: Config, s: Step)
    requires Enabled(c, s) && !PeopleStep(s) && !PagerStep(s) && !s.Crash?
    ensures Frame(c, s, Apply(c, s))
  {
    hide Frame, Count1, Goto, Leave, DoIssueInvite, DoRedeemInvite, DoCreateBegin, DoCreateBuild, DoCreateCommit,
      DoCreateLookup, DoCreateEnqueue, DoAckCommit, DoAckEvent, DoAckReread, DoReceiptCommit, DoReceiptEvent,
      DoPagerLoad, DoPagerClock, DoPagerExpire, DoPagerExpireEvent, DoPagerList, DoPagerNoDevicesEvent, DoPagerSend,
      DoPagerPrune, DoPagerRecord, DoPagerPushEvent, DoPagerEnqueue, DoPagerFinish, ListsDevices;
    match s
    case CreateBegin(pid, sender, recipient, message, key) => CreateBeginFrame(c, pid, sender, recipient, message, key);
    case CreateBuild(pid, id) => CreateBuildFrame(c, pid, id);
    case CreateCommit(pid) => CreateCommitFrame(c, pid);
    case CreateLookup(pid) => CreateLookupFrame(c, pid);
    case CreateEnqueue(pid) => CreateEnqueueFrame(c, pid);
    case AckBegin(pid, _, id, note) => GotoFrame(c, s, pid, AckLoaded(c.store.pages[id], note));
    case AckClock(pid) => GotoFrame(c, s, pid, AckTimed(c.procs[pid].page, c.procs[pid].note, c.now));
    case AckCommit(pid) => AckCommitFrame(c, pid);
    case AckEvent(pid, stored) => AckEventFrame(c, pid, stored);
    case AckReread(pid) => AckRereadFrame(c, pid);
    case ReceiptBegin(pid, _, id) => GotoFrame(c, s, pid, ReceiptLoaded(c.store.pages[id]));
    case ReceiptCommit(pid) => ReceiptCommitFrame(c, pid);
    case ReceiptEvent(pid, stored) => ReceiptEventFrame(c, pid, stored);
  }

  lemma PagerFrame(c: Config, s: Step)
    requires Enabled(c, s) && PagerStep(s)
    ensures Frame(c, s, Apply(c, s))
  {
    hide Frame, Count1, Goto, Leave, DoIssueInvite, DoRedeemInvite, DoCreateBegin, DoCreateBuild, DoCreateCommit,
      DoCreateLookup, DoCreateEnqueue, DoAckCommit, DoAckEvent, DoAckReread, DoReceiptCommit, DoReceiptEvent,
      DoPagerLoad, DoPagerClock, DoPagerExpire, DoPagerExpireEvent, DoPagerList, DoPagerNoDevicesEvent, DoPagerSend,
      DoPagerPrune, DoPagerRecord, DoPagerPushEvent, DoPagerEnqueue, DoPagerFinish, ListsDevices;
    match s
    case PagerLoad(pid, m) => PagerLoadFrame(c, pid, m);
    case PagerClock(pid) => PagerClockFrame(c, pid);
    case PagerExpire(pid) => PagerExpireFrame(c, pid);
    case PagerExpireEvent(pid, stored) => PagerExpireEventFrame(c, pid, stored);
    case PagerList(pid, devices) => PagerListFrame(c, pid, devices);
    case PagerNoDevicesEvent(pid, stored) => PagerNoDevicesEventFrame(c, pid, stored);
    case PagerSend(pid, result) => PagerSendFrame(c, pid, result);
    case PagerPrune(pid, deleted) => PagerPruneFrame(c, pid, deleted);
    case PagerRecord(pid) => PagerRecordFrame(c, pid);
    case PagerPushEvent(pid, stored) => PagerPushEventFrame(c, pid, stored);
    case PagerEnqueue(pid) => PagerEnqueueFrame(c, pid);
    case PagerFinish(pid, deleted) => PagerFinishFrame(c, pid, deleted);
  }

  /** Every step stays within its frame. */
  lemma StepFrame(c: Config, s: Step)
    requires Enabled(c, s)
    ensures Frame(c, s, Apply(c, s))
  {
    hide Frame, Enabled, Apply;
    if PeopleStep(s) {
      PeopleFrame(c, s);
    } else if PagerStep(s) {
      PagerFrame(c, s);
    } else if s.Crash? {
      CrashFrame(c, s.pid);
    } else {
      ApiFrame(c, s);
    }
  }

  lemma CrashFrame(c: Config, pid: nat)
    requires Enabled(c, Crash(pid))
    ensures Frame(c, Crash(pid), Apply(c, Crash(pid)))
  {
    hide Frame, Leave, Count1;
    LeaveFrame(c, Crash(pid), pid);
  }

  /** The writers, by their effects. */
  lemma WritersApply(c: Config, s: Step)
    requires Enabled(c, s)
    ensures s.CreateCommit? ==>
      s.pid in c.procs && c.procs[s.pid].CreateBuilt? && Apply(c, s) == Count1(DoCreateCommit(c, s.pid))
    ensures s.AckCommit? ==>
      s.pid in c.procs && c.procs[s.pid].AckTimed? && Apply(c, s) == Count1(DoAckCommit(c, s.pid))
    ensures s.ReceiptCommit? ==>
      s.pid in c.procs && c.procs[s.pid].ReceiptLoaded? && Apply(c, s) == Count1(DoReceiptCommit(c, s.pid))
    ensures s.PagerExpire? ==>
      s.pid in c.procs && c.procs[s.pid].PagerExpiring? && Apply(c, s) == Count1(DoPagerExpire(c, s.pid))
    ensures s.PagerRecord? ==> s.pid in c.procs && c.procs[s.pid].PagerRecording? && c.procs[s.pid].round < |ROUNDS|
                               && Apply(c, s) == Count1(DoPagerRecord(c, s.pid))
  {
    hide ListsDevices, DoCreateCommit, DoAckCommit, DoReceiptCommit, DoPagerExpire, DoPagerRecord, Count1;
  }

  /** The others stay where they are. */
  lemma OthersStay(c: Config, s: Step, d: Config, q: nat)
    requires Frame(c, s, d) && Taker(s) != Some(q)
    ensures q in d.procs <==> q in c.procs
    ensures q in c.procs ==> d.procs[q] == c.procs[q]
  {
  }
}
