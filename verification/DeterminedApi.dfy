/** The same converse for the API handlers: a create, an ack or a receipt that no other handler
    interrupts and that answers leaves exactly what the imperative handler leaves, read at some moment
    of its own. */
module DeterminedApi {
  import opened Model
  import opened Nag
  import S = Store
  import opened Protocol
  import opened Frames
  import opened Pager
  import opened Uninterrupted
  import opened Determined
  import Api

  /** The handler is in flight from its first step to its last, does not crash, and is gone then. */
  ghost predicate Answers(t: Trace, c: Config, pid: nat, first: Step) {
    && Alone(t, c, pid) && pid !in c.procs
    && |t.steps| >= 2 && t.steps[0] == first
    && (forall k :: 0 <= k < |t.steps| ==> !t.steps[k].Crash?)
    && (forall k :: 0 < k < |t.steps| ==> pid in t.cs[k].procs)
    && pid !in End(t).procs
  }

  /** Time has passed at most, and the others are where they were. */
  ghost predicate OthersSame(c: Config, pid: nat, d: Config) {
    c.now <= d.now && if pid in d.procs then d.procs == c.procs[pid := d.procs[pid]] else d.procs == c.procs
  }

  lemma OthersStaySame(c: Config, pid: nat, d: Config, s: Step)
    requires pid !in c.procs && OthersSame(c, pid, d) && Enabled(d, s) && Taker(s) == Some(pid)
    requires Apply(d, s).now == d.now
    ensures OthersSame(c, pid, Apply(d, s))
  {
    hide Enabled, Apply;
    StepFrame(d, s);
    if pid in d.procs { Left(c.procs, pid, d.procs[pid]); }
    hide Arrives;
    assert c.procs - {pid} == c.procs;
  }

  lemma TimeStands(d: Config, s: Step)
    requires Enabled(d, s) && !s.Tick?
    ensures Apply(d, s).now == d.now
  {
    hide Enabled, Apply;
    StepFrame(d, s);
  }

  // ------------------------------------------------------------ acks

  /** What holds while an ack stands at p. */
  ghost predicate AckStage(c: Config, d: Config, id: string, note: string, p: Proc) {
    && id in c.store.pages && c.store.pages[id].id == id && d.queue == c.queue
    && match p
       case AckLoaded(page, n) => page == c.store.pages[id] && n == note && d.store == c.store
       case AckTimed(page, n, at) =>
         page == c.store.pages[id] && n == note && c.now <= at <= d.now && d.store == c.store
       case AckStored(page) =>
         && Active(c.store.pages[id].state) && page.ackedAt.Some? && c.now <= page.ackedAt.value <= d.now
         && page == c.store.pages[id].(state := Acked, ackedAt := page.ackedAt, ackNote := note)
         && d.store == c.store.(pages := c.store.pages[id := page])
       case AckLost(lost) => lost == id && !Active(c.store.pages[id].state) && d.store == c.store
       case _ => false
  }

  ghost predicate AckEnded(c: Config, d: Config, caller: string, id: string, note: string, at: Time, logFails: bool) {
    var e := Api.AckEffect(c.store, caller, id, note, at, logFails);
    && c.now <= at <= d.now && d.store == e.store && d.queue == c.queue
    && (e.answer.AckedPage? ==>
          var p := e.answer.page; AckReply(p.id, p.state, p.ackedAt, p.ackNote) in d.hist.ackReplies)
  }

  lemma AckBegins(c: Config, pid: nat, caller: string, id: string, note: string)
    requires S.Filed(c.store) && pid !in c.procs && Enabled(c, AckBegin(pid, caller, id, note))
    ensures var d := Apply(c, AckBegin(pid, caller, id, note));
      OthersSame(c, pid, d) && pid in d.procs && AckStage(c, d, id, note, d.procs[pid])
  {
    FiledPage(c.store, id);
    hide S.Filed;
  }

  lemma AckTicks(c: Config, pid: nat, d: Config, id: string, note: string, t: Duration)
    requires pid in d.procs && AckStage(c, d, id, note, d.procs[pid]) && OthersSame(c, pid, d) && t >= 0
    ensures var e := Count1(d.(now := d.now + t)); OthersSame(c, pid, e) && AckStage(c, e, id, note, e.procs[pid])
  {
  }

  lemma AckMovesOn(c: Config, pid: nat, d: Config, caller: string, id: string, note: string, s: Step)
      returns (at: Time, logFails: bool)
    requires pid in d.procs && AckStage(c, d, id, note, d.procs[pid]) && c.now <= d.now
    requires Enabled(d, s) && Taker(s) == Some(pid) && !s.Crash?
    requires c.store.pages[id].recipientId == caller
    ensures var e := Apply(d, s);
      if pid in e.procs then AckStage(c, e, id, note, e.procs[pid]) else AckEnded(c, e, caller, id, note, at, logFails)
  {
    AckTakes(d, s, pid);
    var p := d.procs[pid];
    at, logFails := d.now, false;
    match s
    case AckClock(_) =>
    case AckCommit(_) => AckCommits(c, pid, d, id, note);
    case AckEvent(_, stored) =>
      at, logFails := p.page.ackedAt.value, !stored;
      AckLogs(c, pid, d, caller, id, note, stored);
    case AckReread(_) => AckRereads(c, pid, d, caller, id, note);
  }

  lemma AckTakes(d: Config, s: Step, pid: nat)
    requires Enabled(d, s) && Taker(s) == Some(pid) && !s.Crash? && pid in d.procs
    requires var p := d.procs[pid]; p.AckLoaded? || p.AckTimed? || p.AckStored? || p.AckLost?
    ensures var p := d.procs[pid];
      && (p.AckLoaded? ==> s == AckClock(pid)) && (p.AckTimed? ==> s == AckCommit(pid))
      && (p.AckStored? ==> s.AckEvent? && s.pid == pid) && (p.AckLost? ==> s == AckReread(pid))
  {
    hide S.ListsDevices;
  }

  lemma AckCommits(c: Config, pid: nat, d: Config, id: string, note: string)
    requires pid in d.procs && AckStage(c, d, id, note, d.procs[pid]) && d.procs[pid].AckTimed?
    ensures var e := Apply(d, AckCommit(pid)); pid in e.procs && AckStage(c, e, id, note, e.procs[pid])
  {
  }

  lemma AckLogs(c: Config, pid: nat, d: Config, caller: string, id: string, note: string, stored: bool)
    requires pid in d.procs && AckStage(c, d, id, note, d.procs[pid]) && d.procs[pid].AckStored?
    requires c.store.pages[id].recipientId == caller
    ensures var e := Apply(d, AckEvent(pid, stored));
      pid !in e.procs && AckEnded(c, e, caller, id, note, d.procs[pid].page.ackedAt.value, !stored)
  {
    hide S.AppendEvent;
  }

  lemma AckRereads(c: Config, pid: nat, d: Config, caller: string, id: string, note: string)
    requires pid in d.procs && AckStage(c, d, id, note, d.procs[pid]) && d.procs[pid].AckLost? && c.now <= d.now
    requires c.store.pages[id].recipientId == caller
    ensures var e := Apply(d, AckReread(pid)); pid !in e.procs && AckEnded(c, e, caller, id, note, d.now, false)
  {
  }

  lemma {:induction false} AckRun(t: Trace, c: Config, pid: nat, caller: string, id: string, note: string, i: nat)
      returns (at: Time, logFails: bool)
    requires Answers(t, c, pid, AckBegin(pid, caller, id, note)) && S.Filed(c.store) && 1 <= i < |t.cs|
    ensures OthersSame(c, pid, t.cs[i]) && id in c.store.pages && c.store.pages[id].recipientId == caller
    ensures if i < |t.steps| then AckStage(c, t.cs[i], id, note, t.cs[i].procs[pid])
            else AckEnded(c, t.cs[i], caller, id, note, at, logFails)
  {
    hide Enabled, Apply, S.Filed, AckStage, AckEnded, OthersSame, Taker;
    OwnBegins(c, pid, caller, id, note, t);
    if i == 1 {
      AckBegins(c, pid, caller, id, note);
      at, logFails := c.now, false;
    } else {
      at, logFails := AckRun(t, c, pid, caller, id, note, i - 1);
      var d, s := t.cs[i - 1], t.steps[i - 1];
      if s.Tick? {
        TickApplies(d, s);
        AckTicks(c, pid, d, id, note, s.d);
      } else {
        TimeStands(d, s);
        OthersStaySame(c, pid, d, s);
        PassedTime(c, pid, d);
        at, logFails := AckMovesOn(c, pid, d, caller, id, note, s);
      }
    }
  }

  lemma PassedTime(c: Config, pid: nat, d: Config)
    requires OthersSame(c, pid, d)
    ensures c.now <= d.now
  {
  }

  lemma OwnBegins(c: Config, pid: nat, caller: string, id: string, note: string, t: Trace)
    requires Answers(t, c, pid, AckBegin(pid, caller, id, note))
    ensures id in c.store.pages && c.store.pages[id].recipientId == caller
  {
    assert Enabled(t.cs[0], t.steps[0]);
  }

  /** Every ack that no other handler interrupts and that answers has the effect and the answer of the
      imperative handler, at the moment of its clock reading, whether or not its event was appended. */
  lemma AnsweredAckIsHandle(t: Trace, c: Config, pid: nat, caller: string, id: string, note: string)
      returns (at: Time, logFails: bool)
    requires Answers(t, c, pid, AckBegin(pid, caller, id, note)) && S.Filed(c.store)
    ensures t.cs != [] && End(t).procs == c.procs && AckEnded(c, End(t), caller, id, note, at, logFails)
  {
    hide AckStage, AckEnded, S.Filed, Enabled, Apply, Taker;
    at, logFails := AckRun(t, c, pid, caller, id, note, |t.steps|);
  }

  // ------------------------------------------------------------ receipts

  ghost predicate ReceiptStage(c: Config, d: Config, id: string, p: Proc) {
    && id in c.store.pages && c.store.pages[id].id == id && d.queue == c.queue
    && match p
       case ReceiptLoaded(page) => page == c.store.pages[id] && d.store == c.store
       case ReceiptStored(stored) =>
         && stored == id && (c.store.pages[id].state.Created? || c.store.pages[id].state.Pushed?)
         && d.store == c.store.(pages := c.store.pages[id := c.store.pages[id].(state := Delivered)])
       case _ => false
  }

  ghost predicate ReceiptEnded(c: Config, d: Config, caller: string, id: string, at: Time, logFails: bool) {
    c.now <= at <= d.now && d.store == Api.ReceiptEffect(c.store, caller, id, at, logFails).store && d.queue == c.queue
  }

  lemma ReceiptBegins(c: Config, pid: nat, caller: string, id: string)
    requires S.Filed(c.store) && pid !in c.procs && Enabled(c, ReceiptBegin(pid, caller, id))
    ensures var d := Apply(c, ReceiptBegin(pid, caller, id));
      OthersSame(c, pid, d) && pid in d.procs && ReceiptStage(c, d, id, d.procs[pid])
  {
    FiledPage(c.store, id);
    hide S.Filed;
  }

  lemma ReceiptTicks(c: Config, pid: nat, d: Config, id: string, t: Duration)
    requires pid in d.procs && ReceiptStage(c, d, id, d.procs[pid]) && OthersSame(c, pid, d) && t >= 0
    ensures var e := Count1(d.(now := d.now + t)); OthersSame(c, pid, e) && ReceiptStage(c, e, id, e.procs[pid])
  {
  }

  lemma ReceiptTakes(d: Config, s: Step, pid: nat)
    requires Enabled(d, s) && Taker(s) == Some(pid) && !s.Crash? && pid in d.procs
    requires d.procs[pid].ReceiptLoaded? || d.procs[pid].ReceiptStored?
    ensures d.procs[pid].ReceiptLoaded? ==> s == ReceiptCommit(pid)
    ensures d.procs[pid].ReceiptStored? ==> s.ReceiptEvent? && s.pid == pid
  {
    hide S.ListsDevices;
  }

  lemma ReceiptCommits(c: Config, pid: nat, d: Config, caller: string, id: string)
    requires pid in d.procs && ReceiptStage(c, d, id, d.procs[pid]) && d.procs[pid].ReceiptLoaded? && c.now <= d.now
    requires c.store.pages[id].recipientId == caller
    ensures var e := Apply(d, ReceiptCommit(pid));
      if pid in e.procs then ReceiptStage(c, e, id, e.procs[pid]) else ReceiptEnded(c, e, caller, id, d.now, false)
  {
  }

  lemma ReceiptLogs(c: Config, pid: nat, d: Config, caller: string, id: string, stored: bool)
    requires pid in d.procs && ReceiptStage(c, d, id, d.procs[pid]) && d.procs[pid].ReceiptStored? && c.now <= d.now
    requires c.store.pages[id].recipientId == caller
    ensures var e := Apply(d, ReceiptEvent(pid, stored));
      pid !in e.procs && ReceiptEnded(c, e, caller, id, d.now, !stored)
  {
    hide S.AppendEvent;
  }

  lemma {:induction false} ReceiptRun(t: Trace, c: Config, pid: nat, caller: string, id: string, i: nat)
      returns (at: Time, logFails: bool)
    requires Answers(t, c, pid, ReceiptBegin(pid, caller, id)) && S.Filed(c.store) && 1 <= i < |t.cs|
    ensures OthersSame(c, pid, t.cs[i]) && id in c.store.pages && c.store.pages[id].recipientId == caller
    ensures if i < |t.steps| then ReceiptStage(c, t.cs[i], id, t.cs[i].procs[pid])
            else ReceiptEnded(c, t.cs[i], caller, id, at, logFails)
  {
    hide Enabled, Apply, S.Filed, ReceiptEnded, OthersSame, Taker;
    OwnReceipt(c, pid, caller, id, t);
    at, logFails := c.now, false;
    if i == 1 {
      ReceiptBegins(c, pid, caller, id);
    } else {
      at, logFails := ReceiptRun(t, c, pid, caller, id, i - 1);
      var d, s := t.cs[i - 1], t.steps[i - 1];
      if s.Tick? {
        TickApplies(d, s);
        ReceiptTicks(c, pid, d, id, s.d);
      } else {
        TimeStands(d, s);
        OthersStaySame(c, pid, d, s);
        PassedTime(c, pid, d);
        ReceiptTakes(d, s, pid);
        at, logFails := d.now, s.ReceiptEvent? && !s.stored;
        if s.ReceiptEvent? {
          ReceiptLogs(c, pid, d, caller, id, s.stored);
        } else {
          ReceiptCommits(c, pid, d, caller, id);
        }
      }
    }
  }

  lemma OwnReceipt(c: Config, pid: nat, caller: string, id: string, t: Trace)
    requires Answers(t, c, pid, ReceiptBegin(pid, caller, id))
    ensures id in c.store.pages && c.store.pages[id].recipientId == caller
  {
    assert Enabled(t.cs[0], t.steps[0]);
  }

  /** Every receipt that no other handler interrupts and that answers has the effect of the imperative
      handler, whether or not its event was appended. */
  lemma AnsweredReceiptIsHandle(t: Trace, c: Config, pid: nat, caller: string, id: string)
      returns (at: Time, logFails: bool)
    requires Answers(t, c, pid, ReceiptBegin(pid, caller, id)) && S.Filed(c.store)
    ensures t.cs != [] && End(t).procs == c.procs && ReceiptEnded(c, End(t), caller, id, at, logFails)
  {
    hide ReceiptStage, ReceiptEnded, S.Filed, Enabled, Apply, Taker;
    at, logFails := ReceiptRun(t, c, pid, caller, id, |t.steps|);
  }

  // ------------------------------------------------------------ creates

  /** What a create asks for. */
  datatype Request = Request(caller: string, recipient: string, message: string, key: string)

  ghost predicate Allowed(c: Config, r: Request) {
    (r.caller, r.recipient) in c.store.pairings && c.store.pairings[(r.caller, r.recipient)].status.PairingActive?
  }

  ghost predicate BuiltAt(c: Config, d: Config, r: Request, page: Page, at: Time) {
    c.now <= at <= d.now && page == NewPage(page.id, r.caller, r.recipient, r.message, r.key, at, at + EXPIRY)
  }

  ghost predicate CreateStage(c: Config, d: Config, r: Request, p: Proc) {
    && Allowed(c, r) && d.queue == c.queue
    && match p
       case CreateAllowed(sender, recipient, message, key) =>
         Request(sender, recipient, message, key) == r && d.store == c.store
       case CreateBuilt(page) => BuiltAt(c, d, r, page, page.createdAt) && d.store == c.store
       case CreateStored(page) =>
         && BuiltAt(c, d, r, page, page.createdAt)
         && S.CreatePage(c.store, page).1.Pass? && d.store == S.CreatePage(c.store, page).0
       case CreateLost(key) =>
         && key == r.key && d.store == c.store
         && exists page: Page :: BuiltAt(c, d, r, page, page.createdAt) && S.CreatePage(c.store, page).1.Fail?
       case _ => false
  }

  ghost predicate CreateEnded(c: Config, d: Config, r: Request, id: string, at: Time, sentAt: Time) {
    var e := Api.CreateEffect(c.store, r.caller, r.recipient, r.message, r.key, id, at, false);
    && c.now <= at <= sentAt <= d.now && d.store == e.store
    && d.queue == if e.next.Some? then c.queue + multiset{Msg(PageTask(id, 0), sentAt)} else c.queue
  }

  lemma CreateBegins(c: Config, pid: nat, r: Request)
    requires pid !in c.procs && Enabled(c, CreateBegin(pid, r.caller, r.recipient, r.message, r.key))
    ensures var d := Apply(c, CreateBegin(pid, r.caller, r.recipient, r.message, r.key));
      OthersSame(c, pid, d) && pid in d.procs && CreateStage(c, d, r, d.procs[pid])
  {
  }

  lemma CreateTicks(c: Config, pid: nat, d: Config, r: Request, t: Duration)
    requires pid in d.procs && CreateStage(c, d, r, d.procs[pid]) && OthersSame(c, pid, d) && t >= 0
    ensures var e := Count1(d.(now := d.now + t)); OthersSame(c, pid, e) && CreateStage(c, e, r, e.procs[pid])
  {
    hide S.CreatePage;
    var e := Count1(d.(now := d.now + t));
    if d.procs[pid].CreateLost? {
      var page: Page :| BuiltAt(c, d, r, page, page.createdAt) && S.CreatePage(c.store, page).1.Fail?;
      assert BuiltAt(c, e, r, page, page.createdAt);
    }
  }

  lemma CreateTakes(d: Config, s: Step, pid: nat)
    requires Enabled(d, s) && Taker(s) == Some(pid) && !s.Crash? && pid in d.procs
    requires var p := d.procs[pid]; p.CreateAllowed? || p.CreateBuilt? || p.CreateStored? || p.CreateLost?
    ensures var p := d.procs[pid];
      && (p.CreateAllowed? ==> s.CreateBuild? && s.pid == pid) && (p.CreateBuilt? ==> s == CreateCommit(pid))
      && (p.CreateStored? ==> s == CreateEnqueue(pid)) && (p.CreateLost? ==> s == CreateLookup(pid))
  {
    hide S.ListsDevices;
  }

  lemma CreateBuilds(c: Config, pid: nat, d: Config, r: Request, id: string)
    requires pid in d.procs && CreateStage(c, d, r, d.procs[pid]) && d.procs[pid].CreateAllowed? && c.now <= d.now
    ensures var e := Apply(d, CreateBuild(pid, id)); pid in e.procs && CreateStage(c, e, r, e.procs[pid])
  {
  }

  lemma CreateCommits(c: Config, pid: nat, d: Config, r: Request)
    requires pid in d.procs && CreateStage(c, d, r, d.procs[pid]) && d.procs[pid].CreateBuilt?
    ensures var e := Apply(d, CreateCommit(pid)); pid in e.procs && CreateStage(c, e, r, e.procs[pid])
  {
    hide S.CreatePage;
    var e := Apply(d, CreateCommit(pid));
    var page := d.procs[pid].page;
    assert BuiltAt(c, e, r, page, page.createdAt);
    CreateOutcome(d.store, page);
  }

  lemma CreateOutcome(s: S.State, page: Page)
    ensures S.CreatePage(s, page).1.Fail? ==> S.CreatePage(s, page).0 == s
  {
  }

  lemma CreateSends(c: Config, pid: nat, d: Config, r: Request)
    requires pid in d.procs && CreateStage(c, d, r, d.procs[pid]) && d.procs[pid].CreateStored?
    ensures var e := Apply(d, CreateEnqueue(pid)); var page := d.procs[pid].page;
      pid !in e.procs && CreateEnded(c, e, r, page.id, page.createdAt, d.now)
  {
    hide S.AppendEvent;
  }

  lemma CreateLooks(c: Config, pid: nat, d: Config, r: Request) returns (id: string, at: Time)
    requires pid in d.procs && CreateStage(c, d, r, d.procs[pid]) && d.procs[pid].CreateLost?
    ensures var e := Apply(d, CreateLookup(pid)); pid !in e.procs && CreateEnded(c, e, r, id, at, d.now)
  {
    hide S.AppendEvent;
    var page: Page :| BuiltAt(c, d, r, page, page.createdAt) && S.CreatePage(c.store, page).1.Fail?;
    id, at := page.id, page.createdAt;
  }

  lemma CreateMovesOn(c: Config, pid: nat, d: Config, r: Request, s: Step) returns (id: string, at: Time)
    requires pid in d.procs && CreateStage(c, d, r, d.procs[pid]) && c.now <= d.now
    requires Enabled(d, s) && Taker(s) == Some(pid) && !s.Crash?
    ensures var e := Apply(d, s);
      if pid in e.procs then CreateStage(c, e, r, e.procs[pid]) else CreateEnded(c, e, r, id, at, d.now)
  {
    CreateTakes(d, s, pid);
    hide Enabled, Apply, S.CreatePage, CreateEnded;
    id, at := "", c.now;
    match d.procs[pid]
    case CreateAllowed(_, _, _, _) => CreateBuilds(c, pid, d, r, s.id);
    case CreateBuilt(_) => CreateCommits(c, pid, d, r);
    case CreateStored(page) => id, at := page.id, page.createdAt; CreateSends(c, pid, d, r);
    case CreateLost(_) => id, at := CreateLooks(c, pid, d, r);
  }

  lemma {:induction false} CreateRun(t: Trace, c: Config, pid: nat, r: Request, i: nat)
      returns (id: string, at: Time, sentAt: Time)
    requires Answers(t, c, pid, CreateBegin(pid, r.caller, r.recipient, r.message, r.key)) && 1 <= i < |t.cs|
    ensures OthersSame(c, pid, t.cs[i])
    ensures if i < |t.steps| then CreateStage(c, t.cs[i], r, t.cs[i].procs[pid])
      else CreateEnded(c, t.cs[i], r, id, at, sentAt)
  {
    hide Enabled, Apply, CreateStage, CreateEnded, OthersSame, Taker;
    id, at, sentAt := "", c.now, c.now;
    if i == 1 {
      CreateBegins(c, pid, r);
    } else {
      id, at, sentAt := CreateRun(t, c, pid, r, i - 1);
      var d, s := t.cs[i - 1], t.steps[i - 1];
      if s.Tick? {
        TickApplies(d, s);
        CreateTicks(c, pid, d, r, s.d);
      } else {
        TimeStands(d, s);
        OthersStaySame(c, pid, d, s);
        PassedTime(c, pid, d);
        id, at := CreateMovesOn(c, pid, d, r, s);
        sentAt := d.now;
      }
    }
  }

  /** Every create that passes its consent check, is not interrupted, and answers has the effect of
      the imperative handler for some page id at the moment of its clock reading. */
  lemma AnsweredCreateIsHandle(t: Trace, c: Config, pid: nat, r: Request) returns (id: string, at: Time, sentAt: Time)
    requires Answers(t, c, pid, CreateBegin(pid, r.caller, r.recipient, r.message, r.key))
    ensures t.cs != [] && End(t).procs == c.procs && CreateEnded(c, End(t), r, id, at, sentAt)
  {
    hide CreateStage, CreateEnded, Enabled, Apply, Taker;
    id, at, sentAt := CreateRun(t, c, pid, r, |t.steps|);
  }
}
