/** Handlers on different pages do not see each other. This is why what is proved of runs in which no
    two handlers overlap carries over to runs in which handlers on one page do not: seen from a page,
    the steps of all other handlers are invisible, and what a handler does to its page depends on that
    page, its timeline and whether its recipient has a device. */
module Locality {
  import opened Model
  import opened PagerRules
  import S = Store
  import opened Protocol
  import opened ProtocolInvariant
  import opened Frames
  import Pager
  import Api

  // ------------------------------------------------------------ steps of other handlers

  /** The page a handler works on, once it has one. */
  function WorksOn(p: Proc): Option<string> {
    match p
    case CreateAllowed(_, _, _, _) => None
    case CreateBuilt(page) => Some(page.id)
    case CreateLost(_) => None
    case CreateStored(page) => Some(page.id)
    case AckLoaded(page, _) => Some(page.id)
    case AckTimed(page, _, _) => Some(page.id)
    case AckStored(page) => Some(page.id)
    case AckLost(id) => Some(id)
    case ReceiptLoaded(page) => Some(page.id)
    case ReceiptStored(id) => Some(id)
    case PagerDone(m) => Some(m.task.pageId)
    case PagerLoaded(_, page, _) => Some(page.id)
    case _ => Some(p.job.page.id)
  }

  /** The step is not taken by a handler that works on page id. */
  predicate Elsewhere(c: Config, s: Step, id: string) {
    Taker(s).Some? && Taker(s).value in c.procs ==> WorksOn(c.procs[Taker(s).value]) != Some(id)
  }

  /** Page id, its timeline and its messages are as they were. */
  ghost predicate SameView(c: Config, d: Config, id: string) {
    && (id in d.store.pages <==> id in c.store.pages)
    && (id in c.store.pages ==> d.store.pages[id] == c.store.pages[id])
    && S.Events(d.store, id) == S.Events(c.store, id)
    && forall m: Msg :: m.task.pageId == id ==> d.queue[m] == c.queue[m]
  }

  lemma PageElsewhere(c: Config, s: Step, id: string)
    requires Enabled(c, s) && Elsewhere(c, s, id) && Writer(s)
    ensures var d := Apply(c, s);
      (id in d.store.pages <==> id in c.store.pages) && (id in c.store.pages ==> d.store.pages[id] == c.store.pages[id])
  {
    hide Enabled, Apply, DoCreateCommit, DoAckCommit, DoReceiptCommit, DoPagerExpire, DoPagerRecord;
    WritersApply(c, s);
    match s
    case CreateCommit(pid) => CreateElsewhere(c, pid, id);
    case AckCommit(pid) => AckElsewhere(c, pid, id);
    case ReceiptCommit(pid) =>
      var page := c.procs[pid].page;
      SetElsewhere(c.store, page.id, [Created, Pushed], Delivered, page.attempt, id);
      ReceiptSets(c, pid);
    case PagerExpire(pid) =>
      var page := c.procs[pid].job.page;
      SetElsewhere(c.store, page.id, S.ACTIVE_STATES, Expired, page.attempt, id);
      ExpireSets(c, pid);
    case PagerRecord(pid) =>
      var p := c.procs[pid];
      SetElsewhere(c.store, p.job.page.id, ROUNDS[p.round].0, ROUNDS[p.round].1, p.job.m.task.attempt, id);
      RecordSets(c, pid);
  }

  lemma SetElsewhere(s: S.State, written: string, from: seq<PageState>, to: PageState, attempt: int, id: string)
    requires written != id
    ensures var t := S.SetPageState(s, written, from, to, attempt).0;
      (id in t.pages <==> id in s.pages) && (id in s.pages ==> t.pages[id] == s.pages[id])
  {
  }

  lemma ReceiptSets(c: Config, pid: nat)
    requires pid in c.procs && c.procs[pid].ReceiptLoaded?
    ensures var page := c.procs[pid].page;
      var t := S.SetPageState(c.store, page.id, [Created, Pushed], Delivered, page.attempt).0;
      Count1(DoReceiptCommit(c, pid)).store in {t, c.store}
  {
    hide S.SetPageState;
  }

  lemma ExpireSets(c: Config, pid: nat)
    requires pid in c.procs && c.procs[pid].PagerExpiring?
    ensures var page := c.procs[pid].job.page;
      var t := S.SetPageState(c.store, page.id, S.ACTIVE_STATES, Expired, page.attempt).0;
      Count1(DoPagerExpire(c, pid)).store in {t, c.store}
  {
    hide S.SetPageState;
  }

  lemma RecordSets(c: Config, pid: nat)
    requires pid in c.procs && c.procs[pid].PagerRecording? && c.procs[pid].round < |ROUNDS|
    ensures var p := c.procs[pid];
      var t := S.SetPageState(c.store, p.job.page.id, ROUNDS[p.round].0, ROUNDS[p.round].1, p.job.m.task.attempt).0;
      Count1(DoPagerRecord(c, pid)).store in {t, c.store}
  {
    hide S.SetPageState;
  }

  lemma CreateElsewhere(c: Config, pid: nat, id: string)
    requires pid in c.procs && c.procs[pid].CreateBuilt? && c.procs[pid].page.id != id
    ensures var d := Count1(DoCreateCommit(c, pid));
      && (id in d.store.pages <==> id in c.store.pages)
      && (id in c.store.pages ==> d.store.pages[id] == c.store.pages[id])
      && S.Events(d.store, id) == S.Events(c.store, id)
  {
  }

  lemma AckElsewhere(c: Config, pid: nat, id: string)
    requires pid in c.procs && c.procs[pid].AckTimed? && c.procs[pid].page.id != id
    ensures var d := Count1(DoAckCommit(c, pid));
      (id in d.store.pages <==> id in c.store.pages) && (id in c.store.pages ==> d.store.pages[id] == c.store.pages[id])
  {
  }

  lemma AppendElsewhere(s: S.State, e: PageEvent, stored: bool, id: string)
    requires e.pageId != id
    ensures S.Events(S.MaybeAppend(s, e, stored), id) == S.Events(s, id)
  {
  }

  lemma TimelineElsewhere(c: Config, s: Step, id: string)
    requires Enabled(c, s) && Elsewhere(c, s, id) && Logger(s) && !s.CreateCommit?
    ensures S.Events(Apply(c, s).store, id) == S.Events(c.store, id)
  {
    hide S.ListsDevices, S.MaybeAppend, S.Events;
    var p := c.procs[Taker(s).value];
    forall e: PageEvent, stored: bool | e.pageId != id
      ensures S.Events(S.MaybeAppend(c.store, e, stored), id) == S.Events(c.store, id)
    {
      AppendElsewhere(c.store, e, stored, id);
    }
  }

  lemma QueueElsewhere(c: Config, s: Step, id: string, m: Msg)
    requires Inv(c) && Enabled(c, s) && Elsewhere(c, s, id) && m.task.pageId == id
    requires s.CreateEnqueue? || s.PagerEnqueue? || s.PagerFinish?
    ensures Apply(c, s).queue[m] == c.queue[m]
  {
    hide Inv, S.ListsDevices, FollowUp;
  }

  /** A step of a handler that does not work on page id leaves the page, its timeline and its messages
      as they are. */
  lemma OthersAreInvisible(c: Config, s: Step, id: string)
    requires Inv(c) && Enabled(c, s) && Elsewhere(c, s, id)
    ensures SameView(c, Apply(c, s), id)
  {
    hide Inv, Enabled, Apply, S.Events;
    StepFrame(c, s);
    var d := Apply(c, s);
    if Writer(s) { PageElsewhere(c, s, id); }
    if s.CreateCommit? {
      WritersApply(c, s);
      CreateElsewhere(c, s.pid, id);
    } else if Logger(s) {
      TimelineElsewhere(c, s, id);
    }
    EventsOfEvents(c.store, d.store, id);
    forall m: Msg | m.task.pageId == id ensures d.queue[m] == c.queue[m] {
      if s.CreateEnqueue? || s.PagerEnqueue? || s.PagerFinish? { QueueElsewhere(c, s, id, m); }
    }
  }

  lemma EventsOfEvents(s: S.State, t: S.State, id: string)
    ensures s.events == t.events ==> S.Events(s, id) == S.Events(t, id)
  {
  }

  // ------------------------------------------------------------ what a handler looks at

  /** Two stores that agree on a page, its timeline, and whether its recipient has a device. */
  ghost predicate AgreeOn(s: S.State, t: S.State, id: string) {
    && (id in s.pages <==> id in t.pages)
    && S.Events(s, id) == S.Events(t, id)
    && (id in s.pages ==>
          && s.pages[id] == t.pages[id] && s.pages[id].id == id
          && (S.DevicesOf(s, s.pages[id].recipientId) == {} <==> S.DevicesOf(t, t.pages[id].recipientId) == {}))
  }

  ghost predicate SamePage(s: S.State, t: S.State, id: string) {
    && (id in s.pages <==> id in t.pages) && (id in s.pages ==> s.pages[id] == t.pages[id])
    && S.Events(s, id) == S.Events(t, id)
  }

  /** From s to t nothing changed but page id and its timeline, as far as pages go. */
  ghost predicate OnlyAt(s: S.State, t: S.State, id: string) {
    forall k :: k != id ==> SamePage(s, t, k)
  }

  lemma SamePageTransitive(s: S.State, t: S.State, u: S.State, id: string)
    requires SamePage(s, t, id) && SamePage(t, u, id)
    ensures SamePage(s, u, id)
  {
  }

  lemma OnlyAtTwice(s: S.State, t: S.State, u: S.State, id: string)
    requires OnlyAt(s, t, id) && OnlyAt(t, u, id)
    ensures OnlyAt(s, u, id)
  {
    hide SamePage;
    forall k | k != id ensures SamePage(s, u, k) { SamePageTransitive(s, t, u, k); }
  }

  lemma AppendIsLocal(s: S.State, t: S.State, e: PageEvent, stored: bool)
    requires SamePage(s, t, e.pageId)
    ensures SamePage(S.MaybeAppend(s, e, stored), S.MaybeAppend(t, e, stored), e.pageId)
    ensures OnlyAt(s, S.MaybeAppend(s, e, stored), e.pageId)
  {
  }

  lemma WriteIsLocal(s: S.State, t: S.State, id: string, q: Page)
    requires SamePage(s, t, id)
    ensures SamePage(s.(pages := s.pages[id := q]), t.(pages := t.pages[id := q]), id)
    ensures OnlyAt(s, s.(pages := s.pages[id := q]), id)
  {
  }

  lemma DevicesDoNotMatter(s: S.State, userId: string, env: Pager.Env)
    ensures forall k :: SamePage(s, Pager.Prune(s, userId, env), k)
  {
    hide Pager.GoneDevices;
  }

  /** Whether two outcomes from s and t are the same as far as page id goes, and touch nothing else. */
  ghost predicate Alike(s: S.State, s2: S.State, t2: S.State, id: string) {
    SamePage(s2, t2, id) && OnlyAt(s, s2, id)
  }

  lemma PushIsLocal(s: S.State, t: S.State, page: Page, env: Pager.Env)
    requires S.DevicesOf(s, page.recipientId) == {} <==> S.DevicesOf(t, page.recipientId) == {}
    requires SamePage(s, t, page.id)
    ensures Alike(s, Pager.AfterPush(s, page, env), Pager.AfterPush(t, page, env), page.id)
  {
    hide S.DevicesOf, SamePage, S.MaybeAppend, Pager.Prune;
    AppendIsLocal(s, t, PageEvent(page.id, EvNoDevices, "", env.now), Pager.Logs(env, EvNoDevices));
    DevicesDoNotMatter(s, page.recipientId, env);
    DevicesDoNotMatter(t, page.recipientId, env);
    Turn(s, Pager.Prune(s, page.recipientId, env), page.id);
    if S.DevicesOf(s, page.recipientId) != {} {
      SamePageTransitive(Pager.Prune(s, page.recipientId, env), s, t, page.id);
      SamePageTransitive(Pager.Prune(s, page.recipientId, env), t, Pager.Prune(t, page.recipientId, env), page.id);
    }
  }

  lemma Turn(s: S.State, t: S.State, id: string)
    requires SamePage(s, t, id)
    ensures SamePage(t, s, id)
  {
  }

  lemma ExpireIsLocal(s: S.State, t: S.State, page: Page, env: Pager.Env)
    requires SamePage(s, t, page.id)
    ensures Alike(s, Pager.Expire(s, page, env), Pager.Expire(t, page, env), page.id)
  {
    hide SamePage, S.MaybeAppend, OnlyAt;
    var q := page.(state := Expired);
    var s2, t2 := s.(pages := s.pages[page.id := q]), t.(pages := t.pages[page.id := q]);
    WriteIsLocal(s, t, page.id, q);
    AppendIsLocal(s2, t2, PageEvent(page.id, EvExpired, "", env.now), Pager.Logs(env, EvExpired));
    OnlyAtTwice(s, s2, Pager.Expire(s, page, env), page.id);
  }

  lemma RecordedIsLocal(s: S.State, t: S.State, id: string, attempt: int)
    requires SamePage(s, t, id)
    ensures Alike(s, Pager.AttemptRecorded(s, id, attempt), Pager.AttemptRecorded(t, id, attempt), id)
  {
    hide OnlyAt;
    Unchanged(s, id);
    if id in s.pages {
      var p := s.pages[id];
      WriteIsLocal(s, t, id, p.(state := if p.state.Created? then Pushed else p.state, attempt := attempt));
    }
    hide SamePage, S.Events;
  }

  lemma Unchanged(s: S.State, id: string)
    ensures SamePage(s, s, id) && OnlyAt(s, s, id)
  {
  }

  lemma AttemptIsLocal(s: S.State, t: S.State, page: Page, task: PageTask, env: Pager.Env)
    requires SamePage(s, t, page.id)
    ensures var h := Pager.Attempted(s, page, task, env); var g := Pager.Attempted(t, page, task, env);
      h.next == g.next && h.failed == g.failed && Alike(s, h.store, g.store, page.id)
  {
    hide SamePage, S.MaybeAppend, OnlyAt, Pager.AttemptRecorded, Pager.NextTask;
    var s2, t2 := Pager.AttemptRecorded(s, page.id, task.attempt), Pager.AttemptRecorded(t, page.id, task.attempt);
    RecordedIsLocal(s, t, page.id, task.attempt);
    AppendIsLocal(s2, t2, PageEvent(page.id, EvPushAttempt, "", env.now), Pager.Logs(env, EvPushAttempt));
    OnlyAtTwice(s, s2, Pager.Attempted(s, page, task, env).store, page.id);
  }

  lemma AgreeingPages(s: S.State, t: S.State, id: string)
    requires AgreeOn(s, t, id)
    ensures SamePage(s, t, id)
  {
    hide S.DevicesOf;
  }

  /** The pager's outcome for a page depends on that page, its timeline and whether its recipient has a
      device, and touches no other page. */
  lemma HandleIsLocal(s: S.State, t: S.State, task: PageTask, env: Pager.Env)
    requires AgreeOn(s, t, task.pageId)
    ensures var h := Pager.Handle(s, task, env); var g := Pager.Handle(t, task, env);
      h.next == g.next && h.failed == g.failed && Alike(s, h.store, g.store, task.pageId)
  {
    hide S.DevicesOf, SamePage, OnlyAt, Pager.AfterPush, Pager.Attempted, Pager.Expire, S.Events;
    AgreeingPages(s, t, task.pageId);
    Unchanged(s, task.pageId);
    if task.pageId in s.pages {
      var page := s.pages[task.pageId];
      var s2, t2 := Pager.AfterPush(s, page, env), Pager.AfterPush(t, page, env);
      ExpireIsLocal(s, t, page, env);
      PushIsLocal(s, t, page, env);
      AttemptIsLocal(s2, t2, page, task, env);
      OnlyAtTwice(s, s2, Pager.Attempted(s2, page, task, env).store, page.id);
    }
  }

  /** And so it is with acks and receipts. */
  lemma AckIsLocal(s: S.State, t: S.State, caller: string, id: string, note: string, now: Time, logFails: bool)
    requires SamePage(s, t, id)
    ensures var e := Api.AckEffect(s, caller, id, note, now, logFails);
      var f := Api.AckEffect(t, caller, id, note, now, logFails);
      e.answer == f.answer && Alike(s, e.store, f.store, id)
  {
    Unchanged(s, id);
    if id in s.pages {
      var q := s.pages[id].(state := Acked, ackedAt := Some(now), ackNote := note);
      WriteThenLog(s, t, id, q, PageEvent(id, EvAcked, note, now), !logFails);
    }
    hide S.MaybeAppend, S.Events, OnlyAt;
  }

  lemma ReceiptIsLocal(s: S.State, t: S.State, caller: string, id: string, now: Time, logFails: bool)
    requires SamePage(s, t, id)
    ensures var e := Api.ReceiptEffect(s, caller, id, now, logFails);
      var f := Api.ReceiptEffect(t, caller, id, now, logFails);
      e.answer == f.answer && Alike(s, e.store, f.store, id)
  {
    Unchanged(s, id);
    if id in s.pages {
      WriteThenLog(s, t, id, s.pages[id].(state := Delivered), PageEvent(id, EvDelivered, "", now), !logFails);
    }
    hide S.MaybeAppend, S.Events, OnlyAt;
  }

  lemma WriteThenLog(s: S.State, t: S.State, id: string, q: Page, e: PageEvent, stored: bool)
    requires SamePage(s, t, id) && e.pageId == id
    ensures var s2, t2 := s.(pages := s.pages[id := q]), t.(pages := t.pages[id := q]);
      Alike(s, S.MaybeAppend(s2, e, stored), S.MaybeAppend(t2, e, stored), id)
  {
    hide SamePage, S.MaybeAppend, OnlyAt;
    var s2, t2 := s.(pages := s.pages[id := q]), t.(pages := t.pages[id := q]);
    WriteIsLocal(s, t, id, q);
    AppendIsLocal(s2, t2, e, stored);
    OnlyAtTwice(s, s2, S.MaybeAppend(s2, e, stored), id);
  }
}
