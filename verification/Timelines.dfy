/** What a page's timeline tells in serial runs, as long as its appends succeed. */
module Timelines {
  import opened Model
  import opened Nag
  import opened PagerRules
  import S = Store
  import opened Pager
  import Api
  import P = Protocol
  import opened Serial

  /** What the sender can tell from a timeline. */
  datatype Progress = Progress(state: PageState, attempt: int)

  function Advance(p: Option<Progress>, kind: EventType): Option<Progress> {
    if p.None? then
      if kind.EvCreated? then Some(Progress(Created, -1)) else None
    else
      match kind
      case EvCreated => p
      case EvNoDevices => p
      case EvPushAttempt =>
        Some(Progress(if p.value.state.Created? then Pushed else p.value.state, p.value.attempt + 1))
      case EvDelivered => Some(p.value.(state := Delivered))
      case EvAcked => Some(p.value.(state := Acked))
      case EvExpired => Some(p.value.(state := Expired))
  }

  function Replay(es: seq<PageEvent>): Option<Progress> {
    if es == [] then None else Advance(Replay(es[..|es| - 1]), es[|es| - 1].kind)
  }

  function PushCount(es: seq<PageEvent>): nat {
    if es == [] then 0 else PushCount(es[..|es| - 1]) + if es[|es| - 1].kind.EvPushAttempt? then 1 else 0
  }

  predicate IsTerminalEvent(e: PageEvent) {
    e.kind.EvAcked? || e.kind.EvExpired?
  }

  /** The timeline tells the page's state and attempt; it has one push_attempt for each attempt;
      a terminal event is there exactly if the page is terminal, once, at the end. */
  ghost predicate Tells(es: seq<PageEvent>, p: Page) {
    && Replay(es) == Some(Progress(p.state, p.attempt))
    && PushCount(es) == p.attempt + 1
    && es != []
    && (Active(p.state) <==> !IsTerminalEvent(es[|es| - 1]))
    && forall i :: 0 <= i < |es| - 1 ==> !IsTerminalEvent(es[i])
  }

  lemma TellsNext(es: seq<PageEvent>, p: Page, e: PageEvent, q: Page)
    requires Tells(es, p) && Active(p.state)
    requires Some(Progress(q.state, q.attempt)) == Advance(Some(Progress(p.state, p.attempt)), e.kind)
    ensures Tells(es + [e], q)
  {
    var fs := es + [e];
    assert fs[..|fs| - 1] == es && fs[|fs| - 1] == e;
  }

  lemma TellsAttempt(es: seq<PageEvent>, p: Page, extra: seq<PageEvent>, pa: PageEvent, q: Page)
    requires Tells(es, p) && Active(p.state)
    requires extra == [] || (|extra| == 1 && extra[0].kind.EvNoDevices?)
    requires pa.kind.EvPushAttempt?
    requires q == p.(state := if p.state.Created? then Pushed else p.state, attempt := p.attempt + 1)
    ensures Tells(es + (extra + [pa]), q)
  {
    if extra == [] {
      TellsNext(es, p, pa, q);
      assert es + (extra + [pa]) == es + [pa];
    } else {
      TellsNext(es, p, extra[0], p);
      TellsNext(es + [extra[0]], p, pa, q);
      assert es + (extra + [pa]) == es + [extra[0]] + [pa];
    }
  }

  lemma AttemptTells(s: S.State, page: Page, env: Env, q: Page)
    requires Tells(S.Events(s, page.id), page) && Active(page.state) && Logs(env, EvPushAttempt)
    requires q == page.(state := if page.state.Created? then Pushed else page.state, attempt := page.attempt + 1)
    ensures Tells(S.Events(s, page.id) + AttemptEvents(s, page, env), q)
  {
    hide Tells, S.DevicesOf;
    var extra := if S.DevicesOf(s, page.recipientId) == {} then Kept(env, PageEvent(page.id, EvNoDevices, "", env.now))
      else [];
    TellsAttempt(S.Events(s, page.id), page, extra, PageEvent(page.id, EvPushAttempt, "", env.now), q);
  }

  lemma IdleTells(es: seq<PageEvent>, p: Page, e: PageEvent)
    requires Tells(es, p) && Active(p.state) && e.kind.EvNoDevices?
    ensures Tells(es + [e], p)
  {
    hide Tells;
    TellsNext(es, p, e, p);
  }

  lemma NewTimeline(s: S.State, page: Page)
    requires S.Events(s, page.id) == [PageEvent(page.id, EvCreated, "", page.createdAt)]
    requires page.state.Created? && page.attempt == -1
    ensures Tells(S.Events(s, page.id), page)
  {
    var es := S.Events(s, page.id);
    assert es[..0] == [];
  }

  /** The step appends a telling event to the timeline of page id, and the append fails. Losing a
      no_devices event does not count. */
  predicate AppendFails(c: Config, s: Step, id: string)
    requires Enabled(c, s)
  {
    match s
    case Deliver(i, env, _) =>
      var task := c.queue[i].task;
      task.pageId == id && EventCall in env.faults && (Attempts(c.store, task, env) || Expires(c.store, task, env))
    case AckCall(caller, acked, note, logFails) =>
      acked == id && logFails
      && Api.AckEffect(c.store, caller, id, note, c.now, true).store
         != Api.AckEffect(c.store, caller, id, note, c.now, false).store
    case ReceiptCall(caller, delivered, logFails) =>
      delivered == id && logFails
      && Api.ReceiptEffect(c.store, caller, id, c.now, true).store
         != Api.ReceiptEffect(c.store, caller, id, c.now, false).store
    case _ => false
  }

  ghost predicate Told(c: Config, id: string) {
    id in c.store.pages ==> Tells(S.Events(c.store, id), c.store.pages[id])
  }

  /** Appending to one timeline leaves the others as they are. */
  lemma OtherTimelines(s: S.State, t: S.State, id: string, es: seq<PageEvent>, k: string)
    requires LogsOnly(s, t, id, es)
    ensures k != id ==> S.Events(t, k) == S.Events(s, k)
    ensures S.Events(t, id) == S.Events(s, id) + es
  {
  }

  lemma AttemptTold(c: Config, i: nat, env: Env, end: Time, id: string)
    requires Inv(c) && Told(c, id) && Enabled(c, Deliver(i, env, end)) && !AppendFails(c, Deliver(i, env, end), id)
    requires Attempts(c.store, c.queue[i].task, env)
    ensures Told(DoDeliver(c, i, env, end), id)
  {
    hide Inv, Handle, S.Filed, Tells, LogsOnly, AttemptEvents, S.DevicesOf, S.Events, NextTask;
    var task := c.queue[i].task;
    var page := c.store.pages[task.pageId];
    var d := DoDeliver(c, i, env, end);
    Parts(c);
    AttemptIsNext(c, c.queue[i], env);
    DeliveryAttempts(c.store, task, env);
    OtherTimelines(c.store, d.store, task.pageId, AttemptEvents(c.store, page, env), id);
    if task.pageId == id {
      AttemptTells(c.store, page, env, d.store.pages[id]);
    }
  }

  lemma ExpireTold(c: Config, i: nat, env: Env, end: Time, id: string)
    requires Inv(c) && Told(c, id) && Enabled(c, Deliver(i, env, end)) && !AppendFails(c, Deliver(i, env, end), id)
    requires Expires(c.store, c.queue[i].task, env)
    ensures Told(DoDeliver(c, i, env, end), id)
  {
    hide Inv, Handle, S.Filed, Tells, LogsOnly, S.Events;
    var task := c.queue[i].task;
    var e := PageEvent(task.pageId, EvExpired, "", env.now);
    var d := DoDeliver(c, i, env, end);
    Parts(c);
    DeliveryExpires(c.store, task, env);
    OtherTimelines(c.store, d.store, task.pageId, Kept(env, e), id);
    if task.pageId == id {
      TellsNext(S.Events(c.store, id), c.store.pages[id], e, d.store.pages[id]);
    }
  }

  lemma IdleTold(c: Config, i: nat, env: Env, end: Time, id: string)
    requires Inv(c) && Told(c, id) && Enabled(c, Deliver(i, env, end))
    requires !Attempts(c.store, c.queue[i].task, env) && !Expires(c.store, c.queue[i].task, env)
    ensures Told(DoDeliver(c, i, env, end), id)
  {
    hide Inv, Handle, Attempts, Expires, S.Filed, Tells;
    var task := c.queue[i].task;
    var h := Handle(c.store, task, env);
    Parts(c);
    DeliveryIdles(c.store, task, env);
    if S.Events(h.store, id) != S.Events(c.store, id) {
      var e: PageEvent :| e.kind.EvNoDevices? && e.pageId == task.pageId
               && h.store.events == c.store.events[task.pageId := S.Events(c.store, task.pageId) + [e]];
      IdleTells(S.Events(c.store, id), c.store.pages[id], e);
    }
  }

  lemma DeliverTells(c: Config, i: nat, env: Env, end: Time, id: string)
    requires Inv(c) && Told(c, id) && Enabled(c, Deliver(i, env, end)) && !AppendFails(c, Deliver(i, env, end), id)
    ensures Told(DoDeliver(c, i, env, end), id)
  {
    hide Inv, Told, AppendFails, DoDeliver, Attempts, Expires;
    if Attempts(c.store, c.queue[i].task, env) {
      AttemptTold(c, i, env, end, id);
    } else if Expires(c.store, c.queue[i].task, env) {
      ExpireTold(c, i, env, end, id);
    } else {
      IdleTold(c, i, env, end, id);
    }
  }

  lemma CreateTells(c: Config, caller: string, recipient: string, message: string, key: string, other: string,
                    id: string)
    requires Inv(c) && Told(c, id)
    ensures Told(DoCreate(c, caller, recipient, message, key, other), id)
  {
    hide Inv, Tells;
    Parts(c);
    if id !in c.store.pages { NotYetTold(c, id); }
    var d := DoCreate(c, caller, recipient, message, key, other);
    if id in d.store.pages && id !in c.store.pages {
      NewTimeline(d.store, d.store.pages[id]);
    }
  }

  lemma NotYetTold(c: Config, id: string)
    requires Inv(c) && id !in c.store.pages
    ensures S.Events(c.store, id) == []
  {
  }

  /** An event that says how the page moved on keeps its timeline telling. */
  lemma WriteTells(s: S.State, id: string, q: Page, e: PageEvent, k: string)
    requires id in s.pages && Active(s.pages[id].state) && e.pageId == id
    requires k == id ==> Tells(S.Events(s, id), s.pages[id])
    requires Some(Progress(q.state, q.attempt))
      == Advance(Some(Progress(s.pages[id].state, s.pages[id].attempt)), e.kind)
    ensures var t := S.AppendEvent(s.(pages := s.pages[id := q]), e);
      if k == id then Tells(S.Events(t, k), q) else S.Events(t, k) == S.Events(s, k)
  {
    hide Tells;
    if k == id { TellsNext(S.Events(s, id), s.pages[id], e, q); }
  }

  lemma AckTells(c: Config, caller: string, acked: string, note: string, logFails: bool, id: string)
    requires Inv(c) && Told(c, id) && !AppendFails(c, AckCall(caller, acked, note, logFails), id)
    ensures Told(c.(store := Api.AckEffect(c.store, caller, acked, note, c.now, logFails).store), id)
  {
    hide Inv, Tells;
    if acked in c.store.pages && c.store.pages[acked].recipientId == caller && Active(c.store.pages[acked].state) {
      var q := c.store.pages[acked].(state := Acked, ackedAt := Some(c.now), ackNote := note);
      var e := PageEvent(acked, EvAcked, note, c.now);
      AppendShows(c.store.(pages := c.store.pages[acked := q]), e);
      WriteTells(c.store, acked, q, e, id);
    }
  }

  lemma ReceiptTells(c: Config, caller: string, delivered: string, logFails: bool, id: string)
    requires Inv(c) && Told(c, id) && !AppendFails(c, ReceiptCall(caller, delivered, logFails), id)
    ensures Told(c.(store := Api.ReceiptEffect(c.store, caller, delivered, c.now, logFails).store), id)
  {
    hide Inv, Tells;
    if delivered in c.store.pages && c.store.pages[delivered].recipientId == caller
       && (c.store.pages[delivered].state.Created? || c.store.pages[delivered].state.Pushed?) {
      var q := c.store.pages[delivered].(state := Delivered);
      var e := PageEvent(delivered, EvDelivered, "", c.now);
      AppendShows(c.store.(pages := c.store.pages[delivered := q]), e);
      WriteTells(c.store, delivered, q, e, id);
    }
  }

  lemma AppendShows(s: S.State, e: PageEvent)
    ensures S.AppendEvent(s, e) != s
  {
    assert |S.Events(S.AppendEvent(s, e), e.pageId)| == |S.Events(s, e.pageId)| + 1;
  }

  /** A step none of whose telling appends for the page fails keeps its timeline telling. */
  lemma StepTells(c: Config, s: Step, id: string)
    requires Inv(c) && Enabled(c, s) && Told(c, id) && !AppendFails(c, s, id)
    ensures Told(Apply(c, s), id)
  {
    hide Inv, Handle, DoDeliver, DoCreate, Bookkeep, S.Filed, Api.AckEffect, Api.ReceiptEffect, Tells;
    Parts(c);
    match s
    case BookkeepingCall(act) => BookkeepingLeavesPages(c.store, act, c.now);
    case CreateCall(caller, recipient, message, key, other) =>
      CreateTells(c, caller, recipient, message, key, other, id);
    case AckCall(caller, acked, note, logFails) => AckTells(c, caller, acked, note, logFails, id);
    case ReceiptCall(caller, delivered, logFails) => ReceiptTells(c, caller, delivered, logFails, id);
    case Deliver(i, env, end) => DeliverTells(c, i, env, end, id);
    case _ =>
  }
}
