/** The main results about serial runs. */
module SerialTheorems {
  import opened Model
  import opened Nag
  import opened PagerRules
  import S = Store
  import opened Pager
  import Api
  import P = Protocol
  import opened Serial
  import opened Timelines

  /** A run from the empty system, with any allowance of duplicates and failures. */
  ghost predicate Run(cs: seq<Config>, steps: seq<Step>) {
    && |cs| == |steps| + 1
    && cs[0].store == S.EMPTY && cs[0].queue == [] && cs[0].recorded == map[]
    && Joined(cs, steps)
  }

  ghost predicate Joined(cs: seq<Config>, steps: seq<Step>) {
    && |cs| == |steps| + 1
    && forall i :: 0 <= i < |steps| ==> Enabled(cs[i], steps[i]) && cs[i + 1] == Apply(cs[i], steps[i])
  }

  lemma {:induction false} JoinedKeeps(cs: seq<Config>, steps: seq<Step>, i: nat)
    requires Joined(cs, steps) && Inv(cs[0]) && i < |cs|
    ensures Inv(cs[i])
  {
    hide Inv, Enabled, Apply;
    if i > 0 {
      JoinedKeeps(cs, steps, i - 1);
      StepKeeps(cs[i - 1], steps[i - 1]);
    }
  }

  lemma Reachable(cs: seq<Config>, steps: seq<Step>, i: nat)
    requires Run(cs, steps) && i < |cs|
    ensures Inv(cs[i])
  {
    hide Joined;
    assert Inv(cs[0]);
    JoinedKeeps(cs, steps, i);
  }

  /** No telling append to the timeline of page id failed in the first i steps. */
  ghost predicate AppendsSucceed(cs: seq<Config>, steps: seq<Step>, i: nat, id: string)
    requires Joined(cs, steps) && i <= |steps|
  {
    forall k :: 0 <= k < i ==> !AppendFails(cs[k], steps[k], id)
  }

  lemma {:induction false} RunTells(cs: seq<Config>, steps: seq<Step>, i: nat, id: string)
    requires Run(cs, steps) && i < |cs| && AppendsSucceed(cs, steps, i, id)
    ensures Told(cs[i], id)
  {
    hide Inv, Enabled, Apply, Tells, AppendFails;
    if i > 0 {
      RunTells(cs, steps, i - 1, id);
      Reachable(cs, steps, i - 1);
      StepTells(cs[i - 1], steps[i - 1], id);
    }
  }

  /** Timeline replay: as long as no telling append of a page has failed, folding the page's events
      gives its state and attempt, there is one push_attempt event per attempt, and a terminal event
      is there exactly when the page is terminal, only once, and last; whatever happened to the
      timelines of other pages. */
  lemma TimelineReplays(cs: seq<Config>, steps: seq<Step>, i: nat, id: string)
    requires Run(cs, steps) && i < |cs| && id in cs[i].store.pages && AppendsSucceed(cs, steps, i, id)
    ensures var p := cs[i].store.pages[id]; var es := S.Events(cs[i].store, id);
      && Replay(es) == Some(Progress(p.state, p.attempt))
      && PushCount(es) == p.attempt + 1
      && es != []
      && (Active(p.state) <==> !IsTerminalEvent(es[|es| - 1]))
      && forall k :: 0 <= k < |es| - 1 ==> !IsTerminalEvent(es[k])
  {
    hide Run;
    RunTells(cs, steps, i, id);
  }

  /** No forked chain: the attempts recorded on a page are exactly 0, 1, 2, ... in order, up to its
      current attempt and never beyond 9, and every queued task of an active page is for one of
      these attempts or for the next one. */
  lemma RecordedInOrder(cs: seq<Config>, steps: seq<Step>, i: nat, id: string)
    requires Run(cs, steps) && i < |cs| && id in cs[i].store.pages
    ensures var p := cs[i].store.pages[id];
      && -1 <= p.attempt <= 9
      && id in cs[i].recorded
      && |cs[i].recorded[id]| == p.attempt + 1
      && (forall k :: 0 <= k <= p.attempt ==> cs[i].recorded[id][k] == k)
      && (Active(p.state) ==>
            forall m :: m in cs[i].queue && m.task.pageId == id ==> 0 <= m.task.attempt <= p.attempt + 1)
  {
    hide Run, Inv;
    Reachable(cs, steps, i);
    PageHere(cs[i], id);
    Parts(cs[i]);
    assert forall m :: m in cs[i].queue ==> MsgOK(cs[i], m);
  }

  lemma DeliverKeepsAttempt(c: Config, i: nat, env: Env, end: Time, id: string)
    requires Inv(c) && Delivers(c, i, env, end) && id in c.store.pages
    ensures var d := DoDeliver(c, i, env, end);
      id in d.store.pages && c.store.pages[id].attempt <= d.store.pages[id].attempt
  {
    hide Inv, Handle, Attempts, Expires, S.Filed;
    var task := c.queue[i].task;
    Parts(c);
    if DeliveredAttempts(c, i, env, end) {
      AttemptIsNext(c, c.queue[i], env);
      DeliveryAttempts(c.store, task, env);
    } else if DeliveredExpires(c, i, env, end) {
      DeliveryExpires(c.store, task, env);
    } else {
      DeliveryIdles(c.store, task, env);
    }
  }

  /** In serial runs no step lowers a page's attempt. */
  lemma AttemptNeverFalls(c: Config, s: Step, id: string)
    requires Inv(c) && Enabled(c, s) && id in c.store.pages
    ensures id in Apply(c, s).store.pages && c.store.pages[id].attempt <= Apply(c, s).store.pages[id].attempt
  {
    hide Inv, Handle, DoDeliver, Bookkeep, S.Filed, S.AppendEvent;
    Parts(c);
    match s
    case Deliver(i, env, end) =>
      assert Delivers(c, i, env, end);
      DeliverKeepsAttempt(c, i, env, end, id);
    case BookkeepingCall(act) => BookkeepingLeavesPages(c.store, act, c.now);
    case CreateCall(caller, recipient, message, key, other) =>
      CreateKeepsAttempts(c, caller, recipient, message, key, other, id);
    case AckCall(caller, other, note, logFails) => AckKeepsAttempts(c.store, caller, other, note, c.now, logFails, id);
    case ReceiptCall(caller, other, logFails) => ReceiptKeepsAttempts(c.store, caller, other, c.now, logFails, id);
    case _ =>
  }

  lemma CreateKeepsAttempts(c: Config, caller: string, recipient: string, message: string, key: string, other: string,
                            id: string)
    requires id in c.store.pages
    ensures var d := DoCreate(c, caller, recipient, message, key, other);
      id in d.store.pages && d.store.pages[id] == c.store.pages[id]
  {
  }

  lemma AckKeepsAttempts(s: S.State, caller: string, other: string, note: string, now: Time, logFails: bool, id: string)
    requires id in s.pages
    ensures var t := Api.AckEffect(s, caller, other, note, now, logFails).store;
      id in t.pages && t.pages[id].attempt == s.pages[id].attempt
  {
  }

  lemma ReceiptKeepsAttempts(s: S.State, caller: string, other: string, now: Time, logFails: bool, id: string)
    requires id in s.pages
    ensures var t := Api.ReceiptEffect(s, caller, other, now, logFails).store;
      id in t.pages && t.pages[id].attempt == s.pages[id].attempt
  {
  }

  /** Between any two moments of a serial run a page's attempt only grows. */
  lemma {:induction false} AttemptIsMonotone(cs: seq<Config>, steps: seq<Step>, i: nat, j: nat, id: string)
    requires Run(cs, steps) && i <= j < |cs| && id in cs[i].store.pages
    ensures id in cs[j].store.pages && cs[i].store.pages[id].attempt <= cs[j].store.pages[id].attempt
    decreases j
  {
    hide Inv, Enabled, Apply;
    if i < j {
      AttemptIsMonotone(cs, steps, i, j - 1, id);
      Reachable(cs, steps, j - 1);
      AttemptNeverFalls(cs[j - 1], steps[j - 1], id);
    }
  }

  lemma Recorded(c: Config, id: string, k: int)
    requires Inv(c) && id in c.store.pages && id in c.recorded && k in c.recorded[id]
    ensures k <= c.store.pages[id].attempt
  {
    assert PageOK(c, id);
    UpToHolds(c.store.pages[id].attempt, k);
  }

  lemma UpToHolds(n: int, k: int)
    requires n >= -1 && k in UpTo(n)
    ensures 0 <= k <= n
  {
  }

  /** The guard: a task for an attempt the page has reached is dropped, or expires the page. */
  lemma ReachedTaskIsDropped(c: Config, i: nat, env: Env, end: Time)
    requires S.Filed(c.store) && Delivers(c, i, env, end)
    requires var task := c.queue[i].task;
      task.pageId in c.store.pages && task.attempt <= c.store.pages[task.pageId].attempt
    ensures var d := DoDeliver(c, i, env, end); var task := c.queue[i].task;
      && !Pushes(c.store, task, env) && Handle(c.store, task, env).next.None?
      && d.recorded == c.recorded && (forall m :: m in d.queue ==> m in c.queue)
      && (env.now <= c.store.pages[task.pageId].expiresAt ==> d.store == c.store)
  {
    hide S.Filed, AfterPush, Attempted, S.DevicesOf;
  }

  /** A recorded attempt stays recorded: once attempt k of a page is recorded, every later delivery
      of a task for it sends nothing, enqueues nothing, records nothing, and leaves the store alone
      unless the page is past its expiry. */
  lemma DuplicateIsInert(cs: seq<Config>, steps: seq<Step>, i: nat, j: nat, id: string, k: int)
    requires Run(cs, steps) && i <= j < |steps| && id in cs[i].store.pages
    requires id in cs[i].recorded && k in cs[i].recorded[id]
    requires steps[j].Deliver? && steps[j].i < |cs[j].queue| && cs[j].queue[steps[j].i].task == PageTask(id, k)
    ensures id in cs[j].store.pages
    ensures var task := PageTask(id, k); var env := steps[j].env;
      && !Pushes(cs[j].store, task, env) && Handle(cs[j].store, task, env).next.None?
      && cs[j + 1].recorded == cs[j].recorded && (forall m :: m in cs[j + 1].queue ==> m in cs[j].queue)
      && (env.now <= cs[j].store.pages[id].expiresAt ==> cs[j + 1].store == cs[j].store)
  {
    hide Inv, Handle, Pushes, DoDeliver;
    Reachable(cs, steps, i);
    Reachable(cs, steps, j);
    Recorded(cs[i], id, k);
    AttemptIsMonotone(cs, steps, i, j, id);
    Parts(cs[j]);
    assert Delivers(cs[j], steps[j].i, steps[j].env, steps[j].end);
    ReachedTaskIsDropped(cs[j], steps[j].i, steps[j].env, steps[j].end);
  }

  // ------------------------------------------------------------ every run drains

  function Weight(p: Page): nat {
    if Active(p.state) && p.attempt <= 10 then 10 - p.attempt else 0
  }

  ghost function Total(pages: map<string, Page>, ids: set<string>): nat
    requires ids <= pages.Keys
    decreases |ids|
  {
    if ids == {} then 0 else var id :| id in ids; Weight(pages[id]) + Total(pages, ids - {id})
  }

  lemma {:induction false} TotalAt(pages: map<string, Page>, ids: set<string>, x: string)
    requires ids <= pages.Keys && x in ids
    ensures Total(pages, ids) == Weight(pages[x]) + Total(pages, ids - {x})
    decreases |ids|
  {
    var id :| id in ids && Total(pages, ids) == Weight(pages[id]) + Total(pages, ids - {id});
    if id != x {
      TotalAt(pages, ids - {id}, x);
      TotalAt(pages, ids - {x}, id);
      assert ids - {id} - {x} == ids - {x} - {id};
    }
  }

  lemma {:induction false} TotalSame(pages: map<string, Page>, pages2: map<string, Page>, ids: set<string>)
    requires ids <= pages.Keys && ids <= pages2.Keys
    requires forall id :: id in ids ==> Weight(pages[id]) == Weight(pages2[id])
    ensures Total(pages, ids) == Total(pages2, ids)
    decreases |ids|
  {
    if ids != {} {
      var id :| id in ids;
      TotalAt(pages, ids, id);
      TotalAt(pages2, ids, id);
      TotalSame(pages, pages2, ids - {id});
    }
  }

  lemma TotalUpdate(pages: map<string, Page>, id: string, q: Page)
    requires id in pages
    ensures Total(pages[id := q], pages.Keys) == Total(pages, pages.Keys) - Weight(pages[id]) + Weight(q)
  {
    var pages2 := pages[id := q];
    TotalAt(pages, pages.Keys, id);
    TotalAt(pages2, pages.Keys, id);
    TotalSame(pages, pages2, pages.Keys - {id});
  }

  /** Attempts still possible on active pages, queued messages, and twice the allowance. */
  ghost function Measure(c: Config): nat {
    2 * c.budget + |c.queue| + Total(c.store.pages, c.store.pages.Keys)
  }

  predicate IsDelivery(s: Step) {
    s.Deliver? || s.Duplicate?
  }

  lemma AttemptDecreases(c: Config, i: nat, env: Env, end: Time)
    requires Inv(c) && Delivers(c, i, env, end) && Attempts(c.store, c.queue[i].task, env)
    ensures Measure(DoDeliver(c, i, env, end)) < Measure(c)
  {
    hide Inv, Handle, MsgOK, NextQueued, S.DevicesOf;
    var task := c.queue[i].task;
    var d := DoDeliver(c, i, env, end);
    Parts(c);
    AttemptIsNext(c, c.queue[i], env);
    DeliveryAttempts(c.store, task, env);
    AttemptQueue(c, i, env, end);
    TotalUpdate(c.store.pages, task.pageId, d.store.pages[task.pageId]);
    assert d.store.pages.Keys == c.store.pages.Keys;
  }

  lemma ExpireDecreases(c: Config, i: nat, env: Env, end: Time)
    requires Inv(c) && Delivers(c, i, env, end) && Expires(c.store, c.queue[i].task, env)
    ensures Measure(DoDeliver(c, i, env, end)) < Measure(c)
  {
    hide Inv, Handle, MsgOK, NextQueued, S.DevicesOf;
    var task := c.queue[i].task;
    var d := DoDeliver(c, i, env, end);
    Parts(c);
    DeliveryExpires(c.store, task, env);
    TotalUpdate(c.store.pages, task.pageId, d.store.pages[task.pageId]);
    assert d.store.pages.Keys == c.store.pages.Keys;
  }

  lemma IdleDecreases(c: Config, i: nat, env: Env, end: Time)
    requires Inv(c) && Delivers(c, i, env, end)
    requires !Attempts(c.store, c.queue[i].task, env) && !Expires(c.store, c.queue[i].task, env)
    ensures Measure(DoDeliver(c, i, env, end)) < Measure(c)
  {
    hide Inv, Handle, Attempts, Expires;
    Parts(c);
    DeliveryIdles(c.store, c.queue[i].task, env);
  }

  lemma DeliverDecreases(c: Config, i: nat, env: Env, end: Time)
    requires Inv(c) && Delivers(c, i, env, end)
    ensures Measure(DoDeliver(c, i, env, end)) < Measure(c)
  {
    hide Inv, DoDeliver, Attempts, Expires, Measure, Delivers;
    if DeliveredAttempts(c, i, env, end) {
      AttemptDecreases(c, i, env, end);
    } else if DeliveredExpires(c, i, env, end) {
      ExpireDecreases(c, i, env, end);
    } else {
      IdleDecreases(c, i, env, end);
    }
  }

  ghost predicate DeliveredAttempts(c: Config, i: nat, env: Env, end: Time)
    requires Delivers(c, i, env, end)
  {
    Attempts(c.store, c.queue[i].task, env)
  }

  ghost predicate DeliveredExpires(c: Config, i: nat, env: Env, end: Time)
    requires Delivers(c, i, env, end)
  {
    Expires(c.store, c.queue[i].task, env)
  }

  lemma WriteKeepsMeasure(c: Config, d: Config, id: string)
    requires id in c.store.pages && id in d.store.pages
    requires d.store.pages == c.store.pages[id := d.store.pages[id]] && d.queue == c.queue && d.budget == c.budget
    requires Weight(d.store.pages[id]) <= Weight(c.store.pages[id])
    ensures Measure(d) <= Measure(c)
  {
    TotalUpdate(c.store.pages, id, d.store.pages[id]);
    assert d.store.pages.Keys == c.store.pages.Keys;
  }

  /** A new page brings eleven units of its own and one message. */
  lemma CreateRaises(c: Config, caller: string, recipient: string, message: string, key: string, id: string)
    ensures Measure(DoCreate(c, caller, recipient, message, key, id)) <= Measure(c) + PER_PAGE
  {
    var d := DoCreate(c, caller, recipient, message, key, id);
    if id in d.store.pages && id !in c.store.pages {
      TotalAt(d.store.pages, d.store.pages.Keys, id);
      assert d.store.pages.Keys - {id} == c.store.pages.Keys;
      TotalSame(c.store.pages, d.store.pages, c.store.pages.Keys);
    }
  }

  /** What one page can add to the measure. */
  const PER_PAGE: nat := 12

  /** Each delivery and each duplication uses up some of the measure; waiting, acks and receipts
      use up none or some; only a create adds to it. */
  lemma StepDecreases(c: Config, s: Step)
    requires Inv(c) && Enabled(c, s)
    ensures Measure(Apply(c, s)) <= Measure(c) + if s.CreateCall? then PER_PAGE else 0
    ensures IsDelivery(s) ==> Measure(Apply(c, s)) < Measure(c)
  {
    hide Inv, DoDeliver, DoCreate, Handle, Bookkeep, S.Filed;
    Parts(c);
    var d := Apply(c, s);
    match s
    case BookkeepingCall(act) => BookkeepingLeavesPages(c.store, act, c.now);
    case CreateCall(caller, recipient, message, key, id) => CreateRaises(c, caller, recipient, message, key, id);
    case Deliver(i, env, end) =>
      assert Delivers(c, i, env, end);
      DeliverDecreases(c, i, env, end);
    case AckCall(_, id, _, _) => if d.store.pages != c.store.pages { WriteKeepsMeasure(c, d, id); }
    case ReceiptCall(_, id, _) => if d.store.pages != c.store.pages { WriteKeepsMeasure(c, d, id); }
    case _ =>
  }

  function Deliveries(steps: seq<Step>): nat {
    if steps == [] then 0 else Deliveries(steps[..|steps| - 1]) + if IsDelivery(steps[|steps| - 1]) then 1 else 0
  }

  function CreateCalls(steps: seq<Step>): nat {
    if steps == [] then 0 else CreateCalls(steps[..|steps| - 1]) + if steps[|steps| - 1].CreateCall? then 1 else 0
  }

  /** From any configuration of any run on, the number of deliveries, failed, duplicated or not, is
      bounded by the measure at that point and twelve for every create after it. */
  lemma {:induction false} DeliveriesAreBounded(cs: seq<Config>, steps: seq<Step>)
    requires Joined(cs, steps) && Inv(cs[0])
    ensures Deliveries(steps) + Measure(cs[|steps|]) <= Measure(cs[0]) + PER_PAGE * CreateCalls(steps)
    decreases |steps|
  {
    hide Inv, Enabled, Apply, Measure;
    if steps != [] {
      var n := |steps| - 1;
      DeliveriesAreBounded(cs[..n + 1], steps[..n]);
      JoinedKeeps(cs, steps, n);
      StepDecreases(cs[n], steps[n]);
    }
  }

  /** When the queue is empty, every page is acked or expired. */
  ghost predicate Settled(c: Config) {
    c.queue == [] && forall id :: id in c.store.pages ==>
      c.store.pages[id].state.Acked? || c.store.pages[id].state.Expired?
  }

  lemma EmptyQueueSettles(c: Config)
    requires Inv(c) && c.queue == []
    ensures Settled(c)
  {
    hide Inv, NextQueued;
    Parts(c);
    forall id | id in c.store.pages ensures c.store.pages[id].state.Acked? || c.store.pages[id].state.Expired? {
      PageHere(c, id);
      NoneQueued(c, id);
    }
  }

  lemma EmptyQueueMeansSettled(cs: seq<Config>, steps: seq<Step>, i: nat)
    requires Run(cs, steps) && i < |cs| && cs[i].queue == []
    ensures Settled(cs[i])
  {
    hide Run, Inv, Settled;
    Reachable(cs, steps, i);
    EmptyQueueSettles(cs[i]);
  }

  lemma NoneQueued(c: Config, id: string)
    requires id in c.store.pages && c.queue == []
    ensures !NextQueued(c, id)
  {
  }

  /** While the queue is not empty, waiting long enough makes its first message deliverable
      without error: the system is never stuck short of the settled state. */
  lemma NeverStuck(c: Config)
    requires c.queue != []
    ensures exists d: Duration ::
      && Enabled(c, Wait(d))
      && Enabled(Apply(c, Wait(d)), Deliver(0, Calm(c.now + d), c.now + d))
  {
    var d := if c.queue[0].ready > c.now then c.queue[0].ready - c.now else 0;
    var env := Calm(c.now + d);
    NoFaultNoFailure(c.store, c.queue[0].task, env);
    hide Handle;
    assert Enabled(c, Wait(d));
    assert Enabled(Apply(c, Wait(d)), Deliver(0, Calm(c.now + d), c.now + d));
  }

  lemma NoFaultNoFailure(s: S.State, task: PageTask, env: Env)
    requires env.faults == {}
    ensures !Handle(s, task, env).failed
  {
  }

  lemma Prepend(c: Config, s: Step, cs: seq<Config>, steps: seq<Step>)
    requires Enabled(c, s) && Joined(cs, steps) && cs[0] == Apply(c, s)
    ensures Joined([c] + cs, [s] + steps)
  {
    hide Enabled, Apply;
    var ds, ts := [c] + cs, [s] + steps;
    forall i | 0 <= i < |ts| ensures Enabled(ds[i], ts[i]) && ds[i + 1] == Apply(ds[i], ts[i]) {
      if i > 0 { assert ts[i] == steps[i - 1] && ds[i] == cs[i - 1] && ds[i + 1] == cs[i]; }
    }
  }

  /** One message is delivered after a wait, and the measure falls. */
  lemma DeliverFirst(c: Config) returns (w: Step, d: Step)
    requires Inv(c) && c.queue != []
    ensures w.Wait? && Enabled(c, w) && d.Deliver? && Enabled(Apply(c, w), d)
    ensures Inv(Apply(Apply(c, w), d)) && Measure(Apply(Apply(c, w), d)) < Measure(c)
  {
    NeverStuck(c);
    var t: Duration :| Enabled(c, Wait(t)) && Enabled(Apply(c, Wait(t)), Deliver(0, Calm(c.now + t), c.now + t));
    w, d := Wait(t), Deliver(0, Calm(c.now + t), c.now + t);
    hide Inv, Enabled, Apply, Measure;
    StepKeeps(c, w);
    StepDecreases(c, w);
    StepKeeps(Apply(c, w), d);
    StepDecreases(Apply(c, w), d);
  }

  /** Every run can be drained: from any configuration it reaches there is a continuation of waits
      and deliveries that empties the queue with every page acked or expired. */
  lemma {:induction false} Drains(c: Config) returns (cs: seq<Config>, steps: seq<Step>)
    requires Inv(c)
    ensures Joined(cs, steps) && cs[0] == c && Settled(cs[|steps|])
    ensures forall s :: s in steps ==> s.Wait? || s.Deliver?
    decreases Measure(c)
  {
    hide Inv, Enabled, Apply, Measure, Settled;
    if c.queue == [] {
      cs, steps := [c], [];
      EmptyQueueSettles(c);
    } else {
      var w, d := DeliverFirst(c);
      var next := Apply(c, w);
      cs, steps := Drains(Apply(next, d));
      Prepend(next, d, cs, steps);
      Prepend(c, w, [next] + cs, [d] + steps);
      cs, steps := [c] + ([next] + cs), [w] + ([d] + steps);
    }
  }

  /** The same for runs. */
  lemma EveryRunCanSettle(cs: seq<Config>, steps: seq<Step>, i: nat) returns (ds: seq<Config>, ts: seq<Step>)
    requires Run(cs, steps) && i < |cs|
    ensures Joined(ds, ts) && ds[0] == cs[i] && Settled(ds[|ts|])
    ensures forall s :: s in ts ==> s.Wait? || s.Deliver?
  {
    hide Run, Inv, Settled;
    Reachable(cs, steps, i);
    ds, ts := Drains(cs[i]);
  }
}
