/** What every reachable configuration of the protocol satisfies, proved once for all
    interleavings: each handler's assertion at its program counter is stable under whatever
    the others do (`Grows`), and each step re-establishes the assertion of its own handler. */
module ProtocolInvariant {
  import opened Model
  import opened Nag
  import opened Store
  import opened PagerRules
  import opened Protocol

  // ------------------------------------------------------------ how the store moves

  /** Pages are only ever added or advanced, idempotency keys only ever added. */
  ghost predicate StoreGrows(s: State, t: State) {
    && PagesAdvance(s, t)
    && forall k :: k in s.idem ==> k in t.idem && t.idem[k] == s.idem[k]
  }

  /** What any step by any other handler may do to what a handler relies on. */
  ghost predicate Grows(c: Config, d: Config) {
    && c.now <= d.now
    && StoreGrows(c.store, d.store)
    && HistoryGrows(c.hist, d.hist)
  }

  ghost predicate HistoryGrows(g: History, h: History) {
    && g.step <= h.step
    && (forall id :: id in g.high ==> id in h.high && g.high[id] <= h.high[id])
    && (forall id :: id in g.ackStep ==> id in h.ackStep && g.ackStep[id] == h.ackStep[id])
    && (forall id :: id in h.ackStep && id !in g.ackStep ==> h.ackStep[id] >= g.step)
  }

  // ------------------------------------------------------------ the invariant

  /** Page `page` was at some time the stored page, and the store can only have moved on since. */
  ghost predicate Snapshot(c: Config, page: Page) {
    && page.id in c.store.pages && page.id in c.hist.high
    && PageAdvances(page, c.store.pages[page.id])
    && page.attempt <= c.hist.high[page.id]
  }

  ghost predicate PageOK(c: Config, id: string) {
    && id in c.store.pages && id in c.hist.high
    && var p := c.store.pages[id];
    && p.id == id
    && p.expiresAt == p.createdAt + EXPIRY
    && p.createdAt <= c.now
    && (p.ackedAt.Some? <==> p.state.Acked?)
    && -1 <= p.attempt <= c.hist.high[id] <= 9
    && (id in c.hist.ackStep <==> p.state.Acked?)
    && (id in c.hist.ackStep ==> c.hist.ackStep[id] < c.hist.step)
  }

  /** A task never becomes visible before its attempt is due by the schedule. */
  ghost predicate MsgOK(c: Config, m: Msg) {
    && m.task.pageId in c.store.pages
    && 0 <= m.task.attempt <= |DELAYS|
    && m.ready >= c.store.pages[m.task.pageId].createdAt + Earliest(m.task.attempt)
  }

  ghost predicate Terminal(c: Config, id: string) {
    id in c.store.pages && !Active(c.store.pages[id].state)
  }

  ghost predicate Recorded(c: Config, id: string, attempt: int) {
    id in c.hist.high && attempt <= c.hist.high[id]
  }

  ghost predicate LoadOK(c: Config, m: Msg, page: Page, load: nat) {
    && MsgOK(c, m) && m.ready <= c.now
    && m.task.pageId == page.id
    && Snapshot(c, page) && Active(page.state)
    && page.ackedAt.None?
    && page.expiresAt == page.createdAt + EXPIRY
    && load < c.hist.step
    && (page.id in c.hist.ackStep ==> load < c.hist.ackStep[page.id])
  }

  ghost predicate JobOK(c: Config, job: Job) {
    && LoadOK(c, job.m, job.page, job.load)
    && job.m.ready <= job.at <= c.now
  }

  /** A job that got past the expiry check: its attempt number fits the expiry window. */
  ghost predicate InTime(job: Job) {
    job.at <= job.page.expiresAt && 0 <= job.m.task.attempt <= 9
  }

  ghost predicate FreshPage(c: Config, page: Page) {
    && page.state.Created? && page.attempt == -1 && page.ackedAt.None?
    && page.expiresAt == page.createdAt + EXPIRY
    && page.createdAt <= c.now
  }

  ghost predicate AckedAs(c: Config, id: string, ackedAt: Option<Time>, note: string) {
    && id in c.store.pages
    && c.store.pages[id].state.Acked?
    && c.store.pages[id].ackedAt == ackedAt
    && c.store.pages[id].ackNote == note
  }

  /** What a handler may rely on at each of its program counters. */
  ghost predicate ProcOK(c: Config, p: Proc) {
    match p
    case CreateAllowed(_, _, _, _) => true
    case CreateBuilt(page) => FreshPage(c, page)
    case CreateLost(_) => true
    case CreateStored(page) =>
      && page.id in c.store.pages
      && PageAdvances(page, c.store.pages[page.id])
      && page.createdAt <= c.now
      && page.idempotencyKey in c.store.idem && c.store.idem[page.idempotencyKey] == page.id
    case AckLoaded(page, _) => Snapshot(c, page)
    case AckTimed(page, _, _) => Snapshot(c, page)
    case AckStored(page) => page.state.Acked? && AckedAs(c, page.id, page.ackedAt, page.ackNote)
    case AckLost(id) => id in c.store.pages
    case ReceiptLoaded(page) => Snapshot(c, page) && page.attempt >= -1
    case ReceiptStored(_) => true
    case PagerLoaded(m, page, load) => LoadOK(c, m, page, load) && page.attempt >= -1
    case PagerExpiring(job) => JobOK(c, job) && job.page.attempt >= -1
    case PagerExpired(job) => JobOK(c, job) && Terminal(c, job.page.id)
    case PagerListing(job) => JobOK(c, job) && InTime(job)
    case PagerNoDevices(job) => JobOK(c, job) && InTime(job)
    case PagerPushing(job, _) => JobOK(c, job) && InTime(job)
    case PagerPruning(job, _) => JobOK(c, job) && InTime(job)
    case PagerRecording(job, round) =>
      && JobOK(c, job) && InTime(job)
      && (round >= 1 ==> Rank(c.store.pages[job.page.id].state) >= 2)
      && (round >= 2 ==> Rank(c.store.pages[job.page.id].state) >= 3)
      && round < |ROUNDS|
    case PagerRecorded(job, won) =>
      JobOK(c, job) && InTime(job)
      && (if won then Recorded(c, job.page.id, job.m.task.attempt) else Terminal(c, job.page.id))
    case PagerEnqueuing(job, won) =>
      JobOK(c, job) && InTime(job)
      && (if won then Recorded(c, job.page.id, job.m.task.attempt) else Terminal(c, job.page.id))
    case PagerDone(m) =>
      MsgOK(c, m) && (Terminal(c, m.task.pageId) || Recorded(c, m.task.pageId, m.task.attempt))
  }

  ghost predicate IdemOK(c: Config) {
    && (forall id :: id in c.store.pages ==>
          c.store.pages[id].idempotencyKey in c.store.idem && c.store.idem[c.store.pages[id].idempotencyKey] == id)
    && (forall k :: k in c.store.idem ==>
          c.store.idem[k] in c.store.pages && c.store.pages[c.store.idem[k]].idempotencyKey == k)
  }

  ghost predicate RepliesOK(c: Config) {
    && (forall r :: r in c.hist.ackReplies ==> r.state.Acked? && AckedAs(c, r.pageId, r.ackedAt, r.note))
    && (forall r :: r in c.hist.createReplies ==> r.key in c.store.idem && c.store.idem[r.key] == r.pageId)
  }

  /** Every push and every enqueue was made by a pager that had loaded the page before it was acked. */
  ghost predicate EffectsOK(c: Config) {
    forall e :: e in c.hist.effects ==>
      e.load < c.hist.step && (e.pageId in c.hist.ackStep ==> e.load < c.hist.ackStep[e.pageId])
  }

  ghost predicate PagesOK(c: Config) {
    && (forall id :: id in c.store.pages ==> PageOK(c, id))
    && (forall id :: id in c.hist.ackStep ==> id in c.store.pages)
    && (forall id :: id in c.hist.high ==> id in c.store.pages)
  }

  ghost predicate ProcsOK(c: Config) {
    forall pid :: pid in c.procs ==> ProcOK(c, c.procs[pid])
  }

  ghost predicate QueueOK(c: Config) {
    forall m :: m in c.queue ==> MsgOK(c, m)
  }

  ghost predicate Inv(c: Config) {
    PagesOK(c) && ProcsOK(c) && QueueOK(c) && IdemOK(c) && RepliesOK(c) && EffectsOK(c)
  }

  // ------------------------------------------------------------ stability

  lemma PageAdvancesTransitive(p: Page, q: Page, r: Page)
    requires PageAdvances(p, q) && PageAdvances(q, r)
    ensures PageAdvances(p, r)
  {
  }

  lemma SnapshotStable(c: Config, d: Config, page: Page)
    requires Grows(c, d) && Snapshot(c, page)
    ensures Snapshot(d, page)
  {
  }

  lemma MsgStable(c: Config, d: Config, m: Msg)
    requires Grows(c, d) && MsgOK(c, m)
    ensures MsgOK(d, m)
  {
  }

  lemma TerminalStable(c: Config, d: Config, id: string)
    requires Grows(c, d) && Terminal(c, id)
    ensures Terminal(d, id)
  {
  }

  lemma AckedStable(c: Config, d: Config, id: string, ackedAt: Option<Time>, note: string)
    requires Grows(c, d) && AckedAs(c, id, ackedAt, note)
    ensures AckedAs(d, id, ackedAt, note)
  {
  }

  lemma LoadStable(c: Config, d: Config, m: Msg, page: Page, load: nat)
    requires Grows(c, d) && LoadOK(c, m, page, load)
    ensures LoadOK(d, m, page, load)
  {
  }

  lemma {:induction false} ProcStable(c: Config, d: Config, p: Proc)
    requires Grows(c, d) && ProcOK(c, p)
    ensures ProcOK(d, p)
  {
    match p
    case CreateAllowed(_, _, _, _) =>
    case CreateBuilt(_) =>
    case CreateLost(_) =>
    case CreateStored(page) => PageAdvancesTransitive(page, c.store.pages[page.id], d.store.pages[page.id]);
    case AckLoaded(page, _) => SnapshotStable(c, d, page);
    case AckTimed(page, _, _) => SnapshotStable(c, d, page);
    case AckStored(page) => AckedStable(c, d, page.id, page.ackedAt, page.ackNote);
    case AckLost(_) =>
    case ReceiptLoaded(page) => SnapshotStable(c, d, page);
    case ReceiptStored(_) =>
    case PagerLoaded(m, page, load) => LoadStable(c, d, m, page, load);
    case PagerExpiring(job) => LoadStable(c, d, job.m, job.page, job.load);
    case PagerExpired(job) => LoadStable(c, d, job.m, job.page, job.load); TerminalStable(c, d, job.page.id);
    case PagerListing(job) => LoadStable(c, d, job.m, job.page, job.load);
    case PagerNoDevices(job) => LoadStable(c, d, job.m, job.page, job.load);
    case PagerPushing(job, _) => LoadStable(c, d, job.m, job.page, job.load);
    case PagerPruning(job, _) => LoadStable(c, d, job.m, job.page, job.load);
    case PagerRecording(job, round) =>
      LoadStable(c, d, job.m, job.page, job.load);
      assert PageAdvances(c.store.pages[job.page.id], d.store.pages[job.page.id]);
    case PagerRecorded(job, won) =>
      LoadStable(c, d, job.m, job.page, job.load);
      if !won { TerminalStable(c, d, job.page.id); }
    case PagerEnqueuing(job, won) =>
      LoadStable(c, d, job.m, job.page, job.load);
      if !won { TerminalStable(c, d, job.page.id); }
    case PagerDone(m) =>
      MsgStable(c, d, m);
      if Terminal(c, m.task.pageId) { TerminalStable(c, d, m.task.pageId); }
  }

  /** A step keeps everybody else's assertions, the queue and the replies; what remains is to
      look at what it added: pages, one handler, messages, replies, effects. */
  lemma Rely(c: Config, d: Config)
    requires Inv(c) && Grows(c, d)
    ensures forall pid :: pid in c.procs ==> ProcOK(d, c.procs[pid])
    ensures forall m :: m in c.queue ==> MsgOK(d, m)
    ensures forall r :: r in c.hist.ackReplies ==> r.state.Acked? && AckedAs(d, r.pageId, r.ackedAt, r.note)
    ensures forall r :: r in c.hist.createReplies ==> r.key in d.store.idem && d.store.idem[r.key] == r.pageId
    ensures forall e :: e in c.hist.effects ==>
      e.load < d.hist.step && (e.pageId in d.hist.ackStep ==> e.load < d.hist.ackStep[e.pageId])
  {
    forall pid | pid in c.procs ensures ProcOK(d, c.procs[pid]) { ProcStable(c, d, c.procs[pid]); }
    forall m | m in c.queue ensures MsgOK(d, m) { MsgStable(c, d, m); }
    forall r | r in c.hist.ackReplies ensures AckedAs(d, r.pageId, r.ackedAt, r.note) {
      AckedStable(c, d, r.pageId, r.ackedAt, r.note);
    }
  }

  // ------------------------------------------------------------ each step keeps the invariant

  /** A step after which everybody can still rely on what they relied on. */
  ghost predicate Kept(c: Config, d: Config) {
    Grows(c, d) && Inv(d)
  }

  /** A step that writes neither a page nor an idempotency key. */
  ghost predicate Quiet(c: Config, d: Config) {
    && c.now <= d.now
    && d.hist.step == c.hist.step + 1
    && d.store.pages == c.store.pages && d.store.idem == c.store.idem
    && d.hist.high == c.hist.high && d.hist.ackStep == c.hist.ackStep
  }

  lemma QuietGrows(c: Config, d: Config)
    requires PagesOK(c) && IdemOK(c) && Quiet(c, d)
    ensures Grows(c, d) && PagesOK(d) && IdemOK(d)
  {
    forall id | id in d.store.pages ensures PageOK(d, id) { assert PageOK(c, id); }
  }

  /** A step that writes the existing page id only. */
  ghost predicate Writes(c: Config, d: Config, id: string) {
    && c.now == d.now
    && d.hist.step == c.hist.step + 1
    && d.store.idem == c.store.idem
    && id in c.store.pages && id in c.hist.high && id in d.hist.high
    && id in d.store.pages && d.store.pages == c.store.pages[id := d.store.pages[id]]
    && d.hist.high == c.hist.high[id := d.hist.high[id]]
    && c.hist.high[id] <= d.hist.high[id]
    && PageAdvances(c.store.pages[id], d.store.pages[id])
  }

  lemma WriteKeepsPages(c: Config, d: Config, id: string)
    requires PagesOK(c) && Writes(c, d, id) && PageOK(d, id)
    requires d.hist.ackStep == c.hist.ackStep
          || (id !in c.hist.ackStep && d.hist.ackStep == c.hist.ackStep[id := c.hist.step])
    ensures PagesOK(d)
  {
    hide PageAdvances;
    forall k | k in d.store.pages ensures PageOK(d, k) { assert PageOK(c, k); }
  }

  lemma WriteAdvances(c: Config, d: Config, id: string)
    requires IdemOK(c) && Writes(c, d, id)
    ensures StoreGrows(c.store, d.store) && IdemOK(d)
  {
  }

  lemma WriteHistory(c: Config, d: Config, id: string)
    requires Writes(c, d, id)
    requires d.hist.ackStep == c.hist.ackStep
          || (id !in c.hist.ackStep && d.hist.ackStep == c.hist.ackStep[id := c.hist.step])
    ensures HistoryGrows(c.hist, d.hist) && c.now <= d.now
  {
  }

  lemma WriteGrows(c: Config, d: Config, id: string)
    requires PagesOK(c) && IdemOK(c) && Writes(c, d, id) && PageOK(d, id)
    requires d.hist.ackStep == c.hist.ackStep
          || (id !in c.hist.ackStep && d.hist.ackStep == c.hist.ackStep[id := c.hist.step])
    ensures Grows(c, d) && PagesOK(d) && IdemOK(d)
  {
    hide PagesOK, PageOK, IdemOK, StoreGrows, HistoryGrows, Writes;
    WriteKeepsPages(c, d, id);
    WriteAdvances(c, d, id);
    WriteHistory(c, d, id);
  }

  /** Whatever d has that c had not is as the invariant wants it. */
  ghost predicate AddsOnlyGood(c: Config, d: Config) {
    && (forall pid :: pid in d.procs ==> (pid in c.procs && d.procs[pid] == c.procs[pid]) || ProcOK(d, d.procs[pid]))
    && (forall m :: m in d.queue ==> m in c.queue || MsgOK(d, m))
    && (forall r :: r in d.hist.ackReplies ==>
          r in c.hist.ackReplies || (r.state.Acked? && AckedAs(d, r.pageId, r.ackedAt, r.note)))
    && (forall r :: r in d.hist.createReplies ==>
          r in c.hist.createReplies || (r.key in d.store.idem && d.store.idem[r.key] == r.pageId))
    && (forall e :: e in d.hist.effects ==>
          || e in c.hist.effects
          || (e.load < d.hist.step && (e.pageId in d.hist.ackStep ==> e.load < d.hist.ackStep[e.pageId])))
  }

  /** Everything that was there before is still fine, so d is if what it added is. */
  lemma Assemble(c: Config, d: Config)
    requires Inv(c) && Grows(c, d) && PagesOK(d) && IdemOK(d) && AddsOnlyGood(c, d)
    ensures Kept(c, d)
  {
    hide ProcOK, MsgOK, AckedAs, Grows, PagesOK, IdemOK;
    Rely(c, d);
  }

  /** What the invariant says about one handler and about the pages. */
  lemma Here(c: Config, pid: nat)
    requires Inv(c) && pid in c.procs
    ensures ProcOK(c, c.procs[pid])
  {
  }

  lemma Pages(c: Config)
    requires Inv(c)
    ensures PagesOK(c) && IdemOK(c)
  {
  }

  /** A quiet step that sets or moves one handler and adds nothing to what others look at. */
  ghost predicate Moved(c: Config, d: Config, pid: nat, p: Proc) {
    && Quiet(c, d)
    && d.procs == c.procs[pid := p]
    && d.now == c.now
    && d.queue == c.queue
    && d.hist.ackReplies == c.hist.ackReplies && d.hist.createReplies == c.hist.createReplies
    && d.hist.effects == c.hist.effects
  }

  lemma GotoMoves(c: Config, pid: nat, p: Proc)
    ensures Moved(c, Count1(Goto(c, pid, p)), pid, p)
  {
  }

  lemma QuietKeeps(c: Config, d: Config)
    requires Inv(c) && Quiet(c, d)
    requires Grows(c, d) ==> AddsOnlyGood(c, d)
    ensures Kept(c, d)
  {
    hide Inv, AddsOnlyGood, Quiet;
    Pages(c);
    QuietGrows(c, d);
    Assemble(c, d);
  }

  lemma Moves(c: Config, d: Config, pid: nat, p: Proc)
    requires Inv(c) && Moved(c, d, pid, p)
    requires Grows(c, d) ==> ProcOK(d, p)
    ensures Kept(c, d)
  {
    hide ProcOK, Inv, Grows, Kept;
    QuietKeeps(c, d);
  }

  /** A step that writes page id, moves one handler, and adds nothing else others look at. */
  ghost predicate Wrote(c: Config, d: Config, id: string, pid: nat, p: Proc) {
    && Writes(c, d, id)
    && d.procs == c.procs[pid := p]
    && d.queue == c.queue
    && d.hist.ackReplies == c.hist.ackReplies && d.hist.createReplies == c.hist.createReplies
    && d.hist.effects == c.hist.effects
    && (d.hist.ackStep == c.hist.ackStep
        || (id !in c.hist.ackStep && d.hist.ackStep == c.hist.ackStep[id := c.hist.step]))
  }

  /** The effects logged so far precede any acknowledgement logged now. */
  lemma WroteAddsOnlyGood(c: Config, d: Config, id: string, pid: nat, p: Proc)
    requires Wrote(c, d, id, pid, p) && ProcOK(d, p)
    ensures AddsOnlyGood(c, d)
  {
    hide ProcOK, Writes;
  }

  lemma WriteKeeps(c: Config, d: Config, id: string, pid: nat, p: Proc)
    requires Inv(c) && Wrote(c, d, id, pid, p) && PageOK(d, id)
    requires Grows(c, d) ==> ProcOK(d, p)
    ensures Kept(c, d)
  {
    hide ProcOK, Inv, PageOK, Grows, Writes, Kept, AddsOnlyGood;
    Pages(c);
    WriteGrows(c, d, id);
    WroteAddsOnlyGood(c, d, id, pid, p);
    Assemble(c, d);
  }

  lemma FiledPage(c: Config, id: string)
    requires Inv(c) && id in c.store.pages
    ensures c.store.pages[id].id == id
  {
  }

  // ------------------------------------------------------------ consent and creation

  lemma ShortKeeps(c: Config, s: Step)
    requires Inv(c) && Enabled(c, s) && PeopleStep(s)
    ensures Kept(c, Apply(c, s))
  {
    hide Inv, Grows, Kept, ProcOK, MsgOK, AckedAs;
    QuietKeeps(c, Apply(c, s));
  }

  lemma CreateBeginKeeps(c: Config, pid: nat, sender: string, recipient: string, message: string, key: string)
    requires Inv(c)
    ensures Kept(c, Count1(DoCreateBegin(c, pid, sender, recipient, message, key)))
  {
    hide Inv, Grows, Kept;
    var d := Count1(DoCreateBegin(c, pid, sender, recipient, message, key));
    Moves(c, d, pid, CreateAllowed(sender, recipient, message, key));
  }

  lemma CreateBuildKeeps(c: Config, pid: nat, id: string)
    requires Inv(c) && pid in c.procs && c.procs[pid].CreateAllowed?
    ensures Kept(c, Count1(DoCreateBuild(c, pid, id)))
  {
    hide Inv, Grows, Kept;
    var d := Count1(DoCreateBuild(c, pid, id));
    Here(c, pid);
    var p := c.procs[pid];
    Moves(c, d, pid, CreateBuilt(NewPage(id, p.sender, p.recipient, p.message, p.key, c.now, c.now + EXPIRY)));
  }

  /** The transaction passed: a page and its guard that were not there now are. */
  ghost predicate Stored(c: Config, d: Config, page: Page) {
    && FreshPage(c, page)
    && page.id !in c.store.pages && page.idempotencyKey !in c.store.idem
    && d.now == c.now && d.hist.step == c.hist.step + 1
    && d.store.pages == c.store.pages[page.id := page]
    && d.store.idem == c.store.idem[page.idempotencyKey := page.id]
    && d.hist.high == c.hist.high[page.id := -1]
    && d.hist.ackStep == c.hist.ackStep
  }

  lemma StoredPages(c: Config, d: Config, page: Page)
    requires PagesOK(c) && Stored(c, d, page)
    ensures PagesOK(d)
  {
    hide IdemOK;
    forall id | id in d.store.pages ensures PageOK(d, id) {
      if id != page.id { assert PageOK(c, id); }
    }
  }

  lemma StoredGrows(c: Config, d: Config, page: Page)
    requires PagesOK(c) && Stored(c, d, page)
    ensures Grows(c, d)
  {
    hide IdemOK, PageOK, FreshPage;
  }

  lemma StoredIdem(c: Config, d: Config, page: Page)
    requires IdemOK(c) && Stored(c, d, page)
    ensures IdemOK(d)
  {
    hide FreshPage;
  }

  lemma CreateCommitKeeps(c: Config, pid: nat)
    requires Inv(c) && pid in c.procs && c.procs[pid].CreateBuilt?
    ensures Kept(c, Count1(DoCreateCommit(c, pid)))
  {
    hide Inv, Grows, Kept, PagesOK, IdemOK, MsgOK, AckedAs;
    var d := Count1(DoCreateCommit(c, pid));
    var page := c.procs[pid].page;
    Here(c, pid);
    if page.id in c.store.pages || page.idempotencyKey in c.store.idem {
      Moves(c, d, pid, CreateLost(page.idempotencyKey));
    } else {
      Pages(c);
      StoredGrows(c, d, page);
      StoredPages(c, d, page);
      StoredIdem(c, d, page);
      Assemble(c, d);
    }
  }

  lemma CreateLookupKeeps(c: Config, pid: nat)
    requires Inv(c) && pid in c.procs && c.procs[pid].CreateLost?
    ensures Kept(c, Count1(DoCreateLookup(c, pid)))
  {
    hide Inv, Grows, Kept, ProcOK, MsgOK, AckedAs, PageOK;
    var key := c.procs[pid].key;
    Pages(c);
    if key in c.store.idem { FiledPage(c, c.store.idem[key]); }
    QuietKeeps(c, Count1(DoCreateLookup(c, pid)));
  }

  lemma CreateEnqueueKeeps(c: Config, pid: nat)
    requires Inv(c) && pid in c.procs && c.procs[pid].CreateStored?
    ensures Kept(c, Count1(DoCreateEnqueue(c, pid)))
  {
    hide Inv, Grows, Kept, AckedAs;
    Here(c, pid);
    var d := Count1(DoCreateEnqueue(c, pid));
    assert MsgOK(d, Msg(PageTask(c.procs[pid].page.id, 0), c.now));
    QuietKeeps(c, d);
  }

  // ------------------------------------------------------------ acknowledgements and receipts

  lemma SnapshotNow(c: Config, id: string)
    requires Inv(c) && id in c.store.pages
    ensures PageOK(c, id) && Snapshot(c, c.store.pages[id])
  {
  }

  lemma AckBeginKeeps(c: Config, pid: nat, id: string, note: string)
    requires Inv(c) && id in c.store.pages
    ensures Kept(c, Count1(Goto(c, pid, AckLoaded(c.store.pages[id], note))))
  {
    hide Inv, Grows, Kept, Snapshot, Goto, Count1;
    SnapshotNow(c, id);
    var p := AckLoaded(c.store.pages[id], note);
    var d := Count1(Goto(c, pid, p));
    GotoMoves(c, pid, p);
    if Grows(c, d) { SnapshotStable(c, d, c.store.pages[id]); }
    Moves(c, d, pid, p);
  }

  lemma AckClockKeeps(c: Config, pid: nat)
    requires Inv(c) && pid in c.procs && c.procs[pid].AckLoaded?
    ensures Kept(c, Count1(Goto(c, pid, AckTimed(c.procs[pid].page, c.procs[pid].note, c.now))))
  {
    hide Inv, Grows, Kept, Snapshot, Goto, Count1;
    Here(c, pid);
    var p := AckTimed(c.procs[pid].page, c.procs[pid].note, c.now);
    var d := Count1(Goto(c, pid, p));
    GotoMoves(c, pid, p);
    if Grows(c, d) { SnapshotStable(c, d, c.procs[pid].page); }
    Moves(c, d, pid, p);
  }

  lemma AckCommitKeeps(c: Config, pid: nat)
    requires Inv(c) && pid in c.procs && c.procs[pid].AckTimed?
    ensures Kept(c, Count1(DoAckCommit(c, pid)))
  {
    hide Inv, Grows, Kept, MsgOK;
    var d := Count1(DoAckCommit(c, pid));
    var p := c.procs[pid];
    Here(c, pid);
    SnapshotNow(c, p.page.id);
    if Active(c.store.pages[p.page.id].state) {
      WriteKeeps(c, d, p.page.id, pid, d.procs[pid]);
    } else {
      Moves(c, d, pid, AckLost(p.page.id));
    }
  }

  lemma AckEventKeeps(c: Config, pid: nat, stored: bool)
    requires Inv(c) && pid in c.procs && c.procs[pid].AckStored?
    ensures Kept(c, Count1(DoAckEvent(c, pid, stored)))
  {
    hide Inv, Grows, Kept, MsgOK;
    Here(c, pid);
    QuietKeeps(c, Count1(DoAckEvent(c, pid, stored)));
  }

  lemma AckRereadKeeps(c: Config, pid: nat)
    requires Inv(c) && pid in c.procs && c.procs[pid].AckLost?
    ensures Kept(c, Count1(DoAckReread(c, pid)))
  {
    hide Inv, Grows, Kept, MsgOK;
    Here(c, pid);
    SnapshotNow(c, c.procs[pid].id);
    QuietKeeps(c, Count1(DoAckReread(c, pid)));
  }

  lemma ReceiptBeginKeeps(c: Config, pid: nat, id: string)
    requires Inv(c) && id in c.store.pages
    ensures Kept(c, Count1(Goto(c, pid, ReceiptLoaded(c.store.pages[id]))))
  {
    hide Inv, Grows, Kept, Snapshot, Goto, Count1;
    SnapshotNow(c, id);
    var p := ReceiptLoaded(c.store.pages[id]);
    var d := Count1(Goto(c, pid, p));
    GotoMoves(c, pid, p);
    if Grows(c, d) { SnapshotStable(c, d, c.store.pages[id]); }
    Moves(c, d, pid, p);
  }

  lemma ReceiptCommitKeeps(c: Config, pid: nat)
    requires Inv(c) && pid in c.procs && c.procs[pid].ReceiptLoaded?
    ensures Kept(c, Count1(DoReceiptCommit(c, pid)))
  {
    hide Inv, Grows, Kept, MsgOK;
    var d := Count1(DoReceiptCommit(c, pid));
    var page := c.procs[pid].page;
    Here(c, pid);
    SnapshotNow(c, page.id);
    if c.store.pages[page.id].state in [Created, Pushed] {
      WriteKeeps(c, d, page.id, pid, ReceiptStored(page.id));
    } else {
      QuietKeeps(c, d);
    }
  }

  lemma ReceiptEventKeeps(c: Config, pid: nat, stored: bool)
    requires Inv(c) && pid in c.procs && c.procs[pid].ReceiptStored?
    ensures Kept(c, Count1(DoReceiptEvent(c, pid, stored)))
  {
    hide Inv, Grows, Kept, MsgOK, ProcOK, AckedAs;
    QuietKeeps(c, Count1(DoReceiptEvent(c, pid, stored)));
  }

  // ------------------------------------------------------------ the pager

  lemma PagerClockOK(c: Config, d: Config, p: Proc)
    requires p.PagerLoaded? && ProcOK(c, p) && Grows(c, d) && c.now == d.now
    ensures ProcOK(d, AfterClock(p, c.now))
  {
    LoadStable(c, d, p.m, p.page, p.load);
    LastAttemptOvershoots(p.m.task.attempt);
  }

  lemma PagerClockKeeps(c: Config, pid: nat)
    requires Inv(c) && pid in c.procs && c.procs[pid].PagerLoaded?
    ensures Kept(c, Count1(DoPagerClock(c, pid)))
  {
    hide Inv, ProcOK, Grows, Kept, Quiet, Goto, Count1, AfterClock;
    var d := Count1(DoPagerClock(c, pid));
    var q := AfterClock(c.procs[pid], c.now);
    Here(c, pid);
    GotoMoves(c, pid, q);
    if Grows(c, d) {
      PagerClockOK(c, d, c.procs[pid]);
    }
    Moves(c, d, pid, q);
  }

  lemma PagerLoadOK(c: Config, d: Config, m: Msg)
    requires MsgOK(c, m) && m.ready <= c.now == d.now && PageOK(c, m.task.pageId) && Grows(c, d)
      && d.hist.step > c.hist.step
    requires d.store.pages == c.store.pages && d.hist.ackStep == c.hist.ackStep
    ensures ProcOK(d, AfterLoad(m, GetPage(c.store, m.task.pageId), c.hist.step))
  {
  }

  lemma PagerLoadKeeps(c: Config, pid: nat, m: Msg)
    requires Inv(c) && m in c.queue && m.ready <= c.now
    ensures Kept(c, Count1(DoPagerLoad(c, pid, m)))
  {
    hide ProcOK, Grows, Kept, Goto, Count1, AfterLoad, PageOK;
    var d := Count1(DoPagerLoad(c, pid, m));
    var q := AfterLoad(m, GetPage(c.store, m.task.pageId), c.hist.step);
    assert MsgOK(c, m) && PageOK(c, m.task.pageId);
    GotoMoves(c, pid, q);
    if Grows(c, d) {
      PagerLoadOK(c, d, m);
    }
    Moves(c, d, pid, q);
  }

  lemma PagerExpireOK(c: Config, d: Config, job: Job)
    requires ProcOK(c, PagerExpiring(job)) && Grows(c, d) && Terminal(d, job.page.id)
    ensures ProcOK(d, PagerExpired(job))
  {
    LoadStable(c, d, job.m, job.page, job.load);
  }

  lemma PagerExpireKeeps(c: Config, pid: nat)
    requires Inv(c) && pid in c.procs && c.procs[pid].PagerExpiring?
    ensures Kept(c, Count1(DoPagerExpire(c, pid)))
  {
    hide Inv, Grows, Kept, MsgOK;
    var d := Count1(DoPagerExpire(c, pid));
    var job := c.procs[pid].job;
    var id := job.page.id;
    Here(c, pid);
    SnapshotNow(c, id);
    assert forall st :: Active(st) <==> st in ACTIVE_STATES;
    if Grows(c, d) { PagerExpireOK(c, d, job); }
    if Active(c.store.pages[id].state) {
      WriteKeeps(c, d, id, pid, PagerExpired(job));
    } else {
      Moves(c, d, pid, PagerExpired(job));
    }
  }

  lemma PagerExpireEventKeeps(c: Config, pid: nat, stored: bool)
    requires Inv(c) && pid in c.procs && c.procs[pid].PagerExpired?
    ensures Kept(c, Count1(DoPagerExpireEvent(c, pid, stored)))
  {
    hide Inv, Grows, Kept, MsgOK, Snapshot;
    Here(c, pid);
    var d := Count1(DoPagerExpireEvent(c, pid, stored));
    if Grows(c, d) { ProcStable(c, d, c.procs[pid]); }
    Moves(c, d, pid, d.procs[pid]);
  }

  /** From the listing up to recordAttempt the assertion is the same at every program counter. */
  lemma PushingKeeps(c: Config, d: Config, pid: nat, q: Proc)
    requires Inv(c) && pid in c.procs && Moved(c, d, pid, q)
    requires var p := c.procs[pid];
      p.PagerListing? || p.PagerNoDevices? || p.PagerPushing? || p.PagerPruning?
    requires q == PagerNoDevices(c.procs[pid].job) || q == PagerRecording(c.procs[pid].job, 0)
          || (q.PagerPushing? && q.job == c.procs[pid].job) || (q.PagerPruning? && q.job == c.procs[pid].job)
    ensures Kept(c, d)
  {
    hide Inv, Grows, Kept, LoadOK, Quiet;
    Here(c, pid);
    if Grows(c, d) { ProcStable(c, d, c.procs[pid]); }
    Moves(c, d, pid, q);
  }

  lemma PagerListKeeps(c: Config, pid: nat, devices: seq<Device>)
    requires Inv(c) && pid in c.procs && c.procs[pid].PagerListing?
    ensures Kept(c, Count1(DoPagerList(c, pid, devices)))
  {
    hide Inv, Grows, Kept, ProcOK;
    var d := Count1(DoPagerList(c, pid, devices));
    PushingKeeps(c, d, pid, d.procs[pid]);
  }

  lemma PagerNoDevicesEventKeeps(c: Config, pid: nat, stored: bool)
    requires Inv(c) && pid in c.procs && c.procs[pid].PagerNoDevices?
    ensures Kept(c, Count1(DoPagerNoDevicesEvent(c, pid, stored)))
  {
    hide Inv, Grows, Kept, ProcOK;
    var d := Count1(DoPagerNoDevicesEvent(c, pid, stored));
    PushingKeeps(c, d, pid, d.procs[pid]);
  }

  lemma PagerPruneKeeps(c: Config, pid: nat, deleted: bool)
    requires Inv(c) && pid in c.procs && c.procs[pid].PagerPruning? && c.procs[pid].todo != []
    ensures Kept(c, Count1(DoPagerPrune(c, pid, deleted)))
  {
    hide Inv, Grows, Kept, ProcOK;
    var d := Count1(DoPagerPrune(c, pid, deleted));
    PushingKeeps(c, d, pid, d.procs[pid]);
  }

  lemma PagerSendKeeps(c: Config, pid: nat, result: SendResult)
    requires Inv(c) && pid in c.procs && c.procs[pid].PagerPushing? && c.procs[pid].todo != []
    ensures Kept(c, Count1(DoPagerSend(c, pid, result)))
  {
    hide Inv, Grows, Kept, Snapshot, MsgOK, AckedAs;
    Here(c, pid);
    var d := Count1(DoPagerSend(c, pid, result));
    if Grows(c, d) { ProcStable(c, d, c.procs[pid]); }
    QuietKeeps(c, d);
  }

  lemma PagerRecordOK(c: Config, d: Config, p: Proc, q: Proc)
    requires p.PagerRecording? && ProcOK(c, p) && p.round < |ROUNDS| && Grows(c, d)
    requires var id := p.job.page.id; var attempt := p.job.m.task.attempt;
      if c.store.pages[id].state in ROUNDS[p.round].0 then
        q == PagerRecorded(p.job, true) && Recorded(d, id, attempt)
      else
        d.store.pages == c.store.pages
        && q == if p.round + 1 < |ROUNDS| then PagerRecording(p.job, p.round + 1) else PagerRecorded(p.job, false)
    ensures ProcOK(d, q)
  {
    hide MsgOK;
    LoadStable(c, d, p.job.m, p.job.page, p.job.load);
  }

  /** The three writes never lower the state: each one's target is its own state or the next. */
  lemma RoundsAscend(round: nat, st: PageState)
    requires round < |ROUNDS| && st in ROUNDS[round].0
    ensures Active(st) && Active(ROUNDS[round].1) && Rank(st) <= Rank(ROUNDS[round].1)
  {
  }

  lemma PagerRecordWrites(c: Config, pid: nat)
    requires pid in c.procs && c.procs[pid].PagerRecording? && c.procs[pid].round < |ROUNDS|
    requires ProcOK(c, c.procs[pid]) && PageOK(c, c.procs[pid].job.page.id)
    requires c.store.pages[c.procs[pid].job.page.id].state in ROUNDS[c.procs[pid].round].0
    ensures var d := Count1(DoPagerRecord(c, pid)); var p := c.procs[pid]; var id := p.job.page.id;
      && Wrote(c, d, id, pid, PagerRecorded(p.job, true))
      && PageOK(d, id)
      && Recorded(d, id, p.job.m.task.attempt)
  {
    hide MsgOK;
    var p := c.procs[pid];
    RoundsAscend(p.round, c.store.pages[p.job.page.id].state);
  }

  lemma PagerRecordLoses(c: Config, pid: nat)
    requires pid in c.procs && c.procs[pid].PagerRecording? && c.procs[pid].round < |ROUNDS|
    requires c.procs[pid].job.page.id in c.store.pages
    requires c.store.pages[c.procs[pid].job.page.id].state !in ROUNDS[c.procs[pid].round].0
    ensures var d := Count1(DoPagerRecord(c, pid)); var p := c.procs[pid];
      && d.store.pages == c.store.pages
      && Moved(c, d, pid,
           if p.round + 1 < |ROUNDS| then PagerRecording(p.job, p.round + 1) else PagerRecorded(p.job, false))
  {
  }

  lemma PagerRecordKeeps(c: Config, pid: nat)
    requires Inv(c) && pid in c.procs && c.procs[pid].PagerRecording? && c.procs[pid].round < |ROUNDS|
    ensures Kept(c, Count1(DoPagerRecord(c, pid)))
  {
    hide Inv, Grows, Kept, MsgOK, PageAdvances, DoPagerRecord, PageOK, Moved, Wrote;
    var d := Count1(DoPagerRecord(c, pid));
    var p := c.procs[pid];
    var id := p.job.page.id;
    Here(c, pid);
    SnapshotNow(c, id);
    if c.store.pages[id].state in ROUNDS[p.round].0 {
      PagerRecordWrites(c, pid);
      var q := PagerRecorded(p.job, true);
      if Grows(c, d) { PagerRecordOK(c, d, p, q); }
      WriteKeeps(c, d, id, pid, q);
    } else {
      PagerRecordLoses(c, pid);
      var q := if p.round + 1 < |ROUNDS| then PagerRecording(p.job, p.round + 1) else PagerRecorded(p.job, false);
      if Grows(c, d) { PagerRecordOK(c, d, p, q); }
      Moves(c, d, pid, q);
    }
  }

  lemma PagerPushEventKeeps(c: Config, pid: nat, stored: bool)
    requires Inv(c) && pid in c.procs && c.procs[pid].PagerRecorded?
    ensures Kept(c, Count1(DoPagerPushEvent(c, pid, stored)))
  {
    hide Inv, Grows, Kept, LoadOK;
    Here(c, pid);
    var d := Count1(DoPagerPushEvent(c, pid, stored));
    if Grows(c, d) { ProcStable(c, d, c.procs[pid]); }
    Moves(c, d, pid, d.procs[pid]);
  }

  /** The task a pager enqueues is due by the schedule, the exhausted branch is dead. */
  lemma PagerEnqueueOK(c: Config, d: Config, p: Proc)
    requires p.PagerEnqueuing? && ProcOK(c, p) && Grows(c, d)
    ensures var delay := FollowUp(p.job.m.task.attempt, p.job.at, p.job.page.expiresAt);
      && delay == NextDelay(p.job.m.task.attempt + 1) && delay.Some?
      && MsgOK(d, NextMsg(c.now, p.job, delay.value))
    ensures ProcOK(d, PagerDone(p.job.m))
  {
    ProcStable(c, d, p);
    ScheduleAdvances(p.job.m.task.attempt);
  }

  lemma PagerEnqueueKeeps(c: Config, pid: nat)
    requires Inv(c) && pid in c.procs && c.procs[pid].PagerEnqueuing?
    ensures Kept(c, Count1(DoPagerEnqueue(c, pid)))
  {
    hide Inv, Grows, Kept, MsgOK, Snapshot, AckedAs, FollowUp, NextDelay, NextMsg;
    Here(c, pid);
    var d := Count1(DoPagerEnqueue(c, pid));
    if Grows(c, d) { ProcStable(c, d, c.procs[pid]); PagerEnqueueOK(c, d, c.procs[pid]); }
    QuietKeeps(c, d);
  }

  lemma LeaveKeeps(c: Config, d: Config, pid: nat)
    requires Inv(c) && pid in c.procs
    requires d == Count1(Leave(c, pid))
      || (c.procs[pid].PagerDone? && exists b :: d == Count1(DoPagerFinish(c, pid, b)))
    ensures Kept(c, d)
  {
    hide Inv, Grows, Kept, MsgOK, ProcOK, AckedAs;
    QuietKeeps(c, d);
  }

  /** One step of any handler keeps the invariant and only moves things forward. */
  lemma StepKeeps(c: Config, s: Step)
    requires Inv(c) && Enabled(c, s)
    ensures Kept(c, Apply(c, s))
  {
    hide Inv, Grows, Kept, Count1, Goto, Leave, DoIssueInvite, DoRedeemInvite, DoCreateBegin, DoCreateBuild,
      DoCreateCommit, DoCreateLookup, DoCreateEnqueue, DoAckCommit, DoAckEvent, DoAckReread, DoReceiptCommit,
      DoReceiptEvent, DoPagerLoad, DoPagerClock, DoPagerExpire, DoPagerExpireEvent, DoPagerList,
      DoPagerNoDevicesEvent, DoPagerSend, DoPagerPrune, DoPagerRecord, DoPagerPushEvent, DoPagerEnqueue,
      DoPagerFinish, ListsDevices;
    match s
    case Tick(_) => ShortKeeps(c, s);
    case RegisterUser(_) => ShortKeeps(c, s);
    case RegisterDevice(_) => ShortKeeps(c, s);
    case IssueInvite(_) => ShortKeeps(c, s);
    case RedeemInvite(_, _, _) => ShortKeeps(c, s);
    case Block(_, _) => ShortKeeps(c, s);
    case CreateBegin(pid, sender, recipient, message, key) => CreateBeginKeeps(c, pid, sender, recipient, message, key);
    case CreateBuild(pid, id) => CreateBuildKeeps(c, pid, id);
    case CreateCommit(pid) => CreateCommitKeeps(c, pid);
    case CreateLookup(pid) => CreateLookupKeeps(c, pid);
    case CreateEnqueue(pid) => CreateEnqueueKeeps(c, pid);
    case AckBegin(pid, _, id, note) => AckBeginKeeps(c, pid, id, note);
    case AckClock(pid) => AckClockKeeps(c, pid);
    case AckCommit(pid) => AckCommitKeeps(c, pid);
    case AckEvent(pid, stored) => AckEventKeeps(c, pid, stored);
    case AckReread(pid) => AckRereadKeeps(c, pid);
    case ReceiptBegin(pid, _, id) => ReceiptBeginKeeps(c, pid, id);
    case ReceiptCommit(pid) => ReceiptCommitKeeps(c, pid);
    case ReceiptEvent(pid, stored) => ReceiptEventKeeps(c, pid, stored);
    case PagerLoad(pid, m) => PagerLoadKeeps(c, pid, m);
    case PagerClock(pid) => PagerClockKeeps(c, pid);
    case PagerExpire(pid) => PagerExpireKeeps(c, pid);
    case PagerExpireEvent(pid, stored) => PagerExpireEventKeeps(c, pid, stored);
    case PagerList(pid, devices) => PagerListKeeps(c, pid, devices);
    case PagerNoDevicesEvent(pid, stored) => PagerNoDevicesEventKeeps(c, pid, stored);
    case PagerSend(pid, result) => PagerSendKeeps(c, pid, result);
    case PagerPrune(pid, deleted) => PagerPruneKeeps(c, pid, deleted);
    case PagerRecord(pid) => PagerRecordKeeps(c, pid);
    case PagerPushEvent(pid, stored) => PagerPushEventKeeps(c, pid, stored);
    case PagerEnqueue(pid) => PagerEnqueueKeeps(c, pid);
    case PagerFinish(pid, deleted) => LeaveKeeps(c, Count1(DoPagerFinish(c, pid, deleted)), pid);
    case Crash(pid) => LeaveKeeps(c, Count1(Leave(c, pid)), pid);
  }

  lemma GrowsTransitive(c: Config, d: Config, e: Config)
    requires Grows(c, d) && Grows(d, e)
    ensures Grows(c, e)
  {
    forall id | id in c.store.pages ensures PageAdvances(c.store.pages[id], e.store.pages[id]) {
      PageAdvancesTransitive(c.store.pages[id], d.store.pages[id], e.store.pages[id]);
    }
  }

  lemma GrowsReflexive(c: Config)
    ensures Grows(c, c)
  {
  }

  lemma StartsWell(c: Config)
    requires Init(c)
    ensures Inv(c)
  {
  }

  /** Every configuration of every run satisfies the invariant. */
  lemma {:induction false} Reachable(cs: seq<Config>, steps: seq<Step>, i: nat)
    requires Run(cs, steps) && i < |cs|
    ensures Inv(cs[i])
  {
    hide Inv, Grows, Enabled, Apply, Init;
    if i == 0 {
      StartsWell(cs[0]);
    } else {
      Reachable(cs, steps, i - 1);
      StepKeeps(cs[i - 1], steps[i - 1]);
    }
  }

  lemma {:induction false} RunGrows(cs: seq<Config>, steps: seq<Step>, i: nat, j: nat)
    requires Run(cs, steps) && i <= j < |cs|
    ensures Grows(cs[i], cs[j])
    decreases j
  {
    hide Inv, Grows, Enabled, Apply;
    if i < j {
      RunGrows(cs, steps, i, j - 1);
      Reachable(cs, steps, j - 1);
      StepKeeps(cs[j - 1], steps[j - 1]);
      GrowsTransitive(cs[i], cs[j - 1], cs[j]);
    } else {
      GrowsReflexive(cs[i]);
    }
  }
}
