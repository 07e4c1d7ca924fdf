/** Exactly-once creation and consent, over whole runs and under free interleaving. */
module Creation {
  import opened Model
  import opened Nag
  import opened Store
  import opened PagerRules
  import opened Protocol
  import opened ProtocolInvariant
  import opened Frames

  // ------------------------------------------------------------ one page, one first task

  /** Every created page has had at most one attempt-0 task from the API, and none yet while its
      creator is still about to enqueue it; no two creators are about to enqueue for one page. */
  ghost predicate FirstOK(c: Config) {
    && (forall id :: id in c.hist.first ==> id in c.store.pages && c.hist.first[id] <= 1)
    && (forall pid :: pid in c.procs && c.procs[pid].CreateStored? ==>
          c.procs[pid].page.id in c.hist.first && c.hist.first[c.procs[pid].page.id] == 0)
    && (forall p, q | p in c.procs && q in c.procs && c.procs[p].CreateStored? && c.procs[q].CreateStored? ::
          c.procs[p].page.id == c.procs[q].page.id ==> p == q)
  }

  ghost predicate StartersKept(c: Config, d: Config) {
    && d.hist.first == c.hist.first
    && c.store.pages.Keys <= d.store.pages.Keys
    && forall pid :: pid in d.procs && d.procs[pid].CreateStored? ==> pid in c.procs && c.procs[pid] == d.procs[pid]
  }

  lemma KeptStartersKeep(c: Config, d: Config)
    requires FirstOK(c) && StartersKept(c, d)
    ensures FirstOK(d)
  {
  }

  lemma CreateCommitKeepsFirst(c: Config, pid: nat)
    requires FirstOK(c) && pid in c.procs && c.procs[pid].CreateBuilt?
    ensures FirstOK(Count1(DoCreateCommit(c, pid)))
  {
  }

  lemma CreateEnqueueKeepsFirst(c: Config, pid: nat)
    requires FirstOK(c) && pid in c.procs && c.procs[pid].CreateStored?
    ensures FirstOK(Count1(DoCreateEnqueue(c, pid)))
  {
  }

  lemma StepKeepsFirst(c: Config, s: Step)
    requires Enabled(c, s) && FirstOK(c)
    ensures FirstOK(Apply(c, s))
  {
    if s.CreateCommit? || s.CreateEnqueue? {
      CreateStepKeepsFirst(c, s);
    } else {
      OtherStepKeepsFirst(c, s);
    }
    hide *;
  }

  lemma CreateStepKeepsFirst(c: Config, s: Step)
    requires Enabled(c, s) && FirstOK(c) && (s.CreateCommit? || s.CreateEnqueue?)
    ensures FirstOK(Apply(c, s))
  {
    hide FirstOK, DoCreateCommit, DoCreateEnqueue, Count1;
    if s.CreateCommit? { CreateCommitKeepsFirst(c, s.pid); } else { CreateEnqueueKeepsFirst(c, s.pid); }
  }

  lemma OtherStepKeepsFirst(c: Config, s: Step)
    requires Enabled(c, s) && FirstOK(c) && !s.CreateCommit? && !s.CreateEnqueue?
    ensures FirstOK(Apply(c, s))
  {
    hide FirstOK, Apply, Enabled;
    StepFrame(c, s);
    forall q
      ensures Taker(s) != Some(q) && q in Apply(c, s).procs
        ==> q in c.procs && Apply(c, s).procs[q] == c.procs[q] {
      if Taker(s) != Some(q) { OthersStay(c, s, Apply(c, s), q); }
    }
    KeptStartersKeep(c, Apply(c, s));
  }

  /** At every moment of every run the idempotency map and the page map are in bijection, and the
      API has enqueued attempt 0 of any page at most once. */
  lemma {:induction false} CreatedExactlyOnce(cs: seq<Config>, steps: seq<Step>, i: nat)
    requires Run(cs, steps) && i < |cs|
    ensures IdemOK(cs[i])
    ensures FirstOK(cs[i])
  {
    hide Inv, Enabled, Apply;
    if i > 0 {
      CreatedExactlyOnce(cs, steps, i - 1);
      StepKeepsFirst(cs[i - 1], steps[i - 1]);
    }
    Reachable(cs, steps, i);
    Pages(cs[i]);
  }

  /** Two creates answered 200 or 201 for one idempotency key, at whatever times and by whatever
      handlers, name the same page, and that page exists with that key ever after. */
  lemma ReplaysAgree(cs: seq<Config>, steps: seq<Step>, i: nat, j: nat, r1: CreateReply, r2: CreateReply)
    requires Run(cs, steps) && i <= j < |cs|
    requires r1 in cs[i].hist.createReplies && r2 in cs[j].hist.createReplies && r1.key == r2.key
    ensures r1.pageId == r2.pageId
    ensures r1.pageId in cs[j].store.pages && cs[j].store.pages[r1.pageId].idempotencyKey == r1.key
  {
    hide Run;
    Reachable(cs, steps, i);
    Reachable(cs, steps, j);
    RunGrows(cs, steps, i, j);
  }

  /** A create whose key is taken changes neither the store nor the queue, then or when it looks
      the key up, and from any later configuration it would be answered with the first page. */
  lemma ReplayChangesNothing(cs: seq<Config>, steps: seq<Step>, i: nat, j: nat)
    requires Run(cs, steps) && i < j <= |steps| && Enabled(cs[i], steps[i]) && steps[i].CreateCommit?
    requires cs[i].procs[steps[i].pid].page.idempotencyKey in cs[i].store.idem
    ensures var key := cs[i].procs[steps[i].pid].page.idempotencyKey; var first := cs[i].store.idem[key];
      && cs[i + 1].store == cs[i].store && cs[i + 1].queue == cs[i].queue
      && cs[i + 1].procs == cs[i].procs[steps[i].pid := CreateLost(key)]
      && first in cs[j].store.pages
      && GetPageByIdempotencyKey(cs[j].store, key) == Ok(cs[j].store.pages[first])
      && cs[j].store.pages[first].id == first
  {
    assert cs[i + 1] == Apply(cs[i], steps[i]);
    LaterLookup(cs, steps, i, j, cs[i].procs[steps[i].pid].page.idempotencyKey);
  }

  lemma LaterLookup(cs: seq<Config>, steps: seq<Step>, i: nat, j: nat, key: string)
    requires Run(cs, steps) && i <= j < |cs| && key in cs[i].store.idem
    ensures key in cs[j].store.idem && cs[j].store.idem[key] == cs[i].store.idem[key]
    ensures cs[j].store.idem[key] in cs[j].store.pages
    ensures cs[j].store.pages[cs[j].store.idem[key]].id == cs[j].store.idem[key]
  {
    hide Run, Inv;
    RunGrows(cs, steps, i, j);
    Reachable(cs, steps, j);
    Pages(cs[j]);
    FiledPage(cs[j], cs[j].store.idem[key]);
  }
}

/** Consent: nobody can be paged without an accepted invite between the two. */
module Consent {
  import opened Model
  import opened Nag
  import opened Store
  import opened PagerRules
  import opened Protocol
  import opened ProtocolInvariant
  import opened ProtocolTheorems
  import opened Frames

  /** An invite of one was accepted by the other. */
  ghost predicate Joined(h: History, a: string, b: string) {
    (a, b) in h.accepts || (b, a) in h.accepts
  }

  ghost predicate ConsentOK(c: Config) {
    && (forall a, b :: (a, b) in c.store.pairings ==> (b, a) in c.store.pairings)
    && (forall a, b :: (a, b) in c.store.pairings ==> Joined(c.hist, a, b))
    && (forall code ::
         Count(c.hist.redeemed, code) + (if code in c.store.invites then 1 else 0) <= Count(c.hist.issued, code))
  }

  ghost predicate ConsentKept(c: Config, d: Config) {
    && d.store.pairings.Keys == c.store.pairings.Keys
    && d.store.invites == c.store.invites
    && d.hist.accepts == c.hist.accepts
    && d.hist.redeemed == c.hist.redeemed && d.hist.issued == c.hist.issued
  }

  lemma IssueKeeps(c: Config, inv: Invite)
    requires ConsentOK(c)
    ensures ConsentOK(Count1(DoIssueInvite(c, inv)))
  {
  }

  /** Accepting an invite consumes it and writes both copies of the pairing. */
  lemma RedeemKeeps(c: Config, code: string, accepter: User, checkedAt: Time)
    requires ConsentOK(c)
    ensures ConsentOK(Count1(DoRedeemInvite(c, code, accepter, checkedAt)))
  {
    var d := Count1(DoRedeemInvite(c, code, accepter, checkedAt));
    var (store, r) := AcceptInvite(c.store, code, accepter, checkedAt, c.now);
    if r.Ok? {
      assert (accepter.id, r.value.peerId) in d.hist.accepts;
      assert c.hist.accepts <= d.hist.accepts;
    }
  }

  lemma KeptKeeps(c: Config, d: Config)
    requires ConsentOK(c) && ConsentKept(c, d)
    ensures ConsentOK(d)
  {
  }

  lemma OtherKeeps(c: Config, s: Step)
    requires Enabled(c, s) && ConsentOK(c) && !s.IssueInvite? && !s.RedeemInvite?
    ensures ConsentOK(Apply(c, s))
  {
    hide ConsentOK, Apply, Enabled;
    StepFrame(c, s);
    KeptKeeps(c, Apply(c, s));
  }

  lemma StepKeepsConsent(c: Config, s: Step)
    requires Enabled(c, s) && ConsentOK(c)
    ensures ConsentOK(Apply(c, s))
  {
    hide ConsentOK, Count1, Goto, Leave, ListsDevices, DoIssueInvite, DoRedeemInvite, DoCreateBegin, DoCreateBuild,
      DoCreateCommit, DoCreateLookup, DoCreateEnqueue, DoAckCommit, DoAckEvent, DoAckReread, DoReceiptCommit,
      DoReceiptEvent, DoPagerLoad, DoPagerClock, DoPagerExpire, DoPagerExpireEvent, DoPagerList,
      DoPagerNoDevicesEvent, DoPagerSend, DoPagerPrune, DoPagerRecord, DoPagerPushEvent, DoPagerEnqueue,
      DoPagerFinish;
    match s
    case IssueInvite(inv) => IssueKeeps(c, inv);
    case RedeemInvite(code, accepter, checkedAt) => RedeemKeeps(c, code, accepter, checkedAt);
    case _ => OtherKeeps(c, s);
  }

  /** At every moment of every run: a pairing exists in both directions or in neither and comes
      from an accepted invite, and no code was accepted more often than it was issued. */
  lemma {:induction false} ConsentHistory(cs: seq<Config>, steps: seq<Step>, i: nat)
    requires Run(cs, steps) && i < |cs|
    ensures ConsentOK(cs[i])
  {
    hide Inv, Enabled, Apply, ConsentOK;
    if i > 0 {
      ConsentHistory(cs, steps, i - 1);
      StepKeepsConsent(cs[i - 1], steps[i - 1]);
    } else {
      NobodyYet(cs[0]);
    }
  }

  lemma NobodyYet(c: Config)
    requires Init(c)
    ensures ConsentOK(c)
  {
  }

  // ------------------------------------------------------------ each page by itself

  /** The handler is on its way to storing a page of this sender to this recipient. */
  predicate Composing(p: Proc, sender: string, recipient: string, message: string, key: string) {
    || p == CreateAllowed(sender, recipient, message, key)
    || (p.CreateBuilt?
        && (p.page.senderId, p.page.recipientId, p.page.message, p.page.idempotencyKey)
           == (sender, recipient, message, key))
  }

  /** Every stored page was stored by the commit of one create handler. */
  lemma {:induction false} StoredOrigin(cs: seq<Config>, steps: seq<Step>, i: nat, id: string) returns (m: nat)
    requires Run(cs, steps) && i < |cs| && id in cs[i].store.pages
    ensures m < i && steps[m].CreateCommit? && id !in cs[m].store.pages && id in cs[m + 1].store.pages
  {
    hide Enabled, Apply;
    assert i > 0;
    if id in cs[i - 1].store.pages {
      m := StoredOrigin(cs, steps, i - 1, id);
    } else {
      m := i - 1;
      StepFrame(cs[m], steps[m]);
    }
  }

  lemma CommitStores(c: Config, pid: nat, id: string)
    requires pid in c.procs && c.procs[pid].CreateBuilt?
    requires id !in c.store.pages && id in Count1(DoCreateCommit(c, pid)).store.pages
    ensures c.procs[pid].page.id == id && Count1(DoCreateCommit(c, pid)).store.pages[id] == c.procs[pid].page
  {
  }

  /** One step of composing: who composes either just began or was composing before. */
  lemma ComposingStep(c: Config, s: Step, pid: nat)
    requires Enabled(c, s)
    requires pid in Apply(c, s).procs && (Apply(c, s).procs[pid].CreateAllowed? || Apply(c, s).procs[pid].CreateBuilt?)
    ensures var q := Apply(c, s).procs[pid];
      if s.CreateBegin? && s.pid == pid then
        q == CreateAllowed(s.sender, s.recipient, s.message, s.key)
      else
        && pid in c.procs && (c.procs[pid].CreateAllowed? || c.procs[pid].CreateBuilt?)
        && forall a, b, msg, key :: Composing(c.procs[pid], a, b, msg, key) <==> Composing(q, a, b, msg, key)
  {
    StepFrame(c, s);
    hide Frame, ListsDevices;
    if Taker(s) != Some(pid) { OthersStay(c, s, Apply(c, s), pid); } else { TakenFrom(c, s, pid); }
  }

  lemma TakenFrom(c: Config, s: Step, pid: nat)
    requires Enabled(c, s) && Frame(c, s, Apply(c, s)) && Taker(s) == Some(pid) && pid in Apply(c, s).procs
    ensures Apply(c, s).procs[pid].CreateAllowed? ==> s.CreateBegin?
    ensures Apply(c, s).procs[pid].CreateBuilt? ==> s.CreateBuild?
  {
    hide Enabled, Apply;
  }

  /** Whoever composes at some moment began at an earlier one and has been composing since. */
  lemma {:induction false} ComposingOrigin(cs: seq<Config>, steps: seq<Step>, m: nat, pid: nat) returns (k: nat)
    requires Run(cs, steps) && m < |cs| && pid in cs[m].procs
    requires cs[m].procs[pid].CreateAllowed? || cs[m].procs[pid].CreateBuilt?
    ensures k < m && steps[k].CreateBegin? && steps[k].pid == pid
    ensures forall n :: k < n <= m ==>
      pid in cs[n].procs
        && Composing(cs[n].procs[pid], steps[k].sender, steps[k].recipient, steps[k].message, steps[k].key)
  {
    hide Enabled, Apply;
    assert m > 0;
    ComposingStep(cs[m - 1], steps[m - 1], pid);
    if steps[m - 1].CreateBegin? && steps[m - 1].pid == pid {
      k := m - 1;
    } else {
      k := ComposingOrigin(cs, steps, m - 1, pid);
    }
  }

  lemma BeganAllowed(c: Config, s: Step)
    requires Enabled(c, s) && s.CreateBegin?
    ensures (s.sender, s.recipient) in c.store.pairings
      && c.store.pairings[(s.sender, s.recipient)].status.PairingActive?
  {
  }

  lemma PairingJoined(c: Config, a: string, b: string)
    requires ConsentOK(c) && (a, b) in c.store.pairings
    ensures Joined(c.hist, a, b)
  {
  }

  /** Every stored page was consented to by itself: it was stored at an earlier moment m by a create
      handler that began at a moment k before and was in flight throughout, for this sender and this
      recipient, and at k the handler read the sender's own copy of the pairing as active, when the
      two had been joined by an accept. */
  lemma PageWasConsentedTo(cs: seq<Config>, steps: seq<Step>, i: nat, id: string) returns (k: nat, m: nat)
    requires Run(cs, steps) && i < |cs| && id in cs[i].store.pages
    ensures k < m < i && steps[k].CreateBegin? && steps[m] == CreateCommit(steps[k].pid)
    ensures id !in cs[m].store.pages && id in cs[m + 1].store.pages
    ensures var p := cs[i].store.pages[id]; var s := steps[k];
      && (s.sender, s.recipient, s.message, s.key) == (p.senderId, p.recipientId, p.message, p.idempotencyKey)
      && (forall n :: k < n <= m ==>
            s.pid in cs[n].procs && Composing(cs[n].procs[s.pid], s.sender, s.recipient, s.message, s.key))
      && (s.sender, s.recipient) in cs[k].store.pairings
      && cs[k].store.pairings[(s.sender, s.recipient)].status.PairingActive?
      && Joined(cs[k].hist, s.sender, s.recipient)
  {
    hide Enabled, Apply, ConsentOK, DoCreateCommit, Count1;
    m := StoredOrigin(cs, steps, i, id);
    var pid := steps[m].pid;
    WritersApply(cs[m], steps[m]);
    CommitStores(cs[m], pid, id);
    k := ComposingOrigin(cs, steps, m, pid);
    ForwardOnly(cs, steps, m + 1, i, id);
    BeganAllowed(cs[k], steps[k]);
    ConsentHistory(cs, steps, k);
    PairingJoined(cs[k], steps[k].sender, steps[k].recipient);
  }
}
