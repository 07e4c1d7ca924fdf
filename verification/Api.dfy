/** The API handlers that take part in the protocol, each as it is written: a sequence of store
    and queue calls (backend/internal/api/handlers.go). Validation of fields, identity and the
    mapping to status codes are not modelled; an answer says which of the outcomes it is. */
module Api {
  import opened Model
  import opened Nag
  import S = Store
  import Fake
  import opened Pager

  datatype Answer =
    | NotPaired               // 403: no pairing, or a blocked one
    | Made(page: Page)        // 201
    | Original(page: Page)    // 200: a replayed idempotency key
    | Clash                   // 409
    | Unscheduled             // 500: stored, but not enqueued
    | NoSuchPage              // 404
    | AckedPage(page: Page)   // 200
    | Done                    // 204
    | Paired(pairing: Pairing)  // 200
    | NoSuchInvite            // 404
    | OwnInvite               // 400: the caller's own invite, spent all the same
    | NoSuchPairing           // 404
    | Broken                  // 500

  /** What one call did to the store and the queue, and what it answered. */
  datatype Effect = Effect(store: S.State, next: Option<QueuedTask>, answer: Answer)

  function CreateEffect(s: S.State, caller: string, recipient: string, message: string, key: string,
                        id: string, now: Time, enqueueFails: bool): Effect {
    if (caller, recipient) !in s.pairings || s.pairings[(caller, recipient)].status.PairingBlocked? then
      Effect(s, None, NotPaired)
    else if id !in s.pages && key !in s.idem then
      var page := NewPage(id, caller, recipient, message, key, now, now + EXPIRY);
      var stored := S.CreatePage(s, page).0;
      if enqueueFails then Effect(stored, None, Unscheduled)
      else Effect(stored, Some(QueuedTask(PageTask(id, 0), 0)), Made(page))
    else if key in s.idem && s.idem[key] in s.pages then
      Effect(s, None, Original(s.pages[s.idem[key]]))
    else
      Effect(s, None, Clash)
  }

  /** `logFails` says that the event cannot be appended, which the handler only logs. */
  function AckEffect(s: S.State, caller: string, id: string, note: string, now: Time, logFails: bool): Effect {
    if id !in s.pages || s.pages[id].recipientId != caller then
      Effect(s, None, NoSuchPage)
    else if Active(s.pages[id].state) then
      var acked := s.pages[id].(state := Acked, ackedAt := Some(now), ackNote := note);
      Effect(S.MaybeAppend(s.(pages := s.pages[id := acked]), PageEvent(id, EvAcked, note, now), !logFails), None,
        AckedPage(acked))
    else if s.pages[id].state.Acked? then
      Effect(s, None, AckedPage(s.pages[id]))
    else
      Effect(s, None, Clash)
  }

  function ReceiptEffect(s: S.State, caller: string, id: string, now: Time, logFails: bool): Effect {
    if id !in s.pages || s.pages[id].recipientId != caller then
      Effect(s, None, NoSuchPage)
    else if s.pages[id].state.Created? || s.pages[id].state.Pushed? then
      Effect(
        S.MaybeAppend(s.(pages := s.pages[id := s.pages[id].(state := Delivered)]),
                      PageEvent(id, EvDelivered, "", now), !logFails),
        None, Done)
    else
      Effect(s, None, Done)
  }

  function EnsureUserEffect(s: S.State, caller: string, name: string, now: Time): (S.State, User) {
    if caller in s.users then (s, s.users[caller])
    else var u := User(caller, name, now); (S.PutUser(s, u), u)
  }

  function AcceptEffect(s: S.State, caller: string, name: string, code: string, checkedAt: Time, now: Time): Effect {
    var (known, accepter) := EnsureUserEffect(s, caller, name, checkedAt);
    var (store, r) := S.AcceptInvite(known, code, accepter, checkedAt, now);
    Effect(store, None,
           match r
           case Err(error) => if error.Internal? then Broken else NoSuchInvite
           case Ok(pairing) => if pairing.peerId == caller then OwnInvite else Paired(pairing))
  }

  function BlockEffect(s: S.State, caller: string, peerId: string): Effect {
    var (store, r) := S.BlockPairing(s, caller, peerId);
    Effect(store, None, if r.Pass? then Done else NoSuchPairing)
  }

  class Server {
    const store: Fake.Store
    const queue: Enqueuer

    constructor (store: Fake.Store, queue: Enqueuer)
      ensures this.store == store && this.queue == queue
    {
      this.store, this.queue := store, queue;
    }

    /** POST /pages. The page id and the clock reading come from outside. */
    method HandleCreatePage(caller: string, recipient: string, message: string, key: string,
                            id: string, now: Time, enqueueFails: bool) returns (answer: Answer)
      modifies store, queue
      ensures var e := CreateEffect(old(store.Value()), caller, recipient, message, key, id, now, enqueueFails);
        && store.Value() == e.store && answer == e.answer
        && queue.tasks == if e.next.Some? then old(queue.tasks) + [e.next.value] else old(queue.tasks)
    {
      var pairing := store.GetPairing(caller, recipient);
      if pairing.Err? {
        return NotPaired;
      }
      if pairing.value.status != PairingActive {
        return NotPaired;
      }
      var page := Page(id, caller, recipient, message, Created, -1, key, now, now + EXPIRY, None, "");
      var r := store.CreatePage(page);
      if r.Fail? {
        var original := store.GetPageByIdempotencyKey(key);
        if original.Ok? {
          return Original(original.value);
        }
        return Clash;
      }
      var ok := queue.Enqueue(PageTask(page.id, 0), 0, enqueueFails);
      if !ok {
        return Unscheduled;
      }
      return Made(page);
    }

    /** POST /pages/{id}/ack. */
    method HandleAckPage(caller: string, id: string, note: string, now: Time, logFails: bool) returns (answer: Answer)
      requires S.Filed(store.Value())
      modifies store
      ensures var e := AckEffect(old(store.Value()), caller, id, note, now, logFails);
        store.Value() == e.store && answer == e.answer
    {
      var loaded := store.GetPage(id);
      if loaded.Err? {
        return NoSuchPage;
      }
      var page := loaded.value;
      if page.recipientId != caller {
        return NoSuchPage;
      }
      var r := store.AckPage(id, note, now);
      if r.Fail? {
        var current := store.GetPage(id);
        if current.Ok? && current.value.state.Acked? {
          return AckedPage(current.value);
        }
        return Clash;
      }
      if !logFails {
        store.AppendEvent(PageEvent(id, EvAcked, note, now));
      }
      page := page.(state := Acked, ackedAt := Some(now), ackNote := note);
      return AckedPage(page);
    }

    /** POST /pages/{id}/delivered. */
    method HandleDeliveredReceipt(caller: string, id: string, now: Time, logFails: bool) returns (answer: Answer)
      requires S.Filed(store.Value())
      modifies store
      ensures var e := ReceiptEffect(old(store.Value()), caller, id, now, logFails);
        store.Value() == e.store && answer == e.answer
    {
      var loaded := store.GetPage(id);
      if loaded.Err? {
        return NoSuchPage;
      }
      var page := loaded.value;
      if page.recipientId != caller {
        return NoSuchPage;
      }
      var r := store.SetPageState(id, [Created, Pushed], Delivered, page.attempt);
      if r.Pass? && !logFails {
        store.AppendEvent(PageEvent(id, EvDelivered, "", now));
      }
      return Done;
    }

    method EnsureUser(caller: string, name: string, now: Time) returns (u: User)
      modifies store
      ensures (store.Value(), u) == EnsureUserEffect(old(store.Value()), caller, name, now)
    {
      var r := store.GetUser(caller);
      if r.Ok? {
        return r.value;
      }
      u := User(caller, name, now);
      store.PutUser(u);
    }

    /** POST /invites/{code}/accept. Accepting one's own invite is noticed after the write. */
    method HandleAcceptInvite(caller: string, name: string, code: string, checkedAt: Time, now: Time)
        returns (answer: Answer)
      requires S.Filed(store.Value())
      modifies store
      ensures var e := AcceptEffect(old(store.Value()), caller, name, code, checkedAt, now);
        store.Value() == e.store && answer == e.answer
    {
      var accepter := EnsureUser(caller, name, checkedAt);
      var r := store.AcceptInvite(code, accepter, checkedAt, now);
      if r.Err? {
        if r.error == S.NotFound || r.error == S.Conflict {
          return NoSuchInvite;
        }
        return Broken;
      }
      if r.value.peerId == caller {
        return OwnInvite;
      }
      return Paired(r.value);
    }

    /** POST /pairings/{peerID}/block. */
    method HandleBlockPairing(caller: string, peerId: string) returns (answer: Answer)
      modifies store
      ensures var e := BlockEffect(old(store.Value()), caller, peerId);
        store.Value() == e.store && answer == e.answer
    {
      var r := store.BlockPairing(caller, peerId);
      if r.Fail? {
        return NoSuchPairing;
      }
      return Done;
    }
  }

  predicate MayPage(s: S.State, caller: string, recipient: string) {
    (caller, recipient) in s.pairings && s.pairings[(caller, recipient)].status.PairingActive?
  }

  /** The timeline of page id got longer by es, and no other changed. */
  ghost predicate LogsAt(s: S.State, t: S.State, id: string, es: seq<PageEvent>) {
    S.Events(t, id) == S.Events(s, id) + es && forall k :: k != id ==> S.Events(t, k) == S.Events(s, k)
  }

  /** How an accept ends: by the invite's expiry, by whose invite it is, and by whether its creator
      has a row by then. */
  lemma AcceptAnswersExactly(s: S.State, caller: string, name: string, code: string, checkedAt: Time, now: Time)
    ensures var answer := AcceptEffect(s, caller, name, code, checkedAt, now).answer;
      var live := code in s.invites && checkedAt < s.invites[code].expiresAt;
      && (answer == NoSuchInvite <==> !live)
      && (answer == OwnInvite <==> live && s.invites[code].creatorId == caller)
      && (answer == Broken <==>
            live && s.invites[code].creatorId != caller && s.invites[code].creatorId !in s.users)
      && (answer.Paired? <==>
            live && s.invites[code].creatorId != caller && s.invites[code].creatorId in s.users)
  {
  }

  /** What an accept does to the users, however it ends: a row that is there stays as it is, and the
      only new one is the caller's, if it was missing. */
  lemma AcceptKnowsTheCaller(s: S.State, caller: string, name: string, code: string, checkedAt: Time, now: Time)
    ensures var users := AcceptEffect(s, caller, name, code, checkedAt, now).store.users;
      && users.Keys == s.users.Keys + {caller}
      && (forall u :: u in s.users ==> users[u] == s.users[u])
      && (caller !in s.users ==>
            users[caller].id == caller && users[caller].displayName == name && users[caller].createdAt == checkedAt)
  {
    hide S.AcceptInvite;
    var (known, accepter) := EnsureUserEffect(s, caller, name, checkedAt);
    AcceptLeavesUsers(known, code, accepter, checkedAt, now);
  }

  lemma AcceptLeavesUsers(s: S.State, code: string, accepter: User, checkedAt: Time, now: Time)
    ensures S.AcceptInvite(s, code, accepter, checkedAt, now).0.users == s.users
  {
  }

  /** What an accept that pairs does to the rest: the invite is gone, and each of the two holds an
      active copy of this moment with the other's stored display name; nothing else moves. */
  lemma AcceptNamesThePeers(s: S.State, caller: string, name: string, code: string, checkedAt: Time, now: Time)
    requires S.Filed(s) && AcceptEffect(s, caller, name, code, checkedAt, now).answer.Paired?
    ensures var e := AcceptEffect(s, caller, name, code, checkedAt, now); var peer := e.answer.pairing.peerId;
      && peer in s.users && (caller, peer) in e.store.pairings && (peer, caller) in e.store.pairings
      && e.answer.pairing == e.store.pairings[(caller, peer)]
      && var mine, theirs := e.store.pairings[(caller, peer)], e.store.pairings[(peer, caller)];
      && mine.userId == theirs.peerId == caller && theirs.userId == mine.peerId == peer
      && mine.peerName == s.users[peer].displayName
      && theirs.peerName == (if caller in s.users then s.users[caller].displayName else name)
      && mine.status == theirs.status == PairingActive && mine.createdAt == theirs.createdAt == now
      && e.store.pairings - {(caller, peer), (peer, caller)} == s.pairings - {(caller, peer), (peer, caller)}
      && e.store.invites == s.invites - {code}
      && e.store == s.(users := e.store.users, pairings := e.store.pairings, invites := e.store.invites)
  {
  }

  /** What the other accepts do to the pairings: nothing, or, for one's own invite, one pairing with
      oneself and the invite is gone all the same. */
  lemma AcceptWithoutAPeer(s: S.State, caller: string, name: string, code: string, checkedAt: Time, now: Time)
    requires S.Filed(s) && !AcceptEffect(s, caller, name, code, checkedAt, now).answer.Paired?
    ensures var e := AcceptEffect(s, caller, name, code, checkedAt, now);
      && (e.answer != OwnInvite ==> e.store == s.(users := e.store.users))
      && (e.answer == OwnInvite ==>
            && caller in e.store.users
            && var own := Pairing(caller, caller, e.store.users[caller].displayName, PairingActive, now);
               e.store == s.(users := e.store.users, invites := s.invites - {code},
                             pairings := s.pairings[(caller, caller) := own]))
  {
  }

  /** An accepted invite lets each of the two page the other and changes nobody else's permission. */
  lemma AcceptOpensBothWays(s: S.State, caller: string, name: string, code: string, checkedAt: Time, now: Time,
                            a: string, b: string)
    requires S.Filed(s) && AcceptEffect(s, caller, name, code, checkedAt, now).answer.Paired?
    ensures var e := AcceptEffect(s, caller, name, code, checkedAt, now); var peer := e.answer.pairing.peerId;
      && peer != caller && code in s.invites && peer == s.invites[code].creatorId
      && (MayPage(e.store, a, b) <==> MayPage(s, a, b) || (a, b) == (caller, peer) || (a, b) == (peer, caller))
  {
  }

  /** An accepted invite is spent, even on its own creator: whoever tries the code again, whenever,
      is told it does not exist. */
  lemma InviteIsSpent(s: S.State, caller: string, name: string, code: string, checkedAt: Time, now: Time,
                      other: string, name2: string, checkedAt2: Time, now2: Time)
    requires var answer := AcceptEffect(s, caller, name, code, checkedAt, now).answer;
      answer.Paired? || answer.OwnInvite?
    ensures AcceptEffect(
              AcceptEffect(s, caller, name, code, checkedAt, now).store, other, name2, code, checkedAt2, now2).answer
         == NoSuchInvite
  {
    var e := AcceptEffect(s, caller, name, code, checkedAt, now);
    assert code !in e.store.invites;
  }

  /** A block turns the caller's copy and leaves every other pairing, and all else, as it is; without
      a copy there is nothing to block. */
  lemma BlockTurnsOneCopy(s: S.State, caller: string, peer: string)
    ensures var e := BlockEffect(s, caller, peer);
      && (e.answer == Done <==> (caller, peer) in s.pairings)
      && (e.answer == NoSuchPairing <==> (caller, peer) !in s.pairings)
      && e.store.pairings.Keys == s.pairings.Keys
      && (forall k :: k in s.pairings ==> var p, q := s.pairings[k], e.store.pairings[k];
            && (p.userId, p.peerId, p.peerName, p.createdAt) == (q.userId, q.peerId, q.peerName, q.createdAt)
            && (q.status == PairingBlocked <==> p.status == PairingBlocked || k == (caller, peer)))
      && e.store == s.(pairings := e.store.pairings)
  {
  }

  /** A block takes away the blocker's permission to page the peer and nothing else: the peer's
      own copy stays as it was, so the peer can go on paging the blocker. */
  lemma BlockStopsOnlyTheBlocker(s: S.State, blocker: string, peer: string, a: string, b: string)
    ensures MayPage(BlockEffect(s, blocker, peer).store, a, b) <==> MayPage(s, a, b) && (a, b) != (blocker, peer)
  {
  }

  /** Paging is refused exactly without permission, whatever else happens. */
  lemma PagingNeedsOwnActiveCopy(s: S.State, caller: string, recipient: string, message: string, key: string,
                                 id: string, now: Time, fails: bool)
    ensures CreateEffect(s, caller, recipient, message, key, id, now, fails).answer == NotPaired
      <==> !MayPage(s, caller, recipient)
  {
  }

  /** After a block, a create is refused if it was before or if it is the blocker paging the peer:
      the peer's pages to the blocker go through as before. */
  lemma BlockRefusesOnlyTheBlocker(s: S.State, blocker: string, peer: string, caller: string, recipient: string,
                                   message: string, key: string, id: string, now: Time, fails: bool)
    ensures CreateEffect(
              BlockEffect(s, blocker, peer).store, caller, recipient, message, key, id, now, fails).answer == NotPaired
       <==> CreateEffect(s, caller, recipient, message, key, id, now, fails).answer == NotPaired
            || (caller, recipient) == (blocker, peer)
  {
    hide CreateEffect, BlockEffect, MayPage;
    BlockStopsOnlyTheBlocker(s, blocker, peer, caller, recipient);
    PagingNeedsOwnActiveCopy(s, caller, recipient, message, key, id, now, fails);
    PagingNeedsOwnActiveCopy(BlockEffect(s, blocker, peer).store, caller, recipient, message, key, id, now, fails);
  }

  /** A page is made exactly with permission, under a fresh id and key; its first attempt is enqueued
      at once; and without a new page nothing changes. */
  lemma CreateAnswersExactly(s: S.State, caller: string, recipient: string, message: string, key: string, id: string,
                             now: Time, enqueueFails: bool)
    ensures var e := CreateEffect(s, caller, recipient, message, key, id, now, enqueueFails);
      var makes := MayPage(s, caller, recipient) && id !in s.pages && key !in s.idem;
      && (e.answer.Made? <==> makes && !enqueueFails)
      && (e.answer == Unscheduled <==> makes && enqueueFails)
      && (e.answer.Original? <==> MayPage(s, caller, recipient) && key in s.idem && s.idem[key] in s.pages)
      && e.next == (if makes && !enqueueFails then Some(QueuedTask(PageTask(id, 0), 0)) else None)
      && (!makes ==> e.store == s)
  {
    hide S.CreatePage;
  }

  /** The page that a create makes, with its deadline half an hour on. */
  lemma CreateMakes(s: S.State, caller: string, recipient: string, message: string, key: string, id: string, now: Time,
                    enqueueFails: bool)
    requires MayPage(s, caller, recipient) && id !in s.pages && key !in s.idem
    ensures var e := CreateEffect(s, caller, recipient, message, key, id, now, enqueueFails);
      && id in e.store.pages
      && var p := e.store.pages[id];
      && (!enqueueFails ==> e.answer == Made(p))
      && p.id == id && p.senderId == caller && p.recipientId == recipient
      && p.message == message && p.idempotencyKey == key
      && p.state == Created && p.attempt == -1 && p.ackedAt.None? && p.ackNote == ""
      && p.createdAt == now && p.expiresAt == now + 1800 * 1_000_000_000
  {
  }

  /** Page, key and timeline appear together, and nothing else moves. */
  lemma CreateLeavesTheRest(s: S.State, caller: string, recipient: string, message: string, key: string, id: string,
                            now: Time, enqueueFails: bool)
    requires MayPage(s, caller, recipient) && id !in s.pages && key !in s.idem
    ensures var t := CreateEffect(s, caller, recipient, message, key, id, now, enqueueFails).store;
      && t.pages - {id} == s.pages && t.idem - {key} == s.idem && key in t.idem && t.idem[key] == id
      && t == s.(pages := t.pages, idem := t.idem, events := t.events)
      && LogsAt(s, t, id, [PageEvent(id, EvCreated, "", now)])
  {
  }

  /** A first ack: only the recipient's, only of an active page; it leaves its note and its time on the
      page and in the timeline, and moves nothing else. */
  lemma AckTakes(s: S.State, caller: string, id: string, note: string, now: Time, logFails: bool)
    requires id in s.pages && s.pages[id].recipientId == caller && Active(s.pages[id].state)
    ensures var e := AckEffect(s, caller, id, note, now, logFails); var t := e.store;
      && id in t.pages && t.pages - {id} == s.pages - {id} && e.answer == AckedPage(t.pages[id])
      && var p, q := s.pages[id], t.pages[id];
      && q.state == Acked && q.ackedAt == Some(now) && q.ackNote == note
      && q.(state := p.state, ackedAt := p.ackedAt, ackNote := p.ackNote) == p
      && t == s.(pages := t.pages, events := t.events)
      && LogsAt(s, t, id, if logFails then [] else [PageEvent(id, EvAcked, note, now)])
  {
  }

  /** Whose acks are answered with the page, and that no others change anything. */
  lemma AckAnswersExactly(s: S.State, caller: string, id: string, note: string, now: Time, logFails: bool)
    ensures var e := AckEffect(s, caller, id, note, now, logFails);
      var own := id in s.pages && s.pages[id].recipientId == caller;
      && (e.answer == NoSuchPage <==> !own)
      && (e.answer.AckedPage? <==> own && (Active(s.pages[id].state) || s.pages[id].state == Acked))
      && (!(own && Active(s.pages[id].state)) ==> e.store == s)
  {
    hide S.MaybeAppend;
  }

  /** A receipt: only the recipient's, and only a page that was not yet delivered moves, to delivered. */
  lemma ReceiptDelivers(s: S.State, caller: string, id: string, now: Time, logFails: bool)
    ensures var e := ReceiptEffect(s, caller, id, now, logFails); var t := e.store;
      var own := id in s.pages && s.pages[id].recipientId == caller;
      && e.answer == (if own then Done else NoSuchPage)
      && (!(own && Rank(s.pages[id].state) < Rank(Delivered)) ==> t == s)
      && (own && Rank(s.pages[id].state) < Rank(Delivered) ==>
            && id in t.pages && t.pages - {id} == s.pages - {id}
            && t.pages[id].state == Delivered && t.pages[id].(state := s.pages[id].state) == s.pages[id]
            && t == s.(pages := t.pages, events := t.events)
            && LogsAt(s, t, id, if logFails then [] else [PageEvent(id, EvDelivered, "", now)]))
  {
  }

  /** A second ack answers with the first one, byte for byte, and leaves the store alone,
      whatever note and time it brings. */
  lemma SecondAckAnswersTheFirst(s: S.State, caller: string, id: string, note1: string, now1: Time, fails1: bool,
                                 note2: string, now2: Time, fails2: bool)
    requires AckEffect(s, caller, id, note1, now1, fails1).answer.AckedPage?
    ensures var first := AckEffect(s, caller, id, note1, now1, fails1);
      AckEffect(first.store, caller, id, note2, now2, fails2) == Effect(first.store, None, first.answer)
  {
  }

  /** A create that was answered 201 is answered 200 with the same page when it is replayed after
      any further moves of the store, and the replay changes nothing; so is one that was stored
      but could not be enqueued, which is why such a page is never scheduled. */
  lemma ReplayedCreate(s: S.State, t: S.State, caller: string, recipient: string, message: string, key: string,
                       id: string, now: Time, enqueueFails: bool,
                       message2: string, id2: string, now2: Time, fails2: bool)
    requires S.Filed(s)
    requires var e := CreateEffect(s, caller, recipient, message, key, id, now, enqueueFails);
      && (e.answer.Made? || e.answer.Unscheduled?)
      && S.PagesAdvance(e.store, t) && key in t.idem && t.idem[key] == e.store.idem[key]
    requires (caller, recipient) in t.pairings && t.pairings[(caller, recipient)].status.PairingActive?
    ensures var e2 := CreateEffect(t, caller, recipient, message2, key, id2, now2, fails2);
      && id in t.pages
      && e2 == Effect(t, None, Original(t.pages[id]))
      && t.pages[id].message == message && t.pages[id].createdAt == now
  {
    var e := CreateEffect(s, caller, recipient, message, key, id, now, enqueueFails);
    assert e.store.idem[key] == id;
    assert S.PageAdvances(e.store.pages[id], t.pages[id]);
  }
}
