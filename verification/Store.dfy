/** The persistence contract as functions on plain maps: the reference the in-memory
    store implements directly and the single-table store has to simulate. Each function
    is one atomic store call; the protocol model takes them as its atomic steps.
    (backend/internal/store/store.go, backend/internal/store/fake/store.go) */
module Store {
  import opened Model
  import opened Counting

  datatype Error = NotFound | Conflict | Internal

  datatype Outcome = Pass | Fail(error: Error)

  datatype Result<+T> = Ok(value: T) | Err(error: Error)

  /** The maps of the reference store. A nested Go map m[a][b] is one map keyed by (a, b). */
  datatype State = State(
    users: map<string, User>,
    devices: map<(string, string), Device>,
    pairings: map<(string, string), Pairing>,
    invites: map<string, Invite>,
    pages: map<string, Page>,
    events: map<string, seq<PageEvent>>,
    idem: map<string, string>)

  const EMPTY: State := State(map[], map[], map[], map[], map[], map[], map[])

  /** The states a page may be acknowledged in or expired from. */
  const ACTIVE_STATES: seq<PageState> := [Created, Pushed, Delivered, Seen]

  function PutUser(s: State, u: User): State {
    s.(users := s.users[u.id := u])
  }

  function GetUser(s: State, id: string): Result<User> {
    if id in s.users then Ok(s.users[id]) else Err(NotFound)
  }

  function PutDevice(s: State, d: Device): State {
    s.(devices := s.devices[(d.userId, d.token) := d])
  }

  function DeleteDevice(s: State, userId: string, token: string): State {
    s.(devices := s.devices - {(userId, token)})
  }

  function CreateInvite(s: State, inv: Invite): State {
    s.(invites := s.invites[inv.code := inv])
  }

  function AccepterPairing(inv: Invite, creator: User, accepter: User, now: Time): Pairing {
    Pairing(accepter.id, inv.creatorId, creator.displayName, PairingActive, now)
  }

  function CreatorPairing(inv: Invite, accepter: User, now: Time): Pairing {
    Pairing(inv.creatorId, accepter.id, accepter.displayName, PairingActive, now)
  }

  /** The clock is read twice: once to check the invite, once to stamp the pairings. */
  function AcceptInvite(s: State, code: string, accepter: User, checkedAt: Time, now: Time): (State, Result<Pairing>) {
    if code !in s.invites || s.invites[code].expiresAt <= checkedAt then
      (s, Err(NotFound))
    else
      var inv := s.invites[code];
      if inv.creatorId !in s.users then
        (s, Err(Internal))
      else
        var mine := AccepterPairing(inv, s.users[inv.creatorId], accepter, now);
        var theirs := CreatorPairing(inv, accepter, now);
        (s.(invites := s.invites - {code},
            pairings := s.pairings[(accepter.id, inv.creatorId) := mine][(inv.creatorId, accepter.id) := theirs]),
         Ok(mine))
  }

  function GetPairing(s: State, userId: string, peerId: string): Result<Pairing> {
    if (userId, peerId) in s.pairings then Ok(s.pairings[(userId, peerId)]) else Err(NotFound)
  }

  function BlockPairing(s: State, userId: string, peerId: string): (State, Outcome) {
    if (userId, peerId) !in s.pairings then
      (s, Fail(NotFound))
    else
      (s.(pairings := s.pairings[(userId, peerId) := s.pairings[(userId, peerId)].(status := PairingBlocked)]), Pass)
  }

  function Events(s: State, pageId: string): seq<PageEvent> {
    if pageId in s.events then s.events[pageId] else []
  }

  function AppendEvent(s: State, e: PageEvent): State {
    s.(events := s.events[e.pageId := Events(s, e.pageId) + [e]])
  }

  /** An append that may fail; its callers log the failure and carry on. */
  function MaybeAppend(s: State, e: PageEvent, stored: bool): State {
    if stored then AppendEvent(s, e) else s
  }

  function CreatePage(s: State, p: Page): (State, Outcome) {
    if p.id in s.pages || p.idempotencyKey in s.idem then
      (s, Fail(Conflict))
    else
      var stored := s.(pages := s.pages[p.id := p], idem := s.idem[p.idempotencyKey := p.id]);
      (AppendEvent(stored, PageEvent(p.id, EvCreated, "", p.createdAt)), Pass)
  }

  function GetPage(s: State, id: string): Result<Page> {
    if id in s.pages then Ok(s.pages[id]) else Err(NotFound)
  }

  function GetPageByIdempotencyKey(s: State, key: string): Result<Page> {
    if key in s.idem then GetPage(s, s.idem[key]) else Err(NotFound)
  }

  function AckPage(s: State, id: string, note: string, at: Time): (State, Outcome) {
    if id !in s.pages then
      (s, Fail(NotFound))
    else if !Active(s.pages[id].state) then
      (s, Fail(Conflict))
    else
      (s.(pages := s.pages[id := s.pages[id].(state := Acked, ackedAt := Some(at), ackNote := note)]), Pass)
  }

  function SetPageState(s: State, id: string, from: seq<PageState>, to: PageState, attempt: int): (State, Outcome) {
    if id !in s.pages then
      (s, Fail(NotFound))
    else if s.pages[id].state !in from then
      (s, Fail(Conflict))
    else
      (s.(pages := s.pages[id := s.pages[id].(state := to, attempt := attempt)]), Pass)
  }

  /** The devices of a user, whatever order a listing returns them in. */
  function DevicesOf(s: State, userId: string): set<Device> {
    set k | k in s.devices && k.0 == userId :: s.devices[k]
  }

  /** A listing of the devices of a user: each of them once, in any order. */
  ghost predicate ListsDevices(s: State, userId: string, listed: seq<Device>) {
    && (forall d :: d in listed <==> d in DevicesOf(s, userId))
    && Distinct(listed)
  }

  /** The pairings a user holds. */
  function PairingsOf(s: State, userId: string): set<Pairing> {
    set k | k in s.pairings && k.0 == userId :: s.pairings[k]
  }

  ghost predicate ListsPairings(s: State, userId: string, listed: seq<Pairing>) {
    && (forall p :: p in listed <==> p in PairingsOf(s, userId))
    && Distinct(listed)
  }

  /** Every map entry is filed under the key its own fields name. */
  ghost predicate Filed(s: State) {
    && (forall k :: k in s.users ==> s.users[k].id == k)
    && (forall k :: k in s.devices ==> (s.devices[k].userId, s.devices[k].token) == k)
    && (forall k :: k in s.pairings ==> (s.pairings[k].userId, s.pairings[k].peerId) == k)
    && (forall k :: k in s.invites ==> s.invites[k].code == k)
    && (forall k :: k in s.pages ==> s.pages[k].id == k)
    && (forall k, i :: k in s.events && 0 <= i < |s.events[k]| ==> s.events[k][i].pageId == k)
  }

  /** What no store call ever does to a page: change who it concerns, lower its state,
      leave a terminal state, or touch an acknowledgement. */
  ghost predicate PageAdvances(p: Page, q: Page) {
    && q == p.(state := q.state, attempt := q.attempt, ackedAt := q.ackedAt, ackNote := q.ackNote)
    && Rank(p.state) <= Rank(q.state)
    && (!Active(p.state) ==> q == p)
    && (!q.state.Acked? ==> q.ackedAt == p.ackedAt && q.ackNote == p.ackNote)
    && (q.state.Acked? && !p.state.Acked? ==> q.ackedAt.Some?)
  }

  ghost predicate PagesAdvance(s: State, t: State) {
    forall id :: id in s.pages ==> id in t.pages && PageAdvances(s.pages[id], t.pages[id])
  }
}

/** The in-memory store: one field per map, each method atomic under the mutex
    (backend/internal/store/fake/store.go). */
module Fake {
  import opened Model
  import opened Counting
  import opened Recency
  import S = Store

  class Store {
    var users: map<string, User>
    var devices: map<(string, string), Device>
    var pairings: map<(string, string), Pairing>
    var invites: map<string, Invite>
    var pages: map<string, Page>
    var events: map<string, seq<PageEvent>>
    var idem: map<string, string>

    /** The abstract value of the store. */
    ghost function Value(): S.State
      reads this
    {
      S.State(users, devices, pairings, invites, pages, events, idem)
    }

    constructor ()
      ensures Value() == S.EMPTY
    {
      users, devices, pairings, invites, pages, events, idem := map[], map[], map[], map[], map[], map[], map[];
    }

    method PutUser(u: User)
      modifies this
      ensures Value() == S.PutUser(old(Value()), u)
    {
      users := users[u.id := u];
    }

    method GetUser(id: string) returns (r: S.Result<User>)
      ensures r == S.GetUser(Value(), id)
    {
      if id !in users {
        return S.Err(S.NotFound);
      }
      return S.Ok(users[id]);
    }

    method PutDevice(d: Device)
      modifies this
      ensures Value() == S.PutDevice(old(Value()), d)
    {
      devices := devices[(d.userId, d.token) := d];
    }

    /** The loop ranges over a map, so the order of the listing is arbitrary. */
    method ListDevices(userId: string) returns (listed: seq<Device>)
      requires S.Filed(Value())
      ensures S.ListsDevices(Value(), userId, listed)
    {
      hide Distinct;
      listed := [];
      DistinctEmpty<Device>();
      var left := set k | k in devices && k.0 == userId;
      ghost var done: set<(string, string)> := {};
      while left != {}
        invariant left + done == set k | k in devices && k.0 == userId
        invariant left !! done
        invariant forall d :: d in listed <==> exists k :: k in done && devices[k] == d
        invariant Distinct(listed)
        decreases |left|
      {
        var k :| k in left;
        DistinctAppend(listed, devices[k]);
        listed := listed + [devices[k]];
        left, done := left - {k}, done + {k};
      }
    }

    method DeleteDevice(userId: string, token: string)
      modifies this
      ensures Value() == S.DeleteDevice(old(Value()), userId, token)
    {
      devices := devices - {(userId, token)};
    }

    method CreateInvite(inv: Invite)
      modifies this
      ensures Value() == S.CreateInvite(old(Value()), inv)
    {
      invites := invites[inv.code := inv];
    }

    method AcceptInvite(code: string, accepter: User, checkedAt: Time, now: Time) returns (r: S.Result<Pairing>)
      modifies this
      ensures (Value(), r) == S.AcceptInvite(old(Value()), code, accepter, checkedAt, now)
    {
      if code !in invites || invites[code].expiresAt <= checkedAt {
        return S.Err(S.NotFound);
      }
      var inv := invites[code];
      if inv.creatorId !in users {
        return S.Err(S.Internal);
      }
      var creator := users[inv.creatorId];
      invites := invites - {code};
      var accepterPairing := Pairing(accepter.id, inv.creatorId, creator.displayName, PairingActive, now);
      var creatorPairing := Pairing(inv.creatorId, accepter.id, accepter.displayName, PairingActive, now);
      pairings := pairings[(accepter.id, inv.creatorId) := accepterPairing];
      pairings := pairings[(inv.creatorId, accepter.id) := creatorPairing];
      return S.Ok(accepterPairing);
    }

    method GetPairing(userId: string, peerId: string) returns (r: S.Result<Pairing>)
      ensures r == S.GetPairing(Value(), userId, peerId)
    {
      if (userId, peerId) !in pairings {
        return S.Err(S.NotFound);
      }
      return S.Ok(pairings[(userId, peerId)]);
    }

    method ListPairings(userId: string) returns (listed: seq<Pairing>)
      requires S.Filed(Value())
      ensures S.ListsPairings(Value(), userId, listed)
    {
      hide Distinct;
      listed := [];
      DistinctEmpty<Pairing>();
      var left := set k | k in pairings && k.0 == userId;
      ghost var done: set<(string, string)> := {};
      while left != {}
        invariant left + done == set k | k in pairings && k.0 == userId
        invariant left !! done
        invariant forall p :: p in listed <==> exists k :: k in done && pairings[k] == p
        invariant Distinct(listed)
        decreases |left|
      {
        var k :| k in left;
        DistinctAppend(listed, pairings[k]);
        listed := listed + [pairings[k]];
        left, done := left - {k}, done + {k};
      }
    }

    method BlockPairing(userId: string, peerId: string) returns (r: S.Outcome)
      modifies this
      ensures (Value(), r) == S.BlockPairing(old(Value()), userId, peerId)
    {
      if (userId, peerId) !in pairings {
        return S.Fail(S.NotFound);
      }
      var p := pairings[(userId, peerId)].(status := PairingBlocked);
      pairings := pairings[(userId, peerId) := p];
      return S.Pass;
    }

    method CreatePage(p: Page) returns (r: S.Outcome)
      modifies this
      ensures (Value(), r) == S.CreatePage(old(Value()), p)
    {
      if p.id in pages {
        return S.Fail(S.Conflict);
      }
      if p.idempotencyKey in idem {
        return S.Fail(S.Conflict);
      }
      pages := pages[p.id := p];
      idem := idem[p.idempotencyKey := p.id];
      AppendEvent(PageEvent(p.id, EvCreated, "", p.createdAt));
      return S.Pass;
    }

    method GetPage(id: string) returns (r: S.Result<Page>)
      ensures r == S.GetPage(Value(), id)
    {
      if id !in pages {
        return S.Err(S.NotFound);
      }
      return S.Ok(pages[id]);
    }

    method GetPageByIdempotencyKey(key: string) returns (r: S.Result<Page>)
      ensures r == S.GetPageByIdempotencyKey(Value(), key)
    {
      if key !in idem {
        return S.Err(S.NotFound);
      }
      r := GetPage(idem[key]);
    }

    method AckPage(id: string, note: string, at: Time) returns (r: S.Outcome)
      modifies this
      ensures (Value(), r) == S.AckPage(old(Value()), id, note, at)
    {
      if id !in pages {
        return S.Fail(S.NotFound);
      }
      var p := pages[id];
      if !Active(p.state) {
        return S.Fail(S.Conflict);
      }
      p := p.(state := Acked, ackedAt := Some(at), ackNote := note);
      pages := pages[id := p];
      return S.Pass;
    }

    method SetPageState(id: string, from: seq<PageState>, to: PageState, attempt: int) returns (r: S.Outcome)
      modifies this
      ensures (Value(), r) == S.SetPageState(old(Value()), id, from, to, attempt)
    {
      if id !in pages {
        return S.Fail(S.NotFound);
      }
      var p := pages[id];
      var allowed := false;
      var i := 0;
      while i < |from| && !allowed
        invariant 0 <= i <= |from|
        invariant allowed <==> p.state in from[..i]
        decreases |from| - i + if allowed then 0 else 1
      {
        allowed := p.state == from[i];
        i := i + 1;
      }
      if !allowed {
        return S.Fail(S.Conflict);
      }
      p := p.(state := to, attempt := attempt);
      pages := pages[id := p];
      return S.Pass;
    }

    method AppendEvent(e: PageEvent)
      modifies this
      ensures Value() == S.AppendEvent(old(Value()), e)
    {
      var before := if e.pageId in events then events[e.pageId] else [];
      events := events[e.pageId := before + [e]];
    }

    method ListEvents(pageId: string) returns (listed: seq<PageEvent>)
      ensures listed == S.Events(Value(), pageId)
    {
      listed := if pageId in events then events[pageId] else [];
    }

    /** The loop ranges over a map. */
    method ScanPages(userId: string, since: Option<Time>) returns (out: seq<Page>)
      requires S.Filed(Value())
      ensures Distinct(out)
      ensures forall p :: p in out <==> p in PagesAfter(Value(), userId, since)
    {
      hide Distinct, PagesAfter, Wanted, S.Filed;
      PagesAfterById(Value(), userId, since);
      DistinctEmpty<Page>();
      out := [];
      ghost var all := pages;
      var left := pages.Keys;
      ghost var seen: set<Page> := {};
      while left != {}
        invariant left <= all.Keys
        invariant forall p :: p in out <==> p in seen
        invariant forall p :: p in seen <==> p.id in all && p.id !in left && all[p.id] == p && Wanted(p, userId, since)
        invariant Distinct(out)
        decreases |left|
      {
        var id :| id in left;
        var p := pages[id];
        if Wanted(p, userId, since) {
          DistinctAppend(out, p);
          out, seen := out + [p], seen + {p};
        }
        left := left - {id};
      }
    }

    /** Newest first, a hundred at most; the order of pages created at one instant is arbitrary. */
    method ListPagesFor(userId: string, since: Option<Time>) returns (listed: seq<Page>)
      requires S.Filed(Value())
      ensures var matching := PagesAfter(Value(), userId, since);
        Fills(matching, listed) && NewestFirst(listed) && OmitsOlder(matching, listed)
    {
      hide Fills, OmitsOlder, NewestFirst, PagesAfter;
      var out := ScanPages(userId, since);
      var sorted := SortNewestFirst(out);
      PermutationKeeps(out, sorted);
      TruncatingKeepsNewest(PagesAfter(Value(), userId, since), sorted);
      listed := if |sorted| > LIMIT then sorted[..LIMIT] else sorted;
    }
  }
}
