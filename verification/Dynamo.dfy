/** The store on the single table. Its methods issue the reads, queries, conditional updates and
    transactions of the source against the table; a ghost copy of the reference maps says what
    the table stands for, and every method moves both alike
    (backend/internal/store/dynamo/store.go). */
module Dynamo {
  import opened Model
  import opened Text
  import opened Counting
  import opened Timestamps
  import opened Keys
  import opened Items
  import opened Condition
  import opened SingleTable
  import opened Simulation
  import opened Queries
  import opened Recency
  import opened PageIndex
  import S = Store

  // ------------------------------------------------------------ where the two stores differ

  /** Accepting an invite on the table. It differs from the reference in three places: a creator
      without a user row is reported as not found, the service refuses a transaction that writes
      one item twice, and the invite's deadline is compared in whole seconds. */
  function AcceptOnTable(s: S.State, code: string, accepter: User, checkedAt: Time, now: Time)
    : (S.State, S.Result<Pairing>)
    requires now >= 0 && forall k :: k in s.invites ==> s.invites[k].expiresAt >= 0
  {
    if code !in s.invites || s.invites[code].expiresAt <= checkedAt then
      (s, S.Err(S.NotFound))
    else if s.invites[code].creatorId !in s.users then
      (s, S.Err(S.NotFound))
    else if s.invites[code].creatorId == accepter.id then
      (s, S.Err(S.Internal))
    else if Unix(s.invites[code].expiresAt) <= Unix(now) then
      (s, S.Err(S.NotFound))
    else
      S.AcceptInvite(s, code, accepter, checkedAt, now)
  }

  /** The two stores agree on an acceptance unless the invite is still live but its creator has
      no row, is the accepter, or the clock has reached the last whole second of the invite. */
  lemma AcceptAgrees(s: S.State, code: string, accepter: User, checkedAt: Time, now: Time)
    requires now >= 0 && forall k :: k in s.invites ==> s.invites[k].expiresAt >= 0
    ensures AcceptOnTable(s, code, accepter, checkedAt, now) == S.AcceptInvite(s, code, accepter, checkedAt, now)
       <==> (code !in s.invites
             || s.invites[code].expiresAt <= checkedAt
             || (s.invites[code].creatorId in s.users
                 && s.invites[code].creatorId != accepter.id
                 && Unix(now) < Unix(s.invites[code].expiresAt)))
  {
  }

  /** Acknowledging on the table: a missing page fails the condition like a terminal one. */
  function AckOnTable(s: S.State, id: string, note: string, at: Time): (S.State, S.Outcome) {
    if id in s.pages then S.AckPage(s, id, note, at) else (s, S.Fail(S.Conflict))
  }

  /** A conditional transition on the table; an empty list of states makes an invalid expression. */
  function SetOnTable(s: S.State, id: string, from: seq<PageState>, to: PageState, attempt: int): (S.State, S.Outcome) {
    if from == [] then (s, S.Fail(S.Internal))
    else if id in s.pages then S.SetPageState(s, id, from, to, attempt)
    else (s, S.Fail(S.Conflict))
  }

  /** The stores agree on every page that exists and on no other. */
  lemma TransitionsAgreeOnExistingPages(s: S.State, id: string, note: string, at: Time,
                                        from: seq<PageState>, to: PageState, attempt: int)
    ensures AckOnTable(s, id, note, at) == S.AckPage(s, id, note, at) <==> id in s.pages
    ensures SetOnTable(s, id, from, to, attempt) == S.SetPageState(s, id, from, to, attempt)
      <==> id in s.pages && from != []
  {
  }

  function AttributeName(item: Option<Item>): Option<string> {
    if item.Some? && item.value.PageItem? then Some(item.value.page.state) else None
  }

  /** The sort keys a query ranges over. */
  function Found(t: Table, pk: string, prefix: string): (sks: set<string>)
    ensures forall sk :: sk in sks <==> Key(pk, sk) in t && prefix <= sk
  {
    set k | k in t && k.pk == pk && prefix <= k.sk :: k.sk
  }

  method Smallest(sks: set<string>) returns (sk: string)
    requires sks != {}
    ensures sk in sks && forall other :: other in sks - {sk} ==> Less(sk, other)
  {
    hide Less;
    SmallestExists(sks);
    sk :| sk in sks && forall other :: other in sks ==> !Less(other, sk);
    forall other | other in sks - {sk} ensures Less(sk, other) {
      LessTotal(sk, other);
    }
  }

  /** The item a device query found decodes to that device. */
  lemma DeviceOfItem(t: Table, s: S.State, userId: string, sk: string) returns (d: Device)
    requires Represents(t, s) && Key(UserPK(userId), sk) in t && "DEVICE#" <= sk
    ensures (userId, d.token) in s.devices && s.devices[(userId, d.token)] == d && sk == DeviceSK(d.token)
    ensures t[Key(UserPK(userId), sk)].DeviceItem? && ToDevice(t[Key(UserPK(userId), sk)].device) == S.Ok(d)
  {
    hide Represents, NewDeviceRecord, ToDevice, KeyOf;
    RepresentedIsSound(t, s);
    DeviceAt(t, s, userId, sk);
    var token :| (userId, token) in s.devices && sk == DeviceSK(token);
    d := s.devices[(userId, token)];
    DeviceRoundTrip(d);
  }

  lemma DistinctKeys(devices: seq<Device>, d: Device, sks: seq<string>, i: nat)
    requires Distinct(devices) && |devices| == i < |sks| && sks[i] == DeviceSK(d.token)
    requires forall j :: 0 <= j < i ==> sks[j] == DeviceSK(devices[j].token)
    requires forall i, j :: 0 <= i < j < |sks| ==> Less(sks[i], sks[j])
    ensures Distinct(devices + [d])
  {
    forall j | 0 <= j < i ensures devices[j] != d {
      if devices[j] == d { LessIrreflexive(sks[i]); }
    }
  }

  lemma AllDevicesListed(t: Table, s: S.State, userId: string, sks: seq<string>, devices: seq<Device>)
    requires Represents(t, s) && Answers(t, UserPK(userId), "DEVICE#", sks) && |devices| == |sks|
    requires forall j :: 0 <= j < |sks| ==>
               (userId, devices[j].token) in s.devices && s.devices[(userId, devices[j].token)] == devices[j]
               && sks[j] == DeviceSK(devices[j].token)
    ensures forall d :: d in devices <==> d in S.DevicesOf(s, userId)
  {
    hide Represents, KeyOf, UserPK;
    forall k | k in s.devices && k.0 == userId ensures s.devices[k] in devices {
      var sk := DeviceSK(k.1);
      DeviceAt(t, s, userId, sk);
      assert (userId, k.1) in s.devices;
      var j :| 0 <= j < |sks| && sks[j] == sk;
      ConcatInjective("DEVICE#", "DEVICE#", k.1, devices[j].token);
    }
  }

  /** The item a pairing query found decodes to that pairing. */
  lemma PairingOfItem(t: Table, s: S.State, userId: string, sk: string) returns (p: Pairing)
    requires Represents(t, s) && Key(UserPK(userId), sk) in t && "PAIR#" <= sk
    ensures (userId, p.peerId) in s.pairings && s.pairings[(userId, p.peerId)] == p && sk == PairSK(p.peerId)
    ensures t[Key(UserPK(userId), sk)].PairingItem? && ToPairing(t[Key(UserPK(userId), sk)].pairing) == S.Ok(p)
  {
    hide Represents, NewPairingRecord, ToPairing, KeyOf;
    RepresentedIsSound(t, s);
    PairAt(t, s, userId, sk);
    var peerId :| (userId, peerId) in s.pairings && sk == PairSK(peerId);
    p := s.pairings[(userId, peerId)];
    PairingRoundTrip(p);
  }

  lemma DistinctPeers(pairings: seq<Pairing>, p: Pairing, sks: seq<string>, i: nat)
    requires Distinct(pairings) && |pairings| == i < |sks| && sks[i] == PairSK(p.peerId)
    requires forall j :: 0 <= j < i ==> sks[j] == PairSK(pairings[j].peerId)
    requires forall i, j :: 0 <= i < j < |sks| ==> Less(sks[i], sks[j])
    ensures Distinct(pairings + [p])
  {
    forall j | 0 <= j < i ensures pairings[j] != p {
      if pairings[j] == p { LessIrreflexive(sks[i]); }
    }
  }

  lemma AllPairingsListed(t: Table, s: S.State, userId: string, sks: seq<string>, pairings: seq<Pairing>)
    requires Represents(t, s) && Answers(t, UserPK(userId), "PAIR#", sks) && |pairings| == |sks|
    requires forall j :: 0 <= j < |sks| ==>
               (userId, pairings[j].peerId) in s.pairings && s.pairings[(userId, pairings[j].peerId)] == pairings[j]
               && sks[j] == PairSK(pairings[j].peerId)
    ensures forall p :: p in pairings <==> p in S.PairingsOf(s, userId)
  {
    hide Represents, KeyOf, UserPK;
    forall k | k in s.pairings && k.0 == userId ensures s.pairings[k] in pairings {
      var sk := PairSK(k.1);
      PairAt(t, s, userId, sk);
      assert (userId, k.1) in s.pairings;
      var j :| 0 <= j < |sks| && sks[j] == sk;
      ConcatInjective("PAIR#", "PAIR#", k.1, pairings[j].peerId);
    }
  }

  lemma EventOfItem(t: Table, s: S.State, pageId: string, sk: string) returns (e: PageEvent)
    requires Represents(t, s) && Key(PagePK(pageId), sk) in t && "EVT#" <= sk
    ensures Latest(S.Events(s, pageId), e) && InRange(e.at) && sk == SKOf(e)
    ensures t[Key(PagePK(pageId), sk)].EventItem? && ToEvent(t[Key(PagePK(pageId), sk)].event) == S.Ok(e)
  {
    hide Represents, NewEventRecord, ToEvent, KeyOf, Latest, S.Events, SKOf;
    EventAt(t, s, pageId, sk);
    e :| Latest(S.Events(s, pageId), e) && InRange(e.at) && sk == SKOf(e);
    EventItemAt(t, s, pageId, e);
    EventRoundTrip(e);
  }

  lemma EventsAreListed(t: Table, s: S.State, pageId: string, sks: seq<string>, listed: seq<PageEvent>)
    requires Represents(t, s) && Answers(t, PagePK(pageId), "EVT#", sks) && |listed| == |sks|
    requires forall j :: 0 <= j < |sks| ==>
               Latest(S.Events(s, pageId), listed[j]) && InRange(listed[j].at) && sks[j] == SKOf(listed[j])
    ensures ListsEvents(s, pageId, listed)
  {
    hide Represents, Latest, S.Events, EventSK, EventName, Less;
    forall e | Latest(S.Events(s, pageId), e) ensures e in listed {
      EventItemAt(t, s, pageId, e);
      var j :| 0 <= j < |sks| && sks[j] == SKOf(e);
      SameKeySameEvent(S.Events(s, pageId), e, listed[j]);
    }
    forall i, j | 0 <= i < j < |listed| ensures listed[i] != listed[j] {
      if listed[i] == listed[j] { LessIrreflexive(sks[i]); }
    }
  }

  lemma SameKeySameEvent(es: seq<PageEvent>, a: PageEvent, b: PageEvent)
    requires Latest(es, a) && Latest(es, b) && InRange(a.at) && InRange(b.at) && SKOf(a) == SKOf(b)
    ensures a == b
  {
    hide EventSK, EventName;
    EventSKInjective(a.at, EventName(a.kind), b.at, EventName(b.kind));
    EventNameInjective(a.kind, b.kind);
  }

  /** The transaction of an acceptance, on the invite and the creator read before it. */
  function Commit(s: S.State, inv: Invite, creator: User, accepter: User, now: Time): (S.State, S.Result<Pairing>)
    requires now >= 0 && forall k :: k in s.invites ==> s.invites[k].expiresAt >= 0
  {
    if inv.creatorId == accepter.id then
      (s, S.Err(S.Internal))
    else if inv.code !in s.invites || Unix(s.invites[inv.code].expiresAt) <= Unix(now) then
      (s, S.Err(S.NotFound))
    else
      var mine := S.AccepterPairing(inv, creator, accepter, now);
      (PutPairing(PutPairing(DeleteInvite(s, inv.code), mine), S.CreatorPairing(inv, accepter, now)), S.Ok(mine))
  }

  /** Whatever other calls did between the reads and the transaction: when it goes through, it is
      the reference's acceptance at that instant if and only if the stored invite is live and from
      the creator that was read, and that creator still goes by the name that was read; and an
      invite is spent by the first acceptance that goes through. */
  lemma CommitUnderInterference(s: S.State, inv: Invite, creator: User, accepter: User, checkedAt: Time, now: Time)
    requires now >= 0 && forall k :: k in s.invites ==> s.invites[k].expiresAt >= 0
    requires Commit(s, inv, creator, accepter, now).1.Ok?
    ensures inv.code in s.invites
    ensures Commit(s, inv, creator, accepter, now) == S.AcceptInvite(s, inv.code, accepter, checkedAt, now)
       <==> checkedAt < s.invites[inv.code].expiresAt
            && s.invites[inv.code].creatorId == inv.creatorId
            && inv.creatorId in s.users && s.users[inv.creatorId].displayName == creator.displayName
    ensures var after := Commit(s, inv, creator, accepter, now).0;
      inv.code !in after.invites && forall other, who, at :: at >= 0 ==> Commit(after, inv, other, who, at).1.Err?
  {
  }

  /** An acceptance whose reads saw the maps as s1 and s2 and whose transaction meets them as s. */
  function AcceptAcross(s1: S.State, s2: S.State, s: S.State, code: string, accepter: User, checkedAt: Time, now: Time)
      : (S.State, S.Result<Pairing>)
    requires now >= 0 && forall k :: k in s.invites ==> s.invites[k].expiresAt >= 0
  {
    if code !in s1.invites || s1.invites[code].expiresAt <= checkedAt then
      (s, S.Err(S.NotFound))
    else if s1.invites[code].creatorId !in s2.users then
      (s, S.Err(S.NotFound))
    else
      Commit(s, s1.invites[code], s2.users[s1.invites[code].creatorId], accepter, now)
  }

  /** If nothing happens in between, it is the acceptance on the table. */
  lemma AcceptWithoutInterference(s: S.State, code: string, accepter: User, checkedAt: Time, now: Time)
    requires S.Filed(s) && now >= 0 && forall k :: k in s.invites ==> s.invites[k].expiresAt >= 0
    ensures AcceptAcross(s, s, s, code, accepter, checkedAt, now) == AcceptOnTable(s, code, accepter, checkedAt, now)
  {
  }

  /** What the service sees of a page: its item, and the state attribute a condition reads. */
  lemma PageAttributes(t: Table, s: S.State, id: string)
    requires Represents(t, s)
    ensures var key := KeyOf(PageE(id));
      && (key in t <==> id in s.pages)
      && (key in t ==> PageTimed(s.pages[id]) && t[key] == PageItem(NewPageRecord(s.pages[id]))
                       && t[key].page.state == StateName(s.pages[id].state) && s.pages[id].id == id)
  {
    hide Represents, KeyOf, FormatNano;
    RepresentedIsSound(t, s);
    ReadRepresents(t, s, PageE(id));
  }

  lemma TransitionedRecord(p: Page, to: PageState, attempt: int)
    requires PageTimed(p)
    ensures NewPageRecord(p.(state := to, attempt := attempt))
      == NewPageRecord(p).(state := StateName(to), attempt := attempt)
  {
    hide KeyOf, FormatNano;
  }

  lemma AcknowledgedRecord(p: Page, note: string, at: Time)
    requires PageTimed(p) && InRange(at)
    ensures NewPageRecord(p.(state := Acked, ackedAt := Some(at), ackNote := note))
         == NewPageRecord(p).(state := StateName(Acked), ackedAt := FormatNano(at), ackNote := note)
  {
    hide KeyOf, FormatNano;
  }

  /** A record on an index decodes to the page it came from. */
  lemma IndexedPage(t: Table, s: S.State, side: Side, userId: string, since: Option<Time>, r: PageRecord)
      returns (p: Page)
    requires Represents(t, s) && (since.Some? ==> InRange(since.value))
    requires r in IndexRecords(t, side, UserPK(userId), Bound(since))
    ensures PageTimed(p) && NewPageRecord(p) == r && ToPage(r) == S.Ok(p)
  {
    hide Represents, NewPageRecord, ToPage, PageTimed, IndexRecords, SidePages, UserPK;
    IndexHolds(t, s, side, userId, since, r);
    p :| p in SidePages(s, side, userId, since) && PageTimed(p) && NewPageRecord(p) == r;
    PageRoundTrip(p);
  }

  lemma SameIdSamePage(t: Table, s: S.State, userId: string, since: Option<Time>, a: seq<Page>, b: seq<Page>)
    requires Represents(t, s) && (since.Some? ==> InRange(since.value))
    requires Fills(SidePages(s, Recipient, userId, since), a) && Fills(SidePages(s, Sender, userId, since), b)
    ensures forall p, q :: p in a + b && q in a + b && p.id == q.id ==> p == q
  {
    hide Represents, SidePages;
    IndexHoldsTimed(t, s, Recipient, userId, since);
    IndexHoldsTimed(t, s, Sender, userId, since);
  }

  lemma TruncatedStaysSorted(sorted: seq<Page>)
    requires NewestFirst(sorted)
    ensures NewestFirst(Truncate(sorted))
  {
  }

  /** strconv.Itoa */
  function Itoa(n: int): string {
    if n < 0 then "-" + Decimal(-n) else Decimal(n)
  }

  lemma EventRecordKey(e: PageEvent)
    requires InRange(e.at)
    ensures NewEventRecord(e).key == KeyOf(EventE(e.pageId, e.at, e.kind))
  {
  }

  lemma PairingKeys(p: Pairing, q: Pairing)
    requires p.createdAt >= 0 && q.createdAt >= 0
    ensures NewPairingRecord(p).key == KeyOf(PairE(p.userId, p.peerId))
      && NewPairingRecord(q).key == KeyOf(PairE(q.userId, q.peerId))
  {
  }

  /** The two copies of a pairing share an address only when a user pairs with themself. */
  lemma SameAddress(a: string, b: string)
    ensures KeyOf(PairE(a, b)) == KeyOf(PairE(b, a)) <==> a == b
  {
    if KeyOf(PairE(a, b)) == KeyOf(PairE(b, a)) { KeyInjective(PairE(a, b), PairE(b, a)); }
  }

  class Store {
    var table: Table
    ghost var model: S.State

    /** The table represents the reference maps. */
    ghost predicate Valid()
      reads this
    {
      Represents(table, model)
    }

    constructor ()
      ensures Valid() && model == S.EMPTY
    {
      table, model := map[], S.EMPTY;
      new;
      EmptyRepresents();
    }

    // ---------------------------------------------------------- the service

    function GetItem(key: Key): Option<Item>
      reads this
    {
      if key in table then Some(table[key]) else None
    }

    /** PK = pk AND begins_with(SK, prefix), ascending. */
    method Query(pk: string, prefix: string) returns (items: seq<Item>, sks: seq<string>)
      ensures Answers(table, pk, prefix, sks)
      ensures |items| == |sks|
      ensures forall i :: 0 <= i < |sks| ==> Key(pk, sks[i]) in table && items[i] == table[Key(pk, sks[i])]
    {
      hide Less;
      ghost var all := Found(table, pk, prefix);
      var left := Found(table, pk, prefix);
      items, sks := [], [];
      while left != {}
        invariant left <= all
        invariant forall sk :: sk in sks <==> sk in all && sk !in left
        invariant forall i, sk :: 0 <= i < |sks| && sk in left ==> Less(sks[i], sk)
        invariant forall i, j :: 0 <= i < j < |sks| ==> Less(sks[i], sks[j])
        invariant |items| == |sks|
        invariant forall i :: 0 <= i < |sks| ==> Key(pk, sks[i]) in table && items[i] == table[Key(pk, sks[i])]
        decreases |left|
      {
        var sk := Smallest(left);
        items, sks := items + [table[Key(pk, sk)]], sks + [sk];
        left := left - {sk};
      }
    }

    // ---------------------------------------------------------- users

    method PutUser(u: User)
      requires Valid() && InRange(u.createdAt)
      modifies this
      ensures Valid() && model == S.PutUser(old(model), u)
    {
      var item := NewUserRecord(u);
      table, model := table[item.key := UserItem(item)], S.PutUser(model, u);
      PutUserSimulates(old(table), old(model), u);
    }

    method GetUser(id: string) returns (r: S.Result<User>)
      requires Valid()
      ensures r == S.GetUser(model, id)
    {
      hide Represents, NewUserRecord, ToUser;
      RepresentedIsSound(table, model);
      ReadRepresents(table, model, UserE(id));
      var item := GetItem(Key(UserPK(id), SK_PROFILE));
      if item == None {
        return S.Err(S.NotFound);
      }
      UserRoundTrip(model.users[id]);
      return ToUser(item.value.user);
    }

    // ---------------------------------------------------------- devices

    method PutDevice(d: Device)
      requires Valid() && InRange(d.updatedAt)
      modifies this
      ensures Valid() && model == S.PutDevice(old(model), d)
    {
      var item := NewDeviceRecord(d);
      table, model := table[item.key := DeviceItem(item)], S.PutDevice(model, d);
      PutDeviceSimulates(old(table), old(model), d);
    }

    method DeleteDevice(userId: string, token: string)
      requires Valid()
      modifies this
      ensures Valid() && model == S.DeleteDevice(old(model), userId, token)
    {
      table, model := table - {Key(UserPK(userId), DeviceSK(token))}, S.DeleteDevice(model, userId, token);
      DeleteDeviceSimulates(old(table), old(model), userId, token);
    }

    method ListDevices(userId: string) returns (r: S.Result<seq<Device>>)
      requires Valid()
      ensures r.Ok? && S.ListsDevices(model, userId, r.value)
    {
      hide Represents, NewDeviceRecord, ToDevice, Less, Distinct, KeyOf, UserPK;
      RepresentedIsSound(table, model);
      var items, sks := Query(UserPK(userId), "DEVICE#");
      var devices: seq<Device> := [];
      DistinctEmpty<Device>();
      var i := 0;
      while i < |items|
        invariant 0 <= i <= |items| && |devices| == i
        invariant forall j :: 0 <= j < i ==>
                    (userId, devices[j].token) in model.devices
                      && model.devices[(userId, devices[j].token)] == devices[j]
                    && sks[j] == DeviceSK(devices[j].token)
        invariant Distinct(devices)
      {
        var d := DeviceOfItem(table, model, userId, sks[i]);
        var decoded := ToDevice(items[i].device);
        match decoded
        case Err(error) =>
          return S.Err(error);
        case Ok(device) =>
          DistinctKeys(devices, d, sks, i);
          devices := devices + [device];
        i := i + 1;
      }
      AllDevicesListed(table, model, userId, sks, devices);
      return S.Ok(devices);
    }

    // ---------------------------------------------------------- invites and pairings

    method CreateInvite(inv: Invite)
      requires Valid() && InRange(inv.expiresAt)
      modifies this
      ensures Valid() && model == S.CreateInvite(old(model), inv)
    {
      var item := NewInviteRecord(inv);
      table, model := table[item.key := InviteItem(item)], S.CreateInvite(model, inv);
      CreateInviteSimulates(old(table), old(model), inv);
    }

    method GetInvite(code: string) returns (r: S.Result<Invite>)
      requires Valid()
      ensures r == if code in model.invites then S.Ok(model.invites[code]) else S.Err(S.NotFound)
      ensures code in model.invites ==>
        KeyOf(InviteE(code)) in table && table[KeyOf(InviteE(code))] == InviteItem(NewInviteRecord(model.invites[code]))
    {
      hide Represents, NewInviteRecord, ToInvite;
      RepresentedIsSound(table, model);
      ReadRepresents(table, model, InviteE(code));
      var item := GetItem(Key(InvitePK(code), SK_META));
      if item == None {
        return S.Err(S.NotFound);
      }
      InviteRoundTrip(model.invites[code]);
      return ToInvite(item.value.invite);
    }

    /** The two reads are served by the store as it stood then, the transaction by the store as it
        is now; other calls may have come in between. */
    method AcceptInvite(atInvite: Store, atCreator: Store, code: string, accepter: User, checkedAt: Time, now: Time)
        returns (r: S.Result<Pairing>)
      requires Valid() && atInvite.Valid() && atCreator.Valid() && InRange(now)
      modifies this
      ensures (forall k :: k in old(model).invites ==> old(model).invites[k].expiresAt >= 0)
        && (model, r)
           == AcceptAcross(old(atInvite.model), old(atCreator.model), old(model), code, accepter, checkedAt, now)
      ensures Valid()
    {
      hide Represents, KeyOf, NewInviteRecord, Commit;
      RepresentedIsSound(table, model);
      var inv := atInvite.GetInvite(code);
      if inv.Err? {
        return S.Err(inv.error);
      }
      if inv.value.expiresAt <= checkedAt {
        return S.Err(S.NotFound);
      }
      var creator := atCreator.GetUser(inv.value.creatorId);
      if creator.Err? {
        return S.Err(creator.error);
      }
      r := CommitAccept(inv.value, creator.value, accepter, now);
    }

    /** Delete the invite if it is there and its deadline second is ahead, and put both pairings. */
    method CommitAccept(inv: Invite, creator: User, accepter: User, now: Time) returns (r: S.Result<Pairing>)
      requires Valid() && InRange(now)
      modifies this
      ensures (forall k :: k in old(model).invites ==> old(model).invites[k].expiresAt >= 0)
        && (model, r) == Commit(old(model), inv, creator, accepter, now)
      ensures Valid()
    {
      hide Represents, KeyOf, NewPairingRecord;
      RepresentedIsSound(table, model);
      ReadRepresents(table, model, InviteE(inv.code));
      var accepterPairing := Pairing(accepter.id, inv.creatorId, creator.displayName, PairingActive, now);
      var creatorPairing := Pairing(inv.creatorId, accepter.id, accepter.displayName, PairingActive, now);
      var accepterItem, creatorItem := NewPairingRecord(accepterPairing), NewPairingRecord(creatorPairing);
      var inviteKey := KeyOf(InviteE(inv.code));
      SameAddress(inv.creatorId, accepter.id);
      PairingKeys(accepterPairing, creatorPairing);
      if accepterItem.key == creatorItem.key {
        return S.Err(S.Internal);
      }
      if inviteKey !in table || table[inviteKey].invite.ttl <= Unix(now) {
        return S.Err(S.NotFound);
      }
      DeleteInviteSimulates(table, model, inv.code);
      table, model := table - {inviteKey}, DeleteInvite(model, inv.code);
      PutPairingSimulates(table, model, accepterPairing);
      table, model := table[accepterItem.key := PairingItem(accepterItem)], PutPairing(model, accepterPairing);
      PutPairingSimulates(table, model, creatorPairing);
      table, model := table[creatorItem.key := PairingItem(creatorItem)], PutPairing(model, creatorPairing);
      return S.Ok(accepterPairing);
    }

    method GetPairing(userId: string, peerId: string) returns (r: S.Result<Pairing>)
      requires Valid()
      ensures r == S.GetPairing(model, userId, peerId)
    {
      hide Represents, NewPairingRecord, ToPairing;
      RepresentedIsSound(table, model);
      ReadRepresents(table, model, PairE(userId, peerId));
      var item := GetItem(Key(UserPK(userId), PairSK(peerId)));
      if item == None {
        return S.Err(S.NotFound);
      }
      PairingRoundTrip(model.pairings[(userId, peerId)]);
      return ToPairing(item.value.pairing);
    }

    method ListPairings(userId: string) returns (r: S.Result<seq<Pairing>>)
      requires Valid()
      ensures r.Ok? && S.ListsPairings(model, userId, r.value)
    {
      hide Represents, NewPairingRecord, ToPairing, Less, Distinct, KeyOf, UserPK;
      RepresentedIsSound(table, model);
      var items, sks := Query(UserPK(userId), "PAIR#");
      var pairings: seq<Pairing> := [];
      DistinctEmpty<Pairing>();
      var i := 0;
      while i < |items|
        invariant 0 <= i <= |items| && |pairings| == i
        invariant forall j :: 0 <= j < i ==>
                    (userId, pairings[j].peerId) in model.pairings
                      && model.pairings[(userId, pairings[j].peerId)] == pairings[j]
                    && sks[j] == PairSK(pairings[j].peerId)
        invariant Distinct(pairings)
      {
        var p := PairingOfItem(table, model, userId, sks[i]);
        var decoded := ToPairing(items[i].pairing);
        match decoded
        case Err(error) =>
          return S.Err(error);
        case Ok(pairing) =>
          DistinctPeers(pairings, p, sks, i);
          pairings := pairings + [pairing];
        i := i + 1;
      }
      AllPairingsListed(table, model, userId, sks, pairings);
      return S.Ok(pairings);
    }

    /** SET status = blocked, if the item is there. */
    method BlockPairing(userId: string, peerId: string) returns (r: S.Outcome)
      requires Valid()
      modifies this
      ensures Valid() && (model, r) == S.BlockPairing(old(model), userId, peerId)
    {
      hide Represents;
      RepresentedIsSound(table, model);
      ReadRepresents(table, model, PairE(userId, peerId));
      var key := Key(UserPK(userId), PairSK(peerId));
      if key !in table {
        return S.Fail(S.NotFound);
      }
      ghost var blocked := model.pairings[(userId, peerId)].(status := PairingBlocked);
      PutPairingSimulates(table, model, blocked);
      table := table[key := PairingItem(table[key].pairing.(status := "blocked"))];
      model := PutPairing(model, blocked);
      return S.Pass;
    }

    // ---------------------------------------------------------- pages

    /** One transaction: the page and the idempotency guard if neither exists, and the event. */
    method CreatePage(p: Page) returns (r: S.Outcome)
      requires Valid() && PageTimed(p)
      modifies this
      ensures Valid() && (model, r) == S.CreatePage(old(model), p)
    {
      hide Represents, NewPageRecord, NewEventRecord, KeyOf;
      ReadRepresents(table, model, PageE(p.id));
      ReadRepresents(table, model, IdemE(p.idempotencyKey));
      var created := PageEvent(p.id, EvCreated, "", p.createdAt);
      var pageKey, idemKey, eventKey := KeyOf(PageE(p.id)), KeyOf(IdemE(p.idempotencyKey)),
        KeyOf(EventE(p.id, p.createdAt, EvCreated));
      var pageItem, eventItem := NewPageRecord(p), NewEventRecord(created);
      if pageKey in table || idemKey in table {
        return S.Fail(S.Conflict);
      }
      PutPageSimulates(table, model, p);
      table, model := table[pageKey := PageItem(pageItem)], PutPage(model, p);
      PutIdemSimulates(table, model, p.idempotencyKey, p.id);
      table, model := table[idemKey := IdemItem(IdemRecord(idemKey, p.id))], PutIdem(model, p.idempotencyKey, p.id);
      AppendEventSimulates(table, model, created);
      table, model := table[eventKey := EventItem(eventItem)], S.AppendEvent(model, created);
      return S.Pass;
    }

    method GetPage(id: string) returns (r: S.Result<Page>)
      requires Valid()
      ensures r == S.GetPage(model, id)
    {
      hide Represents, NewPageRecord, ToPage;
      RepresentedIsSound(table, model);
      ReadRepresents(table, model, PageE(id));
      var item := GetItem(Key(PagePK(id), SK_META));
      if item == None {
        return S.Err(S.NotFound);
      }
      PageRoundTrip(model.pages[id]);
      return ToPage(item.value.page);
    }

    method GetPageByIdempotencyKey(key: string) returns (r: S.Result<Page>)
      requires Valid()
      ensures r == S.GetPageByIdempotencyKey(model, key)
    {
      hide Represents;
      RepresentedIsSound(table, model);
      ReadRepresents(table, model, IdemE(key));
      var item := GetItem(Key(IdemPK(key), SK_META));
      if item == None {
        return S.Err(S.NotFound);
      }
      r := GetPage(item.value.idem.pageId);
    }

    /** The condition of an update, evaluated by the service: None is a validation error. */
    function CheckState(key: Key, condition: string, values: map<string, string>): Option<bool>
      reads this
    {
      Evaluate(condition, "#st", values, AttributeName(GetItem(key)))
    }

    method AckPage(id: string, note: string, at: Time) returns (r: S.Outcome)
      requires Valid() && InRange(at)
      modifies this
      ensures Valid() && (model, r) == AckOnTable(old(model), id, note, at)
    {
      hide Represents, FormatNano, StateName, Evaluate, Expression, Values, KeyOf, NewPageRecord, Itoa;
      PageAttributes(table, model, id);
      var from := [Created, Pushed, Delivered, Seen];
      var condition, values := StateInCondition("#st", from);
      FixedPlaceholdersFree(from);
      values := values[":to" := StateName(Acked)][":at" := FormatNano(at)][":note" := note];
      var key := KeyOf(PageE(id));
      ConditionMeansMembership("#st", from, values, if id in model.pages then Some(model.pages[id].state) else None);
      var check := CheckState(key, condition, values);
      if check.None? {
        return S.Fail(S.Internal);
      }
      if !check.value {
        return S.Fail(S.Conflict);
      }
      ghost var p := model.pages[id].(state := Acked, ackedAt := Some(at), ackNote := note);
      AcknowledgedRecord(model.pages[id], note, at);
      PutPageSimulates(table, model, p);
      var record := table[key].page;
      table := table[key :=
        PageItem(record.(state := values[":to"], ackedAt := values[":at"], ackNote := values[":note"]))];
      model := PutPage(model, p);
      return S.Pass;
    }

    method SetPageState(id: string, from: seq<PageState>, to: PageState, attempt: int) returns (r: S.Outcome)
      requires Valid()
      modifies this
      ensures Valid() && (model, r) == SetOnTable(old(model), id, from, to, attempt)
    {
      hide Represents, FormatNano, StateName, Evaluate, Expression, Values, KeyOf, NewPageRecord, Itoa;
      PageAttributes(table, model, id);
      var condition, values := StateInCondition("#st", from);
      FixedPlaceholdersFree(from);
      values := values[":to" := StateName(to)][":attempt" := Itoa(attempt)];
      var key := KeyOf(PageE(id));
      ConditionMeansMembership("#st", from, values, if id in model.pages then Some(model.pages[id].state) else None);
      var check := CheckState(key, condition, values);
      if check.None? {
        return S.Fail(S.Internal);
      }
      if !check.value {
        return S.Fail(S.Conflict);
      }
      ghost var p := model.pages[id].(state := to, attempt := attempt);
      TransitionedRecord(model.pages[id], to, attempt);
      PutPageSimulates(table, model, p);
      var record := table[key].page;
      table := table[key := PageItem(record.(state := values[":to"], attempt := attempt))];
      model := PutPage(model, p);
      return S.Pass;
    }

    // ---------------------------------------------------------- events

    method AppendEvent(e: PageEvent)
      requires Valid() && InRange(e.at)
      modifies this
      ensures Valid() && model == S.AppendEvent(old(model), e)
    {
      hide Represents, NewEventRecord;
      var item := NewEventRecord(e);
      AppendEventSimulates(table, model, e);
      EventRecordKey(e);
      table, model := table[item.key := EventItem(item)], S.AppendEvent(model, e);
    }

    method ListEvents(pageId: string) returns (r: S.Result<seq<PageEvent>>)
      requires Valid()
      ensures r.Ok? && ListsEvents(model, pageId, r.value)
      ensures Chronological(r.value) <==> NoneMisordered(S.Events(model, pageId))
    {
      hide Represents, NewEventRecord, ToEvent, Less, KeyOf, PagePK, Latest, S.Events, SKOf, ListsEvents,
        Chronological, NoneMisordered;
      var items, sks := Query(PagePK(pageId), "EVT#");
      var events: seq<PageEvent> := [];
      var i := 0;
      while i < |items|
        invariant 0 <= i <= |items| && |events| == i
        invariant forall j :: 0 <= j < i ==>
                    Latest(S.Events(model, pageId), events[j]) && InRange(events[j].at) && sks[j] == SKOf(events[j])
      {
        var e := EventOfItem(table, model, pageId, sks[i]);
        var decoded := ToEvent(items[i].event);
        match decoded
        case Err(error) =>
          return S.Err(error);
        case Ok(event) =>
          events := events + [event];
        i := i + 1;
      }
      EventsAreListed(table, model, pageId, sks, events);
      ChronologicalExactly(model, pageId, events);
      return S.Ok(events);
    }

    // ---------------------------------------------------------- listing

    /** One page index: the pages on that side of the user, in or after the second of since, the
        rearmost cut off when there are more than a hundred. */
    method QueryPageIndex(side: Side, userId: string, since: Option<Time>) returns (r: S.Result<seq<Page>>)
      requires Valid() && (since.Some? ==> InRange(since.value))
      ensures r.Ok?
      ensures Fills(SidePages(model, side, userId, since), r.value)
      ensures OmitsBehind(SidePages(model, side, userId, since), r.value)
    {
      hide Represents, NewPageRecord, ToPage, PageTimed, Fills, OmitsBehind, IndexRecords, SidePages, UserPK;
      var rs := QueryIndex(table, side, UserPK(userId), Bound(since));
      var pages: seq<Page> := [];
      var i := 0;
      while i < |rs|
        invariant 0 <= i <= |rs| && |pages| == i
        invariant forall j :: 0 <= j < i ==> PageTimed(pages[j]) && NewPageRecord(pages[j]) == rs[j]
      {
        var p := IndexedPage(table, model, side, userId, since, rs[i]);
        match ToPage(rs[i])
        case Err(error) =>
          return S.Err(error);
        case Ok(page) =>
          pages := pages + [page];
        i := i + 1;
      }
      HeadsArePages(table, model, side, userId, since, rs, pages);
      return S.Ok(pages);
    }

    /** Distinct pages, newest first, as many as there are up to a hundred; no page left out is of a
        later second than one returned; and none is newer at all exactly when the index cuts are
        harmless, in particular when neither index is cut inside a second. */
    method ListPagesFor(userId: string, since: Option<Time>) returns (r: S.Result<seq<Page>>)
      requires Valid() && (since.Some? ==> InRange(since.value))
      ensures r.Ok?
      ensures var matching := PagesInOrAfterSecond(model, userId, since);
        Fills(matching, r.value) && NewestFirst(r.value) && OmitsOlderSeconds(matching, r.value)
      ensures forall p :: p in r.value ==>
        p in IndexCut(SidePages(model, Recipient, userId, since)) + IndexCut(SidePages(model, Sender, userId, since))
      ensures OmitsOlder(PagesInOrAfterSecond(model, userId, since), r.value)
         <==> CutIsHarmless(SidePages(model, Recipient, userId, since), SidePages(model, Sender, userId, since))
      ensures CleanCut(SidePages(model, Recipient, userId, since)) && CleanCut(SidePages(model, Sender, userId, since))
        ==> OmitsOlder(PagesInOrAfterSecond(model, userId, since), r.value)
    {
      hide Represents, Fills, OmitsOlderSeconds, OmitsOlder, OmitsBehind, CutIsHarmless, CleanCut, IndexCut, SidePages,
        Distinct, NewestFirst;
      var asRecipient := QueryPageIndex(Recipient, userId, since);
      if asRecipient.Err? {
        return asRecipient;
      }
      var asSender := QueryPageIndex(Sender, userId, since);
      if asSender.Err? {
        return asSender;
      }
      SameIdSamePage(table, model, userId, since, asRecipient.value, asSender.value);
      var merged := MergeById(asRecipient.value, asSender.value);
      var sorted := SortNewestFirst(merged);
      PermutationKeeps(merged, sorted);
      ghost var ma, mb := SidePages(model, Recipient, userId, since), SidePages(model, Sender, userId, since);
      MergeCount(ma, mb, asRecipient.value, asSender.value, sorted);
      BehindIsNotLater(ma, asRecipient.value);
      BehindIsNotLater(mb, asSender.value);
      MergeIsExactIffHarmless(ma, mb, asRecipient.value, asSender.value, sorted);
      MergeOmitsOlderSeconds(ma, mb, asRecipient.value, asSender.value, sorted);
      if CleanCut(ma) && CleanCut(mb) {
        MergeOmitsOlder(ma, mb, asRecipient.value, asSender.value, sorted);
      }
      KeptIsIndexCut(ma, asRecipient.value);
      KeptIsIndexCut(mb, asSender.value);
      TruncatedStaysSorted(sorted);
      if |sorted| > LIMIT {
        sorted := sorted[..LIMIT];
      }
      return S.Ok(sorted);
    }
  }
}
