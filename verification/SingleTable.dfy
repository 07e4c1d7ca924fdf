/** What it means for the single table to represent the maps of the reference store: every
    entity of the maps is the item at its own address, and nothing else is in the table. Events
    are represented as a set keyed by (time, type): of several events of a page that agree on
    both, the table keeps the last. */
module SingleTable {
  import opened Model
  import opened Timestamps
  import opened Keys
  import opened Items
  import S = Store

  datatype Item =
    | UserItem(user: UserRecord)
    | DeviceItem(device: DeviceRecord)
    | PairingItem(pairing: PairingRecord)
    | InviteItem(invite: InviteRecord)
    | PageItem(page: PageRecord)
    | EventItem(event: EventRecord)
    | IdemItem(idem: IdemRecord)

  type Table = map<Key, Item>

  /** All instants in the maps have four-digit years. */
  ghost predicate AllInRange(s: S.State) {
    && (forall k :: k in s.users ==> InRange(s.users[k].createdAt))
    && (forall k :: k in s.devices ==> InRange(s.devices[k].updatedAt))
    && (forall k :: k in s.pairings ==> InRange(s.pairings[k].createdAt))
    && (forall k :: k in s.invites ==> InRange(s.invites[k].expiresAt))
    && (forall k :: k in s.pages ==> PageTimed(s.pages[k]))
    && (forall k, i :: k in s.events && 0 <= i < |s.events[k]| ==> InRange(s.events[k][i].at))
  }

  function LastEvent(es: seq<PageEvent>, at: Time, kind: EventType): Option<PageEvent> {
    if es == [] then None
    else
      var e := es[|es| - 1];
      if e.at == at && e.kind == kind then Some(e) else LastEvent(es[..|es| - 1], at, kind)
  }

  lemma {:induction false} LastEventIsThere(es: seq<PageEvent>, at: Time, kind: EventType)
    ensures var last := LastEvent(es, at, kind);
      && (last.Some? ==> last.value in es && last.value.at == at && last.value.kind == kind)
      && (last.None? ==> forall e :: e in es ==> !(e.at == at && e.kind == kind))
  {
    if es != [] {
      var n := |es| - 1;
      LastEventIsThere(es[..n], at, kind);
      assert es == es[..n] + [es[n]];
    }
  }

  /** Whether the maps hold an entity. */
  predicate Stored(s: S.State, e: Entity) {
    match e
    case UserE(id) => id in s.users
    case DeviceE(userId, token) => (userId, token) in s.devices
    case PairE(userId, peerId) => (userId, peerId) in s.pairings
    case InviteE(code) => code in s.invites
    case PageE(id) => id in s.pages
    case EventE(pageId, at, kind) => LastEvent(S.Events(s, pageId), at, kind).Some?
    case IdemE(key) => key in s.idem
  }

  /** The item that represents it. */
  function ItemOf(s: S.State, e: Entity): Item
    requires AllInRange(s) && Stored(s, e)
  {
    match e
    case UserE(id) => UserItem(NewUserRecord(s.users[id]))
    case DeviceE(userId, token) => DeviceItem(NewDeviceRecord(s.devices[(userId, token)]))
    case PairE(userId, peerId) => PairingItem(NewPairingRecord(s.pairings[(userId, peerId)]))
    case InviteE(code) => InviteItem(NewInviteRecord(s.invites[code]))
    case PageE(id) => PageItem(NewPageRecord(s.pages[id]))
    case EventE(pageId, at, kind) =>
      LastEventIsThere(S.Events(s, pageId), at, kind);
      EventItem(NewEventRecord(LastEvent(S.Events(s, pageId), at, kind).value))
    case IdemE(key) => IdemItem(IdemRecord(KeyOf(e), s.idem[key]))
  }

  /** The table holds exactly the items of the maps' entities, each at its own address. */
  ghost predicate Represents(t: Table, s: S.State) {
    && S.Filed(s) && AllInRange(s)
    && (forall e :: Timed(e) ==> (KeyOf(e) in t <==> Stored(s, e)))
    && (forall e :: Timed(e) && Stored(s, e) ==> t[KeyOf(e)] == ItemOf(s, e))
    && (forall k :: k in t ==> exists e :: Timed(e) && Stored(s, e) && KeyOf(e) == k)
  }

  lemma RepresentedIsSound(t: Table, s: S.State)
    requires Represents(t, s)
    ensures S.Filed(s) && AllInRange(s)
  {
  }

  /** Entity e is as it was. */
  ghost predicate Same(s: S.State, s': S.State, e: Entity)
    requires AllInRange(s) && AllInRange(s')
  {
    Stored(s', e) == Stored(s, e) && (Stored(s, e) ==> ItemOf(s', e) == ItemOf(s, e))
  }

  /** Writing one entity in the maps is one put in the table. */
  lemma PutRepresents(t: Table, s: S.State, s': S.State, e0: Entity, item: Item)
    requires Represents(t, s) && S.Filed(s') && AllInRange(s')
    requires Timed(e0) && Stored(s', e0) && item == ItemOf(s', e0)
    requires forall e :: Timed(e) && e != e0 ==> Same(s, s', e)
    ensures Represents(t[KeyOf(e0) := item], s')
  {
    hide KeyOf, S.Filed, AllInRange, ItemOf, Stored;
    var t' := t[KeyOf(e0) := item];
    forall e | Timed(e) ensures KeyOf(e) in t' <==> Stored(s', e) {
      if KeyOf(e) == KeyOf(e0) { KeyInjective(e, e0); } else { assert Same(s, s', e); }
    }
    forall e | Timed(e) && Stored(s', e) ensures t'[KeyOf(e)] == ItemOf(s', e) {
      if KeyOf(e) == KeyOf(e0) { KeyInjective(e, e0); } else { assert Same(s, s', e); }
    }
    forall k | k in t' ensures exists e :: Timed(e) && Stored(s', e) && KeyOf(e) == k {
      if k != KeyOf(e0) {
        var e :| Timed(e) && Stored(s, e) && KeyOf(e) == k;
        assert Same(s, s', e);
      }
    }
  }

  /** Removing one entity from the maps is one delete in the table. */
  lemma DeleteRepresents(t: Table, s: S.State, s': S.State, e0: Entity)
    requires Represents(t, s) && S.Filed(s') && AllInRange(s')
    requires Timed(e0) && !Stored(s', e0)
    requires forall e :: Timed(e) && e != e0 ==> Same(s, s', e)
    ensures Represents(t - {KeyOf(e0)}, s')
  {
    hide KeyOf, S.Filed, AllInRange, ItemOf, Stored;
    var t' := t - {KeyOf(e0)};
    forall e | Timed(e) ensures KeyOf(e) in t' <==> Stored(s', e) {
      if KeyOf(e) == KeyOf(e0) { KeyInjective(e, e0); } else { assert Same(s, s', e); }
    }
    forall e | Timed(e) && Stored(s', e) ensures t'[KeyOf(e)] == ItemOf(s', e) {
      if KeyOf(e) == KeyOf(e0) { KeyInjective(e, e0); } else { assert Same(s, s', e); }
    }
    forall k | k in t' ensures exists e :: Timed(e) && Stored(s', e) && KeyOf(e) == k {
      var e :| Timed(e) && Stored(s, e) && KeyOf(e) == k;
      assert Same(s, s', e);
    }
  }

  lemma EmptyRepresents()
    ensures Represents(map[], S.EMPTY)
  {
  }

  /** What a point read finds. */
  lemma ReadRepresents(t: Table, s: S.State, e: Entity)
    requires Represents(t, s) && Timed(e)
    ensures KeyOf(e) in t <==> Stored(s, e)
    ensures Stored(s, e) ==> t[KeyOf(e)] == ItemOf(s, e)
  {
  }

  ghost predicate SameItems(s1: S.State, s2: S.State) {
    && AllInRange(s1) && AllInRange(s2)
    && forall e :: Timed(e) ==> Same(s1, s2, e)
  }

  lemma UniqueUsers(s1: S.State, s2: S.State)
    requires SameItems(s1, s2)
    ensures s1.users == s2.users
  {
    hide KeyOf, FormatNano, S.Filed;
    forall k: string ensures k in s1.users <==> k in s2.users {
      assert Same(s1, s2, UserE(k));
    }
    forall k | k in s1.users ensures s1.users[k] == s2.users[k] {
      assert Same(s1, s2, UserE(k));
      UserRoundTrip(s1.users[k]); UserRoundTrip(s2.users[k]);
    }
  }

  lemma UniqueDevices(s1: S.State, s2: S.State)
    requires SameItems(s1, s2)
    ensures s1.devices == s2.devices
  {
    hide KeyOf, FormatNano, S.Filed;
    forall k: (string, string) ensures k in s1.devices <==> k in s2.devices {
      assert Same(s1, s2, DeviceE(k.0, k.1));
    }
    forall k | k in s1.devices ensures s1.devices[k] == s2.devices[k] {
      assert Same(s1, s2, DeviceE(k.0, k.1));
      DeviceRoundTrip(s1.devices[k]); DeviceRoundTrip(s2.devices[k]);
    }
  }

  lemma UniquePairings(s1: S.State, s2: S.State)
    requires SameItems(s1, s2)
    ensures s1.pairings == s2.pairings
  {
    hide KeyOf, FormatNano, S.Filed;
    forall k: (string, string) ensures k in s1.pairings <==> k in s2.pairings {
      assert Same(s1, s2, PairE(k.0, k.1));
    }
    forall k | k in s1.pairings ensures s1.pairings[k] == s2.pairings[k] {
      assert Same(s1, s2, PairE(k.0, k.1));
      PairingRoundTrip(s1.pairings[k]); PairingRoundTrip(s2.pairings[k]);
    }
  }

  lemma UniqueInvites(s1: S.State, s2: S.State)
    requires SameItems(s1, s2)
    ensures s1.invites == s2.invites
  {
    hide KeyOf, FormatNano, S.Filed;
    forall k: string ensures k in s1.invites <==> k in s2.invites {
      assert Same(s1, s2, InviteE(k));
    }
    forall k | k in s1.invites ensures s1.invites[k] == s2.invites[k] {
      assert Same(s1, s2, InviteE(k));
      InviteRoundTrip(s1.invites[k]); InviteRoundTrip(s2.invites[k]);
    }
  }

  lemma SamePage(s1: S.State, s2: S.State, id: string)
    requires AllInRange(s1) && AllInRange(s2) && Same(s1, s2, PageE(id))
    ensures id in s1.pages <==> id in s2.pages
    ensures id in s1.pages ==> s1.pages[id] == s2.pages[id]
  {
    hide NewPageRecord, PageTimed;
    if id in s1.pages {
      PageRoundTrip(s1.pages[id]);
      PageRoundTrip(s2.pages[id]);
    }
  }

  lemma UniquePages(s1: S.State, s2: S.State)
    requires SameItems(s1, s2)
    ensures s1.pages == s2.pages
  {
    hide KeyOf, FormatNano, S.Filed, NewPageRecord, AllInRange, Same;
    forall k: string ensures k in s1.pages <==> k in s2.pages && (k in s1.pages ==> s1.pages[k] == s2.pages[k]) {
      SamePage(s1, s2, k);
    }
  }

  lemma UniqueIdem(s1: S.State, s2: S.State)
    requires SameItems(s1, s2)
    ensures s1.idem == s2.idem
  {
    hide KeyOf, FormatNano, S.Filed;
    forall k: string ensures k in s1.idem <==> k in s2.idem {
      assert Same(s1, s2, IdemE(k));
    }
    forall k | k in s1.idem ensures s1.idem[k] == s2.idem[k] {
      assert Same(s1, s2, IdemE(k));
    }
  }

  lemma BothRepresented(t: Table, s1: S.State, s2: S.State)
    requires Represents(t, s1) && Represents(t, s2)
    ensures SameItems(s1, s2)
  {
    hide KeyOf, S.Filed, Stored, ItemOf, AllInRange;
  }

  /** One table represents at most one reference store, up to the timelines: users, devices,
      pairings, invites, pages and idempotency keys are functions of the table, and so is the last
      event of each time and type of each page. */
  lemma RepresentedMapsAreUnique(t: Table, s1: S.State, s2: S.State)
    requires Represents(t, s1) && Represents(t, s2)
    ensures s1.users == s2.users && s1.devices == s2.devices && s1.pairings == s2.pairings
    ensures s1.invites == s2.invites && s1.pages == s2.pages && s1.idem == s2.idem
  {
    hide Represents, SameItems;
    BothRepresented(t, s1, s2);
    UniqueUsers(s1, s2);
    UniqueDevices(s1, s2);
    UniquePairings(s1, s2);
    UniqueInvites(s1, s2);
    UniquePages(s1, s2);
    UniqueIdem(s1, s2);
  }
}
