/** What a begins-with query on one partition of the table finds. */
module Queries {
  import opened Model
  import opened Text
  import opened Timestamps
  import opened Keys
  import opened Items
  import opened SingleTable
  import opened Counting
  import S = Store

  /** The smallest of some sort keys. */
  lemma {:induction false} SmallestExists(sks: set<string>)
    requires sks != {}
    ensures exists sk :: sk in sks && forall other :: other in sks ==> !Less(other, sk)
  {
    var x :| x in sks;
    var rest := sks - {x};
    LessIrreflexive(x);
    if rest == {} {
      assert sks == {x};
    } else {
      SmallestExists(rest);
      var y :| y in rest && forall other :: other in rest ==> !Less(other, y);
      if Less(x, y) {
        forall other | other in sks ensures !Less(other, x) {
          if other != x && Less(other, x) { LessTransitive(other, x, y); }
        }
      } else {
        assert forall other :: other in sks ==> other == x || other in rest;
      }
    }
  }

  /** A query answers with the sort keys of one partition that begin with a prefix, ascending. */
  ghost predicate Answers(t: Table, pk: string, prefix: string, sks: seq<string>) {
    && (forall sk :: sk in sks <==> Key(pk, sk) in t && prefix <= sk)
    && forall i, j :: 0 <= i < j < |sks| ==> Less(sks[i], sks[j])
  }

  lemma PrefixTail(prefix: string, sk: string)
    requires prefix <= sk
    ensures sk == prefix + sk[|prefix|..]
  {
  }

  /** Who lives at an occupied address. */
  lemma Occupant(t: Table, s: S.State, k: Key) returns (e: Entity)
    requires Represents(t, s) && k in t
    ensures Timed(e) && Stored(s, e) && KeyOf(e) == k && t[k] == ItemOf(s, e)
  {
    hide KeyOf, Stored, ItemOf, S.Filed, AllInRange;
    e :| Timed(e) && Stored(s, e) && KeyOf(e) == k;
  }

  /** "DEVICE#" in a user's partition finds that user's devices and nothing else. */
  lemma DeviceAt(t: Table, s: S.State, userId: string, sk: string)
    requires Represents(t, s)
    ensures (Key(UserPK(userId), sk) in t && "DEVICE#" <= sk)
       <==> exists token :: (userId, token) in s.devices && sk == DeviceSK(token)
    ensures forall token :: (userId, token) in s.devices && sk == DeviceSK(token) ==>
              t[Key(UserPK(userId), sk)] == DeviceItem(NewDeviceRecord(s.devices[(userId, token)]))
  {
    hide Represents, EventSK, EventName, NewDeviceRecord, NewUserRecord, NewPairingRecord, NewPageRecord,
      NewEventRecord, NewInviteRecord;
    var k := Key(UserPK(userId), sk);
    RepresentedIsSound(t, s);
    if k in t && "DEVICE#" <= sk {
      var e := Occupant(t, s, k);
      Prefixes(e);
      PrefixTail("DEVICE#", sk);
      TakePrefix("DEVICE#", sk[7..], 4);
      assert "DEVICE#"[..4] == "DEVI";
      TakePrefix("USER#", userId, 5);
      assert e.DeviceE?;
      ConcatInjective("USER#", "USER#", userId, e.userId);
      assert (userId, e.token) in s.devices && sk == DeviceSK(e.token);
    }
    forall token | (userId, token) in s.devices && sk == DeviceSK(token)
      ensures k in t && "DEVICE#" <= sk && t[k] == DeviceItem(NewDeviceRecord(s.devices[(userId, token)]))
    {
      ReadRepresents(t, s, DeviceE(userId, token));
    }
  }

  /** "PAIR#" in a user's partition finds that user's pairings and nothing else. */
  lemma PairAt(t: Table, s: S.State, userId: string, sk: string)
    requires Represents(t, s)
    ensures (Key(UserPK(userId), sk) in t && "PAIR#" <= sk)
       <==> exists peerId :: (userId, peerId) in s.pairings && sk == PairSK(peerId)
    ensures forall peerId :: (userId, peerId) in s.pairings && sk == PairSK(peerId) ==>
              t[Key(UserPK(userId), sk)] == PairingItem(NewPairingRecord(s.pairings[(userId, peerId)]))
  {
    hide Represents, EventSK, EventName, NewDeviceRecord, NewUserRecord, NewPairingRecord, NewPageRecord,
      NewEventRecord, NewInviteRecord;
    var k := Key(UserPK(userId), sk);
    RepresentedIsSound(t, s);
    if k in t && "PAIR#" <= sk {
      var e := Occupant(t, s, k);
      Prefixes(e);
      PrefixTail("PAIR#", sk);
      TakePrefix("PAIR#", sk[5..], 4);
      assert "PAIR#"[..4] == "PAIR";
      TakePrefix("USER#", userId, 5);
      assert e.PairE?;
      ConcatInjective("USER#", "USER#", userId, e.userId);
      assert (userId, e.peerId) in s.pairings && sk == PairSK(e.peerId);
    }
    forall peerId | (userId, peerId) in s.pairings && sk == PairSK(peerId)
      ensures k in t && "PAIR#" <= sk && t[k] == PairingItem(NewPairingRecord(s.pairings[(userId, peerId)]))
    {
      ReadRepresents(t, s, PairE(userId, peerId));
    }
  }

  /** The event is the last of its time and type on the page. */
  predicate Latest(es: seq<PageEvent>, e: PageEvent) {
    LastEvent(es, e.at, e.kind) == Some(e)
  }

  function SKOf(e: PageEvent): string
    requires InRange(e.at)
  {
    EventSK(e.at, EventName(e.kind))
  }

  lemma EventsInRange(t: Table, s: S.State, pageId: string)
    requires Represents(t, s)
    ensures forall e :: e in S.Events(s, pageId) ==> InRange(e.at) && e.pageId == pageId
  {
    hide KeyOf, Stored, ItemOf;
  }

  /** The item at the address of a latest event. */
  lemma EventItemAt(t: Table, s: S.State, pageId: string, e: PageEvent)
    requires Represents(t, s) && Latest(S.Events(s, pageId), e)
    ensures InRange(e.at) && e.pageId == pageId
    ensures Key(PagePK(pageId), SKOf(e)) in t && t[Key(PagePK(pageId), SKOf(e))] == EventItem(NewEventRecord(e))
    ensures "EVT#" <= SKOf(e)
  {
    hide Represents, EventName, NewEventRecord, FormatNano, S.Events, LastEvent;
    EventsInRange(t, s, pageId);
    LastEventIsThere(S.Events(s, pageId), e.at, e.kind);
    ReadRepresents(t, s, EventE(pageId, e.at, e.kind));
  }

  /** "EVT#" in a page's partition finds the latest events of that page and nothing else. */
  lemma EventAt(t: Table, s: S.State, pageId: string, sk: string)
    requires Represents(t, s)
    ensures (Key(PagePK(pageId), sk) in t && "EVT#" <= sk)
       <==> exists e :: Latest(S.Events(s, pageId), e) && InRange(e.at) && sk == SKOf(e)
  {
    hide Represents, EventSK, EventName, NewDeviceRecord, NewUserRecord, NewPairingRecord, NewPageRecord,
      NewEventRecord, NewInviteRecord, S.Events, LastEvent;
    var k := Key(PagePK(pageId), sk);
    if k in t && "EVT#" <= sk {
      var n := Occupant(t, s, k);
      Prefixes(n);
      PrefixTail("EVT#", sk);
      TakePrefix("EVT#", sk[4..], 4);
      TakePrefix("PAGE#", pageId, 5);
      assert n.EventE?;
      ConcatInjective("PAGE#", "PAGE#", pageId, n.pageId);
      var e := LastEvent(S.Events(s, pageId), n.at, n.kind).value;
      LastEventIsThere(S.Events(s, pageId), n.at, n.kind);
      assert Latest(S.Events(s, pageId), e) && InRange(e.at) && sk == SKOf(e);
    }
    forall e | Latest(S.Events(s, pageId), e) && InRange(e.at) && sk == SKOf(e)
      ensures k in t && "EVT#" <= sk
    {
      EventItemAt(t, s, pageId, e);
    }
  }

  // ------------------------------------------------------------ timelines as sets

  /** What the table keeps of a timeline. */
  function LatestOf(es: seq<PageEvent>): set<PageEvent> {
    set e | e in es && Latest(es, e)
  }

  /** No two events of the timeline share time and type. */
  predicate NoClash(es: seq<PageEvent>) {
    forall i, j :: 0 <= i < j < |es| ==> !(es[i].at == es[j].at && es[i].kind == es[j].kind)
  }

  /** The table keeps every event of a timeline exactly when no two share time and type. */
  lemma {:induction false} KeepsAllUnlessClash(es: seq<PageEvent>)
    ensures |LatestOf(es)| <= |es|
    ensures |LatestOf(es)| == |es| <==> NoClash(es)
  {
    if es == [] {
      assert LatestOf(es) == {};
    } else {
      hide LatestOf, NoClash, LastEvent;
      var init, x := es[..|es| - 1], es[|es| - 1];
      assert es == init + [x];
      KeepsAllUnlessClash(init);
      LatestCount(init, x);
      ClashAfterAppend(init, x);
    }
  }

  lemma LatestCount(init: seq<PageEvent>, x: PageEvent)
    ensures |LatestOf(init + [x])| == |LatestOf(init)| + if LastEvent(init, x.at, x.kind).None? then 1 else 0
  {
    hide LastEvent;
    LatestAfterAppend(init, x);
    LastEventIsThere(init, x.at, x.kind);
    var same := LastEvent(init, x.at, x.kind);
    var before, dropped := LatestOf(init), if same.Some? then {same.value} else {};
    assert x !in before - dropped;
    assert dropped <= before;
    assert |before - dropped| == |before| - |dropped|;
  }

  lemma ClashAfterAppend(init: seq<PageEvent>, x: PageEvent)
    ensures NoClash(init + [x]) <==> NoClash(init) && LastEvent(init, x.at, x.kind).None?
  {
    hide LastEvent;
    LastEventIsThere(init, x.at, x.kind);
    var es, same := init + [x], LastEvent(init, x.at, x.kind);
    assert es[..|init|] == init && es[|init|] == x;
    if same.Some? {
      var i :| 0 <= i < |init| && init[i] == same.value;
      assert es[i].at == x.at && es[i].kind == x.kind;
    }
    if NoClash(es) {
      forall i, j | 0 <= i < j < |init| ensures !(init[i].at == init[j].at && init[i].kind == init[j].kind) {
        assert es[i] == init[i] && es[j] == init[j];
      }
    }
  }

  lemma LatestAfterAppend(init: seq<PageEvent>, x: PageEvent)
    ensures var same := LastEvent(init, x.at, x.kind);
      LatestOf(init + [x]) == (LatestOf(init) - (if same.Some? then {same.value} else {})) + {x}
  {
    var es := init + [x];
    assert es[..|es| - 1] == init;
    LastEventIsThere(init, x.at, x.kind);
    forall e ensures Latest(es, e) <==> e == x || (Latest(init, e) && !(e.at == x.at && e.kind == x.kind)) {
    }
    forall e ensures Latest(init, e) ==> e in init {
      LastEventIsThere(init, e.at, e.kind);
    }
  }

  /** A listing of a page's events from the table: the latest of each time and type, once each,
      in the order of their keys. */
  ghost predicate ListsEvents(s: S.State, pageId: string, listed: seq<PageEvent>) {
    && (forall e :: e in listed <==> Latest(S.Events(s, pageId), e))
    && Distinct(listed)
    && (forall e :: e in listed ==> InRange(e.at))
    && (forall i, j :: 0 <= i < j < |listed| ==> Less(SKOf(listed[i]), SKOf(listed[j])))
  }

  /** The listing of a timeline has all its events exactly when no two of them share time and type. */
  lemma ListingIsComplete(s: S.State, pageId: string, listed: seq<PageEvent>)
    requires ListsEvents(s, pageId, listed)
    ensures |listed| == |S.Events(s, pageId)| <==> NoClash(S.Events(s, pageId))
    ensures NoClash(S.Events(s, pageId)) ==> forall e :: e in listed <==> e in S.Events(s, pageId)
  {
    hide Latest, S.Events;
    var es := S.Events(s, pageId);
    DistinctCount(listed);
    KeepsAllUnlessClash(es);
    forall e | Latest(es, e) ensures e in es { LatestIsThere(es, e); }
    assert (set e | e in listed) == LatestOf(es);
    if NoClash(es) {
      forall e | e in es ensures Latest(es, e) { LatestWithoutClash(es, e); }
    }
  }

  predicate Chronological(listed: seq<PageEvent>) {
    forall i, j :: 0 <= i < j < |listed| ==> listed[i].at <= listed[j].at
  }

  /** No two events of the timeline stand the wrong way round in the table. */
  ghost predicate NoneMisordered(es: seq<PageEvent>) {
    forall a, b :: a in es && b in es ==> !Misordered(a.at, b.at)
  }

  /** Two listed events stand as their instants do exactly when these are not misordered. */
  lemma ListedPair(listed: seq<PageEvent>, i: int, j: int)
    requires 0 <= i < j < |listed| && InRange(listed[i].at) && InRange(listed[j].at)
    requires Less(SKOf(listed[i]), SKOf(listed[j]))
    ensures listed[i].at <= listed[j].at <==> !Misordered(listed[j].at, listed[i].at)
    ensures !Misordered(listed[i].at, listed[j].at)
  {
    hide Less, EventSK, Misordered, EventName;
    var a, b := listed[i], listed[j];
    LessIrreflexive(SKOf(a));
    if Less(SKOf(b), SKOf(a)) { LessTransitive(SKOf(a), SKOf(b), SKOf(a)); }
    if a.at < b.at {
      EventSKOrderExactly(a.at, EventName(a.kind), b.at, EventName(b.kind));
    } else if b.at < a.at {
      EventSKOrderExactly(b.at, EventName(b.kind), a.at, EventName(a.kind));
    }
    MisorderedIsEarlier(a.at, b.at);
    MisorderedIsEarlier(b.at, a.at);
  }

  lemma MisorderedIsEarlier(at1: Time, at2: Time)
    ensures Misordered(at1, at2) ==> at1 < at2
  {
  }

  /** A listing is chronological if and only if no two events of the timeline are misordered. */
  lemma ChronologicalExactly(s: S.State, pageId: string, listed: seq<PageEvent>)
    requires ListsEvents(s, pageId, listed)
    ensures Chronological(listed) <==> NoneMisordered(S.Events(s, pageId))
  {
    hide Latest, S.Events, Less, SKOf, Misordered;
    var es := S.Events(s, pageId);
    if NoneMisordered(es) {
      forall i, j | 0 <= i < j < |listed| ensures listed[i].at <= listed[j].at {
        LatestIsThere(es, listed[i]);
        LatestIsThere(es, listed[j]);
        ListedPair(listed, i, j);
      }
    }
    if Chronological(listed) {
      forall a, b | a in es && b in es ensures !Misordered(a.at, b.at) {
        var i := ListedAt(s, pageId, listed, a);
        var j := ListedAt(s, pageId, listed, b);
        InOrder(listed, i, j);
      }
    }
  }

  /** Every event of the timeline is listed, or a later one of its time and type is. */
  lemma ListedAt(s: S.State, pageId: string, listed: seq<PageEvent>, e: PageEvent) returns (i: nat)
    requires ListsEvents(s, pageId, listed) && e in S.Events(s, pageId)
    ensures i < |listed| && listed[i].at == e.at
  {
    hide S.Events, Less, SKOf;
    LastEventIsThere(S.Events(s, pageId), e.at, e.kind);
    var last := LastEvent(S.Events(s, pageId), e.at, e.kind).value;
    assert Latest(S.Events(s, pageId), last);
    i :| 0 <= i < |listed| && listed[i] == last;
  }

  lemma InOrder(listed: seq<PageEvent>, i: nat, j: nat)
    requires i < |listed| && j < |listed| && Chronological(listed)
    requires forall e :: e in listed ==> InRange(e.at)
    requires forall k, l :: 0 <= k < l < |listed| ==> Less(SKOf(listed[k]), SKOf(listed[l]))
    ensures !Misordered(listed[i].at, listed[j].at)
  {
    hide Less, SKOf, Misordered;
    if i < j {
      ListedPair(listed, i, j);
    } else if j < i {
      ListedPair(listed, j, i);
    } else {
      MisorderedIsEarlier(listed[i].at, listed[j].at);
    }
  }

  /** A page created on the whole second whose next event falls into the same second: its timeline
      is never listed in order. */
  lemma ListingCanMisorder(s: S.State, p: Page, e: PageEvent, listed: seq<PageEvent>)
    requires S.CreatePage(s, p).1.Pass? && p.id !in s.events && e.pageId == p.id
    requires InRange(p.createdAt) && InRange(e.at) && Nanos(p.createdAt) == 0
    requires p.createdAt < e.at && Seconds(e.at) == Seconds(p.createdAt)
    requires ListsEvents(S.AppendEvent(S.CreatePage(s, p).0, e), p.id, listed)
    ensures !Chronological(listed)
  {
    hide Misordered, ListsEvents;
    var after := S.AppendEvent(S.CreatePage(s, p).0, e);
    var created := PageEvent(p.id, EvCreated, "", p.createdAt);
    assert S.Events(after, p.id) == [created, e];
    WholeSecondsMisorder(p.createdAt, e.at);
    assert created in S.Events(after, p.id) && e in S.Events(after, p.id);
    ChronologicalExactly(after, p.id, listed);
  }

  lemma LatestIsThere(es: seq<PageEvent>, e: PageEvent)
    requires Latest(es, e)
    ensures e in es
  {
    LastEventIsThere(es, e.at, e.kind);
  }

  lemma LatestWithoutClash(es: seq<PageEvent>, e: PageEvent)
    requires NoClash(es) && e in es
    ensures Latest(es, e)
  {
    LastEventIsThere(es, e.at, e.kind);
    var last := LastEvent(es, e.at, e.kind).value;
    var i, j :| 0 <= i < |es| && 0 <= j < |es| && es[i] == e && es[j] == last;
  }
}
