/** Each way the store changes the maps is one write to the table. */
module Simulation {
  import opened Model
  import opened Timestamps
  import opened Keys
  import opened Items
  import opened SingleTable
  import S = Store

  // ------------------------------------------------------------ single writes

  lemma PutUserSimulates(t: Table, s: S.State, u: User)
    requires Represents(t, s) && InRange(u.createdAt)
    ensures Represents(t[KeyOf(UserE(u.id)) := UserItem(NewUserRecord(u))], S.PutUser(s, u))
  {
    hide KeyOf, Represents, LastEvent, NewUserRecord, NewDeviceRecord, NewPairingRecord, NewInviteRecord,
      NewPageRecord, NewEventRecord, S.Events;
    var s' := S.PutUser(s, u);
    RepresentedIsSound(t, s);
    assert S.Filed(s') && AllInRange(s');
    forall e | Timed(e) && e != UserE(u.id) ensures Same(s, s', e) {
      EventsUnchanged(s, s');
    }
    PutRepresents(t, s, s', UserE(u.id), UserItem(NewUserRecord(u)));
  }

  lemma EventsUnchanged(s: S.State, s': S.State)
    requires s.events == s'.events
    ensures forall id :: S.Events(s, id) == S.Events(s', id)
  {
  }

  lemma PutDeviceSimulates(t: Table, s: S.State, d: Device)
    requires Represents(t, s) && InRange(d.updatedAt)
    ensures Represents(t[KeyOf(DeviceE(d.userId, d.token)) := DeviceItem(NewDeviceRecord(d))], S.PutDevice(s, d))
  {
    hide KeyOf, Represents, LastEvent, NewUserRecord, NewDeviceRecord, NewPairingRecord, NewInviteRecord,
      NewPageRecord, NewEventRecord, S.Events;
    var s', e0 := S.PutDevice(s, d), DeviceE(d.userId, d.token);
    RepresentedIsSound(t, s);
    assert S.Filed(s') && AllInRange(s');
    forall e | Timed(e) && e != e0 ensures Same(s, s', e) {
      EventsUnchanged(s, s');
    }
    PutRepresents(t, s, s', e0, DeviceItem(NewDeviceRecord(d)));
  }

  lemma DeleteDeviceSimulates(t: Table, s: S.State, userId: string, token: string)
    requires Represents(t, s)
    ensures Represents(t - {KeyOf(DeviceE(userId, token))}, S.DeleteDevice(s, userId, token))
  {
    hide KeyOf, Represents, LastEvent, NewUserRecord, NewDeviceRecord, NewPairingRecord, NewInviteRecord,
      NewPageRecord, NewEventRecord, S.Events;
    var s', e0 := S.DeleteDevice(s, userId, token), DeviceE(userId, token);
    RepresentedIsSound(t, s);
    assert S.Filed(s') && AllInRange(s');
    forall e | Timed(e) && e != e0 ensures Same(s, s', e) {
      EventsUnchanged(s, s');
    }
    DeleteRepresents(t, s, s', e0);
  }

  function PutPairing(s: S.State, p: Pairing): S.State {
    s.(pairings := s.pairings[(p.userId, p.peerId) := p])
  }

  lemma PutPairingSimulates(t: Table, s: S.State, p: Pairing)
    requires Represents(t, s) && InRange(p.createdAt)
    ensures Represents(t[KeyOf(PairE(p.userId, p.peerId)) := PairingItem(NewPairingRecord(p))], PutPairing(s, p))
  {
    hide KeyOf, Represents, LastEvent, NewUserRecord, NewDeviceRecord, NewPairingRecord, NewInviteRecord,
      NewPageRecord, NewEventRecord, S.Events;
    var s', e0 := PutPairing(s, p), PairE(p.userId, p.peerId);
    RepresentedIsSound(t, s);
    assert S.Filed(s') && AllInRange(s');
    forall e | Timed(e) && e != e0 ensures Same(s, s', e) {
      EventsUnchanged(s, s');
    }
    PutRepresents(t, s, s', e0, PairingItem(NewPairingRecord(p)));
  }

  lemma CreateInviteSimulates(t: Table, s: S.State, inv: Invite)
    requires Represents(t, s) && InRange(inv.expiresAt)
    ensures Represents(t[KeyOf(InviteE(inv.code)) := InviteItem(NewInviteRecord(inv))], S.CreateInvite(s, inv))
  {
    hide KeyOf, Represents, LastEvent, NewUserRecord, NewDeviceRecord, NewPairingRecord, NewInviteRecord,
      NewPageRecord, NewEventRecord, S.Events;
    var s', e0 := S.CreateInvite(s, inv), InviteE(inv.code);
    RepresentedIsSound(t, s);
    assert S.Filed(s') && AllInRange(s');
    forall e | Timed(e) && e != e0 ensures Same(s, s', e) {
      EventsUnchanged(s, s');
    }
    PutRepresents(t, s, s', e0, InviteItem(NewInviteRecord(inv)));
  }

  function DeleteInvite(s: S.State, code: string): S.State {
    s.(invites := s.invites - {code})
  }

  lemma DeleteInviteSimulates(t: Table, s: S.State, code: string)
    requires Represents(t, s)
    ensures Represents(t - {KeyOf(InviteE(code))}, DeleteInvite(s, code))
  {
    hide KeyOf, Represents, LastEvent, NewUserRecord, NewDeviceRecord, NewPairingRecord, NewInviteRecord,
      NewPageRecord, NewEventRecord, S.Events;
    var s', e0 := DeleteInvite(s, code), InviteE(code);
    RepresentedIsSound(t, s);
    assert S.Filed(s') && AllInRange(s');
    forall e | Timed(e) && e != e0 ensures Same(s, s', e) {
      EventsUnchanged(s, s');
    }
    DeleteRepresents(t, s, s', e0);
  }

  function PutPage(s: S.State, p: Page): S.State {
    s.(pages := s.pages[p.id := p])
  }

  lemma PutPageSimulates(t: Table, s: S.State, p: Page)
    requires Represents(t, s) && PageTimed(p)
    ensures Represents(t[KeyOf(PageE(p.id)) := PageItem(NewPageRecord(p))], PutPage(s, p))
  {
    hide KeyOf, Represents, LastEvent, NewUserRecord, NewDeviceRecord, NewPairingRecord, NewInviteRecord,
      NewPageRecord, NewEventRecord, S.Events;
    var s', e0 := PutPage(s, p), PageE(p.id);
    RepresentedIsSound(t, s);
    assert S.Filed(s') && AllInRange(s');
    forall e | Timed(e) && e != e0 ensures Same(s, s', e) {
      EventsUnchanged(s, s');
    }
    PutRepresents(t, s, s', e0, PageItem(NewPageRecord(p)));
  }

  function PutIdem(s: S.State, key: string, pageId: string): S.State {
    s.(idem := s.idem[key := pageId])
  }

  lemma PutIdemSimulates(t: Table, s: S.State, key: string, pageId: string)
    requires Represents(t, s)
    ensures Represents(t[KeyOf(IdemE(key)) := IdemItem(IdemRecord(KeyOf(IdemE(key)), pageId))], PutIdem(s, key, pageId))
  {
    hide KeyOf, Represents, LastEvent, NewUserRecord, NewDeviceRecord, NewPairingRecord, NewInviteRecord,
      NewPageRecord, NewEventRecord, S.Events;
    var s', e0 := PutIdem(s, key, pageId), IdemE(key);
    RepresentedIsSound(t, s);
    assert S.Filed(s') && AllInRange(s');
    forall e | Timed(e) && e != e0 ensures Same(s, s', e) {
      EventsUnchanged(s, s');
    }
    PutRepresents(t, s, s', e0, IdemItem(IdemRecord(KeyOf(IdemE(key)), pageId)));
  }

  /** Appending to a timeline changes its last event of one time and type only. */
  lemma AppendChangesOneEvent(s: S.State, e: PageEvent, other: Entity)
    requires Timed(other) && InRange(e.at) && AllInRange(s) && AllInRange(S.AppendEvent(s, e))
    requires other != EventE(e.pageId, e.at, e.kind)
    ensures Same(s, S.AppendEvent(s, e), other)
  {
    hide KeyOf, NewUserRecord, NewDeviceRecord, NewPairingRecord, NewInviteRecord, NewPageRecord, NewEventRecord;
    var es, es' := S.Events(s, e.pageId), S.Events(S.AppendEvent(s, e), e.pageId);
    assert es' == es + [e] && es'[..|es' | - 1] == es;
  }

  lemma AppendKeepsSound(s: S.State, e: PageEvent)
    requires S.Filed(s) && AllInRange(s) && InRange(e.at)
    ensures S.Filed(S.AppendEvent(s, e)) && AllInRange(S.AppendEvent(s, e))
  {
  }

  lemma AppendedIsLast(s: S.State, e: PageEvent)
    requires InRange(e.at) && AllInRange(S.AppendEvent(s, e))
    ensures var e0 := EventE(e.pageId, e.at, e.kind);
      Stored(S.AppendEvent(s, e), e0) && ItemOf(S.AppendEvent(s, e), e0) == EventItem(NewEventRecord(e))
  {
    hide KeyOf, NewEventRecord, AllInRange;
    var es, es' := S.Events(s, e.pageId), S.Events(S.AppendEvent(s, e), e.pageId);
    assert es' == es + [e];
  }

  lemma AppendEventSimulates(t: Table, s: S.State, e: PageEvent)
    requires Represents(t, s) && InRange(e.at)
    ensures Represents(t[KeyOf(EventE(e.pageId, e.at, e.kind)) := EventItem(NewEventRecord(e))], S.AppendEvent(s, e))
  {
    hide KeyOf, Represents, S.Filed, AllInRange, Stored, ItemOf, Same, S.AppendEvent, NewEventRecord;
    var s', e0 := S.AppendEvent(s, e), EventE(e.pageId, e.at, e.kind);
    RepresentedIsSound(t, s);
    AppendKeepsSound(s, e);
    forall other | Timed(other) && other != e0 ensures Same(s, s', other) {
      AppendChangesOneEvent(s, e, other);
    }
    AppendedIsLast(s, e);
    PutRepresents(t, s, s', e0, EventItem(NewEventRecord(e)));
  }
}
