/** Record shapes and codecs (backend/internal/store/dynamo/items.go). Every record keeps its
    timestamps as text; attribute marshalling itself is taken to be the identity on records. */
module Items {
  import opened Model
  import opened Text
  import opened Timestamps
  import opened Keys
  import S = Store

  const TTL_RETENTION: Duration := 90 * 24 * HOUR

  function StateName(s: PageState): string {
    match s
    case Created => "created"
    case Pushed => "pushed"
    case Delivered => "delivered"
    case Seen => "seen"
    case Acked => "acked"
    case Expired => "expired"
    case Cancelled => "cancelled"
  }

  function ParseState(name: string): Option<PageState> {
    if name == "created" then Some(Created)
    else if name == "pushed" then Some(Pushed)
    else if name == "delivered" then Some(Delivered)
    else if name == "seen" then Some(Seen)
    else if name == "acked" then Some(Acked)
    else if name == "expired" then Some(Expired)
    else if name == "cancelled" then Some(Cancelled)
    else None
  }

  lemma StateNameInjective(s: PageState, t: PageState)
    ensures StateName(s) == StateName(t) <==> s == t
    ensures ParseState(StateName(s)) == Some(s)
  {
  }

  /** The names that stored pages and generated conditions use, in the order of the lifecycle. */
  lemma StateTexts(s: PageState)
    ensures StateName(s) ==
      if Active(s) then ["created", "pushed", "delivered", "seen"][Rank(s)]
      else if s == Acked then "acked" else if s == Expired then "expired" else "cancelled"
  {
  }

  /** The event types and pairing states as stored, those of a state's name being the state's. */
  lemma KindTexts()
    ensures EventName(EvCreated) == StateName(Created) && EventName(EvDelivered) == StateName(Delivered)
    ensures EventName(EvAcked) == StateName(Acked) && EventName(EvExpired) == StateName(Expired)
    ensures EventName(EvPushAttempt) == "push_attempt" && EventName(EvNoDevices) == "no_devices"
    ensures StatusName(PairingActive) == "active" && StatusName(PairingBlocked) == "blocked"
  {
  }

  function StatusName(s: PairingStatus): string {
    match s
    case PairingActive => "active"
    case PairingBlocked => "blocked"
  }

  function ParseStatus(name: string): Option<PairingStatus> {
    if name == "active" then Some(PairingActive)
    else if name == "blocked" then Some(PairingBlocked)
    else None
  }

  function ParseKind(name: string): Option<EventType> {
    if name == "created" then Some(EvCreated)
    else if name == "push_attempt" then Some(EvPushAttempt)
    else if name == "delivered" then Some(EvDelivered)
    else if name == "acked" then Some(EvAcked)
    else if name == "expired" then Some(EvExpired)
    else if name == "no_devices" then Some(EvNoDevices)
    else None
  }

  datatype UserRecord = UserRecord(key: Key, id: string, displayName: string, createdAt: string)

  datatype DeviceRecord = DeviceRecord(key: Key, userId: string, token: string, platform: string, updatedAt: string)

  datatype PairingRecord = PairingRecord(
    key: Key, userId: string, peerId: string, peerName: string, status: string, createdAt: string)

  datatype InviteRecord = InviteRecord(key: Key, code: string, creatorId: string, expiresAt: string, ttl: int)

  datatype PageRecord = PageRecord(
    key: Key,
    id: string,
    senderId: string,
    recipientId: string,
    message: string,
    state: string,
    attempt: int,
    idempotencyKey: string,
    createdAt: string,
    expiresAt: string,
    ackedAt: string,
    ackNote: string,
    ttl: int,
    gsi1: Key,
    gsi2: Key)

  datatype EventRecord = EventRecord(key: Key, pageId: string, typ: string, detail: string, at: string, ttl: int)

  datatype IdemRecord = IdemRecord(key: Key, pageId: string)

  // ------------------------------------------------------------ users, devices, pairings

  function NewUserRecord(u: User): UserRecord
    requires u.createdAt >= 0
  {
    UserRecord(KeyOf(UserE(u.id)), u.id, u.displayName, FormatNano(u.createdAt))
  }

  function ToUser(r: UserRecord): S.Result<User> {
    match Parse(r.createdAt)
    case None => S.Err(S.Internal)
    case Some(t) => S.Ok(User(r.id, r.displayName, t))
  }

  lemma UserRoundTrip(u: User)
    requires InRange(u.createdAt)
    ensures ToUser(NewUserRecord(u)) == S.Ok(u)
  {
    hide Parse, FormatNano, KeyOf;
    NanoRoundTrip(u.createdAt);
  }

  function NewDeviceRecord(d: Device): DeviceRecord
    requires d.updatedAt >= 0
  {
    DeviceRecord(KeyOf(DeviceE(d.userId, d.token)), d.userId, d.token, d.platform, FormatNano(d.updatedAt))
  }

  function ToDevice(r: DeviceRecord): S.Result<Device> {
    match Parse(r.updatedAt)
    case None => S.Err(S.Internal)
    case Some(t) => S.Ok(Device(r.userId, r.token, r.platform, t))
  }

  lemma DeviceRoundTrip(d: Device)
    requires InRange(d.updatedAt)
    ensures ToDevice(NewDeviceRecord(d)) == S.Ok(d)
  {
    hide Parse, FormatNano, KeyOf;
    NanoRoundTrip(d.updatedAt);
  }

  function NewPairingRecord(p: Pairing): PairingRecord
    requires p.createdAt >= 0
  {
    PairingRecord(KeyOf(PairE(p.userId, p.peerId)), p.userId, p.peerId, p.peerName, StatusName(p.status),
      FormatNano(p.createdAt))
  }

  function ToPairing(r: PairingRecord): S.Result<Pairing> {
    var t := Parse(r.createdAt);
    var status := ParseStatus(r.status);
    if t.None? || status.None? then S.Err(S.Internal)
    else S.Ok(Pairing(r.userId, r.peerId, r.peerName, status.value, t.value))
  }

  lemma PairingRoundTrip(p: Pairing)
    requires InRange(p.createdAt)
    ensures ToPairing(NewPairingRecord(p)) == S.Ok(p)
  {
    hide Parse, FormatNano, KeyOf;
    NanoRoundTrip(p.createdAt);
    assert "active"[0] != "blocked"[0];
  }

  // ------------------------------------------------------------ invites

  function NewInviteRecord(inv: Invite): InviteRecord
    requires inv.expiresAt >= 0
  {
    InviteRecord(KeyOf(InviteE(inv.code)), inv.code, inv.creatorId, FormatNano(inv.expiresAt), Unix(inv.expiresAt))
  }

  function ToInvite(r: InviteRecord): S.Result<Invite> {
    match Parse(r.expiresAt)
    case None => S.Err(S.Internal)
    case Some(t) => S.Ok(Invite(r.code, r.creatorId, t))
  }

  lemma InviteRoundTrip(inv: Invite)
    requires InRange(inv.expiresAt)
    ensures ToInvite(NewInviteRecord(inv)) == S.Ok(inv)
  {
    hide Parse, FormatNano, KeyOf;
    NanoRoundTrip(inv.expiresAt);
  }

  // ------------------------------------------------------------ pages

  predicate PageTimed(p: Page) {
    InRange(p.createdAt) && InRange(p.expiresAt) && (p.ackedAt.Some? ==> InRange(p.ackedAt.value))
  }

  function AckedText(p: Page): string
    requires PageTimed(p)
  {
    if p.ackedAt.Some? then FormatNano(p.ackedAt.value) else ""
  }

  function NewPageRecord(p: Page): PageRecord
    requires PageTimed(p)
  {
    PageRecord(
      KeyOf(PageE(p.id)), p.id, p.senderId, p.recipientId, p.message, StateName(p.state), p.attempt, p.idempotencyKey,
      FormatNano(p.createdAt), FormatNano(p.expiresAt), AckedText(p), p.ackNote,
      Unix(p.createdAt + TTL_RETENTION),
      Key(UserPK(p.recipientId), PageIndexSK(p.createdAt, p.id)),
      Key(UserPK(p.senderId), PageIndexSK(p.createdAt, p.id)))
  }

  function ToPage(r: PageRecord): S.Result<Page> {
    var created := Parse(r.createdAt);
    var expires := Parse(r.expiresAt);
    var state := ParseState(r.state);
    if created.None? || expires.None? || state.None? then
      S.Err(S.Internal)
    else
      var p := Page(r.id, r.senderId, r.recipientId, r.message, state.value, r.attempt, r.idempotencyKey,
                    created.value, expires.value, None, r.ackNote);
      if r.ackedAt == "" then
        S.Ok(p)
      else
        var at := Parse(r.ackedAt);
        if at.None? then S.Err(S.Internal) else S.Ok(p.(ackedAt := at))
  }

  /** A new page as it is stored: which of its texts is which, and that it is kept for ninety days. */
  lemma PageRecordTexts()
    ensures var at := EPOCH * SECOND; var key := "PAGE#1970-01-01T00:00:00Z#p";
      NewPageRecord(Page("p", "a", "b", "come", Created, -1, "k", at, at, None, ""))
      == PageRecord(key := Key("PAGE#p", "META"), id := "p", senderId := "a", recipientId := "b", message := "come",
                    state := "created", attempt := -1, idempotencyKey := "k",
                    createdAt := "1970-01-01T00:00:00Z", expiresAt := "1970-01-01T00:00:00Z",
                    ackedAt := "", ackNote := "", ttl := 7_776_000,
                    gsi1 := Key("USER#b", key), gsi2 := Key("USER#a", key))
  {
    hide FormatNano, PageIndexSK, KeyOf, Unix, UserPK;
    EpochIs1970();
    AddressTexts();
    TimedAddressTexts();
    NinetyDaysOn();
    assert "USER#a" == UserPK("a") by { UserText("a"); }
    assert "USER#b" == UserPK("b") by { UserText("b"); }
  }

  lemma NinetyDaysOn()
    ensures Unix(EPOCH * SECOND + TTL_RETENTION) == 7_776_000
  {
  }

  lemma UserText(id: string)
    requires |id| == 1
    ensures UserPK(id) == ['U', 'S', 'E', 'R', '#', id[0]]
  {
  }

  /** Pages and events are kept for ninety days from their creation. */
  lemma KeptForNinetyDays(p: Page, e: PageEvent)
    requires PageTimed(p) && InRange(e.at)
    ensures NewPageRecord(p).ttl == Unix(p.createdAt) + 90 * 86_400
    ensures NewEventRecord(e).ttl == Unix(e.at) + 90 * 86_400
  {
    hide FormatNano, KeyOf, PageIndexSK;
  }

  /** A page survives its record, acknowledged or not. */
  lemma PageRoundTrip(p: Page)
    requires PageTimed(p)
    ensures ToPage(NewPageRecord(p)) == S.Ok(p)
  {
    hide Parse, FormatNano, KeyOf, PageIndexSK, StateName, ParseState, UserPK;
    NanoRoundTrip(p.createdAt);
    NanoRoundTrip(p.expiresAt);
    StateNameInjective(p.state, p.state);
    if p.ackedAt.Some? {
      NanoRoundTrip(p.ackedAt.value);
      NanoNotEmpty(p.ackedAt.value);
    }
  }

  lemma NanoNotEmpty(t: Time)
    requires t >= 0
    ensures FormatNano(t) != ""
  {
  }

  // ------------------------------------------------------------ events

  function NewEventRecord(e: PageEvent): EventRecord
    requires InRange(e.at)
  {
    EventRecord(KeyOf(EventE(e.pageId, e.at, e.kind)), e.pageId, EventName(e.kind), e.detail, FormatNano(e.at),
                Unix(e.at + TTL_RETENTION))
  }

  function ToEvent(r: EventRecord): S.Result<PageEvent> {
    var at := Parse(r.at);
    var kind := ParseKind(r.typ);
    if at.None? || kind.None? then S.Err(S.Internal)
    else S.Ok(PageEvent(r.pageId, kind.value, r.detail, at.value))
  }

  lemma KindRoundTrip(kind: EventType)
    ensures ParseKind(EventName(kind)) == Some(kind)
  {
  }

  lemma EventRoundTrip(e: PageEvent)
    requires InRange(e.at)
    ensures ToEvent(NewEventRecord(e)) == S.Ok(e)
  {
    hide Parse, FormatNano, KeyOf, EventName, ParseKind;
    NanoRoundTrip(e.at);
    KindRoundTrip(e.kind);
  }
}
