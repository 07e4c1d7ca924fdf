/** The key schema of the single table (backend/internal/store/dynamo/keys.go): who lives
    where, that nobody lives at anybody else's address, and that index keys order as time does. */
module Keys {
  import opened Model
  import opened Text
  import opened Timestamps

  function UserPK(id: string): string { "USER#" + id }
  function DeviceSK(token: string): string { "DEVICE#" + token }
  function PairSK(peerId: string): string { "PAIR#" + peerId }
  function InvitePK(code: string): string { "INVITE#" + code }
  function PagePK(id: string): string { "PAGE#" + id }
  function IdemPK(key: string): string { "IDEM#" + key }

  function EventSK(at: Time, typ: string): string
    requires at >= 0
  {
    "EVT#" + (FormatNano(at) + ['#'] + typ)
  }

  function PageIndexSK(created: Time, id: string): string
    requires created >= 0
  {
    "PAGE#" + (FormatSeconds(created) + ("#" + id))
  }

  /** The lower bound a listing since some instant puts on the index key. */
  function SinceBound(since: Time): string
    requires since >= 0
  {
    "PAGE#" + FormatSeconds(since)
  }

  const SK_PROFILE: string := "PROFILE"
  const SK_META: string := "META"

  function EventName(kind: EventType): string {
    match kind
    case EvCreated => "created"
    case EvPushAttempt => "push_attempt"
    case EvDelivered => "delivered"
    case EvAcked => "acked"
    case EvExpired => "expired"
    case EvNoDevices => "no_devices"
  }

  lemma EventNameInjective(a: EventType, b: EventType)
    requires EventName(a) == EventName(b)
    ensures a == b
  {
  }

  // ------------------------------------------------------------ addresses

  datatype Key = Key(pk: string, sk: string)

  /** Everything that has an address in the table. */
  datatype Entity =
    | UserE(id: string)
    | DeviceE(userId: string, token: string)
    | PairE(userId: string, peerId: string)
    | InviteE(code: string)
    | PageE(id: string)
    | EventE(pageId: string, at: Time, kind: EventType)
    | IdemE(key: string)

  predicate Timed(e: Entity) {
    e.EventE? ==> InRange(e.at)
  }

  function KeyOf(e: Entity): Key
    requires Timed(e)
  {
    match e
    case UserE(id) => Key(UserPK(id), SK_PROFILE)
    case DeviceE(userId, token) => Key(UserPK(userId), DeviceSK(token))
    case PairE(userId, peerId) => Key(UserPK(userId), PairSK(peerId))
    case InviteE(code) => Key(InvitePK(code), SK_META)
    case PageE(id) => Key(PagePK(id), SK_META)
    case EventE(pageId, at, kind) => Key(PagePK(pageId), EventSK(at, EventName(kind)))
    case IdemE(key) => Key(IdemPK(key), SK_META)
  }

  /** One address of each kind, letter by letter. */
  lemma AddressTexts()
    ensures KeyOf(UserE("u")) == Key("USER#u", "PROFILE")
    ensures KeyOf(DeviceE("u", "t")) == Key("USER#u", "DEVICE#t")
    ensures KeyOf(PairE("u", "v")) == Key("USER#u", "PAIR#v")
    ensures KeyOf(InviteE("c")) == Key("INVITE#c", "META")
    ensures KeyOf(PageE("p")) == Key("PAGE#p", "META")
    ensures KeyOf(IdemE("k")) == Key("IDEM#k", "META")
  {
    hide EventSK;
  }

  /** And one of each that has an instant in it. */
  lemma TimedAddressTexts()
    ensures KeyOf(EventE("p", EPOCH * SECOND + 120_000_000, EvPushAttempt))
         == Key("PAGE#p", "EVT#1970-01-01T00:00:00.12Z#push_attempt")
    ensures PageIndexSK(EPOCH * SECOND, "p") == "PAGE#1970-01-01T00:00:00Z#p"
    ensures SinceBound(EPOCH * SECOND) == "PAGE#1970-01-01T00:00:00Z"
  {
    hide FormatNano, FormatSeconds;
    EpochIs1970();
    EventText();
    IndexText();
  }

  lemma EventText()
    ensures "EVT#" + ("1970-01-01T00:00:00.12Z" + ['#'] + "push_attempt") == "EVT#1970-01-01T00:00:00.12Z#push_attempt"
  {
  }

  lemma IndexText()
    ensures "PAGE#" + ("1970-01-01T00:00:00Z" + ("#" + "p")) == "PAGE#1970-01-01T00:00:00Z#p"
    ensures "PAGE#" + "1970-01-01T00:00:00Z" == "PAGE#1970-01-01T00:00:00Z"
  {
  }

  /** The partition and sort prefixes tell the kind of an entity. */
  lemma Prefixes(e: Entity)
    requires Timed(e)
    ensures var k := KeyOf(e);
      && |k.pk| >= 5 && |k.sk| >= 4
      && (k.pk[..5] == "USER#" <==> e.UserE? || e.DeviceE? || e.PairE?)
      && (k.pk[..5] == "PAGE#" <==> e.PageE? || e.EventE?)
      && (k.pk[..5] == "INVIT" <==> e.InviteE?)
      && (k.pk[..5] == "IDEM#" <==> e.IdemE?)
      && (e.UserE? || e.DeviceE? || e.PairE? ==>
            (k.sk[..4] == "PROF" <==> e.UserE?) && (k.sk[..4] == "DEVI" <==> e.DeviceE?)
              && (k.sk[..4] == "PAIR" <==> e.PairE?))
      && (e.PageE? || e.EventE? ==> (k.sk[..4] == "META" <==> e.PageE?) && (k.sk[..4] == "EVT#" <==> e.EventE?))
  {
    hide FormatNano, EventName;
    var k := KeyOf(e);
    match e
    case UserE(id) => TakePrefix("USER#", id, 5); assert k.sk[..4] == "PROF";
    case DeviceE(userId, token) =>
      TakePrefix("USER#", userId, 5); TakePrefix("DEVICE#", token, 4); assert "DEVICE#"[..4] == "DEVI";
    case PairE(userId, peerId) =>
      TakePrefix("USER#", userId, 5); TakePrefix("PAIR#", peerId, 4); assert "PAIR#"[..4] == "PAIR";
    case InviteE(code) => TakePrefix("INVITE#", code, 5); assert "INVITE#"[..5] == "INVIT";
    case PageE(id) => TakePrefix("PAGE#", id, 5);
    case EventE(pageId, at, kind) =>
      TakePrefix("PAGE#", pageId, 5);
      TakePrefix("EVT#", FormatNano(at) + ['#'] + EventName(kind), 4);
    case IdemE(key) => TakePrefix("IDEM#", key, 5);
    assert "USER#"[0] == 'U' && "PAGE#"[0] == 'P' && "INVIT"[1] == 'N' && "IDEM#"[1] == 'D';
    assert "PROF"[1] == 'R' && "DEVI"[0] == 'D' && "PAIR"[1] == 'A' && "META"[0] == 'M' && "EVT#"[0] == 'E';
  }

  lemma TakePrefix(p: string, x: string, n: nat)
    requires n <= |p|
    ensures (p + x)[..n] == p[..n]
    ensures p[..|p|] == p
  {
  }

  /** Two events of a page never share a sort key unless they agree on time and type. */
  lemma EventSKInjective(at1: Time, typ1: string, at2: Time, typ2: string)
    requires InRange(at1) && InRange(at2) && EventSK(at1, typ1) == EventSK(at2, typ2)
    ensures at1 == at2 && typ1 == typ2
  {
    hide FormatNano;
    NanoHasNoHash(at1);
    NanoHasNoHash(at2);
    ConcatInjective("EVT#", "EVT#", FormatNano(at1) + ['#'] + typ1, FormatNano(at2) + ['#'] + typ2);
    SplitInjective(FormatNano(at1), FormatNano(at2), typ1, typ2, '#');
    NanoInjective(at1, at2);
  }

  /** No two entities share an address. */
  lemma KeyInjective(a: Entity, b: Entity)
    requires Timed(a) && Timed(b) && KeyOf(a) == KeyOf(b)
    ensures a == b
  {
    hide EventSK, EventName;
    Prefixes(a);
    Prefixes(b);
    match a
    case UserE(id) => ConcatInjective("USER#", "USER#", id, b.id);
    case DeviceE(userId, token) =>
      ConcatInjective("USER#", "USER#", userId, b.userId);
      ConcatInjective("DEVICE#", "DEVICE#", token, b.token);
    case PairE(userId, peerId) =>
      ConcatInjective("USER#", "USER#", userId, b.userId);
      ConcatInjective("PAIR#", "PAIR#", peerId, b.peerId);
    case InviteE(code) => ConcatInjective("INVITE#", "INVITE#", code, b.code);
    case PageE(id) => ConcatInjective("PAGE#", "PAGE#", id, b.id);
    case EventE(pageId, at, kind) =>
      ConcatInjective("PAGE#", "PAGE#", pageId, b.pageId);
      EventSKInjective(at, EventName(kind), b.at, EventName(b.kind));
      EventNameInjective(kind, b.kind);
    case IdemE(key) => ConcatInjective("IDEM#", "IDEM#", key, b.key);
  }

  // ------------------------------------------------------------ index order

  /** Index keys order as (creation second, id) does. */
  lemma IndexOrder(c1: Time, id1: string, c2: Time, id2: string)
    requires InRange(c1) && InRange(c2)
    ensures Less(PageIndexSK(c1, id1), PageIndexSK(c2, id2))
       <==> Seconds(c1) < Seconds(c2) || (Seconds(c1) == Seconds(c2) && Less(id1, id2))
  {
    hide Less, FormatSeconds, Seconds;
    FormatOrder(c1, c2);
    LessPrefix("PAGE#", FormatSeconds(c1) + ("#" + id1), FormatSeconds(c2) + ("#" + id2));
    LessConcat(FormatSeconds(c1), FormatSeconds(c2), "#" + id1, "#" + id2);
    LessPrefix("#", id1, id2);
  }

  /** The since bound selects exactly the pages created in or after since's second, so a page
      created after since is never filtered out. */
  lemma SinceSelects(since: Time, created: Time, id: string)
    requires InRange(since) && InRange(created)
    ensures Less(SinceBound(since), PageIndexSK(created, id)) <==> Seconds(since) <= Seconds(created)
    ensures since <= created ==> Less(SinceBound(since), PageIndexSK(created, id))
  {
    hide Less, FormatSeconds;
    FormatOrder(since, created);
    assert FormatSeconds(since) + "" == FormatSeconds(since);
    LessPrefix("PAGE#", FormatSeconds(since) + "", FormatSeconds(created) + ("#" + id));
    LessConcat(FormatSeconds(since), FormatSeconds(created), "", "#" + id);
    EmptyIsLess("#" + id);
  }

  lemma EmptyIsLess(s: string)
    requires s != ""
    ensures Less("", s)
  {
  }

  /** Sort keys of events order as their seconds do; within one second they need not. */
  lemma EventSKOrder(at1: Time, typ1: string, at2: Time, typ2: string)
    requires InRange(at1) && InRange(at2) && Less(EventSK(at1, typ1), EventSK(at2, typ2))
    ensures Seconds(at1) <= Seconds(at2)
  {
    hide Less, Print, CivilOf, Valid, Seconds, Fraction, FormatSeconds;
    if Seconds(at2) < Seconds(at1) {
      RangeSeconds(at1);
      RangeSeconds(at2);
      var a, b := CivilOf(Seconds(at1)), CivilOf(Seconds(at2));
      CivilOfInverts(Seconds(at1));
      CivilOfInverts(Seconds(at2));
      CivilOrder(Seconds(at2), Seconds(at1));
      PrintOrder(b, a);
      PrintLength(a);
      PrintLength(b);
      var x := (Fraction(Nanos(at1)) + "Z") + (['#'] + typ1);
      var y := (Fraction(Nanos(at2)) + "Z") + (['#'] + typ2);
      LessConcat(Print(b), Print(a), y, x);
      LessPrefix("EVT#", Print(b) + y, Print(a) + x);
      assert EventSK(at1, typ1) == "EVT#" + (Print(a) + x);
      assert EventSK(at2, typ2) == "EVT#" + (Print(b) + y);
      LessTransitive(EventSK(at1, typ1), EventSK(at2, typ2), EventSK(at1, typ1));
      LessIrreflexive(EventSK(at1, typ1));
    }
  }

  /** What follows the date in an event's sort key. */
  lemma EventSKParts(at: Time, typ: string)
    requires InRange(at)
    ensures EventSK(at, typ) == "EVT#" + (Print(CivilOf(Seconds(at))) + (Fraction(Nanos(at)) + ("Z" + (['#'] + typ))))
  {
    hide Print, CivilOf, Fraction;
  }

  /** The earlier fraction of a second, without its trailing zeros, is a prefix of the later one. */
  predicate Misordered(at1: Time, at2: Time) {
    0 <= at1 < at2 && Seconds(at1) == Seconds(at2) && Fraction(Nanos(at1)) <= Fraction(Nanos(at2))
  }

  lemma EventSKOrderInSecond(at1: Time, typ1: string, at2: Time, typ2: string)
    requires InRange(at1) && InRange(at2) && at1 < at2 && Seconds(at1) == Seconds(at2)
    ensures Less(EventSK(at1, typ1), EventSK(at2, typ2)) <==> !(Fraction(Nanos(at1)) <= Fraction(Nanos(at2)))
  {
    hide Less, Print, CivilOf, Fraction, EventSK;
    var d := Print(CivilOf(Seconds(at1)));
    EventSKParts(at1, typ1);
    EventSKParts(at2, typ2);
    var x := Fraction(Nanos(at1)) + ("Z" + (['#'] + typ1));
    var y := Fraction(Nanos(at2)) + ("Z" + (['#'] + typ2));
    LessPrefix("EVT#", d + x, d + y);
    LessPrefix(d, x, y);
    FractionOrder(Nanos(at1), Nanos(at2), ['#'] + typ1, ['#'] + typ2);
  }

  /** Sort keys of events order as their instants do, except that of two instants of one second
      the later one comes first exactly when the earlier fraction is a prefix of the later. */
  lemma EventSKOrderExactly(at1: Time, typ1: string, at2: Time, typ2: string)
    requires InRange(at1) && InRange(at2) && at1 < at2
    ensures Less(EventSK(at1, typ1), EventSK(at2, typ2)) <==> !Misordered(at1, at2)
    ensures Less(EventSK(at2, typ2), EventSK(at1, typ1)) <==> Misordered(at1, at2)
  {
    hide Less, EventSK, Fraction;
    if EventSK(at1, typ1) == EventSK(at2, typ2) { EventSKInjective(at1, typ1, at2, typ2); }
    LessTotal(EventSK(at1, typ1), EventSK(at2, typ2));
    if Less(EventSK(at2, typ2), EventSK(at1, typ1)) {
      EventSKOrder(at2, typ2, at1, typ1);
      if Less(EventSK(at1, typ1), EventSK(at2, typ2)) {
        LessTransitive(EventSK(at1, typ1), EventSK(at2, typ2), EventSK(at1, typ1));
      }
      LessIrreflexive(EventSK(at1, typ1));
    }
    if Seconds(at1) == Seconds(at2) { EventSKOrderInSecond(at1, typ1, at2, typ2); }
  }

  /** An instant on the whole second is misordered with every later one of its second. */
  lemma WholeSecondsMisorder(at1: Time, at2: Time)
    requires 0 <= at1 < at2 && Seconds(at1) == Seconds(at2) && Nanos(at1) == 0
    ensures Misordered(at1, at2)
  {
  }
}
