/** The domain types every other module shares, and the order of the page
    lifecycle (backend/internal/model/model.go). */
module Model {

  datatype Option<+T> = None | Some(value: T)

  /** Nanoseconds since 0000-01-01T00:00:00Z. */
  type Time = int

  /** Nanoseconds. */
  type Duration = int

  const SECOND: Duration := 1_000_000_000
  const MINUTE: Duration := 60 * SECOND
  const HOUR: Duration := 60 * MINUTE

  datatype PageState = Created | Pushed | Delivered | Seen | Acked | Expired | Cancelled

  /** Whether the nag loop should keep pushing. */
  predicate Active(s: PageState) {
    s.Created? || s.Pushed? || s.Delivered? || s.Seen?
  }

  /** The position of a state in the lifecycle; the three terminal states share the last one. */
  function Rank(s: PageState): nat {
    match s
    case Created => 0
    case Pushed => 1
    case Delivered => 2
    case Seen => 3
    case Acked => 4
    case Expired => 4
    case Cancelled => 4
  }

  datatype PairingStatus = PairingActive | PairingBlocked

  datatype User = User(id: string, displayName: string, createdAt: Time)

  datatype Device = Device(userId: string, token: string, platform: string, updatedAt: Time)

  datatype Pairing = Pairing(userId: string, peerId: string, peerName: string, status: PairingStatus, createdAt: Time)

  datatype Invite = Invite(code: string, creatorId: string, expiresAt: Time)

  datatype Page = Page(
    id: string,
    senderId: string,
    recipientId: string,
    message: string,
    state: PageState,
    attempt: int,
    idempotencyKey: string,
    createdAt: Time,
    expiresAt: Time,
    ackedAt: Option<Time>,
    ackNote: string)

  /** A page as it is created: no push sent, so its attempt is below that of the first task. */
  function NewPage(id: string, sender: string, recipient: string, message: string, key: string, now: Time,
                   expiresAt: Time): Page {
    Page(id, sender, recipient, message, Created, -1, key, now, expiresAt, None, "")
  }

  datatype EventType = EvCreated | EvPushAttempt | EvDelivered | EvAcked | EvExpired | EvNoDevices

  datatype PageEvent = PageEvent(pageId: string, kind: EventType, detail: string, at: Time)

  /** A request that the pager make one push attempt for a page. */
  datatype PageTask = PageTask(pageId: string, attempt: int)
}
