/** The persistence contract as its callers see it: what every read answers after every write. The
    conditional writes are pinned down page by page (backend/internal/store/store.go). */
module StoreLaws {
  import opened Model
  import opened Store

  /** Users, devices and invites: a write is read back, and no other entry changes. */
  lemma ReadsSeePuts(s: State, u: User, d: Device, inv: Invite, id: string)
    ensures GetUser(PutUser(s, u), id) == if id == u.id then Ok(u) else GetUser(s, id)
    ensures PutUser(s, u) == s.(users := PutUser(s, u).users)
    ensures forall k :: k in PutDevice(s, d).devices <==> k in s.devices || k == (d.userId, d.token)
    ensures forall k :: k in PutDevice(s, d).devices ==>
              PutDevice(s, d).devices[k] == if k == (d.userId, d.token) then d else s.devices[k]
    ensures PutDevice(s, d) == s.(devices := PutDevice(s, d).devices)
    ensures forall code :: code in CreateInvite(s, inv).invites <==> code in s.invites || code == inv.code
    ensures forall code :: code in CreateInvite(s, inv).invites ==>
              CreateInvite(s, inv).invites[code] == if code == inv.code then inv else s.invites[code]
    ensures CreateInvite(s, inv) == s.(invites := CreateInvite(s, inv).invites)
  {
  }

  /** A user's listing after a device was put or deleted: a token is one device, and other users'
      devices stay as they are. */
  lemma ListingsSeeDevices(s: State, d: Device, userId: string, token: string, other: string)
    requires Filed(s)
    ensures DevicesOf(PutDevice(s, d), d.userId) == (set x | x in DevicesOf(s, d.userId) && x.token != d.token) + {d}
    ensures other != d.userId ==> DevicesOf(PutDevice(s, d), other) == DevicesOf(s, other)
    ensures DevicesOf(DeleteDevice(s, userId, token), userId)
         == set x | x in DevicesOf(s, userId) && x.token != token
    ensures other != userId ==> DevicesOf(DeleteDevice(s, userId, token), other) == DevicesOf(s, other)
  {
    PutSeen(s, d);
    DeleteSeen(s, userId, token);
  }

  lemma PutSeen(s: State, d: Device)
    requires Filed(s)
    ensures DevicesOf(PutDevice(s, d), d.userId) == (set x | x in DevicesOf(s, d.userId) && x.token != d.token) + {d}
  {
    var t := PutDevice(s, d);
    forall x ensures x in DevicesOf(t, d.userId) <==> x == d || (x in DevicesOf(s, d.userId) && x.token != d.token) {
      if x == d { assert t.devices[(d.userId, d.token)] == d; }
      if x in DevicesOf(s, d.userId) && x.token != d.token {
        assert s.devices[(d.userId, x.token)] == x == t.devices[(d.userId, x.token)];
      }
    }
  }

  lemma DeleteSeen(s: State, userId: string, token: string)
    requires Filed(s)
    ensures DevicesOf(DeleteDevice(s, userId, token), userId)
         == set x | x in DevicesOf(s, userId) && x.token != token
  {
    var t := DeleteDevice(s, userId, token);
    forall x | x in DevicesOf(s, userId) && x.token != token ensures x in DevicesOf(t, userId) {
      assert s.devices[(userId, x.token)] == x == t.devices[(userId, x.token)];
    }
  }

  /** A conditional write: what it answers, and what every page reads as afterwards. */
  lemma TransitionsExactly(s: State, id: string, from: seq<PageState>, to: PageState, attempt: int, other: string)
    ensures var (t, r) := SetPageState(s, id, from, to, attempt);
      && (r == Pass <==> GetPage(s, id).Ok? && GetPage(s, id).value.state in from)
      && (r == Fail(NotFound) <==> GetPage(s, id) == Err(NotFound))
      && (r != Pass && r != Fail(NotFound) ==> r == Fail(Conflict))
      && GetPage(t, other)
         == (if r == Pass && other == id then Ok(s.pages[id].(state := to, attempt := attempt)) else GetPage(s, other))
      && t == s.(pages := t.pages)
  {
  }

  /** The same for an ack, which stores its note and its time. */
  lemma AcksExactly(s: State, id: string, note: string, at: Time, other: string)
    ensures var (t, r) := AckPage(s, id, note, at);
      && (r == Pass <==> GetPage(s, id).Ok? && GetPage(s, id).value.state in {Created, Pushed, Delivered, Seen})
      && (r == Fail(NotFound) <==> GetPage(s, id) == Err(NotFound))
      && (r != Pass && r != Fail(NotFound) ==> r == Fail(Conflict))
      && GetPage(t, other)
         == (if r == Pass && other == id then
               Ok(s.pages[id].(state := Acked, ackedAt := Some(at), ackNote := note))
             else GetPage(s, other))
      && t == s.(pages := t.pages)
  {
  }

  /** A create: page, key and event together or a conflict, and what can be read afterwards. */
  lemma CreatesExactly(s: State, p: Page, id: string, key: string)
    ensures var (t, r) := CreatePage(s, p);
      && (r == Pass <==> p.id !in s.pages && p.idempotencyKey !in s.idem)
      && (r != Pass ==> r == Fail(Conflict) && t == s)
      && (r == Pass ==>
            && GetPage(t, id) == (if id == p.id then Ok(p) else GetPage(s, id))
            && GetPageByIdempotencyKey(t, p.idempotencyKey) == Ok(p)
            && Events(t, id)
               == Events(s, id) + (if id == p.id then [PageEvent(id, EvCreated, "", p.createdAt)] else []))
      && (r == Pass && key != p.idempotencyKey && key in s.idem && s.idem[key] in s.pages ==>
            GetPageByIdempotencyKey(t, key) == GetPageByIdempotencyKey(s, key))
  {
  }
}
