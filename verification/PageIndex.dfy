/** What the two page indexes hold and what a query on one of them finds. */
module PageIndex {
  import opened Model
  import opened Text
  import opened Counting
  import opened Timestamps
  import opened Keys
  import opened Items
  import opened SingleTable
  import opened Recency
  import S = Store

  function IndexKey(r: PageRecord, side: Side): Key {
    if side.Recipient? then r.gsi1 else r.gsi2
  }

  predicate Matches(r: PageRecord, side: Side, pk: string, bound: Option<string>) {
    IndexKey(r, side).pk == pk && (bound.None? || Less(bound.value, IndexKey(r, side).sk))
  }

  /** The records an index query ranges over. */
  function IndexRecords(t: Table, side: Side, pk: string, bound: Option<string>): set<PageRecord> {
    set k | k in t && t[k].PageItem? && Matches(t[k].page, side, pk, bound) :: t[k].page
  }

  /** The first hundred of them, by descending sort key. */
  ghost predicate Heads(matching: set<PageRecord>, side: Side, rs: seq<PageRecord>) {
    && Distinct(rs)
    && (forall r :: r in rs ==> r in matching)
    && |rs| == (if |matching| <= LIMIT then |matching| else LIMIT)
    && (forall i, j :: 0 <= i < j < |rs| ==> !Less(IndexKey(rs[i], side).sk, IndexKey(rs[j], side).sk))
    && (forall r, q :: r in matching && r !in rs && q in rs ==> !Less(IndexKey(q, side).sk, IndexKey(r, side).sk))
  }

  /** No record of rs comes before r. */
  ghost predicate IsGreatest(rs: set<PageRecord>, side: Side, r: PageRecord) {
    r in rs && forall q :: q in rs ==> !Less(IndexKey(r, side).sk, IndexKey(q, side).sk)
  }

  lemma {:induction false} GreatestExists(rs: set<PageRecord>, side: Side)
    requires rs != {}
    ensures exists r :: IsGreatest(rs, side, r)
  {
    hide Less, IndexKey;
    var x :| x in rs;
    var rest := rs - {x};
    LessIrreflexive(IndexKey(x, side).sk);
    if rest == {} {
      assert rs == {x};
      assert IsGreatest(rs, side, x);
    } else {
      GreatestExists(rest, side);
      var y :| IsGreatest(rest, side, y);
      if Less(IndexKey(y, side).sk, IndexKey(x, side).sk) {
        GreaterStill(rs, side, x, y);
      } else {
        assert IsGreatest(rs, side, y);
      }
    }
  }

  lemma GreaterStill(rs: set<PageRecord>, side: Side, x: PageRecord, y: PageRecord)
    requires x in rs && IsGreatest(rs - {x}, side, y) && Less(IndexKey(y, side).sk, IndexKey(x, side).sk)
    ensures IsGreatest(rs, side, x)
  {
    hide Less, IndexKey;
    LessIrreflexive(IndexKey(x, side).sk);
    forall q | q in rs ensures !Less(IndexKey(x, side).sk, IndexKey(q, side).sk) {
      if q != x && Less(IndexKey(x, side).sk, IndexKey(q, side).sk) {
        LessTransitive(IndexKey(y, side).sk, IndexKey(x, side).sk, IndexKey(q, side).sk);
      }
    }
  }

  method Greatest(rs: set<PageRecord>, side: Side) returns (r: PageRecord)
    requires rs != {}
    ensures r in rs && forall q :: q in rs ==> !Less(IndexKey(r, side).sk, IndexKey(q, side).sk)
  {
    hide Less, IndexKey;
    GreatestExists(rs, side);
    ghost var g :| IsGreatest(rs, side, g);
    r :| r in rs && forall q :: q in rs ==> !Less(IndexKey(r, side).sk, IndexKey(q, side).sk);
  }

  /** The service's query on an index: descending, a hundred at most. */
  method QueryIndex(t: Table, side: Side, pk: string, bound: Option<string>) returns (rs: seq<PageRecord>)
    ensures Heads(IndexRecords(t, side, pk, bound), side, rs)
  {
    hide Less, IndexKey, Distinct, IndexRecords;
    ghost var all := IndexRecords(t, side, pk, bound);
    var left := IndexRecords(t, side, pk, bound);
    rs := [];
    DistinctEmpty<PageRecord>();
    while left != {} && |rs| < LIMIT
      invariant left <= all && |left| + |rs| == |all| && |rs| <= LIMIT
      invariant forall r :: r in rs <==> r in all && r !in left
      invariant forall i, r :: 0 <= i < |rs| && r in left ==> !Less(IndexKey(rs[i], side).sk, IndexKey(r, side).sk)
      invariant forall i, j :: 0 <= i < j < |rs| ==> !Less(IndexKey(rs[i], side).sk, IndexKey(rs[j], side).sk)
      invariant Distinct(rs)
      decreases |left|
    {
      var r := Greatest(left, side);
      DistinctAppend(rs, r);
      rs := rs + [r];
      left := left - {r};
    }
  }

  // ------------------------------------------------------------ in terms of pages

  function Bound(since: Option<Time>): Option<string>
    requires since.Some? ==> since.value >= 0
  {
    if since.Some? then Some(SinceBound(since.value)) else None
  }

  /** A page's record matches exactly when the page is on that side of the user and was created
      in or after the second of since. */
  lemma RecordMatches(p: Page, side: Side, userId: string, since: Option<Time>)
    requires PageTimed(p) && (since.Some? ==> InRange(since.value))
    ensures Matches(NewPageRecord(p), side, UserPK(userId), Bound(since))
       <==> Party(p, side) == userId && InOrAfterSecond(p, since)
  {
    hide Less, PageIndexSK, SinceBound, FormatNano, KeyOf, StateName;
    if UserPK(Party(p, side)) == UserPK(userId) { ConcatInjective("USER#", "USER#", Party(p, side), userId); }
    if since.Some? { SinceSelects(since.value, p.createdAt, p.id); }
  }

  lemma RecordInjective(p: Page, q: Page)
    requires PageTimed(p) && PageTimed(q) && NewPageRecord(p) == NewPageRecord(q)
    ensures p == q
  {
    hide NewPageRecord, ToPage;
    PageRoundTrip(p);
    PageRoundTrip(q);
  }

  /** The index holds the records of the matching pages and nothing else. */
  lemma IndexHolds(t: Table, s: S.State, side: Side, userId: string, since: Option<Time>, r: PageRecord)
    requires Represents(t, s) && (since.Some? ==> InRange(since.value))
    ensures forall p :: p in SidePages(s, side, userId, since) ==> PageTimed(p) && p.id in s.pages && s.pages[p.id] == p
    ensures r in IndexRecords(t, side, UserPK(userId), Bound(since))
       <==> exists p :: p in SidePages(s, side, userId, since) && PageTimed(p) && NewPageRecord(p) == r
  {
    hide Represents, NewPageRecord, KeyOf, Matches, Stored;
    RepresentedIsSound(t, s);
    if r in IndexRecords(t, side, UserPK(userId), Bound(since)) {
      var k :| k in t && t[k].PageItem? && t[k].page == r && Matches(r, side, UserPK(userId), Bound(since));
      var p := PageOccupant(t, s, k);
      RecordMatches(p, side, userId, since);
      assert p in SidePages(s, side, userId, since);
    }
    forall p | p in SidePages(s, side, userId, since) && PageTimed(p) && NewPageRecord(p) == r
      ensures r in IndexRecords(t, side, UserPK(userId), Bound(since))
    {
      PageItemAt(t, s, p.id);
      RecordMatches(p, side, userId, since);
      assert t[KeyOf(PageE(p.id))].page == r;
    }
  }

  lemma PageOccupant(t: Table, s: S.State, k: Key) returns (p: Page)
    requires Represents(t, s) && k in t && t[k].PageItem?
    ensures p.id in s.pages && s.pages[p.id] == p && PageTimed(p) && t[k].page == NewPageRecord(p)
  {
    hide KeyOf, NewPageRecord, NewUserRecord, NewDeviceRecord, NewPairingRecord, NewInviteRecord, NewEventRecord;
    var e :| Timed(e) && Stored(s, e) && KeyOf(e) == k;
    assert e.PageE?;
    p := s.pages[e.id];
  }

  lemma PageItemAt(t: Table, s: S.State, id: string)
    requires Represents(t, s) && id in s.pages
    ensures PageTimed(s.pages[id])
    ensures KeyOf(PageE(id)) in t && t[KeyOf(PageE(id))] == PageItem(NewPageRecord(s.pages[id]))
  {
    hide KeyOf, NewPageRecord;
    ReadRepresents(t, s, PageE(id));
  }

  /** Records and pages correspond one to one, so there are equally many. */
  lemma {:induction false} SameCount(ps: set<Page>, rs: set<PageRecord>)
    requires forall p :: p in ps ==> PageTimed(p) && NewPageRecord(p) in rs
    requires forall r :: r in rs ==> exists p :: p in ps && PageTimed(p) && NewPageRecord(p) == r
    ensures |ps| == |rs|
  {
    hide NewPageRecord, PageTimed;
    if ps == {} {
      assert rs == {};
    } else {
      var p :| p in ps;
      var ps', rs' := ps - {p}, rs - {NewPageRecord(p)};
      forall q | q in ps' ensures PageTimed(q) && NewPageRecord(q) in rs' {
        if NewPageRecord(q) == NewPageRecord(p) { RecordInjective(p, q); }
      }
      SameCount(ps', rs');
    }
  }

  /** Decoding the head of an index gives the side's pages, cut from behind. */
  lemma HeadsArePages(t: Table, s: S.State, side: Side, userId: string, since: Option<Time>, rs: seq<PageRecord>,
                      pages: seq<Page>)
    requires Represents(t, s) && (since.Some? ==> InRange(since.value))
    requires Heads(IndexRecords(t, side, UserPK(userId), Bound(since)), side, rs)
    requires |pages| == |rs| && forall i :: 0 <= i < |rs| ==> PageTimed(pages[i]) && NewPageRecord(pages[i]) == rs[i]
    ensures Fills(SidePages(s, side, userId, since), pages)
    ensures OmitsBehind(SidePages(s, side, userId, since), pages)
  {
    hide Represents, NewPageRecord, PageTimed, IndexRecords, SidePages, IndexKey, Less, Bound, UserPK, Behind;
    var records, matching := IndexRecords(t, side, UserPK(userId), Bound(since)), SidePages(s, side, userId, since);
    forall r ensures r in records <==> exists p :: p in matching && PageTimed(p) && NewPageRecord(p) == r {
      IndexHolds(t, s, side, userId, since, r);
    }
    IndexHoldsTimed(t, s, side, userId, since);
    SameCount(matching, records);
    forall p | p in pages ensures p in matching {
      var i :| 0 <= i < |pages| && pages[i] == p;
      assert rs[i] in records;
      var q :| q in matching && PageTimed(q) && NewPageRecord(q) == rs[i];
      RecordInjective(p, q);
    }
    forall p, q | p in matching && p !in pages && q in pages ensures Behind(p, q) {
      var i :| 0 <= i < |pages| && pages[i] == q;
      OmittedRecord(rs, pages, p);
      assert NewPageRecord(p) in records && rs[i] in rs;
      assert q in matching && p.id != q.id;
      LowerKeyIsBehind(p, q, side);
    }
  }

  lemma IndexHoldsTimed(t: Table, s: S.State, side: Side, userId: string, since: Option<Time>)
    requires Represents(t, s) && (since.Some? ==> InRange(since.value))
    ensures forall p :: p in SidePages(s, side, userId, since) ==> PageTimed(p) && p.id in s.pages && s.pages[p.id] == p
  {
    RepresentedIsSound(t, s);
  }

  lemma OmittedRecord(rs: seq<PageRecord>, pages: seq<Page>, p: Page)
    requires PageTimed(p) && p !in pages
    requires |pages| == |rs| && forall i :: 0 <= i < |rs| ==> PageTimed(pages[i]) && NewPageRecord(pages[i]) == rs[i]
    ensures NewPageRecord(p) !in rs
  {
    hide NewPageRecord, PageTimed;
    if NewPageRecord(p) in rs {
      var i :| 0 <= i < |rs| && rs[i] == NewPageRecord(p);
      RecordInjective(p, pages[i]);
    }
  }

  lemma LowerKeyIsBehind(p: Page, q: Page, side: Side)
    requires PageTimed(p) && PageTimed(q) && p.id != q.id
    requires !Less(IndexKey(NewPageRecord(q), side).sk, IndexKey(NewPageRecord(p), side).sk)
    ensures Behind(p, q)
  {
    hide Less, PageIndexSK, FormatNano, KeyOf, StateName;
    IndexOrder(q.createdAt, q.id, p.createdAt, p.id);
    LessTotal(p.id, q.id);
  }

  // ------------------------------------------------------------ deduplication

  /** The entries of a map by id hold the listed pages. */
  ghost predicate ById(byId: map<string, Page>, listed: seq<Page>) {
    && (forall p :: p in listed ==> p.id in byId && byId[p.id] == p)
    && forall id :: id in byId ==> byId[id].id == id && byId[id] in listed
  }

  lemma AddById(byId: map<string, Page>, listed: seq<Page>, p: Page)
    requires ById(byId, listed) && forall q :: q in listed && q.id == p.id ==> q == p
    ensures ById(byId[p.id := p], listed + [p])
  {
  }

  lemma NothingById()
    ensures ById(map[], [])
  {
  }

  lemma ByIdHolds(byId: map<string, Page>, listed: seq<Page>)
    requires ById(byId, listed)
    ensures forall p :: p in listed <==> p.id in byId && byId[p.id] == p
    ensures forall id :: id in byId ==> byId[id].id == id
  {
  }

  /** The two result lists through a map by id: each page once, in the map's arbitrary order. */
  method MergeById(a: seq<Page>, b: seq<Page>) returns (merged: seq<Page>)
    requires forall p, q :: p in a + b && q in a + b && p.id == q.id ==> p == q
    ensures Distinct(merged) && forall p :: p in merged <==> p in a || p in b
  {
    hide Distinct, ById;
    var byId: map<string, Page> := map[];
    NothingById();
    var i := 0;
    while i < |a|
      invariant 0 <= i <= |a|
      invariant ById(byId, a[..i])
    {
      assert a[..i + 1] == a[..i] + [a[i]];
      AddById(byId, a[..i], a[i]);
      byId := byId[a[i].id := a[i]];
      i := i + 1;
    }
    assert a[..i] == a == a + b[..0];
    var j := 0;
    while j < |b|
      invariant 0 <= j <= |b|
      invariant ById(byId, a + b[..j])
    {
      assert a + b[..j + 1] == (a + b[..j]) + [b[j]];
      AddById(byId, a + b[..j], b[j]);
      byId := byId[b[j].id := b[j]];
      j := j + 1;
    }
    assert a + b[..j] == a + b;
    ByIdHolds(byId, a + b);
    merged := ValuesOf(byId);
  }

  method ValuesOf(byId: map<string, Page>) returns (values: seq<Page>)
    requires forall id :: id in byId ==> byId[id].id == id
    ensures Distinct(values) && forall p :: p in values <==> p.id in byId && byId[p.id] == p
  {
    hide Distinct;
    DistinctEmpty<Page>();
    values := [];
    var left := byId.Keys;
    while left != {}
      invariant left <= byId.Keys
      invariant forall p :: p in values <==> p.id in byId && p.id !in left && byId[p.id] == p
      invariant Distinct(values)
      decreases |left|
    {
      var id :| id in left;
      DistinctAppend(values, byId[id]);
      values := values + [byId[id]];
      left := left - {id};
    }
  }
}
