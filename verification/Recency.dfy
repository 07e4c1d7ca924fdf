/** Listings of a user's pages, newest first and cut to a hundred. Only the domain is used here,
    so that the reference store and the single-table store can be measured by the same yardstick. */
module Recency {
  import opened Model
  import opened Text
  import opened Timestamps
  import opened Counting
  import S = Store

  const LIMIT: nat := 100

  datatype Side = Recipient | Sender

  function Party(p: Page, side: Side): string {
    if side.Recipient? then p.recipientId else p.senderId
  }

  /** The reference's reading of since: strictly later. */
  predicate After(p: Page, since: Option<Time>) {
    since.None? || p.createdAt > since.value
  }

  /** The table's reading: in or after its second. */
  predicate InOrAfterSecond(p: Page, since: Option<Time>) {
    since.None? || (0 <= since.value && 0 <= p.createdAt && Seconds(since.value) <= Seconds(p.createdAt))
  }

  predicate Wanted(p: Page, userId: string, since: Option<Time>) {
    (p.senderId == userId || p.recipientId == userId) && After(p, since)
  }

  function PagesAfter(s: S.State, userId: string, since: Option<Time>): set<Page> {
    set id | id in s.pages && Wanted(s.pages[id], userId, since) :: s.pages[id]
  }

  lemma PagesAfterById(s: S.State, userId: string, since: Option<Time>)
    requires S.Filed(s)
    ensures forall id :: id in s.pages ==> s.pages[id].id == id
    ensures forall p :: p in PagesAfter(s, userId, since) <==>
              p.id in s.pages && s.pages[p.id] == p && Wanted(p, userId, since)
  {
  }

  function SidePages(s: S.State, side: Side, userId: string, since: Option<Time>): set<Page> {
    set id | id in s.pages && Party(s.pages[id], side) == userId && InOrAfterSecond(s.pages[id], since) :: s.pages[id]
  }

  function PagesInOrAfterSecond(s: S.State, userId: string, since: Option<Time>): set<Page> {
    SidePages(s, Recipient, userId, since) + SidePages(s, Sender, userId, since)
  }

  /** The two readings of since differ by the pages created at or before it in its own second. */
  lemma ReadingsDifferBySecond(s: S.State, userId: string, since: Option<Time>, p: Page)
    requires since.Some? ==> InRange(since.value)
    requires forall id :: id in s.pages ==> InRange(s.pages[id].createdAt)
    ensures p in PagesAfter(s, userId, since) <==>
              p in PagesInOrAfterSecond(s, userId, since) && (since.Some? ==> p.createdAt > since.value)
    ensures p in PagesInOrAfterSecond(s, userId, since) && p !in PagesAfter(s, userId, since) ==>
              since.Some? && Seconds(p.createdAt) == Seconds(since.value) && p.createdAt <= since.value
  {
  }

  // ------------------------------------------------------------ orders

  predicate NewestFirst(ps: seq<Page>) {
    forall i, j :: 0 <= i < j < |ps| ==> ps[i].createdAt >= ps[j].createdAt
  }

  /** Each page once, and a hundred of them or all there are. */
  ghost predicate Fills(matching: set<Page>, listed: seq<Page>) {
    && Distinct(listed)
    && (forall p :: p in listed ==> p in matching)
    && |listed| == if |matching| <= 100 then |matching| else 100
  }

  /** No omitted page is newer than a listed one. */
  ghost predicate OmitsOlder(matching: set<Page>, listed: seq<Page>) {
    forall p, q :: p in matching && p !in listed && q in listed ==> p.createdAt <= q.createdAt
  }

  /** No omitted page was created in a later second than a listed one. */
  ghost predicate OmitsOlderSeconds(matching: set<Page>, listed: seq<Page>) {
    forall p, q :: p in matching && p !in listed && q in listed ==> p.createdAt / SECOND <= q.createdAt / SECOND
  }

  // ------------------------------------------------------------ sorting

  function Insert(p: Page, sorted: seq<Page>): seq<Page> {
    if sorted == [] || p.createdAt > sorted[0].createdAt then [p] + sorted
    else [sorted[0]] + Insert(p, sorted[1..])
  }

  lemma {:induction false} InsertAdds(p: Page, sorted: seq<Page>)
    ensures multiset(Insert(p, sorted)) == multiset(sorted) + multiset{p}
  {
    if sorted != [] {
      assert sorted == [sorted[0]] + sorted[1..];
      InsertAdds(p, sorted[1..]);
    }
  }

  lemma {:induction false} InsertSorts(p: Page, sorted: seq<Page>)
    requires NewestFirst(sorted)
    ensures NewestFirst(Insert(p, sorted))
  {
    if sorted != [] && p.createdAt <= sorted[0].createdAt {
      var rest := Insert(p, sorted[1..]);
      InsertSorts(p, sorted[1..]);
      InsertAdds(p, sorted[1..]);
      forall i | 0 <= i < |rest| ensures rest[i].createdAt <= sorted[0].createdAt {
        assert rest[i] in multiset(rest);
        assert rest[i] == p || rest[i] in sorted[1..];
      }
    }
  }

  method SortNewestFirst(ps: seq<Page>) returns (sorted: seq<Page>)
    ensures NewestFirst(sorted) && multiset(sorted) == multiset(ps)
  {
    sorted := [];
    var i := 0;
    while i < |ps|
      invariant 0 <= i <= |ps|
      invariant NewestFirst(sorted) && multiset(sorted) == multiset(ps[..i])
    {
      InsertSorts(ps[i], sorted);
      InsertAdds(ps[i], sorted);
      assert ps[..i + 1] == ps[..i] + [ps[i]];
      sorted := Insert(ps[i], sorted);
      i := i + 1;
    }
    assert ps[..i] == ps;
  }

  // ------------------------------------------------------------ cutting

  function Truncate(ps: seq<Page>): seq<Page> {
    if |ps| > LIMIT then ps[..LIMIT] else ps
  }

  /** Cutting a sorted listing of all the pages keeps the newest. */
  lemma TruncatingKeepsNewest(matching: set<Page>, sorted: seq<Page>)
    requires Distinct(sorted) && NewestFirst(sorted) && forall p :: p in sorted <==> p in matching
    ensures var listed := Truncate(sorted);
      Fills(matching, listed) && NewestFirst(listed) && OmitsOlder(matching, listed)
  {
    DistinctCount(sorted);
    assert (set p | p in sorted) == matching;
    var listed := Truncate(sorted);
    forall p, q | p in matching && p !in listed && q in listed ensures p.createdAt <= q.createdAt {
      var i :| 0 <= i < |sorted| && sorted[i] == p;
      var j :| 0 <= j < |listed| && listed[j] == q;
      assert i >= LIMIT > j;
    }
  }

  /** In a sorted listing, a page with a hundred newer ones is not among the first hundred. */
  lemma BeatenByHundred(sorted: seq<Page>, newer: set<Page>, q: Page)
    requires Distinct(sorted) && NewestFirst(sorted) && |newer| >= LIMIT
    requires forall p :: p in newer ==> p in sorted && p.createdAt > q.createdAt
    ensures q !in Truncate(sorted)
  {
    if q in Truncate(sorted) {
      var j :| 0 <= j < |sorted| && j < LIMIT && sorted[j] == q;
      forall p | p in newer ensures p in sorted[..j] {
        var i :| 0 <= i < |sorted| && sorted[i] == p;
        assert i < j;
      }
      DistinctCount(sorted[..j]);
      Within(newer, set p | p in sorted[..j]);
    }
  }

  // ------------------------------------------------------------ the merge

  /** The cut leaves nothing behind, or no two matches share a second. */
  ghost predicate CleanCut(matching: set<Page>) {
    || |matching| <= LIMIT
    || forall p, q :: p in matching && q in matching && p != q ==> p.createdAt / SECOND != q.createdAt / SECOND
  }

  ghost predicate Merges(a: seq<Page>, b: seq<Page>, sorted: seq<Page>) {
    && Distinct(sorted) && NewestFirst(sorted)
    && forall p :: p in sorted <==> p in a || p in b
  }

  /** What was not cut off is all there is. */
  lemma FullSide(matching: set<Page>, kept: seq<Page>)
    requires Fills(matching, kept) && |matching| <= LIMIT
    ensures forall p :: p in matching <==> p in kept
  {
    DistinctCount(kept);
    var k := set p | p in kept;
    assert k <= matching;
    assert matching == k + (matching - k);
    assert |matching - k| == 0;
  }

  /** A page cut off one side has a hundred pages in front of it, none of an earlier second. */
  lemma CutOff(matching: set<Page>, kept: seq<Page>, p: Page) returns (front: set<Page>)
    requires Fills(matching, kept) && OmitsOlderSeconds(matching, kept) && p in matching && p !in kept
    ensures |front| == LIMIT && forall q :: q in front <==> q in kept
    ensures forall q :: q in front ==> p.createdAt / SECOND <= q.createdAt / SECOND
    ensures |matching| > LIMIT
    ensures CleanCut(matching) ==> forall q :: q in front ==> p.createdAt / SECOND < q.createdAt / SECOND
  {
    if |matching| <= LIMIT { FullSide(matching, kept); }
    DistinctCount(kept);
    front := set q | q in kept;
  }

  lemma MergeCount(ma: set<Page>, mb: set<Page>, a: seq<Page>, b: seq<Page>, sorted: seq<Page>)
    requires Fills(ma, a) && Fills(mb, b) && Merges(a, b, sorted)
    ensures Fills(ma + mb, Truncate(sorted))
  {
    DistinctCount(sorted);
    DistinctCount(a);
    DistinctCount(b);
    var all, sa, sb := set p | p in sorted, set p | p in a, set p | p in b;
    assert all == sa + sb;
    Within(sa, all);
    Within(sb, all);
    Within(ma, ma + mb);
    Within(mb, ma + mb);
    if |ma| <= LIMIT && |mb| <= LIMIT {
      FullSide(ma, a);
      FullSide(mb, b);
      assert all == ma + mb;
    }
  }

  /** The merge of two cut indexes, sorted and cut again, is right to the second: no page left out
      anywhere on the way was created in a later second than a page that came through. */
  lemma MergeOmitsOlderSeconds(ma: set<Page>, mb: set<Page>, a: seq<Page>, b: seq<Page>, sorted: seq<Page>)
    requires Fills(ma, a) && Fills(mb, b) && Merges(a, b, sorted)
    requires OmitsOlderSeconds(ma, a) && OmitsOlderSeconds(mb, b)
    ensures OmitsOlderSeconds(ma + mb, Truncate(sorted))
  {
    hide Fills, OmitsOlderSeconds;
    var listed := Truncate(sorted);
    forall p, q | p in ma + mb && p !in listed && q in listed ensures p.createdAt / SECOND <= q.createdAt / SECOND {
      if p in sorted {
        TruncatedIsOlder(sorted, p, q);
      } else {
        assert p !in a && p !in b;
        var front;
        if p in ma { front := CutOff(ma, a, p); } else { front := CutOff(mb, b, p); }
        if q.createdAt / SECOND < p.createdAt / SECOND {
          BeatenByHundred(sorted, front, q);
        }
      }
    }
    FromPairs(ma + mb, listed);
  }

  lemma FromPairs(matching: set<Page>, listed: seq<Page>)
    requires forall p, q :: p in matching && p !in listed && q in listed ==>
        p.createdAt / SECOND <= q.createdAt / SECOND
    ensures OmitsOlderSeconds(matching, listed)
  {
  }

  lemma TruncatedIsOlder(sorted: seq<Page>, p: Page, q: Page)
    requires NewestFirst(sorted) && p in sorted && p !in Truncate(sorted) && q in Truncate(sorted)
    ensures p.createdAt <= q.createdAt && p.createdAt / SECOND <= q.createdAt / SECOND
  {
  }

  /** When neither index is cut inside a second, the merge is exact. */
  lemma MergeOmitsOlder(ma: set<Page>, mb: set<Page>, a: seq<Page>, b: seq<Page>, sorted: seq<Page>)
    requires Fills(ma, a) && Fills(mb, b) && Merges(a, b, sorted)
    requires OmitsOlderSeconds(ma, a) && OmitsOlderSeconds(mb, b)
    requires CleanCut(ma) && CleanCut(mb)
    ensures OmitsOlder(ma + mb, Truncate(sorted))
  {
    hide Fills, OmitsOlderSeconds, CleanCut;
    var listed := Truncate(sorted);
    forall p, q | p in ma + mb && p !in listed && q in listed ensures p.createdAt <= q.createdAt {
      if p in sorted {
        TruncatedIsOlder(sorted, p, q);
      } else {
        assert p !in a && p !in b;
        var front;
        if p in ma { front := CutOff(ma, a, p); } else { front := CutOff(mb, b, p); }
        if q.createdAt < p.createdAt {
          BeatenByHundred(sorted, front, q);
        }
      }
    }
  }

  // ------------------------------------------------------------ exactly when the cut is felt

  /** On an index, q comes before p: of a later second, or of the same second with a greater id. */
  predicate Behind(p: Page, q: Page) {
    p.createdAt / SECOND < q.createdAt / SECOND || (p.createdAt / SECOND == q.createdAt / SECOND && Less(p.id, q.id))
  }

  function InFrontOf(matching: set<Page>, p: Page): set<Page> {
    set q | q in matching && Behind(p, q)
  }

  /** What an index query returns: the pages with fewer than a hundred in front of them. */
  function IndexCut(matching: set<Page>): set<Page> {
    set p | p in matching && |InFrontOf(matching, p)| < LIMIT
  }

  /** Every page left out is behind every page kept. */
  ghost predicate OmitsBehind(matching: set<Page>, kept: seq<Page>) {
    forall p, q :: p in matching && p !in kept && q in kept ==> Behind(p, q)
  }

  lemma BehindIsNotLater(matching: set<Page>, kept: seq<Page>)
    requires OmitsBehind(matching, kept)
    ensures OmitsOlderSeconds(matching, kept)
  {
  }

  lemma BehindIsStrict(p: Page, q: Page)
    ensures !(Behind(p, q) && Behind(q, p)) && !Behind(p, p)
  {
    LessIrreflexive(p.id);
    if Less(p.id, q.id) && Less(q.id, p.id) { LessTransitive(p.id, q.id, p.id); }
  }

  lemma KeptIsIndexCut(matching: set<Page>, kept: seq<Page>)
    requires Fills(matching, kept) && OmitsBehind(matching, kept)
    ensures forall p :: p in kept <==> p in IndexCut(matching)
  {
    hide Behind;
    DistinctCount(kept);
    var members := set q | q in kept;
    forall p | p in matching ensures p in kept <==> |InFrontOf(matching, p)| < LIMIT {
      var front := InFrontOf(matching, p);
      if p in kept {
        forall q | q in front ensures q in members - {p} {
          BehindIsStrict(p, q);
          BehindIsStrict(p, p);
        }
        Within(front, members - {p});
      } else {
        Within(members, front);
        if |matching| <= LIMIT { FullSide(matching, kept); }
      }
    }
  }

  function NotOlder(pages: set<Page>, p: Page): set<Page> {
    set q | q in pages && q.createdAt >= p.createdAt
  }

  /** Every page cut off its indexes has a hundred surviving pages that are not older. */
  ghost predicate CutIsHarmless(ma: set<Page>, mb: set<Page>) {
    forall p :: p in ma + mb && p !in IndexCut(ma) + IndexCut(mb) ==>
      |NotOlder(IndexCut(ma) + IndexCut(mb), p)| >= LIMIT
  }

  /** A page that lost its place on both indexes has a hundred kept pages in the listing. */
  lemma CutFillsListing(ma: set<Page>, mb: set<Page>, a: seq<Page>, b: seq<Page>, sorted: seq<Page>, p: Page)
    requires Fills(ma, a) && Fills(mb, b) && Merges(a, b, sorted)
    requires p in ma + mb && p !in a && p !in b
    ensures Fills(ma + mb, Truncate(sorted)) && |Truncate(sorted)| == LIMIT
  {
    MergeCount(ma, mb, a, b, sorted);
    if |ma| <= LIMIT { FullSide(ma, a); }
    if |mb| <= LIMIT { FullSide(mb, b); }
    Within(ma, ma + mb);
    Within(mb, ma + mb);
  }

  /** The merge is exactly newest first to the nanosecond when, and only when, the cut is harmless. */
  lemma MergeIsExactIffHarmless(ma: set<Page>, mb: set<Page>, a: seq<Page>, b: seq<Page>, sorted: seq<Page>)
    requires Fills(ma, a) && Fills(mb, b) && Merges(a, b, sorted)
    requires OmitsBehind(ma, a) && OmitsBehind(mb, b)
    ensures OmitsOlder(ma + mb, Truncate(sorted)) <==> CutIsHarmless(ma, mb)
  {
    hide Fills, OmitsBehind, IndexCut;
    var kept, listed := IndexCut(ma) + IndexCut(mb), Truncate(sorted);
    KeptIsIndexCut(ma, a);
    KeptIsIndexCut(mb, b);
    assert forall q :: q in sorted <==> q in kept;
    if OmitsOlder(ma + mb, listed) {
      forall p | p in ma + mb && p !in kept ensures |NotOlder(kept, p)| >= LIMIT {
        CutFillsListing(ma, mb, a, b, sorted, p);
        ListedAreNotOlder(ma + mb, kept, listed, p);
      }
    }
    if CutIsHarmless(ma, mb) {
      forall p, q | p in ma + mb && p !in listed && q in listed ensures p.createdAt <= q.createdAt {
        if p in sorted {
          TruncatedIsOlder(sorted, p, q);
        } else if q.createdAt < p.createdAt {
          BeatenByHundred(sorted, NotOlder(kept, p), q);
        }
      }
    }
  }

  lemma ListedAreNotOlder(matching: set<Page>, kept: set<Page>, listed: seq<Page>, p: Page)
    requires OmitsOlder(matching, listed) && p in matching && p !in listed && Fills(matching, listed)
      && |listed| == LIMIT
    requires forall q :: q in listed ==> q in kept
    ensures |NotOlder(kept, p)| >= LIMIT
  {
    DistinctCount(listed);
    var members := set q | q in listed;
    Within(members, NotOlder(kept, p));
  }
}
