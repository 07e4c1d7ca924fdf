/** Where the table's listing falls short of newest first: inside one second an index is cut by
    page id, so the newest page of a busy second can be the one that is lost. */
module ListingGap {
  import opened Model
  import opened Text
  import opened Counting
  import opened Recency
  import S = Store

  /** The i-th page of a burst inside one second; later pages have smaller ids. */
  function BurstPage(i: nat): Page
    requires i <= LIMIT
  {
    var id := Padded(LIMIT - i, 3);
    Page(id, "sender", "recipient", "", Created, -1, id, i, 30 * MINUTE, None, "")
  }

  /** The store after n creates of the burst. */
  function Burst(n: nat): S.State
    requires n <= LIMIT + 1
  {
    if n == 0 then S.EMPTY else S.CreatePage(Burst(n - 1), BurstPage(n - 1)).0
  }

  lemma BurstIds(i: nat, j: nat)
    requires i <= LIMIT && j <= LIMIT
    ensures BurstPage(i).id == BurstPage(j).id <==> i == j
    ensures Less(BurstPage(i).id, BurstPage(j).id) <==> j < i
  {
    hide Padded, Less;
    assert Pow10(3) == 1000 by { assert Pow10(2) == 100; }
    PaddedInjective(LIMIT - i, LIMIT - j, 3);
    PaddedOrder(LIMIT - i, LIMIT - j, 3);
  }

  /** What is stored after n creates is a page of the burst, filed under its id, which is its
      idempotency key as well. */
  lemma {:induction false} BurstOnly(n: nat, id: string) returns (i: nat)
    requires n <= LIMIT + 1 && (id in Burst(n).pages || id in Burst(n).idem)
    ensures i < n && id == BurstPage(i).id && id in Burst(n).pages && Burst(n).pages[id] == BurstPage(i)
  {
    hide BurstPage, S.AppendEvent;
    BurstKeys();
    StoredByCreate(Burst(n - 1), BurstPage(n - 1));
    if id in Burst(n - 1).pages || id in Burst(n - 1).idem {
      i := BurstOnly(n - 1, id);
    } else {
      i := n - 1;
    }
  }

  lemma BurstKeys()
    ensures forall i :: 0 <= i <= LIMIT ==> BurstPage(i).idempotencyKey == BurstPage(i).id
  {
  }

  lemma StoredByCreate(s: S.State, p: Page)
    ensures var (t, r) := S.CreatePage(s, p);
      && (r.Pass? <==> p.id !in s.pages && p.idempotencyKey !in s.idem)
      && (r.Pass? ==> t.pages == s.pages[p.id := p] && t.idem == s.idem[p.idempotencyKey := p.id])
      && (r.Fail? ==> t == s)
  {
  }

  /** Every create of the burst goes through. */
  lemma BurstIsCreated(n: nat)
    requires n <= LIMIT
    ensures S.CreatePage(Burst(n), BurstPage(n)).1.Pass?
    ensures BurstPage(n).id !in Burst(n).pages
    ensures Burst(n + 1).pages == Burst(n).pages[BurstPage(n).id := BurstPage(n)]
  {
    hide BurstPage, S.AppendEvent;
    var id := BurstPage(n).id;
    BurstKeys();
    if id in Burst(n).pages || id in Burst(n).idem {
      var i := BurstOnly(n, id);
      BurstIds(i, n);
    }
    StoredByCreate(Burst(n), BurstPage(n));
  }

  lemma {:induction false} BurstSize(n: nat)
    requires n <= LIMIT + 1
    ensures |Burst(n).pages| == n
  {
    hide BurstPage, S.CreatePage;
    if n > 0 {
      BurstSize(n - 1);
      BurstIsCreated(n - 1);
      OneMore(Burst(n - 1).pages, BurstPage(n - 1).id, BurstPage(n - 1));
    }
  }

  lemma OneMore(m: map<string, Page>, id: string, p: Page)
    requires id !in m
    ensures |m[id := p]| == |m| + 1
  {
  }

  lemma {:induction false} ValueCount(m: map<string, Page>)
    requires forall id :: id in m ==> m[id].id == id
    ensures |m.Values| == |m|
  {
    if |m| == 0 {
      assert m.Values == {};
    } else {
      var id :| id in m;
      var m' := m - {id};
      ValueCount(m');
      forall p | p in m.Values ensures p in m'.Values + {m[id]} {
        var k :| k in m && m[k] == p;
        assert k != id ==> k in m' && m'[k] == p;
      }
      forall p | p in m'.Values ensures p in m.Values {
        var k :| k in m' && m'[k] == p;
        assert m[k] == p;
      }
      assert m.Values == m'.Values + {m[id]};
    }
  }

  /** All of the burst is addressed to the recipient, who sent nothing. */
  lemma BurstIsReceived()
    ensures var s := Burst(LIMIT + 1);
      && SidePages(s, Recipient, "recipient", None) == s.pages.Values && |s.pages.Values| == LIMIT + 1
      && SidePages(s, Sender, "recipient", None) == {}
  {
    hide Burst;
    BurstSize(LIMIT + 1);
    var pages := Burst(LIMIT + 1).pages;
    forall id | id in pages
      ensures pages[id].recipientId == "recipient" && pages[id].senderId == "sender" && pages[id].id == id {
      var i := BurstOnly(LIMIT + 1, id);
    }
    ValueCount(pages);
  }

  /** Every other page of the burst is older and, on the index, in front of the newest. */
  lemma BurstIsInFront(newest: Page)
    requires newest == BurstPage(LIMIT)
    ensures newest in Burst(LIMIT + 1).pages.Values
    ensures forall p :: p in Burst(LIMIT + 1).pages.Values && p != newest ==>
        p.createdAt < newest.createdAt && Behind(newest, p)
  {
    hide Burst, Less;
    BurstIsCreated(LIMIT);
    var pages := Burst(LIMIT + 1).pages;
    assert pages[newest.id] == newest;
    forall id | id in pages && pages[id] != newest
      ensures pages[id].createdAt < newest.createdAt && Behind(newest, pages[id]) {
      var i := BurstOnly(LIMIT + 1, id);
      BurstIds(LIMIT, i);
    }
  }

  /** A page with everybody else in front of it is cut off a full index. */
  lemma LastIsCut(matching: set<Page>, last: Page)
    requires |matching| > LIMIT && forall p :: p in matching && p != last ==> Behind(last, p)
    ensures last !in IndexCut(matching)
  {
    hide Behind;
    Within(matching - {last}, InFrontOf(matching, last));
  }

  /** After a hundred and one creates inside one second, the newest with the smallest id, the index
      cut is not harmless: the newest page survives on neither index, so that no listing of the
      recipient's pages has it, and none is newest first. */
  lemma NewestPageCanBeCut() returns (s: S.State, newest: Page)
    ensures s == Burst(101) && forall n :: 0 <= n <= 100 ==> S.CreatePage(Burst(n), BurstPage(n)).1.Pass?
    ensures newest in PagesInOrAfterSecond(s, "recipient", None)
    ensures forall p :: p in PagesInOrAfterSecond(s, "recipient", None) && p != newest ==>
        p.createdAt < newest.createdAt
    ensures var ma, mb := SidePages(s, Recipient, "recipient", None), SidePages(s, Sender, "recipient", None);
      newest !in IndexCut(ma) + IndexCut(mb) && !CutIsHarmless(ma, mb)
  {
    s, newest := Burst(LIMIT + 1), BurstPage(LIMIT);
    hide Burst, BurstPage, S.CreatePage, SidePages, Behind, IndexCut, CutIsHarmless;
    forall n | 0 <= n <= LIMIT ensures S.CreatePage(Burst(n), BurstPage(n)).1.Pass? { BurstIsCreated(n); }
    BurstIsReceived();
    BurstIsInFront(newest);
    var ma := SidePages(s, Recipient, "recipient", None);
    LastIsCut(ma, newest);
    CutLosesNewest(ma, newest);
  }

  lemma CutLosesNewest(matching: set<Page>, newest: Page)
    requires newest in matching && newest !in IndexCut(matching)
    requires forall p :: p in matching && p != newest ==> p.createdAt < newest.createdAt
    ensures newest !in IndexCut(matching) + IndexCut({}) && !CutIsHarmless(matching, {})
  {
    hide Behind;
    assert NotOlder(IndexCut(matching) + IndexCut({}), newest) == {};
  }
}
