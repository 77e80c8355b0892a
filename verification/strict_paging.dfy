/** The strict cursors: create_at < cookie for relations and friend requests (store/relationship_db.go,
    api/relation.go), and user_id > after for room members (store/room_db.go). */
module StrictPaging {
  import opened Types
  import opened Paging

  datatype ListReply = ListReply(items: seq<Item>, cookie: int, isEnd: bool) | ListError

  predicate Ends(page: seq<Item>, limit: nat) { |page| < limit || |page| == 0 }

  /** listRelationHandler and listFriendRequestHandler; None is a query parameter the client left out. */
  method ListHandler(rows: set<Item>, cookieParam: Option<int>, limitParam: Option<int>) returns (reply: ListReply)
    ensures var c := if cookieParam.Some? then cookieParam.value else 0x7FFF_FFFF_FFFF_FFFF;
      var n := if limitParam.Some? then limitParam.value else 20;
      && (reply.ListError? <==> n < 0)
      && (n >= 0 ==>
            && IsPage(Below(rows, c), n, reply.items)
            && reply.cookie == (if reply.items == [] then c else Last(reply.items).at)
            && (reply.isEnd <==> |reply.items| < n || reply.items == []))
  {
    var cookie := MAX_INT64;
    if cookieParam.Some? {
      cookie := cookieParam.value;
    }
    var limit := 20;
    if limitParam.Some? {
      limit := limitParam.value;
    }
    if limit < 0 {
      return ListError;  // MySQL rejects a negative LIMIT
    }
    var relations := SelectPage(Below(rows, cookie), limit);
    if |relations| > 0 {
      cookie := relations[|relations| - 1].at;
    }
    reply := ListReply(relations, cookie, |relations| < limit || |relations| == 0);
  }

  /** The pages a client sees that asks again with the reply's cookie until it is told to stop. */
  ghost predicate Walk(rows: set<Item>, c: int, limit: nat, pages: seq<seq<Item>>)
    decreases |pages|
  {
    && pages != []
    && IsPage(Below(rows, c), limit, pages[0])
    && if Ends(pages[0], limit) then |pages| == 1
       else |pages| > 1 && Walk(rows, Last(pages[0]).at, limit, pages[1..])
  }

  /** ... or that has not been told to stop yet. */
  ghost predicate PartialWalk(rows: set<Item>, c: int, limit: nat, pages: seq<seq<Item>>)
    decreases |pages|
  {
    pages != [] ==>
      && IsPage(Below(rows, c), limit, pages[0])
      && (|pages| > 1 ==> !Ends(pages[0], limit) && PartialWalk(rows, Last(pages[0]).at, limit, pages[1..]))
  }

  /** Everything on a walk lies strictly below its cursor. */
  lemma {:induction false} WalkBelow(rows: set<Item>, c: int, limit: nat, pages: seq<seq<Item>>, i: nat)
    requires PartialWalk(rows, c, limit, pages) && i < |pages|
    ensures forall r :: r in pages[i] ==> r in rows && r.at < c
    decreases |pages|
  {
    if i == 0 {
      forall r | r in pages[0] ensures r in rows && r.at < c {
        assert r in SetOf(pages[0]);
      }
    } else {
      var l := Last(pages[0]);
      assert l in SetOf(pages[0]);
      WalkBelow(rows, l.at, limit, pages[1..], i - 1);
      assert pages[1..][i - 1] == pages[i];
    }
  }

  /** Pages are disjoint and descending: whatever comes on an earlier page is strictly newer. */
  lemma {:induction false} PagesDescend(rows: set<Item>, c: int, limit: nat, pages: seq<seq<Item>>,
                                        i: nat, j: nat, x: Item, y: Item)
    requires PartialWalk(rows, c, limit, pages) && i < j < |pages| && x in pages[i] && y in pages[j]
    ensures x.at > y.at
    decreases |pages|
  {
    assert pages[1..][j - 1] == pages[j];
    if i == 0 {
      WalkBelow(rows, Last(pages[0]).at, limit, pages[1..], j - 1);
      LastIsLeast(Below(rows, c), limit, pages[0], x);
    } else {
      assert pages[1..][i - 1] == pages[i];
      PagesDescend(rows, Last(pages[0]).at, limit, pages[1..], i - 1, j - 1, x, y);
    }
  }

  /** Left out by page i: tied with its last row, but not on it. */
  ghost predicate CutOff(pages: seq<seq<Item>>, r: Item) {
    exists i :: 0 <= i < |pages| && pages[i] != [] && r.at == Last(pages[i]).at && r !in pages[i]
  }

  lemma CutOffCons(pages: seq<seq<Item>>, r: Item)
    requires pages != []
    ensures CutOff(pages, r) <==>
      (pages[0] != [] && r.at == Last(pages[0]).at && r !in pages[0]) || CutOff(pages[1..], r)
  {
    if CutOff(pages[1..], r) {
      var i :| 0 <= i < |pages[1..]| && pages[1..][i] != [] && r.at == Last(pages[1..][i]).at && r !in pages[1..][i];
      assert pages[i + 1] == pages[1..][i];
    }
    if CutOff(pages, r) && !(pages[0] != [] && r.at == Last(pages[0]).at && r !in pages[0]) {
      var i :| 0 <= i < |pages| && pages[i] != [] && r.at == Last(pages[i]).at && r !in pages[i];
      assert pages[1..][i - 1] == pages[i];
    }
  }

  lemma WalkIsPartial(rows: set<Item>, c: int, limit: nat, pages: seq<seq<Item>>)
    requires Walk(rows, c, limit, pages)
    ensures PartialWalk(rows, c, limit, pages)
    decreases |pages|
  {
    if |pages| > 1 {
      WalkIsPartial(rows, Last(pages[0]).at, limit, pages[1..]);
    }
  }

  /** A finished walk skips exactly the rows that tie with a page's last row without being on that page. */
  lemma {:induction false} SkipsExactlyTies(rows: set<Item>, c: int, limit: nat, pages: seq<seq<Item>>, r: Item)
    requires Walk(rows, c, limit, pages) && limit > 0 && r in Below(rows, c)
    ensures !OnSome(pages, r) <==> CutOff(pages, r)
    decreases |pages|
  {
    WalkIsPartial(rows, c, limit, pages);
    var page := pages[0];
    OnSomeCons(pages, r);
    CutOffCons(pages, r);
    if Ends(page, limit) {
      ShortPageIsAll(Below(rows, c), limit, page);
      assert r in SetOf(page);
    } else {
      var l := Last(page);
      if r.at < l.at {
        SkipsExactlyTies(rows, l.at, limit, pages[1..], r);
        if r in page { LastIsLeast(Below(rows, c), limit, page, r); }
      } else {
        OnNoLaterPage(rows, l.at, limit, pages[1..], r);
        if r.at > l.at { AboveLast(Below(rows, c), limit, page, r); }
      }
    }
  }

  lemma OnNoLaterPage(rows: set<Item>, c: int, limit: nat, pages: seq<seq<Item>>, r: Item)
    requires PartialWalk(rows, c, limit, pages) && r.at >= c
    ensures !OnSome(pages, r) && !CutOff(pages, r)
  {
    forall i | 0 <= i < |pages| ensures r !in pages[i] && (pages[i] != [] ==> r.at != Last(pages[i]).at) {
      WalkBelow(rows, c, limit, pages, i);
      if pages[i] != [] { assert Last(pages[i]) in pages[i]; }
    }
  }

  function Rows(pages: seq<seq<Item>>): seq<Item> {
    if pages == [] then [] else pages[0] + Rows(pages[1..])
  }

  /** Every page but the last is full, so the walk ends after at most |rows| / limit + 1 requests. */
  lemma {:induction false} WalkEnds(rows: set<Item>, c: int, limit: nat, pages: seq<seq<Item>>)
    requires PartialWalk(rows, c, limit, pages) && pages != [] && limit > 0
    ensures (|pages| - 1) * limit + |pages[|pages| - 1]| <= |Below(rows, c)|
    decreases |pages|
  {
    var page := pages[0];
    ShortPageIsAll(Below(rows, c), limit, page);
    if |pages| > 1 {
      var l := Last(page);
      var rest := pages[1..];
      WalkEnds(rows, l.at, limit, rest);
      FullPageLeaves(rows, c, limit, page);
      assert rest[|rest| - 1] == pages[|pages| - 1];
      assert (|pages| - 1) * limit == (|rest| - 1) * limit + limit;
    }
  }

  lemma FullPageLeaves(rows: set<Item>, c: int, limit: nat, page: seq<Item>)
    requires IsPage(Below(rows, c), limit, page) && page != [] && |page| == limit
    ensures |Below(rows, Last(page).at)| + limit <= |Below(rows, c)|
  {
    var l := Last(page);
    var below := Below(rows, l.at);
    DistinctSize(page);
    assert l in SetOf(page);
    forall r | r in SetOf(page) ensures r !in below {
      LastIsLeast(Below(rows, c), limit, page, r);
    }
    assert below !! SetOf(page);
    SubsetSize(below + SetOf(page), Below(rows, c));
  }

  /** No two rows share a value of the cursor column. */
  ghost predicate UniqueAt(rows: set<Item>) {
    forall x, y :: x in rows && y in rows && x.at == y.at ==> x == y
  }

  /** On a unique key the walk enumerates every row below the cursor, once each. GetMembersPaged walks
      the primary key upwards; at is then minus the rank of the user id in the column's order. */
  lemma {:induction false} UniqueKeyEnumerates(rows: set<Item>, c: int, limit: nat, pages: seq<seq<Item>>)
    requires Walk(rows, c, limit, pages) && limit > 0 && UniqueAt(rows)
    ensures Distinct(Rows(pages)) && SetOf(Rows(pages)) == Below(rows, c)
  {
    WalkIsPartial(rows, c, limit, pages);
    WalkDistinct(rows, c, limit, pages);
    forall r ensures r in SetOf(Rows(pages)) <==> r in Below(rows, c) {
      RowsOnSome(pages, r);
      if r in Below(rows, c) {
        SkipsExactlyTies(rows, c, limit, pages, r);
        NothingCutOff(rows, c, limit, pages, r);
      }
      if OnSome(pages, r) {
        var i :| 0 <= i < |pages| && r in pages[i];
        WalkBelow(rows, c, limit, pages, i);
      }
    }
  }

  lemma NothingCutOff(rows: set<Item>, c: int, limit: nat, pages: seq<seq<Item>>, r: Item)
    requires PartialWalk(rows, c, limit, pages) && UniqueAt(rows) && r in rows
    ensures !CutOff(pages, r)
  {
    forall i | 0 <= i < |pages| && pages[i] != [] && r.at == Last(pages[i]).at ensures r in pages[i] {
      WalkBelow(rows, c, limit, pages, i);
      assert Last(pages[i]) in pages[i];
    }
  }

  lemma {:induction false} RowsOnSome(pages: seq<seq<Item>>, r: Item)
    ensures r in Rows(pages) <==> OnSome(pages, r)
  {
    if pages != [] {
      OnSomeCons(pages, r);
      RowsOnSome(pages[1..], r);
    }
  }

  lemma {:induction false} WalkDistinct(rows: set<Item>, c: int, limit: nat, pages: seq<seq<Item>>)
    requires PartialWalk(rows, c, limit, pages)
    ensures Distinct(Rows(pages)) && Descending(Rows(pages))
    decreases |pages|
  {
    if |pages| > 1 {
      var page := pages[0];
      var l := Last(page);
      var later := Rows(pages[1..]);
      WalkDistinct(rows, l.at, limit, pages[1..]);
      forall r | r in later ensures r.at < l.at {
        RowsOnSome(pages[1..], r);
        var i :| 0 <= i < |pages[1..]| && r in pages[1..][i];
        WalkBelow(rows, l.at, limit, pages[1..], i);
      }
      forall r | r in page ensures r.at >= l.at {
        LastIsLeast(Below(rows, c), limit, page, r);
      }
    } else if |pages| == 1 {
      assert Rows(pages) == pages[0] by { assert Rows(pages[1..]) == []; }
    }
  }

  /** A finished walk has shown every row below the cursor exactly when no page cut a tie. */
  lemma {:induction false} CompleteIffNoTieCut(rows: set<Item>, c: int, limit: nat, pages: seq<seq<Item>>)
    requires Walk(rows, c, limit, pages) && limit > 0
    ensures (forall r :: r in Below(rows, c) ==> OnSome(pages, r)) <==>
            (forall r :: r in Below(rows, c) ==> !CutOff(pages, r))
  {
    forall r | r in Below(rows, c) ensures !OnSome(pages, r) <==> CutOff(pages, r) {
      SkipsExactlyTies(rows, c, limit, pages, r);
    }
  }

  // ---- the same, told from the rows alone

  /** The rows a page from cursor c must hold to reach down to v. */
  function Since(rows: set<Item>, v: int, c: int): set<Item> { set r | r in rows && v <= r.at < c }

  /** No second below the cursor straddles a multiple of limit when its rows are counted from the newest. */
  ghost predicate NoCut(rows: set<Item>, c: int, limit: nat) {
    forall v, k: nat {:trigger Straddles(rows, c, limit, v, k)} :: !Straddles(rows, c, limit, v, k)
  }

  ghost predicate Straddles(rows: set<Item>, c: int, limit: nat, v: int, k: nat) {
    |Since(rows, v + 1, c)| < k * limit < |Since(rows, v, c)|
  }

  /** A full page ends at the one second where the count reaches limit, whatever order ties come in. */
  lemma BoundaryOf(rows: set<Item>, c: int, limit: nat, page: seq<Item>)
    requires IsPage(Below(rows, c), limit, page) && |page| == limit > 0
    ensures var v := Last(page).at;
      && v < c && SetOf(page) <= Since(rows, v, c)
      && |Since(rows, v + 1, c)| < limit <= |Since(rows, v, c)|
      && (|Since(rows, v, c)| == limit ==> SetOf(page) == Since(rows, v, c))
  {
    var v := Last(page).at;
    assert Last(page) in SetOf(page);
    DistinctSize(page);
    forall r | r in SetOf(page) ensures r in Since(rows, v, c) {
      LastIsLeast(Below(rows, c), limit, page, r);
    }
    SubsetSize(SetOf(page), Since(rows, v, c));
    forall r | r in Since(rows, v + 1, c) ensures r in SetOf(page) {
      AboveLast(Below(rows, c), limit, page, r);
    }
    SubsetSize(Since(rows, v + 1, c) + {Last(page)}, SetOf(page));
  }

  lemma SinceSplits(rows: set<Item>, v: int, w: int, c: int)
    requires v <= w <= c
    ensures |Since(rows, v, c)| == |Since(rows, v, w)| + |Since(rows, w, c)|
  {
    assert Since(rows, v, c) == Since(rows, v, w) + Since(rows, w, c);
  }

  lemma SinceShrinks(rows: set<Item>, v: int, w: int, c: int)
    requires v <= w
    ensures |Since(rows, w, c)| <= |Since(rows, v, c)| <= |Below(rows, c)|
  {
    SubsetSize(Since(rows, w, c), Since(rows, v, c));
    SubsetSize(Since(rows, v, c), Below(rows, c));
  }

  /** Once the first page has ended on a boundary, its limit rows drop out of every count. */
  lemma StraddlesBelow(rows: set<Item>, c: int, limit: nat, w: int, v: int, k: nat)
    requires limit > 0 && w <= c && |Since(rows, w, c)| == limit
    ensures Straddles(rows, c, limit, v, k + 1) <==> v < w && Straddles(rows, w, limit, v, k)
  {
    assert (k + 1) * limit == k * limit + limit;
    if v < w {
      SinceSplits(rows, v, w, c);
      SinceSplits(rows, v + 1, w, c);
    } else {
      SinceShrinks(rows, w, v, c);
    }
  }

  lemma NoCutBelow(rows: set<Item>, c: int, limit: nat, w: int)
    requires limit > 0 && w <= c && |Since(rows, w, c)| == limit
    ensures NoCut(rows, c, limit) <==> NoCut(rows, w, limit)
  {
    if NoCut(rows, c, limit) {
      forall v, k: nat ensures !Straddles(rows, w, limit, v, k) {
        StraddlesBelow(rows, c, limit, w, v, k);
        if v >= w { assert Since(rows, v, w) == {}; }
        assert !Straddles(rows, c, limit, v, k + 1);
      }
    }
    if NoCut(rows, w, limit) {
      forall v, k: nat ensures !Straddles(rows, c, limit, v, k) {
        if k > 0 {
          StraddlesBelow(rows, c, limit, w, v, k - 1);
          assert !Straddles(rows, w, limit, v, k - 1);
        }
      }
    }
  }

  lemma FewRowsNoCut(rows: set<Item>, c: int, limit: nat)
    requires |Below(rows, c)| < limit
    ensures NoCut(rows, c, limit)
  {
    forall v, k: nat ensures !Straddles(rows, c, limit, v, k) {
      SinceShrinks(rows, v, v, c);
      if k > 0 { assert k * limit >= limit; }
    }
  }

  ghost predicate Complete(rows: set<Item>, c: int, pages: seq<seq<Item>>) {
    forall r :: r in Below(rows, c) ==> OnSome(pages, r)
  }

  lemma CutLoses(rows: set<Item>, c: int, limit: nat, pages: seq<seq<Item>>)
    requires Walk(rows, c, limit, pages) && limit > 0 && !Ends(pages[0], limit)
    requires |Since(rows, Last(pages[0]).at, c)| > limit
    ensures !Complete(rows, c, pages) && !NoCut(rows, c, limit)
  {
    var page := pages[0];
    var v := Last(page).at;
    BoundaryOf(rows, c, limit, page);
    DistinctSize(page);
    var cut := Since(rows, v, c) - SetOf(page);
    assert Since(rows, v, c) == SetOf(page) + cut;
    assert |cut| > 0;
    var r :| r in cut;
    WalkIsPartial(rows, c, limit, pages);
    OnNoLaterPage(rows, v, limit, pages[1..], r);
    OnSomeCons(pages, r);
    assert r in Below(rows, c) && r !in page && !OnSome(pages, r);
    assert Straddles(rows, c, limit, v, 1);
  }

  lemma FirstPageAside(rows: set<Item>, c: int, limit: nat, pages: seq<seq<Item>>)
    requires Walk(rows, c, limit, pages) && limit > 0 && !Ends(pages[0], limit)
    requires |Since(rows, Last(pages[0]).at, c)| == limit
    ensures Complete(rows, c, pages) <==> Complete(rows, Last(pages[0]).at, pages[1..])
  {
    var page := pages[0];
    var v := Last(page).at;
    BoundaryOf(rows, c, limit, page);
    forall r | r in Below(rows, c)
      ensures r.at >= v ==> OnSome(pages, r)
      ensures r.at < v ==> (OnSome(pages, r) <==> OnSome(pages[1..], r))
    {
      OnSomeCons(pages, r);
      if r.at >= v {
        assert r in SetOf(page);
      } else if r in page {
        assert r in SetOf(page);
      }
    }
  }

  /** Whether following the cursors shows everything is decided by the rows, the first cursor and the limit, for
      every walk alike, however the database orders ties. */
  lemma {:induction false} CompleteIffNoCut(rows: set<Item>, c: int, limit: nat, pages: seq<seq<Item>>)
    requires Walk(rows, c, limit, pages) && limit > 0
    ensures Complete(rows, c, pages) <==> NoCut(rows, c, limit)
    decreases |pages|
  {
    var page := pages[0];
    if Ends(page, limit) {
      ShortPageIsAll(Below(rows, c), limit, page);
      forall r | r in Below(rows, c) ensures OnSome(pages, r) {
        assert r in SetOf(page) && r in pages[0];
      }
      FewRowsNoCut(rows, c, limit);
    } else {
      ShortPageIsAll(Below(rows, c), limit, page);
      BoundaryOf(rows, c, limit, page);
      if |Since(rows, Last(page).at, c)| > limit {
        CutLoses(rows, c, limit, pages);
      } else {
        FirstPageAside(rows, c, limit, pages);
        NoCutBelow(rows, c, limit, Last(page).at);
        CompleteIffNoCut(rows, Last(page).at, limit, pages[1..]);
      }
    }
  }

  /** There is such a walk from every cursor. */
  lemma {:induction false} WalkExists(rows: set<Item>, c: int, limit: nat) returns (pages: seq<seq<Item>>)
    requires limit > 0
    ensures Walk(rows, c, limit, pages)
    decreases |Below(rows, c)|
  {
    var page := PageExists(Below(rows, c), limit);
    if Ends(page, limit) {
      pages := [page];
    } else {
      FullPageLeaves(rows, c, limit, page);
      var rest := WalkExists(rows, Last(page).at, limit);
      pages := [page] + rest;
      assert pages[1..] == rest;
    }
  }

  // ---- while rows are added

  /** Between two requests rows were added, none below the cursor reached: they are made now, and the cursor is the
      time of a row made before. */
  ghost predicate AddedAbove(a: set<Item>, b: set<Item>, c: int) {
    a <= b && forall r :: r in b && r !in a ==> r.at >= c
  }

  /** A walk whose i-th request finds tables[i]. */
  ghost predicate GrowingWalk(tables: seq<set<Item>>, c: int, limit: nat, pages: seq<seq<Item>>)
    decreases |pages|
  {
    && pages != [] && |tables| == |pages|
    && IsPage(Below(tables[0], c), limit, pages[0])
    && if Ends(pages[0], limit) then |pages| == 1
       else
         && |pages| > 1 && AddedAbove(tables[0], tables[1], Last(pages[0]).at)
         && GrowingWalk(tables[1..], Last(pages[0]).at, limit, pages[1..])
  }

  lemma {:induction false} WalkSeesBelow(a: set<Item>, b: set<Item>, c: int, limit: nat, pages: seq<seq<Item>>)
    requires Walk(a, c, limit, pages) && Below(a, c) == Below(b, c)
    ensures Walk(b, c, limit, pages)
    decreases |pages|
  {
    if |pages| > 1 {
      var v := Last(pages[0]).at;
      assert Last(pages[0]) in SetOf(pages[0]);
      assert Below(a, v) == Below(Below(a, c), v) == Below(Below(b, c), v) == Below(b, v);
      WalkSeesBelow(a, b, v, limit, pages[1..]);
    }
  }

  /** Rows added on the way are invisible: such a walk is a walk over the rows there were at its start. So all that is
      proved of walks, what is skipped, what is complete and when it ends, holds of it for those rows. */
  lemma {:induction false} GrowthIsInvisible(tables: seq<set<Item>>, c: int, limit: nat, pages: seq<seq<Item>>)
    requires GrowingWalk(tables, c, limit, pages)
    ensures Walk(tables[0], c, limit, pages)
    decreases |pages|
  {
    if |pages| > 1 {
      var v := Last(pages[0]).at;
      GrowthIsInvisible(tables[1..], v, limit, pages[1..]);
      assert Below(tables[1], v) == Below(tables[0], v);
      WalkSeesBelow(tables[1], tables[0], v, limit, pages[1..]);
    }
  }

  /** Two relations made in the same second and a page of one: the second is never shown. */
  lemma TieCutLosesRow()
    ensures var a, b := Item("a", 5), Item("b", 5);
      Walk({a, b}, MAX_INT64, 1, [[a], []]) && !OnSome([[a], []], b)
  {
    var a, b := Item("a", 5), Item("b", 5);
    assert Below({a, b}, MAX_INT64) == {a, b};
    assert |{a, b}| == 2;
    assert SetOf([a]) == {a};
    assert Below({a, b}, 5) == {};
    assert SetOf([]) == {};
    assert [[a], []][1..] == [[]];
    assert Walk({a, b}, 5, 1, [[]]);
  }
}
