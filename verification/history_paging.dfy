/** Channel history: send_at <= cookie (store/message_db.go) and the cookie that fetchMessageHandler
    computes (api/message.go). */
module HistoryPaging {
  import opened Types
  import opened Paging

  datatype FetchReply = FetchReply(messages: seq<Item>, cookie: int, isEnd: bool)

  function EffectiveLimit(limit: int): nat { if limit <= 0 then 50 else limit }

  function EffectiveCookie(cookie: int): int { if cookie <= 0 then MAX_INT64 else cookie }

  /** What the handler may answer: page, is_end and cookie. */
  ghost predicate Answers(rows: set<Item>, limit: int, cookie: int, reply: FetchReply) {
    && IsPage(UpTo(rows, EffectiveCookie(cookie)), EffectiveLimit(limit), reply.messages)
    && (reply.isEnd <==> |reply.messages| < EffectiveLimit(limit))
    && reply.cookie ==
       (if reply.isEnd && reply.messages != [] then Last(reply.messages).at else EffectiveCookie(cookie))
  }

  /** rows are the messages of the channel. */
  method FetchMessageHandler(rows: set<Item>, limitIn: int, cookieIn: int) returns (reply: FetchReply)
    ensures Answers(rows, limitIn, cookieIn, reply)
    ensures var n := if limitIn <= 0 then 50 else limitIn;
      var c := if cookieIn <= 0 then 0x7FFF_FFFF_FFFF_FFFF else cookieIn;
      && IsPage(UpTo(rows, c), n, reply.messages)
      && (reply.isEnd <==> |reply.messages| < n)
      && reply.cookie == (if reply.isEnd && reply.messages != [] then Last(reply.messages).at else c)
    ensures cookieIn > 0 ==> forall m :: m in reply.messages ==> m in rows && m.at <= cookieIn
  {
    var limit, cookieReq := limitIn, cookieIn;
    if limit <= 0 {
      limit := 50;
    }
    if cookieReq <= 0 {
      cookieReq := MAX_INT64;
    }
    var messages := SelectPage(UpTo(rows, cookieReq), limit);
    var isEnd := false;
    var cookie := cookieReq;
    if |messages| == 0 || |messages| < limit {
      isEnd := true;
      if |messages| > 0 {
        cookie := messages[|messages| - 1].at;
      }
    }
    reply := FetchReply(messages, cookie, isEnd);
    forall m | m in messages ensures m in rows && m.at <= cookieReq {
      assert m in SetOf(messages);
    }
  }

  // ---- a client that follows the handler's own cookie

  /** The table when the n-th request of a loop arrives. */
  ghost predicate Grows(tables: seq<set<Item>>) {
    forall i, j :: 0 <= i <= j < |tables| ==> tables[i] <= tables[j]
  }

  function CookieSent(cookie: int, replies: seq<FetchReply>, i: nat): int
    requires i <= |replies|
  {
    if i == 0 then cookie else replies[i - 1].cookie
  }

  /** The i-th request carries the cookie of the reply before it, which was not the end. */
  ghost predicate Answered(tables: seq<set<Item>>, limit: int, cookie: int, replies: seq<FetchReply>, i: nat)
    requires i < |replies| <= |tables|
  {
    && Answers(tables[i], limit, CookieSent(cookie, replies, i), replies[i])
    && (i > 0 ==> !replies[i - 1].isEnd)
  }

  /** A client that puts each reply's cookie into its next request and stops at is_end. */
  ghost predicate SelfDriven(tables: seq<set<Item>>, limit: int, cookie: int, replies: seq<FetchReply>) {
    |replies| <= |tables| && forall i :: 0 <= i < |replies| ==> Answered(tables, limit, cookie, replies, i)
  }

  lemma AnswerByCount(rows: set<Item>, limit: int, cookie: int, reply: FetchReply)
    requires Answers(rows, limit, cookie, reply)
    ensures reply.isEnd <==> |UpTo(rows, EffectiveCookie(cookie))| < EffectiveLimit(limit)
    ensures !reply.isEnd ==> reply.cookie == EffectiveCookie(cookie) == EffectiveCookie(reply.cookie)
  {
  }

  /** Such a client never gets anywhere: it is done with the first reply exactly when fewer than limit
      messages match, and otherwise no reply of the loop ever ends it or moves the cookie. */
  lemma {:induction false} SelfDrivenStandsStill(tables: seq<set<Item>>, limit: int, cookie: int,
                                                 replies: seq<FetchReply>, i: nat)
    requires Grows(tables) && SelfDriven(tables, limit, cookie, replies) && i < |replies|
    ensures var enough := |UpTo(tables[0], EffectiveCookie(cookie))| >= EffectiveLimit(limit);
      && (replies[0].isEnd <==> !enough)
      && (enough ==> !replies[i].isEnd && replies[i].cookie == EffectiveCookie(cookie))
  {
    var c0 := EffectiveCookie(cookie);
    assert Answered(tables, limit, cookie, replies, 0);
    AnswerByCount(tables[0], limit, cookie, replies[0]);
    if |UpTo(tables[0], c0)| >= EffectiveLimit(limit) && i > 0 {
      SelfDrivenStandsStill(tables, limit, cookie, replies, i - 1);
      assert Answered(tables, limit, cookie, replies, i);
      var sent := replies[i - 1].cookie;
      assert EffectiveCookie(sent) == c0;
      AnswerByCount(tables[i], limit, sent, replies[i]);
      assert tables[0] <= tables[i];
      SubsetSize(UpTo(tables[0], c0), UpTo(tables[i], c0));
    }
  }

  // ---- a client that takes the last row's send_at as its next cursor

  /** A full page moves the cursor exactly when fewer than limit messages tie at it. */
  lemma ProgressIff(rows: set<Item>, c: int, limit: nat, page: seq<Item>)
    requires IsPage(UpTo(rows, c), limit, page) && |page| == limit > 0
    ensures Last(page).at <= c
    ensures Last(page).at < c <==> |Tied(rows, c)| < limit
  {
    assert Last(page) in SetOf(page);
    DistinctSize(page);
    if Last(page).at == c {
      forall p | p in SetOf(page) ensures p in Tied(rows, c) {
        LastIsLeast(UpTo(rows, c), limit, page, p);
      }
      SubsetSize(SetOf(page), Tied(rows, c));
    } else {
      forall r | r in Tied(rows, c) ensures r in SetOf(page) {
        AboveLast(UpTo(rows, c), limit, page, r);
      }
      SubsetSize(Tied(rows, c) + {Last(page)}, SetOf(page));
    }
  }

  /** Between two requests the table has grown by messages newer than the cursor reached. Messages may also arrive
      late: onMessage stamps them before they are saved. So this is asked for only where it is needed. */
  ghost predicate NewerOnly(a: set<Item>, b: set<Item>, page: seq<Item>) {
    && page != [] && a <= b
    && forall r :: r in b && r !in a ==> r.at > Last(page).at
  }

  /** Pages fetched one after the other until a short one, while any messages come in. */
  ghost predicate Walk(tables: seq<set<Item>>, c: int, limit: nat, pages: seq<seq<Item>>)
    decreases |pages|
  {
    && pages != [] && |tables| == |pages|
    && IsPage(UpTo(tables[0], c), limit, pages[0])
    && if |pages[0]| < limit then |pages| == 1
       else
         && |pages| > 1 && pages[0] != [] && tables[0] <= tables[1]
         && Walk(tables[1..], Last(pages[0]).at, limit, pages[1..])
  }

  /** ... or until now. */
  ghost predicate PartialWalk(tables: seq<set<Item>>, c: int, limit: nat, pages: seq<seq<Item>>)
    decreases |pages|
  {
    |tables| == |pages| &&
    (pages != [] ==>
       && IsPage(UpTo(tables[0], c), limit, pages[0])
       && (|pages| > 1 ==>
             && |pages[0]| == limit > 0 && tables[0] <= tables[1]
             && PartialWalk(tables[1..], Last(pages[0]).at, limit, pages[1..])))
  }

  /** The cookie of the i-th request of a client that asks on with the time of the last row it was shown. */
  function RowCookie(cookie: int, replies: seq<FetchReply>, i: nat): int
    requires i <= |replies| && (i > 0 ==> replies[i - 1].messages != [])
  {
    if i == 0 then cookie else Last(replies[i - 1].messages).at
  }

  /** The i-th reply of the handler to such a client, which stops at is_end. */
  ghost predicate RowAnswered(tables: seq<set<Item>>, limit: int, cookie: int, replies: seq<FetchReply>, i: nat)
    requires i < |replies| <= |tables|
  {
    && (i > 0 ==> !replies[i - 1].isEnd && replies[i - 1].messages != [] && tables[i - 1] <= tables[i])
    && Answers(tables[i], limit, RowCookie(cookie, replies, i), replies[i])
  }

  ghost predicate RowDriven(tables: seq<set<Item>>, limit: int, cookie: int, replies: seq<FetchReply>) {
    |tables| == |replies| && forall i :: 0 <= i < |replies| ==> RowAnswered(tables, limit, cookie, replies, i)
  }

  function PagesOf(replies: seq<FetchReply>): (pages: seq<seq<Item>>)
    ensures |pages| == |replies| && forall i :: 0 <= i < |replies| ==> pages[i] == replies[i].messages
  {
    seq(|replies|, i requires 0 <= i < |replies| => replies[i].messages)
  }

  lemma RowDrivenTail(tables: seq<set<Item>>, limit: int, cookie: int, replies: seq<FetchReply>)
    requires RowDriven(tables, limit, cookie, replies) && |replies| > 1
    ensures replies[0].messages != []
    ensures RowDriven(tables[1..], limit, Last(replies[0].messages).at, replies[1..])
  {
    assert RowAnswered(tables, limit, cookie, replies, 1);
    forall i | 0 <= i < |replies[1..]|
      ensures RowAnswered(tables[1..], limit, Last(replies[0].messages).at, replies[1..], i)
    {
      assert RowAnswered(tables, limit, cookie, replies, i + 1);
    }
  }

  /** The handler takes time l, sent as a cookie, for what it is: zero and less mean the newest message. */
  ghost predicate TakenAsSent(rows: set<Item>, l: int) {
    l > 0 || forall r :: r in rows && r.at <= MAX_INT64 ==> r.at <= l
  }

  lemma NewestShown(rows: set<Item>, n: nat, page: seq<Item>, r: Item)
    requires IsPage(rows, n, page) && n > 0 && r in rows
    ensures page != [] && page[0] in SetOf(page) && page[0].at >= r.at
  {
    assert rows != {};
    if r in page {
      var i :| 0 <= i < |page| && page[i] == r;
    }
  }

  lemma SentPage(rows: set<Item>, l: int, n: nat, page: seq<Item>)
    requires IsPage(UpTo(rows, EffectiveCookie(l)), n, page) && n > 0 && exists r :: r in rows && r.at == l
    ensures IsPage(UpTo(rows, l), n, page) <==> TakenAsSent(rows, l)
  {
    if l <= 0 {
      if forall r :: r in rows && r.at <= MAX_INT64 ==> r.at <= l {
        assert UpTo(rows, l) == UpTo(rows, MAX_INT64);
      } else {
        var r :| r in rows && r.at <= MAX_INT64 && r.at > l;
        NewestShown(UpTo(rows, MAX_INT64), n, page, r);
      }
    }
  }

  ghost predicate AllTakenAsSent(tables: seq<set<Item>>, replies: seq<FetchReply>)
    requires |tables| == |replies|
  {
    forall i :: 0 <= i < |replies| - 1 && replies[i].messages != [] ==>
      TakenAsSent(tables[i + 1], Last(replies[i].messages).at)
  }

  lemma AllTakenTail(tables: seq<set<Item>>, replies: seq<FetchReply>)
    requires |tables| == |replies| > 1 && replies[0].messages != []
    ensures AllTakenAsSent(tables, replies) <==>
              TakenAsSent(tables[1], Last(replies[0].messages).at) && AllTakenAsSent(tables[1..], replies[1..])
  {
    if AllTakenAsSent(tables[1..], replies[1..]) && TakenAsSent(tables[1], Last(replies[0].messages).at) {
      forall i | 0 <= i < |replies| - 1 && replies[i].messages != []
        ensures TakenAsSent(tables[i + 1], Last(replies[i].messages).at)
      {
        if i > 0 { assert replies[i] == replies[1..][i - 1] && tables[i + 1] == tables[1..][i]; }
      }
    }
    if AllTakenAsSent(tables, replies) {
      assert TakenAsSent(tables[0 + 1], Last(replies[0].messages).at);
      forall i | 0 <= i < |replies[1..]| - 1 && replies[1..][i].messages != []
        ensures TakenAsSent(tables[1..][i + 1], Last(replies[1..][i].messages).at)
      {
        assert TakenAsSent(tables[i + 1 + 1], Last(replies[i + 1].messages).at);
      }
    }
  }

  /** The requests such a client makes of the handler are a walk, from its first cookie or without one from the
      newest message, and a finished one once it is told is_end: exactly as long as the times it sends are positive,
      or no message is newer. */
  lemma {:induction false} HandlerWalks(tables: seq<set<Item>>, limit: int, cookie: int, replies: seq<FetchReply>)
    requires RowDriven(tables, limit, cookie, replies) && replies != []
    ensures var c := if cookie <= 0 then 0x7FFF_FFFF_FFFF_FFFF else cookie;
      var n := if limit <= 0 then 50 else limit;
      && (PartialWalk(tables, c, n, PagesOf(replies)) <==> AllTakenAsSent(tables, replies))
      && (replies[|replies| - 1].isEnd ==>
            (Walk(tables, c, n, PagesOf(replies)) <==> AllTakenAsSent(tables, replies)))
    decreases |replies|, 1
  {
    assert RowAnswered(tables, limit, cookie, replies, 0);
    if |replies| > 1 {
      var page := replies[0].messages;
      var n := EffectiveLimit(limit);
      RowDrivenTail(tables, limit, cookie, replies);
      AllTakenTail(tables, replies);
      assert RowAnswered(tables, limit, cookie, replies, 1);
      assert Last(page) in SetOf(page) && Last(page) in tables[1];
      SentPage(tables[1], Last(page).at, n, replies[1].messages);
      HandlerWalksOn(tables, limit, replies, n);
      assert PagesOf(replies)[1..] == PagesOf(replies[1..]);
    }
  }

  /** The rest of the requests, from the time that the second sends. */
  lemma {:induction false} HandlerWalksOn(tables: seq<set<Item>>, limit: int, replies: seq<FetchReply>, n: nat)
    requires |tables| == |replies| > 1 && replies[0].messages != [] && n == EffectiveLimit(limit)
    requires RowDriven(tables[1..], limit, Last(replies[0].messages).at, replies[1..])
    ensures var l := Last(replies[0].messages).at;
      var pages := PagesOf(replies[1..]);
      TakenAsSent(tables[1], l) ==>
        && (PartialWalk(tables[1..], l, n, pages) <==> AllTakenAsSent(tables[1..], replies[1..]))
        && (replies[|replies| - 1].isEnd ==>
              (Walk(tables[1..], l, n, pages) <==> AllTakenAsSent(tables[1..], replies[1..])))
    decreases |replies|, 0
  {
    var l := Last(replies[0].messages).at;
    HandlerWalks(tables[1..], limit, l, replies[1..]);
    if TakenAsSent(tables[1], l) && l <= 0 {
      assert UpTo(tables[1], l) == UpTo(tables[1], MAX_INT64);
    }
  }

  /** The page of two out of these messages, newest first, up to one of them. */
  lemma PageOfTwo(rows: set<Item>, cookie: int, first: Item, second: Item)
    requires first in rows && second in rows && EffectiveCookie(cookie) >= first.at > second.at
    requires forall r :: r in rows && r.at > second.at && r.at <= EffectiveCookie(cookie) ==> r == first
    requires forall r :: r in rows && r.at == second.at ==> r == second
    ensures Answers(rows, 2, cookie, FetchReply([first, second], EffectiveCookie(cookie), false))
  {
    SubsetSize({first, second}, UpTo(rows, EffectiveCookie(cookie)));
    assert SetOf([first, second]) == {first, second};
  }

  lemma NoTies(rows: set<Item>, c: int)
    requires forall r, q :: r in rows && q in rows && r.at == q.at ==> r == q
    ensures SmallTies(rows, c, 2)
  {
    forall v | v <= c ensures |Tied(rows, v)| < 2 {
      if r :| r in Tied(rows, v) {
        SubsetSize(Tied(rows, v), {r});
      }
    }
  }

  /** A time that is not positive sends the client back to the newest message. Here the third reply is not the rest
      but the first page again, although no two messages tie. */
  lemma ZeroRestarts() returns (rows: set<Item>, replies: seq<FetchReply>)
    ensures forall c :: SmallTies(rows, c, 2)
    ensures RowDriven([rows, rows, rows], 2, 6, replies) && |replies| == 3
    ensures replies[1].messages != [] && Last(replies[1].messages).at == 0
    ensures replies[0].messages == replies[2].messages
  {
    var x, y, z := Item("x", 0), Item("y", 5), Item("z", 6);
    rows := {x, y, z};
    forall c ensures SmallTies(rows, c, 2) { NoTies(rows, c); }
    PageOfTwo(rows, 6, z, y);
    PageOfTwo(rows, 5, y, x);
    PageOfTwo(rows, 0, z, y);
    replies := [FetchReply([z, y], 6, false), FetchReply([y, x], 5, false), FetchReply([z, y], MAX_INT64, false)];
  }

  /** Newer messages do not disturb what is left to fetch. */
  lemma NewerIsOutside(a: set<Item>, b: set<Item>, page: seq<Item>)
    requires NewerOnly(a, b, page)
    ensures UpTo(b, Last(page).at) == UpTo(a, Last(page).at)
  {
  }

  lemma LastOnPage(rows: set<Item>, c: int, limit: nat, page: seq<Item>)
    requires IsPage(UpTo(rows, c), limit, page) && page != []
    ensures Last(page) in rows && Last(page).at <= c
  {
    assert Last(page) in SetOf(page);
  }

  /** A finished walk has shown every message at or below its first cursor that was there when it began. */
  lemma {:induction false} Covered(tables: seq<set<Item>>, c: int, limit: nat, pages: seq<seq<Item>>, r: Item)
    requires Walk(tables, c, limit, pages) && limit > 0 && r in UpTo(tables[0], c)
    ensures OnSome(pages, r)
    decreases |pages|
  {
    var page := pages[0];
    if |page| < limit {
      ShortPageIsAll(UpTo(tables[0], c), limit, page);
      assert r in SetOf(page) && r in pages[0];
    } else if r in page {
      assert r in pages[0];
    } else {
      LastOnPage(tables[0], c, limit, page);
      assert r.at <= Last(page).at;
      assert r in UpTo(tables[1], Last(page).at);
      Covered(tables[1..], Last(page).at, limit, pages[1..], r);
      OnSomeCons(pages, r);
    }
  }

  /** Every group of messages of one second, at or below the cursor, is smaller than a page. */
  ghost predicate SmallTies(rows: set<Item>, c: int, limit: nat) {
    forall v :: v <= c ==> |Tied(rows, v)| < limit
  }

  lemma SmallTiesNext(a: set<Item>, b: set<Item>, page: seq<Item>, c: int, limit: nat)
    requires NewerOnly(a, b, page) && SmallTies(a, c, limit) && Last(page).at <= c
    ensures SmallTies(b, Last(page).at, limit)
  {
    NewerIsOutside(a, b, page);
    forall v | v <= Last(page).at ensures |Tied(b, v)| < limit {
      assert Tied(b, v) == Tied(a, v) by {
        forall r ensures r in Tied(b, v) <==> r in Tied(a, v) {
          assert r in UpTo(b, Last(page).at) <==> r in UpTo(a, Last(page).at);
        }
      }
    }
  }

  lemma NotAllTied(rows: set<Item>, c: int, limit: nat, page: seq<Item>)
    requires IsPage(UpTo(rows, c), limit, page) && |page| == limit > 0 && SmallTies(rows, c, limit)
    ensures page[0].at > Last(page).at
  {
    var l := Last(page).at;
    LastOnPage(rows, c, limit, page);
    if page[0].at == l {
      forall p | p in SetOf(page) ensures p in Tied(rows, l) {
        LastIsLeast(UpTo(rows, c), limit, page, p);
      }
      DistinctSize(page);
      SubsetSize(SetOf(page), Tied(rows, l));
    }
  }

  lemma FullPageUncovers(rows: set<Item>, c: int, limit: nat, page: seq<Item>)
    requires IsPage(UpTo(rows, c), limit, page) && |page| == limit > 0 && SmallTies(rows, c, limit)
    ensures |UpTo(rows, Last(page).at)| < |UpTo(rows, c)|
  {
    var l := Last(page).at;
    LastOnPage(rows, c, limit, page);
    NotAllTied(rows, c, limit, page);
    assert page[0] in SetOf(page);
    SubsetSize(UpTo(rows, l) + {page[0]}, UpTo(rows, c));
  }

  /** Every table a walk met had grown by newer messages only. */
  ghost predicate GrowsAbove(tables: seq<set<Item>>, pages: seq<seq<Item>>)
    requires |tables| == |pages|
  {
    forall i :: 0 <= i < |pages| - 1 ==> NewerOnly(tables[i], tables[i + 1], pages[i])
  }

  /** With small ties at its start and newer messages only coming in, the walk ends: there are at most as many pages
      as messages, and one. */
  lemma {:induction false} SmallTiesEnd(tables: seq<set<Item>>, c: int, limit: nat, pages: seq<seq<Item>>)
    requires PartialWalk(tables, c, limit, pages) && pages != [] && limit > 0 && SmallTies(tables[0], c, limit)
    requires GrowsAbove(tables, pages)
    ensures |pages| <= |UpTo(tables[0], c)| + 1
    decreases |pages|
  {
    if |pages| > 1 {
      var page := pages[0];
      LastOnPage(tables[0], c, limit, page);
      assert NewerOnly(tables[0], tables[0 + 1], page);
      SmallTiesNext(tables[0], tables[1], page, c, limit);
      NewerIsOutside(tables[0], tables[1], page);
      forall i | 0 <= i < |pages[1..]| - 1 ensures NewerOnly(tables[1..][i], tables[1..][i + 1], pages[1..][i]) {
        assert NewerOnly(tables[i + 1], tables[i + 1 + 1], pages[i + 1]);
      }
      SmallTiesEnd(tables[1..], Last(page).at, limit, pages[1..]);
      FullPageUncovers(tables[0], c, limit, page);
    }
  }

  lemma {:induction false} LastTableHasAll(tables: seq<set<Item>>, c: int, limit: nat, pages: seq<seq<Item>>)
    requires PartialWalk(tables, c, limit, pages) && pages != []
    ensures tables[0] <= tables[|tables| - 1]
    decreases |pages|
  {
    if |pages| > 1 {
      LastTableHasAll(tables[1..], Last(pages[0]).at, limit, pages[1..]);
    }
  }

  /** Whatever messages come in, late ones included: as long as ties are still small in the last table met, the walk
      has had no more pages than that table has messages, and one. */
  lemma {:induction false} SmallTiesEndAnyway(tables: seq<set<Item>>, c: int, limit: nat, pages: seq<seq<Item>>)
    requires PartialWalk(tables, c, limit, pages) && pages != [] && limit > 0
    requires SmallTies(tables[|tables| - 1], c, limit)
    ensures |pages| <= |UpTo(tables[|tables| - 1], c)| + 1
    decreases |pages|
  {
    if |pages| > 1 {
      var page := pages[0];
      var final := tables[|tables| - 1];
      LastTableHasAll(tables, c, limit, pages);
      LastOnPage(tables[0], c, limit, page);
      assert tables[1..][|tables[1..]| - 1] == final;
      SmallTiesEndAnyway(tables[1..], Last(page).at, limit, pages[1..]);
      FirstAboveLast(tables[0], final, c, limit, page);
    }
  }

  lemma FirstAboveLast(rows: set<Item>, final: set<Item>, c: int, limit: nat, page: seq<Item>)
    requires IsPage(UpTo(rows, c), limit, page) && |page| == limit > 0 && rows <= final && SmallTies(final, c, limit)
    ensures |UpTo(final, Last(page).at)| < |UpTo(final, c)|
  {
    forall v | v <= c ensures |Tied(rows, v)| < limit {
      SubsetSize(Tied(rows, v), Tied(final, v));
    }
    LastOnPage(rows, c, limit, page);
    NotAllTied(rows, c, limit, page);
    assert page[0] in SetOf(page);
    SubsetSize(UpTo(final, Last(page).at) + {page[0]}, UpTo(final, c));
  }

  /** Only such a walk ends: a walk that has finished met no second with limit messages. */
  lemma {:induction false} FinishedMeansSmallTies(tables: seq<set<Item>>, c: int, limit: nat, pages: seq<seq<Item>>)
    requires Walk(tables, c, limit, pages) && limit > 0
    ensures SmallTies(tables[0], c, limit)
    decreases |pages|
  {
    var page := pages[0];
    var matching := UpTo(tables[0], c);
    ShortPageIsAll(matching, limit, page);
    DistinctSize(page);
    if |page| == limit {
      FinishedMeansSmallTies(tables[1..], Last(page).at, limit, pages[1..]);
    }
    forall v | v <= c ensures |Tied(tables[0], v)| < limit {
      if |page| < limit {
        SubsetSize(Tied(tables[0], v), matching);
      } else if v <= Last(page).at {
        SubsetSize(Tied(tables[0], v), Tied(tables[1], v));
      } else {
        NewerFitOnPage(tables[0], c, limit, page, v);
      }
    }
  }

  lemma NewerFitOnPage(rows: set<Item>, c: int, limit: nat, page: seq<Item>, v: int)
    requires IsPage(UpTo(rows, c), limit, page) && |page| == limit > 0 && Last(page).at < v <= c
    ensures |Tied(rows, v)| < limit
  {
    DistinctSize(page);
    forall r | r in Tied(rows, v) ensures r in SetOf(page) {
      AboveLast(UpTo(rows, c), limit, page, r);
    }
    assert Last(page) in SetOf(page) && Last(page) !in Tied(rows, v);
    SubsetSize(Tied(rows, v) + {Last(page)}, SetOf(page));
  }

  /** In a walk that finishes, every full page has moved the cursor. */
  lemma {:induction false} CursorFalls(tables: seq<set<Item>>, c: int, limit: nat, pages: seq<seq<Item>>)
    requires Walk(tables, c, limit, pages) && limit > 0 && |pages| > 1
    ensures Last(pages[0]).at < c
  {
    FinishedMeansSmallTies(tables, c, limit, pages);
    ShortPageIsAll(UpTo(tables[0], c), limit, pages[0]);
    ProgressIff(tables[0], c, limit, pages[0]);
  }

  lemma {:induction false} PagesUpTo(tables: seq<set<Item>>, c: int, limit: nat, pages: seq<seq<Item>>, i: nat, r: Item)
    requires Walk(tables, c, limit, pages) && i < |pages| && r in pages[i]
    ensures r.at <= c
    decreases |pages|
  {
    if i == 0 {
      assert r in SetOf(pages[0]);
    } else {
      LastOnPage(tables[0], c, limit, pages[0]);
      assert pages[1..][i - 1] == pages[i];
      PagesUpTo(tables[1..], Last(pages[0]).at, limit, pages[1..], i - 1, r);
    }
  }

  /** Two pages share a message only if they are neighbours and the message has the boundary timestamp. */
  lemma {:induction false} OverlapAtBoundary(tables: seq<set<Item>>, c: int, limit: nat,
                                             pages: seq<seq<Item>>, i: nat, j: nat, r: Item)
    requires Walk(tables, c, limit, pages) && limit > 0 && i < j < |pages| && r in pages[i] && r in pages[j]
    ensures j == i + 1 && pages[i] != [] && r.at == Last(pages[i]).at
    decreases |pages|
  {
    var page := pages[0];
    var l := Last(page).at;
    assert pages[1..][j - 1] == pages[j];
    if i > 0 {
      assert pages[1..][i - 1] == pages[i];
      OverlapAtBoundary(tables[1..], l, limit, pages[1..], i - 1, j - 1, r);
    } else {
      LastIsLeast(UpTo(tables[0], c), limit, page, r);
      PagesUpTo(tables[1..], l, limit, pages[1..], j - 1, r);
      if j > 1 {
        var rest := pages[1..];
        CursorFalls(tables[1..], l, limit, rest);
        assert pages[1..][1..][j - 2] == pages[j];
        PagesUpTo(tables[1..][1..], Last(rest[0]).at, limit, rest[1..], j - 2, r);
      }
    }
  }

  lemma {:induction false} SmallTiesWalk(rows: set<Item>, c: int, limit: nat)
    returns (tables: seq<set<Item>>, pages: seq<seq<Item>>)
    requires limit > 0 && SmallTies(rows, c, limit)
    ensures Walk(tables, c, limit, pages) && tables[0] == rows
    decreases |UpTo(rows, c)|
  {
    var page := PageExists(UpTo(rows, c), limit);
    if |page| < limit {
      tables, pages := [rows], [page];
    } else {
      LastOnPage(rows, c, limit, page);
      FullPageUncovers(rows, c, limit, page);
      var ts, ps := SmallTiesWalk(rows, Last(page).at, limit);
      tables, pages := [rows] + ts, [page] + ps;
      assert tables[1..] == ts && pages[1..] == ps;
    }
  }

  ghost predicate CanFinish(rows: set<Item>, c: int, limit: nat) {
    exists tables, pages :: Walk(tables, c, limit, pages) && tables[0] == rows
  }

  /** A client that takes the last row's time can get to the end exactly when every second at or below its first
      cursor holds fewer than limit messages. Then, by SmallTiesEnd, it always does. */
  lemma FinishesIffSmallTies(rows: set<Item>, c: int, limit: nat)
    requires limit > 0
    ensures CanFinish(rows, c, limit) <==> SmallTies(rows, c, limit)
  {
    if CanFinish(rows, c, limit) {
      var tables, pages :| Walk(tables, c, limit, pages) && tables[0] == rows;
      FinishedMeansSmallTies(tables, c, limit, pages);
    }
    if SmallTies(rows, c, limit) {
      var tables, pages := SmallTiesWalk(rows, c, limit);
    }
  }

  /** Two messages of one second and a page of one: the walk goes on for as many requests as one likes, and the
      second message never comes. */
  lemma {:induction false} TieStalls(n: nat) returns (tables: seq<set<Item>>, pages: seq<seq<Item>>)
    ensures var a, b := Item("a", 5), Item("b", 5);
      && |pages| == n && PartialWalk(tables, 5, 1, pages)
      && (forall i :: 0 <= i < n ==> tables[i] == {a, b} && pages[i] == [a])
  {
    var a, b := Item("a", 5), Item("b", 5);
    if n == 0 {
      tables, pages := [], [];
    } else {
      var ts, ps := TieStalls(n - 1);
      tables, pages := [{a, b}] + ts, [[a]] + ps;
      assert tables[1..] == ts && pages[1..] == ps;
      assert UpTo({a, b}, 5) == {a, b} && |{a, b}| == 2 && SetOf([a]) == {a};
    }
  }
}
