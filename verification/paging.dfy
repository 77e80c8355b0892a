/** Cursor pagination: what one LIMIT query may return, and what following the cursors enumerates.
    An item stands for a row; at is the column the query orders by, newest first. */
module Paging {
  import opened Types

  const MAX_INT64 := 0x7FFF_FFFF_FFFF_FFFF

  datatype Item = Item(id: string, at: int)

  function Below(rows: set<Item>, c: int): set<Item> { set r | r in rows && r.at < c }

  function UpTo(rows: set<Item>, c: int): set<Item> { set r | r in rows && r.at <= c }

  function Tied(rows: set<Item>, v: int): set<Item> { set r | r in rows && r.at == v }

  function Last(page: seq<Item>): Item
    requires page != []
  {
    page[|page| - 1]
  }

  function SetOf(xs: seq<Item>): set<Item> { set x | x in xs }

  ghost predicate Descending(xs: seq<Item>) {
    forall i, j :: 0 <= i < j < |xs| ==> xs[i].at >= xs[j].at
  }

  /** ORDER BY at DESC LIMIT n over the matching rows; ties may come in any order. */
  ghost predicate IsPage(rows: set<Item>, limit: nat, page: seq<Item>) {
    && Distinct(page)
    && SetOf(page) <= rows
    && |page| == (if |rows| < limit then |rows| else limit)
    && Descending(page)
    && (forall r :: r in rows && r !in page ==> forall p :: p in page ==> r.at <= p.at)
  }

  /** Shown on one of the pages. */
  ghost predicate OnSome(pages: seq<seq<Item>>, r: Item) {
    exists i :: 0 <= i < |pages| && r in pages[i]
  }

  lemma OnSomeCons(pages: seq<seq<Item>>, r: Item)
    requires pages != []
    ensures OnSome(pages, r) <==> r in pages[0] || OnSome(pages[1..], r)
  {
    if OnSome(pages[1..], r) {
      var i :| 0 <= i < |pages[1..]| && r in pages[1..][i];
      assert r in pages[i + 1];
    }
    if OnSome(pages, r) && r !in pages[0] {
      var i :| 0 <= i < |pages| && r in pages[i];
      assert r in pages[1..][i - 1];
    }
  }

  lemma {:induction false} DistinctSize(xs: seq<Item>)
    requires Distinct(xs)
    ensures |SetOf(xs)| == |xs|
  {
    if xs != [] {
      var n := |xs| - 1;
      DistinctSize(xs[..n]);
      assert SetOf(xs) == SetOf(xs[..n]) + {xs[n]};
    }
  }

  lemma SubsetSize(a: set<Item>, b: set<Item>)
    requires a <= b
    ensures |a| <= |b| && (|a| == |b| ==> a == b)
  {
    var rest := b - a;
    assert b == a + rest;
    if |a| == |b| { assert |rest| == 0; }
  }

  /** A short page holds everything that matches. */
  lemma ShortPageIsAll(rows: set<Item>, limit: nat, page: seq<Item>)
    requires IsPage(rows, limit, page)
    ensures |page| < limit ==> SetOf(page) == rows
    ensures |page| <= |rows|
  {
    DistinctSize(page);
    SubsetSize(SetOf(page), rows);
  }

  /** Rows newer than the last row of a page are all on it. */
  lemma AboveLast(rows: set<Item>, limit: nat, page: seq<Item>, r: Item)
    requires IsPage(rows, limit, page) && page != [] && r in rows && r.at > Last(page).at
    ensures r in page
  {
  }

  lemma LastIsLeast(rows: set<Item>, limit: nat, page: seq<Item>, r: Item)
    requires IsPage(rows, limit, page) && r in page
    ensures page != [] && r.at >= Last(page).at && r in rows && Last(page) in rows
  {
  }

  lemma {:induction false} NewestExists(rows: set<Item>) returns (newest: Item)
    requires rows != {}
    ensures newest in rows && forall r :: r in rows ==> r.at <= newest.at
    decreases |rows|
  {
    newest :| newest in rows;
    if rows != {newest} {
      var rest := NewestExists(rows - {newest});
      if rest.at > newest.at { newest := rest; }
    }
  }

  lemma PageCons(rows: set<Item>, limit: nat, newest: Item, page: seq<Item>)
    requires limit > 0 && newest in rows && forall r :: r in rows ==> r.at <= newest.at
    requires IsPage(rows - {newest}, limit - 1, page)
    ensures IsPage(rows, limit, [newest] + page)
  {
    var all := [newest] + page;
    assert newest !in SetOf(page);
    forall p | p in page ensures p in rows {
      assert p in SetOf(page);
    }
    assert |rows - {newest}| == |rows| - 1;
  }

  /** Every query has an answer. */
  lemma {:induction false} PageExists(rows: set<Item>, limit: nat) returns (page: seq<Item>)
    ensures IsPage(rows, limit, page)
    decreases limit
  {
    if limit == 0 || rows == {} {
      page := [];
      assert SetOf(page) == {};
    } else {
      var newest := NewestExists(rows);
      var rest := PageExists(rows - {newest}, limit - 1);
      PageCons(rows, limit, newest, rest);
      page := [newest] + rest;
    }
  }

  // ---- the query

  method Newest(rest: set<Item>) returns (newest: Item)
    requires rest != {}
    ensures newest in rest && forall r :: r in rest ==> r.at <= newest.at
  {
    newest :| newest in rest;
    var seen := {newest};
    while seen != rest
      invariant seen <= rest && newest in rest
      invariant forall r :: r in seen ==> r.at <= newest.at
      decreases |rest - seen|
    {
      var r :| r in rest - seen;
      seen := seen + {r};
      if r.at > newest.at {
        newest := r;
      }
    }
  }

  lemma SetOfSnoc(xs: seq<Item>, x: Item)
    ensures SetOf(xs + [x]) == SetOf(xs) + {x}
  {
  }

  /** The rows loop of the stores: the database hands over the newest matching rows until the limit. */
  method SelectPage(matching: set<Item>, limit: nat) returns (page: seq<Item>)
    ensures IsPage(matching, limit, page)
  {
    page := [];
    var rest := matching;
    while |page| < limit && rest != {}
      invariant rest <= matching && Distinct(page) && SetOf(page) == matching - rest
      invariant |page| == |matching| - |rest| && |page| <= limit
      invariant Descending(page)
      invariant forall p, r :: p in page && r in rest ==> r.at <= p.at
      decreases |rest|
    {
      var newest := Newest(rest);
      assert newest !in SetOf(page);
      SetOfSnoc(page, newest);
      page := page + [newest];
      rest := rest - {newest};
    }
    forall r | r in matching && r !in page ensures r in rest {
      assert r !in SetOf(page);
    }
  }
}
