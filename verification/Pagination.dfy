/** Keyset pagination: pages of a table in (order column, id) descending order. */
module Pagination {
  import opened Common

  type RowId = nat

  datatype Row = Row(key: int, id: RowId)

  datatype Page = Page(data: seq<Row>, hasMore: bool)

  datatype Cursor = Start | After(id: RowId) | Before(id: RowId)

  datatype PageError = InvalidCursor

  function ClampLimit(limit: int): (n: int)
    ensures 1 <= n <= 100 && (1 <= limit <= 100 ==> n == limit)
  {
    Max(1, Min(limit, 100))
  }

  /** The row comparison of SQL. */
  predicate Less(a: Row, b: Row) {
    a.key < b.key || (a.key == b.key && a.id < b.id)
  }

  predicate IsGreatest(x: Row, s: set<Row>) {
    x in s && forall y | y in s && y != x :: Less(y, x)
  }

  lemma GreatestExists(s: set<Row>, x: Row)
    requires x in s
    ensures exists m :: IsGreatest(m, s)
    decreases |s|
  {
    var upper := set y | y in s && Less(x, y);
    if y :| y in upper {
      Shrinks(upper, s, x);
      GreatestExists(upper, y);
      var m :| IsGreatest(m, upper);
      forall z | z in s && z != m ensures Less(z, m) { assert Less(x, z) ==> z in upper; }
      assert IsGreatest(m, s);
    } else {
      forall z | z in s && z != x ensures Less(z, x) { assert z !in upper; }
      assert IsGreatest(x, s);
    }
  }

  lemma Shrinks(a: set<Row>, b: set<Row>, x: Row)
    requires a <= b && x in b && x !in a
    ensures |a| < |b|
  {
    assert b == a + (b - a) && x in b - a;
  }

  /** ORDER BY order_column DESC, id DESC. */
  function Desc(s: set<Row>): seq<Row>
    decreases |s|
  {
    if s == {} then []
    else
      assert exists m :: IsGreatest(m, s) by { var x :| x in s; GreatestExists(s, x); }
      var m :| IsGreatest(m, s);
      [m] + Desc(s - {m})
  }

  lemma {:induction false} DescLists(s: set<Row>)
    ensures |Desc(s)| == |s|
    ensures forall r :: r in Desc(s) <==> r in s
    decreases |s|
  {
    if s != {} {
      var m := Desc(s)[0];
      assert IsGreatest(m, s) by { var x :| x in s; GreatestExists(s, x); }
      DescLists(s - {m});
      assert Desc(s) == [m] + Desc(s - {m});
    }
  }

  lemma {:induction false} DescDescends(s: set<Row>)
    ensures Descending(Desc(s))
    decreases |s|
  {
    if s != {} {
      var m := Desc(s)[0];
      assert IsGreatest(m, s) by { var x :| x in s; GreatestExists(s, x); }
      var rest := Desc(s - {m});
      DescLists(s - {m});
      DescDescends(s - {m});
      forall i | 0 <= i < |rest| ensures Less(rest[i], m) { assert rest[i] in s - {m}; }
      PrependDescends(m, rest);
    }
  }

  lemma PrependDescends(m: Row, rest: seq<Row>)
    requires Descending(rest) && forall i :: 0 <= i < |rest| ==> Less(rest[i], m)
    ensures Descending([m] + rest)
  {
  }

  function Reverse(rows: seq<Row>): (r: seq<Row>)
    ensures |r| == |rows| && forall i :: 0 <= i < |r| ==> r[i] == rows[|rows| - 1 - i]
  {
    if rows == [] then [] else Reverse(rows[1..]) + [rows[0]]
  }

  /** ORDER BY order_column ASC, id ASC. */
  function Asc(s: set<Row>): seq<Row> {
    Reverse(Desc(s))
  }

  predicate Descending(rows: seq<Row>) {
    forall i, j | 0 <= i < j < |rows| :: Less(rows[j], rows[i])
  }

  lemma Inhabited(rows: seq<Row>)
    ensures rows == [] || exists r :: r in rows
  {
    assert rows == [] || rows[0] in rows;
  }

  /** A descending list is determined by its members. */
  lemma {:induction false} DescIsUnique(a: seq<Row>, b: seq<Row>)
    requires Descending(a) && Descending(b)
    requires forall r :: r in a <==> r in b
    ensures a == b
    decreases |a|
  {
    if a != [] {
      assert a[0] in b && (b != [] ==> b[0] in a);
      assert a[0] == b[0];
      forall r ensures r in a[1..] <==> r in b[1..] {
        assert r in a[1..] ==> Less(r, a[0]) && r in b;
        assert r in b[1..] ==> Less(r, b[0]) && r in a;
      }
      DescIsUnique(a[1..], b[1..]);
      assert a == [a[0]] + a[1..] && b == [b[0]] + b[1..];
    } else {
      Inhabited(b);
    }
  }

  // ---------------------------------------------------------------- one page

  /** Ids are the primary key. */
  predicate UniqueIds(table: set<Row>) {
    forall a, b | a in table && b in table && a != b :: a.id != b.id
  }

  function Lookup(table: set<Row>, id: RowId): (r: Option<Row>)
    requires UniqueIds(table)
    ensures r.Some? ==> r.value in table && r.value.id == id
    ensures r.None? ==> forall x :: x in table ==> x.id != id
  {
    if exists x | x in table :: x.id == id then
      var x :| x in table && x.id == id;
      Some(x)
    else None
  }

  function Below(s: set<Row>, c: Row): set<Row> {
    set r | r in s && Less(r, c)
  }

  function Above(s: set<Row>, c: Row): set<Row> {
    set r | r in s && Less(c, r)
  }

  function Take(rows: seq<Row>, n: int): seq<Row>
    requires n >= 0
  {
    rows[..Min(n, |rows|)]
  }

  function Forward(rows: seq<Row>, n: int): Page
    requires n >= 1
  {
    Page(Take(rows, n), |rows| > n)
  }

  /** `table` is what the cursor is looked up in, `visible` what the caller's filters leave of it. */
  function Paginate(table: set<Row>, visible: set<Row>, limit: int, cursor: Cursor): Result<Page, PageError>
    requires UniqueIds(table)
  {
    var n := ClampLimit(limit);
    match cursor
    case Start => Ok(Forward(Desc(visible), n))
    case After(id) =>
      (match Lookup(table, id)
       case None => Err(InvalidCursor)
       case Some(c) => Ok(Forward(Desc(Below(visible, c)), n)))
    case Before(id) =>
      (match Lookup(table, id)
       case None => Err(InvalidCursor)
       case Some(c) =>
         var rows := Asc(Above(visible, c));
         Ok(Page(Reverse(Take(rows, n)), |rows| > n)))
  }

  /** The service: both directions fetch one row more than asked to learn whether more follow. */
  method PaginateCursor(table: set<Row>, visible: set<Row>, limit: int, cursor: Cursor)
    returns (r: Result<Page, PageError>)
    requires UniqueIds(table)
    ensures r == Paginate(table, visible, limit, cursor)
  {
    var n := ClampLimit(limit);
    var query := visible;
    if cursor.After? {
      var row := Lookup(table, cursor.id);
      if row.None? {
        return Err(InvalidCursor);
      }
      query := set x | x in query && Less(x, row.value);
      assert query == Below(visible, row.value);
    } else if cursor.Before? {
      var row := Lookup(table, cursor.id);
      if row.None? {
        return Err(InvalidCursor);
      }
      query := set x | x in query && Less(row.value, x);
      assert query == Above(visible, row.value);
      var fetched := Take(Asc(query), n + 1);
      var more := |fetched| > n;
      fetched := Take(fetched, n);
      assert fetched == Take(Asc(query), n);
      fetched := Reversed(fetched);
      return Ok(Page(fetched, more));
    }
    var rows := Take(Desc(query), n + 1);
    var hasMore := |rows| > n;
    rows := Take(rows, n);
    assert rows == Take(Desc(query), n);
    return Ok(Page(rows, hasMore));
  }

  /** list.reverse(): the two ends are exchanged moving inwards. */
  method Reversed(rows: seq<Row>) returns (r: seq<Row>)
    ensures r == Reverse(rows)
  {
    r := rows;
    var i := 0;
    while i < |rows| / 2
      invariant 0 <= i <= |rows| / 2 && |r| == |rows|
      invariant forall k :: 0 <= k < i || |rows| - i <= k < |rows| ==> r[k] == rows[|rows| - 1 - k]
      invariant forall k :: i <= k < |rows| - i ==> r[k] == rows[k]
    {
      r := r[i := r[|rows| - 1 - i]][|rows| - 1 - i := r[i]];
      i := i + 1;
    }
  }

  // ---------------------------------------------------------------- pages and the sorted list

  /** In a descending list the rows below one are those after it, and the rows above it those before. */
  lemma SplitAt(rows: seq<Row>, i: nat, r: Row)
    requires Descending(rows) && i < |rows|
    ensures r in rows && Less(r, rows[i]) <==> r in rows[i + 1..]
    ensures r in rows && Less(rows[i], r) <==> r in rows[..i]
  {
    if r in rows {
      var k :| 0 <= k < |rows| && rows[k] == r;
      assert k < i ==> Less(rows[i], r) && rows[..i][k] == r;
      assert k > i ==> Less(r, rows[i]) && rows[i + 1..][k - i - 1] == r;
    }
  }

  lemma SuffixAfter(s: set<Row>, rows: seq<Row>, i: nat)
    requires rows == Desc(s) && i < |rows|
    ensures Desc(Below(s, rows[i])) == rows[i + 1..]
  {
    DescLists(s);
    DescDescends(s);
    DescLists(Below(s, rows[i]));
    DescDescends(Below(s, rows[i]));
    forall r ensures r in Below(s, rows[i]) <==> r in rows[i + 1..] { SplitAt(rows, i, r); }
    DescIsUnique(Desc(Below(s, rows[i])), rows[i + 1..]);
  }

  lemma PrefixBefore(s: set<Row>, rows: seq<Row>, i: nat)
    requires rows == Desc(s) && i < |rows|
    ensures Desc(Above(s, rows[i])) == rows[..i]
  {
    DescLists(s);
    DescDescends(s);
    DescLists(Above(s, rows[i]));
    DescDescends(Above(s, rows[i]));
    forall r ensures r in Above(s, rows[i]) <==> r in rows[..i] { SplitAt(rows, i, r); }
    DescIsUnique(Desc(Above(s, rows[i])), rows[..i]);
  }

  lemma LookupVisible(table: set<Row>, visible: set<Row>, row: Row)
    requires UniqueIds(table) && visible <= table && row in visible
    ensures Lookup(table, row.id) == Some(row)
  {
  }

  /** The page of at most `n` rows that starts at row `from`. */
  function PageFrom(rows: seq<Row>, from: nat, n: int): Page
    requires from <= |rows| && n >= 1
  {
    Page(rows[from..Min(from + n, |rows|)], from + n < |rows|)
  }

  /** The page of at most `n` rows that ends just before row `to`. */
  function PageUpTo(rows: seq<Row>, to: nat, n: int): Page
    requires to <= |rows| && n >= 1
  {
    Page(rows[Max(0, to - n)..to], n < to)
  }

  lemma ForwardOfSuffix(rows: seq<Row>, from: nat, n: int)
    requires from <= |rows| && n >= 1
    ensures Forward(rows[from..], n) == PageFrom(rows, from, n)
  {
    assert rows[from..][..Min(n, |rows| - from)] == rows[from..Min(from + n, |rows|)];
  }

  lemma ReverseTakeReverse(rows: seq<Row>, to: nat, n: int)
    requires to <= |rows| && n >= 1
    ensures Reverse(Take(Reverse(rows[..to]), n)) == PageUpTo(rows, to, n).data
  {
  }

  /** Paging forward from a row gives the rows that follow it. */
  lemma PageAfterRow(table: set<Row>, visible: set<Row>, limit: int, i: nat)
    requires UniqueIds(table) && visible <= table && i < |Desc(visible)|
    ensures Paginate(table, visible, limit, After(Desc(visible)[i].id))
         == Ok(PageFrom(Desc(visible), i + 1, ClampLimit(limit)))
  {
    DescLists(visible);
    LookupVisible(table, visible, Desc(visible)[i]);
    SuffixAfter(visible, Desc(visible), i);
    ForwardOfSuffix(Desc(visible), i + 1, ClampLimit(limit));
  }

  /** Paging backward from a row gives the rows just before it, still descending. */
  lemma PageBeforeRow(table: set<Row>, visible: set<Row>, limit: int, i: nat)
    requires UniqueIds(table) && visible <= table && i < |Desc(visible)|
    ensures Paginate(table, visible, limit, Before(Desc(visible)[i].id))
         == Ok(PageUpTo(Desc(visible), i, ClampLimit(limit)))
  {
    DescLists(visible);
    LookupVisible(table, visible, Desc(visible)[i]);
    PrefixBefore(visible, Desc(visible), i);
    ReverseTakeReverse(Desc(visible), i, ClampLimit(limit));
  }

  /** A cursor is refused exactly when the table has no row of that id, in either direction. */
  lemma CursorIsInvalidIff(table: set<Row>, visible: set<Row>, limit: int, id: RowId)
    requires UniqueIds(table)
    ensures Paginate(table, visible, limit, After(id)).Err? <==> forall r :: r in table ==> r.id != id
    ensures Paginate(table, visible, limit, Before(id)).Err? <==> forall r :: r in table ==> r.id != id
  {
  }

  /** Row `c`, which the filters may hide, belongs between rows `above` and `upTo` of the visible list. */
  predicate Belongs(rows: seq<Row>, c: Row, above: nat, upTo: nat) {
    && above <= upTo <= |rows|
    && (forall i | 0 <= i < above :: Less(c, rows[i]))
    && (forall i | above <= i < upTo :: rows[i] == c)
    && (forall i | upTo <= i < |rows| :: Less(rows[i], c))
  }

  /** The page after any row of the table begins with the first visible row below it. */
  lemma PageAfterAnyRow(table: set<Row>, visible: set<Row>, limit: int, c: Row, above: nat, upTo: nat)
    requires UniqueIds(table) && c in table && Belongs(Desc(visible), c, above, upTo)
    ensures Paginate(table, visible, limit, After(c.id)) == Ok(PageFrom(Desc(visible), upTo, ClampLimit(limit)))
  {
    var rows := Desc(visible);
    DescLists(visible);
    DescDescends(visible);
    LookupFinds(table, c);
    DescLists(Below(visible, c));
    DescDescends(Below(visible, c));
    forall r ensures r in Below(visible, c) <==> r in rows[upTo..] {
      if r in rows {
        var k :| 0 <= k < |rows| && rows[k] == r;
        assert k >= upTo ==> rows[upTo..][k - upTo] == r;
      }
    }
    DescIsUnique(Desc(Below(visible, c)), rows[upTo..]);
    ForwardOfSuffix(rows, upTo, ClampLimit(limit));
  }

  /** And the page before it ends with the last visible row above it. */
  lemma PageBeforeAnyRow(table: set<Row>, visible: set<Row>, limit: int, c: Row, above: nat, upTo: nat)
    requires UniqueIds(table) && c in table && Belongs(Desc(visible), c, above, upTo)
    ensures Paginate(table, visible, limit, Before(c.id)) == Ok(PageUpTo(Desc(visible), above, ClampLimit(limit)))
  {
    var rows := Desc(visible);
    DescLists(visible);
    DescDescends(visible);
    LookupFinds(table, c);
    DescLists(Above(visible, c));
    DescDescends(Above(visible, c));
    forall r ensures r in Above(visible, c) <==> r in rows[..above] {
      if r in rows {
        var k :| 0 <= k < |rows| && rows[k] == r;
        assert k < above ==> rows[..above][k] == r;
      }
    }
    DescIsUnique(Desc(Above(visible, c)), rows[..above]);
    ReverseTakeReverse(rows, above, ClampLimit(limit));
  }

  lemma LookupFinds(table: set<Row>, c: Row)
    requires UniqueIds(table) && c in table
    ensures Lookup(table, c.id) == Some(c)
  {
  }

  /** The page after `page`, which starts at `from`, is asked for with the last id of `page`. */
  lemma NextPage(table: set<Row>, visible: set<Row>, limit: int, rows: seq<Row>, from: nat, page: Page)
    requires UniqueIds(table) && visible <= table && rows == Desc(visible)
    requires from <= |rows| && page == PageFrom(rows, from, ClampLimit(limit)) && page.hasMore
    ensures page.data != [] && |page.data| == ClampLimit(limit) && from + |page.data| <= |rows|
    ensures Paginate(table, visible, limit, After(page.data[|page.data| - 1].id))
         == Ok(PageFrom(rows, from + |page.data|, ClampLimit(limit)))
  {
    PageAfterRow(table, visible, limit, from + ClampLimit(limit) - 1);
  }

  lemma FirstOfPage(rows: seq<Row>, from: nat, n: int)
    requires from < |rows| && n >= 1
    ensures PageFrom(rows, from, n).data != [] && PageFrom(rows, from, n).data[0] == rows[from]
  {
  }

  lemma BackwardFromNextPage(table: set<Row>, visible: set<Row>, limit: int, rows: seq<Row>, from: nat)
    requires UniqueIds(table) && visible <= table && rows == Desc(visible) && from + ClampLimit(limit) < |rows|
    ensures Paginate(table, visible, limit, Before(rows[from + ClampLimit(limit)].id))
         == Ok(Page(PageFrom(rows, from, ClampLimit(limit)).data, from > 0))
  {
    PageBeforeRow(table, visible, limit, from + ClampLimit(limit));
    PageBeforeNext(rows, from, ClampLimit(limit));
  }

  lemma PageBeforeNext(rows: seq<Row>, from: nat, n: int)
    requires from + n < |rows| && n >= 1
    ensures PageUpTo(rows, from + n, n) == Page(PageFrom(rows, from, n).data, from > 0)
  {
  }

  /**
    Backward paging inverts forward paging: from the first row of the next page it returns this page
    again, and says there is more exactly when this page is not at the start of the list.
   */
  lemma BackwardInvertsForward(table: set<Row>, visible: set<Row>, limit: int, rows: seq<Row>, from: nat,
                               page: Page, next: Page)
    requires UniqueIds(table) && visible <= table && rows == Desc(visible)
    requires from <= |rows| && page == PageFrom(rows, from, ClampLimit(limit)) && page.hasMore && page.data != []
    requires Paginate(table, visible, limit, After(page.data[|page.data| - 1].id)) == Ok(next)
    ensures next.data != []
    ensures Paginate(table, visible, limit, Before(next.data[0].id)) == Ok(Page(page.data, from > 0))
  {
    NextPage(table, visible, limit, rows, from, page);
    FirstOfPage(rows, from + ClampLimit(limit), ClampLimit(limit));
    BackwardFromNextPage(table, visible, limit, rows, from);
  }

  // ---------------------------------------------------------------- following the pages

  /** `pages` is what a client collects by following `starting_after` until there is no more. */
  ghost predicate IsWalk(table: set<Row>, visible: set<Row>, limit: int, cursor: Cursor, pages: seq<Page>)
    requires UniqueIds(table)
    decreases |pages|
  {
    && pages != []
    && Paginate(table, visible, limit, cursor) == Ok(pages[0])
    && (if pages[0].hasMore then
          pages[0].data != [] && IsWalk(table, visible, limit, After(pages[0].data[|pages[0].data| - 1].id), pages[1..])
        else |pages| == 1)
  }

  function Flatten(pages: seq<Page>): seq<Row> {
    if pages == [] then [] else pages[0].data + Flatten(pages[1..])
  }

  /** The number of pages of `m` rows. */
  function PageCount(m: nat, n: int): nat
    requires n >= 1
  {
    if m <= n then 1 else 1 + PageCount(m - n, n)
  }

  lemma {:induction false} PageCountIsCeiling(m: nat, n: int)
    requires n >= 1 && m >= 1
    ensures (PageCount(m, n) - 1) * n < m <= PageCount(m, n) * n
    decreases m
  {
    if m > n {
      PageCountIsCeiling(m - n, n);
      var k := PageCount(m - n, n);
      assert (k + 1) * n == k * n + n && k * n == (k - 1) * n + n;
    }
  }

  /** `pages` are the successive pages of `n` rows from row `from` on. */
  predicate AreSuccessive(rows: seq<Row>, from: nat, n: int, pages: seq<Page>)
    requires from <= |rows| && n >= 1
    decreases |pages|
  {
    && pages != []
    && pages[0] == PageFrom(rows, from, n)
    && if pages[0].hasMore then AreSuccessive(rows, from + n, n, pages[1..]) else |pages| == 1
  }

  lemma {:induction false} WalkIsSuccessive(table: set<Row>, visible: set<Row>, limit: int, rows: seq<Row>, from: nat,
                                            cursor: Cursor, pages: seq<Page>)
    requires UniqueIds(table) && visible <= table && rows == Desc(visible) && from <= |rows|
    requires Paginate(table, visible, limit, cursor) == Ok(PageFrom(rows, from, ClampLimit(limit)))
    requires IsWalk(table, visible, limit, cursor, pages)
    ensures AreSuccessive(rows, from, ClampLimit(limit), pages)
    decreases |pages|
  {
    var page := PageFrom(rows, from, ClampLimit(limit));
    assert pages[0] == page;
    if page.hasMore {
      NextPage(table, visible, limit, rows, from, page);
      WalkIsSuccessive(table, visible, limit, rows, from + |page.data|,
                       After(page.data[|page.data| - 1].id), pages[1..]);
    }
  }

  lemma PageThenRest(rows: seq<Row>, from: nat, n: int)
    requires n >= 1 && from + n < |rows|
    ensures PageFrom(rows, from, n).data + rows[from + n..] == rows[from..]
  {
  }

  lemma {:induction false} SuccessivePagesFlatten(rows: seq<Row>, from: nat, n: int, pages: seq<Page>)
    requires from <= |rows| && n >= 1 && AreSuccessive(rows, from, n, pages)
    ensures Flatten(pages) == rows[from..]
    ensures |pages| == PageCount(|rows| - from, n)
    decreases |pages|
  {
    if pages[0].hasMore {
      SuccessivePagesFlatten(rows, from + n, n, pages[1..]);
      PageThenRest(rows, from, n);
    } else {
      assert pages[1..] == [];
    }
  }

  lemma {:induction false} WalkExists(table: set<Row>, visible: set<Row>, limit: int, rows: seq<Row>, from: nat,
                                      cursor: Cursor)
    returns (pages: seq<Page>)
    requires UniqueIds(table) && visible <= table && rows == Desc(visible) && from <= |rows|
    requires Paginate(table, visible, limit, cursor) == Ok(PageFrom(rows, from, ClampLimit(limit)))
    ensures IsWalk(table, visible, limit, cursor, pages)
    decreases |rows| - from
  {
    var page := PageFrom(rows, from, ClampLimit(limit));
    if page.hasMore {
      NextPage(table, visible, limit, rows, from, page);
      var next := After(page.data[|page.data| - 1].id);
      var rest := WalkExists(table, visible, limit, rows, from + |page.data|, next);
      pages := [page] + rest;
      assert pages[1..] == rest;
    } else {
      pages := [page];
    }
  }

  lemma FirstPage(table: set<Row>, visible: set<Row>, limit: int)
    requires UniqueIds(table)
    ensures Paginate(table, visible, limit, Start) == Ok(PageFrom(Desc(visible), 0, ClampLimit(limit)))
  {
    assert Desc(visible)[0..] == Desc(visible);
    ForwardOfSuffix(Desc(visible), 0, ClampLimit(limit));
  }

  /** Following `starting_after` from no cursor comes to an end. */
  lemma ForwardPagingTerminates(table: set<Row>, visible: set<Row>, limit: int)
    requires UniqueIds(table) && visible <= table
    ensures exists pages :: IsWalk(table, visible, limit, Start, pages)
  {
    FirstPage(table, visible, limit);
    var pages := WalkExists(table, visible, limit, Desc(visible), 0, Start);
  }

  /**
    And it yields the whole visible set in descending order, each row once, in as many pages as its
    size calls for (one if empty).
   */
  lemma ForwardPagingIsTheSortedList(table: set<Row>, visible: set<Row>, limit: int, pages: seq<Page>)
    requires UniqueIds(table) && visible <= table && IsWalk(table, visible, limit, Start, pages)
    ensures var rows := Flatten(pages);
            forall i, j :: 0 <= i < j < |rows| ==>
              rows[i].key > rows[j].key || (rows[i].key == rows[j].key && rows[i].id > rows[j].id)
    ensures forall r :: r in Flatten(pages) <==> r in visible
    ensures |Flatten(pages)| == |visible|
    ensures |pages| == PageCount(|visible|, ClampLimit(limit))
  {
    FirstPage(table, visible, limit);
    WalkIsSuccessive(table, visible, limit, Desc(visible), 0, Start, pages);
    SuccessivePagesFlatten(Desc(visible), 0, ClampLimit(limit), pages);
    assert Desc(visible)[0..] == Desc(visible);
    DescLists(visible);
    DescDescends(visible);
  }
}
