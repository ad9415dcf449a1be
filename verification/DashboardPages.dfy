/** The student dashboard: keyset pages against the plain sorted history. */
module DashboardPages {
  import opened Options

  /** A qualifying Submission; `createdAt` is in microseconds, as the cursor carries it. */
  datatype Row = Row(createdAt: int, id: nat)

  const DEFAULT_PAGE_SIZE := 10
  const MAX_PAGE_SIZE := 50
  const MAX_SAFE_INTEGER := 9007199254740991

  /**
   * The page size is the largest one that neither the request nor the maximum
   * forbids, or the default without a request; None is the error for a limit that
   * is not a positive safe integer.
   */
  function NormalizeLimit(limit: Option<int>): (size: Option<nat>)
    ensures size.None? <==> limit.Some? && !(1 <= limit.value < 0x20_0000_0000_0000)
    ensures size.Some? ==> 1 <= size.value <= 50
    ensures size.Some? && limit.None? ==> size.value == 10
    ensures size.Some? && limit.Some? ==>
              size.value <= limit.value && size.value in {limit.value, 50}
  {
    if limit.None? then Some(DEFAULT_PAGE_SIZE)
    else if limit.value < 1 || limit.value > MAX_SAFE_INTEGER then None
    else Some(if limit.value < MAX_PAGE_SIZE then limit.value else MAX_PAGE_SIZE)
  }

  // ---------------------------------------------------------------------
  // The history in order
  // ---------------------------------------------------------------------

  /** Newest first, by id among rows of the same moment. */
  predicate Before(a: Row, b: Row) {
    a.createdAt > b.createdAt || (a.createdAt == b.createdAt && a.id > b.id)
  }

  predicate IsTop(top: Row, rows: set<Row>) {
    top in rows && forall r :: r in rows && r != top ==> Before(top, r)
  }

  lemma {:induction false} TopExists(rows: set<Row>)
    requires rows != {}
    ensures exists top :: IsTop(top, rows)
    decreases |rows|
  {
    var x :| x in rows;
    if rows == {x} {
      assert IsTop(x, rows);
    } else {
      assert rows == (rows - {x}) + {x};
      TopExists(rows - {x});
      var y :| IsTop(y, rows - {x});
      assert IsTop(if Before(x, y) then x else y, rows);
    }
  }

  function Top(rows: set<Row>): (top: Row)
    requires rows != {}
    ensures IsTop(top, rows)
  {
    TopExists(rows);
    var top :| top in rows && IsTop(top, rows);
    top
  }

  function Sorted(rows: set<Row>): seq<Row> {
    if rows == {} then [] else [Top(rows)] + Sorted(rows - {Top(rows)})
  }

  ghost predicate Descending(rows: seq<Row>) {
    forall i, j :: 0 <= i < j < |rows| ==> Before(rows[i], rows[j])
  }

  lemma {:induction false} SortedIsTheHistory(rows: set<Row>)
    ensures Descending(Sorted(rows)) && |Sorted(rows)| == |rows|
    ensures forall r :: r in Sorted(rows) <==> r in rows
  {
    if rows != {} {
      var rest := rows - {Top(rows)};
      SortedIsTheHistory(rest);
      assert forall r :: r in rows <==> r == Top(rows) || r in rest;
      var tail := Sorted(rest);
      assert forall i :: 0 <= i < |tail| ==> tail[i] in rest;
    }
  }

  // ---------------------------------------------------------------------
  // Pages
  // ---------------------------------------------------------------------

  /** The rows after the cursor. */
  function Beyond(rows: set<Row>, cursor: Option<Row>): set<Row> {
    set r | r in rows && (cursor.Some? ==> Before(cursor.value, r))
  }

  datatype Page = Page(items: seq<Row>, nextCursor: Option<Row>)

  /** One row more than the page is fetched, to learn whether there is a next page. */
  function ReadPage(rows: set<Row>, cursor: Option<Row>, limit: nat): Page
    requires limit >= 1
  {
    var sorted := Sorted(Beyond(rows, cursor));
    var fetched := if |sorted| > limit + 1 then sorted[..limit + 1] else sorted;
    if |fetched| > limit then Page(fetched[..limit], Some(fetched[limit - 1])) else Page(fetched, None)
  }

  lemma {:induction false} SortedAfter(rows: set<Row>, k: nat)
    requires k < |Sorted(rows)|
    ensures Sorted(Beyond(rows, Some(Sorted(rows)[k]))) == Sorted(rows)[k + 1..]
  {
    var top, rest := Top(rows), rows - {Top(rows)};
    if k == 0 {
      assert Beyond(rows, Some(top)) == rest;
    } else {
      SortedIsTheHistory(rest);
      var c := Sorted(rest)[k - 1];
      assert c in rest;
      assert Beyond(rows, Some(c)) == Beyond(rest, Some(c));
      SortedAfter(rest, k - 1);
    }
  }

  /** A page and what its cursor leads to are the rest of the history, in order. */
  lemma PageSplits(rows: set<Row>, cursor: Option<Row>, limit: nat)
    requires limit >= 1
    ensures var page, all := ReadPage(rows, cursor, limit), Sorted(Beyond(rows, cursor));
            && page.items == all[..if |all| > limit then limit else |all|]
            && (page.nextCursor.Some? <==> |all| > limit)
            && (page.nextCursor.Some? ==>
                  page.nextCursor.value == all[limit - 1]
                  && Sorted(Beyond(rows, page.nextCursor)) == all[limit..]
                  && Beyond(rows, page.nextCursor) < Beyond(rows, cursor))
  {
    hide Sorted, Beyond;
    var all := Sorted(Beyond(rows, cursor));
    if |all| > limit {
      assert all[..limit + 1][..limit] == all[..limit];
      SortedIsTheHistory(Beyond(rows, cursor));
      SortedAfter(Beyond(rows, cursor), limit - 1);
      assert all[limit - 1] in all;
      BeyondShrinks(rows, cursor, all[limit - 1]);
    } else {
      assert all[..|all|] == all;
    }
  }

  lemma BeyondShrinks(rows: set<Row>, cursor: Option<Row>, c: Row)
    requires c in Beyond(rows, cursor)
    ensures Beyond(Beyond(rows, cursor), Some(c)) == Beyond(rows, Some(c))
    ensures Beyond(rows, Some(c)) < Beyond(rows, cursor)
  {
    assert c !in Beyond(rows, Some(c));
  }

  // ---------------------------------------------------------------------
  // Following the cursors
  // ---------------------------------------------------------------------

  /** All pages from a cursor on, over an unchanging table. */
  function Walk(rows: set<Row>, cursor: Option<Row>, limit: nat): seq<Row>
    requires limit >= 1
    decreases |Beyond(rows, cursor)|
  {
    var page := ReadPage(rows, cursor, limit);
    PageSplits(rows, cursor, limit);
    if page.nextCursor.None? then page.items
    else
      SmallerSet(Beyond(rows, page.nextCursor), Beyond(rows, cursor));
      page.items + Walk(rows, page.nextCursor, limit)
  }

  lemma SmallerSet(a: set<Row>, b: set<Row>)
    requires a < b
    ensures |a| < |b|
  {
    assert b == a + (b - a) && b - a != {};
  }

  lemma {:induction false} WalkIsRest(rows: set<Row>, cursor: Option<Row>, limit: nat)
    requires limit >= 1
    ensures Walk(rows, cursor, limit) == Sorted(Beyond(rows, cursor))
    decreases |Beyond(rows, cursor)|
  {
    var page, all := ReadPage(rows, cursor, limit), Sorted(Beyond(rows, cursor));
    PageSplits(rows, cursor, limit);
    if page.nextCursor.Some? {
      SmallerSet(Beyond(rows, page.nextCursor), Beyond(rows, cursor));
      WalkIsRest(rows, page.nextCursor, limit);
      assert all == all[..limit] + all[limit..];
    }
  }

  /** Following the cursors from the first page yields the whole history once, in order, whatever the page size. */
  lemma PagesAreTheHistory(rows: set<Row>, limit: nat)
    requires limit >= 1
    ensures Walk(rows, None, limit) == Sorted(rows)
    ensures |Walk(rows, None, limit)| == |rows| && Descending(Walk(rows, None, limit))
    ensures forall r :: r in Walk(rows, None, limit) <==> r in rows
  {
    assert Beyond(rows, None) == rows;
    WalkIsRest(rows, None, limit);
    SortedIsTheHistory(rows);
  }

  // ---------------------------------------------------------------------
  // A table that changes between pages
  // ---------------------------------------------------------------------

  /** Page after page, each read from the table as it then is. */
  function Follow(tables: seq<set<Row>>, cursor: Option<Row>, limit: nat): seq<Row>
    requires limit >= 1
    decreases |tables|
  {
    if tables == [] then []
    else
      var page := ReadPage(tables[0], cursor, limit);
      page.items + (if page.nextCursor.None? then [] else Follow(tables[1..], page.nextCursor, limit))
  }

  /** The last page was reached. */
  predicate Finishes(tables: seq<set<Row>>, cursor: Option<Row>, limit: nat)
    requires limit >= 1
    decreases |tables|
  {
    tables != []
    && var page := ReadPage(tables[0], cursor, limit);
       page.nextCursor.None? || Finishes(tables[1..], page.nextCursor, limit)
  }

  lemma PrefixBounds(all: seq<Row>, limit: nat)
    requires Descending(all) && 1 <= limit < |all|
    ensures Descending(all[..limit])
    ensures forall r :: r in all[..limit] ==> r in all && (r == all[limit - 1] || Before(r, all[limit - 1]))
    ensures forall r :: r in all && r !in all[..limit] ==> Before(all[limit - 1], r)
  {
    assert forall k :: 0 <= k < limit ==> all[k] in all[..limit] by {
      assert forall k :: 0 <= k < limit ==> all[..limit][k] == all[k];
    }
    forall r | r in all && r !in all[..limit]
      ensures Before(all[limit - 1], r)
    {
      var i :| 0 <= i < |all| && all[i] == r;
    }
  }

  /** The items of a page come after its cursor and before everything its next cursor leads to. */
  lemma PageBounds(rows: set<Row>, cursor: Option<Row>, limit: nat)
    requires limit >= 1
    ensures var page := ReadPage(rows, cursor, limit);
            && Descending(page.items)
            && (forall r :: r in page.items ==> r in Beyond(rows, cursor))
            && (page.nextCursor.None? ==> forall r :: r in Beyond(rows, cursor) ==> r in page.items)
            && (page.nextCursor.Some? ==>
                  && page.nextCursor.value in Beyond(rows, cursor)
                  && (forall r :: r in page.items ==> r == page.nextCursor.value || Before(r, page.nextCursor.value))
                  && (forall r :: r in Beyond(rows, cursor) && r !in page.items ==> Before(page.nextCursor.value, r)))
  {
    hide ReadPage, Descending, Before, Beyond, Sorted;
    var all := Sorted(Beyond(rows, cursor));
    PageSplits(rows, cursor, limit);
    SortedIsTheHistory(Beyond(rows, cursor));
    if |all| > limit {
      PrefixBounds(all, limit);
      assert all[limit - 1] in all;
    } else {
      assert all[..|all|] == all;
    }
  }

  lemma {:induction false} FollowAfterCursor(tables: seq<set<Row>>, cursor: Option<Row>, limit: nat)
    requires limit >= 1
    ensures Descending(Follow(tables, cursor, limit))
    ensures cursor.Some? ==> forall r :: r in Follow(tables, cursor, limit) ==> Before(cursor.value, r)
    decreases |tables|
  {
    hide ReadPage;
    if tables != [] {
      var page := ReadPage(tables[0], cursor, limit);
      PageBounds(tables[0], cursor, limit);
      if page.nextCursor.Some? {
        FollowAfterCursor(tables[1..], page.nextCursor, limit);
        Joins(page.items, Follow(tables[1..], page.nextCursor, limit), page.nextCursor.value);
      }
    }
  }

  lemma Joins(first: seq<Row>, second: seq<Row>, middle: Row)
    requires Descending(first) && Descending(second)
    requires forall r :: r in first ==> r == middle || Before(r, middle)
    requires forall r :: r in second ==> Before(middle, r)
    ensures Descending(first + second)
  {
    assert forall i :: 0 <= i < |first| ==> first[i] in first;
    assert forall j :: 0 <= j < |second| ==> second[j] in second;
  }

  /** A row that is there whenever a page is read is delivered, wherever rows come and go meanwhile. */
  lemma {:induction false} FollowDelivers(tables: seq<set<Row>>, cursor: Option<Row>, limit: nat, r: Row)
    requires limit >= 1 && Finishes(tables, cursor, limit)
    requires forall i :: 0 <= i < |tables| ==> r in tables[i]
    requires cursor.Some? ==> Before(cursor.value, r)
    ensures r in Follow(tables, cursor, limit)
    decreases |tables|
  {
    hide ReadPage;
    var page := ReadPage(tables[0], cursor, limit);
    PageBounds(tables[0], cursor, limit);
    if r !in page.items && page.nextCursor.Some? {
      FollowDelivers(tables[1..], page.nextCursor, limit, r);
    }
  }

  /** Over a changing table nothing is repeated, and no row that stays is skipped. */
  lemma ChangingTable(tables: seq<set<Row>>, limit: nat)
    requires limit >= 1 && Finishes(tables, None, limit)
    ensures Descending(Follow(tables, None, limit))
    ensures forall r :: (forall i :: 0 <= i < |tables| ==> r in tables[i]) ==> r in Follow(tables, None, limit)
  {
    FollowAfterCursor(tables, None, limit);
    forall r | forall i :: 0 <= i < |tables| ==> r in tables[i]
      ensures r in Follow(tables, None, limit)
    {
      FollowDelivers(tables, None, limit, r);
    }
  }

  // ---------------------------------------------------------------------
  // When the walk ends
  // ---------------------------------------------------------------------

  /** Rows may go; every row that appears comes before all that were there. */
  ghost predicate Newer(before: set<Row>, after: set<Row>) {
    forall r, q :: r in after && r !in before && q in before ==> Before(r, q)
  }

  /** Between any two pages only newer rows appear. */
  ghost predicate OnlyNewer(tables: seq<set<Row>>) {
    |tables| > 1 ==> Newer(tables[0], tables[1]) && OnlyNewer(tables[1..])
  }

  lemma NotLarger(a: set<Row>, b: set<Row>)
    requires a <= b
    ensures |a| <= |b|
  {
    if a != b { SmallerSet(a, b); }
  }

  /** Rows that appear before the cursor leave no more to read behind it. */
  lemma NothingMoreBeyond(before: set<Row>, after: set<Row>, cursor: Row)
    requires cursor in before && forall r :: r in after && r !in before ==> Before(r, cursor)
    ensures |Beyond(after, Some(cursor))| <= |Beyond(before, Some(cursor))|
  {
    NotLarger(Beyond(after, Some(cursor)), Beyond(before, Some(cursor)));
  }

  /** A full page leaves a page's worth of rows less. */
  lemma PageLeaves(rows: set<Row>, cursor: Option<Row>, limit: nat)
    requires limit >= 1
    ensures var next := ReadPage(rows, cursor, limit).nextCursor;
            next.Some? ==>
              next.value in rows && |Beyond(rows, cursor)| > limit
              && |Beyond(rows, next)| == |Beyond(rows, cursor)| - limit
  {
    hide ReadPage, Sorted, Before;
    var next := ReadPage(rows, cursor, limit).nextCursor;
    PageSplits(rows, cursor, limit);
    PageBounds(rows, cursor, limit);
    SortedIsTheHistory(Beyond(rows, cursor));
    SortedIsTheHistory(Beyond(rows, next));
  }

  lemma {:induction false} WalkEnds(tables: seq<set<Row>>, cursor: Option<Row>, limit: nat)
    requires limit >= 1 && OnlyNewer(tables)
    requires tables != [] && |Beyond(tables[0], cursor)| <= |tables| * limit
    ensures Finishes(tables, cursor, limit)
    decreases |tables|
  {
    hide ReadPage, Before, Beyond;
    var next := ReadPage(tables[0], cursor, limit).nextCursor;
    PageLeaves(tables[0], cursor, limit);
    if next.Some? {
      assert |tables| > 1;
      assert |tables| * limit == (|tables| - 1) * limit + limit;
      NothingMoreBeyond(tables[0], tables[1], next.value);
      WalkEnds(tables[1..], next, limit);
    }
  }

  /**
   * While only newer rows appear between pages the walk ends, after as many pages as the rows
   * that were there at first fill; nothing is repeated, every row that stays is delivered, and
   * only rows that were there at first are.
   */
  lemma NewRowsDoNotDelay(tables: seq<set<Row>>, limit: nat)
    requires limit >= 1 && OnlyNewer(tables) && tables != [] && |tables[0]| <= |tables| * limit
    ensures Finishes(tables, None, limit) && Descending(Follow(tables, None, limit))
    ensures forall r :: (forall i :: 0 <= i < |tables| ==> r in tables[i]) ==> r in Follow(tables, None, limit)
    ensures forall r :: r in Follow(tables, None, limit) ==> r in tables[0]
  {
    hide Finishes, Descending, Follow, OnlyNewer;
    assert Beyond(tables[0], None) == tables[0];
    WalkEnds(tables, None, limit);
    ChangingTable(tables, limit);
    OnlyOldDelivered(tables, None, limit);
  }

  lemma {:induction false} OnlyOldDelivered(tables: seq<set<Row>>, cursor: Option<Row>, limit: nat)
    requires limit >= 1 && OnlyNewer(tables) && tables != []
    ensures forall r :: r in Follow(tables, cursor, limit) ==> r in tables[0]
    decreases |tables|
  {
    hide ReadPage, Before;
    var page := ReadPage(tables[0], cursor, limit);
    PageBounds(tables[0], cursor, limit);
    if page.nextCursor.Some? && |tables| > 1 {
      var later, c := tables[1..], page.nextCursor.value;
      OnlyOldDelivered(later, page.nextCursor, limit);
      FollowAfterCursor(later, page.nextCursor, limit);
      forall r | r in Follow(later, page.nextCursor, limit)
        ensures r in tables[0]
      {
        NotBothWays(r, c);
      }
    }
  }

  lemma NotBothWays(a: Row, b: Row)
    ensures !(Before(a, b) && Before(b, a))
  {
  }
}
