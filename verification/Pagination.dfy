/**
 Keyset pagination: the server's pages, the client's walk over them, and the plain sorted list.

 A row sorts by (key, id). The key is COALESCE(started_at, created_at); lists that sort by one column are the
 case without `started`. A cursor is the exact (key, id) pair of the last row of a page.
 */
module Pagination {
  import opened Wrappers

  type Id = nat

  datatype Row = Row(started: Option<int>, created: int, payload: string)
  datatype Item = Item(id: Id, row: Row)
  datatype Pos = Pos(at: int, id: Id)
  datatype Direction = Ascending | Descending

  type Table = map<Id, Row>

  /** The sort expression of the query. */
  function Coalesce(row: Row): int {
    if row.started.Some? then row.started.value else row.created
  }

  function PosOf(item: Item): Pos {
    Pos(Coalesce(item.row), item.id)
  }

  /** Row comparison: (a.at, a.id) < (b.at, b.id), or > in a descending list. */
  predicate Before(dir: Direction, a: Pos, b: Pos) {
    match dir
    case Ascending => a.at < b.at || (a.at == b.at && a.id < b.id)
    case Descending => a.at > b.at || (a.at == b.at && a.id > b.id)
  }

  ghost predicate Ordered(dir: Direction, items: seq<Item>) {
    forall i, j :: 0 <= i < j < |items| ==> Before(dir, PosOf(items[i]), PosOf(items[j]))
  }

  predicate Has(table: Table, item: Item) {
    item.id in table && table[item.id] == item.row
  }

  /** WHERE: the rows after the cursor, or all of them on the first page. */
  predicate AfterCursor(dir: Direction, cursor: Option<Pos>, p: Pos) {
    cursor.Some? ==> Before(dir, cursor.value, p)
  }

  function Rest(table: Table, dir: Direction, cursor: Option<Pos>): Table {
    map id | id in table && AfterCursor(dir, cursor, Pos(Coalesce(table[id]), id)) :: table[id]
  }

  // --- The unpaged list -----------------------------------------------------------------------------

  predicate IsFirst(dir: Direction, table: Table, first: Id) {
    && first in table
    && forall id :: id in table && id != first ==>
         Before(dir, Pos(Coalesce(table[first]), first), Pos(Coalesce(table[id]), id))
  }

  method FirstOf(dir: Direction, table: Table) returns (first: Id)
    requires table.Keys != {}
    ensures IsFirst(dir, table, first)
  {
    first :| first in table.Keys;
    var todo := table.Keys - {first};
    while todo != {}
      invariant first in table && todo <= table.Keys
      invariant forall id :: id in table && id !in todo && id != first ==>
                               Before(dir, Pos(Coalesce(table[first]), first), Pos(Coalesce(table[id]), id))
      decreases |todo|
    {
      var id :| id in todo;
      if Before(dir, Pos(Coalesce(table[id]), id), Pos(Coalesce(table[first]), first)) {
        first := id;
      }
      todo := todo - {id};
    }
  }

  lemma {:induction false} HasFirst(dir: Direction, table: Table)
    requires table.Keys != {}
    ensures exists first :: IsFirst(dir, table, first)
    decreases |table.Keys|
  {
    var id :| id in table.Keys;
    var others := table - {id};
    if others.Keys == {} {
      assert table.Keys == {id};
      assert IsFirst(dir, table, id);
    } else {
      assert others.Keys == table.Keys - {id};
      HasFirst(dir, others);
      var best :| IsFirst(dir, others, best);
      FirstOfTwo(dir, table, id, best);
    }
  }

  lemma FirstOfTwo(dir: Direction, table: Table, id: Id, best: Id)
    requires id in table && IsFirst(dir, table - {id}, best)
    ensures exists first :: IsFirst(dir, table, first)
  {
    var first := if Before(dir, Pos(Coalesce(table[id]), id), Pos(Coalesce(table[best]), best)) then id else best;
    forall other | other in table && other != first
      ensures Before(dir, Pos(Coalesce(table[first]), first), Pos(Coalesce(table[other]), other))
    {
      assert other != id ==> other in table - {id};
    }
    assert IsFirst(dir, table, first);
  }

  /** `list` holds the rows of the table, sorted. */
  ghost predicate Sorts(dir: Direction, table: Table, list: seq<Item>) {
    Ordered(dir, list) && |list| == |table.Keys| && forall item :: item in list <==> Has(table, item)
  }

  lemma {:induction false} CanSort(dir: Direction, table: Table)
    ensures exists list :: Sorts(dir, table, list)
    decreases |table.Keys|
  {
    if table.Keys == {} {
      assert Sorts(dir, table, []);
    } else {
      HasFirst(dir, table);
      var first :| IsFirst(dir, table, first);
      assert (table - {first}).Keys == table.Keys - {first};
      CanSort(dir, table - {first});
      var tail :| Sorts(dir, table - {first}, tail);
      FirstGoesFirst(dir, table, first, tail);
    }
  }

  lemma FirstGoesFirst(dir: Direction, table: Table, first: Id, tail: seq<Item>)
    requires IsFirst(dir, table, first) && Sorts(dir, table - {first}, tail)
    ensures Sorts(dir, table, [Item(first, table[first])] + tail)
  {
    var head := Item(first, table[first]);
    assert (table - {first}).Keys == table.Keys - {first};
    forall item
      ensures item in [head] + tail <==> Has(table, item)
      ensures item in tail ==> Before(dir, PosOf(head), PosOf(item))
    {
      assert item in tail <==> Has(table - {first}, item);
    }
    JoinOrdered(dir, [head], tail);
  }

  /** ORDER BY: the simple list. */
  ghost function Listing(dir: Direction, table: Table): (list: seq<Item>)
  {
    CanSort(dir, table);
    var list :| Sorts(dir, table, list);
    list
  }

  lemma ListingSorts(dir: Direction, table: Table)
    ensures Sorts(dir, table, Listing(dir, table))
  {
    CanSort(dir, table);
  }

  lemma ListingHas(dir: Direction, table: Table, item: Item)
    ensures item in Listing(dir, table) <==> Has(table, item)
  {
    ListingSorts(dir, table);
  }

  lemma ListingIsOrdered(dir: Direction, table: Table)
    ensures Ordered(dir, Listing(dir, table))
  {
    ListingSorts(dir, table);
  }

  /** There is nothing else the sorted list could be. */
  lemma OnlyListing(dir: Direction, table: Table, list: seq<Item>)
    requires Sorts(dir, table, list)
    ensures list == Listing(dir, table)
  {
    ListingSorts(dir, table);
    SortedOnce(dir, list, Listing(dir, table));
  }

  lemma JoinOrdered(dir: Direction, a: seq<Item>, b: seq<Item>)
    requires Ordered(dir, a) && Ordered(dir, b) && a != []
    requires forall item :: item in b ==> Before(dir, PosOf(a[|a| - 1]), PosOf(item))
    ensures Ordered(dir, a + b)
  {
    forall i, j | 0 <= i < j < |a + b|
      ensures Before(dir, PosOf((a + b)[i]), PosOf((a + b)[j]))
    {
      if i < |a| <= j {
        assert (a + b)[j] in b;
        assert i < |a| - 1 ==> Before(dir, PosOf(a[i]), PosOf(a[|a| - 1]));
      }
    }
  }

  /** There is only one way to sort rows. */
  lemma {:induction false} SortedOnce(dir: Direction, a: seq<Item>, b: seq<Item>)
    requires Ordered(dir, a) && Ordered(dir, b)
    requires forall item :: item in a <==> item in b
    ensures a == b
    decreases |a|
  {
    assert b == [] || b[0] in b;
    if a != [] {
      assert a[0] in b;
      assert b[0] in a;
      assert a[0] == b[0];
      forall item
        ensures item in a[1..] <==> item in b[1..]
      {
        assert item in a <==> item == a[0] || item in a[1..];
        assert item in b <==> item == b[0] || item in b[1..];
      }
      SortedOnce(dir, a[1..], b[1..]);
    }
  }

  // --- What the order means -------------------------------------------------------------------------------

  /** The row has this key: when it started, or when it was created if it has not. */
  ghost predicate KeyIs(row: Row, key: int) {
    match row.started
    case Some(at) => key == at
    case None => key == row.created
  }

  /** In an ascending list the earlier row has the smaller key, or the same key and the smaller id. */
  ghost predicate Goes(dir: Direction, earlier: Item, later: Item) {
    forall k, m :: KeyIs(earlier.row, k) && KeyIs(later.row, m) ==>
      match dir
      case Ascending => k < m || (k == m && earlier.id < later.id)
      case Descending => k > m || (k == m && earlier.id > later.id)
  }

  ghost predicate AllGo(dir: Direction, items: seq<Item>) {
    forall i, j :: 0 <= i < j < |items| ==> Goes(dir, items[i], items[j])
  }

  lemma OrderedGo(dir: Direction, items: seq<Item>)
    requires Ordered(dir, items)
    ensures AllGo(dir, items)
  {
    forall i, j | 0 <= i < j < |items|
      ensures Goes(dir, items[i], items[j])
    {
      assert Before(dir, PosOf(items[i]), PosOf(items[j]));
    }
  }

  /** The row comes after the position, in the direction of the list. */
  ghost predicate Passed(dir: Direction, cursor: Option<Pos>, item: Item) {
    cursor.Some? ==>
      forall k :: KeyIs(item.row, k) ==>
        match dir
        case Ascending => cursor.value.at < k || (cursor.value.at == k && cursor.value.id < item.id)
        case Descending => cursor.value.at > k || (cursor.value.at == k && cursor.value.id > item.id)
  }

  lemma PassedIff(dir: Direction, cursor: Option<Pos>, item: Item)
    ensures Passed(dir, cursor, item) <==> AfterCursor(dir, cursor, PosOf(item))
  {
    assert KeyIs(item.row, Coalesce(item.row));
    if cursor.Some? && AfterCursor(dir, cursor, PosOf(item)) {
      forall k | KeyIs(item.row, k)
        ensures k == Coalesce(item.row)
      {
      }
    }
  }

  /**
   The first rows of the table after the cursor: sorted, all of them there, and none of them left out but for want
   of room, when it comes after all of the page.
   */
  ghost predicate FirstRows(table: Table, dir: Direction, cursor: Option<Pos>, limit: nat, page: seq<Item>) {
    && |page| <= limit && AllGo(dir, page)
    && (forall item :: item in page ==>
          item.id in table && table[item.id] == item.row && Passed(dir, cursor, item))
    && (forall id :: id in table && Passed(dir, cursor, Item(id, table[id])) && Item(id, table[id]) !in page ==>
          |page| == limit && forall i :: 0 <= i < |page| ==> Goes(dir, page[i], Item(id, table[id])))
  }

  /** A cursor exactly for a full page: the key and id of its last row. */
  ghost predicate IsNext(page: seq<Item>, limit: nat, next: Option<Pos>)
    requires |page| <= limit
  {
    && (next.Some? <==> |page| == limit)
    && (next.Some? && page != [] ==>
          KeyIs(page[|page| - 1].row, next.value.at) && next.value.id == page[|page| - 1].id)
  }

  // --- One page -----------------------------------------------------------------------------------------

  const DEFAULT_LIMIT := 50
  const MAX_LIMIT := 100

  /** The `limit` query parameter: missing, not an integer, or an integer. */
  datatype LimitParam = Missing | Malformed | Number(n: int)

  datatype CursorParam = Absent | Undecodable | Decoded(pos: Pos)

  function At(cursor: CursorParam): Option<Pos> {
    if cursor.Decoded? then Some(cursor.pos) else None
  }

  /** No value: the request is answered with 400. */
  function ParseLimit(param: LimitParam): (limit: Option<nat>)
    ensures limit.Some? <==> param == Missing || (param.Number? && 1 <= param.n <= 100)
    ensures limit.Some? ==> limit.value == if param.Number? then param.n else 50
  {
    match param
    case Missing => Some(DEFAULT_LIMIT)
    case Malformed => None
    case Number(n) => if n < 1 || n > MAX_LIMIT then None else Some(n)
  }

  /** What the query returns: the sorted rest of the list, cut at the limit. */
  ghost function Page(table: Table, dir: Direction, cursor: Option<Pos>, limit: nat): (page: seq<Item>)
    ensures |page| <= limit
  {
    var rest := Listing(dir, Rest(table, dir, cursor));
    if |rest| < limit then rest else rest[..limit]
  }

  /** The list endpoint. The cursor's key is picked by the handler, not by the query. */
  method ListPage(table: Table, dir: Direction, cursor: Option<Pos>, limit: nat)
    returns (page: seq<Item>, next: Option<Pos>)
    requires limit > 0
    ensures page == Page(table, dir, cursor, limit)
    ensures next == if |page| < limit then None else Some(PosOf(page[limit - 1]))
    ensures FirstRows(table, dir, cursor, limit, page) && IsNext(page, limit, next)
  {
    PageIsFirstRows(table, dir, cursor, limit);
    page := ListRows(Rest(table, dir, cursor), dir, limit);
    next := None;
    if |page| != 0 && |page| >= limit {
      var last := page[|page| - 1];
      var at := last.row.created;
      if last.row.started.Some? {
        at := last.row.started.value;
      }
      next := Some(Pos(at, last.id));
    }
  }

  /** The query string first: a bad cursor or limit is answered with 400 before anything is read. */
  method HandleList(table: Table, dir: Direction, cursor: CursorParam, limit: LimitParam)
      returns (answer: Option<(seq<Item>, Option<Pos>)>)
    ensures answer.None? <==> cursor == Undecodable || ParseLimit(limit).None?
    ensures answer.Some? ==>
              var n := ParseLimit(limit).value;
              && answer.value.0 == Page(table, dir, At(cursor), n)
              && answer.value.1 == if |answer.value.0| < n then None else Some(PosOf(answer.value.0[n - 1]))
    ensures answer.Some? ==>
              && cursor != Undecodable && limit != Malformed && (limit.Number? ==> 1 <= limit.n <= 100)
              && var (page, next) := answer.value;
                 var n := if limit.Number? then limit.n else 50;
                 && FirstRows(table, dir, if cursor.Decoded? then Some(cursor.pos) else None, n, page)
                 && IsNext(page, n, next)
  {
    var n := ParseLimit(limit);
    if n.None? || cursor == Undecodable {
      return None;
    }
    var page, next := ListPage(table, dir, At(cursor), n.value);
    return Some((page, next));
  }

  /** ORDER BY ... LIMIT over the rows the WHERE clause let through. */
  method ListRows(table: Table, dir: Direction, limit: nat) returns (rows: seq<Item>)
    ensures var all := Listing(dir, table); rows == if |all| < limit then all else all[..limit]
  {
    var todo := table;
    rows := [];
    while |rows| < limit && todo.Keys != {}
      invariant |rows| <= limit
      invariant rows + Listing(dir, todo) == Listing(dir, table)
      decreases |todo.Keys|
    {
      var first := FirstOf(dir, todo);
      ListingMoves(dir, todo, first, rows);
      rows, todo := rows + [Item(first, todo[first])], todo - {first};
    }
  }

  lemma ListingStartsWith(dir: Direction, table: Table, first: Id)
    requires IsFirst(dir, table, first)
    ensures Listing(dir, table) == [Item(first, table[first])] + Listing(dir, table - {first})
  {
    ListingSorts(dir, table - {first});
    FirstGoesFirst(dir, table, first, Listing(dir, table - {first}));
    OnlyListing(dir, table, [Item(first, table[first])] + Listing(dir, table - {first}));
  }

  lemma ListingMoves(dir: Direction, table: Table, first: Id, rows: seq<Item>)
    requires IsFirst(dir, table, first)
    ensures rows + Listing(dir, table) == rows + [Item(first, table[first])] + Listing(dir, table - {first})
    ensures |(table - {first}).Keys| < |table.Keys|
  {
    ListingStartsWith(dir, table, first);
    assert (table - {first}).Keys == table.Keys - {first};
    assert rows + ([Item(first, table[first])] + Listing(dir, table - {first}))
        == (rows + [Item(first, table[first])]) + Listing(dir, table - {first});
  }

  lemma PageIsOrdered(table: Table, dir: Direction, cursor: Option<Pos>, limit: nat)
    ensures Ordered(dir, Page(table, dir, cursor, limit))
  {
    ListingIsOrdered(dir, Rest(table, dir, cursor));
  }

  lemma PageHas(table: Table, dir: Direction, cursor: Option<Pos>, limit: nat, item: Item)
    requires item in Page(table, dir, cursor, limit)
    ensures Has(table, item) && AfterCursor(dir, cursor, PosOf(item))
  {
    ListingHas(dir, Rest(table, dir, cursor), item);
  }

  /** A row after the cursor is on the page, or the page is full and the row comes after it. */
  lemma PageCovers(table: Table, dir: Direction, cursor: Option<Pos>, limit: nat, item: Item)
    requires limit > 0 && Has(table, item) && AfterCursor(dir, cursor, PosOf(item))
    ensures var page := Page(table, dir, cursor, limit);
            item in page || (|page| == limit && Before(dir, PosOf(page[limit - 1]), PosOf(item)))
  {
    var rest := Listing(dir, Rest(table, dir, cursor));
    ListingHas(dir, Rest(table, dir, cursor), item);
    var k :| 0 <= k < |rest| && rest[k] == item;
    ListingIsOrdered(dir, Rest(table, dir, cursor));
    if k < limit {
      assert Page(table, dir, cursor, limit)[k] == item;
    } else {
      assert Before(dir, PosOf(rest[limit - 1]), PosOf(rest[k]));
    }
  }

  lemma PageIsFirstRows(table: Table, dir: Direction, cursor: Option<Pos>, limit: nat)
    requires limit > 0
    ensures FirstRows(table, dir, cursor, limit, Page(table, dir, cursor, limit))
  {
    var page := Page(table, dir, cursor, limit);
    PageIsOrdered(table, dir, cursor, limit);
    OrderedGo(dir, page);
    forall item | item in page
      ensures item.id in table && table[item.id] == item.row && Passed(dir, cursor, item)
    {
      PageHas(table, dir, cursor, limit, item);
      PassedIff(dir, cursor, item);
    }
    forall id | id in table && Passed(dir, cursor, Item(id, table[id])) && Item(id, table[id]) !in page
      ensures |page| == limit && forall i :: 0 <= i < |page| ==> Goes(dir, page[i], Item(id, table[id]))
    {
      var left := Item(id, table[id]);
      PassedIff(dir, cursor, left);
      PageCovers(table, dir, cursor, limit, left);
      LeftComesLater(dir, page, left);
    }
  }

  lemma LeftComesLater(dir: Direction, page: seq<Item>, left: Item)
    requires Ordered(dir, page) && page != [] && Before(dir, PosOf(page[|page| - 1]), PosOf(left))
    ensures forall i :: 0 <= i < |page| ==> Goes(dir, page[i], left)
  {
    forall i | 0 <= i < |page|
      ensures Goes(dir, page[i], left)
    {
      assert i < |page| - 1 ==> Before(dir, PosOf(page[i]), PosOf(page[|page| - 1]));
    }
  }

  // --- The client's walk --------------------------------------------------------------------------------

  datatype Walked = Walked(out: seq<Item>, ended: bool, requests: nat)

  /**
   The pages got by following cursors, when request i finds the table as `tables[i]`. `ended` is false while
   the server still has a next cursor after the last table.
   */
  ghost function Walk(tables: seq<Table>, dir: Direction, cursor: Option<Pos>, limit: nat): (w: Walked)
    requires limit > 0
    ensures w.requests <= |tables|
    decreases |tables|
  {
    if tables == [] then Walked([], false, 0)
    else
      var page := Page(tables[0], dir, cursor, limit);
      if |page| < limit then Walked(page, true, 1)
      else
        var w := Walk(tables[1..], dir, Some(PosOf(page[limit - 1])), limit);
        Walked(page + w.out, w.ended, w.requests + 1)
  }

  /** The walk has made i requests, got `out`, and goes on from `cursor`, or has ended. */
  ghost predicate Midway(whole: Walked, tables: seq<Table>, dir: Direction, cursor: Option<Pos>, limit: nat,
                         out: seq<Item>, i: nat, ended: bool)
    requires limit > 0 && i <= |tables|
  {
    if ended then whole == Walked(out, true, i)
    else var more := Walk(tables[i..], dir, cursor, limit);
         whole == Walked(out + more.out, more.ended, i + more.requests)
  }

  lemma OneMorePage(whole: Walked, tables: seq<Table>, dir: Direction, cursor: Option<Pos>, limit: nat, out: seq<Item>,
                    i: nat, next: Option<Pos>)
    requires limit > 0 && i < |tables| && Midway(whole, tables, dir, cursor, limit, out, i, false)
    requires var page := Page(tables[i], dir, cursor, limit);
             next == if |page| < limit then None else Some(PosOf(page[limit - 1]))
    ensures Midway(whole, tables, dir, next, limit, out + Page(tables[i], dir, cursor, limit), i + 1, next == None)
  {
    var page := Page(tables[i], dir, cursor, limit);
    assert tables[i..][0] == tables[i] && tables[i..][1..] == tables[i + 1..];
    if |page| == limit {
      var more := Walk(tables[i + 1..], dir, next, limit);
      assert out + (page + more.out) == (out + page) + more.out;
    }
  }

  lemma WalkStarts(tables: seq<Table>, dir: Direction, limit: nat)
    requires limit > 0
    ensures Midway(Walk(tables, dir, None, limit), tables, dir, None, limit, [], 0, false)
  {
    assert tables[0..] == tables;
    var w := Walk(tables, dir, None, limit);
    assert [] + w.out == w.out;
  }

  lemma WalkIsOver(whole: Walked, tables: seq<Table>, dir: Direction, cursor: Option<Pos>, limit: nat, out: seq<Item>,
                   i: nat, ended: bool)
    requires limit > 0 && i <= |tables| && Midway(whole, tables, dir, cursor, limit, out, i, ended)
    requires ended || i == |tables|
    ensures whole == Walked(out, ended, i)
  {
    assert out + [] == out;
  }

  /** fetchAllPages; the client always asks for pages of 100. */
  method FetchAllPages(tables: seq<Table>, dir: Direction, limit: nat)
    returns (out: seq<Item>, ended: bool, requests: nat)
    requires limit > 0
    ensures Walked(out, ended, requests) == Walk(tables, dir, None, limit)
    ensures AllGo(dir, out)
  {
    out, ended, requests := [], false, 0;
    var cursor := None;
    ghost var whole := Walk(tables, dir, None, limit);
    WalkStarts(tables, dir, limit);
    while !ended && requests < |tables|
      invariant requests <= |tables| && Midway(whole, tables, dir, cursor, limit, out, requests, ended)
    {
      var page, next := ListPage(tables[requests], dir, cursor, limit);
      OneMorePage(whole, tables, dir, cursor, limit, out, requests, next);
      out := out + page;
      cursor := next;
      ended := cursor == None;
      requests := requests + 1;
    }
    WalkIsOver(whole, tables, dir, cursor, limit, out, requests, ended);
    WalkIsOrdered(tables, dir, None, limit);
    OrderedGo(dir, out);
  }

  // --- Any table changes between requests ------------------------------------------------------------------

  /**
   Whatever is inserted, deleted or re-keyed between the requests, the rows arrive in strictly increasing
   (or decreasing) order of (key, id): nothing arrives twice at one position.
   */
  lemma {:induction false} WalkIsOrdered(tables: seq<Table>, dir: Direction, cursor: Option<Pos>, limit: nat)
    requires limit > 0
    ensures Ordered(dir, Walk(tables, dir, cursor, limit).out) && AllGo(dir, Walk(tables, dir, cursor, limit).out)
    ensures forall item :: item in Walk(tables, dir, cursor, limit).out ==> AfterCursor(dir, cursor, PosOf(item))
    decreases |tables|
  {
    if tables != [] {
      var page := Page(tables[0], dir, cursor, limit);
      PageIsOrdered(tables[0], dir, cursor, limit);
      forall item | item in page
        ensures AfterCursor(dir, cursor, PosOf(item))
      {
        PageHas(tables[0], dir, cursor, limit, item);
      }
      if |page| == limit {
        var last := page[limit - 1];
        var more := Walk(tables[1..], dir, Some(PosOf(last)), limit).out;
        WalkIsOrdered(tables[1..], dir, Some(PosOf(last)), limit);
        JoinOrdered(dir, page, more);
        assert AfterCursor(dir, cursor, PosOf(last));
      }
    }
    OrderedGo(dir, Walk(tables, dir, cursor, limit).out);
  }

  /** Every row that arrives was in the table, as it arrived, at one of the requests. */
  lemma {:induction false} RowsAreReal(tables: seq<Table>, dir: Direction, cursor: Option<Pos>, limit: nat, item: Item)
    requires limit > 0 && item in Walk(tables, dir, cursor, limit).out
    ensures exists i :: 0 <= i < Walk(tables, dir, cursor, limit).requests && Has(tables[i], item)
    decreases |tables|
  {
    var page := Page(tables[0], dir, cursor, limit);
    if item in page {
      PageHas(tables[0], dir, cursor, limit, item);
    } else {
      var next := Some(PosOf(page[limit - 1]));
      RowsAreReal(tables[1..], dir, next, limit, item);
      var i :| 0 <= i < Walk(tables[1..], dir, next, limit).requests && Has(tables[1..][i], item);
      assert tables[1..][i] == tables[i + 1];
    }
  }

  predicate KeyedAt(table: Table, p: Pos) {
    p.id in table && Coalesce(table[p.id]) == p.at
  }

  /** The row is in the table, with this key, at every request of the walk. */
  ghost predicate Stable(tables: seq<Table>, requests: nat, p: Pos)
    requires requests <= |tables|
  {
    forall i :: 0 <= i < requests ==> KeyedAt(tables[i], p)
  }

  ghost predicate Arrives(out: seq<Item>, p: Pos) {
    exists k :: 0 <= k < |out| && PosOf(out[k]) == p
  }

  lemma {:induction false} StableArrives(tables: seq<Table>, dir: Direction, cursor: Option<Pos>, limit: nat, p: Pos)
    requires limit > 0 && Walk(tables, dir, cursor, limit).ended
    requires Stable(tables, Walk(tables, dir, cursor, limit).requests, p) && AfterCursor(dir, cursor, p)
    ensures Arrives(Walk(tables, dir, cursor, limit).out, p)
    decreases |tables|
  {
    var page, w := Page(tables[0], dir, cursor, limit), Walk(tables, dir, cursor, limit);
    assert KeyedAt(tables[0], p);
    var here := Item(p.id, tables[0][p.id]);
    PageCovers(tables[0], dir, cursor, limit, here);
    if here in page {
      var k :| 0 <= k < |page| && page[k] == here;
      assert w.out[k] == here;
    } else {
      var next := Some(PosOf(page[limit - 1]));
      var more := Walk(tables[1..], dir, next, limit);
      forall i | 0 <= i < more.requests
        ensures KeyedAt(tables[1..][i], p)
      {
        assert KeyedAt(tables[i + 1], p);
      }
      StableArrives(tables[1..], dir, next, limit, p);
      var k :| 0 <= k < |more.out| && PosOf(more.out[k]) == p;
      assert w.out[|page| + k] == more.out[k];
    }
  }

  lemma StableKeepsItsKey(tables: seq<Table>, dir: Direction, limit: nat, p: Pos, item: Item)
    requires limit > 0 && Stable(tables, Walk(tables, dir, None, limit).requests, p)
    requires item in Walk(tables, dir, None, limit).out && item.id == p.id
    ensures PosOf(item) == p
  {
    RowsAreReal(tables, dir, None, limit, item);
    var i :| 0 <= i < Walk(tables, dir, None, limit).requests && Has(tables[i], item);
    assert KeyedAt(tables[i], p);
  }

  /** Exactly one of the rows that arrive has this id, and it has this key. */
  ghost predicate ArrivesOnce(out: seq<Item>, p: Pos) {
    exists k :: 0 <= k < |out| && PosOf(out[k]) == p && forall j :: 0 <= j < |out| && j != k ==> out[j].id != p.id
  }

  /**
   If the walk ends, every row that was there with an unchanged key all along arrives exactly once, whatever
   happened to the other rows.
   */
  lemma StableArrivesOnce(tables: seq<Table>, dir: Direction, limit: nat, p: Pos)
    requires limit > 0 && Walk(tables, dir, None, limit).ended
    requires Stable(tables, Walk(tables, dir, None, limit).requests, p)
    ensures ArrivesOnce(Walk(tables, dir, None, limit).out, p)
  {
    var w := Walk(tables, dir, None, limit);
    StableArrives(tables, dir, None, limit, p);
    WalkIsOrdered(tables, dir, None, limit);
    var k :| 0 <= k < |w.out| && PosOf(w.out[k]) == p;
    forall j | 0 <= j < |w.out| && j != k
      ensures w.out[j].id != p.id
    {
      if w.out[j].id == p.id {
        StableKeepsItsKey(tables, dir, limit, p, w.out[j]);
      }
    }
  }

  // --- A table that does not change ---------------------------------------------------------------------------

  /** The rows after a full page are the rest of the list. */
  lemma RestAfterPage(table: Table, dir: Direction, cursor: Option<Pos>, limit: nat)
    requires 0 < limit <= |Listing(dir, Rest(table, dir, cursor))|
    ensures var rest := Listing(dir, Rest(table, dir, cursor));
            rest[limit..] == Listing(dir, Rest(table, dir, Some(PosOf(rest[limit - 1]))))
  {
    var rest := Listing(dir, Rest(table, dir, cursor));
    var more := Rest(table, dir, Some(PosOf(rest[limit - 1])));
    ListingIsOrdered(dir, Rest(table, dir, cursor));
    ListingIsOrdered(dir, more);
    forall item
      ensures item in rest[limit..] <==> item in Listing(dir, more)
    {
      RestHas(table, dir, cursor, limit, item);
      ListingHas(dir, more, item);
    }
    SortedOnce(dir, rest[limit..], Listing(dir, more));
  }

  lemma RestHas(table: Table, dir: Direction, cursor: Option<Pos>, limit: nat, item: Item)
    requires 0 < limit <= |Listing(dir, Rest(table, dir, cursor))|
    ensures var rest := Listing(dir, Rest(table, dir, cursor));
            item in rest[limit..] <==> Has(Rest(table, dir, Some(PosOf(rest[limit - 1]))), item)
  {
    var rest := Listing(dir, Rest(table, dir, cursor));
    ListingHas(dir, Rest(table, dir, cursor), item);
    ListingHas(dir, Rest(table, dir, cursor), rest[limit - 1]);
    ListingIsOrdered(dir, Rest(table, dir, cursor));
    if item in rest {
      var k :| 0 <= k < |rest| && rest[k] == item;
      if k >= limit {
        assert rest[limit..][k - limit] == item;
        assert Before(dir, PosOf(rest[limit - 1]), PosOf(rest[k]));
      } else {
        assert k == limit - 1 || Before(dir, PosOf(rest[k]), PosOf(rest[limit - 1]));
        NotLater(dir, rest, limit, item);
      }
    } else {
      assert forall k :: limit <= k < |rest| ==> rest[limit..][k - limit] == rest[k];
    }
  }

  lemma NotLater(dir: Direction, rest: seq<Item>, limit: nat, item: Item)
    requires Ordered(dir, rest) && limit <= |rest| && item in rest[..limit]
    ensures item !in rest[limit..]
  {
    var k :| 0 <= k < limit && rest[k] == item;
    forall j | limit <= j < |rest|
      ensures rest[j] != item
    {
      assert Before(dir, PosOf(rest[k]), PosOf(rest[j]));
    }
  }

  ghost predicate AllAre(tables: seq<Table>, table: Table) {
    forall i :: 0 <= i < |tables| ==> tables[i] == table
  }

  /** Pages of `limit` rows it takes to see that n rows have all been fetched. */
  function Requests(n: nat, limit: nat): nat
    requires limit > 0
  {
    if n < limit then 1 else 1 + Requests(n - limit, limit)
  }

  lemma {:induction false} RequestsAre(n: nat, limit: nat)
    requires limit > 0
    ensures Requests(n, limit) == n / limit + 1
  {
    if n >= limit {
      RequestsAre(n - limit, limit);
      OneLess(n, limit);
    } else {
      Small(n, limit);
    }
  }

  /** The walk from `cursor` on a table that stays: the rest of the list. */
  ghost predicate WalksAll(tables: seq<Table>, table: Table, dir: Direction, cursor: Option<Pos>, limit: nat)
    requires limit > 0
  {
    var rest := Listing(dir, Rest(table, dir, cursor));
    Walk(tables, dir, cursor, limit) == Walked(rest, true, Requests(|rest|, limit))
  }

  lemma {:induction false} FixedWalkFrom(tables: seq<Table>, table: Table, dir: Direction, cursor: Option<Pos>,
                                         limit: nat)
    requires limit > 0 && AllAre(tables, table) && |tables| >= Requests(|Listing(dir, Rest(table, dir, cursor))|, limit)
    ensures WalksAll(tables, table, dir, cursor, limit)
    decreases |tables|
  {
    var rest := Listing(dir, Rest(table, dir, cursor));
    assert tables[0] == table;
    if |rest| >= limit {
      RestAfterPage(table, dir, cursor, limit);
      FixedWalkFrom(tables[1..], table, dir, Some(PosOf(rest[limit - 1])), limit);
      FullPageFirst(tables, table, dir, cursor, limit);
    }
  }

  lemma FullPageFirst(tables: seq<Table>, table: Table, dir: Direction, cursor: Option<Pos>, limit: nat)
    requires tables != [] && tables[0] == table && 0 < limit <= |Listing(dir, Rest(table, dir, cursor))|
    requires var rest := Listing(dir, Rest(table, dir, cursor));
             WalksAll(tables[1..], table, dir, Some(PosOf(rest[limit - 1])), limit)
    ensures WalksAll(tables, table, dir, cursor, limit)
  {
    var rest := Listing(dir, Rest(table, dir, cursor));
    RestAfterPage(table, dir, cursor, limit);
    assert rest == rest[..limit] + rest[limit..];
  }

  lemma OneLess(n: nat, limit: nat)
    requires 0 < limit <= n
    ensures (n - limit) / limit == n / limit - 1
  {
    var d := (n - limit) / limit - (n / limit - 1);
    assert d * limit == n % limit - (n - limit) % limit;
    Multiples(d, limit);
  }

  lemma Multiples(d: int, limit: int)
    requires limit > 0
    ensures d >= 1 ==> d * limit >= limit
    ensures d <= -1 ==> d * limit <= -limit
  {
  }

  lemma Small(n: nat, limit: nat)
    requires n < limit
    ensures n / limit == 0
  {
  }

  /**
   On a table of n rows that does not change, the walk ends after exactly n / limit + 1 requests and its pages
   in a row are the plain sorted list.
   */
  lemma FixedWalk(tables: seq<Table>, table: Table, dir: Direction, limit: nat)
    requires limit > 0 && AllAre(tables, table) && |tables| > |table.Keys| / limit
    ensures Walk(tables, dir, None, limit) == Walked(Listing(dir, table), true, |table.Keys| / limit + 1)
  {
    assert Rest(table, dir, None) == table;
    RequestsAre(|table.Keys|, limit);
    FixedWalkFrom(tables, table, dir, None, limit);
  }
}
