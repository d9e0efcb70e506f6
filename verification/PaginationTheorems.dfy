/** Every page is the right one, and following cursors visits every row once. */
module PaginationTheorems {
  import opened Common
  import opened Cursors
  import opened Pagination
  import Repository

  function Capped(limit: Option<i32>): (r: int)
    requires limit.Some? ==> limit.value >= 0
    ensures 0 <= r <= DEFAULT_PAGINATION_LIMIT
  {
    if limit.Some? && limit.value < DEFAULT_PAGINATION_LIMIT then limit.value else DEFAULT_PAGINATION_LIMIT
  }

  function Min(a: int, b: int): int {
    if a <= b then a else b
  }

  /** Either no cursor, or one that stands for a row. */
  predicate PointsAtRow(codec: Codec, cursor: Option<string>, total: int) {
    cursor.Some? ==> codec.decode(cursor.value).Ok? && 0 <= codec.decode(cursor.value).value < total
  }

  /** The row that a cursor stands for, or `default` without a cursor. */
  function Row(codec: Codec, cursor: Option<string>, total: int, default: int): int
    requires PointsAtRow(codec, cursor, total)
  {
    if cursor.Some? then codec.decode(cursor.value).value else default
  }

  predicate NotNegative(limit: Option<i32>) {
    limit.Some? ==> limit.value >= 0
  }

  predicate Mixed(first: Option<i32>, last: Option<i32>, after: Option<string>, before: Option<string>) {
    (first.Some? || after.Some?) && (last.Some? || before.Some?)
  }

  // ------------------------------------------------------------------ the arithmetic

  lemma {:induction false} NoWrap(n: int)
    requires I32_MIN <= n <= I32_MAX
    ensures Repository.ToI32(n) == n
  {
  }

  lemma {:induction false} WrapsBelow(n: int)
    requires I32_MAX < n <= I32_MAX + DEFAULT_PAGINATION_LIMIT
    ensures Repository.ToI32(n) < 0
  {
  }

  /** The page of a forward query, whether or not the addition wraps around. */
  lemma {:induction false} ForwardPage(codec: Codec, first: Option<i32>, after: Option<string>, total: i32)
    requires 0 <= total && PointsAtRow(codec, after, total) && NotNegative(first)
    ensures var start, limit := Row(codec, after, total, -1) + 1, Capped(first);
            Forward(codec, first, after, total)
            == Ok(Page(total, start, if start + limit > I32_MAX then limit else Min(limit, total - start)))
  {
    var start, limit := Row(codec, after, total, -1) + 1, Capped(first);
    NoWrap(start);
    NoWrap(total - start);
    if start + limit > I32_MAX {
      WrapsBelow(start + limit);
    } else {
      NoWrap(start + limit);
    }
  }

  lemma {:induction false} BackwardPage(codec: Codec, last: Option<i32>, before: Option<string>, total: i32)
    requires 0 <= total && PointsAtRow(codec, before, total) && NotNegative(last)
    ensures var end, limit := Row(codec, before, total, total), Min(Capped(last), Row(codec, before, total, total));
            Backward(codec, last, before, total) == Ok(Page(total, end - limit, limit))
  {
    NoWrap(Row(codec, before, total, total) - Min(Capped(last), Row(codec, before, total, total)));
  }

  /** A query succeeds if and only if its arguments make sense. */
  lemma {:induction false} SucceedsIff(
      codec: Codec, first: Option<i32>, last: Option<i32>, after: Option<string>, before: Option<string>, total: i32)
    ensures NewPage(codec, first, last, after, before, total).Ok? <==>
            && !Mixed(first, last, after, before)
            && PointsAtRow(codec, after, total) && PointsAtRow(codec, before, total)
            && NotNegative(first) && NotNegative(last)
  {
  }

  /** What is wrong with a cursor that does not stand for a row. */
  function CursorRefusal(codec: Codec, arg: Arg, cursor: string): Error {
    match codec.decode(cursor)
    case Err(cause) => BadCursor(cause)
    case Ok(_) => PaginationCursor(arg)
  }

  /**
   A query that is refused names the argument: mixed arguments first, then the
   cursor of its direction, then the limit.
   */
  lemma {:induction false} RefusalNamesArgument(
      codec: Codec, first: Option<i32>, last: Option<i32>, after: Option<string>, before: Option<string>, total: i32)
    requires NewPage(codec, first, last, after, before, total).Err?
    ensures var e := NewPage(codec, first, last, after, before, total).error;
            if Mixed(first, last, after, before) then e == MixedPagination
            else if !PointsAtRow(codec, before, total) then e == CursorRefusal(codec, BeforeArg, before.value)
            else if !PointsAtRow(codec, after, total) then e == CursorRefusal(codec, AfterArg, after.value)
            else if !NotNegative(last) then e == PaginationLimit(LastArg)
            else !NotNegative(first) && e == PaginationLimit(FirstArg)
  {
  }

  /**
   The page stays within the table, unless the end of a forward page does not fit
   32 bits: then, and only then, its limit reaches beyond the last row.
   */
  lemma {:induction false} PageIsInTable(
      codec: Codec, first: Option<i32>, last: Option<i32>, after: Option<string>, before: Option<string>, total: i32)
    requires 0 <= total && NewPage(codec, first, last, after, before, total).Ok?
    ensures PointsAtRow(codec, after, total) && NotNegative(first)
    ensures var page := NewPage(codec, first, last, after, before, total).value;
            && page.totalCount == total && 0 <= page.offset <= total && 0 <= page.limit
            && (page.offset + page.limit <= total <==>
                  last.Some? || before.Some? || Row(codec, after, total, -1) + 1 + Capped(first) <= I32_MAX)
            && (total <= I32_MAX - DEFAULT_PAGINATION_LIMIT ==> page.offset + page.limit <= total)
  {
    SucceedsIff(codec, first, last, after, before, total);
    if last.Some? || before.Some? {
      BackwardPage(codec, last, before, total);
    } else {
      ForwardPage(codec, first, after, total);
    }
  }

  /** The last row of the largest table is such a case. */
  lemma {:induction false} PageCanLeaveTable(codec: Codec)
    requires Faithful(codec)
    ensures NewPage(codec, None, None, Some(codec.encode(I32_MAX - 1)), None, I32_MAX) == Ok(Page(I32_MAX, I32_MAX, 1000))
  {
    ForwardPage(codec, None, Some(codec.encode(I32_MAX - 1)), I32_MAX);
  }

  // ------------------------------------------------------------------ refinement

  lemma {:induction false} LoadedEdges<T>(rows: seq<T>, page: Page)
    requires |rows| <= I32_MAX && 0 <= page.offset <= |rows| && 0 <= page.limit
    ensures EdgesFrom(page.offset, Load(rows, page))
            == AllEdges(rows)[page.offset..Min(page.offset + page.limit, |rows|)]
  {
    var nodes := Load(rows, page);
    var edges, all := EdgesFrom(page.offset, nodes), AllEdges(rows)[page.offset..Min(page.offset + page.limit, |rows|)];
    assert |edges| == |all|;
    forall i | 0 <= i < |edges| ensures edges[i] == all[i] {
      NoWrap(page.offset + i);
    }
  }

  /** The connection of the rows from `start` to `end`. */
  function PageOf<T>(rows: seq<T>, start: nat, end: nat): Connection<T>
    requires start <= end <= |rows|
  {
    var edges := AllEdges(rows)[start..end];
    Connection(|rows|, edges, InfoOf(|rows|, edges))
  }

  /** What a query answers for the page it asks for. */
  lemma {:induction false} QueryOfPage<T>(
      codec: Codec, rows: seq<T>, first: Option<i32>, last: Option<i32>, after: Option<string>, before: Option<string>,
      page: Page)
    requires |rows| <= I32_MAX && NewPage(codec, first, last, after, before, |rows|) == Ok(page)
    requires page.totalCount == |rows| && 0 <= page.offset <= |rows| && 0 <= page.limit
    ensures Query(codec, rows, first, last, after, before)
            == Ok(PageOf(rows, page.offset, Min(page.offset + page.limit, |rows|)))
  {
    NoWrap(|rows|);
    LoadedEdges(rows, page);
  }

  /** The edges of a forward query, for every table that can be counted. */
  lemma {:induction false} ForwardEdges<T>(codec: Codec, rows: seq<T>, first: Option<i32>, after: Option<string>)
    requires |rows| <= I32_MAX && PointsAtRow(codec, after, |rows|) && NotNegative(first)
    ensures var start := Row(codec, after, |rows|, -1) + 1;
            Query(codec, rows, first, None, after, None) == Ok(PageOf(rows, start, Min(start + Capped(first), |rows|)))
  {
    var start, limit := Row(codec, after, |rows|, -1) + 1, Capped(first);
    var page := Page(|rows|, start, if start + limit > I32_MAX then limit else Min(limit, |rows| - start));
    ForwardPage(codec, first, after, |rows|);
    assert Min(page.offset + page.limit, |rows|) == Min(start + limit, |rows|);
    QueryOfPage(codec, rows, first, None, after, None, page);
  }

  lemma {:induction false} BackwardEdges<T>(codec: Codec, rows: seq<T>, last: Option<i32>, before: Option<string>)
    requires |rows| <= I32_MAX && PointsAtRow(codec, before, |rows|) && NotNegative(last)
    requires last.Some? || before.Some?
    ensures var end := Row(codec, before, |rows|, |rows|);
            Query(codec, rows, None, last, None, before) == Ok(PageOf(rows, end - Min(Capped(last), end), end))
  {
    BackwardPage(codec, last, before, |rows|);
    QueryOfPage(codec, rows, None, last, None, before, Backward(codec, last, before, |rows|).value);
  }

  lemma {:induction false} StartOfRest<T>(all: seq<T>, start: nat, limit: nat)
    requires start <= |all|
    ensures var rest := all[start..];
            (if |rest| > limit then rest[..limit] else rest) == all[start..Min(start + limit, |all|)]
  {
    if |all| - start > limit {
      assert all[start..][..limit] == all[start..start + limit];
    }
  }

  lemma {:induction false} EndOfBeginning<T>(all: seq<T>, end: nat, limit: nat)
    requires end <= |all|
    ensures var some := all[..end];
            (if |some| > limit then some[|some| - limit..] else some) == all[end - Min(limit, end)..end]
  {
    if end > limit {
      assert all[..end][end - limit..] == all[end - limit..end];
    }
  }

  lemma {:induction false} ForwardIsRelay<T>(rows: seq<T>, after: Option<int>, limit: nat)
    requires after.Some? ==> 0 <= after.value < |rows|
    ensures var start := if after.Some? then after.value + 1 else 0;
            EdgesToReturn(AllEdges(rows), None, after, Some(limit), None)
            == AllEdges(rows)[start..Min(start + limit, |rows|)]
  {
    var all, start := AllEdges(rows), if after.Some? then after.value + 1 else 0;
    if after.Some? {
      AfterIsDrop(all, 0, after.value);
    } else {
      assert all[0..] == all;
    }
    assert ApplyCursorsToEdges(all, None, after) == all[start..];
    StartOfRest(all, start, limit);
  }

  lemma {:induction false} BackwardIsRelay<T>(rows: seq<T>, before: Option<int>, limit: nat)
    requires before.Some? ==> 0 <= before.value < |rows|
    ensures var end := if before.Some? then before.value else |rows|;
            EdgesToReturn(AllEdges(rows), before, None, None, Some(limit)) == AllEdges(rows)[end - Min(limit, end)..end]
  {
    var all, end := AllEdges(rows), if before.Some? then before.value else |rows|;
    if before.Some? {
      BeforeIsTake(all, before.value);
    } else {
      assert all[..|all|] == all;
    }
    assert ApplyCursorsToEdges(all, before, None) == all[..end];
    EndOfBeginning(all, end, limit);
  }

  function Offset(codec: Codec, cursor: Option<string>, total: int): Option<int>
    requires PointsAtRow(codec, cursor, total)
  {
    if cursor.Some? then Some(Row(codec, cursor, total, 0)) else None
  }

  lemma {:induction false} ForwardRefines<T>(codec: Codec, rows: seq<T>, first: Option<i32>, after: Option<string>)
    requires |rows| <= I32_MAX && PointsAtRow(codec, after, |rows|) && NotNegative(first)
    ensures Query(codec, rows, first, None, after, None).Ok?
    ensures Query(codec, rows, first, None, after, None).value.edges
            == EdgesToReturn(AllEdges(rows), None, Offset(codec, after, |rows|), Some(Capped(first)), None)
  {
    ForwardEdges(codec, rows, first, after);
    ForwardIsRelay(rows, Offset(codec, after, |rows|), Capped(first));
  }

  /** A page that ends at the cursor is the one of the specification. */
  lemma {:induction false} PageIsRelay<T>(
      r: Result<Connection<T>, Error>, codec: Codec, rows: seq<T>, before: Option<string>, limit: nat)
    requires PointsAtRow(codec, before, |rows|)
    requires var end := Row(codec, before, |rows|, |rows|); r == Ok(PageOf(rows, end - Min(limit, end), end))
    ensures r.value.edges == EdgesToReturn(AllEdges(rows), Offset(codec, before, |rows|), None, None, Some(limit))
  {
    BackwardIsRelay(rows, Offset(codec, before, |rows|), limit);
  }

  lemma {:induction false} BackwardRefines<T>(codec: Codec, rows: seq<T>, last: Option<i32>, before: Option<string>)
    requires |rows| <= I32_MAX && PointsAtRow(codec, before, |rows|) && NotNegative(last)
    requires last.Some? || before.Some?
    ensures Query(codec, rows, None, last, None, before).Ok?
    ensures Query(codec, rows, None, last, None, before).value.edges
            == EdgesToReturn(AllEdges(rows), Offset(codec, before, |rows|), None, None, Some(Capped(last)))
  {
    BackwardEdges(codec, rows, last, before);
    PageIsRelay(Query(codec, rows, None, last, None, before), codec, rows, before, Capped(last));
  }

  /**
   `hasNextPage` tells whether rows follow the page. It is what the specification
   asks of a forward query if and only if the page was not asked to be empty while rows follow the cursor.
   */
  lemma {:induction false} HasNextPageIsTrue<T>(codec: Codec, rows: seq<T>, first: Option<i32>, after: Option<string>)
    requires |rows| <= I32_MAX && PointsAtRow(codec, after, |rows|) && NotNegative(first)
    ensures Query(codec, rows, first, None, after, None).Ok?
    ensures var start := Row(codec, after, |rows|, -1) + 1;
            var specified := |rows| - start > Capped(first);
            Query(codec, rows, first, None, after, None).value.pageInfo.hasNextPage == specified <==>
            !(Capped(first) == 0 && start < |rows|)
  {
    ForwardEdges(codec, rows, first, after);
  }

  /** And likewise backward. */
  lemma {:induction false} HasPreviousPageIsTrue<T>(
      codec: Codec, rows: seq<T>, last: Option<i32>, before: Option<string>)
    requires |rows| <= I32_MAX && PointsAtRow(codec, before, |rows|) && NotNegative(last)
    requires last.Some? || before.Some?
    ensures Query(codec, rows, None, last, None, before).Ok?
    ensures var end := Row(codec, before, |rows|, |rows|);
            var specified := end > Capped(last);
            Query(codec, rows, None, last, None, before).value.pageInfo.hasPreviousPage == specified <==>
            !(Capped(last) == 0 && end > 0)
  {
    BackwardEdges(codec, rows, last, before);
  }

  /** A page asked to be empty hides the rows that follow, and those before. */
  lemma {:induction false} EmptyPageHidesRows<T>(codec: Codec, row: T)
    ensures var r := Query(codec, [row], Some(0), None, None, None);
            r.Ok? && r.value.edges == [] && !r.value.pageInfo.hasNextPage
    ensures var r := Query(codec, [row], None, Some(0), None, None);
            r.Ok? && r.value.edges == [] && !r.value.pageInfo.hasPreviousPage
  {
    ForwardEdges(codec, [row], Some(0), None);
    BackwardEdges(codec, [row], Some(0), None);
  }

  // ------------------------------------------------------------------ walks

  /** How many pages of size `size` hold `n` rows; an empty table still has one page. */
  function Pages(n: nat, size: nat): (r: nat)
    requires size > 0
    ensures r >= 1
  {
    if n <= size then 1 else 1 + Pages(n - size, size)
  }

  /** That is the number of rows divided by the size, rounded up, and at least 1. */
  lemma {:induction false} PagesIsCeiling(n: nat, size: nat)
    requires size > 0
    ensures n <= Pages(n, size) * size
    ensures n > 0 ==> (Pages(n, size) - 1) * size < n
    ensures n == 0 ==> Pages(n, size) == 1
  {
    if n > size {
      PagesIsCeiling(n - size, size);
    }
  }

  function Nodes<T>(edges: seq<Edge<T>>): seq<T> {
    seq(|edges|, i requires 0 <= i < |edges| => edges[i].node)
  }

  /** The answer is the page of the rows from `start` to `end`. */
  ghost predicate Shows<T>(r: Result<Connection<T>, Error>, rows: seq<T>, start: int, end: int)
    requires 0 <= start <= end <= |rows|
  {
    && r.Ok?
    && Nodes(r.value.edges) == rows[start..end]
    && r.value.pageInfo.startCursor == (if start < end then Some(start) else None)
    && r.value.pageInfo.endCursor == (if start < end then Some(end - 1) else None)
    && r.value.pageInfo.hasNextPage == (start < end < |rows|)
    && r.value.pageInfo.hasPreviousPage == (0 < start < end)
  }

  lemma {:induction false} PageShows<T>(r: Result<Connection<T>, Error>, rows: seq<T>, start: nat, end: nat)
    requires start <= end <= |rows| && r == Ok(PageOf(rows, start, end))
    ensures Shows(r, rows, start, end)
  {
    NodesOfPage(rows, start, end);
    InfoOfPage(rows, start, end);
  }

  lemma {:induction false} NodesOfPage<T>(rows: seq<T>, start: nat, end: nat)
    requires start <= end <= |rows|
    ensures Nodes(AllEdges(rows)[start..end]) == rows[start..end]
  {
    var nodes := Nodes(AllEdges(rows)[start..end]);
    forall i | 0 <= i < end - start ensures nodes[i] == rows[start..end][i] {
      assert AllEdges(rows)[start..end][i] == AllEdges(rows)[start + i];
    }
  }

  lemma {:induction false} InfoOfPage<T>(rows: seq<T>, start: nat, end: nat)
    requires start <= end <= |rows|
    ensures InfoOf(|rows|, AllEdges(rows)[start..end])
            == if start == end then PageInfo(None, None, false, false)
               else PageInfo(Some(start), Some(end - 1), end < |rows|, start > 0)
  {
    var edges := AllEdges(rows)[start..end];
    if start < end {
      assert edges[0] == AllEdges(rows)[start] && edges[end - start - 1] == AllEdges(rows)[end - 1];
    }
  }

  type Ask<!T> = Option<string> -> Result<Connection<T>, Error>

  /** The requests of a client that goes forward, `first` rows at a time. */
  function ForwardQuery<T>(codec: Codec, rows: seq<T>, first: i32): Ask<T> {
    after => Query(codec, rows, Some(first), None, after, None)
  }

  function BackwardQuery<T>(codec: Codec, rows: seq<T>, last: i32): Ask<T> {
    before => Query(codec, rows, None, Some(last), None, before)
  }

  /** Where a forward page starts. */
  function Start(codec: Codec, after: Option<string>, total: nat): (r: nat)
    requires PointsAtRow(codec, after, total)
    ensures r <= total
  {
    Row(codec, after, total, -1) + 1
  }

  /** Where a backward page ends. */
  function End(codec: Codec, before: Option<string>, total: nat): (r: nat)
    requires PointsAtRow(codec, before, total)
    ensures r <= total
  {
    Row(codec, before, total, total)
  }

  ghost predicate ServesForward<T(!new)>(ask: Ask<T>, codec: Codec, rows: seq<T>, size: nat) {
    forall after {:trigger ask(after)} | PointsAtRow(codec, after, |rows|) ::
      var start := Start(codec, after, |rows|);
      Shows(ask(after), rows, start, Min(start + size, |rows|))
  }

  ghost predicate ServesBackward<T(!new)>(ask: Ask<T>, codec: Codec, rows: seq<T>, size: nat) {
    forall before {:trigger ask(before)} | PointsAtRow(codec, before, |rows|) ::
      var end := End(codec, before, |rows|);
      Shows(ask(before), rows, end - Min(size, end), end)
  }

  lemma {:induction false} ForwardShows<T>(codec: Codec, rows: seq<T>, first: i32, after: Option<string>)
    requires |rows| <= I32_MAX && first >= 0 && PointsAtRow(codec, after, |rows|)
    ensures var start := Start(codec, after, |rows|);
            Shows(Query(codec, rows, Some(first), None, after, None),
                  rows, start, Min(start + Capped(Some(first)), |rows|))
  {
    var start := Start(codec, after, |rows|);
    ForwardEdges(codec, rows, Some(first), after);
    assert start == Row(codec, after, |rows|, -1) + 1;
    PageShows(Query(codec, rows, Some(first), None, after, None),
              rows, start, Min(start + Capped(Some(first)), |rows|));
  }

  lemma {:induction false} BackwardShows<T>(codec: Codec, rows: seq<T>, last: i32, before: Option<string>)
    requires |rows| <= I32_MAX && last >= 0 && PointsAtRow(codec, before, |rows|)
    ensures var end := End(codec, before, |rows|);
            Shows(Query(codec, rows, None, Some(last), None, before),
                  rows, end - Min(Capped(Some(last)), end), end)
  {
    var end := End(codec, before, |rows|);
    BackwardEdges(codec, rows, Some(last), before);
    PageShows(Query(codec, rows, None, Some(last), None, before),
              rows, end - Min(Capped(Some(last)), end), end);
  }

  lemma {:induction false} ForwardQueryServes<T(!new)>(codec: Codec, rows: seq<T>, first: i32)
    requires |rows| <= I32_MAX && first >= 0
    ensures ServesForward(ForwardQuery(codec, rows, first), codec, rows, Capped(Some(first)))
  {
    forall after | PointsAtRow(codec, after, |rows|)
      ensures var start := Start(codec, after, |rows|);
              Shows(Query(codec, rows, Some(first), None, after, None),
                    rows, start, Min(start + Capped(Some(first)), |rows|))
    {
      ForwardShows(codec, rows, first, after);
    }
  }

  lemma {:induction false} BackwardQueryServes<T(!new)>(codec: Codec, rows: seq<T>, last: i32)
    requires |rows| <= I32_MAX && last >= 0
    ensures ServesBackward(BackwardQuery(codec, rows, last), codec, rows, Capped(Some(last)))
  {
    forall before | PointsAtRow(codec, before, |rows|)
      ensures var end := End(codec, before, |rows|);
              Shows(Query(codec, rows, None, Some(last), None, before),
                    rows, end - Min(Capped(Some(last)), end), end)
    {
      BackwardShows(codec, rows, last, before);
    }
  }

  /** The client follows `endCursor` until `hasNextPage` is false, and gets these pages. */
  ghost predicate ForwardWalk<T>(codec: Codec, ask: Ask<T>, after: Option<string>, pages: seq<Connection<T>>)
    decreases |pages|
  {
    && pages != []
    && ask(after) == Ok(pages[0])
    && (if |pages| == 1 then !pages[0].pageInfo.hasNextPage
        else
          && pages[0].pageInfo.hasNextPage && pages[0].pageInfo.endCursor.Some?
          && ForwardWalk(codec, ask, Some(codec.encode(pages[0].pageInfo.endCursor.value)), pages[1..]))
  }

  /** The client follows `startCursor` until `hasPreviousPage` is false; the pages are in the order of the rows. */
  ghost predicate BackwardWalk<T>(codec: Codec, ask: Ask<T>, before: Option<string>, pages: seq<Connection<T>>)
    decreases |pages|
  {
    && pages != []
    && ask(before) == Ok(Last(pages))
    && (if |pages| == 1 then !pages[0].pageInfo.hasPreviousPage
        else
          && Last(pages).pageInfo.hasPreviousPage && Last(pages).pageInfo.startCursor.Some?
          && BackwardWalk(codec, ask, Some(codec.encode(Last(pages).pageInfo.startCursor.value)), Front(pages)))
  }

  /** All the nodes of the pages. */
  function Visited<T>(pages: seq<Connection<T>>): seq<T> {
    if pages == [] then [] else Visited(Front(pages)) + Nodes(Last(pages).edges)
  }

  lemma {:induction false} VisitedFirst<T>(page: Connection<T>, pages: seq<Connection<T>>)
    ensures Visited([page] + pages) == Nodes(page.edges) + Visited(pages)
  {
    var all := [page] + pages;
    if pages == [] {
      assert Front(all) == [] && all == [page];
      assert [] + Nodes(page.edges) == Nodes(page.edges) + [];
    } else {
      VisitedFirst(page, Front(pages));
      assert Front(all) == [page] + Front(pages);
      Regroup(Nodes(page.edges), Visited(Front(pages)), Nodes(Last(pages).edges));
    }
  }

  lemma {:induction false} VisitedRest<T>(pages: seq<Connection<T>>)
    requires pages != []
    ensures Visited(pages) == Nodes(pages[0].edges) + Visited(pages[1..])
  {
    VisitedFirst(pages[0], pages[1..]);
    assert pages == [pages[0]] + pages[1..];
  }

  lemma {:induction false} JoinRows<T>(rows: seq<T>, start: nat, end: nat)
    requires start <= end <= |rows|
    ensures rows[start..end] + rows[end..] == rows[start..]
    ensures end == |rows| ==> rows[end..] == []
  {
  }

  /** The first page of a walk, and where the rest of it begins. */
  lemma {:induction false} FirstPage<T(!new)>(
      codec: Codec, ask: Ask<T>, rows: seq<T>, size: nat, after: Option<string>, pages: seq<Connection<T>>)
    requires Faithful(codec) && |rows| <= I32_MAX && size > 0 && PointsAtRow(codec, after, |rows|)
    requires ServesForward(ask, codec, rows, size) && ForwardWalk(codec, ask, after, pages)
    ensures var start := Start(codec, after, |rows|);
            var end := Min(start + size, |rows|);
            && Nodes(pages[0].edges) == rows[start..end]
            && if end == |rows| then pages[1..] == []
               else
                 var next := Some(codec.encode(end - 1));
                 && PointsAtRow(codec, next, |rows|) && Start(codec, next, |rows|) == end
                 && ForwardWalk(codec, ask, next, pages[1..])
  {
  }

  /** The pages hold the rows from `start` on, `size` at a time. */
  ghost predicate Tiles<T>(pages: seq<Connection<T>>, rows: seq<T>, start: nat, size: nat)
    requires start <= |rows| && size > 0
    decreases |rows| - start
  {
    var end := Min(start + size, |rows|);
    && pages != []
    && Nodes(pages[0].edges) == rows[start..end]
    && if end == |rows| then pages[1..] == [] else Tiles(pages[1..], rows, end, size)
  }

  lemma {:induction false} TilesVisit<T>(pages: seq<Connection<T>>, rows: seq<T>, start: nat, size: nat)
    requires start <= |rows| && size > 0 && Tiles(pages, rows, start, size)
    ensures Visited(pages) == rows[start..] && |pages| == Pages(|rows| - start, size)
    decreases |rows| - start
  {
    var end := Min(start + size, |rows|);
    VisitedRest(pages);
    JoinRows(rows, start, end);
    if end < |rows| {
      TilesVisit(pages[1..], rows, end, size);
    }
  }

  lemma {:induction false} WalkTiles<T(!new)>(
      codec: Codec, ask: Ask<T>, rows: seq<T>, size: nat, after: Option<string>, pages: seq<Connection<T>>)
    requires Faithful(codec) && |rows| <= I32_MAX && size > 0 && PointsAtRow(codec, after, |rows|)
    requires ServesForward(ask, codec, rows, size) && ForwardWalk(codec, ask, after, pages)
    ensures Tiles(pages, rows, Start(codec, after, |rows|), size)
    decreases |pages|
  {
    var end := Min(Start(codec, after, |rows|) + size, |rows|);
    FirstPage(codec, ask, rows, size, after, pages);
    if end < |rows| {
      var next := Some(codec.encode(end - 1));
      assert Start(codec, next, |rows|) == end;
      WalkTiles(codec, ask, rows, size, next, pages[1..]);
    }
  }

  /** Every forward walk visits every row after the cursor once, in order, in as many pages as it takes. */
  lemma {:induction false} ForwardWalkVisits<T(!new)>(
      codec: Codec, ask: Ask<T>, rows: seq<T>, size: nat, after: Option<string>, pages: seq<Connection<T>>)
    requires Faithful(codec) && |rows| <= I32_MAX && size > 0 && PointsAtRow(codec, after, |rows|)
    requires ServesForward(ask, codec, rows, size) && ForwardWalk(codec, ask, after, pages)
    ensures Visited(pages) == rows[Start(codec, after, |rows|)..]
    ensures |pages| == Pages(|rows| - Start(codec, after, |rows|), size)
  {
    WalkTiles(codec, ask, rows, size, after, pages);
    TilesVisit(pages, rows, Start(codec, after, |rows|), size);
  }

  lemma {:induction false} ForwardWalkEnds<T(!new)>(
      codec: Codec, ask: Ask<T>, rows: seq<T>, size: nat, after: Option<string>)
    returns (pages: seq<Connection<T>>)
    requires Faithful(codec) && |rows| <= I32_MAX && size > 0 && PointsAtRow(codec, after, |rows|)
    requires ServesForward(ask, codec, rows, size)
    ensures ForwardWalk(codec, ask, after, pages)
    decreases |rows| - Start(codec, after, |rows|)
  {
    var end := Min(Start(codec, after, |rows|) + size, |rows|);
    pages := [ask(after).value];
    if end < |rows| {
      var rest := ForwardWalkEnds(codec, ask, rows, size, Some(codec.encode(end - 1)));
      pages := pages + rest;
      assert pages[1..] == rest;
    }
  }

  /**
   On a stable table a forward walk ends, and the pages of every forward walk are,
   one after the other, the rows after the cursor; there are as many as it takes.
   */
  lemma {:induction false} ForwardWalkIsComplete<T(!new)>(codec: Codec, rows: seq<T>, first: i32, after: Option<string>)
    requires Faithful(codec) && |rows| <= I32_MAX && first >= 1 && PointsAtRow(codec, after, |rows|)
    ensures exists pages :: ForwardWalk(codec, ForwardQuery(codec, rows, first), after, pages)
    ensures forall pages | ForwardWalk(codec, ForwardQuery(codec, rows, first), after, pages) ::
              && Visited(pages) == rows[Start(codec, after, |rows|)..]
              && |pages| == Pages(|rows| - Start(codec, after, |rows|), Capped(Some(first)))
  {
    var ask := ForwardQuery(codec, rows, first);
    ForwardQueryServes(codec, rows, first);
    var one := ForwardWalkEnds(codec, ask, rows, Capped(Some(first)), after);
    forall pages | ForwardWalk(codec, ask, after, pages)
      ensures Visited(pages) == rows[Start(codec, after, |rows|)..]
      ensures |pages| == Pages(|rows| - Start(codec, after, |rows|), Capped(Some(first)))
    {
      ForwardWalkVisits(codec, ask, rows, Capped(Some(first)), after, pages);
    }
  }

  /** The last page of a backward walk, and where the rest of it ends. */
  lemma {:induction false} LastPage<T(!new)>(
      codec: Codec, ask: Ask<T>, rows: seq<T>, size: nat, before: Option<string>, pages: seq<Connection<T>>)
    requires Faithful(codec) && |rows| <= I32_MAX && size > 0 && PointsAtRow(codec, before, |rows|)
    requires ServesBackward(ask, codec, rows, size) && BackwardWalk(codec, ask, before, pages)
    ensures var end := End(codec, before, |rows|);
            var start := end - Min(size, end);
            && Nodes(Last(pages).edges) == rows[start..end]
            && if start == 0 then Front(pages) == []
               else
                 var next := Some(codec.encode(start));
                 && PointsAtRow(codec, next, |rows|) && End(codec, next, |rows|) == start
                 && BackwardWalk(codec, ask, next, Front(pages))
  {
  }

  /** The pages hold the rows up to `end`, `size` at a time from the end. */
  ghost predicate TilesBack<T>(pages: seq<Connection<T>>, rows: seq<T>, end: nat, size: nat)
    requires end <= |rows| && size > 0
    decreases end
  {
    var start := end - Min(size, end);
    && pages != []
    && Nodes(Last(pages).edges) == rows[start..end]
    && if start == 0 then Front(pages) == [] else TilesBack(Front(pages), rows, start, size)
  }

  lemma {:induction false} TilesBackVisit<T>(pages: seq<Connection<T>>, rows: seq<T>, end: nat, size: nat)
    requires end <= |rows| && size > 0 && TilesBack(pages, rows, end, size)
    ensures Visited(pages) == rows[..end] && |pages| == Pages(end, size)
    decreases end
  {
    var start := end - Min(size, end);
    assert rows[..start] + rows[start..end] == rows[..end];
    if start > 0 {
      TilesBackVisit(Front(pages), rows, start, size);
    } else {
      assert rows[..start] == [];
    }
  }

  lemma {:induction false} WalkTilesBack<T(!new)>(
      codec: Codec, ask: Ask<T>, rows: seq<T>, size: nat, before: Option<string>, pages: seq<Connection<T>>)
    requires Faithful(codec) && |rows| <= I32_MAX && size > 0 && PointsAtRow(codec, before, |rows|)
    requires ServesBackward(ask, codec, rows, size) && BackwardWalk(codec, ask, before, pages)
    ensures TilesBack(pages, rows, End(codec, before, |rows|), size)
    decreases |pages|
  {
    var end := End(codec, before, |rows|);
    var start := end - Min(size, end);
    LastPage(codec, ask, rows, size, before, pages);
    if start > 0 {
      var next := Some(codec.encode(start));
      assert End(codec, next, |rows|) == start;
      WalkTilesBack(codec, ask, rows, size, next, Front(pages));
    }
  }

  lemma {:induction false} BackwardWalkVisits<T(!new)>(
      codec: Codec, ask: Ask<T>, rows: seq<T>, size: nat, before: Option<string>, pages: seq<Connection<T>>)
    requires Faithful(codec) && |rows| <= I32_MAX && size > 0 && PointsAtRow(codec, before, |rows|)
    requires ServesBackward(ask, codec, rows, size) && BackwardWalk(codec, ask, before, pages)
    ensures Visited(pages) == rows[..End(codec, before, |rows|)]
    ensures |pages| == Pages(End(codec, before, |rows|), size)
  {
    WalkTilesBack(codec, ask, rows, size, before, pages);
    TilesBackVisit(pages, rows, End(codec, before, |rows|), size);
  }

  lemma {:induction false} BackwardWalkEnds<T(!new)>(
      codec: Codec, ask: Ask<T>, rows: seq<T>, size: nat, before: Option<string>)
    returns (pages: seq<Connection<T>>)
    requires Faithful(codec) && |rows| <= I32_MAX && size > 0 && PointsAtRow(codec, before, |rows|)
    requires ServesBackward(ask, codec, rows, size)
    ensures BackwardWalk(codec, ask, before, pages)
    decreases End(codec, before, |rows|)
  {
    var end := End(codec, before, |rows|);
    var start := end - Min(size, end);
    pages := [ask(before).value];
    if start > 0 {
      var rest := BackwardWalkEnds(codec, ask, rows, size, Some(codec.encode(start)));
      pages := rest + pages;
      assert Front(pages) == rest;
    }
  }

  /** A backward walk ends too, and yields the same list. */
  lemma {:induction false} BackwardWalkIsComplete<T(!new)>(codec: Codec, rows: seq<T>, last: i32, before: Option<string>)
    requires Faithful(codec) && |rows| <= I32_MAX && last >= 1 && PointsAtRow(codec, before, |rows|)
    ensures exists pages :: BackwardWalk(codec, BackwardQuery(codec, rows, last), before, pages)
    ensures forall pages | BackwardWalk(codec, BackwardQuery(codec, rows, last), before, pages) ::
              && Visited(pages) == rows[..End(codec, before, |rows|)]
              && |pages| == Pages(End(codec, before, |rows|), Capped(Some(last)))
  {
    var ask := BackwardQuery(codec, rows, last);
    BackwardQueryServes(codec, rows, last);
    var one := BackwardWalkEnds(codec, ask, rows, Capped(Some(last)), before);
    forall pages | BackwardWalk(codec, ask, before, pages)
      ensures Visited(pages) == rows[..End(codec, before, |rows|)]
      ensures |pages| == Pages(End(codec, before, |rows|), Capped(Some(last)))
    {
      BackwardWalkVisits(codec, ask, rows, Capped(Some(last)), before, pages);
    }
  }

  /** Walks through the whole table, from either end, end and visit every row once, in as many pages as it takes. */
  ghost predicate WalksAreComplete<T(!new)>(codec: Codec, rows: seq<T>, size: i32)
    requires size >= 1
  {
    && (exists pages :: ForwardWalk(codec, ForwardQuery(codec, rows, size), None, pages))
    && (forall pages | ForwardWalk(codec, ForwardQuery(codec, rows, size), None, pages) ::
          Visited(pages) == rows && |pages| == Pages(|rows|, Capped(Some(size))))
    && (exists pages :: BackwardWalk(codec, BackwardQuery(codec, rows, size), None, pages))
    && (forall pages | BackwardWalk(codec, BackwardQuery(codec, rows, size), None, pages) ::
          Visited(pages) == rows && |pages| == Pages(|rows|, Capped(Some(size))))
  }

  lemma {:induction false} WalksByCodec<T(!new)>(codec: Codec, rows: seq<T>, size: i32)
    requires Faithful(codec) && |rows| <= I32_MAX && size >= 1
    ensures WalksAreComplete(codec, rows, size)
  {
    ForwardWalkIsComplete(codec, rows, size, None);
    BackwardWalkIsComplete(codec, rows, size, None);
    assert rows[0..] == rows && rows[..|rows|] == rows;
  }

  /** With the cursors of the source. */
  lemma {:induction false} WalksByCursor<T(!new)>(rows: seq<T>, size: i32)
    requires |rows| <= I32_MAX && size >= 1
    ensures WalksAreComplete(CURSOR, rows, size)
  {
    CursorIsFaithful();
    WalksByCodec(CURSOR, rows, size);
  }

  lemma {:induction false} CursorPageCanLeaveTable()
    ensures NewPage(CURSOR, None, None, Some(CURSOR.encode(I32_MAX - 1)), None, I32_MAX)
            == Ok(Page(I32_MAX, I32_MAX, 1000))
  {
    CursorIsFaithful();
    PageCanLeaveTable(CURSOR);
  }
}
