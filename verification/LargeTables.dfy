/**
 Queries on tables of any size. The number of rows is cast to 32 bits, so a table
 of more than 2^31 - 1 rows is taken for a smaller one, or for one with a
 negative number of rows.
 */
module LargeTables {
  import opened Common
  import opened Cursors
  import opened Pagination
  import opened PaginationTheorems
  import Repository

  /** The number of rows as the query sees it. */
  function Count<T>(rows: seq<T>): (n: i32)
    ensures n <= |rows| && (|rows| <= I32_MAX ==> n == |rows|)
  {
    CastIsSmaller(|rows|);
    Repository.ToI32(|rows|)
  }

  lemma {:induction false} CastIsSmaller(n: nat)
    ensures Repository.ToI32(n) <= n
    ensures n > I32_MAX && Repository.ToI32(n) >= 0 ==> n >= 0x1_0000_0000
  {
    if n > I32_MAX {
      var m := n - 0x1_0000_0000;
      assert Repository.ToI32(n) == Repository.ToI32(m);
      if m >= 0 {
        CastIsSmaller(m);
      }
    }
  }

  // ------------------------------------------------------------------ what is loaded

  /** The edges of a page whose cursors fit 32 bits. */
  lemma {:induction false} LoadedAt<T>(rows: seq<T>, page: Page)
    requires 0 <= page.offset <= |rows| && 0 <= page.limit
    requires Min(page.offset + page.limit, |rows|) <= I32_MAX + 1
    ensures EdgesFrom(page.offset, Load(rows, page))
            == AllEdges(rows)[page.offset..Min(page.offset + page.limit, |rows|)]
  {
    var edges := EdgesFrom(page.offset, Load(rows, page));
    var all := AllEdges(rows)[page.offset..Min(page.offset + page.limit, |rows|)];
    assert |edges| == |all|;
    forall i | 0 <= i < |edges| ensures edges[i] == all[i] {
      NoWrap(page.offset + i);
    }
  }

  lemma {:induction false} QueryEdges<T>(
      codec: Codec, rows: seq<T>, first: Option<i32>, last: Option<i32>, after: Option<string>, before: Option<string>,
      page: Page)
    requires NewPage(codec, first, last, after, before, Count(rows)) == Ok(page)
    ensures Query(codec, rows, first, last, after, before).Ok?
    ensures Query(codec, rows, first, last, after, before).value.edges == EdgesFrom(page.offset, Load(rows, page))
  {
  }

  /** Equal parts of the edges have equal bounds, or are empty. */
  lemma {:induction false} EqualParts<T>(rows: seq<T>, a: nat, b: nat, c: nat, d: nat)
    requires a <= b <= |rows| && c <= d <= |rows|
    ensures AllEdges(rows)[a..b] == AllEdges(rows)[c..d] <==> (a == c && b == d) || (a == b && c == d)
  {
    var x, y := AllEdges(rows)[a..b], AllEdges(rows)[c..d];
    if a < b && c < d && !(a == c && b == d) {
      assert x[0].cursor == a && y[0].cursor == c;
      assert |x| == b - a && |y| == d - c;
    }
  }

  // ------------------------------------------------------------------ forward

  /** When the query returns the edges of the Relay algorithm, for a forward query on a table that cannot be counted. */
  predicate ForwardFits(count: int, start: int, limit: int) {
    limit == 0 || start + limit <= count || start + limit == I32_MAX + 1
  }

  lemma {:induction false} NegativeForward<T>(codec: Codec, rows: seq<T>, first: Option<i32>)
    requires Count(rows) < 0 && NotNegative(first)
    ensures Query(codec, rows, first, None, None, None).Ok?
    ensures Query(codec, rows, first, None, None, None).value.edges == []
  {
    var page := Page(Count(rows), 0, Count(rows));
    assert NewPage(codec, first, None, None, None, Count(rows)) == Ok(page);
    QueryEdges(codec, rows, first, None, None, None, page);
  }

  /** The cursor of an edge beyond the last 32-bit offset is wrong. */
  lemma {:induction false} WrappedEdges<T>(rows: seq<T>, start: nat, limit: nat)
    requires start <= I32_MAX && limit <= DEFAULT_PAGINATION_LIMIT
    requires I32_MAX + 1 < start + limit <= |rows|
    ensures EdgesFrom(start, rows[start..start + limit]) != AllEdges(rows)[start..start + limit]
  {
    var edges, all := EdgesFrom(start, rows[start..start + limit]), AllEdges(rows)[start..start + limit];
    WrapsBelow(start + limit - 1);
    assert edges[limit - 1].cursor < 0 <= all[limit - 1].cursor;
  }

  /** The edges of a page, against those of the rows asked for. */
  lemma {:induction false} PageFits<T>(rows: seq<T>, count: i32, start: nat, limit: nat)
    requires 0 <= start <= count && limit <= DEFAULT_PAGINATION_LIMIT && |rows| >= 0x1_0000_0000
    ensures var page := Page(count, start, if start + limit > I32_MAX then limit else Min(limit, count - start));
            EdgesFrom(start, Load(rows, page)) == AllEdges(rows)[start..start + limit]
            <==> ForwardFits(count, start, limit)
  {
    var page := Page(count, start, if start + limit > I32_MAX then limit else Min(limit, count - start));
    if start + limit > I32_MAX + 1 {
      assert Load(rows, page) == rows[start..start + limit];
      WrappedEdges(rows, start, limit);
    } else {
      LoadedAt(rows, page);
      EqualParts(rows, start, start + page.limit, start, start + limit);
    }
  }

  lemma {:induction false} LargeForward<T>(codec: Codec, rows: seq<T>, first: Option<i32>, after: Option<string>)
    requires |rows| > I32_MAX && Count(rows) >= 0 && PointsAtRow(codec, after, Count(rows)) && NotNegative(first)
    ensures Query(codec, rows, first, None, after, None).Ok?
    ensures var start, limit := Row(codec, after, Count(rows), -1) + 1, Capped(first);
            && start + limit <= |rows|
            && (Query(codec, rows, first, None, after, None).value.edges == AllEdges(rows)[start..start + limit]
                <==> ForwardFits(Count(rows), start, limit))
  {
    var count, start, limit := Count(rows), Row(codec, after, Count(rows), -1) + 1, Capped(first);
    var page := Page(count, start, if start + limit > I32_MAX then limit else Min(limit, count - start));
    CastIsSmaller(|rows|);
    ForwardPage(codec, first, after, count);
    PageFits(rows, count, start, limit);
    QueryEdges(codec, rows, first, None, after, None, page);
  }

  lemma {:induction false} ForwardRefinesIff<T>(codec: Codec, rows: seq<T>, first: Option<i32>, after: Option<string>)
    requires PointsAtRow(codec, after, Count(rows)) && NotNegative(first)
    ensures Query(codec, rows, first, None, after, None).Ok?
    ensures Query(codec, rows, first, None, after, None).value.edges
            == EdgesToReturn(AllEdges(rows), None, Offset(codec, after, |rows|), Some(Capped(first)), None)
            <==> |rows| <= I32_MAX || ForwardFits(Count(rows), Row(codec, after, Count(rows), -1) + 1, Capped(first))
  {
    if |rows| <= I32_MAX {
      ForwardRefines(codec, rows, first, after);
    } else {
      ForwardIsRelay(rows, Offset(codec, after, |rows|), Capped(first));
      if Count(rows) < 0 {
        NegativeForward(codec, rows, first);
      } else {
        LargeForward(codec, rows, first, after);
      }
    }
  }

  // ------------------------------------------------------------------ backward

  lemma {:induction false} NegativeBackward<T>(codec: Codec, rows: seq<T>, last: Option<i32>)
    requires Count(rows) < 0 && NotNegative(last) && last.Some?
    ensures Query(codec, rows, None, last, None, None).Ok?
    ensures Query(codec, rows, None, last, None, None).value.edges == []
  {
    var page := Page(Count(rows), 0, Count(rows));
    assert NewPage(codec, None, last, None, None, Count(rows)) == Ok(page);
    QueryEdges(codec, rows, None, last, None, None, page);
  }

  lemma {:induction false} CountedBackward<T>(codec: Codec, rows: seq<T>, last: Option<i32>, before: Option<string>)
    requires Count(rows) >= 0 && PointsAtRow(codec, before, Count(rows)) && NotNegative(last)
    requires last.Some? || before.Some?
    ensures Query(codec, rows, None, last, None, before).Ok?
    ensures var end := Row(codec, before, Count(rows), Count(rows));
            Query(codec, rows, None, last, None, before).value.edges == AllEdges(rows)[end - Min(Capped(last), end)..end]
  {
    var end := Row(codec, before, Count(rows), Count(rows));
    var page := Page(Count(rows), end - Min(Capped(last), end), Min(Capped(last), end));
    BackwardPage(codec, last, before, Count(rows));
    QueryEdges(codec, rows, None, last, None, before, page);
    LoadedAt(rows, page);
  }

  lemma {:induction false} BackwardRefinesIff<T>(codec: Codec, rows: seq<T>, last: Option<i32>, before: Option<string>)
    requires PointsAtRow(codec, before, Count(rows)) && NotNegative(last)
    requires last.Some? || before.Some?
    ensures Query(codec, rows, None, last, None, before).Ok?
    ensures Query(codec, rows, None, last, None, before).value.edges
            == EdgesToReturn(AllEdges(rows), Offset(codec, before, |rows|), None, None, Some(Capped(last)))
            <==> |rows| <= I32_MAX || Capped(last) == 0 || before.Some?
  {
    var limit := Capped(last);
    if |rows| <= I32_MAX {
      BackwardRefines(codec, rows, last, before);
    } else {
      BackwardIsRelay(rows, Offset(codec, before, |rows|), limit);
      if Count(rows) < 0 {
        NegativeBackward(codec, rows, last);
      } else {
        CountedBackward(codec, rows, last, before);
        if before.None? {
          var count := Count(rows);
          EqualParts(rows, count - Min(limit, count), count, |rows| - Min(limit, |rows|), |rows|);
        }
      }
    }
  }

  // ------------------------------------------------------------------ all tables

  /**
   For every table and all arguments: a query that succeeds returns the edges of
   the Relay algorithm, with limits capped at 1000, if and only if the rows can be
   counted in 32 bits, or the page asked for is empty, or it ends within the count
   (a forward page) or at a cursor (a backward page).
   */
  lemma {:induction false} RefinesRelayIff<T>(
      codec: Codec, rows: seq<T>, first: Option<i32>, last: Option<i32>, after: Option<string>, before: Option<string>)
    requires Query(codec, rows, first, last, after, before).Ok?
    ensures PointsAtRow(codec, after, Count(rows)) && PointsAtRow(codec, before, Count(rows))
    ensures NotNegative(first) && NotNegative(last)
    ensures var edges := Query(codec, rows, first, last, after, before).value.edges;
            if last.Some? || before.Some? then
              edges == EdgesToReturn(AllEdges(rows), Offset(codec, before, |rows|), None, None, Some(Capped(last)))
              <==> |rows| <= I32_MAX || Capped(last) == 0 || before.Some?
            else
              edges == EdgesToReturn(AllEdges(rows), None, Offset(codec, after, |rows|), Some(Capped(first)), None)
              <==> |rows| <= I32_MAX || ForwardFits(Count(rows), Row(codec, after, Count(rows), -1) + 1, Capped(first))
  {
    SucceedsIff(codec, first, last, after, before, Count(rows));
    if last.Some? || before.Some? {
      BackwardRefinesIff(codec, rows, last, before);
    } else {
      ForwardRefinesIff(codec, rows, first, after);
    }
  }

  /** A table of 2^31 rows looks empty to a query without arguments. */
  lemma {:induction false} UncountedTableLooksEmpty<T>(codec: Codec, rows: seq<T>)
    requires |rows| == I32_MAX + 1
    ensures Query(codec, rows, None, None, None, None).Ok?
    ensures Query(codec, rows, None, None, None, None).value.edges == []
  {
    assert Count(rows) == Repository.ToI32(|rows| - 0x1_0000_0000);
    NegativeForward(codec, rows, None);
  }

  // ------------------------------------------------------------------ walks

  /** What a walk needs to know of a page that starts at `start`. */
  ghost predicate Continues<T>(r: Result<Connection<T>, Error>, start: nat, count: int) {
    && r.Ok? && |r.value.edges| <= DEFAULT_PAGINATION_LIMIT
    && var n, info := |r.value.edges|, r.value.pageInfo;
       if n == 0 then !info.hasNextPage
       else
         && info.endCursor == Some(Repository.ToI32(start + n - 1))
         && info.hasNextPage == (Repository.ToI32(start + n - 1) < count - 1)
  }

  /** Every page continues from its cursor, and only a cursor that stands for a row has a page. */
  ghost predicate ContinuesFrom<T(!new)>(ask: Ask<T>, codec: Codec, count: nat) {
    forall after {:trigger ask(after)} ::
      if PointsAtRow(codec, after, count) then Continues(ask(after), Start(codec, after, count), count)
      else ask(after).Err?
  }

  lemma {:induction false} LoadedContinues<T>(rows: seq<T>, page: Page)
    requires 0 <= page.offset && page.limit <= DEFAULT_PAGINATION_LIMIT
    ensures Continues(Ok(ConnectionOf(page, Load(rows, page))), page.offset, page.totalCount)
  {
    var edges := EdgesFrom(page.offset, Load(rows, page));
    if edges != [] {
      assert Last(edges) == edges[|edges| - 1];
    }
  }

  lemma {:induction false} ForwardContinues<T>(codec: Codec, rows: seq<T>, first: i32, after: Option<string>)
    requires Count(rows) >= 0 && PointsAtRow(codec, after, Count(rows)) && first >= 1
    ensures Continues(Query(codec, rows, Some(first), None, after, None), Start(codec, after, Count(rows)), Count(rows))
  {
    var count, start, limit := Count(rows), Start(codec, after, Count(rows)), Capped(Some(first));
    var page := Page(count, start, if start + limit > I32_MAX then limit else Min(limit, count - start));
    ForwardPage(codec, Some(first), after, count);
    assert Query(codec, rows, Some(first), None, after, None) == Ok(ConnectionOf(page, Load(rows, page)));
    LoadedContinues(rows, page);
  }

  lemma {:induction false} QueryContinues<T(!new)>(codec: Codec, rows: seq<T>, first: i32)
    requires Count(rows) >= 0 && first >= 1
    ensures ContinuesFrom(ForwardQuery(codec, rows, first), codec, Count(rows))
  {
    var ask, count := ForwardQuery(codec, rows, first), Count(rows);
    forall after
      ensures if PointsAtRow(codec, after, count) then Continues(ask(after), Start(codec, after, count), count)
              else ask(after).Err?
    {
      if PointsAtRow(codec, after, count) {
        ForwardContinues(codec, rows, first, after);
      } else {
        SucceedsIff(codec, Some(first), None, after, None, count);
      }
    }
  }

  lemma {:induction false} VisitedLength<T>(pages: seq<Connection<T>>)
    requires pages != []
    ensures |Visited(pages)| == |pages[0].edges| + |Visited(pages[1..])|
    ensures |Visited(pages)| == |Visited(Front(pages))| + |Last(pages).edges|
  {
    VisitedRest(pages);
  }

  lemma {:induction false} CastBeyond(n: int)
    requires 0 <= n <= I32_MAX + DEFAULT_PAGINATION_LIMIT && Repository.ToI32(n) >= 0
    ensures n <= I32_MAX && Repository.ToI32(n) == n
  {
    if n > I32_MAX {
      WrapsBelow(n);
    }
  }

  /** A page ends at an offset of 32 bits, if it is the last one or if there is a page after it. */
  lemma {:induction false} PageEnds<T>(r: Result<Connection<T>, Error>, start: nat, count: i32)
    requires Continues(r, start, count) && 0 <= start <= count && r.value.edges != []
    requires !r.value.pageInfo.hasNextPage || r.value.pageInfo.endCursor.value >= 0
    ensures start + |r.value.edges| <= I32_MAX + 1
    ensures r.value.pageInfo.endCursor == Some(start + |r.value.edges| - 1)
  {
    var last := start + |r.value.edges| - 1;
    assert Repository.ToI32(last) >= count - 1 || Repository.ToI32(last) >= 0;
    if count == 0 {
      NoWrap(last);
    }
    CastBeyond(last);
  }

  /** A forward walk does not go beyond the last 32-bit offset. */
  lemma {:induction false} ForwardWalkIsShort<T(!new)>(
      codec: Codec, ask: Ask<T>, count: i32, after: Option<string>, pages: seq<Connection<T>>)
    requires Faithful(codec) && count >= 0 && ContinuesFrom(ask, codec, count)
    requires PointsAtRow(codec, after, count) && ForwardWalk(codec, ask, after, pages)
    ensures Start(codec, after, count) + |Visited(pages)| <= I32_MAX + 1
    decreases |pages|
  {
    var start, n := Start(codec, after, count), |pages[0].edges|;
    VisitedLength(pages);
    if |pages| == 1 {
      assert pages[1..] == [];
      if n > 0 {
        PageEnds(ask(after), start, count);
      }
    } else {
      var next := Some(codec.encode(pages[0].pageInfo.endCursor.value));
      assert ask(next) == Ok(pages[1..][0]);
      assert PointsAtRow(codec, next, count);
      PageEnds(ask(after), start, count);
      ForwardWalkIsShort(codec, ask, count, next, pages[1..]);
    }
  }

  /** What a walk needs to know of a page that ends at `end`. */
  ghost predicate StepsBack<T>(r: Result<Connection<T>, Error>, end: nat, count: int) {
    && r.Ok? && |r.value.edges| <= end
    && (r.value.pageInfo.hasPreviousPage ==>
          r.value.pageInfo.startCursor == Some(end - |r.value.edges|) && end - |r.value.edges| < count)
  }

  ghost predicate StepsBackFrom<T(!new)>(ask: Ask<T>, codec: Codec, count: nat) {
    forall before {:trigger ask(before)} | PointsAtRow(codec, before, count) ::
      StepsBack(ask(before), End(codec, before, count), count)
  }

  lemma {:induction false} LoadedStepsBack<T>(rows: seq<T>, page: Page, end: nat)
    requires 0 <= page.offset <= end <= page.totalCount <= |rows| && page.totalCount <= I32_MAX
    requires page.limit == end - page.offset
    ensures StepsBack(Ok(ConnectionOf(page, Load(rows, page))), end, page.totalCount)
  {
    var edges := EdgesFrom(page.offset, Load(rows, page));
    assert |edges| == page.limit;
    if edges != [] {
      NoWrap(page.offset);
      assert edges[0].cursor == page.offset;
    }
  }

  lemma {:induction false} BackwardSteps<T>(codec: Codec, rows: seq<T>, last: i32, before: Option<string>)
    requires Count(rows) >= 0 && PointsAtRow(codec, before, Count(rows)) && last >= 1
    ensures StepsBack(Query(codec, rows, None, Some(last), None, before), End(codec, before, Count(rows)), Count(rows))
  {
    var end := End(codec, before, Count(rows));
    var page := Page(Count(rows), end - Min(Capped(Some(last)), end), Min(Capped(Some(last)), end));
    BackwardPage(codec, Some(last), before, Count(rows));
    assert Query(codec, rows, None, Some(last), None, before) == Ok(ConnectionOf(page, Load(rows, page)));
    LoadedStepsBack(rows, page, end);
  }

  lemma {:induction false} QueryStepsBack<T(!new)>(codec: Codec, rows: seq<T>, last: i32)
    requires Count(rows) >= 0 && last >= 1
    ensures StepsBackFrom(BackwardQuery(codec, rows, last), codec, Count(rows))
  {
    forall before | PointsAtRow(codec, before, Count(rows))
      ensures StepsBack(BackwardQuery(codec, rows, last)(before), End(codec, before, Count(rows)), Count(rows))
    {
      BackwardSteps(codec, rows, last, before);
    }
  }

  /** A backward walk does not go beyond the row where it begins. */
  lemma {:induction false} BackwardWalkIsShort<T(!new)>(
      codec: Codec, ask: Ask<T>, count: i32, before: Option<string>, pages: seq<Connection<T>>)
    requires Faithful(codec) && count >= 0 && StepsBackFrom(ask, codec, count)
    requires PointsAtRow(codec, before, count) && BackwardWalk(codec, ask, before, pages)
    ensures |Visited(pages)| <= End(codec, before, count)
    decreases |pages|
  {
    var end, n := End(codec, before, count), |Last(pages).edges|;
    assert StepsBack(ask(before), end, count);
    VisitedLength(pages);
    if |pages| == 1 {
      assert Front(pages) == [];
    } else {
      var next := Some(codec.encode(end - n));
      assert PointsAtRow(codec, next, count) && End(codec, next, count) == end - n;
      BackwardWalkIsShort(codec, ask, count, next, Front(pages));
    }
  }

  /** For every table: walks visit every row if and only if the rows can be counted in 32 bits. */
  lemma {:induction false} ForwardWalkIsCompleteIff<T(!new)>(
      codec: Codec, rows: seq<T>, first: i32, pages: seq<Connection<T>>)
    requires Faithful(codec) && first >= 1 && ForwardWalk(codec, ForwardQuery(codec, rows, first), None, pages)
    ensures Visited(pages) == rows <==> |rows| <= I32_MAX
  {
    if |rows| <= I32_MAX {
      ForwardWalkIsComplete(codec, rows, first, None);
      assert rows[0..] == rows;
    } else if Count(rows) < 0 {
      NegativeForward(codec, rows, Some(first));
      VisitedLength(pages);
      assert pages[1..] == [];
    } else {
      CastIsSmaller(|rows|);
      QueryContinues(codec, rows, first);
      ForwardWalkIsShort(codec, ForwardQuery(codec, rows, first), Count(rows), None, pages);
    }
  }

  lemma {:induction false} BackwardWalkIsCompleteIff<T(!new)>(
      codec: Codec, rows: seq<T>, last: i32, pages: seq<Connection<T>>)
    requires Faithful(codec) && last >= 1 && BackwardWalk(codec, BackwardQuery(codec, rows, last), None, pages)
    ensures Visited(pages) == rows <==> |rows| <= I32_MAX
  {
    if |rows| <= I32_MAX {
      BackwardWalkIsComplete(codec, rows, last, None);
      assert rows[..|rows|] == rows;
    } else if Count(rows) < 0 {
      NegativeBackward(codec, rows, Some(last));
      VisitedLength(pages);
      assert Front(pages) == [];
    } else {
      CastIsSmaller(|rows|);
      QueryStepsBack(codec, rows, last);
      BackwardWalkIsShort(codec, BackwardQuery(codec, rows, last), Count(rows), None, pages);
    }
  }
}
