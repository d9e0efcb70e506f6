/** Pages of a table, against the pagination algorithm of the Relay cursor connections specification. */
module Pagination {
  import opened Common
  import opened Cursors
  import Repository

  const DEFAULT_PAGINATION_LIMIT: int := 1000

  /** How cursors are written; the text is opaque to a client. */
  datatype Codec = Codec(encode: int -> string, decode: string -> Result<int, CursorError>)

  const CURSOR := Codec(Encode, Decode)

  ghost predicate Faithful(codec: Codec) {
    forall offset | I32_MIN <= offset <= I32_MAX :: codec.decode(codec.encode(offset)) == Ok(offset)
  }

  /** The codec of the source is faithful. */
  lemma {:induction false} CursorIsFaithful()
    ensures Faithful(CURSOR)
  {
    forall offset | I32_MIN <= offset <= I32_MAX ensures CURSOR.decode(CURSOR.encode(offset)) == Ok(offset) {
      CursorRoundTrip(offset);
    }
  }

  type i32 = n: int | I32_MIN <= n <= I32_MAX

  datatype Arg = FirstArg | LastArg | AfterArg | BeforeArg

  datatype Error = MixedPagination | BadCursor(cause: CursorError) | PaginationCursor(arg: Arg) | PaginationLimit(of: Arg)

  datatype Page = Page(totalCount: i32, offset: i32, limit: i32)

  /** Addition wraps around. */
  function Add(a: i32, b: i32): i32 {
    Repository.ToI32(a + b)
  }

  function EnsureCursor(codec: Codec, arg: Arg, value: string, total: i32): Result<i32, Error> {
    match codec.decode(value)
    case Err(e) => Err(BadCursor(e))
    case Ok(offset) => if 0 <= offset < total then Ok(offset) else Err(PaginationCursor(arg))
  }

  function EnsureLimit(arg: Arg, limit: Option<i32>): Result<i32, Error> {
    match limit
    case None => Ok(DEFAULT_PAGINATION_LIMIT)
    case Some(n) =>
      if n < 0 then Err(PaginationLimit(arg))
      else Ok(if n < DEFAULT_PAGINATION_LIMIT then n else DEFAULT_PAGINATION_LIMIT)
  }

  function Backward(codec: Codec, last: Option<i32>, before: Option<string>, total: i32): Result<Page, Error> {
    match (match before case None => Ok(total) case Some(value) => EnsureCursor(codec, BeforeArg, value, total))
    case Err(e) => Err(e)
    case Ok(end) =>
      match EnsureLimit(LastArg, last)
      case Err(e) => Err(e)
      case Ok(limit) =>
        if limit >= end then Ok(Page(total, 0, end)) else Ok(Page(total, Repository.ToI32(end - limit), limit))
  }

  function Forward(codec: Codec, first: Option<i32>, after: Option<string>, total: i32): Result<Page, Error> {
    match (match after case None => Ok(-1) case Some(value) => EnsureCursor(codec, AfterArg, value, total))
    case Err(e) => Err(e)
    case Ok(cursor) =>
      var offset := Add(cursor, 1);
      match EnsureLimit(FirstArg, first)
      case Err(e) => Err(e)
      case Ok(limit) =>
        if Add(offset, limit) > total then Ok(Page(total, offset, Repository.ToI32(total - offset)))
        else Ok(Page(total, offset, limit))
  }

  function NewPage(
      codec: Codec, first: Option<i32>, last: Option<i32>, after: Option<string>, before: Option<string>, total: i32)
    : Result<Page, Error>
  {
    var forward := first.Some? || after.Some?;
    var backward := last.Some? || before.Some?;
    if forward && backward then Err(MixedPagination)
    else if backward then Backward(codec, last, before, total)
    else Forward(codec, first, after, total)
  }

  // ------------------------------------------------------------------ connections

  datatype Edge<+T> = Edge(node: T, cursor: int)

  datatype PageInfo = PageInfo(
    startCursor: Option<int>, endCursor: Option<int>, hasNextPage: bool, hasPreviousPage: bool)

  datatype Connection<+T> = Connection(totalCount: int, edges: seq<Edge<T>>, pageInfo: PageInfo)

  /** The rows from `offset` on, with their cursors. */
  function EdgesFrom<T>(offset: int, nodes: seq<T>): (r: seq<Edge<T>>)
    ensures |r| == |nodes|
  {
    seq(|nodes|, i requires 0 <= i < |nodes| => Edge(nodes[i], Repository.ToI32(offset + i)))
  }

  function InfoOf<T>(total: int, edges: seq<Edge<T>>): PageInfo {
    if edges == [] then PageInfo(None, None, false, false)
    else
      PageInfo(Some(edges[0].cursor), Some(Last(edges).cursor), Last(edges).cursor < total - 1, edges[0].cursor > 0)
  }

  method CreateConnection<T>(page: Page, nodes: seq<T>) returns (c: Connection<T>)
    ensures c == ConnectionOf(page, nodes)
  {
    var edges: seq<Edge<T>> := [];
    for i := 0 to |nodes|
      invariant edges == EdgesFrom(page.offset, nodes[..i])
    {
      edges := edges + [Edge(nodes[i], Repository.ToI32(page.offset + i))];
      assert nodes[..i + 1] == nodes[..i] + [nodes[i]];
    }
    assert nodes[..|nodes|] == nodes;
    var start, end, next, previous := None, None, false, false;
    if |edges| > 0 {
      start, previous := Some(edges[0].cursor), edges[0].cursor > 0;
      end, next := Some(Last(edges).cursor), Last(edges).cursor < page.totalCount - 1;
    }
    c := Connection(page.totalCount, edges, PageInfo(start, end, next, previous));
  }

  function ConnectionOf<T>(page: Page, nodes: seq<T>): Connection<T> {
    var edges := EdgesFrom(page.offset, nodes);
    Connection(page.totalCount, edges, InfoOf(page.totalCount, edges))
  }

  /** The database gives at most `limit` rows, starting after `offset` of them. */
  function Load<T>(rows: seq<T>, page: Page): seq<T> {
    if page.limit <= 0 then []
    else if page.offset < 0 || page.offset >= |rows| then []
    else if page.offset + page.limit <= |rows| then rows[page.offset..page.offset + page.limit]
    else rows[page.offset..]
  }

  /** A paginated query over the rows that pass the filter, in the order of their primary key. */
  function Query<T>(
      codec: Codec, rows: seq<T>, first: Option<i32>, last: Option<i32>, after: Option<string>, before: Option<string>)
    : Result<Connection<T>, Error>
  {
    match NewPage(codec, first, last, after, before, Repository.ToI32(|rows|))
    case Err(e) => Err(e)
    case Ok(page) => Ok(ConnectionOf(page, Load(rows, page)))
  }

  // ------------------------------------------------------------------ the specification

  /** The edges after the one with the cursor, if there is one. */
  function EdgesAfter<T>(edges: seq<Edge<T>>, cursor: int): Option<seq<Edge<T>>> {
    if edges == [] then None
    else if edges[0].cursor == cursor then Some(edges[1..])
    else EdgesAfter(edges[1..], cursor)
  }

  /** The edges before the one with the cursor, if there is one. */
  function EdgesBefore<T>(edges: seq<Edge<T>>, cursor: int): Option<seq<Edge<T>>> {
    if edges == [] then None
    else if Last(edges).cursor == cursor then Some(Front(edges))
    else EdgesBefore(Front(edges), cursor)
  }

  function OrElse<T>(o: Option<T>, default: T): T {
    match o case Some(x) => x case None => default
  }

  /** A cursor that no edge has is ignored. */
  function ApplyCursorsToEdges<T>(edges: seq<Edge<T>>, before: Option<int>, after: Option<int>): seq<Edge<T>> {
    var rest := if after.Some? then OrElse(EdgesAfter(edges, after.value), edges) else edges;
    if before.Some? then OrElse(EdgesBefore(rest, before.value), rest) else rest
  }

  /** `EdgesToReturn` of the specification, for limits that are not negative. */
  function EdgesToReturn<T>(
      edges: seq<Edge<T>>, before: Option<int>, after: Option<int>, first: Option<nat>, last: Option<nat>)
    : seq<Edge<T>>
  {
    var all := ApplyCursorsToEdges(edges, before, after);
    var some := if first.Some? && |all| > first.value then all[..first.value] else all;
    if last.Some? && |some| > last.value then some[|some| - last.value..] else some
  }

  function AllEdges<T>(rows: seq<T>): (r: seq<Edge<T>>)
    ensures |r| == |rows|
  {
    seq(|rows|, i requires 0 <= i < |rows| => Edge(rows[i], i))
  }

  lemma {:induction false} AfterIsDrop<T>(edges: seq<Edge<T>>, start: int, cursor: int)
    requires forall i | 0 <= i < |edges| :: edges[i].cursor == start + i
    requires start <= cursor < start + |edges|
    ensures EdgesAfter(edges, cursor) == Some(edges[cursor + 1 - start..])
  {
    if cursor > start {
      AfterIsDrop(edges[1..], start + 1, cursor);
    }
  }

  lemma {:induction false} BeforeIsTake<T>(edges: seq<Edge<T>>, cursor: nat)
    requires forall i | 0 <= i < |edges| :: edges[i].cursor == i
    requires cursor < |edges|
    ensures EdgesBefore(edges, cursor) == Some(edges[..cursor])
  {
    if cursor < |edges| - 1 {
      BeforeIsTake(Front(edges), cursor);
      assert Front(edges)[..cursor] == edges[..cursor];
    }
  }
}
