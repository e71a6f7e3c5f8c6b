/** Page shaping in the `posts` resolver (api/src/services/posts/posts.ts):
    the rows the store returned for the query options become the page
    response `{posts, count, end, cursor}`, using the over-fetch-by-one rule
    to tell whether more rows remain. */
module PostsPage {
  import opened Wrappers
  import opened JsValue
  import opened PostsQuery

  /** A stored post; only `id` matters to page shaping. */
  datatype Post = Post(id: int, title: string, body: string)

  /** The page response; `cursor.id` is the id of the last post, if any. */
  datatype Page = Page(posts: seq<Post>, count: int, end: bool, cursor: Cursor)

  /** `nonNegative`: negative values become zero. */
  function NonNegative(value: int): (r: int)
    ensures r >= 0 && r >= value
    ensures r == value || r == 0
  {
    if value < 0 then 0 else value
  }

  /** `Array.prototype.pop` on the row list: drops the last row; an empty list
      stays empty. */
  function Pop(rows: seq<Post>): (r: seq<Post>)
    ensures |rows| > 0 ==> |r| == |rows| - 1
    ensures r <= rows
    ensures |rows| == 0 ==> r == rows
  {
    if |rows| == 0 then rows else rows[..|rows| - 1]
  }

  /** `{ id: lastRecord?.id }` for the returned rows. */
  function CursorAfter(rows: seq<Post>): (c: Cursor)
    ensures c.id.Some? <==> |rows| > 0
    ensures |rows| > 0 ==> c.id.value == rows[|rows| - 1].id
  {
    if |rows| == 0 then Cursor(None) else Cursor(Some(rows[|rows| - 1].id))
  }

  /** The page response for the rows `received` from the store. When
      pagination was requested the store was asked for `take + 1` rows: fewer
      means this is the last page and every row is returned; as many or more
      means one row was over-fetched and is dropped. Without pagination every
      row is returned and the page is the last. */
  function ShapePage(query: Option<ListingQuery>, rows: seq<Post>): (page: Page)
    ensures page.count >= 0
    ensures Paginated(query) && |rows| < query.value.take.value + 1 ==>
      page.end && page.posts == rows && page.count == |rows|
    ensures Paginated(query) && |rows| >= query.value.take.value + 1 ==>
      && !page.end
      && page.count == NonNegative(query.value.take.value)
      && (|rows| > 0 ==> page.posts + [rows[|rows| - 1]] == rows)
      && (|rows| == 0 ==> page.posts == [])
    ensures !Paginated(query) ==> page.end && page.posts == rows && page.count == |rows|
    ensures page.cursor.id.Some? <==> |page.posts| > 0
    ensures |page.posts| > 0 ==> page.cursor.id.value == page.posts[|page.posts| - 1].id
  {
    var received := |rows|;
    if Paginated(query) then
      var wanted := query.value.take.value;
      var asked := Normalize(query).page.value.take;
      if received < asked then
        Page(rows, NonNegative(received), true, CursorAfter(rows))
      else
        var kept := Pop(rows);
        Page(kept, NonNegative(wanted), false, CursorAfter(kept))
    else
      Page(rows, NonNegative(received), true, CursorAfter(rows))
  }

  /** The `posts` resolver with the store call as a parameter: the store is
      handed the parsed query options and returns some rows, which are shaped
      into a page. */
  function Posts(query: Option<ListingQuery>, findMany: Value -> seq<Post>): (page: Page)
    ensures page.posts <= findMany(ParseQuery(query))
    ensures |findMany(ParseQuery(query))| - |page.posts| <= 1
  {
    ShapePage(query, findMany(ParseQuery(query)))
  }

  /** The `asked` count page shaping compares against is the `take` the store
      was actually handed in the query options: one more than requested. */
  lemma AskedIsOptionsTake(query: Option<ListingQuery>)
    requires Paginated(query)
    ensures Get(ParseQuery(query), [Key("take")]) == Num(Normalize(query).page.value.take)
    ensures Normalize(query).page.value.take == query.value.take.value + 1
  {
    ParseQueryPagination(query);
  }

  /** A page is the last one exactly when no over-fetched row came back:
      pagination was not requested, or at most `take` rows were received. */
  lemma EndIffNoExtraRow(query: Option<ListingQuery>, rows: seq<Post>)
    ensures ShapePage(query, rows).end <==> !Paginated(query) || |rows| <= query.value.take.value
  {
  }

  /** The returned posts are the received rows with at most the last one
      dropped, and a row is dropped exactly when the page is not the last and
      some row was received. */
  lemma PageIsRowsOrAllButLast(query: Option<ListingQuery>, rows: seq<Post>)
    ensures var page := ShapePage(query, rows);
      && page.posts <= rows
      && (|page.posts| == |rows| - 1 <==> !page.end && |rows| > 0)
      && (page.posts == rows <==> page.end || |rows| == 0)
  {
  }

  /** When the store honours the over-fetched limit (at most `take + 1` rows),
      `count` is the number of posts on the page, and never more than the
      requested page size. */
  lemma CountMatchesPostsWhenStoreHonoursTake(query: Option<ListingQuery>, rows: seq<Post>)
    requires Paginated(query) ==> |rows| <= query.value.take.value + 1
    ensures ShapePage(query, rows).count == |ShapePage(query, rows).posts|
    ensures Paginated(query) ==> ShapePage(query, rows).count <= NonNegative(query.value.take.value)
  {
  }

  /** A negative `take` asks the store for `take + 1 <= 0` rows, so whatever
      comes back counts as an over-fetch: the page is never the last, `count`
      is 0, and one received row is dropped. When the store returns rows
      anyway, `count` and the number of posts disagree. */
  lemma NegativeTakeCountsZero(query: Option<ListingQuery>, rows: seq<Post>)
    requires Paginated(query) && query.value.take.value < 0
    ensures var page := ShapePage(query, rows);
      && !page.end && page.count == 0
      && page.posts == Pop(rows)
      && (|rows| >= 2 ==> |page.posts| > page.count)
  {
  }

  /** Three stored posts, a request for a page of two filtered by "cat": the
      store is asked for three rows. If it returns three, the page holds the
      first two, is not the last, and its cursor is the second post; if it
      returns only the first two, the page holds both and is the last. */
  lemma PageOfTwoScenario(a: Post, b: Post, c: Post)
    ensures var query := Some(ListingQuery(Some(0), Some(2), None, Some("cat"), None));
      && Get(ParseQuery(query), [Key("take")]) == Num(3)
      && ShapePage(query, [a, b, c]) == Page([a, b], 2, false, Cursor(Some(b.id)))
      && ShapePage(query, [a, b]) == Page([a, b], 2, true, Cursor(Some(b.id)))
  {
    var query := Some(ListingQuery(Some(0), Some(2), None, Some("cat"), None));
    assert Paginated(query);
    AskedIsOptionsTake(query);
    assert Normalize(query).page.value.take == 3;
    var full := ShapePage(query, [a, b, c]);
    assert Pop([a, b, c]) == [a, b];
    assert full.posts == [a, b] && full.count == 2 && !full.end;
    var short := ShapePage(query, [a, b]);
    assert short.posts == [a, b] && short.count == 2 && short.end;
  }

}
