# Post listing query builder and page shaping (redwoodblog)

A Dafny model of the post-listing pipeline of the blog's GraphQL API,
`api/src/services/posts/posts.ts`:

- `removeUndefinedKeys` strips every object key whose value is `undefined`, at every depth.
  It is modelled over a JSON-like value tree (`JsValue.Value`).
- `nonNegative` clamps negative numbers to zero.
- `parseQueryForPrisma` turns the optional listing request (`skip`, `take`, `cursor.id`,
  `filter`, `orderBy{key, order}`) into the query options handed to the store.
  It builds a pagination, a filter and a sort fragment, each starting from an object holding
  `undefined` placeholders, spreads them into one object and strips the undefined keys
  (`PostsQuery.ParseQuery`). A typed description of the same options (`PostsQuery.Normalize`,
  one optional part per concern) is proved to encode to exactly that object.
- The page-shaping half of the `posts` resolver turns the rows the store returned into
  `{posts, count, end, cursor}` (`PostsPage.ShapePage`). It uses the over-fetch-by-one rule:
  `take + 1` rows are asked for, and receiving that many means more remain, so the extra row
  is dropped.

Modules: `Wrappers` (the `Option` type), `JsValue` (value tree, reads, `removeUndefinedKeys`),
`PostsQuery` (request, fragments, `parseQueryForPrisma`, typed options) and `PostsPage`
(`nonNegative`, page shaping, the resolver with the store as a parameter).

Behaviour the model keeps as the code has it:

- The recognised sort keys are the lower-case `createdat`, `activity` and `score`
  (posts.ts:37), compared case-sensitively by `includes` (posts.ts:112). The code itself
  spells the field camel-case elsewhere: the sort placeholder and the default are
  `createdAt` (posts.ts:102-104, 127), and the key type is the request's `orderBy.key`
  (posts.ts:96-98). A request key `createdAt` is therefore not recognised and falls back to
  the default `createdAt: 'desc'`, while a valid `createdat` request produces
  `orderBy: {createdat: order}`, a lower-case field name.
- The filter sets `contains: f` on both `body` and `title`, with no `mode`, in one object
  under the key `OR` (posts.ts:75-89). How the store reads a lone object under `OR` is not
  modelled.
- With a negative `take` the store is asked for `take + 1 <= 0` rows. Any number received is
  `>= asked`, so `end` is false and `count` is 0. `pop` drops the last received row, or does
  nothing on an empty list. If the store returns rows anyway, `count = 0` sits beside a
  non-empty page (`PostsPage.NegativeTakeCountsZero`).
- `where.OR` is an object holding `body` and `title`, as written, not a list.

## Model

| member | source | states |
|---|---|---|
| PostsQuery.SortListsHoldOnlyNonEmptyLowerCaseKeys | api/src/services/posts/posts.ts:37-38 | `SortKeys` is exactly `createdat`, `activity`, `score` and `SortOrders` exactly `asc`, `desc`. No entry is the empty string, so the truthiness tests at lines 110-111 are implied by the `includes` tests. Camel-case `createdAt` is not a recognised key. |
| PostsQuery.Paginated | api/src/services/posts/posts.ts:53 | Pagination is requested iff a query is given and both `skip` and `take` are numbers. `isNaN` is abstracted to `None`. The same guard is repeated at line 167. |
| PostsQuery.CursorId | api/src/services/posts/posts.ts:56-57 | `query.cursor?.id`, when it is a number. It is `None` when the cursor is absent or its id is not a number. |
| PostsQuery.HasFilter | api/src/services/posts/posts.ts:87 | `query && query.filter` is truthy iff a query is given and its filter is a present, non-empty string. |
| PostsQuery.ValidOrderBy | api/src/services/posts/posts.ts:107-114 | The sort guard holds iff a query with `orderBy` is given, both `key` and `order` are present, the key is in the lower-case key list and the order is in the direction list. The empty string fails both the truthiness test and the list test. |
| PostsQuery.WhereContains | api/src/services/posts/posts.ts:75-89 | The `where` value `{OR: {body: {contains: f}, title: {contains: f}}}` that the filter branch leaves in place: one object under `OR`, not a list of alternatives. It holds no `undefined` at any depth. |
| PostsQuery.ByCommentCountValue | api/src/services/posts/posts.ts:116-122 | The `orderBy` value `[{comments: {_count: order}}]` for the `activity` sort. It holds no `undefined` at any depth. |
| JsValue.RemoveUndefinedKeys | api/src/services/posts/posts.ts:11-28 | The result has no undefined-valued key at any depth. An object keeps exactly its keys whose value is defined. An array keeps its length. Any non-object value, `null` included, comes back unchanged, and only `undefined` cleans to `undefined`. |
| JsValue.RemoveUndefinedKeysPreservesReads | api/src/services/posts/posts.ts:11-28 | Reading any property path of the cleaned value gives the cleaned version of what the same read gave before. Reads ending on `undefined`, `null` or a primitive are unchanged, so dropping the keys cannot be observed by a read. |
| JsValue.RemoveUndefinedKeysFixedPoints | api/src/services/posts/posts.ts:11-28 | A value is left unchanged if and only if it has no undefined-valued key at any depth. |
| JsValue.RemoveUndefinedKeysIdempotent | api/src/services/posts/posts.ts:11-28 | Applying the function twice equals applying it once. |
| JsValue.DefinedUnchanged | api/src/services/posts/posts.ts:11-28 | A value with no `undefined` anywhere is returned unchanged. |
| JsValue.RemoveUndefinedKeysSpread | api/src/services/posts/posts.ts:130-135 | For objects with no key in common, cleaning `{...a, ...b}` equals spreading the cleaned `a` and `b`. |
| PostsPage.NonNegative | api/src/services/posts/posts.ts:30-35 | The result is never negative and never below the input. It is either the input or 0, which makes it max(value, 0). |
| PostsQuery.PaginationFragment | api/src/services/posts/posts.ts:43-65 | The fragment is non-empty iff both `skip` and `take` are numbers. When it is non-empty, `skip` is copied and `take` is one more than requested. `cursor: {id}` is present iff the cursor id is a number; otherwise the key is absent. |
| PostsQuery.FilterFragment | api/src/services/posts/posts.ts:67-92 | The fragment has a `where` key iff the filter is a non-empty string, and no other key. `where.OR.body.contains` and `where.OR.title.contains` both read the filter. |
| PostsQuery.SortFragment | api/src/services/posts/posts.ts:94-128 | Before cleaning, the sort fragment holds exactly the key `orderBy`, whatever the request. |
| PostsQuery.ParseQuery | api/src/services/posts/posts.ts:130-135 | The merged and cleaned options are an object with no undefined-valued key at any depth. |
| PostsQuery.Normalize | api/src/services/posts/posts.ts:40-136 | The typed options have pagination iff `skip` and `take` are both numbers. They have a filter iff the filter is a non-empty string, and a present filter is never empty. |
| PostsQuery.Encode | api/src/services/posts/posts.ts:130-135 | Encoded options use only the keys `skip`, `take`, `cursor`, `where` and `orderBy`, always carry `orderBy`, and hold no `undefined` at any depth. |
| PostsQuery.ParseQueryEncodesNormalize | api/src/services/posts/posts.ts:40-136 | The object built with placeholders, spread and cleaned is exactly the encoding of the typed options decided field by field. |
| PostsQuery.ParseQueryShape | api/src/services/posts/posts.ts:130-135 | The final options use only the keys `skip`, `take`, `cursor`, `where` and `orderBy`. `orderBy` is always present, and no value at any depth is `undefined`. |
| PostsQuery.ParseQueryPagination | api/src/services/posts/posts.ts:53-65 | In the final options, `skip` and `take` are present iff both are numbers in the request. Then `skip` is unchanged and `take` is one more than requested. `cursor` is present iff pagination applies and the cursor id is a number, and then it holds that id. |
| PostsQuery.ParseQueryFilter | api/src/services/posts/posts.ts:87-92 | In the final options, `where` is present iff the filter is non-empty. Both `where.OR.body.contains` and `where.OR.title.contains` then equal the filter. |
| PostsQuery.ParseQuerySort | api/src/services/posts/posts.ts:107-128 | The final `orderBy` is one of three forms. A valid `activity` request gives `[{comments: {_count: order}}]`. Any other valid key gives the single entry `{key: order}`. Every other request gives `{createdAt: 'desc'}`. |
| PostsQuery.CamelCaseCreatedAtFallsBack | api/src/services/posts/posts.ts:37-38 | A request to sort by camel-case `createdAt` ascending is not recognised and yields the default `{createdAt: 'desc'}`. |
| PostsPage.Pop | api/src/services/posts/posts.ts:176 | `pop` removes exactly the last row of a non-empty list, leaves a prefix, and leaves an empty list empty. |
| PostsPage.CursorAfter | api/src/services/posts/posts.ts:188-196 | `cursor.id` is present iff there are rows, and then it is the id of the last row. |
| PostsPage.ShapePage | api/src/services/posts/posts.ts:159-199 | Paginated with fewer than `take+1` rows: `end`, rows unchanged, `count` = received. Paginated with at least `take+1` rows: not `end`, exactly the last row dropped, `count` = max(take, 0). Not paginated: `end`, rows unchanged, `count` = received. In every case `count >= 0`, and `cursor.id` is the last returned post's id, or absent when no posts are returned. |
| PostsPage.Posts | api/src/services/posts/posts.ts:140-199 | The returned posts are a prefix of what the store returned for the parsed options, with at most one row missing. |
| PostsPage.AskedIsOptionsTake | api/src/services/posts/posts.ts:168-170 | When paginated, the `asked` count used for shaping is the `take` key of the options sent to the store, which is the requested `take` plus one. |
| PostsPage.EndIffNoExtraRow | api/src/services/posts/posts.ts:166-184 | `end` holds iff pagination was not requested or at most `take` rows were received. |
| PostsPage.PageIsRowsOrAllButLast | api/src/services/posts/posts.ts:170-178 | The posts are a prefix of the rows. Exactly one row is dropped iff the page is not the last and a row was received. The rows are returned unchanged iff the page is the last or none were received. |
| PostsPage.CountMatchesPostsWhenStoreHonoursTake | api/src/services/posts/posts.ts:166-184 | When the store returns at most `take+1` rows, `count` equals the number of returned posts and never exceeds max(take, 0). |
| PostsPage.NegativeTakeCountsZero | api/src/services/posts/posts.ts:166-178 | With pagination and a negative `take`, the page is never the last and `count` is 0. The posts are the received rows minus the last, so two received rows leave a one-post page beside `count = 0`. |
| PostsPage.PageOfTwoScenario | api/src/services/posts/posts.ts:156-157 | For `{skip: 0, take: 2, filter: "cat"}` the store is asked for 3 rows. Three rows give the first two, `end = false`, `count = 2` and the cursor at the second post. Two rows give both, `end = true` and the same cursor. |

## Left out

- The store calls `db.post.findMany`, `findUnique`, `create`, `update` and `delete`, and the `Post` field resolvers (posts.ts:202-251). They are thin wrappers over the ORM, whose behaviour is not part of this model. `findMany` becomes a function parameter of `PostsPage.Posts`, and its rows are an arbitrary sequence.
- `requireAuth`, `requirePostOwner` and `context.currentUser` (posts.ts:209-230). They belong to an external authorization collaborator and ambient request state.
- The `console.log` calls. They only produce output.
- `makeResponseForCats` (posts.ts:138) is an empty function with no behaviour.
- JavaScript `isNaN` coercions (for example `null` reading as 0). A number field is `Some(n)` when it is a number and `None` otherwise. Numbers are unbounded integers, not IEEE doubles, so `take + 1` never rounds.
- `removeUndefinedKeys` mutates its argument in place and returns it. The model is pure. The only caller passes a freshly built object, so the difference is not observable.
- `removeUndefinedKeys` iterates with `for...in`, which also visits inherited enumerable keys. The model's objects have no prototype chain.
- A deleted array element is a hole, distinct from an explicit `undefined` under the `in` operator. The model reads both as `Undef`.
- `JsValue.Get` models reads of own data properties only: an object's keys and an array's indices. Any other step reads as `undefined`. This includes a key on an array or a primitive, so built-in properties such as `length` are not modelled, and a read on `undefined` or `null`, which throws in JavaScript. Reads are used only to state properties.
- Tie-breaking between posts with equal comment counts under the `activity` sort is decided by the store and is not modelled.
- PostsPage.Posts: its own contract states only that the page is the received rows with at most the last dropped; the full page behaviour is stated on `PostsPage.ShapePage` and the lemmas about it.
- PostsQuery.SortFragment: its own contract states only that the fragment is `{orderBy: ...}`; the three forms of the sort are stated on the cleaned options by `PostsQuery.ParseQuerySort`.
- The web files (post editor, routes, home page) and the contacts scenario fixture. They are UI, routing configuration and test data, with no listing logic.
