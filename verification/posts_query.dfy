/** `parseQueryForPrisma` (api/src/services/posts/posts.ts): a listing request
    becomes the query options handed to the store, built as three independent
    fragments (pagination, filter, sort), merged, and stripped of undefined
    keys. A typed description of the same options, `Normalize`, is proved to
    encode to exactly what the JavaScript-shaped construction produces. */
module PostsQuery {
  import opened Wrappers
  import opened JsValue

  /** `query.cursor`: the seek cursor; `id` is `None` when it is not a number. */
  datatype Cursor = Cursor(id: Option<int>)

  /** `query.orderBy`: key and direction as the client sent them. */
  datatype OrderBy = OrderBy(key: Option<string>, order: Option<string>)

  /** The listing request. A number field is `None` when `isNaN` rejects it;
      `filter` is a string, empty or not, when present. */
  datatype ListingQuery = ListingQuery(
    skip: Option<int>,
    take: Option<int>,
    cursor: Option<Cursor>,
    filter: Option<string>,
    orderBy: Option<OrderBy>)

  /** The recognised sort keys, compared case-sensitively. They are written in
      lower case, so the camel-case field name `createdAt` is not one of them. */
  const SortKeys: seq<string> := ["createdat", "activity", "score"]

  /** The recognised sort directions. */
  const SortOrders: seq<string> := ["asc", "desc"]

  /** Every list entry is a non-empty string, so a key or direction that
      `includes` accepts is also truthy; and the lists are case-sensitive, so
      the camel-case field name `createdAt` is not an accepted key. */
  lemma SortListsHoldOnlyNonEmptyLowerCaseKeys()
    ensures forall i :: 0 <= i < |SortKeys| ==> SortKeys[i] != ""
    ensures forall i :: 0 <= i < |SortOrders| ==> SortOrders[i] != ""
    ensures "createdAt" !in SortKeys && "createdat" in SortKeys
    ensures "activity" in SortKeys && "score" in SortKeys && |SortKeys| == 3
    ensures "asc" in SortOrders && "desc" in SortOrders && |SortOrders| == 2
  {
  }

  /** The five keys the query options may carry. */
  const OptionKeys: set<string> := {"skip", "take", "cursor", "where", "orderBy"}

  /** Pagination is requested when a query is given and both `skip` and `take`
      are numbers. */
  predicate Paginated(query: Option<ListingQuery>) {
    query.Some? && query.value.skip.Some? && query.value.take.Some?
  }

  /** `query.cursor?.id` when it is a number. */
  function CursorId(q: ListingQuery): (id: Option<int>)
    ensures id.Some? <==> q.cursor.Some? && q.cursor.value.id.Some?
    ensures id.Some? ==> q.cursor == Some(Cursor(id))
  {
    match q.cursor
    case Some(c) => c.id
    case None => None
  }

  /** `query && query.filter`: a filter string that is present and non-empty. */
  predicate HasFilter(query: Option<ListingQuery>) {
    query.Some? && query.value.filter.Some? && query.value.filter.value != ""
  }

  /** The sort guard: key and direction both present and both recognised. The
      truthiness tests on key and direction are implied by the list tests, and
      camel-case `createdAt` never passes. */
  predicate ValidOrderBy(query: Option<ListingQuery>): (r: bool)
    ensures r ==>
      && query.Some? && query.value.orderBy.Some?
      && query.value.orderBy.value.key.Some? && query.value.orderBy.value.order.Some?
      && query.value.orderBy.value.key.value != "" && query.value.orderBy.value.order.value != ""
      && query.value.orderBy.value.key.value != "createdAt"
  {
    && query.Some? && query.value.orderBy.Some?
    && query.value.orderBy.value.key.Some? && query.value.orderBy.value.order.Some?
    && query.value.orderBy.value.key.value in SortKeys
    && query.value.orderBy.value.order.value in SortOrders
  }

  /** The `where` value built for filter text `f`: one object under the key
      `OR` holding `contains: f` for both `body` and `title`. How the store
      reads a lone object under `OR` is not part of this model. */
  function WhereContains(f: string): (r: Value)
    ensures Defined(r)
  {
    var contains := Obj(map["contains" := Str(f)]);
    assert Defined(contains);
    var fields := Obj(map["body" := contains, "title" := contains]);
    assert Defined(fields);
    Obj(map["OR" := fields])
  }

  /** The `orderBy` value sorting by the number of related comments. */
  function ByCommentCountValue(order: string): (r: Value)
    ensures Defined(r)
  {
    var count := Obj(map["_count" := Str(order)]);
    assert Defined(count);
    var comments := Obj(map["comments" := count]);
    assert Defined(comments);
    Arr([comments])
  }

  // ---------------------------------------------------------------------------
  // The construction as the source performs it: each fragment starts as an
  // object holding `undefined` placeholders, which the branches overwrite,
  // delete or discard.
  // ---------------------------------------------------------------------------

  /** The pagination fragment. When pagination is requested, `skip` is copied,
      `take` is asked for one more than requested, and the `cursor` key is kept
      only when the request's cursor id is a number; otherwise the fragment is
      the empty object. */
  function PaginationFragment(query: Option<ListingQuery>): (r: map<string, Value>)
    ensures r != map[] <==> Paginated(query)
    ensures Paginated(query) ==>
      && r.Keys <= {"skip", "take", "cursor"}
      && "skip" in r && r["skip"] == Num(query.value.skip.value)
      && "take" in r && r["take"] == Num(query.value.take.value + 1)
      && ("cursor" in r <==> CursorId(query.value).Some?)
      && ("cursor" in r ==> r["cursor"] == Obj(map["id" := Num(CursorId(query.value).value)]))
  {
    var placeholder := map["skip" := Undef, "take" := Undef, "cursor" := Obj(map["id" := Undef])];
    if Paginated(query) then
      var q := query.value;
      var counted := placeholder["skip" := Num(q.skip.value)]["take" := Num(q.take.value + 1)];
      match CursorId(q)
      case Some(id) =>
        var cursored := counted["cursor" := Obj(map["id" := Num(id)])];
        assert "skip" in cursored;
        cursored
      case None =>
        var uncursored := counted - {"cursor"};
        assert "skip" in uncursored;
        uncursored
    else
      map[]
  }

  /** The filter fragment: when a non-empty filter is given, a `where` key
      whose `OR` object sets `contains` to the filter text on both `body` and
      `title`; the empty object otherwise. */
  function FilterFragment(query: Option<ListingQuery>): (r: map<string, Value>)
    ensures r.Keys <= {"where"}
    ensures "where" in r <==> HasFilter(query)
    ensures HasFilter(query) ==>
      && Get(Obj(r), [Key("where"), Key("OR"), Key("body"), Key("contains")]) == Str(query.value.filter.value)
      && Get(Obj(r), [Key("where"), Key("OR"), Key("title"), Key("contains")]) == Str(query.value.filter.value)
  {
    if HasFilter(query) then
      map["where" := WhereContains(query.value.filter.value)]
    else
      map[]
  }

  /** The sort fragment before cleaning. It always has an `orderBy` key; its
      placeholder `createdAt: undefined` survives only when a recognised key
      other than `activity` is written beside it. */
  function SortFragment(query: Option<ListingQuery>): (r: map<string, Value>)
    ensures r.Keys == {"orderBy"}
  {
    var placeholder := map["createdAt" := Undef];
    if ValidOrderBy(query) then
      var key := query.value.orderBy.value.key.value;
      var order := Str(query.value.orderBy.value.order.value);
      if key == "activity" then
        map["orderBy" := ByCommentCountValue(query.value.orderBy.value.order.value)]
      else
        map["orderBy" := Obj(placeholder[key := order])]
    else
      map["orderBy" := Obj(placeholder["createdAt" := Str("desc")])]
  }

  /** `parseQueryForPrisma`: the three fragments spread into one object, later
      fragments winning on a shared key, then stripped of undefined keys. */
  function ParseQuery(query: Option<ListingQuery>): (r: Value)
    ensures r.Obj?
    ensures NoUndefinedKeys(r)
  {
    RemoveUndefinedKeys(Obj(PaginationFragment(query) + FilterFragment(query) + SortFragment(query)))
  }

  // ---------------------------------------------------------------------------
  // The same options as a typed record, one optional part per concern.
  // ---------------------------------------------------------------------------

  /** Pagination as sent to the store: `take` is already the over-fetched count. */
  datatype Pagination = Pagination(skip: int, take: int, cursor: Option<int>)

  /** A sort on a named field, or on the number of related comments. */
  datatype Sort = ByField(field: string, order: string) | ByCommentCount(order: string)

  datatype QueryOptions = QueryOptions(page: Option<Pagination>, filter: Option<string>, sort: Sort)

  /** The query options the request asks for, decided field by field. */
  function Normalize(query: Option<ListingQuery>): (o: QueryOptions)
    ensures o.page.Some? <==> Paginated(query)
    ensures o.filter.Some? <==> HasFilter(query)
    ensures o.filter.Some? ==> o.filter.value != ""
  {
    var page :=
      if Paginated(query) then
        var q := query.value;
        Some(Pagination(q.skip.value, q.take.value + 1, CursorId(q)))
      else None;
    var filter := if HasFilter(query) then Some(query.value.filter.value) else None;
    var sort :=
      if ValidOrderBy(query) then
        var ob := query.value.orderBy.value;
        if ob.key.value == "activity" then ByCommentCount(ob.order.value)
        else ByField(ob.key.value, ob.order.value)
      else ByField("createdAt", "desc");
    QueryOptions(page, filter, sort)
  }

  function EncodePage(page: Option<Pagination>): (r: map<string, Value>)
    ensures forall k :: k in r ==> Defined(r[k])
  {
    match page
    case None => map[]
    case Some(p) =>
      var m := map["skip" := Num(p.skip), "take" := Num(p.take)];
      match p.cursor
      case Some(id) => m["cursor" := Obj(map["id" := Num(id)])]
      case None => m
  }

  function EncodeFilter(filter: Option<string>): (r: map<string, Value>)
    ensures forall k :: k in r ==> Defined(r[k])
  {
    match filter
    case None => map[]
    case Some(f) =>
      map["where" := WhereContains(f)]
  }

  function EncodeSort(sort: Sort): (r: Value)
    ensures Defined(r)
  {
    match sort
    case ByField(field, order) => Obj(map[field := Str(order)])
    case ByCommentCount(order) => ByCommentCountValue(order)
  }

  /** The options object the store receives for a typed description: it uses
      only the five option keys, always sorts, and holds no `undefined` at any
      depth. */
  function Encode(o: QueryOptions): (r: Value)
    ensures r.Obj? && r.fields.Keys <= OptionKeys && "orderBy" in r.fields
    ensures Defined(r)
  {
    Obj(EncodePage(o.page) + EncodeFilter(o.filter) + map["orderBy" := EncodeSort(o.sort)])
  }

  lemma PaginationFragmentIsEncodedPage(query: Option<ListingQuery>)
    ensures PaginationFragment(query) == EncodePage(Normalize(query).page)
  {
  }

  lemma FilterFragmentIsEncodedFilter(query: Option<ListingQuery>)
    ensures FilterFragment(query) == EncodeFilter(Normalize(query).filter)
  {
  }

  /** The pagination fragment is the typed pagination, encoded. */
  lemma PaginationFragmentEncodes(query: Option<ListingQuery>)
    ensures RemoveUndefinedKeys(Obj(PaginationFragment(query))) == Obj(EncodePage(Normalize(query).page))
  {
    PaginationFragmentIsEncodedPage(query);
    DefinedUnchanged(Obj(EncodePage(Normalize(query).page)));
  }

  /** The filter fragment is the typed filter, encoded. */
  lemma FilterFragmentEncodes(query: Option<ListingQuery>)
    ensures RemoveUndefinedKeys(Obj(FilterFragment(query))) == Obj(EncodeFilter(Normalize(query).filter))
  {
    FilterFragmentIsEncodedFilter(query);
    DefinedUnchanged(Obj(EncodeFilter(Normalize(query).filter)));
  }

  /** The sort fragment, once its `createdAt: undefined` placeholder is
      stripped, is the typed sort, encoded. */
  lemma SortFragmentEncodes(query: Option<ListingQuery>)
    ensures RemoveUndefinedKeys(Obj(SortFragment(query))) == Obj(map["orderBy" := EncodeSort(Normalize(query).sort)])
  {
    var enc := map["orderBy" := EncodeSort(Normalize(query).sort)];
    if ValidOrderBy(query) && query.value.orderBy.value.key.value != "activity" {
      var key := query.value.orderBy.value.key.value;
      var order := query.value.orderBy.value.order.value;
      assert key != "createdAt";
      var placed := map["createdAt" := Undef][key := Str(order)];
      assert SortFragment(query) == map["orderBy" := Obj(placed)];
      var cleaned := RemoveUndefinedKeys(Obj(placed));
      assert cleaned.fields == map[key := Str(order)];
      assert RemoveUndefinedKeys(Obj(SortFragment(query))).fields == map["orderBy" := cleaned];
    } else {
      if !ValidOrderBy(query) {
        assert map["createdAt" := Undef]["createdAt" := Str("desc")] == map["createdAt" := Str("desc")];
      }
      assert SortFragment(query) == enc;
      DefinedUnchanged(Obj(enc));
    }
  }

  /** `parseQueryForPrisma` produces exactly the encoding of the typed options
      the request asks for. */
  lemma ParseQueryEncodesNormalize(query: Option<ListingQuery>)
    ensures ParseQuery(query) == Encode(Normalize(query))
  {
    var p, f, s := PaginationFragment(query), FilterFragment(query), SortFragment(query);
    var o := Normalize(query);
    assert p.Keys !! f.Keys && (p + f).Keys !! s.Keys;
    RemoveUndefinedKeysSpread(p + f, s);
    RemoveUndefinedKeysSpread(p, f);
    PaginationFragmentEncodes(query);
    FilterFragmentEncodes(query);
    SortFragmentEncodes(query);
    calc {
      ParseQuery(query);
      RemoveUndefinedKeys(Obj(p + f + s));
      Obj(RemoveUndefinedKeys(Obj(p + f)).fields + RemoveUndefinedKeys(Obj(s)).fields);
      Obj(RemoveUndefinedKeys(Obj(p)).fields + RemoveUndefinedKeys(Obj(f)).fields
          + RemoveUndefinedKeys(Obj(s)).fields);
      Obj(EncodePage(o.page) + EncodeFilter(o.filter) + map["orderBy" := EncodeSort(o.sort)]);
    }
  }

  /** The final query options use only the five option keys, always carry an
      `orderBy`, and hold no `undefined` value at any depth. */
  lemma ParseQueryShape(query: Option<ListingQuery>)
    ensures ParseQuery(query).fields.Keys <= OptionKeys
    ensures "orderBy" in ParseQuery(query).fields
    ensures Defined(ParseQuery(query))
  {
    ParseQueryEncodesNormalize(query);
  }

  /** Where the pagination of typed options lands in their encoding. */
  lemma EncodePagination(o: QueryOptions)
    ensures var r := Encode(o).fields;
      && ("skip" in r <==> o.page.Some?)
      && ("take" in r <==> o.page.Some?)
      && ("cursor" in r <==> o.page.Some? && o.page.value.cursor.Some?)
      && (o.page.Some? ==>
            && r["skip"] == Num(o.page.value.skip)
            && r["take"] == Num(o.page.value.take)
            && ("cursor" in r ==> r["cursor"] == Obj(map["id" := Num(o.page.value.cursor.value)])))
  {
    var page, rest := EncodePage(o.page), EncodeFilter(o.filter) + map["orderBy" := EncodeSort(o.sort)];
    assert rest.Keys <= {"where", "orderBy"};
    assert Encode(o).fields == page + rest;
  }

  /** Where the filter of typed options lands in their encoding. */
  lemma EncodeWhere(o: QueryOptions)
    ensures "where" in Encode(o).fields <==> o.filter.Some?
    ensures o.filter.Some? ==> Encode(o).fields["where"] == WhereContains(o.filter.value)
  {
    var page, filter := EncodePage(o.page), EncodeFilter(o.filter);
    assert page.Keys <= {"skip", "take", "cursor"};
    assert Encode(o).fields == page + filter + map["orderBy" := EncodeSort(o.sort)];
  }

  /** Pagination in the final options: `skip` and `take` appear together, and
      only when both are numbers in the request; `take` is one more than asked;
      `cursor` appears exactly when the request's cursor id is a number. */
  lemma ParseQueryPagination(query: Option<ListingQuery>)
    ensures var r := ParseQuery(query).fields;
      && ("skip" in r <==> Paginated(query))
      && ("take" in r <==> Paginated(query))
      && ("cursor" in r <==> Paginated(query) && CursorId(query.value).Some?)
    ensures Paginated(query) ==>
      var r := ParseQuery(query).fields;
      && r["skip"] == Num(query.value.skip.value)
      && r["take"] == Num(query.value.take.value + 1)
      && ("cursor" in r ==> r["cursor"] == Obj(map["id" := Num(CursorId(query.value).value)]))
  {
    ParseQueryEncodesNormalize(query);
    EncodePagination(Normalize(query));
  }

  /** Filtering in the final options: a `where` key exactly when the filter is
      a non-empty string, matching it against both `body` and `title`. */
  lemma ParseQueryFilter(query: Option<ListingQuery>)
    ensures "where" in ParseQuery(query).fields <==> HasFilter(query)
    ensures HasFilter(query) ==>
      && Get(ParseQuery(query), [Key("where"), Key("OR"), Key("body"), Key("contains")]) == Str(query.value.filter.value)
      && Get(ParseQuery(query), [Key("where"), Key("OR"), Key("title"), Key("contains")]) == Str(query.value.filter.value)
  {
    ParseQueryEncodesNormalize(query);
    EncodeWhere(Normalize(query));
  }

  /** The final `orderBy` takes exactly one of three forms: a comment-count
      sort for a valid `activity` request, a single `key: order` entry for any
      other valid request, and `createdAt: 'desc'` for everything else. */
  lemma ParseQuerySort(query: Option<ListingQuery>)
    ensures var ob := ParseQuery(query).fields["orderBy"];
      && (ValidOrderBy(query) && query.value.orderBy.value.key.value == "activity" ==>
            ob == Arr([Obj(map["comments" := Obj(map["_count" := Str(query.value.orderBy.value.order.value)])])]))
      && (ValidOrderBy(query) && query.value.orderBy.value.key.value != "activity" ==>
            ob == Obj(map[query.value.orderBy.value.key.value := Str(query.value.orderBy.value.order.value)]))
      && (!ValidOrderBy(query) ==> ob == Obj(map["createdAt" := Str("desc")]))
  {
    ParseQueryEncodesNormalize(query);
  }

  /** The key list is lower case, so a request to sort by the camel-case field
      `createdAt` is not recognised and gets the default newest-first sort,
      whatever direction it asked for. */
  lemma CamelCaseCreatedAtFallsBack(q: ListingQuery)
    requires q.orderBy == Some(OrderBy(Some("createdAt"), Some("asc")))
    ensures ParseQuery(Some(q)).fields["orderBy"] == Obj(map["createdAt" := Str("desc")])
  {
    assert "createdAt" !in SortKeys;
    ParseQuerySort(Some(q));
  }
}
