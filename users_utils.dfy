/** Reading the users page's query (src/features/users/utils.ts), and how it fits the
    encoder: a validated query, encoded and handed back to the page, reads back unchanged. */
module UsersUtils {
  import opened ApiResult
  import opened Text
  import opened Schemas
  import opened QueryParams

  /** `parseUsersSearchParams(searchParams)`: the search-params schema's `parse`; a failure
      is thrown, modelled as `Err` with the schema's issues. */
  function ParseUsersSearchParams(searchParams: map<string, ParamValue>): (r: Result<SearchParams, seq<Issue>>)
    ensures r == ParseSearchParams(searchParams)
    ensures r.Ok? ==> r.data.page >= 1
    ensures r.Ok? && "page" !in searchParams ==> r.data.page == 1
    ensures r.Err? ==> r.error != []
  {
    ParseSearchParams(searchParams)
  }

  /** The query-options object a validated query stands for: its defined keys in the
      schema's key order. */
  function OptionsOf(p: SearchParams): QueryOptions {
    [(Page, Number(p.page))] + Opt(SortBy, SortByText(p)) + Opt(Order, OrderText(p)) + Opt(Search, p.search)
  }

  /** The property for an optional string value: none when it is absent. */
  function Opt(k: Key, v: Option<string>): QueryOptions {
    if v.Some? then [(k, Str(v.value))] else []
  }

  function SortByText(p: SearchParams): Option<string> {
    if p.sortBy.Some? then Some(SortFieldName(p.sortBy.value)) else None
  }

  function OrderText(p: SearchParams): Option<string> {
    if p.order.Some? then Some(SortOrderName(p.order.value)) else None
  }

  /** The options the list loader requests: the validated query with the page size added. */
  function LoaderOptions(p: SearchParams, limit: int): QueryOptions {
    OptionsOf(p) + [(Limit, Number(limit))]
  }

  /** How a query string's pairs reach the page as search params: one entry per name,
      a name given more than once collecting all its values in order. */
  function SearchParamsOf(params: seq<(string, string)>): map<string, ParamValue>
    decreases |params|
  {
    if params == [] then map[]
    else
      var m := SearchParamsOf(params[..|params| - 1]);
      var (k, v) := params[|params| - 1];
      m[k := if k in m then WithValue(m[k], v) else Single(v)]
  }

  function WithValue(p: ParamValue, v: string): ParamValue {
    match p
    case Single(s) => Repeated([s, v])
    case Repeated(items) => Repeated(items + [v])
  }

  /** The names present are exactly the names of the pairs. */
  lemma {:induction false} SearchParamsOfKeys(params: seq<(string, string)>)
    ensures forall k :: k in SearchParamsOf(params) <==> exists i :: 0 <= i < |params| && params[i].0 == k
    decreases |params|
  {
    if params != [] {
      var init := params[..|params| - 1];
      SearchParamsOfKeys(init);
      forall k | exists i :: 0 <= i < |params| && params[i].0 == k
        ensures k in SearchParamsOf(params)
      {
        var i :| 0 <= i < |params| && params[i].0 == k;
        if i < |params| - 1 {
          assert init[i] == params[i];
        }
      }
      forall k | k in SearchParamsOf(params)
        ensures exists i :: 0 <= i < |params| && params[i].0 == k
      {
        if k != params[|params| - 1].0 {
          assert k in SearchParamsOf(init);
          var i :| 0 <= i < |init| && init[i].0 == k;
          assert params[i] == init[i];
        }
      }
    }
  }

  /** Appending a pair under a new name adds that name with its single value. */
  lemma SearchParamsOfNewName(params: seq<(string, string)>, k: string, v: string)
    requires k !in SearchParamsOf(params)
    ensures SearchParamsOf(params + [(k, v)]) == SearchParamsOf(params)[k := Single(v)]
  {
    assert (params + [(k, v)])[..|params|] == params;
  }

  /** The pair for an optional value: none when it is absent. */
  function Pair(k: string, v: Option<string>): seq<(string, string)> {
    if v.Some? then [(k, v.value)] else []
  }

  lemma EncodedOpt(k: Key, v: Option<string>)
    ensures Encoded(Opt(k, v)) == Pair(KeyName(k), v)
  {
    if v.Some? {
      assert Opt(k, v)[1..] == [];
    }
  }

  /** The pairs the encoder produces for the loader's options, spelled out. */
  lemma LoaderPairs(p: SearchParams, limit: int)
    ensures Encoded(LoaderOptions(p, limit))
         == [("page", IntToString(p.page))] + Pair("sortBy", SortByText(p)) + Pair("order", OrderText(p))
            + Pair("search", p.search) + [("limit", IntToString(limit))]
  {
    var a := [(Page, Number(p.page))];
    var b := Opt(SortBy, SortByText(p));
    var c := Opt(Order, OrderText(p));
    var d := Opt(Search, p.search);
    var e := [(Limit, Number(limit))];
    EncodedOfFive(a, b, c, d, e);
    EncodedSingle(Page, Number(p.page));
    EncodedOpt(SortBy, SortByText(p));
    EncodedOpt(Order, OrderText(p));
    EncodedOpt(Search, p.search);
    EncodedSingle(Limit, Number(limit));
  }

  lemma EncodedOfFive(a: QueryOptions, b: QueryOptions, c: QueryOptions, d: QueryOptions, e: QueryOptions)
    ensures Encoded(a + b + c + d + e) == Encoded(a) + Encoded(b) + Encoded(c) + Encoded(d) + Encoded(e)
  {
    EncodedAppend(a + b + c + d, e);
    EncodedAppend(a + b + c, d);
    EncodedAppend(a + b, c);
    EncodedAppend(a, b);
  }

  lemma EncodedSingle(k: Key, v: Value)
    requires !v.Undefined?
    ensures Encoded([(k, v)]) == [(KeyName(k), Stringify(v))]
  {
    assert [(k, v)][1..] == [];
  }

  function AddPair(m: map<string, ParamValue>, k: string, v: Option<string>): map<string, ParamValue> {
    if v.Some? then m[k := Single(v.value)] else m
  }

  /** Appending an optional pair under a new name. */
  lemma SearchParamsOfPair(params: seq<(string, string)>, k: string, v: Option<string>)
    requires k !in SearchParamsOf(params)
    ensures SearchParamsOf(params + Pair(k, v)) == AddPair(SearchParamsOf(params), k, v)
  {
    if v.Some? {
      SearchParamsOfNewName(params, k, v.value);
    } else {
      assert params + Pair(k, v) == params;
    }
  }

  /** The search params the page receives for the loader's request. */
  lemma LoaderSearchParams(p: SearchParams, limit: int)
    ensures SearchParamsOf(Encoded(LoaderOptions(p, limit)))
         == AddPair(AddPair(AddPair(map["page" := Single(IntToString(p.page))], "sortBy", SortByText(p)),
                            "order", OrderText(p)), "search", p.search)["limit" := Single(IntToString(limit))]
  {
    LoaderPairs(p, limit);
    var s0 := [("page", IntToString(p.page))];
    var s1 := s0 + Pair("sortBy", SortByText(p));
    var s2 := s1 + Pair("order", OrderText(p));
    var s3 := s2 + Pair("search", p.search);
    assert SearchParamsOf(s0) == map["page" := Single(IntToString(p.page))] by {
      assert s0[..0] == [];
    }
    SearchParamsOfPair(s0, "sortBy", SortByText(p));
    SearchParamsOfPair(s1, "order", OrderText(p));
    SearchParamsOfPair(s2, "search", p.search);
    SearchParamsOfNewName(s3, "limit", IntToString(limit));
  }

  function OptSingle(v: Option<string>): Option<ParamValue> {
    if v.Some? then Some(Single(v.value)) else None
  }

  /** Each key the schema reads, looked up in the search params of the loader's request. */
  lemma LoaderProps(p: SearchParams, limit: int)
    ensures var raw := SearchParamsOf(Encoded(LoaderOptions(p, limit)));
      && Prop'(raw, "page") == Some(Single(IntToString(p.page)))
      && Prop'(raw, "sortBy") == OptSingle(SortByText(p))
      && Prop'(raw, "order") == OptSingle(OrderText(p))
      && Prop'(raw, "search") == OptSingle(p.search)
  {
    LoaderSearchParams(p, limit);
  }

  /** Round trip: the loader's request for a validated query, read back by the page, gives
      the same query; the added `limit` is stripped as an unknown key. */
  lemma {:induction false} LoaderRoundTrip(p: SearchParams, limit: int)
    requires p.page >= 1
    ensures ParseUsersSearchParams(SearchParamsOf(Encoded(LoaderOptions(p, limit)))) == Ok(p)
  {
    var raw := SearchParamsOf(Encoded(LoaderOptions(p, limit)));
    LoaderProps(p, limit);
    NumberOfIntToString(p.page);
    assert ParsePage(Prop'(raw, "page")) == Ok(p.page);
    SortByReadsBack(p);
    OrderReadsBack(p);
    assert ParseSearch(Prop'(raw, "search")) == Ok(p.search);
  }

  lemma SortByReadsBack(p: SearchParams)
    ensures ParseSortBy(OptSingle(SortByText(p))) == Ok(p.sortBy)
  {
  }

  lemma OrderReadsBack(p: SearchParams)
    ensures ParseOrder(OptSingle(OrderText(p))) == Ok(p.order)
  {
  }

  /** Only a page of at least 1 survives the trip: the schema rejects any other page. */
  lemma LoaderRejectsPageBelowOne(p: SearchParams, limit: int)
    requires p.page < 1
    ensures ParseUsersSearchParams(SearchParamsOf(Encoded(LoaderOptions(p, limit)))).Err?
  {
    LoaderProps(p, limit);
    NumberOfIntToString(p.page);
  }

  /** `parseUsersSearchParams({ page: '2', search: 'john' })` gives `{ page: 2, search: 'john' }`. */
  lemma ParseExample()
    ensures ParseUsersSearchParams(map["page" := Single("2"), "search" := Single("john")])
         == Ok(SearchParams(2, None, None, Some("john")))
  {
    var raw := map["page" := Single("2"), "search" := Single("john")];
    NumberTwo();
    assert Prop'(raw, "page") == Some(Single("2"));
    assert ParsePage(Some(Single("2"))) == Ok(2);
    assert Prop'(raw, "sortBy") == None && Prop'(raw, "order") == None;
    assert Prop'(raw, "search") == Some(Single("john"));
    SearchParamsFromFields(raw, SearchParams(2, None, None, Some("john")));
  }
}
