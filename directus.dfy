/** The client of the reference-data service (directus/directus_service.py): how a request
    URL and its query parameters are put together, and the first-or-nothing selection of a
    qualifier record. The HTTP exchange itself is a function from (URL, query) to the rows
    the service answers with. */
module Directus {
  import opened Python
  import opened Text

  /** `DirectusQueryParams`: every field but the entity is optional. */
  datatype QueryParams = QueryParams(
    entity: string,
    filter: Option<Fields>,
    limit: Option<int>,
    sort: Option<string>,
    fields: Option<string>,
    aggregationType: Option<string>,
    aggregationField: Option<string>,
    groupBy: Option<string>)

  /** The configured service: the base URL without trailing slashes and the bearer header. */
  datatype DirectusService = DirectusService(baseUrl: string, authorization: string)

  /** The rows `response.json()["data"]` holds for a GET of the URL with the query. */
  type Server = (string, Fields) -> seq<Fields>

  // Python truthiness of the optional parameters.
  predicate SomeText(o: Option<string>) { o.Some? && |o.value| > 0 }
  predicate SomeDict(o: Option<Fields>) { o.Some? && |o.value| > 0 }
  predicate SomeCount(o: Option<int>) { o.Some? && o.value != 0 }

  /** `DirectusService.__init__`: missing arguments come from the environment; a base URL that
      is missing there too is `None`, and `None.rstrip` raises. */
  function New(baseUrl: Option<string>, token: Option<string>, env: map<string, string>): (r: Result<DirectusService>)
    ensures r.Raise? <==> !SomeText(baseUrl) && "DIRECTUS_BASE_URL" !in env
    ensures r.Raise? ==> r.exc == AttributeError
    ensures r.Ok? ==> |r.value.baseUrl| == 0 || r.value.baseUrl[|r.value.baseUrl| - 1] != '/'
  {
    var token' := if SomeText(token) then token
                  else if "DIRECTUS_TOKEN" in env then Some(env["DIRECTUS_TOKEN"]) else None;
    var base' := if SomeText(baseUrl) then baseUrl
                 else if "DIRECTUS_BASE_URL" in env then Some(env["DIRECTUS_BASE_URL"]) else None;
    if base'.None? then Raise(AttributeError)
    else Ok(DirectusService(RStrip(base'.value, {'/'}),
                            "Bearer " + (if token'.Some? then token'.value else "None")))
  }

  /** The request URL of `get_items`. */
  function ItemsUrl(svc: DirectusService, entity: string): string
  {
    svc.baseUrl + "/items/" + entity
  }

  // The entry each parameter contributes to the query, empty when the parameter is falsy.
  function FilterEntry(p: QueryParams): Fields
  {
    if SomeDict(p.filter) then [("filter", Str(Dumps(Obj(p.filter.value))))] else []
  }
  function LimitEntry(p: QueryParams): Fields
  {
    if SomeCount(p.limit) then [("limit", Int(p.limit.value))] else []
  }
  function SortEntry(p: QueryParams): Fields
  {
    if SomeText(p.sort) then [("sort", Str(p.sort.value))] else []
  }
  function FieldsEntry(p: QueryParams): Fields
  {
    if SomeText(p.fields) then [("fields", Str(p.fields.value))] else []
  }
  function AggregateEntry(p: QueryParams): Fields
  {
    if SomeText(p.aggregationType) && SomeText(p.aggregationField)
    then [("aggregate[" + p.aggregationType.value + "]", Str(p.aggregationField.value))] else []
  }
  function GroupByEntry(p: QueryParams): Fields
  {
    if SomeText(p.groupBy) then [("groupBy[]", Str(p.groupBy.value))] else []
  }

  /** The query dict `get_items` sends, in insertion order. */
  function Query(p: QueryParams): (q: Fields)
    ensures |q| <= 6
  {
    FilterEntry(p) + LimitEntry(p) + SortEntry(p) + FieldsEntry(p) + AggregateEntry(p) + GroupByEntry(p)
  }

  /** The request `get_items` issues: its URL and its query, filled in key by key. */
  method GetItemsRequest(svc: DirectusService, p: QueryParams) returns (url: string, query: Fields)
    ensures url == ItemsUrl(svc, p.entity)
    ensures query == Query(p)
  {
    url := svc.baseUrl + "/items/" + p.entity;
    query := [];
    if SomeDict(p.filter) {
      query := query + [("filter", Str(Dumps(Obj(p.filter.value))))];
    }
    assert query == FilterEntry(p);
    if SomeCount(p.limit) {
      query := query + [("limit", Int(p.limit.value))];
    }
    assert query == FilterEntry(p) + LimitEntry(p);
    if SomeText(p.sort) {
      query := query + [("sort", Str(p.sort.value))];
    }
    assert query == FilterEntry(p) + LimitEntry(p) + SortEntry(p);
    if SomeText(p.fields) {
      query := query + [("fields", Str(p.fields.value))];
    }
    assert query == FilterEntry(p) + LimitEntry(p) + SortEntry(p) + FieldsEntry(p);
    if SomeText(p.aggregationType) && SomeText(p.aggregationField) {
      query := query + [("aggregate[" + p.aggregationType.value + "]", Str(p.aggregationField.value))];
    }
    assert query == FilterEntry(p) + LimitEntry(p) + SortEntry(p) + FieldsEntry(p) + AggregateEntry(p);
    if SomeText(p.groupBy) {
      query := query + [("groupBy[]", Str(p.groupBy.value))];
    }
  }

  /** A key is in a concatenation of entries when it is in either part. */
  lemma {:induction false} HasKeyConcat(a: Fields, b: Fields, key: string)
    ensures HasKey(a + b, key) <==> HasKey(a, key) || HasKey(b, key)
  {
    if HasKey(a + b, key) {
      var k :| 0 <= k < |a + b| && (a + b)[k].0 == key;
      if k >= |a| { assert b[k - |a|].0 == key; }
    }
    if HasKey(a, key) {
      var k :| 0 <= k < |a| && a[k].0 == key;
      assert (a + b)[k].0 == key;
    }
    if HasKey(b, key) {
      var k :| 0 <= k < |b| && b[k].0 == key;
      assert (a + b)[|a| + k].0 == key;
    }
  }

  /** A one-entry dict holds exactly its own key. */
  lemma {:induction false} HasKeySingle(k: string, v: Value, key: string)
    ensures HasKey([(k, v)], key) <==> k == key
  {
    if k == key { assert [(k, v)][0].0 == key; }
  }

  /** Looking a key up past entries that do not hold it. */
  lemma {:induction false} GetPast(a: Fields, b: Fields, key: string)
    requires !HasKey(a, key)
    ensures Get(a + b, key) == Get(b, key)
    decreases |a|
  {
    if |a| > 0 {
      assert a[0].0 != key;
      assert (a + b)[1..] == a[1..] + b;
      var c := a + b;
      assert c[0] == a[0];
      assert GetOr(c, key, Null) == GetOr(c[1..], key, Null);
      assert !HasKey(a[1..], key) by {
        forall k | 0 <= k < |a[1..]| ensures a[1..][k].0 != key {
          assert a[1..][k] == a[k + 1];
        }
      }
      GetPast(a[1..], b, key);
    } else {
      assert a + b == b;
    }
  }

  /** The key each entry holds. */
  lemma {:induction false} EntryKeys(p: QueryParams, key: string)
    ensures HasKey(FilterEntry(p), key) <==> SomeDict(p.filter) && key == "filter"
    ensures HasKey(LimitEntry(p), key) <==> SomeCount(p.limit) && key == "limit"
    ensures HasKey(SortEntry(p), key) <==> SomeText(p.sort) && key == "sort"
    ensures HasKey(FieldsEntry(p), key) <==> SomeText(p.fields) && key == "fields"
    ensures HasKey(AggregateEntry(p), key) <==>
              SomeText(p.aggregationType) && SomeText(p.aggregationField) &&
              key == "aggregate[" + p.aggregationType.value + "]"
    ensures HasKey(GroupByEntry(p), key) <==> SomeText(p.groupBy) && key == "groupBy[]"
  {
    if SomeDict(p.filter) { HasKeySingle("filter", Str(Dumps(Obj(p.filter.value))), key); }
    if SomeCount(p.limit) { HasKeySingle("limit", Int(p.limit.value), key); }
    if SomeText(p.sort) { HasKeySingle("sort", Str(p.sort.value), key); }
    if SomeText(p.fields) { HasKeySingle("fields", Str(p.fields.value), key); }
    if SomeText(p.aggregationType) && SomeText(p.aggregationField) {
      HasKeySingle("aggregate[" + p.aggregationType.value + "]", Str(p.aggregationField.value), key);
    }
    if SomeText(p.groupBy) { HasKeySingle("groupBy[]", Str(p.groupBy.value), key); }
  }

  /** Which entries hold a key. */
  lemma {:induction false} QueryKey(p: QueryParams, key: string)
    ensures HasKey(Query(p), key) <==>
              (SomeDict(p.filter) && key == "filter") || (SomeCount(p.limit) && key == "limit") ||
              (SomeText(p.sort) && key == "sort") || (SomeText(p.fields) && key == "fields") ||
              (SomeText(p.aggregationType) && SomeText(p.aggregationField) &&
               key == "aggregate[" + p.aggregationType.value + "]") ||
              (SomeText(p.groupBy) && key == "groupBy[]")
  {
    EntryKeys(p, key);
    var a := FilterEntry(p) + LimitEntry(p);
    var b := a + SortEntry(p);
    var c := b + FieldsEntry(p);
    var d := c + AggregateEntry(p);
    HasKeyConcat(FilterEntry(p), LimitEntry(p), key);
    HasKeyConcat(a, SortEntry(p), key);
    HasKeyConcat(b, FieldsEntry(p), key);
    HasKeyConcat(c, AggregateEntry(p), key);
    HasKeyConcat(d, GroupByEntry(p), key);
  }

  /** Each parameter is sent only when truthy, so `limit=0` and empty strings are dropped;
      the aggregate key needs both the aggregation type and field. At most six keys are sent. */
  lemma {:induction false} QueryParameters(p: QueryParams)
    ensures HasKey(Query(p), "filter") <==> SomeDict(p.filter)
    ensures HasKey(Query(p), "limit") <==> SomeCount(p.limit)
    ensures HasKey(Query(p), "sort") <==> SomeText(p.sort)
    ensures HasKey(Query(p), "fields") <==> SomeText(p.fields)
    ensures HasKey(Query(p), "groupBy[]") <==> SomeText(p.groupBy)
    ensures SomeText(p.aggregationType) ==>
              (HasKey(Query(p), "aggregate[" + p.aggregationType.value + "]") <==> SomeText(p.aggregationField))
    ensures |Query(p)| <= 6
  {
    QueryKey(p, "filter");
    QueryKey(p, "limit");
    QueryKey(p, "sort");
    QueryKey(p, "fields");
    QueryKey(p, "groupBy[]");
    if p.aggregationType.Some? {
      assert ("aggregate[" + p.aggregationType.value + "]")[0] == 'a';
    }
    if SomeText(p.aggregationType) {
      var key := "aggregate[" + p.aggregationType.value + "]";
      QueryKey(p, key);
    }
  }

  /** The filter is sent as its JSON text and the limit as given. */
  lemma {:induction false} QueryValues(p: QueryParams)
    ensures SomeDict(p.filter) ==> Get(Query(p), "filter") == Str(Dumps(Obj(p.filter.value)))
    ensures SomeCount(p.limit) ==> Get(Query(p), "limit") == Int(p.limit.value)
  {
    var f, l, s, fi, a := FilterEntry(p), LimitEntry(p), SortEntry(p), FieldsEntry(p), AggregateEntry(p);
    AppendAssoc(f, l, s);
    AppendAssoc(f, l + s, fi);
    AppendAssoc(f, l + s + fi, a);
    AppendAssoc(f, l + s + fi + a, GroupByEntry(p));
    var rest := l + s + fi + a + GroupByEntry(p);
    if SomeCount(p.limit) {
      assert !HasKey(FilterEntry(p), "limit");
      GetPast(FilterEntry(p), rest, "limit");
    }
  }

  /** `get_event_qualifier_by_opta_id`: the first row answered for the qualifier query, or none. */
  function GetEventQualifierByOptaId(svc: DirectusService, server: Server, optaId: Value): (r: Option<Fields>)
    ensures r.Some? <==> |server(ItemsUrl(svc, "opta_event_qualifiers"), Query(QualifierParams(optaId)))| > 0
    ensures r.Some? ==> r.value == server(ItemsUrl(svc, "opta_event_qualifiers"), Query(QualifierParams(optaId)))[0]
  {
    var rows := server(ItemsUrl(svc, "opta_event_qualifiers"), Query(QualifierParams(optaId)));
    if |rows| > 0 then Some(rows[0]) else None
  }

  /** The qualifier lookup of a configured client, as the function the pipeline calls. */
  function QualifierLookup(svc: DirectusService, server: Server): (f: Value -> Option<Fields>)
    ensures forall optaId :: f(optaId) == GetEventQualifierByOptaId(svc, server, optaId)
  {
    optaId => GetEventQualifierByOptaId(svc, server, optaId)
  }

  /** The parameters of the qualifier lookup: filter on `opta_id` equal to the id, one row. */
  function QualifierParams(optaId: Value): QueryParams
  {
    QueryParams("opta_event_qualifiers", Some([("opta_id", Obj([("_eq", optaId)]))]), Some(1),
                None, None, None, None, None)
  }

  /** `json.dumps` of a one-entry dict. */
  lemma {:induction false} DumpsSingleEntry(k: string, v: Value)
    ensures Dumps(Obj([(k, v)])) == "{\"" + EscapeString(k) + "\": " + Dumps(v) + "}"
  {
    DumpsOneEntry(k, v);
    BraceGlue(EscapeString(k), Dumps(v));
  }

  lemma {:induction false} DumpsOneEntry(k: string, v: Value)
    ensures Dumps(Obj([(k, v)])) == "{" + ("\"" + EscapeString(k) + "\": " + Dumps(v)) + "}"
  {
    var f := [(k, v)];
    var entries := seq(|f|, i requires 0 <= i < |f| => "\"" + EscapeString(f[i].0) + "\": " + Dumps(f[i].1));
    assert entries == ["\"" + EscapeString(k) + "\": " + Dumps(v)];
  }

  lemma {:induction false} BraceGlue(a: string, b: string)
    ensures "{" + ("\"" + a + "\": " + b) + "}" == "{\"" + a + "\": " + b + "}"
  {
    assert "{" + "\"" == "{\"";
  }

  /** The qualifier lookup sends the filter on `opta_id` and `limit=1`, nothing else. */
  lemma {:induction false} QualifierQueryShape(optaId: Value)
    ensures Query(QualifierParams(optaId)) ==
            [("filter", Str(Dumps(Obj([("opta_id", Obj([("_eq", optaId)]))])))), ("limit", Int(1))]
  {
    var p := QualifierParams(optaId);
    var f := FilterEntry(p);
    var l := LimitEntry(p);
    assert SortEntry(p) == FieldsEntry(p) == AggregateEntry(p) == GroupByEntry(p) == [];
    assert Query(p) == f + l + [] + [] + [] + [];
    assert f + l + [] + [] + [] + [] == f + l;
  }

  /** A dict nesting one plain-key dict of one entry is written `{"id": {"eq": <v>}}`. */
  lemma {:induction false} DumpsNestedEntry(v: Value, eq: string, id: string)
    requires EscapeString(eq) == eq && EscapeString(id) == id
    ensures Dumps(Obj([(id, Obj([(eq, v)]))])) == "{\"" + id + "\": {\"" + eq + "\": " + Dumps(v) + "}}"
  {
    DumpsSingleEntry(eq, v);
    DumpsSingleEntry(id, Obj([(eq, v)]));
    NestGlue(id, eq, Dumps(v));
  }

  lemma {:induction false} NestGlue(id: string, eq: string, d: string)
    ensures "{\"" + id + "\": " + ("{\"" + eq + "\": " + d + "}") + "}" == "{\"" + id + "\": {\"" + eq + "\": " + d + "}}"
  {
    var inner := "{\"" + eq + "\": " + d + "}";
    AppendAssoc("{\"" + id, "\": ", inner);
    assert "\": " + inner == "\": {\"" + eq + "\": " + d + "}";
    assert inner + "}" == "{\"" + eq + "\": " + d + "}}";
  }

  /** The filter of the qualifier lookup is written `{"opta_id": {"_eq": <id>}}`. */
  lemma {:induction false} QualifierFilterText(optaId: Value)
    ensures Dumps(Obj([("opta_id", Obj([("_eq", optaId)]))])) == "{\"opta_id\": {\"_eq\": " + Dumps(optaId) + "}}"
  {
    PlainKeys();
    DumpsNestedEntry(optaId, "_eq", "opta_id");
    FilterPrefix();
  }

  lemma {:induction false} PlainKeys()
    ensures EscapeString("_eq") == "_eq" && EscapeString("opta_id") == "opta_id"
  {
    var eq, id := "_eq", "opta_id";
    assert forall k :: 0 <= k < |eq| ==> PlainChar(eq[k]);
    assert forall k :: 0 <= k < |id| ==> PlainChar(id[k]);
  }

  lemma {:induction false} FilterPrefix()
    ensures "{\"" + "opta_id" + "\": {\"" + "_eq" + "\": " == "{\"opta_id\": {\"_eq\": "
  {
  }

  /** The qualifier query holds that filter text and `limit=1`. */
  lemma {:induction false} QualifierQuery(optaId: Value)
    ensures Query(QualifierParams(optaId)) ==
            [("filter", Str("{\"opta_id\": {\"_eq\": " + Dumps(optaId) + "}}")), ("limit", Int(1))]
  {
    QualifierQueryShape(optaId);
    QualifierFilterText(optaId);
  }

  /** The qualifier lookup answers with the first row the service returns for
      `GET <base>/items/opta_event_qualifiers?filter={"opta_id": {"_eq": <id>}}&limit=1`,
      and with nothing when no row comes back. */
  lemma {:induction false} QualifierFirstRow(svc: DirectusService, server: Server, optaId: Value)
    ensures var rows := server(svc.baseUrl + "/items/opta_event_qualifiers",
                               [("filter", Str("{\"opta_id\": {\"_eq\": " + Dumps(optaId) + "}}")), ("limit", Int(1))]);
            (|rows| == 0 ==> GetEventQualifierByOptaId(svc, server, optaId) == None) &&
            (|rows| > 0 ==> GetEventQualifierByOptaId(svc, server, optaId) == Some(rows[0]))
  {
    QualifierQuery(optaId);
    QualifierUrl(svc);
    FirstRowOf(svc, server, optaId, svc.baseUrl + "/items/opta_event_qualifiers",
               [("filter", Str("{\"opta_id\": {\"_eq\": " + Dumps(optaId) + "}}")), ("limit", Int(1))]);
  }

  lemma {:induction false} QualifierUrl(svc: DirectusService)
    ensures ItemsUrl(svc, "opta_event_qualifiers") == svc.baseUrl + "/items/opta_event_qualifiers"
  {
    AppendAssoc(svc.baseUrl, "/items/", "opta_event_qualifiers");
    assert "/items/" + "opta_event_qualifiers" == "/items/opta_event_qualifiers";
  }

  lemma {:induction false} FirstRowOf(svc: DirectusService, server: Server, optaId: Value, url: string, query: Fields)
    requires url == ItemsUrl(svc, "opta_event_qualifiers") && query == Query(QualifierParams(optaId))
    ensures |server(url, query)| == 0 ==> GetEventQualifierByOptaId(svc, server, optaId) == None
    ensures |server(url, query)| > 0 ==> GetEventQualifierByOptaId(svc, server, optaId) == Some(server(url, query)[0])
  {
  }

  /** Removing the trailing slashes: a base URL given as `b` followed by slashes, where `b` does
      not end in a slash, is used as `b`, so the URL has exactly one slash before `items`. */
  lemma {:induction false} TrailingSlashesRemoved(b: string, slashes: nat, token: Option<string>, env: map<string, string>)
    requires |b| > 0 && b[|b| - 1] != '/'
    ensures New(Some(b + seq(slashes, _ => '/')), token, env).Ok?
    ensures New(Some(b + seq(slashes, _ => '/')), token, env).value.baseUrl == b
    ensures ItemsUrl(New(Some(b + seq(slashes, _ => '/')), token, env).value, "teams") == b + "/items/teams"
  {
    var s := b + seq(slashes, _ => '/');
    var r := RStrip(s, {'/'});
    assert forall k :: |b| <= k < |s| ==> s[k] == '/';
    assert s[..|b|] == b;
    assert s[|b| - 1] !in {'/'};
    assert |r| >= |b|;
    assert |r| <= |b|;
  }
}
