/** Request shaping and response shaping of the assets interface. */
module Assets {
  import opened Results
  import opened Text
  import opened Wire

  /** An asset as the interface handles it: owner, identifier and every other
      attribute by its field name. */
  datatype Asset = Asset(assetManagerId: int, assetId: string, attributes: map<string, Value>)

  function AssetsUrl(endpoint: string, assetManagerId: int): string {
    OwnerUrl(endpoint, "assets", assetManagerId)
  }

  /** `create_many` request: anything but a non-empty list raises ValueError
      before a request exists; otherwise one POST to the first asset's owner
      carrying one payload per asset, in order. The owners are not compared:
      a mixed batch goes to the first one's URL. */
  function CreateManyRequest(endpoint: string, assets: Batch<Asset>, encode: Asset -> Value)
    : (r: Result<Request>)
    ensures r.Err? <==> assets.One? || assets.items == []
    ensures r.Err? ==> r.error == ValueError
    ensures r.Ok? ==>
      && r.value.verb == Post && r.value.params == map[]
      && r.value.url == AssetsUrl(endpoint, assets.items[0].assetManagerId)
      && r.value.body.Arr? && |r.value.body.items| == |assets.items|
      && forall i | 0 <= i < |assets.items| :: r.value.body.items[i] == encode(assets.items[i])
  {
    if assets.One? || assets.items == [] then Err(ValueError)
    else Ok(Request(Post, AssetsUrl(endpoint, assets.items[0].assetManagerId), map[],
                    Arr(EncodeAll(assets.items, encode))))
  }

  /** `create_many` result: the elements of the response list as they came,
      not decoded. */
  function CreateManyResult(resp: Response): (r: Result<seq<Value>>)
    ensures !resp.Ok() ==> r == Err(HttpError(resp.status))
    ensures resp.Ok() ==> (r.Ok? <==> Iterate(resp.body).Some?)
    ensures r.Ok? ==> r.value == Iterate(resp.body).value
    ensures resp.Ok() && resp.body.Arr? ==> r == Ok(resp.body.items)
    ensures r.Err? && resp.Ok() ==> r.error == TypeError
  {
    if !resp.Ok() then Err(HttpError(resp.status))
    else
      var xs := Iterate(resp.body);
      if xs.None? then Err(TypeError) else Ok(xs.value)
  }

  const InactiveBody := Obj([("asset_status", Str("Inactive"))])

  /** `deactivate`: a PATCH of the record whose body sets the status to
      Inactive and nothing else. */
  function DeactivateRequest(endpoint: string, assetManagerId: int, assetId: string): (req: Request)
    ensures req.verb == Patch && req.url == RecordUrl(endpoint, "assets", assetManagerId, assetId)
    ensures req.params == map[]
    ensures req.body.Obj? && |req.body.entries| == 1
    ensures Lookup(req.body.entries, "asset_status") == Some(Str("Inactive"))
  {
    Request(Patch, RecordUrl(endpoint, "assets", assetManagerId, assetId), map[], InactiveBody)
  }

  /** The predicates of `search`; an absent list is the empty list. */
  datatype AssetQuery = AssetQuery(
    assetIds: seq<string>,
    assetClasses: seq<string>,
    assetTypes: seq<string>,
    pageNo: Value,
    pageSize: Value)

  function AssetFilters(q: AssetQuery): (fs: seq<(string, Filter)>)
    ensures DistinctKeys(fs)
  {
    [ ("asset_ids", ListFilter(q.assetIds)),
      ("asset_classes", ListFilter(q.assetClasses)),
      ("asset_types", ListFilter(q.assetTypes)),
      ("page_no", PresentFilter(q.pageNo)),
      ("page_size", TruthyFilter(q.pageSize)) ]
  }

  /** `search`: a GET to the owner's URL; each list is sent comma-joined
      exactly when non-empty, `page_no` whenever it is not None and
      `page_size` only when truthy, and nothing else is sent. */
  method Search(endpoint: string, assetManagerId: int, q: AssetQuery) returns (req: Request)
    ensures req.verb == Get && req.url == AssetsUrl(endpoint, assetManagerId) && req.body == Null
    ensures ListParam(req.params, "asset_ids", q.assetIds)
    ensures ListParam(req.params, "asset_classes", q.assetClasses)
    ensures ListParam(req.params, "asset_types", q.assetTypes)
    ensures PagingParams(req.params, q.pageNo, q.pageSize)
    ensures req.params.Keys <= {"asset_ids", "asset_classes", "asset_types", "page_no", "page_size"}
  {
    var filters := AssetFilters(q);
    var params := BuildParams(filters);
    assert Holds(params, filters[0]) && Holds(params, filters[1]) && Holds(params, filters[2]);
    assert Holds(params, filters[3]) && Holds(params, filters[4]);
    req := Request(Get, AssetsUrl(endpoint, assetManagerId), params, Null);
  }

  /** The predicates of `fields_search`. */
  datatype FieldsQuery = FieldsQuery(
    assetManagerIds: seq<int>,
    assetIds: seq<string>,
    assetClasses: seq<string>,
    assetTypes: seq<string>,
    fields: seq<string>,
    pageNo: Value,
    pageSize: Value)

  /** `[str(amid) for amid in asset_manager_ids]`. */
  function OwnerStrings(ids: seq<int>): (ss: seq<string>)
    ensures |ss| == |ids|
    ensures forall i | 0 <= i < |ids| :: ParseInt(ss[i]) == Some(ids[i]) && Comma !in ss[i]
  {
    var ss := seq(|ids|, i requires 0 <= i < |ids| => IntToDecimal(ids[i]));
    forall i | 0 <= i < |ids|
      ensures ParseInt(ss[i]) == Some(ids[i]) && Comma !in ss[i]
    {
      IntRoundTrip(ids[i]);
      IntToDecimalHasNoComma(ids[i]);
    }
    ss
  }

  function FieldsFilters(q: FieldsQuery): (fs: seq<(string, Filter)>)
    ensures DistinctKeys(fs)
  {
    [ ("asset_manager_ids", ListFilter(OwnerStrings(q.assetManagerIds))),
      ("asset_ids", ListFilter(q.assetIds)),
      ("asset_classes", ListFilter(q.assetClasses)),
      ("asset_types", ListFilter(q.assetTypes)),
      ("fields", ListFilter(q.fields)),
      ("page_no", PresentFilter(q.pageNo)),
      ("page_size", TruthyFilter(q.pageSize)) ]
  }

  /** `fields_search`: a GET to the assets root, with no owner segment; the
      owners are sent as their decimal strings, comma-joined, and `fields`
      exactly when non-empty. */
  method FieldsSearch(endpoint: string, q: FieldsQuery) returns (req: Request)
    ensures req.verb == Get && req.url == endpoint + "/assets" && req.body == Null
    ensures ListParam(req.params, "asset_manager_ids", OwnerStrings(q.assetManagerIds))
    ensures ListParam(req.params, "asset_ids", q.assetIds)
    ensures ListParam(req.params, "asset_classes", q.assetClasses)
    ensures ListParam(req.params, "asset_types", q.assetTypes)
    ensures ListParam(req.params, "fields", q.fields)
    ensures PagingParams(req.params, q.pageNo, q.pageSize)
    ensures req.params.Keys <= {"asset_manager_ids", "asset_ids", "asset_classes", "asset_types", "fields",
                                "page_no", "page_size"}
  {
    var filters := FieldsFilters(q);
    var params := BuildParams(filters);
    assert Holds(params, filters[0]) && Holds(params, filters[1]) && Holds(params, filters[2]);
    assert Holds(params, filters[3]) && Holds(params, filters[4]) && Holds(params, filters[5]);
    assert Holds(params, filters[6]);
    req := Request(Get, endpoint + "/assets", params, Null);
  }

  /** Python `len` is defined on a list, a dict and a string only. */
  predicate HasLength(v: Value) {
    v.Arr? || v.Obj? || v.Str?
  }

  /** `fields_search` result: the response body itself, not decoded; taking
      `len` of it for the log line raises TypeError for a body without a
      length. */
  function FieldsSearchResult(resp: Response): (r: Result<Value>)
    ensures !resp.Ok() ==> r == Err(HttpError(resp.status))
    ensures resp.Ok() ==> (r.Ok? <==> HasLength(resp.body))
    ensures r.Ok? ==> r.value == resp.body
    ensures resp.Ok() && !HasLength(resp.body) ==> r == Err(TypeError)
  {
    if !resp.Ok() then Err(HttpError(resp.status))
    else if !HasLength(resp.body) then Err(TypeError)
    else Ok(resp.body)
  }

  /** The owner ids sent by `fields_search` read back, in order, as the ids
      given. */
  lemma {:induction false} FieldsSearchOwnersRoundTrip(params: map<string, Value>, ids: seq<int>)
    requires ListParam(params, "asset_manager_ids", OwnerStrings(ids))
    requires ids != []
    ensures "asset_manager_ids" in params && params["asset_manager_ids"].Str?
    ensures var pieces := Split(params["asset_manager_ids"].s, Comma);
      |pieces| == |ids| && forall i | 0 <= i < |ids| :: ParseInt(pieces[i]) == Some(ids[i])
  {
    var ss := OwnerStrings(ids);
    ListParamRoundTrip(params, "asset_manager_ids", ss);
  }

  /** `clear` request: DELETE of the owner's data. */
  function ClearRequest(endpoint: string, assetManagerId: int): (req: Request)
    ensures req.verb == Delete && req.url == OwnerUrl(endpoint, "clear", assetManagerId)
    ensures req.params == map[] && req.body == Null
  {
    Request(Delete, OwnerUrl(endpoint, "clear", assetManagerId), map[], Null)
  }

  const UnknownCount := Str("Unknown")

  /** `clear` result: `response.json().get('count', 'Unknown')` — the count
      when the dict has one, the string Unknown when it has none, and
      AttributeError when the body is not a dict. */
  function ClearCount(resp: Response): (r: Result<Value>)
    ensures !resp.Ok() ==> r == Err(HttpError(resp.status))
    ensures resp.Ok() && !resp.body.Obj? ==> r == Err(AttributeError)
    ensures resp.Ok() && resp.body.Obj? ==>
      && r.Ok?
      && (Lookup(resp.body.entries, "count").Some? ==> r.value == Lookup(resp.body.entries, "count").value)
      && ((forall i | 0 <= i < |resp.body.entries| :: resp.body.entries[i].0 != "count") ==> r.value == UnknownCount)
  {
    if !resp.Ok() then Err(HttpError(resp.status))
    else if !resp.body.Obj? then Err(AttributeError)
    else
      var count := Lookup(resp.body.entries, "count");
      if count.Some? then Ok(count.value) else Ok(UnknownCount)
  }
}
