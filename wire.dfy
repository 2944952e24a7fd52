/** What crosses the remote boundary: Python values as the interfaces put them
    into query parameters and bodies, the request a call sends and the response
    it gets back. The HTTP exchange itself is not modelled: a request is a
    value, and so is the response that some caller-supplied step returns. */
module Wire {
  import opened Results
  import opened Text
  import opened Decimals

  /** A Python value of the kinds the interfaces send and decode. A mapping
      keeps its entries in insertion order, as a Python dict does; a decoded
      dict never has a key twice. */
  datatype Value =
    | Null
    | Bool(b: bool)
    | Int(i: int)
    | Str(s: string)
    | Dec(d: Decimal)
    | Arr(items: seq<Value>)
    | Obj(entries: seq<(string, Value)>)

  /** Python truthiness: `if value:`. */
  predicate Truthy(v: Value) {
    match v
    case Null => false
    case Bool(b) => b
    case Int(i) => i != 0
    case Str(s) => s != ""
    case Dec(d) => d.coefficient != 0
    case Arr(items) => items != []
    case Obj(entries) => entries != []
  }

  /** What `for x in value` walks over: the items of a list, the keys of a
      dict, the one-character strings of a string; None for a value that is
      not iterable (iterating it raises TypeError). */
  function Iterate(v: Value): (r: Option<seq<Value>>)
    ensures v.Arr? ==> r == Some(v.items)
    ensures v.Obj? ==> r.Some? && |r.value| == |v.entries|
    ensures v.Str? ==> r.Some? && |r.value| == |v.s|
    ensures (v.Null? || v.Bool? || v.Int? || v.Dec?) ==> r.None?
  {
    match v
    case Arr(items) => Some(items)
    case Obj(entries) => Some(seq(|entries|, i requires 0 <= i < |entries| => Str(entries[i].0)))
    case Str(s) => Some(seq(|s|, i requires 0 <= i < |s| => Str([s[i]])))
    case _ => None
  }

  /** `d.get(key)` on a dict: the value under the first entry with that key. */
  function Lookup(entries: seq<(string, Value)>, key: string): (r: Option<Value>)
    ensures r.None? <==> forall i | 0 <= i < |entries| :: entries[i].0 != key
    ensures r.Some? ==> exists i | 0 <= i < |entries| :: entries[i] == (key, r.value)
    ensures |entries| > 0 && entries[0].0 == key ==> r == Some(entries[0].1)
  {
    if entries == [] then None
    else if entries[0].0 == key then Some(entries[0].1)
    else
      var r := Lookup(entries[1..], key);
      assert r.Some? ==> exists i | 0 <= i < |entries[1..]| :: entries[1..][i] == (key, r.value);
      assert forall i | 0 <= i < |entries[1..]| :: entries[1..][i] == entries[i + 1];
      r
  }

  datatype Verb = Get | Post | Put | Patch | Delete

  /** One HTTP request as the interface would send it: verb, URL, query
      parameters (a dict the transport encodes) and body (Null when none). */
  datatype Request = Request(verb: Verb, url: string, params: map<string, Value>, body: Value)

  /** What the remote step returns: the status code and the decoded JSON body. */
  datatype Response = Response(status: int, body: Value) {
    /** `response.ok`: false exactly when `raise_for_status()` raises, i.e. for
        4xx and 5xx statuses. */
    predicate Ok() {
      !(400 <= status < 600)
    }
  }

  /** A function argument that Python checks with `isinstance(x, list)`:
      either a list or a single object. */
  datatype Batch<T> = One(item: T) | Many(items: seq<T>)

  /** `[encode(x) for x in xs]`, where `encode` stands for the objects'
      `to_interface` method. */
  function EncodeAll<T>(xs: seq<T>, encode: T -> Value): (r: seq<Value>)
    ensures |r| == |xs|
    ensures forall i | 0 <= i < |xs| :: r[i] == encode(xs[i])
  {
    seq(|xs|, i requires 0 <= i < |xs| => encode(xs[i]))
  }

  /** The list endpoints' response handling: a failed status raises, otherwise
      `[decode(j) for j in response.json()]`, where `decode` stands for the
      `json_to_*` decoder. */
  function DecodeAll<T>(resp: Response, decode: Value -> T): (r: Result<seq<T>>)
    ensures !resp.Ok() ==> r == Err(HttpError(resp.status))
    ensures resp.Ok() ==> (r.Ok? <==> Iterate(resp.body).Some?)
    ensures r.Ok? ==> |r.value| == |Iterate(resp.body).value|
    ensures r.Ok? ==> forall i | 0 <= i < |r.value| :: r.value[i] == decode(Iterate(resp.body).value[i])
    ensures r.Err? && resp.Ok() ==> r.error == TypeError
  {
    if !resp.Ok() then Err(HttpError(resp.status))
    else
      var xs := Iterate(resp.body);
      if xs.None? then Err(TypeError)
      else Ok(seq(|xs.value|, i requires 0 <= i < |xs.value| => decode(xs.value[i])))
  }

  /** `'%s/<resource>/%s' % (endpoint, asset_manager_id)`. */
  function OwnerUrl(endpoint: string, resource: string, assetManagerId: int): string {
    endpoint + "/" + resource + "/" + IntToDecimal(assetManagerId)
  }

  /** `'%s/<resource>/%s/%s' % (endpoint, asset_manager_id, record_id)`. */
  function RecordUrl(endpoint: string, resource: string, assetManagerId: int, id: string): string {
    OwnerUrl(endpoint, resource, assetManagerId) + "/" + id
  }

  /** `if version: url += '?version=%d' % int(version)`. */
  predicate VersionRequested(version: Option<int>) {
    version.Some? && version.value != 0
  }

  const VersionQuery := "?version="

  /** A record URL with the version suffix: unchanged when no version (or
      version 0) is asked for, otherwise followed by a suffix from which the
      version reads back exactly. */
  function VersionedUrl(base: string, version: Option<int>): (url: string)
    ensures |url| >= |base| && url[..|base|] == base
    ensures url == base <==> !VersionRequested(version)
    ensures VersionRequested(version) ==>
      |url| > |base| + |VersionQuery| &&
      url[|base|..|base| + |VersionQuery|] == VersionQuery &&
      ParseInt(url[|base| + |VersionQuery|..]) == Some(version.value)
  {
    if VersionRequested(version) then
      var url := base + VersionQuery + IntToDecimal(version.value);
      IntRoundTrip(version.value);
      assert url[|base| + |VersionQuery|..] == IntToDecimal(version.value);
      url
    else base
  }

  /** `retrieve` of a transaction or an asset: GET of the record URL, with
      `?version=N` only when a non-zero version is asked for; None and 0 both
      name the latest record. */
  function RetrieveRequest(endpoint: string, resource: string, assetManagerId: int, id: string,
                           version: Option<int>)
    : (req: Request)
    ensures req.verb == Get && req.params == map[] && req.body == Null
    ensures var base := RecordUrl(endpoint, resource, assetManagerId, id);
      && |req.url| >= |base| && req.url[..|base|] == base
      && (req.url == base <==> !VersionRequested(version))
      && (VersionRequested(version) ==>
            |req.url| > |base| + |VersionQuery| &&
            req.url[|base|..|base| + |VersionQuery|] == VersionQuery &&
            ParseInt(req.url[|base| + |VersionQuery|..]) == Some(version.value))
  {
    Request(Get, VersionedUrl(RecordUrl(endpoint, resource, assetManagerId, id), version), map[], Null)
  }

  /** How one search predicate becomes a query parameter. */
  datatype Filter =
    | ListFilter(xs: seq<string>)   // `if xs: params[key] = ','.join(xs)`
    | TruthyFilter(v: Value)        // `if v: params[key] = v`
    | PresentFilter(v: Value)       // `if v is not None: params[key] = v`

  /** The value a predicate inserts, or None when it inserts nothing. */
  function FilterValue(f: Filter): Option<Value> {
    match f
    case ListFilter(xs) => if xs != [] then Some(Str(Join(xs, Comma))) else None
    case TruthyFilter(v) => if Truthy(v) then Some(v) else None
    case PresentFilter(v) => if v != Null then Some(v) else None
  }

  /** The parameter map holds exactly what the predicate inserts under its key. */
  ghost predicate Holds(params: map<string, Value>, entry: (string, Filter)) {
    && (entry.0 in params <==> FilterValue(entry.1).Some?)
    && (entry.0 in params ==> params[entry.0] == FilterValue(entry.1).value)
  }

  predicate DistinctKeys(filters: seq<(string, Filter)>) {
    forall i, j | 0 <= i < j < |filters| :: filters[i].0 != filters[j].0
  }

  /** A parameter map built from a predicate table: every predicate holds and
      no key comes from anywhere else. */
  ghost predicate BuiltFrom(params: map<string, Value>, filters: seq<(string, Filter)>) {
    && (forall i | 0 <= i < |filters| :: Holds(params, filters[i]))
    && (forall k | k in params :: exists i | 0 <= i < |filters| :: filters[i].0 == k)
  }

  /** `search_params = {}` followed by one conditional insert per predicate,
      in the order of the table. */
  method BuildParams(filters: seq<(string, Filter)>) returns (params: map<string, Value>)
    requires DistinctKeys(filters)
    ensures BuiltFrom(params, filters)
  {
    params := map[];
    for i := 0 to |filters|
      invariant forall j | 0 <= j < i :: Holds(params, filters[j])
      invariant forall k | k in params :: exists j | 0 <= j < i :: filters[j].0 == k
    {
      var v := FilterValue(filters[i].1);
      if v.Some? {
        params := params[filters[i].0 := v.value];
      }
    }
  }

  /** A list predicate is sent, comma-joined in the given order, exactly when
      it is non-empty. */
  ghost predicate ListParam(params: map<string, Value>, key: string, xs: seq<string>) {
    && (key in params <==> xs != [])
    && (key in params ==> params[key] == Str(Join(xs, Comma)))
  }

  /** A sent list predicate whose elements hold no comma splits back, on the
      server side, into exactly the list given. */
  lemma ListParamRoundTrip(params: map<string, Value>, key: string, xs: seq<string>)
    requires ListParam(params, key, xs)
    requires key in params
    requires forall i | 0 <= i < |xs| :: Comma !in xs[i]
    ensures params[key].Str? && Split(params[key].s, Comma) == xs
  {
    SplitJoin(xs, Comma);
  }

  /** Paging: `page_no` is sent whenever it is not None (so 0 is sent),
      `page_size` only when it is truthy (so 0 is dropped). */
  ghost predicate PagingParams(params: map<string, Value>, pageNo: Value, pageSize: Value) {
    && ("page_no" in params <==> pageNo != Null)
    && ("page_no" in params ==> params["page_no"] == pageNo)
    && ("page_size" in params <==> Truthy(pageSize))
    && ("page_size" in params ==> params["page_size"] == pageSize)
  }

  /** The value under the first entry with `key`, when no earlier entry has it. */
  lemma {:induction false} LookupAt(entries: seq<(string, Value)>, i: nat)
    requires i < |entries|
    requires forall j | 0 <= j < i :: entries[j].0 != entries[i].0
    ensures Lookup(entries, entries[i].0) == Some(entries[i].1)
  {
    if i > 0 {
      LookupAt(entries[1..], i - 1);
    }
  }

  /** In a dict whose keys are distinct, `get` finds every entry's own value. */
  lemma LookupDistinct(entries: seq<(string, Value)>)
    requires forall i, j | 0 <= i < j < |entries| :: entries[i].0 != entries[j].0
    ensures forall i | 0 <= i < |entries| :: Lookup(entries, entries[i].0) == Some(entries[i].1)
  {
    forall i | 0 <= i < |entries|
      ensures Lookup(entries, entries[i].0) == Some(entries[i].1)
    {
      LookupAt(entries, i);
    }
  }

  /** A table none of whose predicates inserts anything builds the empty dict. */
  lemma BuiltFromNothing(params: map<string, Value>, filters: seq<(string, Filter)>)
    requires BuiltFrom(params, filters)
    requires forall i | 0 <= i < |filters| :: FilterValue(filters[i].1) == None
    ensures params == map[]
  {
    forall k ensures k !in params {
      if exists i | 0 <= i < |filters| :: filters[i].0 == k {
        var i :| 0 <= i < |filters| && filters[i].0 == k;
        assert Holds(params, filters[i]);
      }
    }
  }
}
