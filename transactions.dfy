/** Request shaping and response shaping of the transactions interface: what
    each call sends, what it refuses locally before sending, and how it turns
    the authority's response into its result. */
module Transactions {
  import opened Results
  import opened Text
  import opened Wire

  /** A transaction as the interface handles it: owner, identifier, the version
      the authority assigned, and every other attribute by its field name
      (`transaction_status`, `settlement_date`, `price`, ...). */
  datatype Transaction = Transaction(
    assetManagerId: int,
    transactionId: string,
    version: nat,
    attributes: map<string, Value>)

  function TransactionsUrl(endpoint: string, assetManagerId: int): string {
    OwnerUrl(endpoint, "transactions", assetManagerId)
  }

  predicate SameOwner(ts: seq<Transaction>)
    requires |ts| > 0
  {
    forall i | 0 <= i < |ts| :: ts[i].assetManagerId == ts[0].assetManagerId
  }

  /** `create_many`: refuses a non-list (ValueError) and, through
      `transactions[0]`, an empty list (IndexError); refuses a batch with more
      than one owner (AttributeError) without sending anything; otherwise one
      POST to the common owner's URL carrying every transaction, in order. */
  method CreateMany(endpoint: string, transactions: Batch<Transaction>, encode: Transaction -> Value)
    returns (r: Result<Request>)
    ensures transactions.One? ==> r == Err(ValueError)
    ensures transactions == Many([]) ==> r == Err(IndexError)
    ensures transactions.Many? && |transactions.items| > 0 ==>
      && (r.Ok? <==> SameOwner(transactions.items))
      && (r.Err? ==> r.error == AttributeError)
    ensures r.Ok? ==>
      && transactions.Many? && |transactions.items| > 0
      && r.value == Request(Post, TransactionsUrl(endpoint, transactions.items[0].assetManagerId), map[],
                            Arr(EncodeAll(transactions.items, encode)))
  {
    if transactions.One? {
      return Err(ValueError);
    }
    var items := transactions.items;
    if |items| == 0 {
      return Err(IndexError);
    }
    var owner := items[0].assetManagerId;
    var json: seq<Value> := [];
    var i := 0;
    while i < |items|
      invariant 0 <= i <= |items|
      invariant |json| == i
      invariant forall j | 0 <= j < i :: json[j] == encode(items[j]) && items[j].assetManagerId == owner
    {
      json := json + [encode(items[i])];
      if items[i].assetManagerId != owner {
        return Err(AttributeError);
      }
      i := i + 1;
    }
    assert json == EncodeAll(items, encode);
    return Ok(Request(Post, TransactionsUrl(endpoint, owner), map[], Arr(json)));
  }

  /** The predicates of `search`; an absent list predicate is the empty list
      and an absent date is Null. */
  datatype TransactionQuery = TransactionQuery(
    transactionIds: seq<string>,
    transactionStatuses: seq<string>,
    assetBookIds: seq<string>,
    counterpartyBookIds: seq<string>,
    assetIds: seq<string>,
    transactionDateStart: Value,
    transactionDateEnd: Value,
    codeTypes: seq<string>,
    codeValues: seq<string>,
    linkTypes: seq<string>,
    linkedTransactionIds: seq<string>,
    partyTypes: seq<string>,
    partyIds: seq<string>,
    referenceTypes: seq<string>,
    referenceValues: seq<string>,
    clientIds: seq<string>,
    pageNo: Value,
    pageSize: Value)

  /** The predicates of `search` in the order the source inserts them, each
      under its parameter name and with its insert rule. */
  function TransactionFilters(q: TransactionQuery): (fs: seq<(string, Filter)>)
    ensures DistinctKeys(fs)
  {
    [ ("transaction_ids", ListFilter(q.transactionIds)),
      ("transaction_statuses", ListFilter(q.transactionStatuses)),
      ("asset_book_ids", ListFilter(q.assetBookIds)),
      ("counterparty_book_ids", ListFilter(q.counterpartyBookIds)),
      ("asset_ids", ListFilter(q.assetIds)),
      ("transaction_date_start", TruthyFilter(q.transactionDateStart)),
      ("transaction_date_end", TruthyFilter(q.transactionDateEnd)),
      ("code_types", ListFilter(q.codeTypes)),
      ("code_values", ListFilter(q.codeValues)),
      ("link_types", ListFilter(q.linkTypes)),
      ("linked_transaction_ids", ListFilter(q.linkedTransactionIds)),
      ("party_types", ListFilter(q.partyTypes)),
      ("party_ids", ListFilter(q.partyIds)),
      ("reference_types", ListFilter(q.referenceTypes)),
      ("reference_values", ListFilter(q.referenceValues)),
      ("client_ids", ListFilter(q.clientIds)),
      ("page_no", PresentFilter(q.pageNo)),
      ("page_size", TruthyFilter(q.pageSize)) ]
  }

  /** A search with every predicate left at its default. */
  predicate Unfiltered(q: TransactionQuery) {
    && q.transactionIds == [] && q.transactionStatuses == [] && q.assetBookIds == []
    && q.counterpartyBookIds == [] && q.assetIds == [] && q.transactionDateStart == Null
    && q.transactionDateEnd == Null && q.codeTypes == [] && q.codeValues == [] && q.linkTypes == []
    && q.linkedTransactionIds == [] && q.partyTypes == [] && q.partyIds == [] && q.referenceTypes == []
    && q.referenceValues == [] && q.clientIds == [] && q.pageNo == Null && q.pageSize == Null
  }

  /** `search`: a GET to the owner's URL whose parameters are exactly those
      the predicates insert (a list when non-empty, comma-joined in order; a
      date when truthy; `page_no` when not None; `page_size` when truthy), and
      no parameter at all for an unfiltered search. */
  method Search(endpoint: string, assetManagerId: int, q: TransactionQuery) returns (req: Request)
    ensures req.verb == Get && req.url == TransactionsUrl(endpoint, assetManagerId) && req.body == Null
    ensures BuiltFrom(req.params, TransactionFilters(q))
    ensures PagingParams(req.params, q.pageNo, q.pageSize)
    ensures Unfiltered(q) ==> req.params == map[]
  {
    var filters := TransactionFilters(q);
    var params := BuildParams(filters);
    assert Holds(params, filters[16]) && Holds(params, filters[17]);
    if Unfiltered(q) {
      BuiltFromNothing(params, filters);
    }
    req := Request(Get, TransactionsUrl(endpoint, assetManagerId), params, Null);
  }

  /** Every list predicate of a search follows the list rule. */
  lemma SearchListPredicates(params: map<string, Value>, q: TransactionQuery)
    requires BuiltFrom(params, TransactionFilters(q))
    ensures ListParam(params, "transaction_ids", q.transactionIds)
    ensures ListParam(params, "transaction_statuses", q.transactionStatuses)
    ensures ListParam(params, "asset_book_ids", q.assetBookIds)
    ensures ListParam(params, "counterparty_book_ids", q.counterpartyBookIds)
    ensures ListParam(params, "asset_ids", q.assetIds)
    ensures ListParam(params, "code_types", q.codeTypes)
    ensures ListParam(params, "code_values", q.codeValues)
    ensures ListParam(params, "link_types", q.linkTypes)
    ensures ListParam(params, "linked_transaction_ids", q.linkedTransactionIds)
    ensures ListParam(params, "party_types", q.partyTypes)
    ensures ListParam(params, "party_ids", q.partyIds)
    ensures ListParam(params, "reference_types", q.referenceTypes)
    ensures ListParam(params, "reference_values", q.referenceValues)
    ensures ListParam(params, "client_ids", q.clientIds)
  {
    var fs := TransactionFilters(q);
    assert forall i | 0 <= i < |fs| :: Holds(params, fs[i]);
    SearchListPredicatesBefore(params, q, fs);
    SearchListPredicatesAfter(params, q, fs);
  }

  /** The list predicates before the dates. */
  lemma SearchListPredicatesBefore(params: map<string, Value>, q: TransactionQuery, fs: seq<(string, Filter)>)
    requires fs == TransactionFilters(q)
    requires forall i | 0 <= i < |fs| :: Holds(params, fs[i])
    ensures ListParam(params, "transaction_ids", q.transactionIds)
    ensures ListParam(params, "transaction_statuses", q.transactionStatuses)
    ensures ListParam(params, "asset_book_ids", q.assetBookIds)
    ensures ListParam(params, "counterparty_book_ids", q.counterpartyBookIds)
    ensures ListParam(params, "asset_ids", q.assetIds)
  {
    assert Holds(params, fs[0]) && Holds(params, fs[1]) && Holds(params, fs[2]);
    assert Holds(params, fs[3]) && Holds(params, fs[4]);
  }

  /** The list predicates after the dates. */
  lemma SearchListPredicatesAfter(params: map<string, Value>, q: TransactionQuery, fs: seq<(string, Filter)>)
    requires fs == TransactionFilters(q)
    requires forall i | 0 <= i < |fs| :: Holds(params, fs[i])
    ensures ListParam(params, "code_types", q.codeTypes)
    ensures ListParam(params, "code_values", q.codeValues)
    ensures ListParam(params, "link_types", q.linkTypes)
    ensures ListParam(params, "linked_transaction_ids", q.linkedTransactionIds)
    ensures ListParam(params, "party_types", q.partyTypes)
    ensures ListParam(params, "party_ids", q.partyIds)
    ensures ListParam(params, "reference_types", q.referenceTypes)
    ensures ListParam(params, "reference_values", q.referenceValues)
    ensures ListParam(params, "client_ids", q.clientIds)
  {
    assert Holds(params, fs[7]) && Holds(params, fs[8]) && Holds(params, fs[9]);
    assert Holds(params, fs[10]) && Holds(params, fs[11]) && Holds(params, fs[12]);
    assert Holds(params, fs[13]) && Holds(params, fs[14]) && Holds(params, fs[15]);
  }

  /** The predicates of `position_search`. */
  datatype PositionQuery = PositionQuery(
    bookIds: seq<string>,
    accountIds: seq<string>,
    accountingTypes: seq<string>,
    assetIds: seq<string>,
    positionDate: Value,
    includeCash: Value,
    pageNo: Value,
    pageSize: Value)

  function PositionFilters(q: PositionQuery): (fs: seq<(string, Filter)>)
    ensures DistinctKeys(fs)
  {
    [ ("book_ids", ListFilter(q.bookIds)),
      ("account_ids", ListFilter(q.accountIds)),
      ("accounting_types", ListFilter(q.accountingTypes)),
      ("asset_ids", ListFilter(q.assetIds)),
      ("position_date", TruthyFilter(q.positionDate)),
      ("include_cash", TruthyFilter(q.includeCash)),
      ("page_no", PresentFilter(q.pageNo)),
      ("page_size", TruthyFilter(q.pageSize)) ]
  }

  /** `position_search`: the same rules; `include_cash` is sent only when
      truthy, so its default False never is. */
  method PositionSearch(endpoint: string, assetManagerId: int, q: PositionQuery) returns (req: Request)
    ensures req.verb == Get && req.url == OwnerUrl(endpoint, "positions", assetManagerId) && req.body == Null
    ensures BuiltFrom(req.params, PositionFilters(q))
    ensures PagingParams(req.params, q.pageNo, q.pageSize)
    ensures "include_cash" in req.params <==> Truthy(q.includeCash)
    ensures q.includeCash == Bool(false) ==> "include_cash" !in req.params
  {
    var filters := PositionFilters(q);
    var params := BuildParams(filters);
    assert Holds(params, filters[5]) && Holds(params, filters[6]) && Holds(params, filters[7]);
    req := Request(Get, OwnerUrl(endpoint, "positions", assetManagerId), params, Null);
  }

  /** `positions_by_asset_manager`: `book_ids` comma-joined when given, no
      parameter otherwise. */
  function PositionsByAssetManager(endpoint: string, assetManagerId: int, bookIds: seq<string>): (req: Request)
    ensures req.verb == Get && req.url == OwnerUrl(endpoint, "positions", assetManagerId) && req.body == Null
    ensures ListParam(req.params, "book_ids", bookIds)
    ensures req.params.Keys <= {"book_ids"}
  {
    var params := if bookIds != [] then map["book_ids" := Str(Join(bookIds, Comma))] else map[];
    Request(Get, OwnerUrl(endpoint, "positions", assetManagerId), params, Null)
  }

  /** The three kinds of batch results, each under its own resource path. */
  datatype ResultKind = MtmResults | TransactionPnls | PositionPnls

  function ResultsResource(kind: ResultKind): string {
    match kind
    case MtmResults => "mtm"
    case TransactionPnls => "transaction_pnls"
    case PositionPnls => "position_pnls"
  }

  /** `new_*` results are POSTed, `amend_*` results are PUT. */
  datatype Submission = Create | Amend

  /** `new_mtm_results`, `amend_mtm_results`, `new_transaction_pnls`,
      `amend_transaction_pnls`, `new_position_pnls`, `amend_position_pnls`:
      a single object is wrapped into a one-element list (never refused), and
      the body carries one payload per item, in order. */
  method SubmitResults<T>(endpoint: string, kind: ResultKind, submission: Submission, assetManagerId: int,
                          results: Batch<T>, encode: T -> Value)
    returns (req: Request)
    ensures req.verb == (if submission == Create then Post else Put)
    ensures req.url == OwnerUrl(endpoint, ResultsResource(kind), assetManagerId) && req.params == map[]
    ensures results.One? ==> req.body == Arr([encode(results.item)])
    ensures results.Many? ==>
      && req.body.Arr? && |req.body.items| == |results.items|
      && forall i | 0 <= i < |results.items| :: req.body.items[i] == encode(results.items[i])
  {
    var items := results;
    if !items.Many? {
      items := Many([results.item]);
    }
    var list := items.items;
    var json: seq<Value> := [];
    for i := 0 to |list|
      invariant |json| == i
      invariant forall j | 0 <= j < i :: json[j] == encode(list[j])
    {
      json := json + [encode(list[i])];
    }
    if results.One? {
      assert json == [encode(results.item)];
    }
    var verb := if submission == Create then Post else Put;
    req := Request(verb, OwnerUrl(endpoint, ResultsResource(kind), assetManagerId), map[], Arr(json));
  }

  const BookTransferKeys: seq<string> :=
    ["asset_id", "source_book_id", "target_book_id", "wash_book_id", "quantity", "price", "currency"]

  /** `book_transfer` request: one POST whose body has exactly the seven keys,
      in order, each value passed through unchanged (no check on quantity or
      price). */
  function BookTransferRequest(endpoint: string, assetManagerId: int, assetId: Value, sourceBookId: Value,
                               targetBookId: Value, washBookId: Value, quantity: Value, price: Value,
                               currency: Value)
    : (req: Request)
    ensures req.verb == Post && req.url == OwnerUrl(endpoint, "book_transfer", assetManagerId)
    ensures req.params == map[]
    ensures req.body.Obj? && |req.body.entries| == |BookTransferKeys|
    ensures forall i | 0 <= i < |BookTransferKeys| :: req.body.entries[i].0 == BookTransferKeys[i]
    ensures Lookup(req.body.entries, "asset_id") == Some(assetId)
    ensures Lookup(req.body.entries, "source_book_id") == Some(sourceBookId)
    ensures Lookup(req.body.entries, "target_book_id") == Some(targetBookId)
    ensures Lookup(req.body.entries, "wash_book_id") == Some(washBookId)
    ensures Lookup(req.body.entries, "quantity") == Some(quantity)
    ensures Lookup(req.body.entries, "price") == Some(price)
    ensures Lookup(req.body.entries, "currency") == Some(currency)
  {
    var entries := [("asset_id", assetId), ("source_book_id", sourceBookId), ("target_book_id", targetBookId),
                    ("wash_book_id", washBookId), ("quantity", quantity), ("price", price),
                    ("currency", currency)];
    LookupDistinct(entries);
    assert entries[0].0 == "asset_id" && entries[1].0 == "source_book_id" && entries[2].0 == "target_book_id";
    assert entries[3].0 == "wash_book_id" && entries[4].0 == "quantity" && entries[5].0 == "price";
    assert entries[6].0 == "currency";
    Request(Post, OwnerUrl(endpoint, "book_transfer", assetManagerId), map[], Obj(entries))
  }

  /** `book_transfer` result: `deliver_json, receive_json = response.json()`
      unpacks exactly two entries, deliver first; any other length raises
      ValueError and a non-iterable body TypeError. */
  function BookTransferResult<T>(resp: Response, decode: Value -> T): (r: Result<(T, T)>)
    ensures !resp.Ok() ==> r == Err(HttpError(resp.status))
    ensures resp.Ok() && Iterate(resp.body).None? ==> r == Err(TypeError)
    ensures resp.Ok() && Iterate(resp.body).Some? ==>
      && (r.Ok? <==> |Iterate(resp.body).value| == 2)
      && (r.Err? ==> r.error == ValueError)
    ensures r.Ok? ==>
      var legs := Iterate(resp.body).value;
      |legs| == 2 && r.value == (decode(legs[0]), decode(legs[1]))
  {
    if !resp.Ok() then Err(HttpError(resp.status))
    else
      var legs := Iterate(resp.body);
      if legs.None? then Err(TypeError)
      else if |legs.value| != 2 then Err(ValueError)
      else Ok((decode(legs.value[0]), decode(legs.value[1])))
  }

  /** `depot_transfer` raises NotImplementedError whatever its arguments, so
      no request is ever built. */
  function DepotTransfer(assetManagerId: int, assetId: Value, sourceAccountId: Value,
                         targetAccountId: Value, quantity: Value)
    : (r: Result<Request>)
    ensures r == Err(NotImplementedError)
  {
    Err(NotImplementedError)
  }

  const DefaultNettingType := "Net"

  /** `net_transactions`: one POST of the member ids, in order, with the
      netting type as the only parameter; a netting type left out is "Net".
      The member list is not checked: an empty or one-element list is sent
      like any other. */
  function NetTransactionsRequest(endpoint: string, assetManagerId: int, transactionIds: seq<string>,
                                  nettingType: Option<string>)
    : (req: Request)
    ensures req.verb == Post && req.url == OwnerUrl(endpoint, "netting", assetManagerId)
    ensures req.params.Keys == {"netting_type"}
    ensures nettingType.Some? ==> req.params["netting_type"] == Str(nettingType.value)
    ensures nettingType.None? ==> req.params["netting_type"] == Str("Net")
    ensures req.body.Arr? && |req.body.items| == |transactionIds|
    ensures forall i | 0 <= i < |transactionIds| :: req.body.items[i] == Str(transactionIds[i])
  {
    var kind := if nettingType.Some? then nettingType.value else DefaultNettingType;
    var ids := seq(|transactionIds|, i requires 0 <= i < |transactionIds| => Str(transactionIds[i]));
    Request(Post, OwnerUrl(endpoint, "netting", assetManagerId), map["netting_type" := Str(kind)], Arr(ids))
  }

  /** `retrieve_netting_set` result: the first entry of the response dict,
      its key as the net transaction id and one decoded transaction per
      element of its value, same length and order. A non-dict body raises
      AttributeError (no `items`), an empty dict StopIteration. */
  function NettingSetResult<T>(resp: Response, decode: Value -> T): (r: Result<(string, seq<T>)>)
    ensures !resp.Ok() ==> r == Err(HttpError(resp.status))
    ensures resp.Ok() && !resp.body.Obj? ==> r == Err(AttributeError)
    ensures resp.Ok() && resp.body == Obj([]) ==> r == Err(StopIteration)
    ensures resp.Ok() && resp.body.Obj? && resp.body.entries != [] ==>
      (r.Ok? <==> Iterate(resp.body.entries[0].1).Some?)
    ensures resp.Ok() && resp.body.Obj? && resp.body.entries != [] && Iterate(resp.body.entries[0].1).None? ==>
      r == Err(TypeError)
    ensures r.Ok? ==>
      && resp.body.Obj? && resp.body.entries != []
      && r.value.0 == resp.body.entries[0].0
      && var members := Iterate(resp.body.entries[0].1).value;
      && |r.value.1| == |members|
      && forall i | 0 <= i < |members| :: r.value.1[i] == decode(members[i])
  {
    if !resp.Ok() then Err(HttpError(resp.status))
    else if !resp.body.Obj? then Err(AttributeError)
    else if resp.body.entries == [] then Err(StopIteration)
    else
      var (netId, members) := resp.body.entries[0];
      var decoded := DecodeAll(Response(resp.status, members), decode);
      if decoded.Err? then Err(decoded.error) else Ok((netId, decoded.value))
  }

  /** Later entries of the response are ignored: two candidate nets for one
      member are not reported, the first one wins. */
  lemma NettingSetIgnoresLaterNets<T>(status: int, first: (string, Value), rest: seq<(string, Value)>,
                                      decode: Value -> T)
    ensures NettingSetResult(Response(status, Obj([first] + rest)), decode)
         == NettingSetResult(Response(status, Obj([first])), decode)
  {
  }

  /** `clear` request: DELETE for the owner; the book ids, when given, go
      comma-joined under the key `asset_manager_ids`. */
  function ClearRequest(endpoint: string, assetManagerId: int, bookIds: seq<string>): (req: Request)
    ensures req.verb == Delete && req.url == OwnerUrl(endpoint, "clear", assetManagerId) && req.body == Null
    ensures ListParam(req.params, "asset_manager_ids", bookIds)
    ensures req.params.Keys <= {"asset_manager_ids"}
  {
    var params := if bookIds != [] then map["asset_manager_ids" := Str(Join(bookIds, Comma))] else map[];
    Request(Delete, OwnerUrl(endpoint, "clear", assetManagerId), params, Null)
  }

  /** `clear` result: the response dict itself; reading its counts with
      `.get` fails on a body that is not a dict. */
  function ClearResult(resp: Response): (r: Result<Value>)
    ensures r.Ok? <==> resp.Ok() && resp.body.Obj?
    ensures r.Ok? ==> r.value == resp.body
    ensures !resp.Ok() ==> r == Err(HttpError(resp.status))
    ensures resp.Ok() && !resp.body.Obj? ==> r == Err(AttributeError)
  {
    if !resp.Ok() then Err(HttpError(resp.status))
    else if !resp.body.Obj? then Err(AttributeError)
    else Ok(resp.body)
  }
}
