# Transactions, assets and positions client core, in Dafny

This project models the client-side part of the AMaaS core SDK that decides:

- what the transactions interface and the assets interface send to the remote authority;
- what they refuse locally before anything is sent;
- how they turn the authority's response into a result.

It also models the `Position` record, whose quantity is always an exact decimal.

The HTTP exchange is not modelled as a call. It is split into two parts:

- a *request* value that an operation builds: verb, URL, query parameters and JSON body (`Wire.Request`);
- a *response* value that the operation is given: status and decoded JSON body (`Wire.Response`).

`response.ok` is read as "the status is not in 400..599". A failed status becomes `HttpError(status)`, which is what `raise_for_status` raises. Python values that cross the boundary are `Wire.Value`: null, bool, int, string, Decimal, list, and dict as an ordered entry list. The objects' `to_interface` methods and the `json_to_*` decoders are not part of this model. Operations take them as function parameters `encode` and `decode`.

Modules:

- `Results`: `Option`, `Result`, `Outcome`, and the Python exceptions the core raises.
- `Text`: `','.join`, a splitter that inverts it, and `str`/`%d` of integers with its parser.
- `Decimals`: finite `decimal.Decimal` values (sign, integer coefficient, exponent) and the coercion `Decimal(value)` from ints, strings, Decimals and `(sign, digits, exponent)` tuples, with the Python string grammar for finite numbers.
- `Wire`: JSON values, Python truthiness and iteration, requests and responses, the list-or-single argument (`Batch`), URL shapes, the `retrieve` request with its `?version=N` suffix (shared by both interfaces), and the query-parameter builder shared by every search.
- `Transactions`: request and response shaping of `TransactionsInterface`.
- `TransactionLedger`: an abstract authority behind `new`/`amend`/`partial`/`cancel`/`retrieve`, as far as the interface's unit tests observe it. It is a class whose store is a map from (owner, transaction id) to the current record.
- `Positions`: the `Position` class with its coercing `quantity` setter.
- `Assets`: request and response shaping of `AssetsInterface`.

The search builders (`search`, `position_search`, asset `search`, `fields_search`) insert parameters into a dict one conditional at a time. Each one is modelled as a table of (parameter name, insert rule) in the source's order, run by the loop `Wire.BuildParams`. That loop performs the same conditional inserts, in the same order, into an initially empty map. There are three insert rules, each modelling a guard of the source:

- `if xs:` puts `','.join(xs)`;
- `if v:` puts `v`;
- `if v is not None:` puts `v`.

Where a reader might expect a check that the code does not make, the model follows the code:

- `net_transactions` sends any member list, including an empty or one-element list. It does not reject fewer than two members locally.
- `book_transfer` checks neither quantity nor price for positivity.
- `retrieve_netting_set` takes the first entry of the response dict and ignores any further candidate nets (`Transactions.NettingSetIgnoresLaterNets`). It does not report them as an integrity error.
- `create_many` of transactions checks that all owners agree. Netting does not.
- `amend` and `partial` do not compare versions on the client side.
- `clear` of transactions sends the book ids under the query key `asset_manager_ids`, as written.

## Model

| member | source | states |
|---|---|---|
| Transactions.CreateMany | amaascore/transactions/interface.py:32-44 | A single object is refused with ValueError and an empty list with IndexError (from `transactions[0]`). A batch whose owners differ is refused with AttributeError and no request. Otherwise the result is exactly one POST to the common owner's URL whose body has one payload per transaction, in order. |
| Wire.RetrieveRequest | amaascore/transactions/interface.py:78-83 | `retrieve` of a transaction (resource `transactions`) and, identically, of an asset (resource `assets`, amaascore/assets/interface.py:89-93): GET of the record URL. The URL equals the record URL iff the version is None or 0; otherwise the record URL is followed by `?version=` and a suffix that parses back to the version asked for. |
| Transactions.Search | amaascore/transactions/interface.py:115-160 | GET to the owner's URL. Every one of the 18 predicates holds under its own key: lists are present iff non-empty and comma-joined in order, dates iff truthy, `page_no` iff not None (0 kept), `page_size` iff truthy (0 dropped). No other key appears, and an unfiltered search sends an empty map. |
| Transactions.SearchListPredicates | amaascore/transactions/interface.py:123-154 | For the parameters of a search, each of the 14 list predicates is present iff its list is non-empty, with the comma-joined list as its value. |
| Transactions.PositionSearch | amaascore/transactions/interface.py:343-367 | GET to the owner's positions URL, built by the same rules as `search`. `include_cash` is present iff truthy, so its default False is never sent. Paging follows the `page_no`/`page_size` rules. |
| Transactions.PositionsByAssetManager | amaascore/transactions/interface.py:389-393 | GET to the owner's positions URL. `book_ids` is present iff the list is non-empty, with the comma-joined list as its value, and no other parameter is sent. |
| Transactions.SubmitResults | amaascore/transactions/interface.py:169-203 | The mtm and P&L batch submissions (POST for new, PUT for amend). A single object is wrapped into a one-element list and never refused. The body has one payload per item, in order, and goes to the kind's owner URL. |
| Transactions.BookTransferRequest | amaascore/transactions/interface.py:504-507 | One POST to the owner's book-transfer URL. The body has exactly the seven keys in order, and `get` of each key yields the argument passed, unchanged. |
| Transactions.BookTransferResult | amaascore/transactions/interface.py:508-510 | Succeeds iff the response iterates to exactly two elements. The pair is (deliver, receive) decoded in response order. Any other length is ValueError and a non-iterable body is TypeError. |
| Transactions.DepotTransfer | amaascore/transactions/interface.py:515-519 | Always NotImplementedError, whatever the arguments, and no request. |
| Transactions.NetTransactionsRequest | amaascore/transactions/interface.py:445-457 | One POST with `netting_type` as the only parameter, "Net" when the caller gives none. The body has exactly the member ids, in order, with no check on how many there are. |
| Transactions.NettingSetResult | amaascore/transactions/interface.py:476-482 | The result is the first entry of the response dict: its key is the net id, and its value list is decoded element by element with the same length and order. A non-dict body raises AttributeError, an empty dict StopIteration, and a non-iterable member list TypeError. |
| Transactions.NettingSetIgnoresLaterNets | amaascore/transactions/interface.py:479 | Entries after the first never change the result of `retrieve_netting_set`. |
| Transactions.ClearRequest | amaascore/transactions/interface.py:527-529 | DELETE for the owner. The book ids are sent comma-joined under `asset_manager_ids` iff non-empty, and nothing else is sent. |
| Transactions.ClearResult | amaascore/transactions/interface.py:530-535 | The response dict itself. A non-dict body raises AttributeError (it has no `get`), and a failed status raises HttpError. |
| TransactionLedger.Ledger.Retrieve | tests/unit/transactions/interface.py:90-94 | A known key yields exactly its stored record, at a version of at least 1, with the owner and id asked for. An unknown key yields NotFound. |
| TransactionLedger.Ledger.New | tests/unit/transactions/interface.py:64-69 | A new transaction is stored and returned at version 1 with its own id. Nothing else changes, and a taken id is refused with the store unchanged. |
| TransactionLedger.Ledger.Amend | tests/unit/transactions/interface.py:71-78 | The sent record replaces the stored one at the next version. Every other record is unchanged, and an unknown id is refused (NotFound). |
| TransactionLedger.Ledger.Partial | tests/unit/transactions/interface.py:80-88 | Only the attributes named in the updates are overwritten, the rest are kept, and the version moves to the next one. An unknown id is refused (NotFound). |
| TransactionLedger.Ledger.Cancel | tests/unit/transactions/interface.py:96-102 | The record's status becomes Cancelled and everything else is kept. An unknown id is refused (NotFound). |
| TransactionLedger.NewScenario | tests/unit/transactions/interface.py:64-69 | `new` returns the id it was sent, at version 1. |
| TransactionLedger.AmendScenario | tests/unit/transactions/interface.py:71-78 | `new` followed by `amend` with a changed settlement date returns version 2 carrying that date. |
| TransactionLedger.PartialScenario | tests/unit/transactions/interface.py:80-88 | `new` followed by `partial({'price': p})` returns version 2 with price p. |
| TransactionLedger.CancelScenario | tests/unit/transactions/interface.py:96-102 | After `new` and `cancel`, `retrieve` yields the same id with status Cancelled. |
| Positions.Position.constructor | amaascore/transactions/position.py:11-19 | The five identifying fields are stored unchanged, and the quantity is the given coerced Decimal. |
| Positions.NewPosition | amaascore/transactions/position.py:11-20 | Construction coerces the quantity: a refused coercion raises its error and yields no position. Otherwise the quantity is `Decimal(quantity)` and the five fields are stored unchanged. `client_id` is accepted and not stored. |
| Positions.Position.SetQuantity | amaascore/transactions/position.py:26-33 | The getter afterwards returns the coercion of the assigned value. A refused coercion leaves the old quantity, and no other field changes either way. |
| Positions.ReassignQuantity | amaascore/transactions/position.py:22-33 | Assigning a position its own quantity succeeds and leaves the quantity as it was. |
| Decimals.Coerce | amaascore/transactions/position.py:33 | `Decimal(value)`. A Decimal comes back as itself. An int comes back with the same exact value and sign and exponent 0. A string succeeds iff it is a finite decimal numeral, with exactly its value and representation; otherwise it raises InvalidOperation. A `(sign, digits, exponent)` list or tuple succeeds iff the sign is 0 or 1 and every digit is 0..9, giving that sign, the digits' coefficient and that exponent; otherwise, and for a list or tuple whose length is not three, it raises ValueError. Anything else raises TypeError. |
| Decimals.CoerceAsTuple | amaascore/transactions/position.py:33 | Every Decimal is rebuilt exactly from its own `as_tuple()` form. |
| Decimals.CoerceTupleIsExact | amaascore/transactions/position.py:33 | `Decimal((0, (3, 1, 4), -2))` is exactly 314 × 10^-2. |
| Decimals.CoerceIdempotent | amaascore/transactions/position.py:26-33 | Coercing an already coerced value returns it unchanged. |
| Decimals.CoerceIsExact | tests/unit/transactions/interface.py:82 | `Decimal('3.14')` is exactly 314 × 10^-2, with no rounding. |
| Decimals.CoerceRefusesMalformed | amaascore/transactions/position.py:33 | "", ".", "1.2.3" and "12e" are refused rather than read as some number. |
| Decimals.ParseRender | amaascore/transactions/position.py:33 | Every Decimal has a string form that the string coercion reads back as exactly that Decimal. |
| Wire.BuildParams | amaascore/transactions/interface.py:121-158 | Running the conditional inserts of a predicate table over an empty dict leaves every predicate's rule holding under its key and no key from anywhere else. |
| Wire.BuiltFromNothing | amaascore/transactions/interface.py:121-158 | A table none of whose predicates inserts builds the empty dict. |
| Wire.ListParamRoundTrip | amaascore/transactions/interface.py:123-124 | A sent list parameter whose elements contain no comma splits back into exactly the list given. |
| Wire.VersionedUrl | amaascore/transactions/interface.py:82-83 | The `if version:` suffix: the base URL is unchanged iff no non-zero version is asked for. Otherwise `?version=` is appended and the suffix parses back to the version. |
| Wire.DecodeAll | amaascore/transactions/interface.py:162-164 | A failed status raises. Otherwise the result is one decoded element per element the body iterates to, in order, and a non-iterable body is TypeError. |
| Text.SplitJoin | amaascore/transactions/interface.py:123-124 | `','.join` of a non-empty list of comma-free strings splits back into that list. |
| Text.IntRoundTrip | amaascore/transactions/interface.py:83 | The `%d` rendering of every integer parses back to that integer. |
| Assets.CreateManyRequest | amaascore/assets/interface.py:32-39 | A single object or an empty list is refused with ValueError, and only those are. Otherwise one POST to the first asset's owner URL, with one payload per asset in order and no owner comparison. |
| Assets.CreateManyResult | amaascore/assets/interface.py:40-43 | The elements of the response as they came, not decoded. A failed status raises and a non-iterable body is TypeError. |
| Assets.DeactivateRequest | amaascore/assets/interface.py:103-107 | A PATCH of the record whose body has one entry, `asset_status`, which reads Inactive. |
| Assets.Search | amaascore/assets/interface.py:116-132 | GET to the owner's assets URL. `asset_ids`, `asset_classes` and `asset_types` are present iff non-empty, comma-joined. `page_no` is present iff not None (0 kept) and `page_size` iff truthy. No other key is sent. |
| Assets.OwnerStrings | amaascore/assets/interface.py:147 | `str` of each owner id, in order: each string parses back to its id and contains no comma. |
| Assets.FieldsSearch | amaascore/assets/interface.py:141-162 | GET to the assets root with no owner segment. The owner ids are sent as decimal strings, comma-joined, iff non-empty, and `fields` iff non-empty. The other predicates and paging follow `search`, and no other key is sent. |
| Assets.FieldsSearchResult | amaascore/assets/interface.py:163-166 | The response body itself, not decoded, when it has a length (a list, dict or string). `len` of any other body raises TypeError, and a failed status raises HttpError. |
| Assets.FieldsSearchOwnersRoundTrip | amaascore/assets/interface.py:146-147 | The sent `asset_manager_ids` value splits back into one piece per owner, each parsing to that owner id, in order. |
| Assets.ClearRequest | amaascore/assets/interface.py:187-189 | DELETE of the owner's data, with no parameters and no body. |
| Assets.ClearCount | amaascore/assets/interface.py:190-193 | The response's `count` when the dict has one and the string Unknown when it has none. A non-dict body raises AttributeError and a failed status raises HttpError. |

## Left out

- The HTTP session, URL transport, headers, `raise_for_status` details and logging are I/O. A request is a value, and a response is a value passed in.
- `to_interface`, `json_to_*` and `json_handler` are not part of this model. They are function parameters.
- `new`, `amend`, `partial`, `cancel` and `transactions_by_asset_manager` in the transactions interface are one request each with no local logic. What the tests observe of them is modelled by `TransactionLedger`, not as request values.
- `new`, `upsert`, `amend`, `partial` and `assets_by_asset_manager` in the assets interface are one request each with no local logic.
- `retrieve_mtm_results` is not modelled. It writes `book_id` into the caller's parameter dict in place (amaascore/transactions/interface.py:211) and sends that dict.
- `retrieve_transaction_pnls` and `retrieve_position_pnls` are not modelled. They send `business_date` and `book_ids` as a raw list, add `periods` only when it is truthy, and `', '.join` the book ids for the log line before any request (amaascore/transactions/interface.py:257-265, 310-318).
- `get_pnl_transactions`, `positions_by_asset_manager_book`, `allocate_transaction` and `retrieve_transaction_allocations` are not modelled. They format a URL and pass their arguments through. Allocation semantics live in classes that are not part of this model.
- Transaction link add/remove and the children classes are not part of this model. So the link-count test (tests/unit/transactions/interface.py:154-165) is not modelled.
- TransactionLedger.Ledger.Cancel: the version after a cancel is not observed by the tests, so the model keeps it unchanged. Duplicate and NotFound refusals are the model's conventions for the authority, which is not part of this model.
- Optimistic-concurrency version checking happens at the authority and the client does not do it, so it is left out.
- `Decimal(float)`, floats in general, and the strings `Infinity`, `NaN` and `1_000` are left out. Decimals are finite.
- Decimals.Coerce: it does not accept non-ASCII decimal digits (such as `"٣"`), which Python reads as digits. It does not strip non-ASCII whitespace (such as U+0085 or U+00A0); it strips only the ASCII whitespace `str.strip()` removes (space, `\t`-`\r`, `\x1c`-`\x1f`). Bools are not distinguished from ints. A tuple with a non-int part or an exponent `'F'`, `'n'` or `'N'` (infinities and NaNs) is not modelled.
- Wire.VersionedUrl: `int(version)` of a non-integer version (a string, say) is not modelled. The version is an optional integer.
- The order in which the transport encodes query parameters is not modelled, because parameters are a map.
- Positions.NewPosition: the superclass `AMaaSModel.__init__` is not part of this model, so what it does with `*args`/`**kwargs` is left out.
- Decoding a non-JSON response body is left out. The body is already a `Value`.
