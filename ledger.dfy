/** The authority behind `new`, `amend`, `partial`, `cancel` and `retrieve`,
    as far as the interface's own tests observe it: a store of the current
    record of each transaction, keyed by owner and identifier, where every
    accepted write is a new version. */
module TransactionLedger {
  import opened Results
  import opened Wire
  import opened Transactions

  type Key = (int, string)

  function KeyOf(t: Transaction): Key {
    (t.assetManagerId, t.transactionId)
  }

  const StatusField := "transaction_status"
  const Cancelled := Str("Cancelled")

  class Ledger {
    var records: map<Key, Transaction>

    /** Every record sits under its own key and carries a version from 1 up. */
    ghost predicate Valid()
      reads this
    {
      forall k | k in records :: KeyOf(records[k]) == k && records[k].version >= 1
    }

    constructor()
      ensures Valid() && records == map[]
    {
      records := map[];
    }

    /** `retrieve` of the latest record. */
    function Retrieve(assetManagerId: int, transactionId: string): (r: Result<Transaction>)
      reads this
      requires Valid()
      ensures (assetManagerId, transactionId) !in records ==> r == Err(NotFound)
      ensures (assetManagerId, transactionId) in records ==> r == Ok(records[(assetManagerId, transactionId)])
      ensures r.Ok? ==>
        && r.value.assetManagerId == assetManagerId && r.value.transactionId == transactionId
        && r.value.version >= 1
    {
      var k := (assetManagerId, transactionId);
      if k in records then Ok(records[k]) else Err(NotFound)
    }

    /** `new`: stores the transaction as version 1 and returns it with its
        own identifier; an identifier already taken is refused. */
    method New(t: Transaction) returns (r: Result<Transaction>)
      requires Valid()
      modifies this
      ensures Valid()
      ensures KeyOf(t) in old(records) ==> r == Err(Duplicate) && records == old(records)
      ensures KeyOf(t) !in old(records) ==>
        && r == Ok(t.(version := 1))
        && records == old(records)[KeyOf(t) := t.(version := 1)]
    {
      if KeyOf(t) in records {
        return Err(Duplicate);
      }
      var stored := t.(version := 1);
      records := records[KeyOf(t) := stored];
      return Ok(stored);
    }

    /** `amend`: replaces every attribute of a known transaction by the ones
        sent and moves it to the next version. */
    method Amend(t: Transaction) returns (r: Result<Transaction>)
      requires Valid()
      modifies this
      ensures Valid()
      ensures KeyOf(t) !in old(records) ==> r == Err(NotFound) && records == old(records)
      ensures KeyOf(t) in old(records) ==>
        var stored := t.(version := old(records)[KeyOf(t)].version + 1);
        r == Ok(stored) && records == old(records)[KeyOf(t) := stored]
    {
      if KeyOf(t) !in records {
        return Err(NotFound);
      }
      var stored := t.(version := records[KeyOf(t)].version + 1);
      records := records[KeyOf(t) := stored];
      return Ok(stored);
    }

    /** `partial`: overwrites only the attributes named in `updates`, keeps the
        others, and moves the transaction to the next version. */
    method Partial(assetManagerId: int, transactionId: string, updates: map<string, Value>)
      returns (r: Result<Transaction>)
      requires Valid()
      modifies this
      ensures Valid()
      ensures (assetManagerId, transactionId) !in old(records) ==> r == Err(NotFound) && records == old(records)
      ensures (assetManagerId, transactionId) in old(records) ==>
        var before := old(records)[(assetManagerId, transactionId)];
        var stored := before.(version := before.version + 1, attributes := before.attributes + updates);
        r == Ok(stored) && records == old(records)[(assetManagerId, transactionId) := stored]
    {
      var k := (assetManagerId, transactionId);
      if k !in records {
        return Err(NotFound);
      }
      var before := records[k];
      var stored := before.(version := before.version + 1, attributes := before.attributes + updates);
      records := records[k := stored];
      return Ok(stored);
    }

    /** `cancel`: marks a known transaction Cancelled and leaves everything
        else about it, and every other record, as it was. */
    method Cancel(assetManagerId: int, transactionId: string) returns (r: Outcome)
      requires Valid()
      modifies this
      ensures Valid()
      ensures (assetManagerId, transactionId) !in old(records) ==> r == Fail(NotFound) && records == old(records)
      ensures (assetManagerId, transactionId) in old(records) ==>
        var before := old(records)[(assetManagerId, transactionId)];
        var stored := before.(attributes := before.attributes[StatusField := Cancelled]);
        r == Pass && records == old(records)[(assetManagerId, transactionId) := stored]
    {
      var k := (assetManagerId, transactionId);
      if k !in records {
        return Fail(NotFound);
      }
      var before := records[k];
      records := records[k := before.(attributes := before.attributes[StatusField := Cancelled])];
      return Pass;
    }
  }

  /** `test_New` and the first half of `test_Amend`: a new transaction comes
      back with the identifier it was sent with, at version 1. */
  method NewScenario(ledger: Ledger, t: Transaction) returns (created: Result<Transaction>)
    requires ledger.Valid() && KeyOf(t) !in ledger.records
    modifies ledger
    ensures ledger.Valid()
    ensures created.Ok? && created.value.transactionId == t.transactionId && created.value.version == 1
  {
    created := ledger.New(t);
  }

  /** `test_Amend`: amending the created transaction with a changed
      settlement date returns version 2 carrying the new date. */
  method AmendScenario(ledger: Ledger, t: Transaction, settlementDate: Value)
    returns (amended: Result<Transaction>)
    requires ledger.Valid() && KeyOf(t) !in ledger.records
    modifies ledger
    ensures ledger.Valid()
    ensures amended.Ok? && amended.value.version == 2
    ensures "settlement_date" in amended.value.attributes
    ensures amended.value.attributes["settlement_date"] == settlementDate
  {
    var created := ledger.New(t);
    var changed := created.value.(attributes := created.value.attributes["settlement_date" := settlementDate]);
    amended := ledger.Amend(changed);
  }

  /** `test_Partial`: a partial amend of the price alone returns version 2
      carrying that price. */
  method PartialScenario(ledger: Ledger, t: Transaction, price: Value) returns (amended: Result<Transaction>)
    requires ledger.Valid() && KeyOf(t) !in ledger.records
    modifies ledger
    ensures ledger.Valid()
    ensures amended.Ok? && amended.value.version == 2
    ensures "price" in amended.value.attributes && amended.value.attributes["price"] == price
  {
    var _ := ledger.New(t);
    amended := ledger.Partial(t.assetManagerId, t.transactionId, map["price" := price]);
  }

  /** `test_Cancel`: after a cancel, retrieving the transaction yields the
      same identifier with status Cancelled. */
  method CancelScenario(ledger: Ledger, t: Transaction) returns (retrieved: Result<Transaction>)
    requires ledger.Valid() && KeyOf(t) !in ledger.records
    modifies ledger
    ensures ledger.Valid()
    ensures retrieved.Ok? && retrieved.value.transactionId == t.transactionId
    ensures StatusField in retrieved.value.attributes && retrieved.value.attributes[StatusField] == Cancelled
  {
    var _ := ledger.New(t);
    var _ := ledger.Cancel(t.assetManagerId, t.transactionId);
    retrieved := ledger.Retrieve(t.assetManagerId, t.transactionId);
  }
}
