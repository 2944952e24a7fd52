/** `Position`: a record of a holding whose quantity is always an exact
    Decimal, because every assignment to it goes through `Decimal(value)`. */
module Positions {
  import opened Results
  import opened Decimals

  class Position {
    var assetManagerId: int
    var bookId: string
    var accountId: string
    var accountingType: string
    var assetId: string
    /** The `_quantity` slot behind the `quantity` property. */
    var quantity: Decimal

    /** The field assignments of `__init__`, once the quantity has been
        coerced; the coercion itself, which can refuse, is `NewPosition`. */
    constructor(assetManagerId: int, bookId: string, accountId: string, accountingType: string,
                assetId: string, quantity: Decimal)
      ensures this.assetManagerId == assetManagerId && this.bookId == bookId && this.accountId == accountId
      ensures this.accountingType == accountingType && this.assetId == assetId
      ensures this.quantity == quantity
    {
      this.assetManagerId := assetManagerId;
      this.bookId := bookId;
      this.accountId := accountId;
      this.accountingType := accountingType;
      this.assetId := assetId;
      this.quantity := quantity;
    }

    /** The `quantity` getter: the last value the setter stored. */
    function Quantity(): Decimal
      reads this
    {
      quantity
    }

    /** The `quantity` setter: stores `Decimal(value)`; when the coercion
        raises, nothing is stored and the old quantity stays. No other field
        changes either way. */
    method SetQuantity(value: Number) returns (r: Outcome)
      modifies this`quantity
      ensures Coerce(value).Ok? ==> r == Pass && Quantity() == Coerce(value).value
      ensures Coerce(value).Err? ==> r == Fail(Coerce(value).error) && Quantity() == old(Quantity())
      ensures assetManagerId == old(assetManagerId) && bookId == old(bookId) && accountId == old(accountId)
      ensures accountingType == old(accountingType) && assetId == old(assetId)
    {
      var c := Coerce(value);
      if c.Err? {
        return Fail(c.error);
      }
      quantity := c.value;
      return Pass;
    }
  }

  /** `Position(...)`: the five identifying fields are stored unchanged and
      the quantity is the coercion of the argument; a quantity the coercion
      refuses makes the construction raise. `client_id` is accepted and then
      dropped: the position has no slot for it. */
  method NewPosition(assetManagerId: int, bookId: string, accountId: string, accountingType: string,
                     assetId: string, quantity: Number, clientId: Option<string>)
    returns (r: Result<Position>)
    ensures Coerce(quantity).Err? ==> r == Err(Coerce(quantity).error)
    ensures Coerce(quantity).Ok? ==> r.Ok? && fresh(r.value)
    ensures r.Ok? ==>
      && r.value.assetManagerId == assetManagerId && r.value.bookId == bookId
      && r.value.accountId == accountId && r.value.accountingType == accountingType
      && r.value.assetId == assetId && r.value.Quantity() == Coerce(quantity).value
  {
    var c := Coerce(quantity);
    if c.Err? {
      return Err(c.error);
    }
    var p := new Position(assetManagerId, bookId, accountId, accountingType, assetId, c.value);
    return Ok(p);
  }

  /** Assigning a position its own quantity leaves it exactly as it was. */
  method ReassignQuantity(p: Position) returns (r: Outcome)
    modifies p`quantity
    ensures r == Pass && p.Quantity() == old(p.Quantity())
  {
    r := p.SetQuantity(DecNumber(p.Quantity()));
  }
}
