/** How a broker fill changes a lot: quantity-weighted entries, exits that bank realized P&L, the
    bracket armed with a new lot. */
module Fills {
  import opened Trading

  datatype OrderStatus = SUBMITTED | OPEN | COMPLETE | OTHER

  /** A row of the broker's order book. The tag stands for the idempotency key it was derived from:
      the hash is taken to be injective. */
  datatype BrokerOrder = BrokerOrder(
    id: Id,
    tag: Option<Id>,
    instrument: Key,
    side: Side,
    status: OrderStatus,
    averagePrice: Option<real>,
    filled: int
  )

  /** A lot's intended exit prices and, once armed, the ids of its trigger rules. */
  datatype Bracket = Bracket(target: Option<real>, stop: Option<real>, gap: Option<real>, targetRule: Option<Id>, stopRule: Option<Id>)

  const NO_BRACKET := Bracket(None, None, None, None, None)

  datatype Lot = Lot(
    instrument: Key,
    side: Side,
    entryPrice: Option<real>,
    entryQuantity: int,
    remaining: int,
    realized: real,
    open: bool,
    bracket: Bracket
  )

  // ---- brackets --------------------------------------------------------------------------------

  /** `(target, stop)` five percent around the fill, mirrored for a short. */
  function DefaultBracket(average: real, side: Side): (real, real) {
    if side == BUY then (average * 1.05, average * 0.95) else (average * 0.95, average * 1.05)
  }

  /** With a positive price the default target is on the profitable side of the fill and the default
      stop on the losing side, both at the same distance. */
  lemma DefaultBracketProtects(average: real, side: Side)
    requires average > 0.0
    ensures var (target, stop) := DefaultBracket(average, side);
            && RealizedPnl(average, target, 1, side) == average * 0.05
            && RealizedPnl(average, stop, 1, side) == -average * 0.05
  {
  }

  /** A leg gets a rule exactly when it has a price; a lot without prices stays as it is. */
  function Armed(lot: Lot, target: Option<real>, stop: Option<real>, gap: Option<real>, targetRule: Id, stopRule: Id): Lot {
    if target.None? && stop.None? then lot
    else lot.(bracket := Bracket(target, stop, gap,
                                 if target.Some? then Some(targetRule) else None,
                                 if stop.Some? then Some(stopRule) else None))
  }

  // ---- one fill --------------------------------------------------------------------------------

  function RealizedPnl(entryPrice: real, exitPrice: real, quantity: int, side: Side): real {
    (exitPrice - entryPrice) * quantity as real * Sign(side)
  }

  function NewLot(instrument: Key, side: Side, price: real, quantity: int): Lot {
    Lot(instrument, side, Some(price), quantity, quantity, 0.0, true, NO_BRACKET)
  }

  /** The quantity-weighted average of two entries. */
  function Average(prior: real, had: int, price: real, quantity: int): real {
    if had + quantity != 0 then (prior * had as real + price * quantity as real) / (had + quantity) as real else price
  }

  /** Another entry into an existing lot: re-averaged over everything ever entered. */
  function EntryInto(lot: Lot, price: real, quantity: int): Lot {
    var prior := if lot.entryPrice.Some? then lot.entryPrice.value else 0.0;
    lot.(entryPrice := Some(Average(prior, lot.entryQuantity, price, quantity)),
         entryQuantity := lot.entryQuantity + quantity,
         remaining := lot.remaining + quantity)
  }

  /** An exit: what remains never goes below zero, and at zero the lot closes. */
  function ExitFrom(lot: Lot, price: real, quantity: int): Lot
    requires lot.entryPrice.Some?
  {
    var left := Max(lot.remaining - quantity, 0);
    lot.(remaining := left,
         realized := lot.realized + RealizedPnl(lot.entryPrice.value, price, quantity, lot.side),
         open := left != 0 && lot.open)
  }

  function LivePnl(lot: Lot, ltp: real): real {
    if lot.entryPrice.None? then 0.0
    else (ltp - lot.entryPrice.value) * lot.remaining as real * Sign(lot.side)
  }

  /** A confirmed fill has a price and a positive quantity; anything else changes nothing. */
  predicate Fillable(order: BrokerOrder) { order.averagePrice.Some? && order.filled > 0 }
}
