/** Order placement (`place_order`): append to the ledger, then try to
    execute at once against the current snapshot. */
module Placement {
  import opened TradingTypes
  import opened Settlement

  /** Result of a placement: the new state and the order handed back. */
  datatype Placed = Placed(engine: EngineState, order: Order)

  /** The order as created: its id is the number of resting orders plus one. */
  function NewOrder(e: EngineState, symbol: string, orderType: OrderType, quantity: real, targetPrice: real): Order {
    Order(|e.orders| + 1, symbol, orderType, quantity, targetPrice, Pending)
  }

  /** Whether a new order executes on placement: a snapshot of its symbol
      exists, the order fires at that price and the settler accepts it. */
  predicate ExecutesOnPlacement(e: EngineState, order: Order) {
    && order.symbol in e.marketData
    && ShouldExecute(order, e.marketData[order.symbol].price)
    && Affordable(e, order, e.marketData[order.symbol].price)
  }

  /** `place_order`. An order that settles at once leaves the ledger as it
      was and comes back `Executed`; otherwise it rests at the end of the
      ledger and comes back `Pending`. */
  function Place(e: EngineState, symbol: string, orderType: OrderType, quantity: real, targetPrice: real): (r: Placed)
    requires quantity > 0.0
    ensures var o := NewOrder(e, symbol, orderType, quantity, targetPrice);
            && r.order.(status := Pending) == o
            && (r.order.status == Executed <==> ExecutesOnPlacement(e, o))
            && (r.order.status == Executed ==> Settled(e, r.engine, o, e.marketData[symbol].price))
            && (r.order.status != Executed ==> r.order == o && r.engine == e.(orders := e.orders + [o]))
  {
    var order := NewOrder(e, symbol, orderType, quantity, targetPrice);
    var appended := e.(orders := e.orders + [order]);
    if symbol in e.marketData && ShouldExecute(order, e.marketData[symbol].price) then
      match Execute(appended, order, e.marketData[symbol].price)
      case Some(after) => Placed(after.(orders := e.orders), order.(status := Executed))
      case None => Placed(appended, order)
    else Placed(appended, order)
  }

  /** Placement keeps the invariant and solvency (it settles only at a
      snapshot price, which solvency already takes as non-negative). */
  lemma PlaceKeeps(e: EngineState, symbol: string, orderType: OrderType, quantity: real, targetPrice: real)
    requires WellFormed(e) && quantity > 0.0
    ensures WellFormed(Place(e, symbol, orderType, quantity, targetPrice).engine)
    ensures Solvent(e) ==> Solvent(Place(e, symbol, orderType, quantity, targetPrice).engine)
  {
    var order := NewOrder(e, symbol, orderType, quantity, targetPrice);
    if ExecutesOnPlacement(e, order) {
      var price := e.marketData[symbol].price;
      ExecuteKeepsWellFormed(e, order, price);
      if Solvent(e) {
        ExecuteKeepsSolvent(e, order, price);
      }
    }
  }

  /** Ids are not unique: an order that executes on placement does not stay
      in the ledger, so the next placement is given the same id. */
  lemma ExecutedPlacementIdReused(e: EngineState, symbol: string, orderType: OrderType, quantity: real, targetPrice: real,
                                  symbol2: string, orderType2: OrderType, quantity2: real, targetPrice2: real)
    requires quantity > 0.0 && quantity2 > 0.0
    requires Place(e, symbol, orderType, quantity, targetPrice).order.status == Executed
    ensures var first := Place(e, symbol, orderType, quantity, targetPrice);
            Place(first.engine, symbol2, orderType2, quantity2, targetPrice2).order.id == first.order.id
  {
  }
}
