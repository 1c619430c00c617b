/** The pending-order sweep run on every price tick
    (`update_market_price` with `_process_pending_orders`). */
module PendingOrders {
  import opened TradingTypes
  import opened Settlement

  /** Outcome of offering one resting order to the settler. */
  datatype Attempt = Attempt(engine: EngineState, executed: bool)

  /** Outcome of the first phase of a sweep over a prefix of the ledger:
      the state reached and, per order, whether it executed. */
  datatype Swept = Swept(engine: EngineState, fired: seq<bool>)

  /** The guard of the sweep loop: an order the sweep for `symbol` at
      `price` offers to the settler. */
  predicate Fires(order: Order, symbol: string, price: real) {
    order.symbol == symbol && order.status == Pending && ShouldExecute(order, price)
  }

  /** One iteration of the sweep loop: an order of the ticked symbol that is
      pending and fireable is handed to the settler. */
  function TryOrder(e: EngineState, order: Order, symbol: string, price: real): (r: Attempt)
    requires order.quantity > 0.0
    ensures r.executed <==> Fires(order, symbol, price) && Affordable(e, order, price)
    ensures r.executed ==> Settled(e, r.engine, order, price)
    ensures !r.executed ==> r.engine == e
  {
    if Fires(order, symbol, price) then
      match Execute(e, order, price)
      case Some(after) => Attempt(after, true)
      case None => Attempt(e, false)
    else Attempt(e, false)
  }

  /** The first phase of the sweep over `orders`, in list order: each
      execution changes the cash and holdings seen by the orders after it. */
  function SweepPrefix(e: EngineState, orders: seq<Order>, symbol: string, price: real): (r: Swept)
    requires AllPositive(orders)
    ensures |r.fired| == |orders|
    ensures r.engine.orders == e.orders && r.engine.marketData == e.marketData
    ensures forall i :: 0 <= i < |orders| && r.fired[i] ==> orders[i].symbol == symbol && ShouldExecute(orders[i], price)
    decreases |orders|
  {
    if orders == [] then Swept(e, [])
    else
      var prev := SweepPrefix(e, orders[..|orders| - 1], symbol, price);
      var a := TryOrder(prev.engine, orders[|orders| - 1], symbol, price);
      Swept(a.engine, prev.fired + [a.executed])
  }

  /** The orders whose flag is false, in their original order (the list
      comprehension that rebuilds `self.orders`). */
  function Kept(orders: seq<Order>, fired: seq<bool>): (r: seq<Order>)
    requires |orders| == |fired|
    ensures |r| <= |orders|
    ensures forall o :: o in r ==> exists i :: 0 <= i < |orders| && !fired[i] && orders[i] == o
    decreases |orders|
  {
    if orders == [] then []
    else
      var n := |orders| - 1;
      Kept(orders[..n], fired[..n]) + (if fired[n] then [] else [orders[n]])
  }

  /** The orders whose flag is true, in their original order. */
  function FiredOrders(orders: seq<Order>, fired: seq<bool>): (r: seq<Order>)
    requires |orders| == |fired|
    ensures |r| <= |orders|
    decreases |orders|
  {
    if orders == [] then []
    else
      var n := |orders| - 1;
      FiredOrders(orders[..n], fired[..n]) + (if fired[n] then [orders[n]] else [])
  }

  /** The orders of symbols other than `symbol`, in their original order. */
  function Others(orders: seq<Order>, symbol: string): seq<Order>
    decreases |orders|
  {
    if orders == [] then []
    else
      var n := |orders| - 1;
      Others(orders[..n], symbol) + (if orders[n].symbol != symbol then [orders[n]] else [])
  }

  /** `_process_pending_orders`: settle in list order, then drop the
      executed orders from the ledger. */
  function Sweep(e: EngineState, symbol: string, price: real): (r: EngineState)
    requires AllPositive(e.orders)
    ensures r.marketData == e.marketData && |r.orders| <= |e.orders|
  {
    var s := SweepPrefix(e, e.orders, symbol, price);
    s.engine.(orders := Kept(e.orders, s.fired))
  }

  /** `update_market_price`: overwrite the symbol's snapshot, then sweep at
      the new price. */
  function Tick(e: EngineState, symbol: string, price: real, volume: real): (r: EngineState)
    requires AllPositive(e.orders)
    ensures r.marketData == e.marketData[symbol := MarketData(symbol, price, volume)]
    ensures |r.orders| <= |e.orders|
  {
    Sweep(e.(marketData := e.marketData[symbol := MarketData(symbol, price, volume)]), symbol, price)
  }

  /** A trade record that belongs to `order` executed at `price`. */
  predicate TradeFor(t: Trade, order: Order, price: real) {
    && t.id == order.id && t.symbol == order.symbol && t.orderType == order.orderType
    && t.quantity == order.quantity && t.price == price && t.total == order.quantity * price
  }

  // ---------------------------------------------------------------------
  // Lemmas about the filters

  /** Sweeping one more order is one more settlement attempt. */
  lemma SweepPrefixSnoc(e: EngineState, orders: seq<Order>, order: Order, symbol: string, price: real)
    requires AllPositive(orders) && order.quantity > 0.0
    ensures AllPositive(orders + [order])
    ensures var prev := SweepPrefix(e, orders, symbol, price);
            var a := TryOrder(prev.engine, order, symbol, price);
            SweepPrefix(e, orders + [order], symbol, price) == Swept(a.engine, prev.fired + [a.executed])
  {
    assert (orders + [order])[..|orders|] == orders;
  }

  /** One iteration of the sweep loop, from the state it starts in to the
      state and flag it ends with. */
  lemma SweepStep(e: EngineState, orders: seq<Order>, i: nat, symbol: string, price: real,
                  fired: seq<bool>, before: EngineState, after: EngineState, executed: bool)
    requires AllPositive(orders) && i < |orders|
    requires SweepPrefix(e, orders[..i], symbol, price) == Swept(before, fired)
    requires executed <==> Fires(orders[i], symbol, price) && Execute(before, orders[i], price).Some?
    requires after == if executed then Execute(before, orders[i], price).value else before
    ensures SweepPrefix(e, orders[..i + 1], symbol, price) == Swept(after, fired + [executed])
  {
    assert orders[..i + 1] == orders[..i] + [orders[i]];
    SweepPrefixSnoc(e, orders[..i], orders[i], symbol, price);
  }

  /** Rebuilding over one more order adds it at the end iff it did not execute. */
  lemma KeptSnoc(orders: seq<Order>, fired: seq<bool>, order: Order, executed: bool)
    requires |orders| == |fired|
    ensures Kept(orders + [order], fired + [executed]) == Kept(orders, fired) + (if executed then [] else [order])
  {
    assert (orders + [order])[..|orders|] == orders;
    assert (fired + [executed])[..|fired|] == fired;
  }

  lemma {:induction false} KeptFiredPartition(orders: seq<Order>, fired: seq<bool>)
    requires |orders| == |fired|
    ensures multiset(Kept(orders, fired)) + multiset(FiredOrders(orders, fired)) == multiset(orders)
    decreases |orders|
  {
    if orders != [] {
      var n := |orders| - 1;
      KeptFiredPartition(orders[..n], fired[..n]);
      assert orders == orders[..n] + [orders[n]];
      assert multiset(orders) == multiset(orders[..n]) + multiset{orders[n]};
      if fired[n] {
        assert Kept(orders, fired) == Kept(orders[..n], fired[..n]);
        assert FiredOrders(orders, fired) == FiredOrders(orders[..n], fired[..n]) + [orders[n]];
      } else {
        assert Kept(orders, fired) == Kept(orders[..n], fired[..n]) + [orders[n]];
        assert FiredOrders(orders, fired) == FiredOrders(orders[..n], fired[..n]);
      }
    }
  }

  lemma {:induction false} OthersConcat(a: seq<Order>, b: seq<Order>, symbol: string)
    ensures Others(a + b, symbol) == Others(a, symbol) + Others(b, symbol)
    decreases |b|
  {
    if b == [] {
      assert a + b == a;
    } else {
      var n := |b| - 1;
      OthersConcat(a, b[..n], symbol);
      assert (a + b)[..|a + b| - 1] == a + b[..n];
    }
  }

  /** Dropping only orders of `symbol` leaves every other order in place,
      in the same relative order. */
  lemma {:induction false} KeptKeepsOthers(orders: seq<Order>, fired: seq<bool>, symbol: string)
    requires |orders| == |fired|
    requires forall i :: 0 <= i < |orders| && fired[i] ==> orders[i].symbol == symbol
    ensures Others(Kept(orders, fired), symbol) == Others(orders, symbol)
    decreases |orders|
  {
    if orders != [] {
      var n := |orders| - 1;
      KeptKeepsOthers(orders[..n], fired[..n], symbol);
      OthersConcat(Kept(orders[..n], fired[..n]), if fired[n] then [] else [orders[n]], symbol);
      assert Others([orders[n]], symbol) == if orders[n].symbol != symbol then [orders[n]] else [];
    }
  }

  // ---------------------------------------------------------------------
  // Lemmas about the sweep

  /** The trades appended by a sweep are one per executed order, in ledger
      order, each at the tick price; the earlier history is untouched. */
  lemma {:induction false} SweepPrefixTrades(e: EngineState, orders: seq<Order>, symbol: string, price: real)
    requires AllPositive(orders)
    ensures var r := SweepPrefix(e, orders, symbol, price);
            var done := FiredOrders(orders, r.fired);
            && |r.engine.history| == |e.history| + |done|
            && r.engine.history[..|e.history|] == e.history
            && forall k :: 0 <= k < |done| ==> TradeFor(r.engine.history[|e.history| + k], done[k], price)
    decreases |orders|
  {
    if orders != [] {
      var n := |orders| - 1;
      var prev := SweepPrefix(e, orders[..n], symbol, price);
      SweepPrefixTrades(e, orders[..n], symbol, price);
      var r := SweepPrefix(e, orders, symbol, price);
      assert r.fired[..n] == prev.fired;
    }
  }

  /** Cash over a sweep: the balance falls by exactly the signed totals of
      the trades the sweep appends, and each appended trade carries the
      running balance just after it. */
  lemma {:induction false} SweepPrefixCash(e: EngineState, orders: seq<Order>, symbol: string, price: real)
    requires AllPositive(orders)
    ensures |SweepPrefix(e, orders, symbol, price).engine.history| >= |e.history|
    ensures var r := SweepPrefix(e, orders, symbol, price);
            var added := r.engine.history[|e.history|..];
            && r.engine.history[..|e.history|] == e.history
            && r.engine.balance == e.balance - Signed(added)
            && RunningBalances(e.balance, added)
    decreases |orders|
  {
    if orders != [] {
      var n := |orders| - 1;
      var prev := SweepPrefix(e, orders[..n], symbol, price);
      SweepPrefixCash(e, orders[..n], symbol, price);
      var o := orders[n];
      var a := TryOrder(prev.engine, o, symbol, price);
      if a.executed {
        SettledCash(e.balance, |e.history|, prev.engine, a.engine, o, price);
      }
    }
  }

  /** The sweep keeps the invariant and, at a non-negative price, solvency. */
  lemma {:induction false} SweepPrefixKeeps(e: EngineState, orders: seq<Order>, symbol: string, price: real)
    requires AllPositive(orders) && WellFormed(e)
    ensures WellFormed(SweepPrefix(e, orders, symbol, price).engine)
    ensures Solvent(e) && price >= 0.0 ==> Solvent(SweepPrefix(e, orders, symbol, price).engine)
    decreases |orders|
  {
    if orders != [] {
      var n := |orders| - 1;
      var prev := SweepPrefix(e, orders[..n], symbol, price);
      SweepPrefixKeeps(e, orders[..n], symbol, price);
      var o := orders[n];
      if Fires(o, symbol, price) && Execute(prev.engine, o, price).Some? {
        ExecuteKeepsWellFormed(prev.engine, o, price);
        if Solvent(e) && price >= 0.0 {
          ExecuteKeepsSolvent(prev.engine, o, price);
        }
      }
    }
  }

  /** A sweep for `symbol` touches no holding of any other symbol. */
  lemma {:induction false} SweepPrefixOtherHoldings(e: EngineState, orders: seq<Order>, symbol: string, price: real)
    requires AllPositive(orders)
    ensures SweepPrefix(e, orders, symbol, price).engine.portfolio - {symbol} == e.portfolio - {symbol}
    decreases |orders|
  {
    if orders != [] {
      var n := |orders| - 1;
      SweepPrefixOtherHoldings(e, orders[..n], symbol, price);
    }
  }

  /** A tick's effect on the snapshots and the ledger. */
  lemma TickLedger(e: EngineState, symbol: string, price: real, volume: real)
    requires AllPositive(e.orders)
    ensures var t := Tick(e, symbol, price, volume);
            var f := SweepPrefix(e.(marketData := e.marketData[symbol := MarketData(symbol, price, volume)]),
                                 e.orders, symbol, price).fired;
            var done := FiredOrders(e.orders, f);
            && t.marketData == e.marketData[symbol := MarketData(symbol, price, volume)]
            && t.orders == Kept(e.orders, f)
            && multiset(t.orders) + multiset(done) == multiset(e.orders)
            && Others(t.orders, symbol) == Others(e.orders, symbol)
            && (forall o :: o in done ==> o.symbol == symbol && ShouldExecute(o, price))
  {
    var e1 := e.(marketData := e.marketData[symbol := MarketData(symbol, price, volume)]);
    var r := SweepPrefix(e1, e.orders, symbol, price);
    KeptFiredPartition(e.orders, r.fired);
    KeptKeepsOthers(e.orders, r.fired, symbol);
    FiredOnlyFireable(e.orders, r.fired, symbol, price);
  }

  /** A tick's effect on the history and the holdings. */
  lemma TickTrades(e: EngineState, symbol: string, price: real, volume: real)
    requires AllPositive(e.orders)
    ensures var t := Tick(e, symbol, price, volume);
            var f := SweepPrefix(e.(marketData := e.marketData[symbol := MarketData(symbol, price, volume)]),
                                 e.orders, symbol, price).fired;
            var done := FiredOrders(e.orders, f);
            && |t.history| == |e.history| + |done|
            && t.history[..|e.history|] == e.history
            && (forall k :: 0 <= k < |done| ==> TradeFor(t.history[|e.history| + k], done[k], price))
            && t.portfolio - {symbol} == e.portfolio - {symbol}
  {
    var e1 := e.(marketData := e.marketData[symbol := MarketData(symbol, price, volume)]);
    SweepPrefixTrades(e1, e.orders, symbol, price);
    SweepPrefixOtherHoldings(e1, e.orders, symbol, price);
  }

  /** A tick: only the ticked symbol's snapshot changes; exactly the orders
      of that symbol that fired and settled leave the ledger, every other
      order keeps its relative position; one trade per executed order is
      appended in ledger order; no other symbol's holding moves. */
  lemma TickEffect(e: EngineState, symbol: string, price: real, volume: real)
    requires AllPositive(e.orders)
    ensures var t := Tick(e, symbol, price, volume);
            var f := SweepPrefix(e.(marketData := e.marketData[symbol := MarketData(symbol, price, volume)]),
                                 e.orders, symbol, price).fired;
            var done := FiredOrders(e.orders, f);
            && t.marketData == e.marketData[symbol := MarketData(symbol, price, volume)]
            && t.orders == Kept(e.orders, f)
            && multiset(t.orders) + multiset(done) == multiset(e.orders)
            && Others(t.orders, symbol) == Others(e.orders, symbol)
            && (forall o :: o in done ==> o.symbol == symbol && ShouldExecute(o, price))
            && |t.history| == |e.history| + |done|
            && t.history[..|e.history|] == e.history
            && (forall k :: 0 <= k < |done| ==> TradeFor(t.history[|e.history| + k], done[k], price))
            && t.portfolio - {symbol} == e.portfolio - {symbol}
  {
    TickLedger(e, symbol, price, volume);
    TickTrades(e, symbol, price, volume);
  }

  /** Cash over a tick: it falls by exactly the signed totals of the trades
      the tick appends, each of which carries the running balance. */
  lemma TickCash(e: EngineState, symbol: string, price: real, volume: real)
    requires AllPositive(e.orders)
    ensures var t := Tick(e, symbol, price, volume);
            && |t.history| >= |e.history|
            && t.history[..|e.history|] == e.history
            && t.balance == e.balance - Signed(t.history[|e.history|..])
            && RunningBalances(e.balance, t.history[|e.history|..])
  {
    var e1 := e.(marketData := e.marketData[symbol := MarketData(symbol, price, volume)]);
    SweepPrefixCash(e1, e.orders, symbol, price);
  }

  lemma {:induction false} FiredOnlyFireable(orders: seq<Order>, fired: seq<bool>, symbol: string, price: real)
    requires |orders| == |fired|
    requires forall i :: 0 <= i < |orders| && fired[i] ==> orders[i].symbol == symbol && ShouldExecute(orders[i], price)
    ensures forall o :: o in FiredOrders(orders, fired) ==> o.symbol == symbol && ShouldExecute(o, price)
    decreases |orders|
  {
    if orders != [] {
      var n := |orders| - 1;
      FiredOnlyFireable(orders[..n], fired[..n], symbol, price);
    }
  }

  /** A tick keeps the invariant, and at a non-negative price keeps the
      engine solvent. */
  lemma TickKeeps(e: EngineState, symbol: string, price: real, volume: real)
    requires WellFormed(e)
    ensures WellFormed(Tick(e, symbol, price, volume))
    ensures Solvent(e) && price >= 0.0 ==> Solvent(Tick(e, symbol, price, volume))
  {
    var e1 := e.(marketData := e.marketData[symbol := MarketData(symbol, price, volume)]);
    SweepPrefixKeeps(e1, e.orders, symbol, price);
    var r := SweepPrefix(e1, e.orders, symbol, price);
    var kept := Kept(e.orders, r.fired);
    forall i | 0 <= i < |kept|
      ensures kept[i].quantity > 0.0 && kept[i].status == Pending
    {
      assert kept[i] in kept;
      var j :| 0 <= j < |e.orders| && !r.fired[j] && e.orders[j] == kept[i];
    }
  }
}
