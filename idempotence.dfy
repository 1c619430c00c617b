/** When a repeated tick adds nothing. Within one sweep, executions of one
    side only ever use up the resource that side needs (cash for buys, the
    holding for sells); so if every resting order of the ticked symbol is on
    the same side, an order refused in a sweep stays refused at the same
    price, and a second identical tick is a no-op. */
module Idempotence {
  import opened TradingTypes
  import opened Settlement
  import opened PendingOrders

  /** What an order of side `t` on `symbol` consumes: cash or the holding. */
  function Resource(e: EngineState, t: OrderType, symbol: string): real {
    if t == Buy then e.balance else Held(e.portfolio, symbol)
  }

  /** How much of that resource the order needs at `price`. */
  function Need(order: Order, price: real): real {
    if order.orderType == Buy then order.quantity * price else order.quantity
  }

  /** Every order of `symbol` in `orders` is on side `t`. */
  predicate OneSided(orders: seq<Order>, symbol: string, t: OrderType) {
    forall i :: 0 <= i < |orders| && orders[i].symbol == symbol ==> orders[i].orderType == t
  }

  predicate NoneFired(fired: seq<bool>) {
    forall i :: 0 <= i < |fired| ==> !fired[i]
  }

  /** Over a one-sided ledger the resource only shrinks during a sweep, and
      every order that fired but was refused needs more than what is left
      at the end. */
  lemma {:induction false} SweepPrefixStarves(e: EngineState, orders: seq<Order>, symbol: string, price: real, t: OrderType)
    requires AllPositive(orders) && OneSided(orders, symbol, t) && price >= 0.0
    ensures var r := SweepPrefix(e, orders, symbol, price);
            && Resource(r.engine, t, symbol) <= Resource(e, t, symbol)
            && forall i :: 0 <= i < |orders| && !r.fired[i] && Fires(orders[i], symbol, price)
                 ==> Resource(r.engine, t, symbol) < Need(orders[i], price)
    decreases |orders|
  {
    if orders != [] {
      var n := |orders| - 1;
      var prev := SweepPrefix(e, orders[..n], symbol, price);
      SweepPrefixStarves(e, orders[..n], symbol, price, t);
      var o := orders[n];
      var a := TryOrder(prev.engine, o, symbol, price);
      var r := SweepPrefix(e, orders, symbol, price);
      assert r.fired == prev.fired + [a.executed];
      if a.executed {
        assert o.orderType == t;
        assert o.quantity * price >= 0.0;
        assert Resource(a.engine, t, symbol) <= Resource(prev.engine, t, symbol);
      }
      forall i | 0 <= i < |orders| && !r.fired[i] && Fires(orders[i], symbol, price)
        ensures Resource(r.engine, t, symbol) < Need(orders[i], price)
      {
        if i == n {
          assert o.orderType == t;
        } else {
          assert orders[..n][i] == orders[i];
        }
      }
    }
  }

  /** A sweep in which no order the sweep offers is affordable changes nothing. */
  lemma {:induction false} SweepPrefixIdle(e: EngineState, orders: seq<Order>, symbol: string, price: real)
    requires AllPositive(orders)
    requires forall i :: 0 <= i < |orders| && Fires(orders[i], symbol, price) ==> !Affordable(e, orders[i], price)
    ensures SweepPrefix(e, orders, symbol, price).engine == e
    ensures NoneFired(SweepPrefix(e, orders, symbol, price).fired)
    decreases |orders|
  {
    if orders != [] {
      var n := |orders| - 1;
      SweepPrefixIdle(e, orders[..n], symbol, price);
    }
  }

  lemma {:induction false} KeptAll(orders: seq<Order>, fired: seq<bool>)
    requires |orders| == |fired| && NoneFired(fired)
    ensures Kept(orders, fired) == orders
    decreases |orders|
  {
    if orders != [] {
      var n := |orders| - 1;
      KeptAll(orders[..n], fired[..n]);
      assert orders == orders[..n] + [orders[n]];
    }
  }

  /** With every resting order of the ticked symbol on one side and a
      non-negative price, delivering the same tick twice is the same as
      delivering it once: the second delivery executes nothing. */
  lemma TickTwiceOneSided(e: EngineState, symbol: string, price: real, volume: real, t: OrderType)
    requires AllPositive(e.orders) && OneSided(e.orders, symbol, t) && price >= 0.0
    ensures AllPositive(Tick(e, symbol, price, volume).orders)
    ensures Tick(Tick(e, symbol, price, volume), symbol, price, volume) == Tick(e, symbol, price, volume)
  {
    var snap := MarketData(symbol, price, volume);
    var e0 := e.(marketData := e.marketData[symbol := snap]);
    var r := SweepPrefix(e0, e.orders, symbol, price);
    var e1 := Tick(e, symbol, price, volume);
    assert e1 == r.engine.(orders := Kept(e.orders, r.fired));
    SweepPrefixStarves(e0, e.orders, symbol, price, t);
    forall i | 0 <= i < |e1.orders|
      ensures e1.orders[i].quantity > 0.0
      ensures Fires(e1.orders[i], symbol, price) ==> !Affordable(e1, e1.orders[i], price)
    {
      assert e1.orders[i] in e1.orders;
      var j :| 0 <= j < |e.orders| && !r.fired[j] && e.orders[j] == e1.orders[i];
    }
    assert e1.marketData[symbol := snap] == e1.marketData;
    assert e1.(marketData := e1.marketData[symbol := snap]) == e1;
    SweepPrefixIdle(e1, e1.orders, symbol, price);
    KeptAll(e1.orders, SweepPrefix(e1, e1.orders, symbol, price).fired);
  }
}
