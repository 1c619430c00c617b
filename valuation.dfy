/** Portfolio valuation and performance metrics (`get_portfolio_value`,
    `get_performance_metrics`). */
module Valuation {
  import opened TradingTypes
  import opened Settlement
  import opened PendingOrders
  import opened Placement

  /** The initial value that the metrics compare against: a constant, not
      the balance the engine was constructed with. */
  const InitialValue: real := 10000.0

  /** The latest price of a symbol, or 0 when there is no snapshot. */
  function PriceOf(marketData: map<string, MarketData>, symbol: string): real {
    if symbol in marketData then marketData[symbol].price else 0.0
  }

  /** What one held symbol adds to the portfolio value. */
  function Contribution(portfolio: map<string, real>, marketData: map<string, MarketData>, symbol: string): real {
    Held(portfolio, symbol) * PriceOf(marketData, symbol)
  }

  /** Sum of the contributions of the symbols in `keys`. */
  ghost function MarkedValue(portfolio: map<string, real>, marketData: map<string, MarketData>, keys: set<string>): real
    decreases keys
  {
    if keys == {} then 0.0
    else
      var s :| s in keys;
      Contribution(portfolio, marketData, s) + MarkedValue(portfolio, marketData, keys - {s})
  }

  /** Cash plus every holding valued at its latest price. */
  ghost function Value(e: EngineState): real {
    e.balance + MarkedValue(e.portfolio, e.marketData, e.portfolio.Keys)
  }

  /** The record returned by `get_performance_metrics`. */
  datatype Metrics = Metrics(
    currentValue: real,
    totalReturn: real,
    returnPercentage: real,
    totalTrades: nat,
    cashBalance: real,
    portfolioPositions: nat)

  ghost function MetricsOf(e: EngineState): Metrics {
    var v := Value(e);
    Metrics(v, v - InitialValue, (v / InitialValue - 1.0) * 100.0, |e.history|, e.balance, |e.portfolio|)
  }

  // ---------------------------------------------------------------------
  // The sum does not depend on the order in which symbols are visited

  /** Any symbol can be taken out of the sum first. */
  lemma {:induction false} MarkedValueRemove(portfolio: map<string, real>, marketData: map<string, MarketData>,
                                              keys: set<string>, s: string)
    requires s in keys
    ensures MarkedValue(portfolio, marketData, keys)
         == Contribution(portfolio, marketData, s) + MarkedValue(portfolio, marketData, keys - {s})
    decreases keys
  {
    var t :| t in keys && MarkedValue(portfolio, marketData, keys)
                        == Contribution(portfolio, marketData, t) + MarkedValue(portfolio, marketData, keys - {t});
    if t != s {
      MarkedValueRemove(portfolio, marketData, keys - {t}, s);
      MarkedValueRemove(portfolio, marketData, keys - {s}, t);
      assert keys - {t} - {s} == keys - {s} - {t};
    }
  }

  /** Two portfolios that agree on `keys` have the same sum over `keys`. */
  lemma {:induction false} MarkedValueFrame(p: map<string, real>, q: map<string, real>,
                                             marketData: map<string, MarketData>, keys: set<string>)
    requires forall s :: s in keys ==> Held(p, s) == Held(q, s)
    ensures MarkedValue(p, marketData, keys) == MarkedValue(q, marketData, keys)
    decreases keys
  {
    if keys != {} {
      var s :| s in keys;
      MarkedValueRemove(p, marketData, keys, s);
      MarkedValueRemove(q, marketData, keys, s);
      MarkedValueFrame(p, q, marketData, keys - {s});
    }
  }

  /** The value of a portfolio splits into one symbol's contribution and
      the value of the rest. */
  lemma MarkedValueSplit(p: map<string, real>, marketData: map<string, MarketData>, s: string)
    ensures MarkedValue(p, marketData, p.Keys)
         == Contribution(p, marketData, s) + MarkedValue(p - {s}, marketData, (p - {s}).Keys)
  {
    var rest := p - {s};
    if s in p {
      MarkedValueRemove(p, marketData, p.Keys, s);
      assert p.Keys - {s} == rest.Keys;
    } else {
      assert rest == p;
    }
    MarkedValueFrame(p, rest, marketData, rest.Keys);
  }

  /** Symbols without a snapshot add nothing: with no snapshot for any held
      symbol, the value is the cash balance. */
  lemma {:induction false} NoSnapshotsValueIsCash(e: EngineState)
    requires forall s :: s in e.portfolio ==> s !in e.marketData
    ensures Value(e) == e.balance
  {
    MarkedValueZero(e.portfolio, e.marketData, e.portfolio.Keys);
  }

  lemma {:induction false} MarkedValueZero(p: map<string, real>, marketData: map<string, MarketData>, keys: set<string>)
    requires forall s :: s in keys ==> s !in marketData
    ensures MarkedValue(p, marketData, keys) == 0.0
    decreases keys
  {
    if keys != {} {
      var s :| s in keys;
      MarkedValueRemove(p, marketData, keys, s);
      MarkedValueZero(p, marketData, keys - {s});
    }
  }

  // ---------------------------------------------------------------------
  // Settlement at the snapshot price moves no value

  /** A settlement at the symbol's snapshot price leaves the portfolio
      value unchanged: cash and holding move against each other exactly. */
  lemma SettledKeepsValue(before: EngineState, after: EngineState, order: Order, price: real)
    requires Settled(before, after, order, price)
    requires PriceOf(before.marketData, order.symbol) == price
    ensures Value(after) == Value(before)
  {
    var s := order.symbol;
    SettledConserves(before, after, order, price);
    ValueAt(before, s, price);
    ValueAt(after, s, price);
    assert after.portfolio - {s} == before.portfolio - {s};
  }

  /** The value of a state with one symbol's price named. */
  lemma ValueAt(e: EngineState, s: string, price: real)
    requires PriceOf(e.marketData, s) == price
    ensures Value(e) == e.balance + Held(e.portfolio, s) * price
                      + MarkedValue(e.portfolio - {s}, e.marketData, (e.portfolio - {s}).Keys)
  {
    MarkedValueSplit(e.portfolio, e.marketData, s);
  }

  lemma {:induction false} SweepPrefixKeepsValue(e: EngineState, orders: seq<Order>, symbol: string, price: real)
    requires AllPositive(orders)
    requires PriceOf(e.marketData, symbol) == price
    ensures Value(SweepPrefix(e, orders, symbol, price).engine) == Value(e)
    decreases |orders|
  {
    if orders != [] {
      var n := |orders| - 1;
      var prev := SweepPrefix(e, orders[..n], symbol, price);
      SweepPrefixKeepsValue(e, orders[..n], symbol, price);
      var a := TryOrder(prev.engine, orders[n], symbol, price);
      if a.executed {
        SettledKeepsValue(prev.engine, a.engine, orders[n], price);
      }
    }
  }

  /** Only the new price moves the value on a tick: the executions of the
      sweep that follows it leave the value unchanged. */
  lemma TickValue(e: EngineState, symbol: string, price: real, volume: real)
    requires AllPositive(e.orders)
    ensures Value(Tick(e, symbol, price, volume))
         == Value(e.(marketData := e.marketData[symbol := MarketData(symbol, price, volume)]))
  {
    var e1 := e.(marketData := e.marketData[symbol := MarketData(symbol, price, volume)]);
    SweepPrefixKeepsValue(e1, e.orders, symbol, price);
  }

  /** Placing an order never changes the portfolio value. */
  lemma PlaceKeepsValue(e: EngineState, symbol: string, orderType: OrderType, quantity: real, targetPrice: real)
    requires quantity > 0.0
    ensures Value(Place(e, symbol, orderType, quantity, targetPrice).engine) == Value(e)
  {
    var r := Place(e, symbol, orderType, quantity, targetPrice);
    if r.order.status == Executed {
      SettledKeepsValue(e, r.engine, NewOrder(e, symbol, orderType, quantity, targetPrice), e.marketData[symbol].price);
    }
  }

  // ---------------------------------------------------------------------
  // Metrics

  /** The return is measured against the constant 10000, whatever the
      engine started with; the percentage is the return over 100. */
  lemma MetricsReturn(e: EngineState)
    ensures MetricsOf(e).totalReturn == Value(e) - 10000.0
    ensures MetricsOf(e).returnPercentage == MetricsOf(e).totalReturn / 100.0
    ensures MetricsOf(Initial(e.balance)).totalReturn == e.balance - 10000.0
  {
  }
}
