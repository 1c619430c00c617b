/** The `TradingEngine` object: five fields updated in place by its methods,
    each method proved against the state-transition function that
    specifies it. */
module Trading {
  import opened TradingTypes
  import opened Settlement
  import opened PendingOrders
  import opened Placement
  import opened Valuation

  /** The list comprehension that rebuilds the ledger: the orders whose
      flag is false, in their original order. */
  method WithoutExecuted(ledger: seq<Order>, executed: seq<bool>) returns (kept: seq<Order>)
    requires |ledger| == |executed|
    ensures kept == Kept(ledger, executed)
  {
    kept := [];
    var j := 0;
    while j < |ledger|
      invariant 0 <= j <= |ledger|
      invariant kept == Kept(ledger[..j], executed[..j])
    {
      if !executed[j] {
        kept := kept + [ledger[j]];
      }
      KeptSnoc(ledger[..j], executed[..j], ledger[j], executed[j]);
      assert ledger[..j + 1] == ledger[..j] + [ledger[j]];
      assert executed[..j + 1] == executed[..j] + [executed[j]];
      j := j + 1;
    }
    assert ledger[..j] == ledger && executed[..j] == executed;
  }

  class TradingEngine {
    var balance: real
    var portfolio: map<string, real>
    var orders: seq<Order>
    var marketData: map<string, MarketData>
    var tradeHistory: seq<Trade>

    /** The fields as one value. */
    function State(): EngineState
      reads this
    {
      EngineState(balance, portfolio, orders, marketData, tradeHistory)
    }

    ghost predicate Valid()
      reads this
    {
      WellFormed(State())
    }

    constructor (initialBalance: real)
      ensures Valid()
      ensures State() == Initial(initialBalance)
    {
      balance := initialBalance;
      portfolio := map[];
      orders := [];
      marketData := map[];
      tradeHistory := [];
    }

    /** `update_market_price`. */
    method UpdateMarketPrice(symbol: string, price: real, volume: real)
      requires Valid()
      modifies this
      ensures Valid()
      ensures State() == Tick(old(State()), symbol, price, volume)
      ensures old(Solvent(State())) && price >= 0.0 ==> Solvent(State())
    {
      ghost var before := State();
      marketData := marketData[symbol := MarketData(symbol, price, volume)];
      ProcessPendingOrders(symbol);
      TickKeeps(before, symbol, price, volume);
    }

    /** `_process_pending_orders`: a first loop settles fireable orders in
        list order and notes which executed; a second loop rebuilds the
        ledger without them. */
    method ProcessPendingOrders(symbol: string)
      requires Valid() && symbol in marketData
      modifies this
      ensures State() == Sweep(old(State()), symbol, old(marketData[symbol].price))
    {
      var currentPrice := marketData[symbol].price;
      ghost var start := State();
      var ledger := orders;
      var executed: seq<bool> := [];
      var i := 0;
      while i < |ledger|
        invariant 0 <= i <= |ledger| && |executed| == i
        invariant SweepPrefix(start, ledger[..i], symbol, currentPrice) == Swept(State(), executed)
      {
        var order := ledger[i];
        ghost var before := State();
        var ok := false;
        if order.symbol == symbol && order.status == Pending && ShouldExecute(order, currentPrice) {
          ok := ExecuteOrder(order, currentPrice);
        }
        SweepStep(start, ledger, i, symbol, currentPrice, executed, before, State(), ok);
        executed := executed + [ok];
        i := i + 1;
      }
      assert ledger[..i] == ledger;
      orders := WithoutExecuted(ledger, executed);
    }

    /** `_execute_order`. The caller marks the order executed; the order is
        a value here. */
    method ExecuteOrder(order: Order, executionPrice: real) returns (ok: bool)
      requires order.quantity > 0.0
      modifies this
      ensures ok == Execute(old(State()), order, executionPrice).Some?
      ensures State() == if ok then Execute(old(State()), order, executionPrice).value else old(State())
    {
      ghost var before := State();
      var totalCost := order.quantity * executionPrice;
      if order.orderType == Buy {
        if balance >= totalCost {
          balance := balance - totalCost;
          portfolio := portfolio[order.symbol := Held(portfolio, order.symbol) + order.quantity];
          assert tradeHistory == before.history;
          ghost var b1 := balance;
          RecordTrade(order, executionPrice, totalCost);
          assert balance == b1;
          assert TradeRecord(order, executionPrice, balance) == Trade(order.id, order.symbol, order.orderType, order.quantity, executionPrice, totalCost, balance);
          assert tradeHistory == before.history + [TradeRecord(order, executionPrice, balance)];
          assert State() == before.(balance := balance, portfolio := portfolio, history := tradeHistory);
          assert Execute(before, order, executionPrice) == Some(State());
          return true;
        }
      } else {
        if Held(portfolio, order.symbol) >= order.quantity {
          balance := balance + totalCost;
          portfolio := portfolio[order.symbol := portfolio[order.symbol] - order.quantity];
          if portfolio[order.symbol] == 0.0 {
            portfolio := portfolio - {order.symbol};
            assert portfolio == before.portfolio - {order.symbol};
          }
          assert tradeHistory == before.history;
          ghost var b1 := balance;
          RecordTrade(order, executionPrice, totalCost);
          assert balance == b1;
          assert TradeRecord(order, executionPrice, balance) == Trade(order.id, order.symbol, order.orderType, order.quantity, executionPrice, totalCost, balance);
          assert tradeHistory == before.history + [TradeRecord(order, executionPrice, balance)];
          assert State() == before.(balance := balance, portfolio := portfolio, history := tradeHistory);
          assert Execute(before, order, executionPrice) == Some(State());
          return true;
        }
      }
      return false;
    }

    /** `_record_trade`: append one record carrying the current balance. */
    method RecordTrade(order: Order, price: real, total: real)
      modifies this`tradeHistory
      ensures tradeHistory == old(tradeHistory) + [Trade(order.id, order.symbol, order.orderType, order.quantity, price, total, balance)]
    {
      tradeHistory := tradeHistory + [Trade(order.id, order.symbol, order.orderType, order.quantity, price, total, balance)];
    }

    /** `place_order`. */
    method PlaceOrder(symbol: string, orderType: OrderType, quantity: real, targetPrice: real) returns (order: Order)
      requires Valid() && quantity > 0.0
      modifies this
      ensures Valid()
      ensures Placed(State(), order) == Place(old(State()), symbol, orderType, quantity, targetPrice)
      ensures old(Solvent(State())) ==> Solvent(State())
    {
      ghost var before := State();
      order := Order(|orders| + 1, symbol, orderType, quantity, targetPrice, Pending);
      orders := orders + [order];
      if symbol in marketData {
        var currentPrice := marketData[symbol].price;
        if ShouldExecute(order, currentPrice) {
          var ok := ExecuteOrder(order, currentPrice);
          if ok {
            order := order.(status := Executed);
            orders := orders[..|orders| - 1];
          }
        }
      }
      PlaceKeeps(before, symbol, orderType, quantity, targetPrice);
    }

    /** `get_portfolio_value`: cash plus each holding at its latest price,
        accumulated over the held symbols. */
    method GetPortfolioValue() returns (totalValue: real)
      ensures totalValue == Value(State())
    {
      totalValue := balance;
      var remaining := portfolio.Keys;
      while remaining != {}
        invariant remaining <= portfolio.Keys
        invariant totalValue + MarkedValue(portfolio, marketData, remaining) == Value(State())
        decreases remaining
      {
        var symbol :| symbol in remaining;
        MarkedValueRemove(portfolio, marketData, remaining, symbol);
        if symbol in marketData {
          totalValue := totalValue + portfolio[symbol] * marketData[symbol].price;
        }
        remaining := remaining - {symbol};
      }
    }

    /** `get_performance_metrics`. */
    method GetPerformanceMetrics() returns (metrics: Metrics)
      ensures metrics == MetricsOf(State())
    {
      var currentValue := GetPortfolioValue();
      var initialValue := 10000.0;
      metrics := Metrics(
        currentValue,
        currentValue - initialValue,
        (currentValue / initialValue - 1.0) * 100.0,
        |tradeHistory|,
        balance,
        |portfolio|);
    }
  }
}
