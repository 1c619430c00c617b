/** The execution settler (`_execute_order` with `_record_trade`): an
    all-or-nothing update of cash, holdings and trade history. */
module Settlement {
  import opened TradingTypes

  /** Invariant of every reachable engine state: holdings are strictly
      positive (a zero holding is never stored), resting orders have a positive
      quantity and are still pending, and each snapshot is filed under its own
      symbol. */
  predicate WellFormed(e: EngineState) {
    && (forall s :: s in e.portfolio ==> e.portfolio[s] > 0.0)
    && AllPositive(e.orders)
    && (forall i :: 0 <= i < |e.orders| ==> e.orders[i].status == Pending)
    && (forall s :: s in e.marketData ==> e.marketData[s].symbol == s)
  }

  predicate AllPositive(orders: seq<Order>) {
    forall i :: 0 <= i < |orders| ==> orders[i].quantity > 0.0
  }

  /** Cash is non-negative and every known price is non-negative. */
  predicate Solvent(e: EngineState) {
    && e.balance >= 0.0
    && (forall s :: s in e.marketData ==> e.marketData[s].price >= 0.0)
  }

  /** The resource check of the settler: enough cash for a buy, enough
      holdings for a sell. */
  predicate Affordable(e: EngineState, order: Order, price: real) {
    if order.orderType == Buy then e.balance >= order.quantity * price
    else Held(e.portfolio, order.symbol) >= order.quantity
  }

  /** +1 for a buy (holdings grow, cash shrinks), -1 for a sell. */
  function Direction(t: OrderType): real {
    if t == Buy then 1.0 else -1.0
  }

  /** The trade record written for an order executed at `price`. */
  function TradeRecord(order: Order, price: real, balanceAfter: real): Trade {
    Trade(order.id, order.symbol, order.orderType, order.quantity, price, order.quantity * price, balanceAfter)
  }

  /** The net cash paid out by `trades`: a buy's total counts positive, a
      sell's total negative. */
  function Signed(trades: seq<Trade>): real
    decreases |trades|
  {
    if trades == [] then 0.0
    else
      var n := |trades| - 1;
      Signed(trades[..n]) + Direction(trades[n].orderType) * trades[n].total
  }

  /** Each trade carries the balance reached after it, starting from `start`:
      the last one carries `start` less the signed totals of all of them. */
  predicate RunningBalances(start: real, trades: seq<Trade>)
    decreases |trades|
  {
    trades != [] ==>
      var n := |trades| - 1;
      RunningBalances(start, trades[..n]) && trades[n].balanceAfter == start - Signed(trades)
  }

  /** The same, read at one index: trade `k` carries `start` less the signed
      totals of the trades up to and including it. */
  lemma {:induction false} RunningBalancesAt(start: real, trades: seq<Trade>, k: nat)
    requires RunningBalances(start, trades) && k < |trades|
    ensures trades[k].balanceAfter == start - Signed(trades[..k + 1])
    decreases |trades|
  {
    var n := |trades| - 1;
    if k == n {
      assert trades[..k + 1] == trades;
    } else {
      RunningBalancesAt(start, trades[..n], k);
      assert trades[..n][..k + 1] == trades[..k + 1];
    }
  }

  /** Appending a trade that carries the new running balance keeps the
      balances running. */
  lemma RunningBalancesSnoc(start: real, trades: seq<Trade>, t: Trade)
    requires RunningBalances(start, trades)
    requires t.balanceAfter == start - Signed(trades) - Direction(t.orderType) * t.total
    ensures Signed(trades + [t]) == Signed(trades) + Direction(t.orderType) * t.total
    ensures RunningBalances(start, trades + [t])
  {
    assert (trades + [t])[..|trades|] == trades;
  }

  lemma {:induction false} SignedConcat(x: seq<Trade>, y: seq<Trade>)
    ensures Signed(x + y) == Signed(x) + Signed(y)
    decreases |y|
  {
    if y == [] {
      assert x + y == x;
    } else {
      var n := |y| - 1;
      var all := x + y;
      SignedConcat(x, y[..n]);
      assert all[..|all| - 1] == x + y[..n];
      assert all[|all| - 1] == y[n];
      assert Signed(all) == Signed(x + y[..n]) + Direction(y[n].orderType) * y[n].total;
    }
  }

  /** Running balances chain: trades running from `start`, followed by
      trades running from the balance the first ones reach. */
  lemma {:induction false} RunningBalancesConcat(start: real, x: seq<Trade>, y: seq<Trade>)
    requires RunningBalances(start, x) && RunningBalances(start - Signed(x), y)
    ensures RunningBalances(start, x + y)
    decreases |y|
  {
    if y == [] {
      assert x + y == x;
    } else {
      var n := |y| - 1;
      RunningBalancesConcat(start, x, y[..n]);
      SignedConcat(x, y);
      assert (x + y)[..|x + y| - 1] == x + y[..n];
      assert (x + y)[|x + y| - 1] == y[n];
    }
  }

  /** What one successful settlement does, independent of how the holdings
      map stores the result: cash moves by the trade's total against the
      holding, which moves by the quantity; nothing else in the portfolio,
      the ledger or the snapshots changes; exactly one trade is appended,
      carrying the new balance. */
  predicate Settled(before: EngineState, after: EngineState, order: Order, price: real) {
    && after.orders == before.orders
    && after.marketData == before.marketData
    && after.balance == before.balance - Direction(order.orderType) * (order.quantity * price)
    && Held(after.portfolio, order.symbol) == Held(before.portfolio, order.symbol) + Direction(order.orderType) * order.quantity
    && after.portfolio - {order.symbol} == before.portfolio - {order.symbol}
    && after.history == before.history + [TradeRecord(order, price, after.balance)]
  }

  /** `_execute_order`: `None` is the source's `False`, meaning that nothing
      changed. A sell that empties a holding deletes its entry. */
  function Execute(e: EngineState, order: Order, price: real): (r: Option<EngineState>)
    requires order.quantity > 0.0
    ensures r.Some? <==> Affordable(e, order, price)
    ensures r.Some? ==> Settled(e, r.value, order, price)
  {
    var total := order.quantity * price;
    if order.orderType == Buy then
      if e.balance >= total then
        var balance := e.balance - total;
        Some(e.(balance := balance,
                portfolio := e.portfolio[order.symbol := Held(e.portfolio, order.symbol) + order.quantity],
                history := e.history + [TradeRecord(order, price, balance)]))
      else None
    else
      if Held(e.portfolio, order.symbol) >= order.quantity then
        var balance := e.balance + total;
        var left := e.portfolio[order.symbol] - order.quantity;
        Some(e.(balance := balance,
                portfolio := if left == 0.0 then e.portfolio - {order.symbol} else e.portfolio[order.symbol := left],
                history := e.history + [TradeRecord(order, price, balance)]))
      else None
  }

  /** Conservation: a settlement at `price` leaves cash plus the traded
      holding valued at `price` unchanged, and the recorded total is exactly
      the cash that moved. */
  lemma SettledConserves(before: EngineState, after: EngineState, order: Order, price: real)
    requires Settled(before, after, order, price)
    ensures after.balance + Held(after.portfolio, order.symbol) * price
         == before.balance + Held(before.portfolio, order.symbol) * price
    ensures after.history[|before.history|].total == Direction(order.orderType) * (before.balance - after.balance)
  {
  }

  /** One settlement continues a stretch of trading that started at
      `start` with the history at index `base`: the cash it moves is the
      signed total of the trade it appends, which carries the new balance. */
  lemma SettledCash(start: real, base: nat, before: EngineState, after: EngineState, order: Order, price: real)
    requires Settled(before, after, order, price) && base <= |before.history|
    requires before.balance == start - Signed(before.history[base..])
    requires RunningBalances(start, before.history[base..])
    ensures |after.history| == |before.history| + 1 && after.history[..base] == before.history[..base]
    ensures after.balance == start - Signed(after.history[base..])
    ensures RunningBalances(start, after.history[base..])
  {
    var x := before.history[base..];
    var t := TradeRecord(order, price, after.balance);
    assert after.history == before.history + [t];
    assert after.history[base..] == x + [t];
    assert after.history[..base] == before.history[..base];
    assert t.balanceAfter == start - Signed(x) - Direction(t.orderType) * t.total;
    RunningBalancesSnoc(start, x, t);
  }

  /** Settlement keeps the invariant: no zero or negative holding is stored. */
  lemma ExecuteKeepsWellFormed(e: EngineState, order: Order, price: real)
    requires WellFormed(e) && order.quantity > 0.0
    requires Execute(e, order, price).Some?
    ensures WellFormed(Execute(e, order, price).value)
  {
    var after := Execute(e, order, price).value;
    forall s | s in after.portfolio
      ensures after.portfolio[s] > 0.0
    {
      if s != order.symbol {
        assert s in after.portfolio - {order.symbol};
      }
    }
  }

  /** With a non-negative price, settlement never drives cash negative. */
  lemma ExecuteKeepsSolvent(e: EngineState, order: Order, price: real)
    requires Solvent(e) && order.quantity > 0.0 && price >= 0.0
    requires Execute(e, order, price).Some?
    ensures Solvent(Execute(e, order, price).value)
  {
    assert order.quantity * price >= 0.0;
  }

  /** A sell of the whole holding removes the symbol from the portfolio. */
  lemma SellAllRemovesHolding(e: EngineState, order: Order, price: real)
    requires order.quantity > 0.0 && order.orderType == Sell
    requires Held(e.portfolio, order.symbol) == order.quantity
    ensures Execute(e, order, price).Some?
    ensures order.symbol !in Execute(e, order, price).value.portfolio
  {
  }
}
