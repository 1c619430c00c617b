/** Data shapes of the trading simulator: order sides and statuses, market
    snapshots, orders, trade records, and the abstract state of one engine.
    Money and quantities are exact reals; timestamps are not modelled. */
module TradingTypes {

  /** Side of an order (`OrderType` in the source). */
  datatype OrderType = Buy | Sell

  /** Lifecycle of an order. `Cancelled` exists in the source but is never set. */
  datatype OrderStatus = Pending | Executed | Cancelled

  /** Latest snapshot of one symbol (`MarketData`, without its timestamp). */
  datatype MarketData = MarketData(symbol: string, price: real, volume: real)

  /** An order (`Order`, without its timestamp). The id is the number `n`
      that the source formats as `ORD_n`. */
  datatype Order = Order(
    id: nat,
    symbol: string,
    orderType: OrderType,
    quantity: real,
    targetPrice: real,
    status: OrderStatus)

  /** One entry of the trade history (the dictionary built by `_record_trade`). */
  datatype Trade = Trade(
    id: nat,
    symbol: string,
    orderType: OrderType,
    quantity: real,
    price: real,
    total: real,
    balanceAfter: real)

  datatype Option<T> = None | Some(value: T)

  /** The five fields of a `TradingEngine`, as one value. */
  datatype EngineState = EngineState(
    balance: real,
    portfolio: map<string, real>,
    orders: seq<Order>,
    marketData: map<string, MarketData>,
    history: seq<Trade>)

  /** The state right after construction with a given initial balance. */
  function Initial(initialBalance: real): EngineState {
    EngineState(initialBalance, map[], [], map[], [])
  }

  /** `portfolio.get(symbol, 0)`: an absent holding counts as zero. */
  function Held(portfolio: map<string, real>, symbol: string): real {
    if symbol in portfolio then portfolio[symbol] else 0.0
  }

  /** Matching rule (`_should_execute_order`): a buy fires when the price has
      fallen to its limit or below, a sell when it has risen to its limit or above. */
  predicate ShouldExecute(order: Order, currentPrice: real) {
    match order.orderType
    case Buy => currentPrice <= order.targetPrice
    case Sell => currentPrice >= order.targetPrice
  }

  /** The matching rule for both sides; the limit price itself fires on both. */
  lemma MatchingRule(order: Order, currentPrice: real)
    ensures order.orderType == Buy ==> (ShouldExecute(order, currentPrice) <==> currentPrice <= order.targetPrice)
    ensures order.orderType == Sell ==> (ShouldExecute(order, currentPrice) <==> currentPrice >= order.targetPrice)
    ensures ShouldExecute(order, order.targetPrice)
  {
  }

  /** A buy that fires at some price fires at every lower price; a sell that
      fires at some price fires at every higher one. */
  lemma MatchingMonotone(order: Order, p: real, q: real)
    requires ShouldExecute(order, p)
    ensures order.orderType == Buy && q <= p ==> ShouldExecute(order, q)
    ensures order.orderType == Sell && q >= p ==> ShouldExecute(order, q)
  {
  }
}
