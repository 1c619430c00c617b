# Trading engine model

A Dafny model of `TradingEngine`, a single-account limit-order simulator. The engine keeps five pieces of state:

- a cash balance;
- a portfolio, mapping each symbol to the quantity held;
- a ledger of resting orders;
- the latest market snapshot per symbol;
- an append-only trade history.

A price tick overwrites the symbol's snapshot. It then sweeps the ledger in insertion order. Each pending order of that symbol that fires under the matching rule goes to the settler. The settler either executes the order in full or changes nothing. Orders that executed are then removed from the ledger. Placing an order appends it to the ledger and tries it at once against the current snapshot.

Money and quantities are exact `real`s. Side and status are datatypes.

Cash is conserved exactly. Over any run of ticks and placements, the final balance is the initial one less the signed totals of the recorded trades: buys count positive, sells negative. Every recorded `balance_after` is the running balance just after that trade (`Scenarios.RunCash`).

Layout:

- `types.dfy` holds the data shapes and the matching rule.
- `settlement.dfy` holds the settler.
- `sweep.dfy` holds the tick and its sweep.
- `placement.dfy` holds order placement.
- `valuation.dfy` holds portfolio value and metrics.
- `engine.dfy` holds the `TradingEngine` class. Its fields are updated in place. Each method is proved against the state-transition function that specifies it.
- `scenarios.dfy` and `idempotence.dfy` hold properties of whole runs.
- `demo.dfy` replays the source's demonstration run.
- `repeat.dfy` holds a run where a repeated tick executes a further order.

## Behaviour of the code as written

Four behaviours of the code that a reader may not expect:

- **Order ids repeat.** The id is the number of *resting* orders plus one (`test-analysis-target.py:117`). It is not a counter of placements. An order that executes leaves the ledger, so a later order gets its id again. `Placement.ExecutedPlacementIdReused` proves this in general. `Demo.DemoRun` shows the demonstration giving id 1 to both the BTC buy and the later BTC sell.
- **Metrics use a constant initial value.** `total_return` and `return_percentage` compare against `10000.0`, not the balance the engine was built with (`test-analysis-target.py:149`). See `Valuation.MetricsReturn`.
- **A repeated tick is not always a no-op.** A buy can be refused for lack of cash early in a sweep. A sell later in the same sweep can then pay in that cash. The identical tick delivered again then executes the buy. `RepeatedTick.RepeatedTickTradesAgain` reaches this from a fresh engine. `Idempotence.TickTwiceOneSided` proves the restricted form that does hold: when all resting orders of the symbol are on one side and the price is non-negative, the second tick is a no-op.
- **No input validation.** Prices and target prices are taken as given. The only precondition is a positive order quantity. Without it, a zero-quantity sell of a symbol not held passes the holdings check and then fails on a missing key (`test-analysis-target.py:88-90`). The non-negativity results take non-negative prices as a hypothesis.

## Model

| member | source | states |
|---|---|---|
| TradingTypes.Initial | test-analysis-target.py:36-41 | A new engine: the given cash, no holdings, no resting orders, no snapshots, no trades |
| TradingTypes.ShouldExecute | test-analysis-target.py:69-74 | The matching rule: a buy fires at or below its limit, a sell at or above it (its properties are MatchingRule and MatchingMonotone) |
| TradingTypes.MatchingRule | test-analysis-target.py:69-74 | A buy fires iff price <= limit; a sell fires iff price >= limit; the limit price itself fires on both sides |
| TradingTypes.MatchingMonotone | test-analysis-target.py:69-74 | A buy that fires at a price fires at every lower price; a sell, at every higher price |
| Settlement.TradeRecord | test-analysis-target.py:99-111 | The record of one execution: the order's id, symbol, side and quantity, the execution price, the total quantity*price and the balance after it |
| Settlement.Signed | test-analysis-target.py:76-97 | Net cash paid out by a list of trades: buy totals count positive, sell totals negative |
| Settlement.Execute | test-analysis-target.py:76-97 | Succeeds iff cash covers quantity*price (buy) or the holding covers the quantity (sell). On success: cash moves by the total against the holding, which moves by the quantity; other holdings, ledger and snapshots are unchanged; exactly one trade is appended with balance_after = new balance. Failure changes nothing |
| Settlement.RunningBalancesSnoc | test-analysis-target.py:99-111 | Appending a trade that carries the new running balance keeps every trade's balance_after equal to the start less the signed totals up to it |
| Settlement.RunningBalancesAt | test-analysis-target.py:99-111 | Read at one index: trade k's balance_after is the start less the signed totals of the trades up to and including k |
| Settlement.SettledCash | test-analysis-target.py:76-111 | One settlement continues a stretch of trading: it appends exactly one trade, whose signed total is the cash moved and whose balance_after is the new running balance |
| Settlement.SignedConcat | test-analysis-target.py:76-97 | The net cash of two lists of trades is the sum of their net cash |
| Settlement.RunningBalancesConcat | test-analysis-target.py:99-111 | Running balances chain across two stretches of trading |
| Settlement.SettledConserves | test-analysis-target.py:78-95 | Cash plus the traded holding valued at the execution price is unchanged by a settlement; the recorded total equals the cash that moved |
| Settlement.ExecuteKeepsWellFormed | test-analysis-target.py:81-92 | Settlement keeps the engine invariant: no zero or negative holding is ever stored, and resting orders stay positive and pending |
| Settlement.ExecuteKeepsSolvent | test-analysis-target.py:81-89 | At a non-negative price, cash never goes negative |
| Settlement.SellAllRemovesHolding | test-analysis-target.py:88-92 | Selling exactly the held quantity succeeds and deletes the symbol's entry |
| PendingOrders.Fires | test-analysis-target.py:59-61 | The sweep's guard: an order of the ticked symbol, still pending, that fires at the tick price |
| PendingOrders.TryOrder | test-analysis-target.py:58-64 | An order executes in the sweep iff it is of the ticked symbol, pending, fires and is affordable; otherwise the state is unchanged |
| PendingOrders.SweepPrefix | test-analysis-target.py:58-64 | The sweep visits orders in list order, leaves ledger and snapshots as they were, and only orders of the symbol that fire can execute |
| PendingOrders.SweepStep | test-analysis-target.py:58-64 | One iteration of the sweep loop extends the sweep by one attempt: the order executes iff it passes the guard and the settler accepts it |
| PendingOrders.Kept | test-analysis-target.py:66-67 | The rebuilt ledger holds only orders that did not execute, taken from the old ledger |
| PendingOrders.KeptFiredPartition | test-analysis-target.py:56-67 | Remaining orders plus executed orders are exactly the old ledger, as a multiset |
| PendingOrders.KeptKeepsOthers | test-analysis-target.py:59-67 | Orders of other symbols all stay, in the same relative order |
| PendingOrders.FiredOnlyFireable | test-analysis-target.py:59-64 | Every executed order is of the ticked symbol and fires at the tick price |
| PendingOrders.SweepPrefixTrades | test-analysis-target.py:58-64 | A sweep appends one trade per executed order, in ledger order, each at the tick price with total = quantity*price; earlier history is untouched |
| PendingOrders.SweepPrefixKeeps | test-analysis-target.py:53-67 | A sweep keeps holdings strictly positive and, at a non-negative price, cash non-negative |
| PendingOrders.SweepPrefixOtherHoldings | test-analysis-target.py:53-67 | A sweep for one symbol changes no other symbol's holding |
| PendingOrders.SweepPrefixCash | test-analysis-target.py:58-64 | Over a sweep, cash falls by exactly the signed totals of the appended trades, and each appended trade's balance_after is the running balance just after it |
| PendingOrders.TickCash | test-analysis-target.py:43-67 | The same cash reconciliation for a whole tick |
| PendingOrders.Sweep | test-analysis-target.py:53-67 | The sweep leaves the snapshots alone and never lengthens the ledger; its effect is stated by TickEffect, TickCash and TickKeeps |
| PendingOrders.Tick | test-analysis-target.py:43-51 | A tick writes the symbol's snapshot and never lengthens the ledger |
| PendingOrders.TickLedger | test-analysis-target.py:43-67 | A tick's effect on snapshots and ledger: the symbol's snapshot is written, exactly the executed orders leave, other symbols' orders keep their relative order |
| PendingOrders.TickTrades | test-analysis-target.py:43-67 | A tick's effect on history and holdings: one trade per executed order in ledger order at the tick price; other symbols' holdings unchanged |
| PendingOrders.TickEffect | test-analysis-target.py:43-67 | A tick overwrites only that symbol's snapshot; removes exactly the executed orders of that symbol; keeps other orders in relative order; appends one trade per executed order in list order |
| PendingOrders.TickKeeps | test-analysis-target.py:43-67 | A tick preserves the engine invariant, and solvency at a non-negative price |
| Placement.NewOrder | test-analysis-target.py:116-123 | The order as created: pending, with id equal to the number of resting orders plus one |
| Placement.Place | test-analysis-target.py:113-133 | The new order's id is the resting count plus 1. If a snapshot exists, the order fires and settles: it comes back Executed and the ledger is as before. Otherwise it is appended at the end as Pending |
| Placement.PlaceKeeps | test-analysis-target.py:113-133 | Placement preserves the engine invariant and solvency |
| Placement.ExecutedPlacementIdReused | test-analysis-target.py:117-131 | After an order executes on placement, the next placement gets the same id |
| Valuation.MarkedValue | test-analysis-target.py:139-143 | The sum over a set of held symbols of quantity times the latest price, 0 for a symbol without a snapshot |
| Valuation.Value | test-analysis-target.py:135-144 | Cash plus every holding at its latest price |
| Valuation.MetricsOf | test-analysis-target.py:146-158 | The metrics record: value, return and percentage against the constant 10000, trade count, cash, position count |
| Valuation.MarkedValueRemove | test-analysis-target.py:139-143 | The valuation sum does not depend on the order in which held symbols are visited |
| Valuation.MarkedValueFrame | test-analysis-target.py:139-143 | Portfolios that agree on a set of symbols have the same valuation over it |
| Valuation.MarkedValueSplit | test-analysis-target.py:139-143 | Portfolio value splits into one symbol's contribution plus the value of the rest |
| Valuation.MarkedValueZero | test-analysis-target.py:140-142 | Symbols without a snapshot contribute nothing |
| Valuation.NoSnapshotsValueIsCash | test-analysis-target.py:135-144 | With no snapshot for any held symbol, the portfolio value is the cash balance |
| Valuation.ValueAt | test-analysis-target.py:135-144 | The value is cash plus one symbol's holding at its price plus the value of the other holdings |
| Valuation.SettledKeepsValue | test-analysis-target.py:76-97 | A settlement at the symbol's snapshot price leaves portfolio value unchanged |
| Valuation.SweepPrefixKeepsValue | test-analysis-target.py:53-67 | The executions of a sweep leave portfolio value unchanged |
| Valuation.TickValue | test-analysis-target.py:43-51 | A tick changes portfolio value only through the new price |
| Valuation.PlaceKeepsValue | test-analysis-target.py:113-133 | Placing an order never changes portfolio value |
| Valuation.MetricsReturn | test-analysis-target.py:146-158 | total_return is value minus the constant 10000, even for an engine built with another balance; return_percentage is total_return / 100 |
| Scenarios.Run | test-analysis-target.py:43-133 | Any sequence of allowed ticks and placements keeps the engine invariant |
| Scenarios.KeepsWellFormed | test-analysis-target.py:43-133 | Each public operation keeps the invariant, and solvency given a non-negative tick price |
| Scenarios.RunFromSolvent | test-analysis-target.py:43-133 | A solvent engine stays solvent over any run with non-negative prices and positive quantities |
| Scenarios.RunKeepsNonNegative | test-analysis-target.py:36-133 | From a non-negative initial balance, cash stays non-negative and every stored holding stays positive after any such run |
| Scenarios.ApplyCash | test-analysis-target.py:43-133 | Each public operation only appends to the history, and moves cash by exactly the signed totals of the trades it appends, each carrying the running balance |
| Scenarios.CashReconciledChain | test-analysis-target.py:43-133 | Cash reconciliation composes over two consecutive stretches of operations |
| Scenarios.RunCash | test-analysis-target.py:43-133 | Conservation of cash over any run: the final balance is the initial one less the signed totals of all recorded trades, and every recorded balance_after is the running balance |
| Scenarios.RunAppend | test-analysis-target.py:43-133 | Running two lists of operations one after the other is running their concatenation |
| Scenarios.RunFirst | test-analysis-target.py:43-133 | Running a list is applying its first operation, then running the rest |
| Scenarios.EmptySweep | test-analysis-target.py:53-67 | A sweep over an empty ledger changes nothing |
| Scenarios.OneOrderSweep | test-analysis-target.py:53-67 | A sweep over a one-order ledger is one settlement attempt |
| Scenarios.TwoOrderSweep | test-analysis-target.py:53-67 | A sweep over a two-order ledger is two attempts in list order; the second sees the first's effect |
| Idempotence.SweepPrefixStarves | test-analysis-target.py:58-64 | Over a one-sided ledger the consumed resource only shrinks, and every refused fireable order needs more than what is left |
| Idempotence.SweepPrefixIdle | test-analysis-target.py:58-64 | When no fireable order is affordable, the sweep changes nothing |
| Idempotence.KeptAll | test-analysis-target.py:66-67 | With nothing executed, the rebuilt ledger is the old one |
| Idempotence.TickTwiceOneSided | test-analysis-target.py:43-67 | With all resting orders of the symbol on one side and a non-negative price, the same tick delivered twice equals it delivered once |
| Demo.Step01 | test-analysis-target.py:184-188 | Construction with 10000 and the first two ticks only record snapshots |
| Demo.Step23 | test-analysis-target.py:191-192 | Both buys rest as Pending with ids 1 and 2 |
| Demo.Step4 | test-analysis-target.py:201 | The BTC drop to 43500 executes the BTC buy only: cash 5650, 0.1 BTC |
| Demo.Step5 | test-analysis-target.py:202 | The ETH drop to 2900 executes the ETH buy: cash 2750 |
| Demo.Step6 | test-analysis-target.py:209-210 | BTC is held, so the driver's guard lets the sell through; the BTC sell rests, with id 1 again |
| Demo.Step7 | test-analysis-target.py:214 | The BTC rise to 46500 executes the sell: cash 5075, 0.05 BTC left |
| Demo.RunFrom7 | test-analysis-target.py:214 | The last tick of the demonstration ends in the final state |
| Demo.RunFrom6 | test-analysis-target.py:209-214 | The demonstration from the sell placement ends in the final state |
| Demo.RunFrom5 | test-analysis-target.py:202-214 | The demonstration from the ETH drop ends in the final state |
| Demo.RunFrom4 | test-analysis-target.py:201-214 | The demonstration from the BTC drop ends in the final state |
| Demo.RunFrom2 | test-analysis-target.py:191-214 | The demonstration from the first placement ends in the final state |
| Demo.DemoRun | test-analysis-target.py:182-214 | The whole demonstration ends with cash 5075, 0.05 BTC, 1 ETH, no resting order and three trades; the first and the last trade both carry id 1 |
| Demo.DemoMetrics | test-analysis-target.py:217 | Final metrics: value 10300, return 300, 3 percent, 3 trades, cash 5075, 2 positions |
| RepeatedTick.Step0 | test-analysis-target.py:43-51 | The first tick finds an empty ledger and only records the snapshot |
| RepeatedTick.Step1 | test-analysis-target.py:113-133 | A buy placed at the current price spends all the cash and executes at once |
| RepeatedTick.Step23 | test-analysis-target.py:113-133 | After a price rise, a second buy rests |
| RepeatedTick.Step4 | test-analysis-target.py:53-67 | After a price fall the buy fires but is refused for lack of cash and stays in the ledger |
| RepeatedTick.Step5 | test-analysis-target.py:113-133 | A sell above the price rests behind the buy |
| RepeatedTick.Step6 | test-analysis-target.py:58-64 | At 100 the buy is refused first, then the sell executes and empties the holding |
| RepeatedTick.Step7 | test-analysis-target.py:58-64 | The same tick again executes the buy |
| RepeatedTick.RunFrom4 | test-analysis-target.py:43-133 | The run from the second buy's placement ends with the buy resting and two trades |
| RepeatedTick.RunFrom0 | test-analysis-target.py:43-133 | The whole run from a fresh engine ends with the buy resting and two trades |
| RepeatedTick.RepeatedTickTradesAgain | test-analysis-target.py:43-67 | Repeating the last tick of a run adds a third trade |
| Trading.TradingEngine.constructor | test-analysis-target.py:36-41 | A new engine holds the given cash and empty portfolio, ledger, snapshots and history |
| Trading.TradingEngine.UpdateMarketPrice | test-analysis-target.py:43-51 | The new state is Tick of the old one; the invariant holds; solvency holds at a non-negative price |
| Trading.WithoutExecuted | test-analysis-target.py:66-67 | The rebuild loop returns exactly the orders whose executed flag is false, in ledger order (Kept) |
| Trading.TradingEngine.ProcessPendingOrders | test-analysis-target.py:53-67 | The settle loop and the rebuild loop together compute Sweep at the snapshot price |
| Trading.TradingEngine.ExecuteOrder | test-analysis-target.py:76-97 | Returns true iff Execute succeeds; the new state is Execute's result, or the old state when it returns false |
| Trading.TradingEngine.RecordTrade | test-analysis-target.py:99-111 | Appends exactly one record carrying the current balance and changes nothing else |
| Trading.TradingEngine.PlaceOrder | test-analysis-target.py:113-133 | Returned order and new state are those of Place; the invariant and solvency are kept |
| Trading.TradingEngine.GetPortfolioValue | test-analysis-target.py:135-144 | The accumulator loop returns cash plus each held quantity times its snapshot price; symbols without a snapshot add 0 |
| Trading.TradingEngine.GetPerformanceMetrics | test-analysis-target.py:146-158 | Returns the current value, the return against 10000, the percentage, the trade count, the cash and the position count |

## Left out

- Timestamps (`datetime.datetime.now()` on snapshots, orders and trades): they are nondeterministic and no rule reads them.
- `to_dict` serialisers and the `json` import: encoding only.
- The `ORD_%04d` formatting of ids: the model keeps the number.
- Printing in `demo_trading_simulation` and the `__main__` block: the run itself is replayed in `Demo.DemoRun` and `Demo.DemoMetrics`.
- Floating-point rounding: all arithmetic is exact. The exact-zero deletion of an emptied holding is modelled as exact equality.
- The default argument `initial_balance=10000.0` of the constructor: the model's constructor always takes the balance explicitly.
- Python value equality in `list.remove` and `not in`: removal is by position, of exactly the executed orders. Resting orders are all Pending and an executed order is Executed, so value equality picks out the same orders.
- Aliasing of `Order` objects: orders are values here. The source mutates `status` on the object it may already have handed to a caller. A caller's copy of a resting order that a later tick executes is not updated in the model.
- Trading.TradingEngine.ExecuteOrder: does not set the order's status, because the order is a value; `PlaceOrder` marks its returned order Executed, and an order executed in a sweep leaves the ledger, so nothing else can see the status.
- Trading.TradingEngine.GetPortfolioValue: visits held symbols in an arbitrary order rather than the dictionary's insertion order. With exact arithmetic the sum does not depend on the order (`Valuation.MarkedValueRemove`).
- The `Cancelled` status: it is declared but never set by any operation.
- Negative quantities and prices: the source does not check them. The model requires a positive quantity on placement (see above). The non-negativity properties require non-negative tick prices.
