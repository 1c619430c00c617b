/** Whole-run properties: the invariants over any sequence of ticks and
    placements, and concrete runs of the engine. */
module Scenarios {
  import opened TradingTypes
  import opened Settlement
  import opened PendingOrders
  import opened Placement
  import opened Valuation

  /** One public operation of the engine. */
  datatype Operation =
    | UpdatePrice(symbol: string, price: real, volume: real)
    | PlaceOrder(symbol: string, orderType: OrderType, quantity: real, targetPrice: real)

  /** The caller's side of the contract: positive order quantities. */
  predicate Allowed(op: Operation) {
    op.PlaceOrder? ==> op.quantity > 0.0
  }

  function Apply(e: EngineState, op: Operation): EngineState
    requires WellFormed(e) && Allowed(op)
  {
    match op
    case UpdatePrice(symbol, price, volume) => Tick(e, symbol, price, volume)
    case PlaceOrder(symbol, orderType, quantity, targetPrice) => Place(e, symbol, orderType, quantity, targetPrice).engine
  }

  /** The state after running `ops` in order, or `None` if some operation
      is not allowed. */
  function Run(e: EngineState, ops: seq<Operation>): (r: Option<EngineState>)
    requires WellFormed(e)
    ensures r.Some? ==> WellFormed(r.value)
    decreases |ops|
  {
    if ops == [] then Some(e)
    else if !Allowed(ops[0]) then None
    else
      var next := Apply(e, ops[0]);
      KeepsWellFormed(e, ops[0]);
      Run(next, ops[1..])
  }

  lemma KeepsWellFormed(e: EngineState, op: Operation)
    requires WellFormed(e) && Allowed(op)
    ensures WellFormed(Apply(e, op))
    ensures Solvent(e) && (op.UpdatePrice? ==> op.price >= 0.0) ==> Solvent(Apply(e, op))
  {
    match op
    case UpdatePrice(symbol, price, volume) => TickKeeps(e, symbol, price, volume);
    case PlaceOrder(symbol, orderType, quantity, targetPrice) => PlaceKeeps(e, symbol, orderType, quantity, targetPrice);
  }

  /** From a non-negative initial balance, with non-negative prices and
      positive quantities, cash and every holding stay non-negative (holdings
      in fact strictly positive: an emptied holding is removed). */
  lemma {:induction false} RunKeepsNonNegative(initialBalance: real, ops: seq<Operation>)
    requires initialBalance >= 0.0
    requires forall k :: 0 <= k < |ops| ==> Allowed(ops[k]) && (ops[k].UpdatePrice? ==> ops[k].price >= 0.0)
    ensures Run(Initial(initialBalance), ops).Some?
    ensures var e := Run(Initial(initialBalance), ops).value;
            e.balance >= 0.0 && forall s :: s in e.portfolio ==> e.portfolio[s] > 0.0
  {
    RunFromSolvent(Initial(initialBalance), ops);
  }

  lemma {:induction false} RunFromSolvent(e: EngineState, ops: seq<Operation>)
    requires WellFormed(e) && Solvent(e)
    requires forall k :: 0 <= k < |ops| ==> Allowed(ops[k]) && (ops[k].UpdatePrice? ==> ops[k].price >= 0.0)
    ensures Run(e, ops).Some? && Solvent(Run(e, ops).value)
    decreases |ops|
  {
    if ops != [] {
      KeepsWellFormed(e, ops[0]);
      RunFromSolvent(Apply(e, ops[0]), ops[1..]);
    }
  }


  /** What `before` to `after` does to cash: `after` extends the history of
      `before`, and the cash moved equals the signed totals of the appended
      trades, each of which carries the running balance. */
  predicate CashReconciled(before: EngineState, after: EngineState) {
    && |after.history| >= |before.history|
    && after.history[..|before.history|] == before.history
    && after.balance == before.balance - Signed(after.history[|before.history|..])
    && RunningBalances(before.balance, after.history[|before.history|..])
  }

  lemma ApplyCash(e: EngineState, op: Operation)
    requires WellFormed(e) && Allowed(op)
    ensures CashReconciled(e, Apply(e, op))
  {
    match op
    case UpdatePrice(symbol, price, volume) =>
      TickCash(e, symbol, price, volume);
    case PlaceOrder(symbol, orderType, quantity, targetPrice) =>
      var r := Place(e, symbol, orderType, quantity, targetPrice);
      var o := NewOrder(e, symbol, orderType, quantity, targetPrice);
      if r.order.status == Executed {
        var t := TradeRecord(o, e.marketData[symbol].price, r.engine.balance);
        assert r.engine.history[|e.history|..] == [] + [t];
        RunningBalancesSnoc(e.balance, [], t);
      } else {
        assert r.engine.history[|e.history|..] == [];
      }
  }

  /** Reconciliation composes: two stretches of trading make one. */
  lemma CashReconciledChain(a: EngineState, b: EngineState, c: EngineState)
    requires CashReconciled(a, b) && CashReconciled(b, c)
    ensures CashReconciled(a, c)
  {
    var x := b.history[|a.history|..];
    var y := c.history[|b.history|..];
    assert b.history == a.history + x by {
      assert b.history == b.history[..|a.history|] + x;
    }
    assert c.history == b.history + y by {
      assert c.history == c.history[..|b.history|] + y;
    }
    assert c.history[|a.history|..] == x + y;
    assert c.history[..|a.history|] == a.history;
    SignedConcat(x, y);
    RunningBalancesConcat(a.balance, x, y);
  }

  /** Conservation of cash over any run: the final balance is the initial
      one less the signed totals of every trade the run recorded, and every
      recorded trade carries the balance reached after it. */
  lemma {:induction false} RunCash(e: EngineState, ops: seq<Operation>)
    requires WellFormed(e) && Run(e, ops).Some?
    ensures CashReconciled(e, Run(e, ops).value)
    decreases |ops|
  {
    if ops == [] {
      assert e.history[|e.history|..] == [];
    } else {
      var next := Apply(e, ops[0]);
      KeepsWellFormed(e, ops[0]);
      ApplyCash(e, ops[0]);
      RunCash(next, ops[1..]);
      CashReconciledChain(e, next, Run(e, ops).value);
    }
  }

  /** Running a non-empty list is applying its first operation, then the rest. */
  lemma RunFirst(e: EngineState, ops: seq<Operation>, next: EngineState)
    requires WellFormed(e) && WellFormed(next) && ops != [] && Allowed(ops[0]) && Apply(e, ops[0]) == next
    ensures Run(e, ops) == Run(next, ops[1..])
  {
  }

  /** Running `a` then `b` is running `a + b`. */
  lemma {:induction false} RunAppend(e: EngineState, a: seq<Operation>, b: seq<Operation>)
    requires WellFormed(e)
    ensures Run(e, a + b) == if Run(e, a).Some? then Run(Run(e, a).value, b) else None
    decreases |a|
  {
    if a == [] {
      assert a + b == b;
    } else {
      assert (a + b)[0] == a[0];
      assert (a + b)[1..] == a[1..] + b;
      if Allowed(a[0]) {
        KeepsWellFormed(e, a[0]);
        RunAppend(Apply(e, a[0]), a[1..], b);
      }
    }
  }

  // ---------------------------------------------------------------------
  // Unfolding a sweep over a short ledger

  lemma EmptySweep(e: EngineState, symbol: string, price: real)
    requires e.orders == []
    ensures Sweep(e, symbol, price) == e
  {
  }

  lemma OneOrderSweep(e: EngineState, symbol: string, price: real)
    requires |e.orders| == 1 && AllPositive(e.orders)
    ensures var a := TryOrder(e, e.orders[0], symbol, price);
            Sweep(e, symbol, price) == a.engine.(orders := if a.executed then [] else e.orders)
  {
    var a := TryOrder(e, e.orders[0], symbol, price);
    assert e.orders[..0] == [];
    assert SweepPrefix(e, e.orders[..0], symbol, price) == Swept(e, []);
    var r := SweepPrefix(e, e.orders, symbol, price);
    assert r == Swept(a.engine, [a.executed]);
    assert r.fired[..0] == [];
    assert Kept(e.orders, r.fired) == (if a.executed then [] else [e.orders[0]]);
    assert [e.orders[0]] == e.orders;
  }

  lemma TwoOrderSweep(e: EngineState, symbol: string, price: real)
    requires |e.orders| == 2 && AllPositive(e.orders)
    ensures var a := TryOrder(e, e.orders[0], symbol, price);
            var b := TryOrder(a.engine, e.orders[1], symbol, price);
            Sweep(e, symbol, price)
              == b.engine.(orders := (if a.executed then [] else [e.orders[0]]) + (if b.executed then [] else [e.orders[1]]))
  {
    var a := TryOrder(e, e.orders[0], symbol, price);
    var b := TryOrder(a.engine, e.orders[1], symbol, price);
    var first := e.orders[..1];
    assert first[..0] == [];
    assert SweepPrefix(e, first, symbol, price) == Swept(a.engine, [a.executed]);
    assert e.orders[..2] == e.orders;
    var r := SweepPrefix(e, e.orders, symbol, price);
    assert r == Swept(b.engine, [a.executed, b.executed]);
    assert r.fired[..1] == [a.executed];
    assert [a.executed][..0] == [];
    assert Kept(first, [a.executed]) == (if a.executed then [] else [e.orders[0]]);
  }
}
