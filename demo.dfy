/** The demonstration run of the source (`demo_trading_simulation`),
    replayed step by step on the model without its printing. */
module Demo {
  import opened TradingTypes
  import opened Settlement
  import opened PendingOrders
  import opened Placement
  import opened Valuation
  import opened Scenarios

  const BTC: string := "BTC"
  const ETH: string := "ETH"

  const Ops: seq<Operation> := [
    UpdatePrice(BTC, 45000.0, 1000.0),
    UpdatePrice(ETH, 3000.0, 2000.0),
    PlaceOrder(BTC, Buy, 0.1, 44000.0),
    PlaceOrder(ETH, Buy, 1.0, 2950.0),
    UpdatePrice(BTC, 43500.0, 800.0),
    UpdatePrice(ETH, 2900.0, 1500.0),
    PlaceOrder(BTC, Sell, 0.05, 46000.0),
    UpdatePrice(BTC, 46500.0, 900.0)]

  // Snapshots after each tick
  const MdA := map[BTC := MarketData(BTC, 45000.0, 1000.0)]
  const MdB := MdA[ETH := MarketData(ETH, 3000.0, 2000.0)]
  const MdC := MdB[BTC := MarketData(BTC, 43500.0, 800.0)]
  const MdD := MdC[ETH := MarketData(ETH, 2900.0, 1500.0)]
  const MdE := MdD[BTC := MarketData(BTC, 46500.0, 900.0)]

  // Orders as placed
  const BtcBuy := Order(1, BTC, Buy, 0.1, 44000.0, Pending)
  const EthBuy := Order(2, ETH, Buy, 1.0, 2950.0, Pending)
  const BtcSell := Order(1, BTC, Sell, 0.05, 46000.0, Pending)

  // Trades as recorded
  const T1 := Trade(1, BTC, Buy, 0.1, 43500.0, 4350.0, 5650.0)
  const T2 := Trade(2, ETH, Buy, 1.0, 2900.0, 2900.0, 2750.0)
  const T3 := Trade(1, BTC, Sell, 0.05, 46500.0, 2325.0, 5075.0)

  // States after each operation
  const S0 := Initial(10000.0)
  const S1 := EngineState(10000.0, map[], [], MdA, [])
  const S2 := EngineState(10000.0, map[], [], MdB, [])
  const S3 := EngineState(10000.0, map[], [BtcBuy], MdB, [])
  const S4 := EngineState(10000.0, map[], [BtcBuy, EthBuy], MdB, [])
  const S5 := EngineState(5650.0, map[BTC := 0.1], [EthBuy], MdC, [T1])
  const S6 := EngineState(2750.0, map[BTC := 0.1, ETH := 1.0], [], MdD, [T1, T2])
  const S7 := EngineState(2750.0, map[BTC := 0.1, ETH := 1.0], [BtcSell], MdD, [T1, T2])
  const S8 := EngineState(5075.0, map[BTC := 0.05, ETH := 1.0], [], MdE, [T1, T2, T3])

  lemma Step01()
    ensures WellFormed(S0) && WellFormed(S1) && WellFormed(S2)
    ensures Apply(S0, Ops[0]) == S1 && Apply(S1, Ops[1]) == S2
  {
    EmptySweep(S0.(marketData := MdA), BTC, 45000.0);
    EmptySweep(S1.(marketData := MdB), ETH, 3000.0);
  }

  /** Both buys rest: each limit is below the current price. */
  lemma Step23()
    ensures WellFormed(S2) && WellFormed(S3) && WellFormed(S4)
    ensures Place(S2, BTC, Buy, 0.1, 44000.0) == Placed(S3, BtcBuy)
    ensures Place(S3, ETH, Buy, 1.0, 2950.0) == Placed(S4, EthBuy)
    ensures Apply(S2, Ops[2]) == S3 && Apply(S3, Ops[3]) == S4
  {
    assert BTC != ETH;
  }

  /** The BTC drop executes the BTC buy only. */
  lemma Step4()
    ensures WellFormed(S4) && WellFormed(S5)
    ensures Apply(S4, Ops[4]) == S5
  {
    var e := S4.(marketData := MdC);
    TwoOrderSweep(e, BTC, 43500.0);
    assert BTC != ETH;
    assert e.balance == 10000.0;
    assert BtcBuy.quantity * 43500.0 == 4350.0;
    assert Held(e.portfolio, BTC) == 0.0;
    assert e.portfolio[BTC := Held(e.portfolio, BTC) + 0.1] == map[BTC := 0.1];
    assert TradeRecord(BtcBuy, 43500.0, 5650.0) == T1;
    assert e.history + [T1] == [T1];
    assert BtcBuy.orderType == Buy;
    assert e.balance >= BtcBuy.quantity * 43500.0;
    assert Execute(e, BtcBuy, 43500.0).Some?;
    assert Execute(e, BtcBuy, 43500.0).value.balance == 5650.0;
    assert Execute(e, BtcBuy, 43500.0).value.history == [T1];
    assert Execute(e, BtcBuy, 43500.0).value.portfolio == map[BTC := 0.1];
    assert Execute(e, BtcBuy, 43500.0) == Some(e.(balance := 5650.0, portfolio := map[BTC := 0.1], history := [T1]));
  }

  /** The ETH drop executes the ETH buy. */
  lemma Step5()
    ensures WellFormed(S5) && WellFormed(S6)
    ensures Apply(S5, Ops[5]) == S6
  {
    var e := S5.(marketData := MdD);
    OneOrderSweep(e, ETH, 2900.0);
    assert EthBuy.quantity * 2900.0 == 2900.0;
    assert Held(e.portfolio, ETH) == 0.0;
    assert TradeRecord(EthBuy, 2900.0, 2750.0) == T2;
    assert e.history + [T2] == [T1, T2];
    assert Execute(e, EthBuy, 2900.0).Some?;
    assert Execute(e, EthBuy, 2900.0).value.balance == 2750.0;
    assert Execute(e, EthBuy, 2900.0).value.history == [T1, T2];
    assert Execute(e, EthBuy, 2900.0).value.portfolio == map[BTC := 0.1, ETH := 1.0];
    assert Execute(e, EthBuy, 2900.0) == Some(e.(balance := 2750.0, portfolio := map[BTC := 0.1, ETH := 1.0], history := [T1, T2]));
  }

  /** The driver's guard holds (BTC is held), so the sell is placed; it
      rests, and is given id 1 again. */
  lemma Step6()
    ensures BTC in S6.portfolio
    ensures WellFormed(S6) && WellFormed(S7)
    ensures Place(S6, BTC, Sell, 0.05, 46000.0) == Placed(S7, BtcSell)
    ensures Apply(S6, Ops[6]) == S7
  {
  }

  /** The BTC rise executes the sell; half the holding remains. */
  lemma Step7()
    ensures WellFormed(S7) && WellFormed(S8)
    ensures Apply(S7, Ops[7]) == S8
  {
    var e := S7.(marketData := MdE);
    assert Execute(e, BtcSell, 46500.0) == Some(e.(balance := 5075.0, portfolio := map[BTC := 0.05, ETH := 1.0], history := [T1, T2, T3])) by {
      assert map[BTC := 0.1, ETH := 1.0][BTC := 0.05] == map[BTC := 0.05, ETH := 1.0];
      assert BtcSell.quantity * 46500.0 == 2325.0;
      assert Held(e.portfolio, BTC) == 0.1;
      assert TradeRecord(BtcSell, 46500.0, 5075.0) == T3;
      assert e.history + [T3] == [T1, T2, T3];
      assert Execute(e, BtcSell, 46500.0).Some?;
      assert Execute(e, BtcSell, 46500.0).value.balance == 5075.0;
      assert Execute(e, BtcSell, 46500.0).value.history == [T1, T2, T3];
      assert Execute(e, BtcSell, 46500.0).value.portfolio == map[BTC := 0.05, ETH := 1.0];
    }
    OneOrderSweep(e, BTC, 46500.0);
  }

  /** Runs of the last operations of the demonstration, each ending in `S8`. */
  lemma RunFrom7()
    ensures WellFormed(S7) && Run(S7, Ops[7..]) == Some(S8)
  {
    Step7();
    RunFirst(S7, Ops[7..], S8);
    assert Ops[7..][1..] == [];
  }

  lemma RunFrom6()
    ensures WellFormed(S6) && Run(S6, Ops[6..]) == Some(S8)
  {
    Step6(); RunFrom7();
    RunFirst(S6, Ops[6..], S7);
    assert Ops[6..][1..] == Ops[7..];
  }

  lemma RunFrom5()
    ensures WellFormed(S5) && Run(S5, Ops[5..]) == Some(S8)
  {
    Step5(); RunFrom6();
    RunFirst(S5, Ops[5..], S6);
    assert Ops[5..][1..] == Ops[6..];
  }

  lemma RunFrom4()
    ensures WellFormed(S4) && Run(S4, Ops[4..]) == Some(S8)
  {
    Step4(); RunFrom5();
    RunFirst(S4, Ops[4..], S5);
    assert Ops[4..][1..] == Ops[5..];
  }

  lemma RunFrom2()
    ensures WellFormed(S2) && Run(S2, Ops[2..]) == Some(S8)
  {
    Step23(); RunFrom4();
    RunFirst(S2, Ops[2..], S3);
    RunFirst(S3, Ops[3..], S4);
    assert Ops[2..][1..] == Ops[3..];
    assert Ops[3..][1..] == Ops[4..];
  }

  /** The whole run: cash 5075, 0.05 BTC and 1 ETH held, no resting order,
      three trades of which the first and the last carry the same id. */
  lemma DemoRun()
    ensures Run(S0, Ops) == Some(S8)
    ensures S8.history[0].id == S8.history[2].id == 1
  {
    Step01(); RunFrom2();
    RunFirst(S0, Ops, S1);
    RunFirst(S1, Ops[1..], S2);
    assert Ops[1..][1..] == Ops[2..];
  }

  /** The metrics of the final state: value 10300, a return of 300 (3
      percent) measured against the constant 10000. */
  lemma DemoMetrics()
    ensures MetricsOf(S8) == Metrics(10300.0, 300.0, 3.0, 3, 5075.0, 2)
  {
    MarkedValueRemove(S8.portfolio, S8.marketData, {BTC, ETH}, BTC);
    assert BTC != ETH;
    assert {BTC, ETH} - {BTC} == {ETH};
    MarkedValueRemove(S8.portfolio, S8.marketData, {ETH}, ETH);
    assert {ETH} - {ETH} == {};
    assert S8.portfolio.Keys == {BTC, ETH};
    assert Value(S8) == 10300.0;
  }
}
