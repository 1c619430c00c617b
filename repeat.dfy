/** Delivering the same tick twice is not a no-op. A resting buy that fires
    first in the ledger is refused for lack of cash; a sell after it in the
    same sweep executes and pays in the cash the buy needed; the identical
    tick delivered again then executes the buy. Every state below is reached
    from a fresh engine through the public operations. */
module RepeatedTick {
  import opened TradingTypes
  import opened Settlement
  import opened PendingOrders
  import opened Placement
  import opened Scenarios

  const BTC: string := "BTC"

  const Ops: seq<Operation> := [
    UpdatePrice(BTC, 100.0, 1.0),
    PlaceOrder(BTC, Buy, 1.0, 100.0),
    UpdatePrice(BTC, 150.0, 1.0),
    PlaceOrder(BTC, Buy, 1.0, 100.0),
    UpdatePrice(BTC, 50.0, 1.0),
    PlaceOrder(BTC, Sell, 1.0, 100.0),
    UpdatePrice(BTC, 100.0, 1.0)]

  const Again: Operation := UpdatePrice(BTC, 100.0, 1.0)

  const Md1 := map[BTC := MarketData(BTC, 100.0, 1.0)]
  const Md3 := Md1[BTC := MarketData(BTC, 150.0, 1.0)]
  const Md5 := Md3[BTC := MarketData(BTC, 50.0, 1.0)]
  const Md7 := Md5[BTC := MarketData(BTC, 100.0, 1.0)]
  const Md8 := Md7[BTC := MarketData(BTC, 100.0, 1.0)]

  const RestingBuy := Order(1, BTC, Buy, 1.0, 100.0, Pending)
  const RestingSell := Order(2, BTC, Sell, 1.0, 100.0, Pending)

  const U1 := Trade(1, BTC, Buy, 1.0, 100.0, 100.0, 0.0)
  const U2 := Trade(2, BTC, Sell, 1.0, 100.0, 100.0, 100.0)

  const R0 := Initial(100.0)
  const R1 := EngineState(100.0, map[], [], Md1, [])
  const R2 := EngineState(0.0, map[BTC := 1.0], [], Md1, [U1])
  const R3 := EngineState(0.0, map[BTC := 1.0], [], Md3, [U1])
  const R4 := EngineState(0.0, map[BTC := 1.0], [RestingBuy], Md3, [U1])
  const R5 := EngineState(0.0, map[BTC := 1.0], [RestingBuy], Md5, [U1])
  const R6 := EngineState(0.0, map[BTC := 1.0], [RestingBuy, RestingSell], Md5, [U1])
  const R7 := EngineState(100.0, map[], [RestingBuy], Md7, [U1, U2])
  const R8 := EngineState(0.0, map[BTC := 1.0], [], Md8, [U1, U2, U1])

  /** The first tick finds an empty ledger. */
  lemma Step0()
    ensures WellFormed(R0) && WellFormed(R1) && Apply(R0, Ops[0]) == R1
  {
    EmptySweep(R0.(marketData := Md1), BTC, 100.0);
  }

  /** The first buy executes on placement with all the cash. */
  lemma Step1()
    ensures WellFormed(R1) && WellFormed(R2) && Apply(R1, Ops[1]) == R2
  {
    var o := NewOrder(R1, BTC, Buy, 1.0, 100.0);
    assert o == RestingBuy;
    var appended := R1.(orders := [o]);
    assert o.quantity * 100.0 == 100.0;
    assert Held(appended.portfolio, BTC) == 0.0;
    assert TradeRecord(o, 100.0, 0.0) == U1;
    assert appended.portfolio[BTC := Held(appended.portfolio, BTC) + 1.0] == map[BTC := 1.0];
    assert appended.history + [U1] == [U1];
    assert Execute(appended, o, 100.0).Some?;
    assert Execute(appended, o, 100.0).value.balance == 0.0;
    assert Execute(appended, o, 100.0).value.history == [U1];
    assert Execute(appended, o, 100.0).value.portfolio == map[BTC := 1.0];
    assert Execute(appended, o, 100.0) == Some(appended.(balance := 0.0, portfolio := map[BTC := 1.0], history := [U1]));
    assert Place(R1, BTC, Buy, 1.0, 100.0) == Placed(R2, o.(status := Executed));
  }

  /** The price rises; a second buy rests. */
  lemma Step23()
    ensures WellFormed(R2) && WellFormed(R3) && WellFormed(R4)
    ensures Apply(R2, Ops[2]) == R3 && Apply(R3, Ops[3]) == R4
  {
    EmptySweep(R2.(marketData := Md3), BTC, 150.0);
  }

  /** The price falls: the buy fires but there is no cash. */
  lemma Step4()
    ensures WellFormed(R4) && WellFormed(R5) && Apply(R4, Ops[4]) == R5
  {
    assert Ops[4] == UpdatePrice(BTC, 50.0, 1.0);
    assert Tick(R4, BTC, 50.0, 1.0) == R5 by {
      var e := R4.(marketData := Md5);
      assert TryOrder(e, RestingBuy, BTC, 50.0) == Attempt(e, false) by {
        assert !Affordable(e, RestingBuy, 50.0);
      }
      OneOrderSweep(e, BTC, 50.0);
    }
  }

  /** A sell above the price rests. */
  lemma Step5()
    ensures WellFormed(R5) && WellFormed(R6) && Apply(R5, Ops[5]) == R6
  {
    assert NewOrder(R5, BTC, Sell, 1.0, 100.0) == RestingSell;
  }

  /** Both fire at 100: the buy, first in the ledger, is refused; the sell
      executes and empties the holding. */
  lemma Step6()
    ensures WellFormed(R6) && WellFormed(R7)
    ensures Apply(R6, Ops[6]) == R7
  {
    var e := R6.(marketData := Md7);
    TwoOrderSweep(e, BTC, 100.0);
    assert Execute(e, RestingBuy, 100.0).None?;
    assert Execute(e, RestingSell, 100.0).Some?;
    assert Execute(e, RestingSell, 100.0).value.portfolio == map[];
    assert Execute(e, RestingSell, 100.0).value.history == [U1, U2];
  }

  /** The same tick again: now the buy executes. */
  lemma Step7()
    ensures WellFormed(R7) && WellFormed(R8)
    ensures Apply(R7, Again) == R8
  {
    var e := R7.(marketData := Md8);
    OneOrderSweep(e, BTC, 100.0);
    assert Execute(e, RestingBuy, 100.0).Some?;
    assert Execute(e, RestingBuy, 100.0).value.portfolio == map[BTC := 1.0];
    assert Execute(e, RestingBuy, 100.0).value.history == [U1, U2, U1];
  }

  lemma RunFrom4()
    ensures WellFormed(R4) && Run(R4, Ops[4..]) == Some(R7)
  {
    Step4(); Step5(); Step6();
    RunFirst(R4, Ops[4..], R5);
    RunFirst(R5, Ops[5..], R6);
    RunFirst(R6, Ops[6..], R7);
    assert Ops[4..][1..] == Ops[5..];
    assert Ops[5..][1..] == Ops[6..];
    assert Ops[6..][1..] == [];
  }

  lemma RunFrom0()
    ensures Run(R0, Ops) == Some(R7)
  {
    Step0(); Step1(); Step23(); RunFrom4();
    RunFirst(R0, Ops, R1);
    RunFirst(R1, Ops[1..], R2);
    RunFirst(R2, Ops[2..], R3);
    RunFirst(R3, Ops[3..], R4);
    assert Ops[1..][1..] == Ops[2..];
    assert Ops[2..][1..] == Ops[3..];
    assert Ops[3..][1..] == Ops[4..];
  }

  /** The run ends in a tick that executes one order and leaves a buy
      resting; repeating that very tick executes the buy: two trades after
      the first delivery, three after the second. */
  lemma RepeatedTickTradesAgain()
    ensures Run(R0, Ops) == Some(R7) && |R7.history| == 2 && R7.orders == [RestingBuy]
    ensures Ops[|Ops| - 1] == Again
    ensures Run(R0, Ops + [Again]) == Some(R8) && |R8.history| == 3 && R8.orders == []
  {
    RunFrom0();
    Step7();
    RunAppend(R0, Ops, [Again]);
    RunFirst(R7, [Again], R8);
    assert [Again][1..] == [];
  }
}
