/** Two short runs at the default costs and tolerances: an order filled after its expiry, a sell that finds no lots. */
module BacktestRuns {
  import opened Common
  import opened Sums
  import opened CostTax
  import opened MarketData
  import opened FillSimulator
  import opened Ledger
  import opened Backtest

  function Flat(d: int): Bar { Bar(d, 10.0, 10.0, 10.0, 10.0, 1000) }

  function OneSymbol(bars: seq<Bar>, actions: seq<seq<CorporateAction>>): Market {
    Market(map["N" := bars], actions)
  }

  const BUY: OrderIntent := Intent("N", Buy, AtMarket, 1)
  const SELL: OrderIntent := Intent("N", Sell, AtMarket, 1)

  function Settings(end: int, strategy: Strategy): Env {
    Env(INDIA_EQUITY, SOURCE_TOLERANCES, 1, end, 1000.0, 5, 365, None, strategy)
  }

  lemma OrdinaryDay(env: Env, m: Market, st: State, d: int, acted: State, settled: State)
    requires d >= env.start && Acted(env, st, AllDue(m.actions, d), d, |AllDue(m.actions, d)|) == Ok(acted)
    requires Settled(env, m, acted.(pending := []), acted.pending, d, |acted.pending|) == Ok(settled)
    ensures Day(env, m, st, d) == Ok(Closed(env, m, settled, d))
  {
  }

  /** A day on which nothing is due and nothing waits. */
  lemma IdleDay(env: Env, m: Market, st: State, d: int)
    requires d >= env.start && AllDue(m.actions, d) == [] && st.pending == []
    ensures Day(env, m, st, d) == Ok(Closed(env, m, st, d))
  {
    assert st.(pending := []) == st;
    OrdinaryDay(env, m, st, d, st, st);
  }

  /** The end of a day on which the strategy wants one order. */
  lemma OneOrderDay(env: Env, m: Market, st: State, d: int, intent: OrderIntent)
    requires forall seen: seq<Observation> :: |seen| == |st.seen| + 1 ==> env.strategy(seen) == [intent]
    ensures var v := Closed(env, m, st, d);
            && v.account == st.account && v.trades == st.trades && |v.seen| == |st.seen| + 1
            && v.pending == st.pending + [Pending(|st.emitted|, intent, d, d + 1, d + env.expiryDays)]
            && |v.emitted| == |st.emitted| + 1
  {
    var surveyed := Surveyed(env, m, st, d);
    assert Enqueued(env, surveyed, [intent], d, 1) == Enqueue(env, Enqueued(env, surveyed, [intent], d, 0), intent, d);
  }

  lemma OneFill(fill: Fill, account: Account)
    requires fill == Fill("N", Buy, 1, 10.0, fill.date, fill.decided, TransactionCost(INDIA_EQUITY, Buy, 10.0, 1.0))
    requires account == Account(1000.0, map[], map[])
    ensures ApplyFill(INDIA_EQUITY, SOURCE_TOLERANCES, account, fill)
         == Booked(Account(1000.0 - CashOut(fill), map["N" := 1.0],
                           map["N" := [TaxLot("N", fill.date, 1.0, 10.0, fill.cost)]]), [])
  {
    DefaultRates(10.0, 1.0);
    assert CashOut(fill) == 10.0 + Times(10.0, 0.001686226);
    var lot := TaxLot("N", fill.date, 1.0, 10.0, fill.cost);
    assert LotsOf(account.lots, "N") + [lot] == [lot];
    assert account.lots["N" := [lot]] == map["N" := [lot]];
    assert account.positions["N" := 1.0] == map["N" := 1.0];
  }

  /** One buy of one unit, met on a day with a bar, is booked that day. */
  lemma BuyMeets(env: Env, m: Market, st: State, p: Pending, d: int)
    requires env == Settings(env.end, env.strategy) && ExecutionBar(m, "N", d) == Some(Flat(d))
    requires p.intent == BUY && p.target <= d && st.account == Account(1000.0, map[], map[])
    ensures var cost := TransactionCost(INDIA_EQUITY, Buy, 10.0, 1.0);
            var fill := Fill("N", Buy, 1, 10.0, d, p.decided, cost);
            Settle(env, m, st, p, d)
            == Ok(st.(account := Account(1000.0 - CashOut(fill), map["N" := 1.0],
                                         map["N" := [TaxLot("N", d, 1.0, 10.0, cost)]]),
                      trades := st.trades + [Trade(p.tag, fill, [])]))
  {
    var fill := Fill("N", Buy, 1, 10.0, d, p.decided, TransactionCost(INDIA_EQUITY, Buy, 10.0, 1.0));
    assert TryFill(INDIA_EQUITY, None, p, Flat(d)) == Some(fill);
    OneFill(fill, st.account);
  }

  lemma OnePending(env: Env, m: Market, st: State, p: Pending, d: int)
    ensures Settled(env, m, st, [p], d, 1) == Settle(env, m, st, p, d)
  {
    assert Settled(env, m, st, [p], d, 0) == Ok(st);
  }

  /** Nothing happens on day 1 but the decision to buy. */
  lemma FirstDay(env: Env, m: Market, dates: seq<int>) returns (first: State)
    requires env == Settings(env.end, env.strategy) && dates != [] && dates[0] == 1 && AllDue(m.actions, 1) == []
    requires forall seen: seq<Observation> :: |seen| == 1 ==> env.strategy(seen) == [BUY]
    ensures After(env, m, dates, 1) == Ok(first)
    ensures first.pending == [Pending(0, BUY, 1, 2, 6)] && first.account == Account(1000.0, map[], map[])
    ensures first.trades == [] && |first.seen| == 1 && |first.emitted| == 1
  {
    IdleDay(env, m, Initial(env), 1);
    OneOrderDay(env, m, Initial(env), 1, BUY);
    first := Closed(env, m, Initial(env), 1);
    assert After(env, m, dates, 0) == Ok(Initial(env));
  }

  predicate HoldsOne(account: Account, lot: TaxLot) {
    lot.quantity == 1.0 && account.positions == map["N" := 1.0] && account.lots == map["N" := [lot]]
  }

  /** The order of day 1 meets its first bar. */
  lemma BuyDay(env: Env, m: Market, first: State, d: int) returns (settled: State, lot: TaxLot, t: Trade)
    requires env == Settings(env.end, env.strategy) && d >= 2
    requires ExecutionBar(m, "N", d) == Some(Flat(d)) && AllDue(m.actions, d) == []
    requires first.pending == [Pending(0, BUY, 1, 2, 6)] && first.account == Account(1000.0, map[], map[])
    ensures Day(env, m, first, d) == Ok(Closed(env, m, settled, d))
    ensures settled.pending == [] && settled.seen == first.seen && settled.emitted == first.emitted
    ensures HoldsOne(settled.account, lot)
    ensures settled.trades == first.trades + [t] && t.fill.date == d && t.fill.decided == 1
  {
    var p := Pending(0, BUY, 1, 2, 6);
    BuyMeets(env, m, first.(pending := []), p, d);
    OnePending(env, m, first.(pending := []), p, d);
    settled := Settle(env, m, first.(pending := []), p, d).state;
    OrdinaryDay(env, m, first, d, first, settled);
    lot := settled.account.lots["N"][0];
    t := settled.trades[|first.trades|];
  }

  // ---- A fill after the expiry ----

  const SPARSE := OneSymbol([Flat(1), Flat(9)], [])

  function BuyOnce(seen: seq<Observation>): seq<OrderIntent> {
    if |seen| == 1 then [BUY] else []
  }

  lemma SparseBars()
    ensures ExecutionBar(SPARSE, "N", 9) == Some(Flat(9))
    ensures TradingDates(Settings(9, BuyOnce), SPARSE, [1, 9])
  {
    var bars := [Flat(1), Flat(9)];
    assert bars[1..] == [Flat(9)] && [Flat(9)][1..] == [];
    assert SortByDate([Flat(9)]) == [Flat(9)];
    assert SortByDate(bars) == bars;
    assert BarOn([Flat(9)], 9) == Some(Flat(9));
    forall d
      ensures d in [1, 9] <==> TradesOn(Settings(9, BuyOnce), SPARSE, d)
    {
      assert Flat(1) in SPARSE.bars["N"] && Flat(9) in SPARSE.bars["N"];
      assert forall b :: b in SPARSE.bars["N"] ==> b == Flat(1) || b == Flat(9);
    }
  }

  /** Decided on day 1 to expire on day 6, an order of a symbol next traded on day 9 is filled on day 9. */
  lemma FilledAfterExpiry()
    ensures exists env: Env, m: Market, dates: seq<int>, t: Trade ::
              && TradingDates(env, m, dates) && After(env, m, dates, |dates|).Ok?
              && t in After(env, m, dates, |dates|).state.trades
              && t.fill.date > t.fill.decided + env.expiryDays
  {
    var env, m, dates := Settings(9, BuyOnce), SPARSE, [1, 9];
    SparseBars();
    var first := FirstDay(env, m, dates);
    var settled, _, t := BuyDay(env, m, first, 9);
    ClosingKeepsTrades(env, m, settled, 9);
    assert After(env, m, dates, 2) == Ok(Closed(env, m, settled, 9));
    assert t in After(env, m, dates, |dates|).state.trades;
  }

  lemma ClosingKeepsTrades(env: Env, m: Market, st: State, d: int)
    ensures Closed(env, m, st, d).trades == st.trades && Closed(env, m, st, d).account == st.account
  {
    var surveyed := Surveyed(env, m, st, d);
    EnqueuedKeepsTrades(env, surveyed, env.strategy(surveyed.seen), d, |env.strategy(surveyed.seen)|);
  }

  lemma {:induction false} EnqueuedKeepsTrades(env: Env, st: State, intents: seq<OrderIntent>, d: int, n: nat)
    requires n <= |intents|
    ensures Enqueued(env, st, intents, d, n).trades == st.trades
    ensures Enqueued(env, st, intents, d, n).account == st.account
  {
    if n > 0 {
      EnqueuedKeepsTrades(env, st, intents, d, n - 1);
    }
  }

  // ---- A sell that passes the guard and finds the lots short ----

  const SHRUNK := OneSymbol([Flat(1), Flat(2), Flat(3)], [[CorporateAction("N", 3, SplitOrBonus, 0.9999995)]])

  function BuyThenSell(seen: seq<Observation>): seq<OrderIntent> {
    if |seen| == 1 then [BUY] else if |seen| == 2 then [SELL] else []
  }

  lemma ShrunkBars()
    ensures Sane(SHRUNK) && TradingDates(Settings(3, BuyThenSell), SHRUNK, [1, 2, 3])
    ensures ExecutionBar(SHRUNK, "N", 2) == Some(Flat(2)) && ExecutionBar(SHRUNK, "N", 3) == Some(Flat(3))
  {
    var bars := [Flat(1), Flat(2), Flat(3)];
    assert bars[1..] == [Flat(2), Flat(3)] && [Flat(2), Flat(3)][1..] == [Flat(3)] && [Flat(3)][1..] == [];
    assert SortByDate([Flat(3)]) == [Flat(3)];
    assert SortByDate([Flat(2), Flat(3)]) == [Flat(2), Flat(3)];
    assert SortByDate(bars) == bars;
    assert BarOn([Flat(3)], 3) == Some(Flat(3)) && BarOn([Flat(3)], 2) == None;
    forall d
      ensures d in [1, 2, 3] <==> TradesOn(Settings(3, BuyThenSell), SHRUNK, d)
    {
      assert Flat(1) in SHRUNK.bars["N"] && Flat(2) in SHRUNK.bars["N"] && Flat(3) in SHRUNK.bars["N"];
      assert forall b :: b in SHRUNK.bars["N"] ==> b == Flat(1) || b == Flat(2) || b == Flat(3);
    }
  }

  lemma ShrunkActions()
    ensures AllDue(SHRUNK.actions, 1) == [] && AllDue(SHRUNK.actions, 2) == []
    ensures AllDue(SHRUNK.actions, 3) == [CorporateAction("N", 3, SplitOrBonus, 0.9999995)]
  {
    var split := CorporateAction("N", 3, SplitOrBonus, 0.9999995);
    assert [split][1..] == [];
    assert SHRUNK.actions[1..] == [];
  }

  /** One unit held in one lot, after a day-3 split by 0.9999995. */
  lemma SplitLeavesFraction(env: Env, st: State, lot: TaxLot)
    requires env == Settings(env.end, env.strategy) && lot.quantity == 1.0
    requires st.account.positions == map["N" := 1.0] && st.account.lots == map["N" := [lot]]
    ensures var r := Acted(env, st, AllDue(SHRUNK.actions, 3), 3, |AllDue(SHRUNK.actions, 3)|);
            && r.Ok? && r.state.pending == st.pending
            && Held(r.state.account, "N") == 0.9999995
            && LotsOf(r.state.account.lots, "N") == [SplitLot(lot, 0.9999995)]
  {
    ShrunkActions();
    var due := AllDue(SHRUNK.actions, 3);
    assert Acted(env, st, due, 3, 0) == Ok(st);
    assert Acted(env, st, due, 3, 1) == Act(env, st, due[0], 3);
    assert [lot][1..] == [];
    assert SplitLots([lot], 0.9999995) == [SplitLot(lot, 0.9999995)];
  }

  lemma FractionIsShort(account: Account, fill: Fill, lot: TaxLot)
    requires fill.symbol == "N" && fill.side == Sell && fill.quantity == 1 && lot.quantity == 1.0
    requires Held(account, "N") == 0.9999995 && LotsOf(account.lots, "N") == [SplitLot(lot, 0.9999995)]
    ensures ApplyFill(INDIA_EQUITY, SOURCE_TOLERANCES, account, fill).LotsShort?
  {
    var lots := [SplitLot(lot, 0.9999995)];
    assert lots[1..] == [] && Quantity(lots) == 0.9999995;
    GuardedSellShortIff(INDIA_EQUITY, SOURCE_TOLERANCES, account, fill);
  }

  lemma SellMeets(p: Pending)
    requires p.intent == SELL
    ensures TryFill(INDIA_EQUITY, None, p, Flat(3))
         == Some(Fill("N", Sell, 1, 10.0, 3, p.decided, TransactionCost(INDIA_EQUITY, Sell, 10.0, 1.0)))
  {
  }

  lemma SellFindsFraction(env: Env, m: Market, st: State, p: Pending, lot: TaxLot)
    requires env == Settings(env.end, env.strategy) && ExecutionBar(m, "N", 3) == Some(Flat(3))
    requires p.intent == SELL && p.target <= 3 && lot.quantity == 1.0
    requires Held(st.account, "N") == 0.9999995 && LotsOf(st.account.lots, "N") == [SplitLot(lot, 0.9999995)]
    ensures var r := Settle(env, m, st, p, 3);
            r.Fail? && r.error.InsufficientLots?
  {
    SellMeets(p);
    FractionIsShort(st.account, TryFill(INDIA_EQUITY, None, p, Flat(3)).value, lot);
  }

  /** Day 2 buys and decides to sell. */
  lemma SecondDay(env: Env, m: Market, first: State) returns (second: State, lot: TaxLot)
    requires env == Settings(3, BuyThenSell) && m == SHRUNK
    requires first.pending == [Pending(0, BUY, 1, 2, 6)] && first.account == Account(1000.0, map[], map[])
    requires |first.seen| == 1 && |first.emitted| == 1
    ensures Day(env, m, first, 2) == Ok(second)
    ensures second.pending == [Pending(1, SELL, 2, 3, 7)] && HoldsOne(second.account, lot)
  {
    ShrunkBars();
    ShrunkActions();
    var settled, bought, _ := BuyDay(env, m, first, 2);
    OneOrderDay(env, m, settled, 2, SELL);
    second, lot := Closed(env, m, settled, 2), bought;
  }

  lemma BoughtByDayTwo() returns (lot: TaxLot)
    ensures var r := After(Settings(3, BuyThenSell), SHRUNK, [1, 2, 3], 2);
            r.Ok? && r.state.pending == [Pending(1, SELL, 2, 3, 7)] && HoldsOne(r.state.account, lot)
  {
    var env, m, dates := Settings(3, BuyThenSell), SHRUNK, [1, 2, 3];
    ShrunkActions();
    var first := FirstDay(env, m, dates);
    var second;
    second, lot := SecondDay(env, m, first);
    assert After(env, m, dates, 2) == Day(env, m, first, 2);
  }

  /** Day 3 splits the holding and meets the sell. */
  lemma DayThreeFails(st: State, lot: TaxLot)
    requires st.pending == [Pending(1, SELL, 2, 3, 7)] && HoldsOne(st.account, lot)
    ensures var r := Day(Settings(3, BuyThenSell), SHRUNK, st, 3);
            r.Fail? && r.error.InsufficientLots?
  {
    var env, m := Settings(3, BuyThenSell), SHRUNK;
    ShrunkBars();
    SplitLeavesFraction(env, st, lot);
    var acted := Acted(env, st, AllDue(m.actions, 3), 3, |AllDue(m.actions, 3)|).state;
    SellFindsFraction(env, m, acted.(pending := []), Pending(1, SELL, 2, 3, 7), lot);
    OnePending(env, m, acted.(pending := []), Pending(1, SELL, 2, 3, 7), 3);
  }

  /** A whole run, started with cash alone, that dies on lots its own guard had let through. */
  lemma GuardedRunFindsLotsShort()
    ensures exists env: Env, m: Market, dates: seq<int> ::
              && env.tol == SOURCE_TOLERANCES && env.costs == INDIA_EQUITY && TradingDates(env, m, dates)
              && Result(env, m, dates).Fail? && Result(env, m, dates).error.InsufficientLots?
  {
    var env, m, dates := Settings(3, BuyThenSell), SHRUNK, [1, 2, 3];
    ShrunkBars();
    var lot := BoughtByDayTwo();
    var second := After(env, m, dates, 2).state;
    DayThreeFails(second, lot);
    assert After(env, m, dates, 3) == Day(env, m, second, 3);
    assert TradingDates(env, m, dates) && Result(env, m, dates).Fail?;
  }
}
