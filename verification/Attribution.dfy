/** Where every rupee of a backtest comes from, on every day of every run. */
module Attribution {
  import opened Common
  import opened Sums
  import opened CostTax
  import opened Fifo
  import opened MarketData
  import opened FillSimulator
  import opened Ledger
  import opened Backtest

  function Realized(trades: seq<Trade>): real {
    if trades == [] then 0.0
    else Realized(trades[..|trades| - 1]) + GainSum(trades[|trades| - 1].gains)
  }

  function Costs(trades: seq<Trade>): real {
    if trades == [] then 0.0
    else Costs(trades[..|trades| - 1]) + trades[|trades| - 1].fill.cost.TotalCost()
  }

  function Credited(receipts: seq<DividendReceipt>): real {
    if receipts == [] then 0.0
    else Credited(receipts[..|receipts| - 1]) + receipts[|receipts| - 1].credited
  }

  lemma AddTrade(trades: seq<Trade>, t: Trade)
    ensures Realized(trades + [t]) == Realized(trades) + GainSum(t.gains)
    ensures Costs(trades + [t]) == Costs(trades) + t.fill.cost.TotalCost()
  {
    assert (trades + [t])[..|trades|] == trades;
  }

  lemma AddReceipt(receipts: seq<DividendReceipt>, r: DividendReceipt)
    ensures Credited(receipts + [r]) == Credited(receipts) + r.credited
  {
    assert (receipts + [r])[..|receipts|] == receipts;
  }

  /** The books of a state are in order as of day d. */
  ghost predicate Balanced(env: Env, m: Market, d: int, st: State) {
    && Agrees(env.tol, st.account)
    && BoughtBy(st.account, d)
    && Priced(st.account, Prices(m, d))
    && BookValue(st.account) == env.capital + Realized(st.trades) - Costs(st.trades) + Credited(st.receipts)
  }

  lemma StartsBalanced(env: Env, m: Market, d: int)
    ensures Balanced(env, m, d, Initial(env))
  {
    assert Bases(map[]) == map[];
  }

  lemma {:induction false} UptoGrows(bars: seq<Bar>, d: int, e: int)
    requires d <= e && Upto(bars, d) != []
    ensures Upto(bars, e) != []
  {
    if bars[0].date > d {
      UptoGrows(bars[1..], d, e);
    }
  }

  /** A later day finds the same books in order. */
  lemma BalancedLater(env: Env, m: Market, d: int, e: int, st: State)
    requires Balanced(env, m, d, st) && d <= e
    ensures Balanced(env, m, e, st)
  {
    forall s | s in Prices(m, d)
      ensures s in Prices(m, e)
    {
      UptoGrows(SortByDate(m.bars[s]), d, e);
    }
  }

  predicate SplitsOnGrid(tol: Tolerances, actions: seq<CorporateAction>) {
    forall i :: 0 <= i < |actions| ==> actions[i].kind == SplitOrBonus ==> RatioOnGrid(tol, actions[i].amount)
  }

  lemma ActBalanced(env: Env, m: Market, st: State, action: CorporateAction, d: int)
    requires Unfelt(env.tol) && Balanced(env, m, d, st)
    requires action.kind == SplitOrBonus ==> RatioOnGrid(env.tol, action.amount)
    ensures Act(env, st, action, d).Ok? ==> Balanced(env, m, d, Act(env, st, action, d).state)
    ensures Act(env, st, action, d).Fail? ==> action.kind == SplitOrBonus && action.amount <= 0.0
  {
    ActionsConserveValue(env.tol, st.account, action.symbol, d, action.amount);
    match action.kind
    case Dividend =>
      var (account, receipt) := ApplyDividend(env.tol, st.account, action.symbol, d, action.amount);
      if receipt.Some? {
        AddReceipt(st.receipts, receipt.value);
      }
    case SplitOrBonus =>
      SplitKeepsAgreement(env.tol, st.account, action.symbol, d, action.amount, d);
      HeldInStep(env.tol, st.account, action.symbol);
      if action.amount > 0.0 && action.symbol in st.account.lots {
        assert |SplitLots(st.account.lots[action.symbol], action.amount)| == |st.account.lots[action.symbol]|;
      }
    case Unhandled =>
  }

  lemma {:induction false} ActedBalanced(env: Env, m: Market, st: State, due: seq<CorporateAction>, d: int, n: nat)
    requires Unfelt(env.tol) && Balanced(env, m, d, st) && n <= |due| && SplitsOnGrid(env.tol, due)
    ensures Acted(env, st, due, d, n).Ok? ==> Balanced(env, m, d, Acted(env, st, due, d, n).state)
    ensures Acted(env, st, due, d, n).Fail? ==>
              exists i :: 0 <= i < |due| && due[i].kind == SplitOrBonus && due[i].amount <= 0.0
  {
    if n > 0 {
      ActedBalanced(env, m, st, due, d, n - 1);
      if Acted(env, st, due, d, n - 1).Ok? {
        ActBalanced(env, m, Acted(env, st, due, d, n - 1).state, due[n - 1], d);
      }
    }
  }

  lemma ExecutionBarSeen(m: Market, s: Symbol, d: int)
    requires ExecutionBar(m, s, d).Some?
    ensures ExecutionBar(m, s, d).value.date == d
    ensures s in Prices(m, d)
  {
    var bars := SortByDate(m.bars[s]);
    BarOnOfPast(bars, d);
    UptoMembers(bars, d);
    assert ExecutionBar(m, s, d).value in Upto(bars, d);
  }

  lemma FillKeepsPriced(costs: CostTax.Config, tol: Tolerances, led: Account, fill: Fill, prices: map<Symbol, real>)
    requires Priced(led, prices) && fill.symbol in prices
    ensures ApplyFill(costs, tol, led, fill).Booked? ==>
              Priced(ApplyFill(costs, tol, led, fill).ledger, prices)
  {
  }

  lemma TradeBalanced(env: Env, m: Market, st: State, tag: nat, fill: Fill)
    requires Unfelt(env.tol) && Balanced(env, m, fill.date, st) && GoodFill(fill)
    requires fill.symbol in Prices(m, fill.date)
    ensures var r := ApplyFill(env.costs, env.tol, st.account, fill);
            && !r.LotsShort?
            && (r.Booked? ==> Balanced(env, m, fill.date,
                                       st.(account := r.ledger, trades := st.trades + [Trade(tag, fill, r.gains)])))
  {
    FillKeepsAgreement(env.costs, env.tol, st.account, fill);
    FillKeepsPriced(env.costs, env.tol, st.account, fill, Prices(m, fill.date));
    var r := ApplyFill(env.costs, env.tol, st.account, fill);
    if r.Booked? {
      FillConservesValue(env.costs, env.tol, st.account, fill);
      NoSlipWhenUnfelt(env.tol, st.account, fill);
      AddTrade(st.trades, Trade(tag, fill, r.gains));
    }
  }

  /** Meeting one queued order keeps the books in order, and never finds the lots short. */
  lemma SettleBalanced(env: Env, m: Market, st: State, p: Pending, d: int)
    requires Unfelt(env.tol) && Balanced(env, m, d, st)
    ensures Settle(env, m, st, p, d).Ok?
    ensures Balanced(env, m, d, Settle(env, m, st, p, d).state)
  {
    SettleBooks(env, m, st, p, d);
    var bar := ExecutionBar(m, p.intent.symbol, d);
    if d >= p.target && bar.Some? && TryFill(env.costs, env.participation, p, bar.value).Some? {
      var fill := TryFill(env.costs, env.participation, p, bar.value).value;
      FillSound(env.costs, env.participation, p, bar.value);
      ExecutionBarSeen(m, p.intent.symbol, d);
      TradeBalanced(env, m, st, p.tag, fill);
    }
  }

  /** Meeting an order changes the books by its fill, if any, and by nothing else. */
  lemma SettleBooks(env: Env, m: Market, st: State, p: Pending, d: int)
    ensures var bar, r := ExecutionBar(m, p.intent.symbol, d), Settle(env, m, st, p, d);
            if d < p.target || bar.None? || TryFill(env.costs, env.participation, p, bar.value).None? then
              r.Ok? && SameBooks(r.state, st)
            else
              var fill := TryFill(env.costs, env.participation, p, bar.value).value;
              match ApplyFill(env.costs, env.tol, st.account, fill)
              case Booked(account, gains) =>
                r.Ok? && SameBooks(r.state, st.(account := account, trades := st.trades + [Trade(p.tag, fill, gains)]))
              case LotsShort(_) => r.Fail?
              case _ => r.Ok? && SameBooks(r.state, st)
  {
  }

  predicate SameBooks(a: State, b: State) {
    a.account == b.account && a.trades == b.trades && a.receipts == b.receipts
  }

  lemma {:induction false} SettledBalanced(env: Env, m: Market, st: State, queue: seq<Pending>, d: int, n: nat)
    requires Unfelt(env.tol) && Balanced(env, m, d, st) && n <= |queue|
    ensures Settled(env, m, st, queue, d, n).Ok?
    ensures Balanced(env, m, d, Settled(env, m, st, queue, d, n).state)
  {
    if n > 0 {
      SettledBalanced(env, m, st, queue, d, n - 1);
      SettleBalanced(env, m, Settled(env, m, st, queue, d, n - 1).state, queue[n - 1], d);
    }
  }

  /** Queueing orders touches nothing but the queue and the log of intents. */
  lemma {:induction false} EnqueuedFrame(env: Env, st: State, intents: seq<OrderIntent>, d: int, n: nat)
    requires n <= |intents|
    ensures var r := Enqueued(env, st, intents, d, n);
            r == st.(pending := r.pending, emitted := r.emitted)
  {
    if n > 0 {
      EnqueuedFrame(env, st, intents, d, n - 1);
    }
  }

  predicate MarketSplitsOnGrid(tol: Tolerances, m: Market) {
    forall i :: 0 <= i < |m.actions| ==> SplitsOnGrid(tol, m.actions[i])
  }

  lemma {:induction false} DueMembers(actions: seq<CorporateAction>, d: int)
    ensures forall a :: a in Due(actions, d) ==> a in actions
  {
    if actions != [] {
      DueMembers(actions[1..], d);
    }
  }

  lemma {:induction false} AllDueMembers(actions: seq<seq<CorporateAction>>, d: int)
    ensures forall a :: a in AllDue(actions, d) ==> exists i :: 0 <= i < |actions| && a in actions[i]
  {
    if actions != [] {
      DueMembers(actions[0], d);
      AllDueMembers(actions[1..], d);
      forall a | a in AllDue(actions, d)
        ensures exists i :: 0 <= i < |actions| && a in actions[i]
      {
        if a in Due(actions[0], d) {
          assert a in actions[0];
        } else {
          assert a in AllDue(actions[1..], d);
          var i :| 0 <= i < |actions[1..]| && a in actions[1..][i];
          assert a in actions[i + 1];
        }
      }
    }
  }

  lemma DueOnGrid(tol: Tolerances, m: Market, d: int)
    requires MarketSplitsOnGrid(tol, m)
    ensures SplitsOnGrid(tol, AllDue(m.actions, d))
  {
    AllDueMembers(m.actions, d);
    forall j | 0 <= j < |AllDue(m.actions, d)| && AllDue(m.actions, d)[j].kind == SplitOrBonus
      ensures RatioOnGrid(tol, AllDue(m.actions, d)[j].amount)
    {
      var a := AllDue(m.actions, d)[j];
      assert a in AllDue(m.actions, d);
      var i :| 0 <= i < |m.actions| && a in m.actions[i];
    }
  }

  predicate BadRatioDue(m: Market, d: int) {
    exists i :: 0 <= i < |AllDue(m.actions, d)|
                && AllDue(m.actions, d)[i].kind == SplitOrBonus && AllDue(m.actions, d)[i].amount <= 0.0
  }

  /** Once the run has started, the last point of the equity curve is the valuation of that day. */
  ghost predicate Valued(env: Env, m: Market, st: State, d: int) {
    d >= env.start ==> st.equity != [] && st.equity[|st.equity| - 1] == Valuation(env, m, st.account, d)
  }

  lemma DayBalanced(env: Env, m: Market, st: State, d: int)
    requires Unfelt(env.tol) && MarketSplitsOnGrid(env.tol, m) && Balanced(env, m, d, st)
    ensures match Day(env, m, st, d)
            case Ok(after) => Balanced(env, m, d, after) && Valued(env, m, after, d)
            case Fail(_) => BadRatioDue(m, d)
  {
    if d >= env.start {
      var due := AllDue(m.actions, d);
      DueOnGrid(env.tol, m, d);
      ActedBalanced(env, m, st, due, d, |due|);
      var acted := Acted(env, st, due, d, |due|);
      if acted.Ok? {
        var queue := acted.state.pending;
        SettledBalanced(env, m, acted.state.(pending := []), queue, d, |queue|);
        var settled := Settled(env, m, acted.state.(pending := []), queue, d, |queue|).state;
        var intents := env.strategy(Surveyed(env, m, settled, d).seen);
        EnqueuedFrame(env, Surveyed(env, m, settled, d), intents, d, |intents|);
      }
    }
  }

  lemma {:induction false} AlwaysBalanced(env: Env, m: Market, dates: seq<int>, n: nat)
    requires Unfelt(env.tol) && MarketSplitsOnGrid(env.tol, m) && Increasing(dates) && 0 < n <= |dates|
    ensures match After(env, m, dates, n)
            case Ok(st) => Balanced(env, m, dates[n - 1], st) && Valued(env, m, st, dates[n - 1])
            case Fail(_) => exists i :: 0 <= i < n && BadRatioDue(m, dates[i])
  {
    if n > 1 {
      AlwaysBalanced(env, m, dates, n - 1);
    }
    if After(env, m, dates, n - 1).Ok? {
      var before := After(env, m, dates, n - 1).state;
      if n == 1 {
        StartsBalanced(env, m, dates[0]);
      } else {
        BalancedLater(env, m, dates[n - 2], dates[n - 1], before);
      }
      DayBalanced(env, m, before, dates[n - 1]);
    }
  }

  /**
   * P&L attribution. On every processed day, total value is the initial capital, plus realized gross gains, plus
   * market value over the cost basis of the open lots, less transaction costs, plus dividends; estimated tax is
   * never paid. The market value may be read off the lots: no held symbol is ever without a price.
   */
  lemma ProfitAttribution(env: Env, m: Market, dates: seq<int>, n: nat)
    requires Unfelt(env.tol) && MarketSplitsOnGrid(env.tol, m) && Increasing(dates) && 0 < n <= |dates|
    requires dates[n - 1] >= env.start && After(env, m, dates, n).Ok?
    ensures var st := After(env, m, dates, n).state;
            && st.equity != []
            && Priced(st.account, Prices(m, dates[n - 1]))
            && var point := st.equity[|st.equity| - 1];
               && point.date == dates[n - 1]
               && point.TotalValue()
                  == env.capital + Realized(st.trades)
                     + (LotsValue(st.account.lots, Prices(m, dates[n - 1])) - Total(Bases(st.account.lots)))
                     - Costs(st.trades) + Credited(st.receipts)
  {
    AlwaysBalanced(env, m, dates, n);
    ValuationAgrees(env.tol, After(env, m, dates, n).state.account, Prices(m, dates[n - 1]));
  }

  /** In every reachable state each position is the sum of its open lots, and no sell has ever found them short:
      a run can only fail on a split with a non-positive ratio. */
  lemma LedgerAgreement(env: Env, m: Market, dates: seq<int>, n: nat)
    requires Unfelt(env.tol) && MarketSplitsOnGrid(env.tol, m) && Increasing(dates) && n <= |dates|
    ensures After(env, m, dates, n).Fail? ==> exists i :: 0 <= i < n && BadRatioDue(m, dates[i])
    ensures After(env, m, dates, n).Ok? ==>
              var account := After(env, m, dates, n).state.account;
              forall s :: Held(account, s) == Quantity(LotsOf(account.lots, s))
  {
    if n > 0 {
      AlwaysBalanced(env, m, dates, n);
    }
  }

  /** Each day from the start date adds one equity point and rewrites none. */
  lemma EquityGrows(env: Env, m: Market, dates: seq<int>, n: nat)
    requires 0 < n <= |dates| && After(env, m, dates, n).Ok?
    ensures After(env, m, dates, n - 1).Ok?
    ensures var before, after := After(env, m, dates, n - 1).state, After(env, m, dates, n).state;
            if dates[n - 1] < env.start then after == before
            else after.equity == before.equity + [Valuation(env, m, after.account, dates[n - 1])]
  {
    var st, d := After(env, m, dates, n - 1).state, dates[n - 1];
    if d >= env.start {
      var due := AllDue(m.actions, d);
      ActedKeepsEquity(env, st, due, d, |due|);
      var acted := Acted(env, st, due, d, |due|).state;
      SettledKeepsEquity(env, m, acted.(pending := []), acted.pending, d, |acted.pending|);
      var settled := Settled(env, m, acted.(pending := []), acted.pending, d, |acted.pending|).state;
      var intents := env.strategy(Surveyed(env, m, settled, d).seen);
      EnqueuedFrame(env, Surveyed(env, m, settled, d), intents, d, |intents|);
    }
  }

  lemma {:induction false} ActedKeepsEquity(env: Env, st: State, due: seq<CorporateAction>, d: int, n: nat)
    requires n <= |due| && Acted(env, st, due, d, n).Ok?
    ensures Acted(env, st, due, d, n).state.equity == st.equity
  {
    if n > 0 {
      ActedKeepsEquity(env, st, due, d, n - 1);
    }
  }

  lemma {:induction false} SettledKeepsEquity(env: Env, m: Market, st: State, queue: seq<Pending>, d: int, n: nat)
    requires n <= |queue| && Settled(env, m, st, queue, d, n).Ok?
    ensures Settled(env, m, st, queue, d, n).state.equity == st.equity
  {
    if n > 0 {
      SettledKeepsEquity(env, m, st, queue, d, n - 1);
    }
  }
}
