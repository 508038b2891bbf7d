/** Whole runs: exactly when one fails, and where every open lot and every realized gain comes from. */
module RunLedger {
  import opened Common
  import opened CostTax
  import opened Fifo
  import opened GainsTax
  import opened MarketData
  import opened FillSimulator
  import opened Ledger
  import opened Backtest
  import opened Attribution
  import opened DayData

  // When a run fails -------------------------------------------------------------------------------------------

  /** On day d, from the start of the run on, a held symbol is due for a split by a ratio that is not positive. */
  predicate FailsOn(env: Env, m: Market, account: Account, d: int) {
    d >= env.start && BadRatioMet(env.tol, account, AllDue(m.actions, d), |AllDue(m.actions, d)|)
  }

  lemma DayFailsIff(env: Env, m: Market, st: State, d: int)
    requires Unfelt(env.tol) && MarketSplitsOnGrid(env.tol, m) && Balanced(env, m, d, st)
    ensures Day(env, m, st, d).Fail? <==> FailsOn(env, m, st.account, d)
    ensures Day(env, m, st, d).Fail? ==> Day(env, m, st, d).error == BadSplitRatio
  {
    if d >= env.start {
      var due := AllDue(m.actions, d);
      ActionsOfDay(env, st, due, d, |due|);
      var acted := Acted(env, st, due, d, |due|);
      if acted.Ok? {
        DueOnGrid(env.tol, m, d);
        ActedBalanced(env, m, st, due, d, |due|);
        SettledBalanced(env, m, acted.state.(pending := []), acted.state.pending, d, |acted.state.pending|);
      }
    }
  }

  ghost predicate FailedBefore(env: Env, m: Market, dates: seq<int>, n: nat)
    requires n <= |dates|
  {
    exists i :: 0 <= i < n && After(env, m, dates, i).Ok?
                && FailsOn(env, m, After(env, m, dates, i).state.account, dates[i])
  }

  lemma {:induction false} AfterFailsIff(env: Env, m: Market, dates: seq<int>, n: nat)
    requires Unfelt(env.tol) && MarketSplitsOnGrid(env.tol, m) && Increasing(dates) && n <= |dates|
    ensures After(env, m, dates, n).Fail? <==> FailedBefore(env, m, dates, n)
    ensures After(env, m, dates, n).Fail? ==> After(env, m, dates, n).error == BadSplitRatio
  {
    if n > 0 {
      AfterFailsIff(env, m, dates, n - 1);
      var before := After(env, m, dates, n - 1);
      if before.Ok? {
        BalancedBefore(env, m, dates, n - 1);
        DayFailsIff(env, m, before.state, dates[n - 1]);
      }
    }
  }

  lemma BalancedBefore(env: Env, m: Market, dates: seq<int>, n: nat)
    requires Unfelt(env.tol) && MarketSplitsOnGrid(env.tol, m) && Increasing(dates) && n < |dates|
    requires After(env, m, dates, n).Ok?
    ensures Balanced(env, m, dates[n], After(env, m, dates, n).state)
  {
    if n == 0 {
      StartsBalanced(env, m, dates[0]);
    } else {
      AlwaysBalanced(env, m, dates, n);
      BalancedLater(env, m, dates[n - 1], dates[n], After(env, m, dates, n).state);
    }
  }

  /**
   * A run fails exactly when some bar is invalid, or on some processed day a held symbol is due for a split by a
   * ratio that is not positive; lots are never short.
   */
  lemma RunFailsIff(env: Env, m: Market, dates: seq<int>)
    requires Unfelt(env.tol) && MarketSplitsOnGrid(env.tol, m) && Increasing(dates)
    ensures match Result(env, m, dates)
            case Ok(_) => Sane(m) && !FailedBefore(env, m, dates, |dates|)
            case Fail(InvalidBars) => exists s, b :: s in m.bars && b in m.bars[s] && !SaneBar(b)
            case Fail(BadSplitRatio) => Sane(m) && FailedBefore(env, m, dates, |dates|)
            case Fail(InsufficientLots(_)) => false
  {
    AfterFailsIff(env, m, dates, |dates|);
  }

  // Where lots and gains come from -----------------------------------------------------------------------------

  /** One of the trades bought the symbol on that date. */
  predicate BoughtOn(trades: seq<Trade>, s: Symbol, date: int) {
    exists t :: t in trades && t.fill.side == Buy && t.fill.symbol == s && t.fill.date == date
  }

  predicate LotsTraced(trades: seq<Trade>, s: Symbol, lots: seq<TaxLot>) {
    forall lot :: lot in lots ==> lot.symbol == s && BoughtOn(trades, s, lot.buyDate)
  }

  /** The gains of a sale are of its symbol, bought in one of the trades, and taxed by the rules. */
  predicate GainsTraced(env: Env, trades: seq<Trade>, t: Trade) {
    forall g :: g in t.gains ==>
      && t.fill.side == Sell && g.symbol == t.fill.symbol && BoughtOn(trades, g.symbol, g.buyDate)
      && TaxedRight(env.costs, g, t.fill.date, t.fill.price)
  }

  ghost predicate Traced(env: Env, st: State) {
    && (forall s :: s in st.account.lots ==> LotsTraced(st.trades, s, st.account.lots[s]))
    && (forall t :: t in st.trades ==> GainsTraced(env, st.trades, t))
  }

  lemma BoughtMore(trades: seq<Trade>, t: Trade)
    ensures forall s, date :: BoughtOn(trades, s, date) ==> BoughtOn(trades + [t], s, date)
    ensures t.fill.side == Buy ==> BoughtOn(trades + [t], t.fill.symbol, t.fill.date)
  {
    assert t in trades + [t];
    forall s, date | BoughtOn(trades, s, date)
      ensures BoughtOn(trades + [t], s, date)
    {
      var x :| x in trades && x.fill.side == Buy && x.fill.symbol == s && x.fill.date == date;
      assert x in trades + [t];
    }
  }

  /** Lots left by a sale are lots it found, up to their quantity. */
  lemma {:induction false} LeftAreFound(
    cfg: Config, tol: real, lots: seq<TaxLot>, date: int, q: real, price: real, left: TaxLot)
    requires MatchLots(cfg, tol, lots, date, q, price).Matched?
    requires left in MatchLots(cfg, tol, lots, date, q, price).lots
    ensures exists lot :: lot in lots && left == lot.(quantity := left.quantity)
  {
    if q <= tol {
      assert left == left.(quantity := left.quantity);
    } else {
      var matched := Smaller(lots[0].quantity, q);
      if matched >= lots[0].quantity - tol {
        LeftAreFound(cfg, tol, lots[1..], date, q - matched, price, left);
        var lot :| lot in lots[1..] && left == lot.(quantity := left.quantity);
        assert lot in lots;
      } else if left == lots[0].(quantity := lots[0].quantity - matched) {
        assert lots[0] in lots;
      } else {
        assert left in lots[1..] && left in lots && left == left.(quantity := left.quantity);
      }
    }
  }

  lemma LotsLeftTraced(trades: seq<Trade>, s: Symbol, cfg: Config, tol: real, lots: seq<TaxLot>, date: int, q: real,
                       price: real)
    requires LotsTraced(trades, s, lots) && MatchLots(cfg, tol, lots, date, q, price).Matched?
    ensures LotsTraced(trades, s, MatchLots(cfg, tol, lots, date, q, price).lots)
  {
    forall left | left in MatchLots(cfg, tol, lots, date, q, price).lots
      ensures left.symbol == s && BoughtOn(trades, s, left.buyDate)
    {
      LeftAreFound(cfg, tol, lots, date, q, price, left);
      var lot :| lot in lots && left == lot.(quantity := left.quantity);
    }
  }

  lemma SaleTraced(env: Env, trades: seq<Trade>, fill: Fill, lots: seq<TaxLot>, t: Trade)
    requires LotsTraced(trades, fill.symbol, lots) && fill.side == Sell && t.fill == fill
    requires var m := MatchLots(env.costs, env.tol.lot, lots, fill.date, fill.quantity as real, fill.price);
             m.Matched? && t.gains == m.gains
    ensures GainsTraced(env, trades, t)
  {
    forall i | 0 <= i < |t.gains|
      ensures t.gains[i].symbol == fill.symbol && BoughtOn(trades, fill.symbol, t.gains[i].buyDate)
      ensures TaxedRight(env.costs, t.gains[i], fill.date, fill.price)
    {
      GainsTaxedRight(env.costs, env.tol.lot, lots, fill.date, fill.quantity as real, fill.price, i);
      var k :| 0 <= k < |lots| && t.gains[i].buyDate == lots[k].buyDate && t.gains[i].symbol == lots[k].symbol;
      assert lots[k] in lots;
    }
  }

  lemma TradesTracedMore(env: Env, trades: seq<Trade>, t: Trade)
    requires forall x :: x in trades ==> GainsTraced(env, trades, x)
    requires GainsTraced(env, trades, t)
    ensures forall x :: x in trades + [t] ==> GainsTraced(env, trades + [t], x)
  {
    BoughtMore(trades, t);
    forall x | x in trades + [t]
      ensures GainsTraced(env, trades + [t], x)
    {
      assert x in trades || x == t;
    }
  }

  lemma FillTraced(env: Env, st: State, tag: nat, fill: Fill)
    requires Traced(env, st) && ApplyFill(env.costs, env.tol, st.account, fill).Booked?
    ensures var r := ApplyFill(env.costs, env.tol, st.account, fill);
            Traced(env, st.(account := r.ledger, trades := st.trades + [Trade(tag, fill, r.gains)]))
  {
    var r := ApplyFill(env.costs, env.tol, st.account, fill);
    var t, lots := Trade(tag, fill, r.gains), LotsOf(st.account.lots, fill.symbol);
    BoughtMore(st.trades, t);
    assert LotsTraced(st.trades, fill.symbol, lots);
    if fill.side == Sell {
      SaleTraced(env, st.trades, fill, lots, t);
      LotsLeftTraced(
        st.trades, fill.symbol, env.costs, env.tol.lot, lots, fill.date, fill.quantity as real, fill.price);
    }
    TradesTracedMore(env, st.trades, t);
  }

  lemma SettleTraced(env: Env, m: Market, st: State, p: Pending, d: int)
    requires Traced(env, st) && Settle(env, m, st, p, d).Ok?
    ensures Traced(env, Settle(env, m, st, p, d).state)
  {
    SettleBooks(env, m, st, p, d);
    var bar := ExecutionBar(m, p.intent.symbol, d);
    if d >= p.target && bar.Some? && TryFill(env.costs, env.participation, p, bar.value).Some? {
      var fill := TryFill(env.costs, env.participation, p, bar.value).value;
      if ApplyFill(env.costs, env.tol, st.account, fill).Booked? {
        FillTraced(env, st, p.tag, fill);
      }
    }
  }

  lemma {:induction false} SettledTraced(env: Env, m: Market, st: State, queue: seq<Pending>, d: int, n: nat)
    requires n <= |queue| && Traced(env, st) && Settled(env, m, st, queue, d, n).Ok?
    ensures Traced(env, Settled(env, m, st, queue, d, n).state)
  {
    if n > 0 {
      SettledTraced(env, m, st, queue, d, n - 1);
      SettleTraced(env, m, Settled(env, m, st, queue, d, n - 1).state, queue[n - 1], d);
    }
  }

  lemma SplitTraced(trades: seq<Trade>, s: Symbol, lots: seq<TaxLot>, ratio: real)
    requires LotsTraced(trades, s, lots) && ratio > 0.0
    ensures LotsTraced(trades, s, SplitLots(lots, ratio))
  {
    forall i | 0 <= i < |lots|
      ensures SplitLots(lots, ratio)[i].symbol == s && BoughtOn(trades, s, SplitLots(lots, ratio)[i].buyDate)
    {
      SplitPreservesLot(lots, ratio, i);
      assert lots[i] in lots;
    }
  }

  lemma ActTraced(env: Env, st: State, action: CorporateAction, d: int)
    requires Traced(env, st) && Act(env, st, action, d).Ok?
    ensures Traced(env, Act(env, st, action, d).state)
  {
    if action.kind == SplitOrBonus && action.amount > 0.0 && action.symbol in st.account.lots {
      SplitTraced(st.trades, action.symbol, st.account.lots[action.symbol], action.amount);
    }
  }

  lemma {:induction false} ActedTraced(env: Env, st: State, due: seq<CorporateAction>, d: int, n: nat)
    requires n <= |due| && Traced(env, st) && Acted(env, st, due, d, n).Ok?
    ensures Traced(env, Acted(env, st, due, d, n).state)
  {
    if n > 0 {
      ActedTraced(env, st, due, d, n - 1);
      ActTraced(env, Acted(env, st, due, d, n - 1).state, due[n - 1], d);
    }
  }

  lemma DayTraced(env: Env, m: Market, st: State, d: int)
    requires Traced(env, st) && Day(env, m, st, d).Ok?
    ensures Traced(env, Day(env, m, st, d).state)
  {
    if d >= env.start {
      var due := AllDue(m.actions, d);
      ActedTraced(env, st, due, d, |due|);
      var acted := Acted(env, st, due, d, |due|).state;
      SettledTraced(env, m, acted.(pending := []), acted.pending, d, |acted.pending|);
      var settled := Settled(env, m, acted.(pending := []), acted.pending, d, |acted.pending|).state;
      var surveyed := Surveyed(env, m, settled, d);
      EnqueuedFrame(env, surveyed, env.strategy(surveyed.seen), d, |env.strategy(surveyed.seen)|);
    }
  }

  /**
   * On every day of every run each open lot was bought by one of the trades, on the date it carries; and each realized
   * gain is of the symbol sold, dates back to a trade that bought it, and is classified and taxed by the rules.
   */
  lemma {:induction false} AlwaysTraced(env: Env, m: Market, dates: seq<int>, n: nat)
    requires n <= |dates| && After(env, m, dates, n).Ok?
    ensures Traced(env, After(env, m, dates, n).state)
  {
    if n > 0 {
      AlwaysTraced(env, m, dates, n - 1);
      DayTraced(env, m, After(env, m, dates, n - 1).state, dates[n - 1]);
    }
  }
}
