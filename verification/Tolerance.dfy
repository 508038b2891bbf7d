/** What is left of the exact results at the code's own tolerances, with fractional holdings: bounds over whole runs. */
module Tolerance {
  import opened Common
  import opened Sums
  import opened CostTax
  import opened Fifo
  import opened MarketData
  import opened FillSimulator
  import opened Ledger
  import opened Backtest
  import opened Attribution

  function Larger(a: real, b: real): real { if a < b then b else a }

  /** How much a split by this ratio can magnify units or prices. */
  function Factor(ratio: real): real
    requires ratio > 0.0
  {
    if ratio >= 1.0 then ratio else 1.0 / ratio
  }

  /** How much all the splits so far can have magnified units or prices; a ratio that never applied counts as 1. */
  function Scale(events: seq<SplitEvent>): real {
    if events == [] then 1.0
    else
      var last := events[|events| - 1];
      Times(Scale(events[..|events| - 1]), if last.ratio > 0.0 then Factor(last.ratio) else 1.0)
  }

  /** The highest price paid or received so far. */
  function Highest(trades: seq<Trade>): real {
    if trades == [] then 0.0 else Larger(Highest(trades[..|trades| - 1]), trades[|trades| - 1].fill.price)
  }

  lemma FactorBounds(ratio: real)
    requires ratio > 0.0
    ensures Factor(ratio) >= 1.0 && Factor(ratio) >= ratio && Times(Factor(ratio), ratio) >= 1.0
  {
    if ratio < 1.0 {
      assert Times(1.0 / ratio, ratio) == 1.0;
      TimesMonotone(ratio, 1.0, 1.0 / ratio);
    }
  }

  lemma {:induction false} ScaleAtLeastOne(events: seq<SplitEvent>)
    ensures Scale(events) >= 1.0
  {
    if events != [] {
      var fewer, last := events[..|events| - 1], events[|events| - 1];
      ScaleAtLeastOne(fewer);
      if last.ratio > 0.0 {
        FactorBounds(last.ratio);
        TimesMonotone(1.0, Scale(fewer), Factor(last.ratio));
      }
    }
  }

  lemma ProductOfBounds(a: real, b: real, c: real, d: real)
    requires 0.0 <= a <= b && 0.0 <= c <= d
    ensures 0.0 <= Times(a, c) <= Times(b, d)
  {
    TimesMonotone(a, b, c);
    assert Times(b, d) - Times(b, c) == Times(b, d - c);
    assert Times(b, d - c) >= 0.0;
  }

  // ---- Lots: prices and slips ----

  predicate PricedUpTo(lots: seq<TaxLot>, top: real) {
    forall i :: 0 <= i < |lots| ==> 0.0 <= lots[i].buyPrice <= top
  }

  lemma {:induction false} SellKeepsPrices(
    cfg: Config, tol: real, lots: seq<TaxLot>, date: int, q: real, price: real, top: real)
    requires PricedUpTo(lots, top) && MatchLots(cfg, tol, lots, date, q, price).Matched?
    ensures PricedUpTo(MatchLots(cfg, tol, lots, date, q, price).lots, top)
  {
    if q > tol && Smaller(lots[0].quantity, q) >= lots[0].quantity - tol {
      SellKeepsPrices(cfg, tol, lots[1..], date, q - Smaller(lots[0].quantity, q), price, top);
    }
  }

  lemma {:induction false} DroppedCostBounded(tol: real, lots: seq<TaxLot>, q: real, top: real)
    requires tol >= 0.0 && Sound(lots) && q >= 0.0 && PricedUpTo(lots, top) && top >= 0.0
    ensures 0.0 <= SlipOf(tol, lots, q).droppedCost <= Times(SlipOf(tol, lots, q).dropped, top)
  {
    if q > tol && lots != [] && lots[0].quantity - Smaller(lots[0].quantity, q) <= tol {
      var residue := lots[0].quantity - Smaller(lots[0].quantity, q);
      DroppedCostBounded(tol, lots[1..], q - Smaller(lots[0].quantity, q), top);
      ProductOfBounds(residue, residue, lots[0].buyPrice, top);
      Distribute(SlipOf(tol, lots[1..], q - Smaller(lots[0].quantity, q)).dropped, residue, top);
    } else {
      assert Times(0.0, top) == 0.0;
    }
  }

  lemma SplitPrices(lots: seq<TaxLot>, ratio: real, top: real)
    requires ratio > 0.0 && PricedUpTo(lots, top) && top >= 0.0
    ensures PricedUpTo(SplitLots(lots, ratio), Times(top, Factor(ratio)))
  {
    forall i | 0 <= i < |lots|
      ensures 0.0 <= SplitLots(lots, ratio)[i].buyPrice <= Times(top, Factor(ratio))
    {
      SplitPreservesLot(lots, ratio, i);
      SplitPrice(lots[i].buyPrice, ratio, top);
    }
  }

  lemma SplitPrice(price: real, ratio: real, top: real)
    requires ratio > 0.0 && 0.0 <= price <= top
    ensures 0.0 <= price / ratio <= Times(top, Factor(ratio))
  {
    var quotient := price / ratio;
    assert Times(quotient, ratio) == price;
    FactorBounds(ratio);
    ProductOfBounds(price, top, Factor(ratio), Factor(ratio));
    assert quotient >= 0.0;
    if quotient > Times(price, Factor(ratio)) {
      ScaleOrder(Times(price, Factor(ratio)), quotient, ratio);
      assert Times(Times(price, Factor(ratio)), ratio) == Times(price, Times(Factor(ratio), ratio));
      ProductOfBounds(price, price, 1.0, Times(Factor(ratio), ratio));
    }
  }

  // ---- One event ----

  /** Positions and lots apart by at most `drift`, lots priced within `top`. */
  ghost predicate Near(account: Account, drift: real, top: real) {
    && (forall s :: -drift <= Held(account, s) - Quantity(LotsOf(account.lots, s)) <= drift)
    && (forall s :: s in account.lots ==> Sound(account.lots[s]) && PricedUpTo(account.lots[s], top))
  }

  lemma NearLater(account: Account, drift: real, top: real, drift': real, top': real)
    requires Near(account, drift, top) && drift <= drift' && top <= top'
    ensures Near(account, drift', top')
  {
  }

  /** One fill lets the two drift apart by at most one tolerance, and money slip by at most one tolerance of units. */
  lemma FillStaysNear(costs: CostTax.Config, tol: Tolerances, account: Account, fill: Fill, drift: real, top: real)
    requires tol.lot >= 0.0 && Near(account, drift, top) && GoodFill(fill) && 0.0 <= fill.price <= top
    requires ApplyFill(costs, tol, account, fill).Booked?
    ensures Near(ApplyFill(costs, tol, account, fill).ledger, drift + tol.lot, top)
    ensures -Times(tol.lot, top) <= SlipValue(tol, account, fill) <= Times(tol.lot, top)
  {
    var after := ApplyFill(costs, tol, account, fill).ledger;
    FillDrift(costs, tol, account, fill);
    if fill.side == Sell {
      SellStaysPriced(costs, tol, account, fill, top);
      SlipIsWorthLittle(tol.lot, LotsOf(account.lots, fill.symbol), fill.quantity as real, fill.price, top);
    } else {
      ProductOfBounds(0.0, tol.lot, 0.0, top);
    }
    forall s
      ensures -(drift + tol.lot) <= Held(after, s) - Quantity(LotsOf(after.lots, s)) <= drift + tol.lot
    {
      if s != fill.symbol {
        assert Held(after, s) == Held(account, s) && LotsOf(after.lots, s) == LotsOf(account.lots, s);
      }
    }
  }

  lemma SellStaysPriced(costs: CostTax.Config, tol: Tolerances, account: Account, fill: Fill, top: real)
    requires tol.lot >= 0.0 && fill.side == Sell && fill.quantity > 0
    requires forall s :: s in account.lots ==> Sound(account.lots[s]) && PricedUpTo(account.lots[s], top)
    requires ApplyFill(costs, tol, account, fill).Booked?
    ensures var after := ApplyFill(costs, tol, account, fill).ledger;
            forall s :: s in after.lots ==> Sound(after.lots[s]) && PricedUpTo(after.lots[s], top)
  {
    var lots := LotsOf(account.lots, fill.symbol);
    SellConservesUnits(costs, tol.lot, lots, fill.date, fill.quantity as real, fill.price);
    SellKeepsPrices(costs, tol.lot, lots, fill.date, fill.quantity as real, fill.price, top);
  }

  lemma SlipIsWorthLittle(tol: real, lots: seq<TaxLot>, q: real, price: real, top: real)
    requires tol >= 0.0 && Sound(lots) && q >= 0.0 && PricedUpTo(lots, top) && 0.0 <= price <= top
    ensures var slip := SlipOf(tol, lots, q);
            -Times(tol, top) <= Times(slip.unsold, price) - slip.droppedCost <= Times(tol, top)
  {
    var slip := SlipOf(tol, lots, q);
    SlipIsSmall(tol, lots, q);
    DroppedCostBounded(tol, lots, q, top);
    ProductOfBounds(slip.unsold, tol, price, top);
    ProductOfBounds(slip.dropped, tol, top, top);
  }

  /** A split magnifies both by at most its factor. */
  lemma SplitStaysNear(tol: Tolerances, account: Account, s: Symbol, exDate: int, ratio: real, drift: real, top: real)
    requires Near(account, drift, top) && drift >= 0.0 && top >= 0.0
    requires ApplySplit(tol, account, s, exDate, ratio).Scaled?
    ensures Near(ApplySplit(tol, account, s, exDate, ratio).ledger,
                 Times(drift, Factor(ratio)), Times(top, Factor(ratio)))
  {
    var after := ApplySplit(tol, account, s, exDate, ratio).ledger;
    FactorBounds(ratio);
    forall other
      ensures var gap := Held(after, other) - Quantity(LotsOf(after.lots, other));
              -Times(drift, Factor(ratio)) <= gap <= Times(drift, Factor(ratio))
    {
      SplitScalesDrift(tol, account, s, exDate, ratio, other);
      MagnifiedWithin(Held(account, other) - Quantity(LotsOf(account.lots, other)), drift,
                      if other == s then ratio else 1.0, Factor(ratio));
    }
    ProductOfBounds(top, top, 1.0, Factor(ratio));
    if s in account.lots {
      SplitPreserves(account.lots[s], ratio);
      SplitPrices(account.lots[s], ratio, top);
    }
  }

  lemma MagnifiedWithin(gap: real, drift: real, ratio: real, factor: real)
    requires -drift <= gap <= drift && 0.0 <= ratio <= factor
    ensures -Times(drift, factor) <= Times(gap, ratio) <= Times(drift, factor)
  {
    var size := if gap < 0.0 then -gap else gap;
    ProductOfBounds(size, drift, ratio, factor);
    assert Times(-gap, ratio) == -Times(gap, ratio);
  }

  // ---- A run ----

  /** What the books would say if nothing had slipped. */
  function Ideal(env: Env, st: State): real {
    env.capital + Realized(st.trades) - Costs(st.trades) + Credited(st.receipts)
  }

  /** One tolerance of units for every trade so far. */
  function Slack(tol: real, trades: seq<Trade>): real {
    Times(tol, |trades| as real)
  }

  function Top(st: State): real {
    Times(Highest(st.trades), Scale(st.events))
  }

  /** The books of a state are in order up to what can have slipped. */
  ghost predicate Loose(env: Env, m: Market, d: int, st: State) {
    && Near(st.account, Times(Slack(env.tol.lot, st.trades), Scale(st.events)), Top(st))
    && (forall s :: s in st.account.positions ==> s in Prices(m, d))
    && -Times(Slack(env.tol.lot, st.trades), Top(st)) <= BookValue(st.account) - Ideal(env, st)
    && BookValue(st.account) - Ideal(env, st) <= Times(Slack(env.tol.lot, st.trades), Top(st))
  }

  lemma StartsLoose(env: Env, m: Market, d: int)
    ensures Loose(env, m, d, Initial(env))
  {
    assert Times(0.0, 0.0) == 0.0 && Times(0.0, 1.0) == 0.0 && Times(env.tol.lot, 0.0) == 0.0;
    assert Bases(map[]) == map[];
  }

  lemma LooseLater(env: Env, m: Market, d: int, e: int, st: State)
    requires Loose(env, m, d, st) && d <= e
    ensures Loose(env, m, e, st)
  {
    forall s | s in Prices(m, d)
      ensures s in Prices(m, e)
    {
      UptoGrows(SortByDate(m.bars[s]), d, e);
    }
  }

  lemma {:induction false} HighestNonNegative(trades: seq<Trade>)
    ensures Highest(trades) >= 0.0
  {
    if trades != [] {
      HighestNonNegative(trades[..|trades| - 1]);
    }
  }

  lemma SlackNonNegative(tol: real, trades: seq<Trade>)
    requires tol >= 0.0
    ensures Slack(tol, trades) >= 0.0
  {
    TimesMonotone(0.0, tol, |trades| as real);
  }

  lemma SlackGrows(tol: real, trades: seq<Trade>, t: Trade, x: real, y: real)
    requires tol >= 0.0 && 0.0 <= x <= y
    ensures Times(Slack(tol, trades), x) + Times(tol, y) <= Times(Slack(tol, trades + [t]), y)
  {
    SlackNonNegative(tol, trades);
    assert |trades + [t]| as real == |trades| as real + 1.0;
    assert Slack(tol, trades + [t]) == Slack(tol, trades) + tol;
    Distribute(Slack(tol, trades), tol, y);
    ProductOfBounds(Slack(tol, trades), Slack(tol, trades), x, y);
  }

  lemma AddHighest(trades: seq<Trade>, t: Trade)
    ensures Highest(trades + [t]) == Larger(Highest(trades), t.fill.price)
  {
    assert (trades + [t])[..|trades|] == trades;
  }

  /** The top price after one more trade covers what it covered and the trade's own price. */
  lemma TopGrows(trades: seq<Trade>, events: seq<SplitEvent>, t: Trade)
    requires t.fill.price >= 0.0
    ensures var before, after := Times(Highest(trades), Scale(events)), Times(Highest(trades + [t]), Scale(events));
            0.0 <= before <= after && t.fill.price <= after
  {
    HighestNonNegative(trades);
    AddHighest(trades, t);
    ScaleAtLeastOne(events);
    ProductOfBounds(Highest(trades), Highest(trades + [t]), Scale(events), Scale(events));
    ProductOfBounds(t.fill.price, Highest(trades + [t]), 1.0, Scale(events));
  }

  lemma TradeLoose(env: Env, m: Market, st: State, tag: nat, fill: Fill)
    requires env.tol.lot >= 0.0 && Loose(env, m, fill.date, st) && GoodFill(fill) && fill.price >= 0.0
    requires fill.symbol in Prices(m, fill.date) && ApplyFill(env.costs, env.tol, st.account, fill).Booked?
    ensures var r := ApplyFill(env.costs, env.tol, st.account, fill);
            Loose(env, m, fill.date, st.(account := r.ledger, trades := st.trades + [Trade(tag, fill, r.gains)]))
  {
    var r, tol := ApplyFill(env.costs, env.tol, st.account, fill), env.tol.lot;
    var t, scale := Trade(tag, fill, r.gains), Scale(st.events);
    var after := st.(account := r.ledger, trades := st.trades + [t]);
    TopGrows(st.trades, st.events, t);
    ScaleAtLeastOne(st.events);
    SlackGrows(tol, st.trades, t, Top(st), Top(after));
    SlackGrows(tol, st.trades, t, scale, scale);
    ProductOfBounds(tol, tol, 1.0, scale);
    NearLater(st.account, Times(Slack(tol, st.trades), scale), Top(st),
              Times(Slack(tol, st.trades), scale), Top(after));
    FillStaysNear(env.costs, env.tol, st.account, fill, Times(Slack(tol, st.trades), scale), Top(after));
    NearLater(r.ledger, Times(Slack(tol, st.trades), scale) + tol, Top(after),
              Times(Slack(tol, after.trades), scale), Top(after));
    FillConservesValue(env.costs, env.tol, st.account, fill);
    AddTrade(st.trades, t);
  }

  lemma FillPricePositive(env: Env, p: Pending, bar: Bar)
    requires SaneBar(bar) && TryFill(env.costs, env.participation, p, bar).Some?
    ensures TryFill(env.costs, env.participation, p, bar).value.price > 0.0
  {
  }

  lemma ExecutionBarSane(m: Market, s: Symbol, d: int)
    requires Sane(m) && ExecutionBar(m, s, d).Some?
    ensures SaneBar(ExecutionBar(m, s, d).value)
  {
    BarOnOfPast(SortByDate(m.bars[s]), d);
    SortSound(m.bars[s]);
  }

  lemma SameBooksLoose(env: Env, m: Market, d: int, a: State, b: State)
    requires Loose(env, m, d, a) && SameBooks(a, b) && a.events == b.events
    ensures Loose(env, m, d, b)
  {
  }

  lemma SettleLoose(env: Env, m: Market, st: State, p: Pending, d: int)
    requires env.tol.lot >= 0.0 && Sane(m) && Loose(env, m, d, st)
    ensures Settle(env, m, st, p, d).Ok? ==> Loose(env, m, d, Settle(env, m, st, p, d).state)
    ensures Settle(env, m, st, p, d).Ok? ==> Settle(env, m, st, p, d).state.events == st.events
  {
    SettleBooks(env, m, st, p, d);
    var bar, r := ExecutionBar(m, p.intent.symbol, d), Settle(env, m, st, p, d);
    if r.Ok? {
      if d >= p.target && bar.Some? && TryFill(env.costs, env.participation, p, bar.value).Some?
         && ApplyFill(env.costs, env.tol, st.account, TryFill(env.costs, env.participation, p, bar.value).value).Booked?
      {
        var fill := TryFill(env.costs, env.participation, p, bar.value).value;
        FillSound(env.costs, env.participation, p, bar.value);
        ExecutionBarSeen(m, p.intent.symbol, d);
        ExecutionBarSane(m, p.intent.symbol, d);
        FillPricePositive(env, p, bar.value);
        TradeLoose(env, m, st, p.tag, fill);
        var booked := ApplyFill(env.costs, env.tol, st.account, fill);
        var traded := st.(account := booked.ledger, trades := st.trades + [Trade(p.tag, fill, booked.gains)]);
        SameBooksLoose(env, m, d, traded, r.state);
      } else {
        SameBooksLoose(env, m, d, st, r.state);
      }
    }
  }

  lemma {:induction false} SettledLoose(env: Env, m: Market, st: State, queue: seq<Pending>, d: int, n: nat)
    requires env.tol.lot >= 0.0 && Sane(m) && Loose(env, m, d, st) && n <= |queue|
    ensures Settled(env, m, st, queue, d, n).Ok? ==> Loose(env, m, d, Settled(env, m, st, queue, d, n).state)
  {
    if n > 0 {
      SettledLoose(env, m, st, queue, d, n - 1);
      if Settled(env, m, st, queue, d, n - 1).Ok? {
        SettleLoose(env, m, Settled(env, m, st, queue, d, n - 1).state, queue[n - 1], d);
      }
    }
  }

  lemma AddEvent(events: seq<SplitEvent>, e: SplitEvent)
    requires e.ratio > 0.0
    ensures Scale(events + [e]) == Times(Scale(events), Factor(e.ratio))
  {
    assert (events + [e])[..|events|] == events;
  }

  lemma Regroup(a: real, b: real, c: real)
    ensures Times(Times(a, b), c) == Times(a, Times(b, c))
  {
  }

  lemma SplitLoose(env: Env, m: Market, st: State, s: Symbol, d: int, ratio: real)
    requires env.tol.lot >= 0.0 && Loose(env, m, d, st) && ApplySplit(env.tol, st.account, s, d, ratio).Scaled?
    ensures var r := ApplySplit(env.tol, st.account, s, d, ratio);
            Loose(env, m, d, st.(account := r.ledger, events := st.events + [r.event]))
  {
    var r := ApplySplit(env.tol, st.account, s, d, ratio);
    var slack, scale := Slack(env.tol.lot, st.trades), Scale(st.events);
    var after := st.(account := r.ledger, events := st.events + [r.event]);
    AddEvent(st.events, r.event);
    ScaleAtLeastOne(st.events);
    HighestNonNegative(st.trades);
    SlackNonNegative(env.tol.lot, st.trades);
    FactorBounds(ratio);
    ProductOfBounds(slack, slack, scale, scale);
    ProductOfBounds(Highest(st.trades), Highest(st.trades), scale, scale);
    SplitStaysNear(env.tol, st.account, s, d, ratio, Times(slack, scale), Top(st));
    Regroup(slack, scale, Factor(ratio));
    Regroup(Highest(st.trades), scale, Factor(ratio));
    ProductOfBounds(Top(st), Top(st), 1.0, Factor(ratio));
    ProductOfBounds(slack, slack, Top(st), Top(after));
    ActionsConserveValue(env.tol, st.account, s, d, ratio);
  }

  lemma ActLoose(env: Env, m: Market, st: State, action: CorporateAction, d: int)
    requires env.tol.lot >= 0.0 && Loose(env, m, d, st)
    ensures Act(env, st, action, d).Ok? ==> Loose(env, m, d, Act(env, st, action, d).state)
  {
    match action.kind
    case Dividend =>
      ActionsConserveValue(env.tol, st.account, action.symbol, d, action.amount);
      var (_, receipt) := ApplyDividend(env.tol, st.account, action.symbol, d, action.amount);
      if receipt.Some? {
        AddReceipt(st.receipts, receipt.value);
      }
    case SplitOrBonus =>
      if ApplySplit(env.tol, st.account, action.symbol, d, action.amount).Scaled? {
        SplitLoose(env, m, st, action.symbol, d, action.amount);
      }
    case Unhandled =>
  }

  lemma {:induction false} ActedLoose(env: Env, m: Market, st: State, due: seq<CorporateAction>, d: int, n: nat)
    requires env.tol.lot >= 0.0 && Loose(env, m, d, st) && n <= |due|
    ensures Acted(env, st, due, d, n).Ok? ==> Loose(env, m, d, Acted(env, st, due, d, n).state)
  {
    if n > 0 {
      ActedLoose(env, m, st, due, d, n - 1);
      if Acted(env, st, due, d, n - 1).Ok? {
        ActLoose(env, m, Acted(env, st, due, d, n - 1).state, due[n - 1], d);
      }
    }
  }

  lemma DayLoose(env: Env, m: Market, st: State, d: int)
    requires env.tol.lot >= 0.0 && Sane(m) && Loose(env, m, d, st)
    ensures Day(env, m, st, d).Ok? ==> Loose(env, m, d, Day(env, m, st, d).state)
  {
    if Day(env, m, st, d).Ok? && d >= env.start {
      var due := AllDue(m.actions, d);
      ActedLoose(env, m, st, due, d, |due|);
      var acted := Acted(env, st, due, d, |due|).state;
      SameBooksLoose(env, m, d, acted, acted.(pending := []));
      SettledLoose(env, m, acted.(pending := []), acted.pending, d, |acted.pending|);
      var settled := Settled(env, m, acted.(pending := []), acted.pending, d, |acted.pending|).state;
      var surveyed := Surveyed(env, m, settled, d);
      EnqueuedFrame(env, surveyed, env.strategy(surveyed.seen), d, |env.strategy(surveyed.seen)|);
      SameBooksLoose(env, m, d, settled, Closed(env, m, settled, d));
    }
  }

  lemma {:induction false} AlwaysLoose(env: Env, m: Market, dates: seq<int>, n: nat)
    requires env.tol.lot >= 0.0 && Sane(m) && Increasing(dates) && 0 < n <= |dates| && After(env, m, dates, n).Ok?
    ensures Loose(env, m, dates[n - 1], After(env, m, dates, n).state)
  {
    var before, d := After(env, m, dates, n - 1).state, dates[n - 1];
    if n == 1 {
      StartsLoose(env, m, d);
    } else {
      AlwaysLoose(env, m, dates, n - 1);
      LooseLater(env, m, dates[n - 2], d, before);
    }
    DayLoose(env, m, before, d);
  }

  /**
   * At any tolerances and through splits by any ratio: no position drifts from its open lots by more than one lot
   * tolerance per trade, magnified by the splits; and every held symbol has a price.
   */
  lemma DriftBounded(env: Env, m: Market, dates: seq<int>, n: nat, s: Symbol)
    requires env.tol.lot >= 0.0 && Sane(m) && Increasing(dates) && 0 < n <= |dates| && After(env, m, dates, n).Ok?
    ensures var st := After(env, m, dates, n).state;
            var bound := Times(Times(env.tol.lot, |st.trades| as real), Scale(st.events));
            && -bound <= Held(st.account, s) - Quantity(LotsOf(st.account.lots, s)) <= bound
            && (s in st.account.positions ==> s in Prices(m, dates[n - 1]))
  {
    AlwaysLoose(env, m, dates, n);
  }

  /**
   * The attribution identity at any tolerances: total value is capital plus realized gains plus market value over open
   * cost basis less costs plus dividends, up to one lot tolerance of units per trade at the highest price so far,
   * magnified by the splits.
   */
  lemma ProfitAttributionWithin(env: Env, m: Market, dates: seq<int>, n: nat)
    requires env.tol.lot >= 0.0 && Sane(m) && Increasing(dates) && 0 < n <= |dates| && After(env, m, dates, n).Ok?
    requires dates[n - 1] >= env.start
    ensures var st := After(env, m, dates, n).state;
            var bound := Times(Times(env.tol.lot, |st.trades| as real), Times(Highest(st.trades), Scale(st.events)));
            && st.equity != []
            && var point := st.equity[|st.equity| - 1];
               var residual := point.TotalValue()
                               - (env.capital + Realized(st.trades)
                                  + (PositionsValue(env.tol, st.account.positions, Prices(m, dates[n - 1]))
                                     - Total(Bases(st.account.lots)))
                                  - Costs(st.trades) + Credited(st.receipts));
               point.date == dates[n - 1] && -bound <= residual <= bound
  {
    AlwaysLoose(env, m, dates, n);
    EquityGrows(env, m, dates, n);
  }
}
