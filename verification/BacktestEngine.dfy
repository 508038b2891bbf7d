/** The event loop: pointers advance over sorted bars, a queue is rebuilt day by day, a portfolio mutates. */
module BacktestEngine {
  import opened Common
  import opened CostTax
  import opened MarketData
  import opened FillSimulator
  import opened Ledger
  import opened Portfolios
  import opened Backtest

  /** Puts a date in its place, once. */
  function InsertDate(d: int, dates: seq<int>): seq<int> {
    if dates == [] || d < dates[0] then [d] + dates
    else if d == dates[0] then dates
    else [dates[0]] + InsertDate(d, dates[1..])
  }

  lemma {:induction false} InsertDateSound(d: int, dates: seq<int>)
    requires Increasing(dates)
    ensures Increasing(InsertDate(d, dates))
    ensures forall e :: e in InsertDate(d, dates) <==> e == d || e in dates
  {
    if dates != [] && d > dates[0] {
      InsertDateSound(d, dates[1..]);
      var rest := InsertDate(d, dates[1..]);
      forall i | 0 <= i < |rest|
        ensures dates[0] < rest[i]
      {
        assert rest[i] in rest;
      }
    }
  }

  function LastClose(bars: seq<Bar>, p: nat): Option<real>
    requires p <= |bars|
  {
    if p == 0 then None else Some(bars[p - 1].close)
  }

  /** The run's caches say exactly what has been observed: pointers past it, last prices at its edge. */
  ghost predicate Cached(
    sorted: map<Symbol, seq<Bar>>, pointer: map<Symbol, nat>, lastPrice: map<Symbol, real>)
  {
    && pointer.Keys == sorted.Keys
    && lastPrice.Keys <= sorted.Keys
    && forall s :: s in sorted ==>
         && pointer[s] <= |sorted[s]|
         && (if s in lastPrice then Some(lastPrice[s]) else None) == LastClose(sorted[s], pointer[s])
  }

  ghost predicate Observed(sorted: map<Symbol, seq<Bar>>, pointer: map<Symbol, nat>, d: int)
    requires pointer.Keys == sorted.Keys
  {
    forall s :: s in sorted ==> PointsPast(sorted[s], d, pointer[s])
  }

  ghost predicate SeenBy(sorted: map<Symbol, seq<Bar>>, pointer: map<Symbol, nat>, d: int) {
    forall s :: s in sorted && s in pointer ==>
      forall i :: 0 <= i < pointer[s] && i < |sorted[s]| ==> sorted[s][i].date <= d
  }

  ghost predicate AllChronological(sorted: map<Symbol, seq<Bar>>) {
    forall s :: s in sorted ==> Chronological(sorted[s])
  }

  ghost predicate SortedBars(m: Market, sorted: map<Symbol, seq<Bar>>) {
    && AllChronological(sorted)
    && sorted.Keys == m.bars.Keys
    && forall s :: s in sorted ==> sorted[s] == SortByDate(m.bars[s])
  }

  function Windows(sorted: map<Symbol, seq<Bar>>, lo: int, hi: int): map<Symbol, seq<Bar>> {
    map s | s in sorted :: Window(sorted[s], lo, hi)
  }

  /** The local variables of a run: everything but the portfolio. */
  datatype Locals = Locals(
    pending: seq<Pending>, trades: seq<Trade>, rejected: seq<Rejection>, equity: seq<EquityPoint>,
    receipts: seq<DividendReceipt>, events: seq<SplitEvent>, emitted: seq<Emission>,
    seen: seq<Observation>)

  function Joined(account: Account, l: Locals): State {
    State(account, l.pending, l.trades, l.rejected, l.equity, l.receipts, l.events, l.emitted, l.seen)
  }

  class BacktestEngine {
    const env: Env
    const portfolio: Portfolio

    constructor (env: Env)
      requires env.tol.lot >= 0.0
      ensures this.env == env && Ready()
      ensures fresh(portfolio) && fresh(portfolio.engine)
      ensures portfolio.State() == Account(env.capital, map[], map[])
    {
      this.env := env;
      var engine := new CostTaxEngine(env.costs, env.tol.lot);
      portfolio := new Portfolio(env.capital, engine, env.tol);
    }

    ghost predicate Ready() {
      portfolio.Valid() && portfolio.tol == env.tol && portfolio.engine.config == env.costs
    }

    /** Every date up to the end on which some symbol has a bar, sorted and without repetitions. */
    method CollectDates(m: Market) returns (dates: seq<int>)
      ensures TradingDates(env, m, dates)
    {
      dates := [];
      var symbols := m.bars.Keys;
      while symbols != {}
        invariant symbols <= m.bars.Keys && Increasing(dates)
        invariant forall d :: d in dates <==>
                    d <= env.end && exists s, b :: s in m.bars && s !in symbols && b in m.bars[s] && b.date == d
        decreases symbols
      {
        var s :| s in symbols;
        ghost var before := dates;
        dates := InsertDates(m.bars[s], dates);
        ghost var left := symbols - {s};
        forall d
          ensures d in dates <==>
                    d <= env.end && exists t, b :: t in m.bars && t !in left && b in m.bars[t] && b.date == d
        {
          if b :| b in m.bars[s] && b.date == d {
            assert s in m.bars && s !in left;
          }
        }
        symbols := symbols - {s};
      }
      forall d
        ensures d in dates <==> TradesOn(env, m, d)
      {
      }
    }

    method InsertDates(bars: seq<Bar>, dates: seq<int>) returns (all: seq<int>)
      requires Increasing(dates)
      ensures Increasing(all)
      ensures forall d :: d in all <==> d in dates || (d <= env.end && exists b :: b in bars && b.date == d)
    {
      all := dates;
      for k := 0 to |bars|
        invariant Increasing(all)
        invariant forall d :: d in all <==> d in dates || (d <= env.end && exists b :: b in bars[..k] && b.date == d)
      {
        assert bars[..k + 1] == bars[..k] + [bars[k]];
        if bars[k].date <= env.end {
          InsertDateSound(bars[k].date, all);
          all := InsertDate(bars[k].date, all);
          assert bars[k] in bars[..k + 1];
        }
      }
      assert bars[..|bars|] == bars;
    }

    /** Moves one symbol's pointer past day d, keeping the last close it passes. */
    method AdvanceSymbol(bars: seq<Bar>, start: nat, known: Option<real>, d: int)
      returns (p: nat, last: Option<real>)
      requires start <= |bars| && forall i :: 0 <= i < start ==> bars[i].date <= d
      requires known == LastClose(bars, start)
      ensures PointsPast(bars, d, p) && last == LastClose(bars, p)
    {
      p, last := start, known;
      while p < |bars| && bars[p].date <= d
        invariant p <= |bars| && forall i :: 0 <= i < p ==> bars[i].date <= d
        invariant last == LastClose(bars, p)
      {
        last := Some(bars[p].close);
        p := p + 1;
      }
    }

    /** Step 1: move every pointer past day d. */
    method Advance(sorted: map<Symbol, seq<Bar>>, pointer: map<Symbol, nat>, lastPrice: map<Symbol, real>, d: int)
      returns (pointer': map<Symbol, nat>, lastPrice': map<Symbol, real>)
      requires Cached(sorted, pointer, lastPrice) && SeenBy(sorted, pointer, d)
      ensures Cached(sorted, pointer', lastPrice') && Observed(sorted, pointer', d)
    {
      pointer', lastPrice' := pointer, lastPrice;
      var symbols := sorted.Keys;
      while symbols != {}
        invariant symbols <= sorted.Keys && pointer'.Keys == sorted.Keys
        invariant Cached(sorted, pointer', lastPrice')
        invariant forall s :: s in symbols ==> pointer'[s] == pointer[s]
        invariant forall s :: s in sorted && s !in symbols ==> PointsPast(sorted[s], d, pointer'[s])
        decreases symbols
      {
        var s :| s in symbols;
        var known := if s in lastPrice' then Some(lastPrice'[s]) else None;
        var p, last := AdvanceSymbol(sorted[s], pointer'[s], known, d);
        CachedFor(sorted, pointer', lastPrice', s, p, last);
        pointer' := pointer'[s := p];
        if last.Some? {
          lastPrice' := lastPrice'[s := last.value];
        }
        symbols := symbols - {s};
      }
    }

    /** Step 2: corporate actions with ex-date d. Unhandled kinds change nothing. */
    method ApplyActions(due: seq<CorporateAction>, d: int, l: Locals) returns (error: Option<Error>, l': Locals)
      requires Ready()
      modifies portfolio, portfolio.engine
      ensures match Acted(env, Joined(old(portfolio.State()), l), due, d, |due|)
              case Fail(e) => error == Some(e)
              case Ok(after) => error == None && after == Joined(portfolio.State(), l')
    {
      ghost var st := Joined(portfolio.State(), l);
      error, l' := None, l;
      for k := 0 to |due|
        invariant Acted(env, st, due, d, k) == Ok(Joined(portfolio.State(), l'))
      {
        var action := due[k];
        match action.kind
        case Dividend =>
          var receipt := portfolio.ApplyDividend(action.symbol, d, action.amount);
          if receipt.Some? {
            l' := l'.(receipts := l'.receipts + [receipt.value]);
          }
        case SplitOrBonus =>
          var result := portfolio.ApplySplit(action.symbol, d, action.amount);
          if result.BadRatio? {
            ActionFails(env, st, due, d, k);
            return Some(BadSplitRatio), l';
          }
          if result.Scaled? {
            l' := l'.(events := l'.events + [result.event]);
          }
        case Unhandled =>
      }
    }

    /** One queued order meets day d: filled, refused, or queued again. */
    method MeetOrder(m: Market, p: Pending, d: int, l: Locals) returns (error: Option<Error>, l': Locals)
      requires Ready()
      modifies portfolio, portfolio.engine
      ensures match Settle(env, m, Joined(old(portfolio.State()), l), p, d)
              case Fail(e) => error == Some(e)
              case Ok(after) => error == None && after == Joined(portfolio.State(), l')
    {
      error, l' := None, l;
      if d < p.target {
        return None, l.(pending := l.pending + [p]);
      }
      var bar := ExecutionBar(m, p.intent.symbol, d);
      if bar.None? {
        if d <= p.expiry {
          return None, l.(pending := l.pending + [p]);
        }
        return None, l.(rejected := l.rejected + [Rejection(p.tag, p.intent, NoTradingData)]);
      }
      var fill := TryFill(env.costs, env.participation, p, bar.value);
      if fill.None? {
        if d < p.expiry {
          return None, l.(pending := l.pending + [p]);
        }
        return None, l.(rejected := l.rejected + [Rejection(p.tag, p.intent, LimitNeverTouched)]);
      }
      var booked := portfolio.ApplyFill(fill.value);
      match booked
      case InsufficientCash =>
        l' := l.(rejected := l.rejected + [Rejection(p.tag, p.intent, CashShort)]);
      case OverSell =>
        l' := l.(rejected := l.rejected + [Rejection(p.tag, p.intent, SoldMoreThanHeld)]);
      case LotsShort(missing) =>
        error := Some(InsufficientLots(missing));
      case Booked(_, gains) =>
        l' := l.(trades := l.trades + [Trade(p.tag, fill.value, gains)]);
        var remainder := p.intent.quantity - fill.value.quantity;
        if remainder > 0 {
          if d < p.expiry {
            l' := l'.(pending := l'.pending + [Remainder(p, fill.value.quantity, d)]);
          } else {
            l' := l'.(rejected := l'.rejected + [Rejection(p.tag, p.intent, RemainderExpired)]);
          }
        }
    }

    /** Step 3: every queued order meets day d; what is not done is queued again. */
    method ProcessPending(m: Market, d: int, l: Locals) returns (error: Option<Error>, l': Locals)
      requires Ready()
      modifies portfolio, portfolio.engine
      ensures match Settled(env, m, Joined(old(portfolio.State()), l.(pending := [])), l.pending, d, |l.pending|)
              case Fail(e) => error == Some(e)
              case Ok(after) => error == None && after == Joined(portfolio.State(), l')
    {
      ghost var st := Joined(portfolio.State(), l.(pending := []));
      error, l' := None, l.(pending := []);
      for k := 0 to |l.pending|
        invariant error == None && Settled(env, m, st, l.pending, d, k) == Ok(Joined(portfolio.State(), l'))
      {
        error, l' := MeetOrder(m, l.pending[k], d, l');
        if error.Some? {
          SettlementFails(env, m, st, l.pending, d, k);
          return;
        }
      }
    }

    /** One symbol's view, cut out of its sorted bars by bisection up to the pointer. */
    method HistoryOf(bars: seq<Bar>, p: nat, cutoff: int, d: int) returns (view: seq<Bar>)
      requires Chronological(bars) && PointsPast(bars, d, p)
      ensures view == Window(bars, cutoff, d)
    {
      var start := BisectLeft(bars, cutoff, p);
      SliceIsWindow(bars, cutoff, d, p, start);
      view := bars[start..p];
    }

    /** Step 5: the strategy's view of every symbol. */
    method BuildHistory(sorted: map<Symbol, seq<Bar>>, pointer: map<Symbol, nat>, d: int)
      returns (history: map<Symbol, seq<Bar>>)
      requires pointer.Keys == sorted.Keys && Observed(sorted, pointer, d)
      requires AllChronological(sorted)
      ensures history == Windows(sorted, d - env.lookback, d)
    {
      history := map[];
      var symbols := sorted.Keys;
      while symbols != {}
        invariant symbols <= sorted.Keys && history.Keys == sorted.Keys - symbols
        invariant forall s :: s in history ==> history[s] == Window(sorted[s], d - env.lookback, d)
        decreases symbols
      {
        var s :| s in symbols;
        var view := HistoryOf(sorted[s], pointer[s], d - env.lookback, d);
        history := history[s := view];
        symbols := symbols - {s};
      }
    }

    /** Step 6: queue what the strategy asked for, for the next day at the earliest. */
    method QueueOrders(intents: seq<OrderIntent>, d: int, l: Locals) returns (l': Locals)
      ensures forall account :: Joined(account, l') == Enqueued(env, Joined(account, l), intents, d, |intents|)
    {
      l' := l;
      for k := 0 to |intents|
        invariant forall account :: Joined(account, l') == Enqueued(env, Joined(account, l), intents, d, k)
      {
        l' := l'.(pending := l'.pending + [Pending(|l'.emitted|, intents[k], d, d + 1, d + env.expiryDays)],
                  emitted := l'.emitted + [Emission(intents[k], d)]);
      }
    }

    /** Step 4: the day's equity point, at the cached prices. */
    method ValueDay(
      m: Market, sorted: map<Symbol, seq<Bar>>, pointer: map<Symbol, nat>, lastPrice: map<Symbol, real>, d: int)
      returns (point: EquityPoint)
      requires Ready()
      requires Cached(sorted, pointer, lastPrice) && Observed(sorted, pointer, d) && SortedBars(m, sorted)
      ensures point == Valuation(env, m, portfolio.State(), d)
    {
      PricesCached(m, sorted, pointer, lastPrice, d);
      var value := portfolio.MarketValue(lastPrice);
      point := EquityPoint(d, portfolio.cash, value);
    }

    /** Step 5: the history part of what the strategy is shown. */
    method ViewHistory(m: Market, sorted: map<Symbol, seq<Bar>>, pointer: map<Symbol, nat>, d: int)
      returns (history: map<Symbol, seq<Bar>>)
      requires pointer.Keys == sorted.Keys && Observed(sorted, pointer, d) && SortedBars(m, sorted)
      ensures history == History(env, m, d)
    {
      history := BuildHistory(sorted, pointer, d);
      HistoryBuilt(env, m, sorted, d);
    }

    /** Steps 4 to 6: value the portfolio, consult the strategy, queue its orders. */
    method CloseDay(m: Market, sorted: map<Symbol, seq<Bar>>, pointer: map<Symbol, nat>, lastPrice: map<Symbol, real>,
                    d: int, l: Locals) returns (l': Locals)
      requires Ready()
      requires Cached(sorted, pointer, lastPrice) && Observed(sorted, pointer, d) && SortedBars(m, sorted)
      ensures Joined(portfolio.State(), l') == Closed(env, m, Joined(portfolio.State(), l), d)
    {
      var point := ValueDay(m, sorted, pointer, lastPrice, d);
      var history := ViewHistory(m, sorted, pointer, d);
      var shown := Observation(d, history, Snapshot(d, portfolio.cash, portfolio.positions, point.TotalValue()));
      var surveyed := l.(equity := l.equity + [point], seen := l.seen + [shown]);
      l' := QueueOrders(env.strategy(surveyed.seen), d, surveyed);
      ClosedIs(env, m, portfolio.State(), l, l', d, point, history);
    }

    /** One date from the start date on: steps 2 to 6. */
    method ProcessDay(m: Market, sorted: map<Symbol, seq<Bar>>, pointer: map<Symbol, nat>, lastPrice: map<Symbol, real>,
                      d: int, l: Locals) returns (error: Option<Error>, l': Locals)
      requires Ready() && d >= env.start
      requires Cached(sorted, pointer, lastPrice) && Observed(sorted, pointer, d) && SortedBars(m, sorted)
      modifies portfolio, portfolio.engine
      ensures match Day(env, m, Joined(old(portfolio.State()), l), d)
              case Fail(e) => error == Some(e)
              case Ok(after) => error == None && after == Joined(portfolio.State(), l')
    {
      error, l' := ApplyActions(AllDue(m.actions, d), d, l);
      if error.Some? {
        return;
      }
      ghost var acted := Joined(portfolio.State(), l');
      assert Joined(portfolio.State(), l'.(pending := [])) == acted.(pending := []);
      error, l' := ProcessPending(m, d, l');
      if error.Some? {
        return;
      }
      l' := CloseDay(m, sorted, pointer, lastPrice, d, l');
    }

    method RejectUnfilled(pending: seq<Pending>, rejected: seq<Rejection>) returns (rejected': seq<Rejection>)
      ensures rejected' == rejected + Abandoned(pending)
    {
      rejected' := rejected;
      for k := 0 to |pending|
        invariant rejected' == rejected + Abandoned(pending[..k])
      {
        assert pending[..k + 1][..k] == pending[..k];
        rejected' := rejected' + [Rejection(pending[k].tag, pending[k].intent, RunEnded)];
      }
      assert pending[..|pending|] == pending;
    }

    method SortBars(m: Market) returns (sorted: map<Symbol, seq<Bar>>)
      ensures SortedBars(m, sorted)
    {
      sorted := map s | s in m.bars :: SortByDate(m.bars[s]);
      forall s | s in m.bars
        ensures Chronological(sorted[s])
      {
        SortSound(m.bars[s]);
      }
    }

    /** The day loop, with its pointers, its last-price cache and its mutable portfolio. */
    method RunDays(m: Market, dates: seq<int>) returns (error: Option<Error>, l: Locals)
      requires Ready() && portfolio.State() == Account(env.capital, map[], map[]) && Increasing(dates)
      modifies portfolio, portfolio.engine
      ensures match After(env, m, dates, |dates|)
              case Fail(e) => error == Some(e)
              case Ok(after) => error == None && after == Joined(portfolio.State(), l)
    {
      var sorted := SortBars(m);
      var pointer := map s | s in m.bars :: 0;
      var lastPrice: map<Symbol, real> := map[];
      l := Locals([], [], [], [], [], [], [], []);
      error := None;
      for n := 0 to |dates|
        invariant error == None && Ready() && Cached(sorted, pointer, lastPrice)
        invariant n < |dates| ==> SeenBy(sorted, pointer, dates[n])
        invariant After(env, m, dates, n) == Ok(Joined(portfolio.State(), l))
      {
        var d := dates[n];
        pointer, lastPrice := Advance(sorted, pointer, lastPrice, d);
        if d >= env.start {
          error, l := ProcessDay(m, sorted, pointer, lastPrice, d, l);
          if error.Some? {
            FailureEndsRun(env, m, dates, n + 1);
            return;
          }
        }
        assert n + 1 < |dates| ==> d < dates[n + 1];
      }
    }

    /** The event loop computes what the day-by-day account says. */
    method Run(m: Market) returns (outcome: Outcome)
      requires Ready() && portfolio.State() == Account(env.capital, map[], map[])
      modifies portfolio, portfolio.engine
      ensures exists dates :: TradingDates(env, m, dates) && outcome == Result(env, m, dates)
    {
      var dates := CollectDates(m);
      if !Sane(m) {
        outcome := Fail(InvalidBars);
      } else {
        var error, l := RunDays(m, dates);
        if error.Some? {
          outcome := Fail(error.value);
        } else {
          var rejected := RejectUnfilled(l.pending, l.rejected);
          outcome := Ok(Joined(portfolio.State(), l.(pending := [], rejected := rejected)));
        }
      }
      assert outcome == Result(env, m, dates);
    }
  }

  /** Moving one symbol's pointer and price together keeps the caches right. */
  lemma CachedFor(sorted: map<Symbol, seq<Bar>>, pointer: map<Symbol, nat>, lastPrice: map<Symbol, real>,
                  s: Symbol, p: nat, last: Option<real>)
    requires Cached(sorted, pointer, lastPrice) && s in sorted && p <= |sorted[s]| && last == LastClose(sorted[s], p)
    requires pointer[s] <= p
    ensures Cached(sorted, pointer[s := p], if last.Some? then lastPrice[s := last.value] else lastPrice)
  {
  }

  lemma HistoryBuilt(env: Env, m: Market, sorted: map<Symbol, seq<Bar>>, d: int)
    requires SortedBars(m, sorted)
    ensures Windows(sorted, d - env.lookback, d) == History(env, m, d)
  {
  }

  lemma ActionFails(env: Env, st: State, due: seq<CorporateAction>, d: int, k: nat)
    requires k < |due| && Acted(env, st, due, d, k).Ok?
    requires Act(env, Acted(env, st, due, d, k).state, due[k], d).Fail?
    ensures Acted(env, st, due, d, |due|) == Act(env, Acted(env, st, due, d, k).state, due[k], d)
  {
    var j := k + 1;
    while j < |due|
      invariant k < j <= |due|
      invariant Acted(env, st, due, d, j) == Act(env, Acted(env, st, due, d, k).state, due[k], d)
    {
      j := j + 1;
    }
  }

  lemma SettlementFails(env: Env, m: Market, st: State, queue: seq<Pending>, d: int, k: nat)
    requires k < |queue| && Settled(env, m, st, queue, d, k).Ok?
    requires Settle(env, m, Settled(env, m, st, queue, d, k).state, queue[k], d).Fail?
    ensures Settled(env, m, st, queue, d, |queue|)
         == Settle(env, m, Settled(env, m, st, queue, d, k).state, queue[k], d)
  {
    var j := k + 1;
    while j < |queue|
      invariant k < j <= |queue|
      invariant Settled(env, m, st, queue, d, j)
             == Settle(env, m, Settled(env, m, st, queue, d, k).state, queue[k], d)
    {
      j := j + 1;
    }
  }

  lemma FailureEndsRun(env: Env, m: Market, dates: seq<int>, n: nat)
    requires n <= |dates| && After(env, m, dates, n).Fail?
    ensures After(env, m, dates, |dates|) == After(env, m, dates, n)
  {
    var j := n;
    while j < |dates|
      invariant n <= j <= |dates|
      invariant After(env, m, dates, j) == After(env, m, dates, n)
    {
      j := j + 1;
    }
  }

  lemma ClosedIs(env: Env, m: Market, account: Account, l: Locals, l': Locals, d: int, point: EquityPoint,
                 history: map<Symbol, seq<Bar>>)
    requires history == History(env, m, d) && point == Valuation(env, m, account, d)
    requires var shown := Observation(d, history, Snapshot(d, account.cash, account.positions, point.TotalValue()));
             var surveyed := l.(equity := l.equity + [point], seen := l.seen + [shown]);
             var intents := env.strategy(surveyed.seen);
             Joined(account, l') == Enqueued(env, Joined(account, surveyed), intents, d, |intents|)
    ensures Joined(account, l') == Closed(env, m, Joined(account, l), d)
  {
  }

  lemma PriceCached(m: Market, sorted: map<Symbol, seq<Bar>>, s: Symbol, d: int, p: nat)
    requires SortedBars(m, sorted) && s in sorted && PointsPast(sorted[s], d, p)
    ensures (if s in Prices(m, d) then Some(Prices(m, d)[s]) else None) == LastClose(sorted[s], p)
  {
    PointerIsUpto(sorted[s], d, p);
    assert Seen(m, s, d) == sorted[s][..p];
  }

  /** The last-price cache is the table of latest closes. */
  lemma PricesCached(
    m: Market, sorted: map<Symbol, seq<Bar>>, pointer: map<Symbol, nat>, lastPrice: map<Symbol, real>, d: int)
    requires Cached(sorted, pointer, lastPrice) && Observed(sorted, pointer, d)
    requires SortedBars(m, sorted)
    ensures lastPrice == Prices(m, d)
  {
    var prices := Prices(m, d);
    forall s | s in sorted
      ensures (s in prices <==> s in lastPrice) && (s in prices ==> prices[s] == lastPrice[s])
    {
      PriceCached(m, sorted, s, d, pointer[s]);
    }
  }
}
