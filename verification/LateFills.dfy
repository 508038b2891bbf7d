/** Expiry is looked at only after a fill was tried: when every fill is in time, and exactly when one is late. */
module LateFills {
  import opened Common
  import opened MarketData
  import opened FillSimulator
  import opened Backtest
  import opened OrderAccounting
  import opened OrderFate

  // ---- In time, if the symbol trades on the expiry date ----

  /** On its expiry date, or later, a bar of its symbol takes an order out of the queue whatever happens to it. */
  lemma ExpiryDayTakesOrder(env: Env, m: Market, st: State, p: Pending, d: int)
    requires p.target <= d && p.expiry <= d && (ExecutionBar(m, p.intent.symbol, d).Some? || p.expiry < d)
    ensures Settle(env, m, st, p, d).Ok? ==> Settle(env, m, st, p, d).state.pending == st.pending
  {
  }

  lemma KeptOnlyBefore(env: Env, m: Market, st: State, p: Pending, d: int)
    requires p.target <= d
    ensures var r := Settle(env, m, st, p, d);
            r.Ok? ==> forall q :: q in r.state.pending ==>
              q in st.pending
              || (Continues(p, q, d) && (d < p.expiry || ExecutionBar(m, p.intent.symbol, d).None?))
  {
    SettleShape(env, m, st, p, d);
    if p.expiry <= d && ExecutionBar(m, p.intent.symbol, d).Some? {
      ExpiryDayTakesOrder(env, m, st, p, d);
    }
  }

  /** The symbol has a bar on the date an order decided then expires. */
  predicate TradesAtExpiry(env: Env, m: Market, s: Symbol, decided: int) {
    ExecutionBar(m, s, decided + env.expiryDays).Some?
  }

  /** A queued order that will meet such a bar after day d. */
  predicate MeetsExpiryAfter(env: Env, m: Market, p: Pending, d: int) {
    TradesAtExpiry(env, m, p.intent.symbol, p.decided) ==> p.decided + env.expiryDays > d
  }

  predicate InTime(env: Env, m: Market, t: Trade) {
    TradesAtExpiry(env, m, t.fill.symbol, t.fill.decided) ==> t.fill.date <= t.fill.decided + env.expiryDays
  }

  ghost predicate AllInTime(env: Env, m: Market, st: State, d: int) {
    && (forall p :: p in st.pending ==> MeetsExpiryAfter(env, m, p, d))
    && (forall t :: t in st.trades ==> InTime(env, m, t))
  }

  /** An order as day d finds it. */
  predicate DueBy(env: Env, m: Market, p: Pending, d: int) {
    && p.expiry == p.decided + env.expiryDays && p.target <= d
    && (TradesAtExpiry(env, m, p.intent.symbol, p.decided) ==> d <= p.expiry)
  }

  lemma SettleInTime(env: Env, m: Market, st: State, p: Pending, d: int)
    requires AllInTime(env, m, st, d) && DueBy(env, m, p, d)
    ensures Settle(env, m, st, p, d).Ok? ==> AllInTime(env, m, Settle(env, m, st, p, d).state, d)
  {
    SettleShape(env, m, st, p, d);
    KeptOnlyBefore(env, m, st, p, d);
  }

  lemma {:induction false} SettledInTime(env: Env, m: Market, st: State, queue: seq<Pending>, d: int, k: nat)
    requires k <= |queue| && AllInTime(env, m, st, d) && forall p :: p in queue ==> DueBy(env, m, p, d)
    ensures Settled(env, m, st, queue, d, k).Ok? ==> AllInTime(env, m, Settled(env, m, st, queue, d, k).state, d)
  {
    if k > 0 {
      SettledInTime(env, m, st, queue, d, k - 1);
      if Settled(env, m, st, queue, d, k - 1).Ok? {
        SettleInTime(env, m, Settled(env, m, st, queue, d, k - 1).state, queue[k - 1], d);
      }
    }
  }

  lemma {:induction false} EnqueuedInTime(env: Env, m: Market, st: State, intents: seq<OrderIntent>, d: int, k: nat)
    requires k <= |intents| && AllInTime(env, m, st, d) && env.expiryDays >= 1
    ensures AllInTime(env, m, Enqueued(env, st, intents, d, k), d)
  {
    if k > 0 {
      EnqueuedInTime(env, m, st, intents, d, k - 1);
    }
  }

  /** A date on which a symbol trades is processed: the next date processed after an earlier one is no later. */
  lemma ProcessedByThen(env: Env, m: Market, dates: seq<int>, n: nat, s: Symbol, x: int)
    requires TradingDates(env, m, dates) && 1 < n <= |dates| && ExecutionBar(m, s, x).Some? && x > dates[n - 2]
    ensures dates[n - 1] <= x
  {
    var bar := ExecutionBar(m, s, x).value;
    BarOnOfPast(SortByDate(m.bars[s]), x);
    SortSound(m.bars[s]);
    assert dates[n - 1] in dates;
    if x <= env.end {
      assert bar in m.bars[s] && bar.date == x;
      assert TradesOn(env, m, x);
      var j :| 0 <= j < |dates| && dates[j] == x;
    }
  }

  lemma QueueIsDue(env: Env, m: Market, dates: seq<int>, n: nat, st: State, p: Pending)
    requires TradingDates(env, m, dates) && 1 < n <= |dates| && OnTime(env, st, dates, n - 1)
    requires AllInTime(env, m, st, dates[n - 2]) && p in st.pending
    ensures DueBy(env, m, p, dates[n - 1])
  {
    assert QueuedOnTime(env, st.emitted, p, dates[n - 2]);
    if TradesAtExpiry(env, m, p.intent.symbol, p.decided) {
      ProcessedByThen(env, m, dates, n, p.intent.symbol, p.decided + env.expiryDays);
    }
  }

  lemma NextQueueIsDue(env: Env, m: Market, dates: seq<int>, n: nat, st: State)
    requires TradingDates(env, m, dates) && 0 < n <= |dates|
    requires if n == 1 then st == Initial(env) else OnTime(env, st, dates, n - 1) && AllInTime(env, m, st, dates[n - 2])
    ensures forall p :: p in st.pending ==> DueBy(env, m, p, dates[n - 1])
    ensures forall t :: t in st.trades ==> InTime(env, m, t)
  {
    forall p | p in st.pending
      ensures DueBy(env, m, p, dates[n - 1])
    {
      QueueIsDue(env, m, dates, n, st, p);
    }
  }

  lemma DayInTime(env: Env, m: Market, st: State, d: int)
    requires env.expiryDays >= 1 && Day(env, m, st, d).Ok? && (d < env.start ==> st.pending == [])
    requires forall t :: t in st.trades ==> InTime(env, m, t)
    requires forall p :: p in st.pending ==> DueBy(env, m, p, d)
    ensures AllInTime(env, m, Day(env, m, st, d).state, d)
  {
    if d >= env.start {
      var due := AllDue(m.actions, d);
      ActedFrame(env, st, due, d, |due|);
      var acted := Acted(env, st, due, d, |due|).state;
      SettledInTime(env, m, acted.(pending := []), acted.pending, d, |acted.pending|);
      var settled := Settled(env, m, acted.(pending := []), acted.pending, d, |acted.pending|).state;
      var surveyed := Surveyed(env, m, settled, d);
      EnqueuedInTime(env, m, surveyed, env.strategy(surveyed.seen), d, |env.strategy(surveyed.seen)|);
    }
  }

  lemma {:induction false} AlwaysInTime(env: Env, m: Market, dates: seq<int>, n: nat)
    requires TradingDates(env, m, dates) && 0 < n <= |dates| && env.expiryDays >= 1 && After(env, m, dates, n).Ok?
    ensures AllInTime(env, m, After(env, m, dates, n).state, dates[n - 1])
  {
    AlwaysOnTime(env, m, dates, n - 1);
    var before := After(env, m, dates, n - 1).state;
    if n > 1 {
      AlwaysInTime(env, m, dates, n - 1);
    }
    NextQueueIsDue(env, m, dates, n, before);
    DayInTime(env, m, before, dates[n - 1]);
  }

  /**
   * An order whose symbol has a bar on its expiry date never fills after it, however partial its fills and whatever
   * the market does, if orders live at least one day.
   */
  lemma FilledByExpiry(env: Env, m: Market, dates: seq<int>, n: nat, t: Trade)
    requires TradingDates(env, m, dates) && n <= |dates| && env.expiryDays >= 1 && After(env, m, dates, n).Ok?
    requires t in After(env, m, dates, n).state.trades
    requires ExecutionBar(m, t.fill.symbol, t.fill.decided + env.expiryDays).Some?
    ensures t.fill.date <= t.fill.decided + env.expiryDays
  {
    if n > 0 {
      AlwaysInTime(env, m, dates, n);
      assert InTime(env, m, t);
    }
  }

  // ---- Late, exactly when ----

  /**
   * An order still queued on the first processed day past its expiry fills late on that day exactly when its symbol
   * trades that day, the bar reaches it and the account it meets can bear the fill.
   */
  lemma LateFillIff(env: Env, m: Market, dates: seq<int>, n: nat, k: nat)
    requires Increasing(dates) && n < |dates| && After(env, m, dates, n + 1).Ok?
    requires After(env, m, dates, n).Ok? && k < |After(env, m, dates, n).state.pending|
    requires After(env, m, dates, n).state.pending[k].expiry < dates[n]
    ensures var before, after := After(env, m, dates, n).state, After(env, m, dates, n + 1).state;
            var p, d := before.pending[k], dates[n];
            FilledOn(after.trades, p.tag, d) <==> Executed(env, m, AccountMet(env, m, before, d, k), p, d)
  {
    var before, d := After(env, m, dates, n).state, dates[n];
    AlwaysOnTime(env, m, dates, n);
    NotYetFilled(env, before, dates, n, before.pending[k].tag);
    FateOfOrder(env, m, dates, n, k);
    if Executed(env, m, AccountMet(env, m, before, d, k), before.pending[k], d) {
      FillOfDay(env, m, before.pending[k], d);
    }
  }

  lemma NotYetFilled(env: Env, st: State, dates: seq<int>, n: nat, tag: nat)
    requires Increasing(dates) && n < |dates| && OnTime(env, st, dates, n)
    ensures !FilledOn(st.trades, tag, dates[n])
  {
    forall t | t in st.trades
      ensures t.fill.date != dates[n]
    {
      assert FilledOnTime(env, st.emitted, t, dates, n);
      var i :| 0 <= i < n && dates[..n][i] == t.fill.date;
    }
  }
}
