/** Every order a strategy emits is accounted for, unit by unit and day by day. */
module OrderAccounting {
  import opened MarketData
  import opened FillSimulator
  import opened Ledger
  import opened Backtest
  import opened Attribution

  function Filled(trades: seq<Trade>, tag: nat): int {
    if trades == [] then 0
    else
      var last := trades[|trades| - 1];
      Filled(trades[..|trades| - 1], tag) + (if last.tag == tag then last.fill.quantity else 0)
  }

  function Refusals(rejected: seq<Rejection>, tag: nat): nat {
    if rejected == [] then 0
    else
      Refusals(rejected[..|rejected| - 1], tag) + (if rejected[|rejected| - 1].tag == tag then 1 else 0)
  }

  /** Queue entries standing for the tag, and the units they still ask for. */
  function Entries(queue: seq<Pending>, tag: nat): nat {
    if queue == [] then 0
    else (if queue[0].tag == tag then 1 else 0) + Entries(queue[1..], tag)
  }

  function Open(queue: seq<Pending>, tag: nat): int {
    if queue == [] then 0
    else (if queue[0].tag == tag then queue[0].intent.quantity else 0) + Open(queue[1..], tag)
  }

  lemma AddFilled(trades: seq<Trade>, t: Trade, tag: nat)
    ensures Filled(trades + [t], tag) == Filled(trades, tag) + (if t.tag == tag then t.fill.quantity else 0)
  {
    assert (trades + [t])[..|trades|] == trades;
  }

  lemma AddRefusal(rejected: seq<Rejection>, r: Rejection, tag: nat)
    ensures Refusals(rejected + [r], tag) == Refusals(rejected, tag) + (if r.tag == tag then 1 else 0)
  {
    assert (rejected + [r])[..|rejected|] == rejected;
  }

  lemma {:induction false} QueueConcat(a: seq<Pending>, b: seq<Pending>, tag: nat)
    ensures Entries(a + b, tag) == Entries(a, tag) + Entries(b, tag)
    ensures Open(a + b, tag) == Open(a, tag) + Open(b, tag)
  {
    if a != [] {
      QueueConcat(a[1..], b, tag);
      assert (a + b)[1..] == a[1..] + b;
    } else {
      assert a + b == b;
    }
  }

  lemma QueueMiddle(a: seq<Pending>, p: Pending, b: seq<Pending>, tag: nat)
    ensures Entries(a + [p] + b, tag) == Entries(a + b, tag) + (if p.tag == tag then 1 else 0)
    ensures Open(a + [p] + b, tag) == Open(a + b, tag) + (if p.tag == tag then p.intent.quantity else 0)
  {
    QueueConcat(a, b, tag);
    QueueConcat(a, [p], tag);
    QueueConcat(a + [p], b, tag);
    assert [p][1..] == [];
  }

  /** The order behind one tag: its fills, its refusals and the queue add up to what was asked, once each. */
  predicate TagAccounted(asked: int, filled: int, refusals: nat, entries: nat, open: int) {
    && filled >= 0
    && refusals + entries <= 1
    && (entries == 0 ==> open == 0)
    && (entries == 1 ==> open > 0 && filled + open == asked)
    && (refusals == 1 ==> filled < asked)
    && (refusals + entries == 0 ==> filled == asked)
  }

  predicate TagOk(st: State, queue: seq<Pending>, tag: nat) {
    TagAccounted(if tag < |st.emitted| then st.emitted[tag].intent.quantity else 0,
                 Filled(st.trades, tag), Refusals(st.rejected, tag), Entries(queue, tag), Open(queue, tag))
    && (tag >= |st.emitted| ==> Refusals(st.rejected, tag) + Entries(queue, tag) == 0)
  }

  /** Every tag is accounted for when the orders in `rest` are still to be processed. */
  ghost predicate Accounted(st: State, rest: seq<Pending>) {
    forall tag: nat :: TagOk(st, st.pending + rest, tag)
  }

  lemma KeepAccounted(st: State, p: Pending, rest: seq<Pending>)
    requires Accounted(st, [p] + rest)
    ensures Accounted(KeptWaiting(st, p).state, rest)
  {
    assert st.pending + ([p] + rest) == st.pending + [p] + rest;
    forall tag: nat
      ensures TagOk(KeptWaiting(st, p).state, st.pending + [p] + rest, tag)
    {
      assert TagOk(st, st.pending + [p] + rest, tag);
    }
  }

  /** Refusing order q, or what is left of it, under its tag. */
  lemma RejectAccounted(st: State, p: Pending, q: Pending, rest: seq<Pending>, reason: Reason)
    requires Accounted(st, [q] + rest) && p.tag == q.tag
    ensures Accounted(Rejected(st, p, reason).state, rest)
  {
    assert st.pending + ([q] + rest) == st.pending + [q] + rest;
    forall tag: nat
      ensures TagOk(Rejected(st, p, reason).state, st.pending + rest, tag)
    {
      assert TagOk(st, st.pending + [q] + rest, tag);
      RejectTag(st, p, q, rest, reason, tag);
    }
  }

  lemma RejectTag(st: State, p: Pending, q: Pending, rest: seq<Pending>, reason: Reason, tag: nat)
    requires TagOk(st, st.pending + [q] + rest, tag) && p.tag == q.tag
    ensures TagOk(Rejected(st, p, reason).state, st.pending + rest, tag)
  {
    QueueMiddle(st.pending, q, rest, tag);
    AddRefusal(st.rejected, Rejection(p.tag, p.intent, reason), tag);
    if Entries(st.pending + rest, tag) == 0 {
      NoEntriesNoOpen(st.pending + rest, tag);
    }
  }

  /** A fill of part or all of the order at hand. */
  lemma FillAccounted(st: State, p: Pending, rest: seq<Pending>, account: Account, t: Trade, d: int)
    requires Accounted(st, [p] + rest) && t.tag == p.tag && 0 < t.fill.quantity <= p.intent.quantity
    ensures var traded := st.(account := account, trades := st.trades + [t]);
            if t.fill.quantity == p.intent.quantity then Accounted(traded, rest)
            else Accounted(traded, [Remainder(p, t.fill.quantity, d)] + rest)
  {
    var traded := st.(account := account, trades := st.trades + [t]);
    assert st.pending + ([p] + rest) == st.pending + [p] + rest;
    if t.fill.quantity == p.intent.quantity {
      forall tag: nat
        ensures TagOk(traded, st.pending + rest, tag)
      {
        assert TagOk(st, st.pending + [p] + rest, tag);
        QueueMiddle(st.pending, p, rest, tag);
        AddFilled(st.trades, t, tag);
        if Entries(st.pending + rest, tag) == 0 {
          NoEntriesNoOpen(st.pending + rest, tag);
        }
      }
    } else {
      var q := Remainder(p, t.fill.quantity, d);
      assert st.pending + ([q] + rest) == st.pending + [q] + rest;
      forall tag: nat
        ensures TagOk(traded, st.pending + [q] + rest, tag)
      {
        assert TagOk(st, st.pending + [p] + rest, tag);
        QueueMiddle(st.pending, p, rest, tag);
        QueueMiddle(st.pending, q, rest, tag);
        AddFilled(st.trades, t, tag);
        if Entries(st.pending + rest, tag) == 0 {
          NoEntriesNoOpen(st.pending + rest, tag);
        }
      }
    }
  }

  lemma SettleAccounted(env: Env, m: Market, st: State, p: Pending, rest: seq<Pending>, d: int)
    requires Accounted(st, [p] + rest)
    ensures Settle(env, m, st, p, d).Ok? ==> Accounted(Settle(env, m, st, p, d).state, rest)
  {
    KeepAccounted(st, p, rest);
    RejectAccounted(st, p, p, rest, NoTradingData);
    RejectAccounted(st, p, p, rest, LimitNeverTouched);
    RejectAccounted(st, p, p, rest, CashShort);
    RejectAccounted(st, p, p, rest, SoldMoreThanHeld);
    var bar := ExecutionBar(m, p.intent.symbol, d);
    if d >= p.target && bar.Some? && TryFill(env.costs, env.participation, p, bar.value).Some? {
      var fill := TryFill(env.costs, env.participation, p, bar.value).value;
      FillSound(env.costs, env.participation, p, bar.value);
      var r := ApplyFill(env.costs, env.tol, st.account, fill);
      if r.Booked? {
        var t := Trade(p.tag, fill, r.gains);
        var traded := st.(account := r.ledger, trades := st.trades + [t]);
        FillAccounted(st, p, rest, r.ledger, t, d);
        if fill.quantity < p.intent.quantity {
          var q := Remainder(p, fill.quantity, d);
          KeepAccounted(traded, q, rest);
          RejectAccounted(traded, p, q, rest, RemainderExpired);
        }
      }
    }
  }

  lemma {:induction false} SettledAccounted(env: Env, m: Market, st: State, queue: seq<Pending>, d: int, n: nat)
    requires n <= |queue| && Accounted(st, queue)
    ensures Settled(env, m, st, queue, d, n).Ok? ==> Accounted(Settled(env, m, st, queue, d, n).state, queue[n..])
  {
    if n == 0 {
      assert queue[0..] == queue;
    } else {
      SettledAccounted(env, m, st, queue, d, n - 1);
      var before := Settled(env, m, st, queue, d, n - 1);
      if before.Ok? {
        assert queue[n - 1..] == [queue[n - 1]] + queue[n..];
        SettleAccounted(env, m, before.state, queue[n - 1], queue[n..], d);
      }
    }
  }

  lemma EnqueueAccounted(env: Env, st: State, intent: OrderIntent, d: int)
    requires Accounted(st, [])
    ensures Accounted(Enqueue(env, st, intent, d), [])
  {
    var p := Pending(|st.emitted|, intent, d, d + 1, d + env.expiryDays);
    forall tag: nat
      ensures TagOk(Enqueue(env, st, intent, d), st.pending + [p] + [], tag)
    {
      assert TagOk(st, st.pending + [], tag);
      QueueMiddle(st.pending, p, [], tag);
      if Entries(st.pending + [], tag) == 0 {
        NoEntriesNoOpen(st.pending + [], tag);
      }
    }
  }

  lemma {:induction false} NoEntriesNoOpen(queue: seq<Pending>, tag: nat)
    requires Entries(queue, tag) == 0
    ensures Open(queue, tag) == 0
  {
    if queue != [] {
      NoEntriesNoOpen(queue[1..], tag);
    }
  }

  lemma {:induction false} EnqueuedAccounted(env: Env, st: State, intents: seq<OrderIntent>, d: int, n: nat)
    requires n <= |intents| && Accounted(st, [])
    ensures Accounted(Enqueued(env, st, intents, d, n), [])
  {
    if n > 0 {
      EnqueuedAccounted(env, st, intents, d, n - 1);
      EnqueueAccounted(env, Enqueued(env, st, intents, d, n - 1), intents[n - 1], d);
    }
  }

  /** Corporate actions leave the order book alone. */
  lemma {:induction false} ActedFrame(env: Env, st: State, due: seq<CorporateAction>, d: int, n: nat)
    requires n <= |due| && Acted(env, st, due, d, n).Ok?
    ensures var r := Acted(env, st, due, d, n).state;
            r == st.(account := r.account, receipts := r.receipts, events := r.events)
  {
    if n > 0 {
      ActedFrame(env, st, due, d, n - 1);
    }
  }

  lemma DayAccounted(env: Env, m: Market, st: State, d: int)
    requires Accounted(st, []) && Day(env, m, st, d).Ok?
    ensures Accounted(Day(env, m, st, d).state, [])
  {
    if d >= env.start {
      var due := AllDue(m.actions, d);
      ActedFrame(env, st, due, d, |due|);
      var acted := Acted(env, st, due, d, |due|).state;
      var queue := acted.pending;
      assert st.pending + [] == queue == [] + queue;
      var cleared := acted.(pending := []);
      assert Accounted(cleared, queue) by {
        forall tag: nat
          ensures TagOk(cleared, [] + queue, tag)
        {
          assert TagOk(st, st.pending + [], tag);
        }
      }
      SettledAccounted(env, m, cleared, queue, d, |queue|);
      assert queue[|queue|..] == [];
      var settled := Settled(env, m, cleared, queue, d, |queue|).state;
      var valued := Surveyed(env, m, settled, d);
      assert Accounted(valued, []) by {
        forall tag: nat
          ensures TagOk(valued, valued.pending + [], tag)
        {
          assert TagOk(settled, settled.pending + [], tag);
        }
      }
      var intents := env.strategy(Surveyed(env, m, settled, d).seen);
      EnqueuedAccounted(env, valued, intents, d, |intents|);
    }
  }

  lemma {:induction false} AlwaysAccounted(env: Env, m: Market, dates: seq<int>, n: nat)
    requires n <= |dates| && After(env, m, dates, n).Ok?
    ensures Accounted(After(env, m, dates, n).state, [])
  {
    if n > 0 {
      AlwaysAccounted(env, m, dates, n - 1);
      DayAccounted(env, m, After(env, m, dates, n - 1).state, dates[n - 1]);
    }
  }

  lemma {:induction false} AbandonedRefusals(rejected: seq<Rejection>, pending: seq<Pending>, tag: nat)
    ensures Refusals(rejected + Abandoned(pending), tag) == Refusals(rejected, tag) + Entries(pending, tag)
  {
    if pending == [] {
      assert rejected + [] == rejected;
    } else {
      var fewer, last := pending[..|pending| - 1], pending[|pending| - 1];
      AbandonedRefusals(rejected, fewer, tag);
      assert pending == fewer + [last];
      QueueConcat(fewer, [last], tag);
      assert [last][1..] == [];
      var r := Rejection(last.tag, last.intent, RunEnded);
      assert rejected + Abandoned(pending) == rejected + Abandoned(fewer) + [r];
      AddRefusal(rejected + Abandoned(fewer), r, tag);
    }
  }

  /** When the run ends, every intent ever emitted is either fully filled with no rejection, or not fully filled
      with exactly one; nothing is left waiting. */
  lemma EveryOrderAccounted(env: Env, m: Market, dates: seq<int>, tag: nat)
    requires Result(env, m, dates).Ok?
    requires tag < |Result(env, m, dates).state.emitted|
    ensures var st := Result(env, m, dates).state;
            && st.pending == []
            && 0 <= Filled(st.trades, tag) <= st.emitted[tag].intent.quantity
            && Refusals(st.rejected, tag)
               == (if Filled(st.trades, tag) == st.emitted[tag].intent.quantity then 0 else 1)
  {
    AlwaysAccounted(env, m, dates, |dates|);
    var st := After(env, m, dates, |dates|).state;
    assert st.pending + [] == st.pending;
    AbandonedRefusals(st.rejected, st.pending, tag);
    assert TagOk(st, st.pending + [], tag);
  }

  // Timing -----------------------------------------------------------------------------------------------------

  /** A queued order as it stands once day d has been processed. */
  predicate QueuedOnTime(env: Env, emitted: seq<Emission>, p: Pending, d: int) {
    && p.tag < |emitted|
    && p.decided == emitted[p.tag].decided <= d
    && p.expiry == p.decided + env.expiryDays
    && p.decided < p.target <= d + 1
    && p.intent == emitted[p.tag].intent.(quantity := p.intent.quantity)
  }

  /** A fill executes the order it was emitted as, after the decision, and no processed date before it had passed
      the order's expiry. */
  predicate FilledOnTime(env: Env, emitted: seq<Emission>, t: Trade, dates: seq<int>, n: nat)
    requires n <= |dates|
  {
    && t.tag < |emitted|
    && t.fill.symbol == emitted[t.tag].intent.symbol && t.fill.side == emitted[t.tag].intent.side
    && t.fill.decided == emitted[t.tag].decided < t.fill.date
    && t.fill.date in dates[..n]
    && forall i :: 0 <= i < n && t.fill.decided < dates[i] < t.fill.date ==> dates[i] <= t.fill.decided + env.expiryDays
  }

  ghost predicate OnTime(env: Env, st: State, dates: seq<int>, n: nat)
    requires n <= |dates|
  {
    && (forall p :: p in st.pending ==>
          && n > 0 && QueuedOnTime(env, st.emitted, p, dates[n - 1])
          && (dates[n - 1] <= p.expiry || p.decided == dates[n - 1]))
    && (forall t :: t in st.trades ==> FilledOnTime(env, st.emitted, t, dates, n))
  }

  lemma SettleOnTime(env: Env, m: Market, st: State, p: Pending, dates: seq<int>, n: nat)
    requires Increasing(dates) && 0 < n <= |dates|
    requires OnTime(env, st, dates, n) && QueuedOnTime(env, st.emitted, p, dates[n - 1])
    requires p.target <= dates[n - 1] && (n > 1 ==> dates[n - 2] <= p.expiry || p.decided == dates[n - 2])
    ensures var r := Settle(env, m, st, p, dates[n - 1]);
            r.Ok? ==> OnTime(env, r.state, dates, n) && r.state.emitted == st.emitted
  {
    var d := dates[n - 1];
    SettleShape(env, m, st, p, d);
    var r := Settle(env, m, st, p, d);
    if r.Ok? {
      assert dates[..n][n - 1] == d;
      forall q | q in r.state.pending
        ensures QueuedOnTime(env, st.emitted, q, d) && (d <= q.expiry || q.decided == d)
      {
      }
      forall t | t in r.state.trades
        ensures FilledOnTime(env, st.emitted, t, dates, n)
      {
      }
    }
  }

  /** q is order p, or what is left of it after a fill on day d. */
  predicate Continues(p: Pending, q: Pending, d: int) {
    d <= p.expiry
    && (q == p || q == p.(intent := p.intent.(quantity := q.intent.quantity), target := d + 1))
  }

  predicate Executes(p: Pending, t: Trade, d: int) {
    && t.tag == p.tag && t.fill.symbol == p.intent.symbol && t.fill.side == p.intent.side
    && t.fill.decided == p.decided && t.fill.date == d
  }

  /** All an order can leave behind: itself or its remainder in the queue, and one trade of today. */
  lemma SettleShape(env: Env, m: Market, st: State, p: Pending, d: int)
    requires p.target <= d
    ensures var r := Settle(env, m, st, p, d);
            r.Ok? ==>
              && r.state.emitted == st.emitted
              && (forall q :: q in r.state.pending ==> q in st.pending || Continues(p, q, d))
              && (forall t :: t in r.state.trades ==> t in st.trades || Executes(p, t, d))
  {
    var bar := ExecutionBar(m, p.intent.symbol, d);
    if bar.Some? && TryFill(env.costs, env.participation, p, bar.value).Some? {
      FillSound(env.costs, env.participation, p, bar.value);
      ExecutionBarSeen(m, p.intent.symbol, d);
    }
  }

  lemma {:induction false} SettledOnTime(
    env: Env, m: Market, st: State, queue: seq<Pending>, dates: seq<int>, n: nat, k: nat)
    requires Increasing(dates) && 0 < n <= |dates| && k <= |queue|
    requires OnTime(env, st, dates, n)
    requires forall p :: p in queue ==>
               && QueuedOnTime(env, st.emitted, p, dates[n - 1])
               && p.target <= dates[n - 1] && (n > 1 ==> dates[n - 2] <= p.expiry || p.decided == dates[n - 2])
    ensures var r := Settled(env, m, st, queue, dates[n - 1], k);
            r.Ok? ==> OnTime(env, r.state, dates, n) && r.state.emitted == st.emitted
  {
    if k > 0 {
      SettledOnTime(env, m, st, queue, dates, n, k - 1);
      var before := Settled(env, m, st, queue, dates[n - 1], k - 1);
      assert queue[k - 1] in queue;
      if before.Ok? {
        SettleOnTime(env, m, before.state, queue[k - 1], dates, n);
      }
    }
  }

  lemma {:induction false} EnqueuedOnTime(
    env: Env, st: State, intents: seq<OrderIntent>, dates: seq<int>, n: nat, k: nat)
    requires 0 < n <= |dates| && k <= |intents| && OnTime(env, st, dates, n)
    ensures OnTime(env, Enqueued(env, st, intents, dates[n - 1], k), dates, n)
  {
    if k > 0 {
      EnqueuedOnTime(env, st, intents, dates, n, k - 1);
    }
  }

  lemma DayOnTime(env: Env, m: Market, st: State, dates: seq<int>, n: nat)
    requires Increasing(dates) && 0 < n <= |dates|
    requires OnTime(env, st, dates, n - 1) && (dates[n - 1] < env.start ==> st.pending == [])
    requires Day(env, m, st, dates[n - 1]).Ok?
    ensures OnTime(env, Day(env, m, st, dates[n - 1]).state, dates, n)
  {
    var d := dates[n - 1];
    forall t | t in st.trades
      ensures FilledOnTime(env, st.emitted, t, dates, n)
    {
      assert FilledOnTime(env, st.emitted, t, dates, n - 1);
      assert dates[..n] == dates[..n - 1] + [d];
    }
    if d >= env.start {
      var due := AllDue(m.actions, d);
      ActedFrame(env, st, due, d, |due|);
      var acted := Acted(env, st, due, d, |due|).state;
      SettledOnTime(env, m, acted.(pending := []), acted.pending, dates, n, |acted.pending|);
      var settled := Settled(env, m, acted.(pending := []), acted.pending, d, |acted.pending|).state;
      var valued := Surveyed(env, m, settled, d);
      var intents := env.strategy(Surveyed(env, m, settled, d).seen);
      EnqueuedOnTime(env, valued, intents, dates, n, |intents|);
    }
  }

  /**
   * On every day of every run: no order queued before that day has outlived its expiry; every fill comes strictly after
   * its decision and at the latest on the first processed date past the expiry; and what is executed is the order
   * that was emitted.
   */
  lemma {:induction false} AlwaysOnTime(env: Env, m: Market, dates: seq<int>, n: nat)
    requires Increasing(dates) && n <= |dates| && After(env, m, dates, n).Ok?
    ensures OnTime(env, After(env, m, dates, n).state, dates, n)
    ensures n == 0 || dates[n - 1] < env.start ==> After(env, m, dates, n).state == Initial(env)
  {
    if n > 0 {
      AlwaysOnTime(env, m, dates, n - 1);
      DayOnTime(env, m, After(env, m, dates, n - 1).state, dates, n);
    }
  }
}
