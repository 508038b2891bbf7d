/** No look-ahead, as a statement about two runs: what happens by day T depends only on data dated by day T. */
module Causality {
  import opened Common
  import opened MarketData
  import opened FillSimulator
  import opened Backtest

  /** Two markets cannot be told apart by anyone who has only seen data dated on or before T. */
  ghost predicate AgreeUpto(a: Market, b: Market, T: int) {
    && a.bars.Keys == b.bars.Keys
    && (forall s :: s in a.bars ==> Upto(a.bars[s], T) == Upto(b.bars[s], T))
    && (forall d :: d <= T ==> AllDue(a.actions, d) == AllDue(b.actions, d))
  }

  lemma AgreeEarlier(a: Market, b: Market, d: int, T: int)
    requires AgreeUpto(a, b, T) && d <= T
    ensures AgreeUpto(a, b, d)
  {
    forall s | s in a.bars
      ensures Upto(a.bars[s], d) == Upto(b.bars[s], d)
    {
      UptoShrinks(a.bars[s], d, T);
      UptoShrinks(b.bars[s], d, T);
    }
  }

  lemma SameSymbolView(x: seq<Bar>, y: seq<Bar>, lo: int, d: int)
    requires Upto(x, d) == Upto(y, d)
    ensures Upto(SortByDate(x), d) == Upto(SortByDate(y), d)
    ensures Window(SortByDate(x), lo, d) == Window(SortByDate(y), lo, d)
    ensures BarOn(SortByDate(x), d) == BarOn(SortByDate(y), d)
  {
    UptoSort(x, d);
    UptoSort(y, d);
    WindowOfPast(SortByDate(x), lo, d);
    WindowOfPast(SortByDate(y), lo, d);
    BarOnOfPast(SortByDate(x), d);
    BarOnOfPast(SortByDate(y), d);
  }

  lemma SamePrices(a: Market, b: Market, d: int)
    requires AgreeUpto(a, b, d)
    ensures Prices(a, d) == Prices(b, d)
  {
    forall s | s in a.bars
      ensures Seen(a, s, d) == Seen(b, s, d)
    {
      SameSymbolView(a.bars[s], b.bars[s], d, d);
    }
  }

  lemma SameHistory(env: Env, a: Market, b: Market, d: int)
    requires AgreeUpto(a, b, d)
    ensures History(env, a, d) == History(env, b, d)
  {
    forall s | s in a.bars
      ensures History(env, a, d)[s] == History(env, b, d)[s]
    {
      SameSymbolView(a.bars[s], b.bars[s], d - env.lookback, d);
    }
  }

  lemma SameExecutionBar(a: Market, b: Market, s: Symbol, d: int)
    requires AgreeUpto(a, b, d)
    ensures ExecutionBar(a, s, d) == ExecutionBar(b, s, d)
  {
    if s in a.bars {
      SameSymbolView(a.bars[s], b.bars[s], d, d);
    }
  }

  lemma {:induction false} SameSettlement(
    env: Env, a: Market, b: Market, st: State, queue: seq<Pending>, d: int, n: nat)
    requires n <= |queue| && AgreeUpto(a, b, d)
    ensures Settled(env, a, st, queue, d, n) == Settled(env, b, st, queue, d, n)
  {
    if n > 0 {
      SameSettlement(env, a, b, st, queue, d, n - 1);
      SameExecutionBar(a, b, queue[n - 1].intent.symbol, d);
    }
  }

  lemma SameDay(env: Env, a: Market, b: Market, st: State, d: int)
    requires AgreeUpto(a, b, d)
    ensures Day(env, a, st, d) == Day(env, b, st, d)
  {
    SamePrices(a, b, d);
    SameHistory(env, a, b, d);
    var due := AllDue(a.actions, d);
    var acted := Acted(env, st, due, d, |due|);
    if d >= env.start && acted.Ok? {
      SameSettlement(env, a, b, acted.state.(pending := []), acted.state.pending, d, |acted.state.pending|);
    }
  }

  function DaysUpto(dates: seq<int>, T: int): (n: nat)
    ensures n <= |dates|
  {
    if dates == [] || dates[|dates| - 1] <= T then |dates| else DaysUpto(dates[..|dates| - 1], T)
  }

  lemma {:induction false} DaysUptoCounts(dates: seq<int>, T: int)
    requires Increasing(dates)
    ensures forall i :: 0 <= i < |dates| ==> (dates[i] <= T <==> i < DaysUpto(dates, T))
  {
    if dates != [] && dates[|dates| - 1] > T {
      var fewer := dates[..|dates| - 1];
      DaysUptoCounts(fewer, T);
      forall i | 0 <= i < |dates|
        ensures dates[i] <= T <==> i < DaysUpto(dates, T)
      {
        if i < |fewer| {
          assert fewer[i] == dates[i];
        }
      }
    }
  }

  /** Strictly increasing sequences with the same members are the same sequence. */
  lemma {:induction false} SameMembersSameSequence(a: seq<int>, b: seq<int>)
    requires Increasing(a) && Increasing(b) && forall d :: d in a <==> d in b
    ensures a == b
  {
    HasMember(a);
    HasMember(b);
    if a != [] {
      assert a[0] in b && b[0] in a;
      assert a[0] == b[0];
      forall d
        ensures d in a[1..] <==> d in b[1..]
      {
        assert d in a[1..] <==> d in a && d != a[0];
        assert d in b[1..] <==> d in b && d != b[0];
      }
      SameMembersSameSequence(a[1..], b[1..]);
    }
  }

  lemma SameDates(env: Env, a: Market, b: Market, da: seq<int>, db: seq<int>, T: int)
    requires AgreeUpto(a, b, T) && TradingDates(env, a, da) && TradingDates(env, b, db)
    ensures da[..DaysUpto(da, T)] == db[..DaysUpto(db, T)]
  {
    var pa, pb := da[..DaysUpto(da, T)], db[..DaysUpto(db, T)];
    DaysUptoCounts(da, T);
    DaysUptoCounts(db, T);
    forall d
      ensures d in pa <==> d in pb
    {
      PrefixDates(env, a, da, T, d);
      PrefixDates(env, b, db, T, d);
      if d <= T {
        SameTradingDay(env, a, b, d, T);
        SameTradingDay(env, b, a, d, T);
      }
    }
    SameMembersSameSequence(pa, pb);
  }

  lemma PrefixDates(env: Env, m: Market, dates: seq<int>, T: int, d: int)
    requires TradingDates(env, m, dates)
    ensures d in dates[..DaysUpto(dates, T)] <==> d <= T && TradesOn(env, m, d)
  {
    DaysUptoCounts(dates, T);
    if d <= T && TradesOn(env, m, d) {
      var i :| 0 <= i < |dates| && dates[i] == d;
      assert dates[..DaysUpto(dates, T)][i] == d;
    }
  }

  lemma SameTradingDay(env: Env, a: Market, b: Market, d: int, T: int)
    requires AgreeUpto(a, b, T) && d <= T
    ensures TradesOn(env, a, d) ==> TradesOn(env, b, d)
  {
    if !TradesOn(env, a, d) {
      return;
    }
    var s, bar :| s in a.bars && bar in a.bars[s] && bar.date == d;
    UptoMembers(a.bars[s], T);
    UptoMembers(b.bars[s], T);
    assert bar in Upto(a.bars[s], T);
    assert bar in b.bars[s];
  }

  /**
   * Causality. Give two runs of one strategy and configuration data that agree through day T: they process the
   * same dates through T, and after each of them their cash, positions, lots, trades, rejections, pending orders,
   * equity points, receipts and everything the strategy was shown are identical, whatever the data says later.
   */
  lemma NoLookAhead(env: Env, a: Market, b: Market, da: seq<int>, db: seq<int>, T: int, n: nat)
    requires AgreeUpto(a, b, T) && TradingDates(env, a, da) && TradingDates(env, b, db)
    requires n <= DaysUpto(da, T)
    ensures DaysUpto(da, T) == DaysUpto(db, T)
    ensures da[..n] == db[..n]
    ensures After(env, a, da, n) == After(env, b, db, n)
  {
    SameDates(env, a, b, da, db, T);
    assert |da[..DaysUpto(da, T)]| == |db[..DaysUpto(db, T)]|;
    assert da[..n] == da[..DaysUpto(da, T)][..n];
    SamePrefix(env, a, b, da, db, T, n);
  }

  lemma {:induction false} SamePrefix(env: Env, a: Market, b: Market, da: seq<int>, db: seq<int>, T: int, n: nat)
    requires AgreeUpto(a, b, T) && n <= |da| && n <= |db| && da[..n] == db[..n]
    requires Increasing(da) && n <= DaysUpto(da, T)
    ensures After(env, a, da, n) == After(env, b, db, n)
  {
    if n > 0 {
      assert da[..n - 1] == da[..n][..n - 1] && db[..n - 1] == db[..n][..n - 1];
      SamePrefix(env, a, b, da, db, T, n - 1);
      var d := da[n - 1];
      assert d == da[..n][n - 1] && db[n - 1] == db[..n][n - 1];
      DaysUptoCounts(da, T);
      AgreeEarlier(a, b, d, T);
      if After(env, a, da, n - 1).Ok? {
        SameDay(env, a, b, After(env, a, da, n - 1).state, d);
      }
    }
  }
}
