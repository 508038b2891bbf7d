/** What a day finds in the data: its bar, its price, its history and its corporate actions. */
module DayData {
  import opened Common
  import opened Sums
  import opened MarketData
  import opened Ledger
  import opened Backtest
  import opened Attribution

  // Bars -------------------------------------------------------------------------------------------------------

  /** The symbol has a bar of that date among its data. */
  predicate TradesThatDay(m: Market, s: Symbol, d: int) {
    s in m.bars && exists b :: b in m.bars[s] && b.date == d
  }

  lemma {:induction false} LastOfDay(bars: seq<Bar>, d: int)
    ensures BarOn(bars, d)
         == if Window(bars, d, d) == [] then None else Some(Window(bars, d, d)[|Window(bars, d, d)| - 1])
    ensures forall b :: b in Window(bars, d, d) <==> b in bars && b.date == d
  {
    if bars != [] {
      LastOfDay(bars[1..], d);
      assert bars == [bars[0]] + bars[1..];
    }
  }

  /** A symbol's bar of a date is the last one supplied for that date. */
  lemma ExecutionBarIs(m: Market, s: Symbol, d: int)
    ensures ExecutionBar(m, s, d).Some? <==> TradesThatDay(m, s, d)
    ensures ExecutionBar(m, s, d).Some? ==>
              var supplied := Window(m.bars[s], d, d);
              supplied != [] && ExecutionBar(m, s, d).value == supplied[|supplied| - 1]
  {
    if s in m.bars {
      LastOfDay(SortByDate(m.bars[s]), d);
      SortStable(m.bars[s], d);
      LastOfDay(m.bars[s], d);
      var supplied := Window(m.bars[s], d, d);
      if supplied != [] {
        assert supplied[0] in supplied;
      }
    }
  }

  lemma {:induction false} LastSeen(bars: seq<Bar>, d: int)
    requires Chronological(bars) && Upto(bars, d) != []
    ensures var last := Upto(bars, d)[|Upto(bars, d)| - 1];
            && last in bars && last.date <= d
            && (forall b :: b in bars && b.date <= d ==> b.date <= last.date)
            && BarOn(bars, last.date) == Some(last)
  {
    var p := |Upto(bars, d)|;
    UptoIsPrefix(bars, d);
    var last := bars[p - 1];
    forall b | b in bars && b.date <= d
      ensures b.date <= last.date
    {
      var i :| 0 <= i < |bars| && bars[i] == b;
    }
    LastOfSorted(bars, p - 1);
  }

  lemma {:induction false} NothingSeen(bars: seq<Bar>, d: int)
    requires forall i :: 0 <= i < |bars| ==> bars[i].date > d
    ensures Upto(bars, d) == []
  {
    if bars != [] {
      NothingSeen(bars[1..], d);
    }
  }

  lemma {:induction false} UptoIsPrefix(bars: seq<Bar>, d: int)
    requires Chronological(bars)
    ensures PointsPast(bars, d, |Upto(bars, d)|) && Upto(bars, d) == bars[..|Upto(bars, d)|]
  {
    if bars != [] {
      if bars[0].date > d {
        NothingSeen(bars, d);
      } else {
        UptoIsPrefix(bars[1..], d);
      }
    }
  }

  /** The last bar of its date in sorted bars is the bar of that date. */
  lemma {:induction false} LastOfSorted(bars: seq<Bar>, i: nat)
    requires Chronological(bars) && i < |bars| && (i + 1 < |bars| ==> bars[i].date < bars[i + 1].date)
    ensures BarOn(bars, bars[i].date) == Some(bars[i])
  {
    if i > 0 {
      LastOfSorted(bars[1..], i - 1);
    } else {
      BarOnOfPast(bars[1..], bars[0].date);
    }
  }

  /** A symbol has a price on a day exactly when it has traded by then. */
  lemma PricedIffTraded(m: Market, s: Symbol, d: int)
    ensures s in Prices(m, d) <==> s in m.bars && exists b :: b in m.bars[s] && b.date <= d
  {
    if s in m.bars {
      SortSound(m.bars[s]);
      UptoMembers(SortByDate(m.bars[s]), d);
      HasMember(Seen(m, s, d));
    }
  }

  /** The latest date up to d on which the symbol traded. */
  predicate LastTraded(m: Market, s: Symbol, d: int, e: int) {
    e <= d && TradesThatDay(m, s, e) && forall b :: b in m.bars[s] && b.date <= d ==> b.date <= e
  }

  /** The price is the close of the latest bar; of several of one date, of the last supplied. */
  lemma PriceIsLatestClose(m: Market, s: Symbol, d: int, e: int)
    requires LastTraded(m, s, d, e)
    ensures ExecutionBar(m, s, e).Some? && s in Prices(m, d)
    ensures Prices(m, d)[s] == ExecutionBar(m, s, e).value.close
  {
    PricedIffTraded(m, s, d);
    SortSound(m.bars[s]);
    LastSeen(SortByDate(m.bars[s]), d);
    var last := Seen(m, s, d)[|Seen(m, s, d)| - 1];
    var b :| b in m.bars[s] && b.date == e;
    assert last in m.bars[s] && last.date == e;
  }

  lemma {:induction false} WindowHas(bars: seq<Bar>, lo: int, hi: int, b: Bar)
    ensures b in Window(bars, lo, hi) <==> b in bars && lo <= b.date <= hi
  {
    if bars != [] {
      WindowHas(bars[1..], lo, hi, b);
    }
  }

  lemma {:induction false} WindowOrdered(bars: seq<Bar>, lo: int, hi: int)
    requires Chronological(bars)
    ensures Chronological(Window(bars, lo, hi))
  {
    if bars != [] {
      WindowOrdered(bars[1..], lo, hi);
      forall b | b in Window(bars[1..], lo, hi)
        ensures bars[0].date <= b.date
      {
        WindowHas(bars[1..], lo, hi, b);
      }
    }
  }

  lemma SortHas(bars: seq<Bar>, b: Bar)
    ensures Chronological(SortByDate(bars)) && (b in SortByDate(bars) <==> b in bars)
  {
    SortSound(bars);
  }

  /** A strategy is shown, of every symbol, the bars of the lookback window up to the day, in order. */
  lemma HistoryIsWindow(env: Env, m: Market, d: int, s: Symbol, b: Bar)
    ensures s in History(env, m, d) <==> s in m.bars
    ensures s in m.bars ==>
              && Chronological(History(env, m, d)[s])
              && (b in History(env, m, d)[s] <==> b in m.bars[s] && d - env.lookback <= b.date <= d)
  {
    if s in m.bars {
      SortHas(m.bars[s], b);
      WindowHas(SortByDate(m.bars[s]), d - env.lookback, d, b);
      WindowOrdered(SortByDate(m.bars[s]), d - env.lookback, d);
    }
  }

  // Corporate actions ------------------------------------------------------------------------------------------

  /** Picking the actions of an ex-date keeps the order in which they were supplied. */
  lemma {:induction false} DueConcat(a: seq<CorporateAction>, b: seq<CorporateAction>, d: int)
    ensures Due(a + b, d) == Due(a, d) + Due(b, d)
  {
    if a == [] {
      assert a + b == b;
    } else {
      var first, rest := a[0], a[1..];
      assert a == [first] + rest && a + b == [first] + (rest + b);
      DueConcat(rest, b, d);
      DueHead(first, rest, d);
      DueHead(first, rest + b, d);
    }
  }

  lemma DueHead(first: CorporateAction, rest: seq<CorporateAction>, d: int)
    ensures Due([first] + rest, d) == (if first.exDate == d then [first] else []) + Due(rest, d)
  {
    assert ([first] + rest)[1..] == rest;
  }

  lemma {:induction false} AllDueConcat(a: seq<seq<CorporateAction>>, b: seq<seq<CorporateAction>>, d: int)
    ensures AllDue(a + b, d) == AllDue(a, d) + AllDue(b, d)
  {
    if a == [] {
      assert a + b == b;
    } else {
      var first, rest := a[0], a[1..];
      assert a == [first] + rest && a + b == [first] + (rest + b);
      AllDueConcat(rest, b, d);
      AllDueHead(first, rest, d);
      AllDueHead(first, rest + b, d);
      Regrouped(Due(first, d), AllDue(rest, d), AllDue(b, d));
    }
  }

  lemma AllDueHead(first: seq<CorporateAction>, rest: seq<seq<CorporateAction>>, d: int)
    ensures AllDue([first] + rest, d) == Due(first, d) + AllDue(rest, d)
  {
    assert ([first] + rest)[1..] == rest;
  }

  lemma Regrouped<T>(a: seq<T>, b: seq<T>, c: seq<T>)
    ensures a + (b + c) == a + b + c
  {
  }

  lemma {:induction false} DueIff(actions: seq<CorporateAction>, d: int, a: CorporateAction)
    ensures a in Due(actions, d) <==> a in actions && a.exDate == d
  {
    if actions != [] {
      DueIff(actions[1..], d, a);
    }
  }

  /** Exactly the supplied actions of that ex-date are due. */
  lemma {:induction false} AllDueIff(actions: seq<seq<CorporateAction>>, d: int, a: CorporateAction)
    ensures a in AllDue(actions, d) <==> a.exDate == d && exists i :: 0 <= i < |actions| && a in actions[i]
  {
    if actions != [] {
      DueIff(actions[0], d, a);
      AllDueIff(actions[1..], d, a);
      if i :| 0 <= i < |actions[1..]| && a in actions[1..][i] {
        assert a in actions[i + 1];
      }
    }
  }

  /** Units of s held before the j-th of the day's actions: those at the start, scaled by the splits so far. */
  function HeldBefore(tol: Tolerances, held: real, due: seq<CorporateAction>, s: Symbol, j: nat): real
    requires j <= |due|
  {
    if j == 0 then held
    else
      var before, action := HeldBefore(tol, held, due, s, j - 1), due[j - 1];
      if action.kind == SplitOrBonus && action.symbol == s && before > tol.lot then Times(before, action.amount)
      else before
  }

  /** What the day's first j actions pay: per dividend on units held at its turn, those times the amount per unit. */
  function Payments(tol: Tolerances, account: Account, due: seq<CorporateAction>, d: int, j: nat): seq<DividendReceipt>
    requires j <= |due|
  {
    if j == 0 then []
    else
      var s, before := due[j - 1].symbol, Payments(tol, account, due, d, j - 1);
      var held := HeldBefore(tol, Held(account, s), due, s, j - 1);
      if due[j - 1].kind == Dividend && held > tol.lot then
        before + [DividendReceipt(s, d, held, due[j - 1].amount, Times(held, due[j - 1].amount))]
      else before
  }

  /** What the first j of the day's actions made of a state. */
  ghost predicate ActsAsDue(tol: Tolerances, st: State, r: Outcome, due: seq<CorporateAction>, d: int, j: nat)
    requires j <= |due|
  {
    match r
    case Ok(acted) =>
      && acted.receipts == st.receipts + Payments(tol, st.account, due, d, j)
      && acted.account.cash == st.account.cash + Credited(Payments(tol, st.account, due, d, j))
      && (forall s :: Held(acted.account, s) == HeldBefore(tol, Held(st.account, s), due, s, j))
      && !BadRatioMet(tol, st.account, due, j)
    case Fail(e) => e == BadSplitRatio && BadRatioMet(tol, st.account, due, j)
  }

  lemma OneMoreAction(env: Env, st: State, before: State, due: seq<CorporateAction>, d: int, j: nat)
    requires 0 < j <= |due| && ActsAsDue(env.tol, st, Ok(before), due, d, j - 1)
    ensures ActsAsDue(env.tol, st, Act(env, before, due[j - 1], d), due, d, j)
  {
    var action, held := due[j - 1], Held(before.account, due[j - 1].symbol);
    BadRatioOneMore(env.tol, st.account, due, j);
    ActionMet(env, before, action, d);
    if action.kind == Dividend && held > env.tol.lot {
      AddReceipt(Payments(env.tol, st.account, due, d, j - 1),
                 DividendReceipt(action.symbol, d, held, action.amount, Times(held, action.amount)));
    }
  }

  /**
   * The day's actions scale what is held, credit what is due on it with a receipt each, and fail only on a bad ratio
   * for a held symbol.
   */
  lemma {:induction false} ActionsOfDay(env: Env, st: State, due: seq<CorporateAction>, d: int, j: nat)
    requires j <= |due|
    ensures ActsAsDue(env.tol, st, Acted(env, st, due, d, j), due, d, j)
  {
    if j > 0 {
      ActionsOfDay(env, st, due, d, j - 1);
      var before := Acted(env, st, due, d, j - 1);
      if before.Ok? {
        OneMoreAction(env, st, before.state, due, d, j);
      } else {
        BadRatioOneMore(env.tol, st.account, due, j);
      }
    }
  }

  /** Among the first j actions is a split by a ratio that is not positive, for a symbol held at its turn. */
  predicate BadRatioMet(tol: Tolerances, account: Account, due: seq<CorporateAction>, j: nat)
    requires j <= |due|
  {
    exists i :: 0 <= i < j && BadRatioAt(tol, account, due, i)
  }

  predicate BadRatioAt(tol: Tolerances, account: Account, due: seq<CorporateAction>, i: nat)
    requires i < |due|
  {
    && due[i].kind == SplitOrBonus && due[i].amount <= 0.0
    && HeldBefore(tol, Held(account, due[i].symbol), due, due[i].symbol, i) > tol.lot
  }

  lemma BadRatioOneMore(tol: Tolerances, account: Account, due: seq<CorporateAction>, j: nat)
    requires 0 < j <= |due|
    ensures BadRatioMet(tol, account, due, j)
       <==> BadRatioMet(tol, account, due, j - 1) || BadRatioAt(tol, account, due, j - 1)
  {
  }

  /** What one action does to holdings and cash. */
  lemma ActionMet(env: Env, st: State, action: CorporateAction, d: int)
    ensures var held := Held(st.account, action.symbol);
            match Act(env, st, action, d)
            case Fail(e) =>
              e == BadSplitRatio && action.kind == SplitOrBonus && action.amount <= 0.0 && held > env.tol.lot
            case Ok(acted) =>
              && !(action.kind == SplitOrBonus && action.amount <= 0.0 && held > env.tol.lot)
              && (if action.kind == Dividend && held > env.tol.lot then
                    var receipt := DividendReceipt(action.symbol, d, held, action.amount, Times(held, action.amount));
                    && acted.receipts == st.receipts + [receipt]
                    && acted.account.cash == st.account.cash + receipt.credited
                  else acted.receipts == st.receipts && acted.account.cash == st.account.cash)
              && forall s :: Held(acted.account, s)
                             == if action.kind == SplitOrBonus && s == action.symbol && held > env.tol.lot
                                then Times(held, action.amount) else Held(st.account, s)
  {
  }
}
