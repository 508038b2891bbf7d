/** Daily bars and corporate actions, and what of them is known on a given date. */
module MarketData {
  import opened Common

  datatype Bar = Bar(date: int, open: real, high: real, low: real, close: real, volume: nat)

  datatype ActionKind = Dividend | SplitOrBonus | Unhandled

  datatype CorporateAction = CorporateAction(symbol: Symbol, exDate: int, kind: ActionKind, amount: real)

  /** Bars per symbol in the order supplied; actions grouped by symbol, in the order the symbols were supplied. */
  datatype Market = Market(bars: map<Symbol, seq<Bar>>, actions: seq<seq<CorporateAction>>)

  predicate SaneBar(b: Bar) {
    b.open > 0.0 && b.high > 0.0 && b.low > 0.0 && b.close > 0.0 && b.low <= b.high
  }

  predicate Sane(m: Market) {
    forall s | s in m.bars :: forall b | b in m.bars[s] :: SaneBar(b)
  }

  predicate Chronological(bars: seq<Bar>) {
    forall i, j :: 0 <= i < j < |bars| ==> bars[i].date <= bars[j].date
  }

  function Insert(b: Bar, bars: seq<Bar>): seq<Bar> {
    if bars == [] || b.date <= bars[0].date then [b] + bars
    else [bars[0]] + Insert(b, bars[1..])
  }

  /** Stable sort by trade date. */
  function SortByDate(bars: seq<Bar>): seq<Bar> {
    if bars == [] then [] else Insert(bars[0], SortByDate(bars[1..]))
  }

  /** The bars dated on or before d, in order: what an observer on day d has seen. */
  function Upto(bars: seq<Bar>, d: int): seq<Bar> {
    if bars == [] then []
    else if bars[0].date <= d then [bars[0]] + Upto(bars[1..], d)
    else Upto(bars[1..], d)
  }

  /** The bars dated lo..hi, in order. */
  function Window(bars: seq<Bar>, lo: int, hi: int): seq<Bar> {
    if bars == [] then []
    else if lo <= bars[0].date <= hi then [bars[0]] + Window(bars[1..], lo, hi)
    else Window(bars[1..], lo, hi)
  }

  /** The bar of day d; of several, the last. */
  function BarOn(bars: seq<Bar>, d: int): Option<Bar> {
    if bars == [] then None
    else
      var later := BarOn(bars[1..], d);
      if later.Some? then later else if bars[0].date == d then Some(bars[0]) else None
  }

  function Due(actions: seq<CorporateAction>, d: int): seq<CorporateAction> {
    if actions == [] then []
    else if actions[0].exDate == d then [actions[0]] + Due(actions[1..], d)
    else Due(actions[1..], d)
  }

  /** Every action with ex-date d, symbol by symbol. */
  function AllDue(actions: seq<seq<CorporateAction>>, d: int): seq<CorporateAction> {
    if actions == [] then [] else Due(actions[0], d) + AllDue(actions[1..], d)
  }

  // Sorting ----------------------------------------------------------------------------------------------------

  lemma {:induction false} InsertMembers(b: Bar, bars: seq<Bar>)
    ensures multiset(Insert(b, bars)) == multiset(bars) + multiset{b}
    ensures forall x :: x in Insert(b, bars) <==> x == b || x in bars
  {
    if bars != [] && b.date > bars[0].date {
      InsertMembers(b, bars[1..]);
      assert bars == [bars[0]] + bars[1..];
    }
  }

  lemma {:induction false} InsertSound(b: Bar, bars: seq<Bar>)
    requires Chronological(bars)
    ensures Chronological(Insert(b, bars))
  {
    if bars != [] && b.date > bars[0].date {
      InsertSound(b, bars[1..]);
      var rest := Insert(b, bars[1..]);
      InsertMembers(b, bars[1..]);
      forall i | 0 <= i < |rest|
        ensures bars[0].date <= rest[i].date
      {
        assert rest[i] in rest;
      }
    }
  }

  lemma {:induction false} SortSound(bars: seq<Bar>)
    ensures Chronological(SortByDate(bars))
    ensures multiset(SortByDate(bars)) == multiset(bars)
    ensures forall b :: b in SortByDate(bars) <==> b in bars
  {
    if bars != [] {
      SortSound(bars[1..]);
      InsertSound(bars[0], SortByDate(bars[1..]));
      InsertMembers(bars[0], SortByDate(bars[1..]));
      assert bars == [bars[0]] + bars[1..];
    }
  }

  lemma {:induction false} InsertStable(b: Bar, bars: seq<Bar>, d: int)
    ensures Window(Insert(b, bars), d, d) == if b.date == d then [b] + Window(bars, d, d) else Window(bars, d, d)
  {
    if bars == [] || b.date <= bars[0].date {
      assert ([b] + bars)[1..] == bars;
    } else {
      InsertStable(b, bars[1..], d);
      assert ([bars[0]] + Insert(b, bars[1..]))[1..] == Insert(b, bars[1..]);
    }
  }

  /** Bars of one date keep the order in which they were supplied. */
  lemma {:induction false} SortStable(bars: seq<Bar>, d: int)
    ensures Window(SortByDate(bars), d, d) == Window(bars, d, d)
  {
    if bars != [] {
      SortStable(bars[1..], d);
      InsertStable(bars[0], SortByDate(bars[1..]), d);
    }
  }

  lemma {:induction false} UptoMembers(bars: seq<Bar>, d: int)
    ensures forall b :: b in Upto(bars, d) <==> b in bars && b.date <= d
  {
    if bars != [] {
      UptoMembers(bars[1..], d);
      assert bars == [bars[0]] + bars[1..];
    }
  }

  lemma {:induction false} UptoInsert(b: Bar, bars: seq<Bar>, d: int)
    requires Chronological(bars)
    ensures Upto(Insert(b, bars), d) == if b.date <= d then Insert(b, Upto(bars, d)) else Upto(bars, d)
  {
    if bars == [] || b.date <= bars[0].date {
      assert ([b] + bars)[1..] == bars;
      UptoMembers(bars, d);
      if Upto(bars, d) != [] {
        assert Upto(bars, d)[0] in bars;
      }
    } else {
      UptoInsert(b, bars[1..], d);
      assert ([bars[0]] + Insert(b, bars[1..]))[1..] == Insert(b, bars[1..]);
      if bars[0].date <= d {
        assert Upto(bars, d)[1..] == Upto(bars[1..], d);
      } else {
        UptoMembers(bars[1..], d);
        if Upto(bars[1..], d) != [] {
          assert Upto(bars[1..], d)[0] in bars[1..];
        }
      }
    }
  }

  /** Sorting then forgetting the future is forgetting the future then sorting. */
  lemma {:induction false} UptoSort(bars: seq<Bar>, d: int)
    ensures Upto(SortByDate(bars), d) == SortByDate(Upto(bars, d))
  {
    if bars != [] {
      UptoSort(bars[1..], d);
      SortSound(bars[1..]);
      UptoInsert(bars[0], SortByDate(bars[1..]), d);
      if bars[0].date <= d {
        assert Upto(bars, d)[1..] == Upto(bars[1..], d);
      }
    }
  }

  lemma {:induction false} UptoShrinks(bars: seq<Bar>, d: int, e: int)
    requires d <= e
    ensures Upto(Upto(bars, e), d) == Upto(bars, d)
  {
    if bars != [] {
      UptoShrinks(bars[1..], d, e);
      if bars[0].date <= e {
        assert Upto(bars, e)[1..] == Upto(bars[1..], e);
      }
    }
  }

  lemma {:induction false} WindowOfPast(bars: seq<Bar>, lo: int, hi: int)
    ensures Window(bars, lo, hi) == Window(Upto(bars, hi), lo, hi)
  {
    if bars != [] {
      WindowOfPast(bars[1..], lo, hi);
      if bars[0].date <= hi {
        assert Upto(bars, hi)[1..] == Upto(bars[1..], hi);
      }
    }
  }

  lemma {:induction false} BarOnOfPast(bars: seq<Bar>, d: int)
    ensures BarOn(bars, d) == BarOn(Upto(bars, d), d)
    ensures BarOn(bars, d).Some? ==> BarOn(bars, d).value in bars && BarOn(bars, d).value.date == d
  {
    if bars != [] {
      BarOnOfPast(bars[1..], d);
      if bars[0].date <= d {
        assert Upto(bars, d)[1..] == Upto(bars[1..], d);
      }
    }
  }

  // The pointer and the bisected slice -------------------------------------------------------------------------

  /** p counts exactly the bars observed by day d. */
  predicate PointsPast(bars: seq<Bar>, d: int, p: nat) {
    && p <= |bars|
    && (forall i :: 0 <= i < p ==> bars[i].date <= d)
    && (p < |bars| ==> bars[p].date > d)
  }

  lemma {:induction false} PointerIsUpto(bars: seq<Bar>, d: int, p: nat)
    requires Chronological(bars) && PointsPast(bars, d, p)
    ensures Upto(bars, d) == bars[..p]
  {
    if bars != [] {
      if p > 0 {
        PointerIsUpto(bars[1..], d, p - 1);
        assert bars[..p] == [bars[0]] + bars[1..][..p - 1];
      } else {
        assert bars[1..] != [] ==> bars[1..][0] == bars[1];
        PointerIsUpto(bars[1..], d, 0);
      }
    }
  }

  /** Position `at` is where bisect_left puts `cutoff` among the first `hi` dates. */
  predicate Bisects(bars: seq<Bar>, cutoff: int, hi: nat, at: nat) {
    && at <= hi <= |bars|
    && (forall i :: 0 <= i < at ==> bars[i].date < cutoff)
    && (forall i :: at <= i < hi ==> bars[i].date >= cutoff)
  }

  method BisectLeft(bars: seq<Bar>, cutoff: int, hi: nat) returns (at: nat)
    requires Chronological(bars) && hi <= |bars|
    ensures Bisects(bars, cutoff, hi, at)
  {
    at := 0;
    var upper := hi;
    while at < upper
      invariant at <= upper <= hi
      invariant forall i :: 0 <= i < at ==> bars[i].date < cutoff
      invariant forall i :: upper <= i < hi ==> bars[i].date >= cutoff
    {
      var mid := (at + upper) / 2;
      if bars[mid].date < cutoff {
        at := mid + 1;
      } else {
        upper := mid;
      }
    }
  }

  lemma {:induction false} BisectIsWindow(bars: seq<Bar>, lo: int, d: int, at: nat)
    requires Bisects(bars, lo, |bars|, at) && forall i :: 0 <= i < |bars| ==> bars[i].date <= d
    ensures Window(bars, lo, d) == bars[at..]
  {
    if bars != [] {
      BisectIsWindow(bars[1..], lo, d, if at > 0 then at - 1 else 0);
    }
  }

  /** The slice from the bisected start to the pointer is the plain filter on dates. */
  lemma SliceIsWindow(bars: seq<Bar>, lo: int, d: int, p: nat, at: nat)
    requires Chronological(bars) && PointsPast(bars, d, p) && Bisects(bars, lo, p, at)
    ensures bars[at..p] == Window(bars, lo, d)
  {
    WindowOfPast(bars, lo, d);
    PointerIsUpto(bars, d, p);
    BisectIsWindow(bars[..p], lo, d, at);
  }
}
