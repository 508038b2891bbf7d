/** The portfolio ledger: cash, positions and tax lots, and what one event does to them. */
module Ledger {
  import opened Common
  import opened Sums
  import opened CostTax
  import opened Fifo
  import opened FillSimulator

  /** `lot`: quantities this small count as nothing. `guard`: slack in the cash and holding checks. */
  datatype Tolerances = Tolerances(lot: real, guard: real)

  const SOURCE_TOLERANCES := Tolerances(LOT_TOLERANCE, 0.000001)

  datatype Account = Account(cash: real, positions: map<Symbol, real>, lots: map<Symbol, seq<TaxLot>>)

  function Held(led: Account, s: Symbol): real {
    if s in led.positions then led.positions[s] else 0.0
  }

  function CashOut(fill: Fill): real { fill.cost.grossAmount + fill.cost.TotalCost() }

  predicate CanAffordBuy(tol: Tolerances, cash: real, fill: Fill) { CashOut(fill) <= cash + tol.guard }

  predicate CanAffordSell(tol: Tolerances, held: real, fill: Fill) { fill.quantity as real <= held + tol.guard }

  datatype FillResult =
    | Booked(ledger: Account, gains: seq<RealizedGain>)
    | InsufficientCash
    | OverSell
    | LotsShort(missing: real)

  function ApplyFill(costs: CostTax.Config, tol: Tolerances, led: Account, fill: Fill): FillResult {
    var s, q := fill.symbol, fill.quantity as real;
    if fill.side == Buy then
      if !CanAffordBuy(tol, led.cash, fill) then InsufficientCash
      else
        var lot := TaxLot(s, fill.date, q, fill.price, fill.cost);
        Booked(Account(led.cash - CashOut(fill),
                      led.positions[s := Held(led, s) + q],
                      led.lots[s := LotsOf(led.lots, s) + [lot]]), [])
    else if !CanAffordSell(tol, Held(led, s), fill) then OverSell
    else
      match MatchLots(costs, tol.lot, LotsOf(led.lots, s), fill.date, q, fill.price)
      case Short(missing) => LotsShort(missing)
      case Matched(gains, left) =>
        Booked(Account(led.cash + (fill.cost.grossAmount - fill.cost.TotalCost()),
                      led.positions[s := Held(led, s) - q],
                      if s in led.lots then led.lots[s := left] else led.lots), gains)
  }

  datatype DividendReceipt = DividendReceipt(symbol: Symbol, exDate: int, held: real, perUnit: real, credited: real)

  function ApplyDividend(tol: Tolerances, led: Account, s: Symbol, exDate: int, perUnit: real)
    : (Account, Option<DividendReceipt>)
  {
    var held := Held(led, s);
    if held <= tol.lot then (led, None)
    else
      var credit := Times(held, perUnit);
      (led.(cash := led.cash + credit), Some(DividendReceipt(s, exDate, held, perUnit, credit)))
  }

  datatype SplitEvent = SplitEvent(symbol: Symbol, exDate: int, ratio: real, before: real, after: real)

  datatype SplitResult = NotHeld | BadRatio | Scaled(ledger: Account, event: SplitEvent)

  function ApplySplit(tol: Tolerances, led: Account, s: Symbol, exDate: int, ratio: real): SplitResult {
    var held := Held(led, s);
    if held <= tol.lot then NotHeld
    else if ratio <= 0.0 then BadRatio
    else
      Scaled(Account(led.cash,
                    led.positions[s := Times(held, ratio)],
                    if s in led.lots then led.lots[s := SplitLots(led.lots[s], ratio)] else led.lots),
             SplitEvent(s, exDate, ratio, held, Times(held, ratio)))
  }

  /** Market value of the positions; a position without a price counts as nothing. */
  ghost function PositionsValue(tol: Tolerances, positions: map<Symbol, real>, prices: map<Symbol, real>): real {
    Total(Valued(tol, positions, prices))
  }

  function Valued(tol: Tolerances, positions: map<Symbol, real>, prices: map<Symbol, real>): map<Symbol, real> {
    map s | s in positions ::
      if positions[s] > tol.lot then Times(positions[s], if s in prices then prices[s] else 0.0) else 0.0
  }

  // Invariants -------------------------------------------------------------------------------------------------

  /** Tolerances that cannot be felt: both zero, or both below one unit. */
  predicate Unfelt(tol: Tolerances) {
    (tol.lot == 0.0 && tol.guard == 0.0) || (0.0 < tol.lot < 1.0 && 0.0 <= tol.guard < 1.0)
  }

  /** Positions and open lots tell the same story, symbol by symbol. */
  ghost predicate Agrees(tol: Tolerances, led: Account) {
    && led.positions.Keys == led.lots.Keys
    && forall s :: s in led.lots ==> InStep(tol, led.positions[s], led.lots[s])
  }

  predicate InStep(tol: Tolerances, position: real, lots: seq<TaxLot>) {
    && Sound(lots) && AllOnGrid(tol.lot, lots) && OldestFirst(lots)
    && OnGrid(tol.lot, position)
    && position == Quantity(lots)
  }

  predicate BoughtBy(led: Account, d: int) {
    forall s :: s in led.lots ==> forall i :: 0 <= i < |led.lots[s]| ==> led.lots[s][i].buyDate <= d
  }

  function Bases(lots: map<Symbol, seq<TaxLot>>): map<Symbol, real> {
    map s | s in lots :: Basis(lots[s])
  }

  /** Cash plus what the open lots cost: the wealth at book value. */
  ghost function BookValue(led: Account): real {
    led.cash + Total(Bases(led.lots))
  }

  lemma BasesUpdate(lots: map<Symbol, seq<TaxLot>>, s: Symbol, after: seq<TaxLot>)
    ensures Total(Bases(lots[s := after])) == Total(Bases(lots)) - Basis(LotsOf(lots, s)) + Basis(after)
  {
    assert Bases(lots[s := after]) == Bases(lots)[s := Basis(after)];
    TotalUpdate(Bases(lots), s, Basis(after));
  }

  predicate GoodFill(fill: Fill) {
    fill.quantity > 0 && fill.cost.grossAmount == Times(fill.quantity as real, fill.price)
  }

  lemma FillQuantityOnGrid(tol: Tolerances, q: int)
    requires Unfelt(tol)
    ensures OnGrid(tol.lot, q as real)
  {
    WholeInteger(q);
  }

  lemma WithinGuard(tol: Tolerances, q: real, held: real)
    requires Unfelt(tol) && OnGrid(tol.lot, q) && OnGrid(tol.lot, held)
    ensures q <= held + tol.guard <==> q <= held
  {
    if tol.lot != 0.0 {
      WholeOrder(q, held, tol.guard);
    }
  }

  lemma BuyKeepsStep(tol: Tolerances, position: real, lots: seq<TaxLot>, lot: TaxLot)
    requires InStep(tol, position, lots) && lot.quantity > 0.0 && OnGrid(tol.lot, lot.quantity)
    requires forall i :: 0 <= i < |lots| ==> lots[i].buyDate <= lot.buyDate
    ensures InStep(tol, position + lot.quantity, lots + [lot])
  {
    GridDifference(tol.lot, position, lot.quantity);
    QuantityAppend(lots, lot);
  }

  lemma SellKeepsStep(
    costs: CostTax.Config, tol: Tolerances, position: real, lots: seq<TaxLot>, date: int, q: real, price: real)
    requires InStep(tol, position, lots) && OnGrid(tol.lot, q) && q >= 0.0
    ensures var m := MatchLots(costs, tol.lot, lots, date, q, price);
            && (m.Matched? <==> q <= position)
            && (m.Matched? ==> InStep(tol, position - q, m.lots))
  {
    GridDifference(tol.lot, position, q);
    SellIsExact(costs, tol.lot, lots, date, q, price);
    if q <= position {
      SellKeepsOldestFirst(costs, tol.lot, lots, date, q, price);
    }
  }

  lemma UpdateKeepsAgreement(
    tol: Tolerances, led: Account, s: Symbol, cash: real, position: real, lots: seq<TaxLot>, d: int)
    requires Agrees(tol, led) && BoughtBy(led, d)
    requires InStep(tol, position, lots) && forall i :: 0 <= i < |lots| ==> lots[i].buyDate <= d
    ensures var after := Account(cash, led.positions[s := position], led.lots[s := lots]);
            Agrees(tol, after) && BoughtBy(after, d)
  {
  }

  lemma HeldInStep(tol: Tolerances, led: Account, s: Symbol)
    requires Unfelt(tol) && Agrees(tol, led)
    ensures InStep(tol, Held(led, s), LotsOf(led.lots, s))
    ensures Held(led, s) > 0.0 ==> s in led.lots
  {
    FillQuantityOnGrid(tol, 0);
  }

  /** Every booked fill keeps positions and lots in step, and no sell that passes the guard finds the lots short. */
  lemma FillKeepsAgreement(costs: CostTax.Config, tol: Tolerances, led: Account, fill: Fill)
    requires Unfelt(tol) && Agrees(tol, led) && GoodFill(fill) && BoughtBy(led, fill.date)
    ensures !ApplyFill(costs, tol, led, fill).LotsShort?
    ensures ApplyFill(costs, tol, led, fill).Booked? ==>
              var after := ApplyFill(costs, tol, led, fill).ledger;
              Agrees(tol, after) && BoughtBy(after, fill.date)
  {
    HeldInStep(tol, led, fill.symbol);
    FillQuantityOnGrid(tol, fill.quantity);
    if fill.side == Buy {
      BuyKeepsAgreement(costs, tol, led, fill);
    } else {
      SellKeepsAgreement(costs, tol, led, fill);
    }
  }

  lemma BuyKeepsAgreement(costs: CostTax.Config, tol: Tolerances, led: Account, fill: Fill)
    requires Agrees(tol, led) && BoughtBy(led, fill.date) && fill.side == Buy && fill.quantity > 0
    requires InStep(tol, Held(led, fill.symbol), LotsOf(led.lots, fill.symbol))
    requires OnGrid(tol.lot, fill.quantity as real)
    ensures ApplyFill(costs, tol, led, fill).Booked? ==>
              var after := ApplyFill(costs, tol, led, fill).ledger;
              Agrees(tol, after) && BoughtBy(after, fill.date)
  {
    var s, q := fill.symbol, fill.quantity as real;
    var lot := TaxLot(s, fill.date, q, fill.price, fill.cost);
    BuyKeepsStep(tol, Held(led, s), LotsOf(led.lots, s), lot);
    UpdateKeepsAgreement(
      tol, led, s, led.cash - CashOut(fill), Held(led, s) + q, LotsOf(led.lots, s) + [lot], fill.date);
  }

  lemma SellKeepsAgreement(costs: CostTax.Config, tol: Tolerances, led: Account, fill: Fill)
    requires Unfelt(tol) && Agrees(tol, led) && BoughtBy(led, fill.date) && fill.side == Sell && fill.quantity > 0
    requires InStep(tol, Held(led, fill.symbol), LotsOf(led.lots, fill.symbol))
    requires OnGrid(tol.lot, fill.quantity as real)
    requires Held(led, fill.symbol) > 0.0 ==> fill.symbol in led.lots
    ensures !ApplyFill(costs, tol, led, fill).LotsShort?
    ensures ApplyFill(costs, tol, led, fill).Booked? ==>
              var after := ApplyFill(costs, tol, led, fill).ledger;
              Agrees(tol, after) && BoughtBy(after, fill.date)
  {
    var s, q := fill.symbol, fill.quantity as real;
    var lots := LotsOf(led.lots, s);
    WithinGuard(tol, q, Held(led, s));
    SellKeepsStep(costs, tol, Held(led, s), lots, fill.date, q, fill.price);
    if q <= Held(led, s) {
      SellKeepsDates(costs, tol.lot, lots, fill.date, q, fill.price, fill.date);
      var left := MatchLots(costs, tol.lot, lots, fill.date, q, fill.price).lots;
      UpdateKeepsAgreement(tol, led, s, led.cash + (fill.cost.grossAmount - fill.cost.TotalCost()),
                           Held(led, s) - q, left, fill.date);
    }
  }

  lemma {:induction false} SellKeepsDates(
    costs: CostTax.Config, tol: real, lots: seq<TaxLot>, date: int, q: real, price: real, d: int)
    requires forall i :: 0 <= i < |lots| ==> lots[i].buyDate <= d
    requires MatchLots(costs, tol, lots, date, q, price).Matched?
    ensures var left := MatchLots(costs, tol, lots, date, q, price).lots;
            forall i :: 0 <= i < |left| ==> left[i].buyDate <= d
  {
    if q > tol && Smaller(lots[0].quantity, q) >= lots[0].quantity - tol {
      SellKeepsDates(costs, tol, lots[1..], date, q - Smaller(lots[0].quantity, q), price, d);
    }
  }

  /** What slips in a fill: unmatched units at the sale price, less dropped residues at cost. In a buy, nothing. */
  function SlipValue(tol: Tolerances, led: Account, fill: Fill): real {
    if fill.side == Buy then 0.0
    else
      var slip := SlipOf(tol.lot, LotsOf(led.lots, fill.symbol), fill.quantity as real);
      Times(slip.unsold, fill.price) - slip.droppedCost
  }

  /**
   * With any tolerance, a booked fill changes book value by its realized gross gains less its transaction cost, and
   * by what slips, and by nothing else.
   */
  lemma FillConservesValue(costs: CostTax.Config, tol: Tolerances, led: Account, fill: Fill)
    requires tol.lot >= 0.0 && GoodFill(fill) && ApplyFill(costs, tol, led, fill).Booked?
    ensures var r := ApplyFill(costs, tol, led, fill);
            BookValue(r.ledger) == BookValue(led) + GainSum(r.gains) - fill.cost.TotalCost() + SlipValue(tol, led, fill)
  {
    var s, q := fill.symbol, fill.quantity as real;
    var lots := LotsOf(led.lots, s);
    if fill.side == Buy {
      var lot := TaxLot(s, fill.date, q, fill.price, fill.cost);
      QuantityAppend(lots, lot);
      BasesUpdate(led.lots, s, lots + [lot]);
    } else {
      SellConservesMoney(costs, tol.lot, lots, fill.date, q, fill.price);
      TimesDistributes(q, SlipOf(tol.lot, lots, q).unsold, fill.price);
      if s in led.lots {
        BasesUpdate(led.lots, s, MatchLots(costs, tol.lot, lots, fill.date, q, fill.price).lots);
      }
    }
  }

  /** Nothing slips while positions and lots agree at tolerances that cannot be felt. */
  lemma NoSlipWhenUnfelt(tol: Tolerances, led: Account, fill: Fill)
    requires Unfelt(tol) && Agrees(tol, led) && fill.quantity > 0
    ensures SlipValue(tol, led, fill) == 0.0
  {
    HeldInStep(tol, led, fill.symbol);
    FillQuantityOnGrid(tol, fill.quantity);
    NothingSlips(tol.lot, LotsOf(led.lots, fill.symbol), fill.quantity as real);
  }

  /** A dividend adds what it credits; a split adds nothing. */
  lemma ActionsConserveValue(tol: Tolerances, led: Account, s: Symbol, exDate: int, amount: real)
    ensures var (after, receipt) := ApplyDividend(tol, led, s, exDate, amount);
            BookValue(after) == BookValue(led) + (if receipt.Some? then receipt.value.credited else 0.0)
    ensures var r := ApplySplit(tol, led, s, exDate, amount);
            r.Scaled? ==> BookValue(r.ledger) == BookValue(led)
  {
    if amount > 0.0 && s in led.lots {
      SplitPreserves(led.lots[s], amount);
      BasesUpdate(led.lots, s, SplitLots(led.lots[s], amount));
    }
  }

  /** The unit scale of the tolerance survives a split: any ratio at tolerance 0, whole ratios otherwise. */
  predicate RatioOnGrid(tol: Tolerances, ratio: real) {
    OnGrid(tol.lot, ratio)
  }

  lemma WholeProduct(x: real, y: real)
    requires IsWhole(x) && IsWhole(y)
    ensures IsWhole(Times(x, y))
  {
    ProductOfIntegers(x.Floor, y.Floor);
    WholeInteger(x.Floor * y.Floor);
    assert x == x.Floor as real && y == y.Floor as real;
    assert Times(x, y) == (x.Floor * y.Floor) as real;
  }

  lemma ProductOfIntegers(a: int, b: int)
    ensures (a * b) as real == a as real * b as real
  {
  }

  lemma GridProduct(tol: real, x: real, y: real)
    requires OnGrid(tol, x) && OnGrid(tol, y)
    ensures OnGrid(tol, Times(x, y))
  {
    if tol != 0.0 {
      WholeProduct(x, y);
    }
  }

  lemma SplitKeepsAgreement(tol: Tolerances, led: Account, s: Symbol, exDate: int, ratio: real, d: int)
    requires Agrees(tol, led) && RatioOnGrid(tol, ratio) && BoughtBy(led, d)
    ensures ApplySplit(tol, led, s, exDate, ratio).Scaled? ==>
              var after := ApplySplit(tol, led, s, exDate, ratio).ledger;
              Agrees(tol, after) && BoughtBy(after, d)
  {
    if ApplySplit(tol, led, s, exDate, ratio).Scaled? && s in led.lots {
      var lots := led.lots[s];
      SplitPreserves(lots, ratio);
      GridProduct(tol.lot, led.positions[s], ratio);
      forall i | 0 <= i < |lots|
        ensures OnGrid(tol.lot, SplitLots(lots, ratio)[i].quantity)
        ensures SplitLots(lots, ratio)[i].buyDate == lots[i].buyDate
      {
        SplitPreservesLot(lots, ratio, i);
        GridProduct(tol.lot, lots[i].quantity, ratio);
      }
    }
  }

  // Valuation --------------------------------------------------------------------------------------------------

  /** Market value computed lot by lot, without looking at the positions. */
  ghost function LotsValue(lots: map<Symbol, seq<TaxLot>>, prices: map<Symbol, real>): real
    requires forall s :: s in lots && lots[s] != [] ==> s in prices
  {
    Total(map s | s in lots :: if lots[s] == [] then 0.0 else Times(Quantity(lots[s]), prices[s]))
  }

  predicate Priced(led: Account, prices: map<Symbol, real>) {
    forall s :: s in led.lots && led.lots[s] != [] ==> s in prices
  }

  /** The positions are worth exactly what the open lots are worth: no held symbol lacks a price or is skipped. */
  lemma ValuationAgrees(tol: Tolerances, led: Account, prices: map<Symbol, real>)
    requires Unfelt(tol) && Agrees(tol, led) && Priced(led, prices)
    ensures PositionsValue(tol, led.positions, prices) == LotsValue(led.lots, prices)
  {
    forall s | s in led.lots
      ensures led.positions[s] <= tol.lot <==> led.lots[s] == []
    {
      PositiveOnGrid(tol.lot, led.positions[s]);
      QuantityNonNegative(led.lots[s]);
    }
    assert Valued(tol, led.positions, prices)
        == map s | s in led.lots :: if led.lots[s] == [] then 0.0 else Times(Quantity(led.lots[s]), prices[s]);
  }

  // The two tolerances -----------------------------------------------------------------------------------------

  /** With any tolerances, a sell the guard lets through finds the lots short exactly when it exceeds them by more
      than the lot tolerance. */
  lemma GuardedSellShortIff(costs: CostTax.Config, tol: Tolerances, led: Account, fill: Fill)
    requires tol.lot >= 0.0 && fill.side == Sell && Sound(LotsOf(led.lots, fill.symbol))
    requires CanAffordSell(tol, Held(led, fill.symbol), fill)
    ensures ApplyFill(costs, tol, led, fill).LotsShort?
       <==> fill.quantity as real > Quantity(LotsOf(led.lots, fill.symbol)) + tol.lot
  {
    SellFailsIff(costs, tol.lot, LotsOf(led.lots, fill.symbol), fill.date, fill.quantity as real, fill.price);
  }

  /** With any tolerance, one booked fill moves the gap between position and lots by at most the lot tolerance. */
  lemma FillDrift(costs: CostTax.Config, tol: Tolerances, led: Account, fill: Fill)
    requires tol.lot >= 0.0 && fill.quantity > 0 && Sound(LotsOf(led.lots, fill.symbol))
    requires ApplyFill(costs, tol, led, fill).Booked?
    ensures var after := ApplyFill(costs, tol, led, fill).ledger;
            var gap := Held(led, fill.symbol) - Quantity(LotsOf(led.lots, fill.symbol));
            var gap' := Held(after, fill.symbol) - Quantity(LotsOf(after.lots, fill.symbol));
            -tol.lot <= gap' - gap <= tol.lot && (fill.side == Buy ==> gap' == gap)
  {
    var lots, q := LotsOf(led.lots, fill.symbol), fill.quantity as real;
    if fill.side == Buy {
      QuantityAppend(lots, TaxLot(fill.symbol, fill.date, q, fill.price, fill.cost));
    } else {
      SellDrift(costs, tol.lot, lots, fill.date, q, fill.price);
    }
  }

  /** A split scales that gap by its ratio and leaves every other symbol alone. */
  lemma SplitScalesDrift(tol: Tolerances, led: Account, s: Symbol, exDate: int, ratio: real, other: Symbol)
    requires ApplySplit(tol, led, s, exDate, ratio).Scaled?
    ensures var after := ApplySplit(tol, led, s, exDate, ratio).ledger;
            Held(after, other) - Quantity(LotsOf(after.lots, other))
            == Times(Held(led, other) - Quantity(LotsOf(led.lots, other)), if other == s then ratio else 1.0)
  {
    if other == s {
      TimesDistributes(Held(led, s), Quantity(LotsOf(led.lots, s)), ratio);
      if s in led.lots {
        SplitPreserves(led.lots[s], ratio);
      }
    }
  }

  /** Short by half a millionth of a unit, a sell the lots cannot cover passes the guard. */
  lemma GuardWiderThanLots(costs: CostTax.Config, cost: CostBreakdown)
    ensures var lot := TaxLot("N", 0, 0.9999995, 10.0, cost);
            var led := Account(0.0, map["N" := 0.9999995], map["N" := [lot]]);
            var fill := Fill("N", Sell, 1, 10.0, 1, 0, cost);
            && Held(led, "N") == Quantity(led.lots["N"])
            && CanAffordSell(SOURCE_TOLERANCES, Held(led, "N"), fill)
            && ApplyFill(costs, SOURCE_TOLERANCES, led, fill).LotsShort?
  {
    var lot := TaxLot("N", 0, 0.9999995, 10.0, cost);
    var led := Account(0.0, map["N" := 0.9999995], map["N" := [lot]]);
    assert Quantity([lot]) == 0.9999995 + Quantity([lot][1..]);
    GuardedSellShortIff(costs, SOURCE_TOLERANCES, led, Fill("N", Sell, 1, 10.0, 1, 0, cost));
  }
}
