/** What FIFO matching means: conservation, the per-unit queue, the holding-period rule and splits. */
module Fifo {
  import opened Sums
  import opened CostTax

  function Smaller(a: real, b: real): real { if a < b then a else b }

  predicate IsWhole(x: real) { x == x.Floor as real }

  /** Quantities on which the tolerance cannot be felt: any at tolerance 0, whole units below tolerance 1. */
  predicate OnGrid(tol: real, x: real) {
    tol == 0.0 || (0.0 < tol < 1.0 && IsWhole(x))
  }

  predicate Sound(lots: seq<TaxLot>) {
    forall i :: 0 <= i < |lots| ==> lots[i].quantity > 0.0
  }

  predicate AllOnGrid(tol: real, lots: seq<TaxLot>) {
    forall i :: 0 <= i < |lots| ==> OnGrid(tol, lots[i].quantity)
  }

  predicate OldestFirst(lots: seq<TaxLot>) {
    forall i, j :: 0 <= i < j < |lots| ==> lots[i].buyDate <= lots[j].buyDate
  }

  function GainSum(gains: seq<RealizedGain>): real {
    if gains == [] then 0.0 else gains[0].grossGain + GainSum(gains[1..])
  }

  function GainQuantity(gains: seq<RealizedGain>): real {
    if gains == [] then 0.0 else gains[0].quantity + GainQuantity(gains[1..])
  }

  lemma WholeInteger(n: int)
    ensures IsWhole(n as real) && (n as real).Floor == n
  {
  }

  lemma WholeDifference(x: real, y: real)
    requires IsWhole(x) && IsWhole(y)
    ensures IsWhole(x - y) && IsWhole(x + y)
  {
    SumOfIntegers(x.Floor, y.Floor);
    WholeInteger(x.Floor - y.Floor);
    WholeInteger(x.Floor + y.Floor);
  }

  lemma SumOfIntegers(a: int, b: int)
    ensures (a - b) as real == a as real - b as real
    ensures (a + b) as real == a as real + b as real
  {
  }

  lemma WholeOrder(x: real, y: real, tol: real)
    requires IsWhole(x) && IsWhole(y) && 0.0 <= tol < 1.0
    ensures x <= y + tol <==> x <= y
  {
    var a, b := x.Floor, y.Floor;
    assert x == a as real && y == b as real;
    assert a > b ==> a as real >= b as real + 1.0;
  }

  lemma GridDifference(tol: real, x: real, y: real)
    requires OnGrid(tol, x) && OnGrid(tol, y)
    ensures OnGrid(tol, x - y) && OnGrid(tol, x + y)
    ensures x <= y + tol <==> x <= y
  {
    if tol != 0.0 {
      WholeDifference(x, y);
      WholeOrder(x, y, tol);
    }
  }

  /** On the grid a sell trims its first lot and stops, or consumes it whole and goes on. */
  lemma GridHead(cfg: Config, tol: real, lots: seq<TaxLot>, date: int, q: real, price: real)
    requires lots != [] && lots[0].quantity > 0.0 && OnGrid(tol, lots[0].quantity) && OnGrid(tol, q)
    ensures var lot := lots[0];
            && OnGrid(tol, q - lot.quantity) && OnGrid(tol, lot.quantity - q)
            && MatchLots(cfg, tol, lots, date, q, price)
               == if q <= 0.0 then Matched([], lots)
                  else if q < lot.quantity
                  then Matched([GainOn(cfg, lot, date, q, price)],
                               [lot.(quantity := lot.quantity - q)] + lots[1..])
                  else Preceded([GainOn(cfg, lot, date, lot.quantity, price)],
                                MatchLots(cfg, tol, lots[1..], date, q - lot.quantity, price))
  {
    GridDifference(tol, q, lots[0].quantity);
    GridDifference(tol, lots[0].quantity, q);
    PositiveOnGrid(tol, q);
  }

  lemma PositiveOnGrid(tol: real, q: real)
    requires OnGrid(tol, q)
    ensures q <= tol <==> q <= 0.0
  {
    if tol != 0.0 {
      WholeInteger(0);
      WholeOrder(q, 0.0, tol);
    }
  }

  /**
   * What the tolerance lets slip in one sell: units asked for but not matched, and the residue of a lot dropped with
   * it, in units and at cost.
   */
  datatype Slip = Slip(unsold: real, dropped: real, droppedCost: real)

  const NOTHING := Slip(0.0, 0.0, 0.0)

  function SlipOf(tol: real, lots: seq<TaxLot>, q: real): Slip {
    if q <= tol then Slip(q, 0.0, 0.0)
    else if lots == [] then NOTHING
    else
      var lot := lots[0];
      var residue := lot.quantity - Smaller(lot.quantity, q);
      if residue <= tol then
        var rest := SlipOf(tol, lots[1..], q - Smaller(lot.quantity, q));
        Slip(rest.unsold, rest.dropped + residue, rest.droppedCost + Times(residue, lot.buyPrice))
      else NOTHING
  }

  /** At most one tolerance of units slips, on one side or the other. */
  lemma {:induction false} SlipIsSmall(tol: real, lots: seq<TaxLot>, q: real)
    requires tol >= 0.0 && Sound(lots) && q >= 0.0
    ensures var s := SlipOf(tol, lots, q);
            0.0 <= s.unsold && 0.0 <= s.dropped && s.unsold + s.dropped <= tol
    ensures q == 0.0 ==> SlipOf(tol, lots, q) == NOTHING
  {
    if q > tol && lots != [] && lots[0].quantity - Smaller(lots[0].quantity, q) <= tol {
      SlipIsSmall(tol, lots[1..], q - Smaller(lots[0].quantity, q));
    }
  }

  /** On the grid nothing slips. */
  lemma {:induction false} NothingSlips(tol: real, lots: seq<TaxLot>, q: real)
    requires Sound(lots) && AllOnGrid(tol, lots) && OnGrid(tol, q) && q >= 0.0
    ensures SlipOf(tol, lots, q) == NOTHING
  {
    PositiveOnGrid(tol, q);
    if lots != [] {
      GridDifference(tol, q, lots[0].quantity);
      GridDifference(tol, lots[0].quantity, q);
      PositiveOnGrid(tol, lots[0].quantity - q);
      assert Times(0.0, lots[0].buyPrice) == 0.0;
      if q > 0.0 && lots[0].quantity <= q {
        NothingSlips(tol, lots[1..], q - lots[0].quantity);
      }
    }
  }

  /** One turn of the matching loop. */
  lemma MatchHead(cfg: Config, tol: real, lots: seq<TaxLot>, date: int, q: real, price: real)
    requires q > tol && lots != []
    ensures var lot, matched := lots[0], Smaller(lots[0].quantity, q);
            MatchLots(cfg, tol, lots, date, q, price)
            == if lot.quantity - matched <= tol then
                 Preceded([GainOn(cfg, lot, date, matched, price)],
                          MatchLots(cfg, tol, lots[1..], date, q - matched, price))
               else
                 Matched([GainOn(cfg, lot, date, matched, price)],
                         [lot.(quantity := lot.quantity - matched)] + lots[1..])
  {
  }

  lemma TrimmedHead(lot: TaxLot, lots: seq<TaxLot>, left: real)
    ensures var trimmed := [lot.(quantity := left)] + lots;
            && Quantity(trimmed) == left + Quantity(lots) && Basis(trimmed) == Times(left, lot.buyPrice) + Basis(lots)
            && (left > 0.0 && Sound(lots) ==> Sound(trimmed))
  {
    assert ([lot.(quantity := left)] + lots)[1..] == lots;
  }

  /**
   * The units of a sell add up, with any tolerance: it fails only for want of lots, and what it realizes, what it
   * leaves and what slips make up exactly what was open and what was asked.
   */
  lemma {:induction false} SellConservesUnits(
    cfg: Config, tol: real, lots: seq<TaxLot>, date: int, q: real, price: real)
    requires tol >= 0.0 && Sound(lots) && q >= 0.0
    ensures var m, slip := MatchLots(cfg, tol, lots, date, q, price), SlipOf(tol, lots, q);
            && (m.Matched? <==> q <= Quantity(lots) + tol)
            && (m.Matched? ==>
                  && Sound(m.lots)
                  && GainQuantity(m.gains) == q - slip.unsold
                  && Quantity(m.lots) == Quantity(lots) - GainQuantity(m.gains) - slip.dropped)
  {
    SellFailsIff(cfg, tol, lots, date, q, price);
    if q > tol && lots != [] {
      var lot, matched := lots[0], Smaller(lots[0].quantity, q);
      var gain := GainOn(cfg, lot, date, matched, price);
      MatchHead(cfg, tol, lots, date, q, price);
      if lot.quantity - matched <= tol {
        SellConservesUnits(cfg, tol, lots[1..], date, q - matched, price);
        var rest := MatchLots(cfg, tol, lots[1..], date, q - matched, price);
        if rest.Matched? {
          GainHead(gain, rest.gains);
        }
      } else {
        TrimmedHead(lot, lots[1..], lot.quantity - matched);
        GainHead(gain, []);
      }
    }
  }

  lemma MoneyOfHead(q: real, matched: real, unsold: real, price: real, held: real, buyPrice: real)
    ensures Times(matched, price - buyPrice) + Times(q - matched - unsold, price)
         == Times(q - unsold, price) - (Times(held, buyPrice) - Times(held - matched, buyPrice))
  {
    GrossGainSplits(matched, price, buyPrice);
    TimesDistributes(held, matched, buyPrice);
    TimesDistributes(q - unsold, matched, price);
    assert q - unsold - matched == q - matched - unsold;
  }

  ghost predicate MoneyAddsUp(cfg: Config, tol: real, lots: seq<TaxLot>, date: int, q: real, price: real) {
    var m, slip := MatchLots(cfg, tol, lots, date, q, price), SlipOf(tol, lots, q);
    && m.Matched?
    && GainSum(m.gains) == Times(q - slip.unsold, price) - (Basis(lots) - Basis(m.lots) - slip.droppedCost)
  }

  lemma PoppedMoney(cfg: Config, tol: real, lots: seq<TaxLot>, date: int, q: real, price: real)
    requires q > tol && lots != [] && lots[0].quantity - Smaller(lots[0].quantity, q) <= tol
    requires MoneyAddsUp(cfg, tol, lots[1..], date, q - Smaller(lots[0].quantity, q), price)
    ensures MoneyAddsUp(cfg, tol, lots, date, q, price)
  {
    var lot, matched := lots[0], Smaller(lots[0].quantity, q);
    MatchHead(cfg, tol, lots, date, q, price);
    GainHead(GainOn(cfg, lot, date, matched, price), MatchLots(cfg, tol, lots[1..], date, q - matched, price).gains);
    MoneyOfHead(q, matched, SlipOf(tol, lots[1..], q - matched).unsold, price, lot.quantity, lot.buyPrice);
  }

  lemma TrimmedMoney(cfg: Config, tol: real, lots: seq<TaxLot>, date: int, q: real, price: real)
    requires tol >= 0.0 && q > tol && lots != [] && lots[0].quantity - Smaller(lots[0].quantity, q) > tol
    ensures MoneyAddsUp(cfg, tol, lots, date, q, price)
  {
    var lot := lots[0];
    MatchHead(cfg, tol, lots, date, q, price);
    TrimmedHead(lot, lots[1..], lot.quantity - q);
    GainHead(GainOn(cfg, lot, date, q, price), []);
    MoneyOfHead(q, q, 0.0, price, lot.quantity, lot.buyPrice);
  }

  /** The money of a sell adds up: the gross gain is the proceeds of what was matched less the cost basis released. */
  lemma {:induction false} SellConservesMoney(
    cfg: Config, tol: real, lots: seq<TaxLot>, date: int, q: real, price: real)
    requires tol >= 0.0 && MatchLots(cfg, tol, lots, date, q, price).Matched?
    ensures var m, slip := MatchLots(cfg, tol, lots, date, q, price), SlipOf(tol, lots, q);
            GainSum(m.gains) == Times(q - slip.unsold, price) - (Basis(lots) - Basis(m.lots) - slip.droppedCost)
  {
    if q > tol {
      var matched := Smaller(lots[0].quantity, q);
      if lots[0].quantity - matched <= tol {
        SellConservesMoney(cfg, tol, lots[1..], date, q - matched, price);
        PoppedMoney(cfg, tol, lots, date, q, price);
      } else {
        TrimmedMoney(cfg, tol, lots, date, q, price);
      }
    }
  }

  /** On the grid both are exact, and what is left is on the grid. */
  lemma SellIsExact(cfg: Config, tol: real, lots: seq<TaxLot>, date: int, q: real, price: real)
    requires tol >= 0.0 && Sound(lots) && AllOnGrid(tol, lots) && OnGrid(tol, q) && q >= 0.0
    ensures var m := MatchLots(cfg, tol, lots, date, q, price);
            && (m.Matched? <==> q <= Quantity(lots))
            && (m.Matched? ==>
                  && Sound(m.lots) && AllOnGrid(tol, m.lots)
                  && Quantity(m.lots) == Quantity(lots) - q
                  && GainQuantity(m.gains) == q
                  && GainSum(m.gains) == Times(q, price) - (Basis(lots) - Basis(m.lots)))
  {
    SellConservesUnits(cfg, tol, lots, date, q, price);
    NothingSlips(tol, lots, q);
    GridTotal(tol, lots);
    GridDifference(tol, q, Quantity(lots));
    if MatchLots(cfg, tol, lots, date, q, price).Matched? {
      SellConservesMoney(cfg, tol, lots, date, q, price);
      SellStaysOnGrid(cfg, tol, lots, date, q, price);
    }
  }

  lemma {:induction false} GridTotal(tol: real, lots: seq<TaxLot>)
    requires AllOnGrid(tol, lots) && 0.0 <= tol < 1.0
    ensures OnGrid(tol, Quantity(lots))
  {
    if lots == [] {
      WholeInteger(0);
    } else {
      GridTotal(tol, lots[1..]);
      GridDifference(tol, lots[0].quantity, Quantity(lots[1..]));
    }
  }

  lemma {:induction false} SellStaysOnGrid(cfg: Config, tol: real, lots: seq<TaxLot>, date: int, q: real, price: real)
    requires Sound(lots) && AllOnGrid(tol, lots) && OnGrid(tol, q)
    requires MatchLots(cfg, tol, lots, date, q, price).Matched?
    ensures AllOnGrid(tol, MatchLots(cfg, tol, lots, date, q, price).lots)
  {
    if lots != [] {
      GridHead(cfg, tol, lots, date, q, price);
      if lots[0].quantity <= q {
        SellStaysOnGrid(cfg, tol, lots[1..], date, q - lots[0].quantity, price);
      }
    }
  }

  lemma GainHead(gain: RealizedGain, rest: seq<RealizedGain>)
    ensures GainQuantity([gain] + rest) == gain.quantity + GainQuantity(rest)
    ensures GainSum([gain] + rest) == gain.grossGain + GainSum(rest)
    ensures LongTermQuantity([gain] + rest)
         == (if gain.gainType == LongTerm then gain.quantity else 0.0) + LongTermQuantity(rest)
  {
    assert ([gain] + rest)[1..] == rest;
  }

  lemma {:induction false} QuantityNonNegative(lots: seq<TaxLot>)
    requires Sound(lots)
    ensures Quantity(lots) >= 0.0
    ensures Quantity(lots) == 0.0 <==> lots == []
  {
    if lots != [] {
      QuantityNonNegative(lots[1..]);
    }
  }

  lemma TimesDistributes(whole: real, part: real, c: real)
    ensures Times(whole - part, c) == Times(whole, c) - Times(part, c)
  {
  }

  lemma GrossGainSplits(matched: real, sell: real, buy: real)
    ensures Times(matched, sell - buy) == Times(matched, sell) - Times(matched, buy)
  {
  }

  /** With any tolerance, a sell fails exactly when it exceeds the open quantity by more than the tolerance. */
  lemma {:induction false} SellFailsIff(cfg: Config, tol: real, lots: seq<TaxLot>, date: int, q: real, price: real)
    requires tol >= 0.0 && Sound(lots)
    ensures MatchLots(cfg, tol, lots, date, q, price).Short? <==> q > Quantity(lots) + tol
  {
    QuantityNonNegative(lots);
    if q > tol && lots != [] {
      var matched := if lots[0].quantity < q then lots[0].quantity else q;
      QuantityNonNegative(lots[1..]);
      SellFailsIff(cfg, tol, lots[1..], date, q - matched, price);
    }
  }

  /** With any tolerance, a successful sell leaves the open quantity within one tolerance of the exact figure. */
  lemma {:induction false} SellDrift(cfg: Config, tol: real, lots: seq<TaxLot>, date: int, q: real, price: real)
    requires tol >= 0.0 && Sound(lots) && q >= 0.0
    requires MatchLots(cfg, tol, lots, date, q, price).Matched?
    ensures var left := MatchLots(cfg, tol, lots, date, q, price).lots;
            Sound(left) && -tol <= Quantity(left) - (Quantity(lots) - q) <= tol
  {
    if q > tol {
      var lot := lots[0];
      var matched := if lot.quantity < q then lot.quantity else q;
      if matched >= lot.quantity - tol {
        SellDrift(cfg, tol, lots[1..], date, q - matched, price);
      } else {
        assert ([lot.(quantity := lot.quantity - matched)] + lots[1..])[1..] == lots[1..];
      }
    }
  }

  // The per-unit queue -----------------------------------------------------------------------------------------

  /** One purchased unit: when it was bought and for how much. */
  datatype Unit = Unit(buyDate: int, buyPrice: real)

  function Repeat(u: Unit, n: nat): (r: seq<Unit>)
    ensures |r| == n
  {
    seq(n, _ => u)
  }

  /** The lots spelled out unit by unit, oldest first. */
  function Units(lots: seq<TaxLot>): seq<Unit>
    requires Sound(lots)
  {
    if lots == [] then []
    else Repeat(Unit(lots[0].buyDate, lots[0].buyPrice), lots[0].quantity.Floor) + Units(lots[1..])
  }

  predicate NonNegativeGains(gains: seq<RealizedGain>) {
    forall i :: 0 <= i < |gains| ==> gains[i].quantity >= 0.0
  }

  function SoldUnits(gains: seq<RealizedGain>): seq<Unit>
    requires NonNegativeGains(gains)
  {
    if gains == [] then []
    else Repeat(Unit(gains[0].buyDate, gains[0].buyPrice), gains[0].quantity.Floor) + SoldUnits(gains[1..])
  }

  predicate AllWhole(lots: seq<TaxLot>) {
    forall i :: 0 <= i < |lots| ==> IsWhole(lots[i].quantity)
  }

  lemma {:induction false} UnitCount(lots: seq<TaxLot>)
    requires Sound(lots) && AllWhole(lots)
    ensures |Units(lots)| as real == Quantity(lots)
  {
    if lots != [] {
      UnitCount(lots[1..]);
    }
  }

  lemma CutAfterHead(head: seq<Unit>, tail: seq<Unit>, q: nat)
    requires |head| <= q <= |head| + |tail|
    ensures (head + tail)[..q] == head + tail[..q - |head|]
    ensures (head + tail)[q..] == tail[q - |head|..]
  {
  }

  lemma CutInsideHead(u: Unit, n: nat, tail: seq<Unit>, q: nat)
    requires q <= n
    ensures (Repeat(u, n) + tail)[..q] == Repeat(u, q)
    ensures (Repeat(u, n) + tail)[q..] == Repeat(u, n - q) + tail
  {
  }

  lemma SoldHead(gain: RealizedGain, rest: seq<RealizedGain>)
    requires gain.quantity >= 0.0 && NonNegativeGains(rest)
    ensures NonNegativeGains([gain] + rest)
    ensures SoldUnits([gain] + rest) == Repeat(Unit(gain.buyDate, gain.buyPrice), gain.quantity.Floor) + SoldUnits(rest)
  {
    assert ([gain] + rest)[1..] == rest;
  }

  /** A match sold the first q units of the queue and left the rest of it. */
  predicate TakesFirst(m: Match, units: seq<Unit>, q: nat) {
    if m.Matched? then
      && q <= |units| && NonNegativeGains(m.gains) && Sound(m.lots)
      && SoldUnits(m.gains) == units[..q] && Units(m.lots) == units[q..]
    else q > |units|
  }

  lemma NothingTaken(lots: seq<TaxLot>)
    requires Sound(lots)
    ensures TakesFirst(Matched([], lots), Units(lots), 0)
  {
  }

  lemma TrimmedUnitsTaken(cfg: Config, tol: real, lots: seq<TaxLot>, date: int, q: nat, price: real)
    requires 0.0 <= tol < 1.0 && Sound(lots) && AllWhole(lots) && q > 0 && lots != [] && q < lots[0].quantity.Floor
    ensures TakesFirst(MatchLots(cfg, tol, lots, date, q as real, price), Units(lots), q)
  {
    var lot, held := lots[0], lots[0].quantity.Floor;
    var u := Unit(lot.buyDate, lot.buyPrice);
    WholeHead(cfg, tol, lots, date, q, price);
    TrimmedUnits(lots, q);
    CutInsideHead(u, held, Units(lots[1..]), q);
    SoldHead(GainOn(cfg, lot, date, q as real, price), []);
    assert Units(lots) == Repeat(u, held) + Units(lots[1..]);
  }

  lemma GainTakesFirst(gain: RealizedGain, held: nat, rest: Match, tail: seq<Unit>, q: nat)
    requires gain.quantity >= 0.0 && gain.quantity.Floor == held <= q && TakesFirst(rest, tail, q - held)
    ensures TakesFirst(Preceded([gain], rest), Repeat(Unit(gain.buyDate, gain.buyPrice), held) + tail, q)
  {
    if rest.Matched? {
      CutAfterHead(Repeat(Unit(gain.buyDate, gain.buyPrice), held), tail, q);
      SoldHead(gain, rest.gains);
    }
  }

  lemma PoppedUnitsTaken(cfg: Config, tol: real, lots: seq<TaxLot>, date: int, q: nat, price: real)
    requires 0.0 <= tol < 1.0 && Sound(lots) && AllWhole(lots) && q > 0 && lots != [] && q >= lots[0].quantity.Floor
    requires var held := lots[0].quantity.Floor;
             TakesFirst(MatchLots(cfg, tol, lots[1..], date, (q - held) as real, price), Units(lots[1..]), q - held)
    ensures TakesFirst(MatchLots(cfg, tol, lots, date, q as real, price), Units(lots), q)
  {
    var lot, held := lots[0], lots[0].quantity.Floor;
    WholeHead(cfg, tol, lots, date, q, price);
    GainTakesFirst(GainOn(cfg, lot, date, lot.quantity, price), held,
                   MatchLots(cfg, tol, lots[1..], date, (q - held) as real, price), Units(lots[1..]), q);
    assert Units(lots) == Repeat(Unit(lot.buyDate, lot.buyPrice), held) + Units(lots[1..]);
  }

  /**
   * Matching lots is taking the first q units off a per-unit queue: nothing skipped, nothing reordered, and a sell
   * succeeds exactly when that many units are open.
   */
  lemma {:induction false} SellTakesOldestUnits(
    cfg: Config, tol: real, lots: seq<TaxLot>, date: int, q: nat, price: real)
    requires 0.0 <= tol < 1.0 && Sound(lots) && AllWhole(lots)
    ensures TakesFirst(MatchLots(cfg, tol, lots, date, q as real, price), Units(lots), q)
    ensures MatchLots(cfg, tol, lots, date, q as real, price).Matched? <==> q as real <= Quantity(lots)
  {
    UnitCount(lots);
    if q == 0 {
      NothingTaken(lots);
    } else if lots != [] {
      WholeQuantity(lots[0].quantity, q);
      if q < lots[0].quantity.Floor {
        TrimmedUnitsTaken(cfg, tol, lots, date, q, price);
      } else {
        SellTakesOldestUnits(cfg, tol, lots[1..], date, q - lots[0].quantity.Floor, price);
        PoppedUnitsTaken(cfg, tol, lots, date, q, price);
      }
    }
  }

  /** Selling q whole units from a whole first lot: trim it, or take it all and go on. */
  lemma WholeHead(cfg: Config, tol: real, lots: seq<TaxLot>, date: int, q: nat, price: real)
    requires 0.0 <= tol < 1.0 && q as real > tol
    requires lots != [] && IsWhole(lots[0].quantity) && lots[0].quantity > 0.0
    ensures var lot := lots[0];
            && lot.quantity.Floor as real == lot.quantity
            && MatchLots(cfg, tol, lots, date, q as real, price)
               == if q < lot.quantity.Floor
                  then Matched([GainOn(cfg, lot, date, q as real, price)],
                               [lot.(quantity := lot.quantity - q as real)] + lots[1..])
                  else Preceded([GainOn(cfg, lot, date, lot.quantity, price)],
                                MatchLots(cfg, tol, lots[1..], date, (q - lot.quantity.Floor) as real, price))
  {
    WholeOrder(lots[0].quantity, q as real, tol);
    WholeQuantity(lots[0].quantity, q);
  }

  lemma WholeQuantity(x: real, q: nat)
    requires IsWhole(x) && x > 0.0
    ensures x == x.Floor as real && x.Floor >= 1
    ensures (q as real < x <==> q < x.Floor) && (q as real <= x <==> q <= x.Floor)
    ensures x - q as real == (x.Floor - q) as real && q as real - x == (q - x.Floor) as real
    ensures (x - q as real).Floor == x.Floor - q
  {
  }

  lemma TrimmedUnits(lots: seq<TaxLot>, q: nat)
    requires Sound(lots) && lots != [] && IsWhole(lots[0].quantity) && q < lots[0].quantity.Floor
    ensures var lot := lots[0];
            var trimmed := [lot.(quantity := lot.quantity - q as real)] + lots[1..];
            && Sound(trimmed)
            && Units(trimmed) == Repeat(Unit(lot.buyDate, lot.buyPrice), lot.quantity.Floor - q) + Units(lots[1..])
  {
    WholeQuantity(lots[0].quantity, q);
    var trimmed := [lots[0].(quantity := lots[0].quantity - q as real)] + lots[1..];
    assert trimmed[1..] == lots[1..];
  }

  // The holding-period rule ------------------------------------------------------------------------------------

  function LongTermQuantity(gains: seq<RealizedGain>): real {
    if gains == [] then 0.0
    else (if gains[0].gainType == LongTerm then gains[0].quantity else 0.0) + LongTermQuantity(gains[1..])
  }

  /** Open quantity held for longer than `days` on the day of sale. */
  function HeldLongerThan(lots: seq<TaxLot>, date: int, days: int): real {
    if lots == [] then 0.0
    else (if date - lots[0].buyDate > days then lots[0].quantity else 0.0) + HeldLongerThan(lots[1..], date, days)
  }

  lemma {:induction false} NoneHeldLonger(lots: seq<TaxLot>, date: int, days: int)
    requires forall i :: 0 <= i < |lots| ==> date - lots[i].buyDate <= days
    ensures HeldLongerThan(lots, date, days) == 0.0
  {
    if lots != [] {
      NoneHeldLonger(lots[1..], date, days);
    }
  }

  lemma {:induction false} SellKeepsOldestFirst(
    cfg: Config, tol: real, lots: seq<TaxLot>, date: int, q: real, price: real)
    requires OldestFirst(lots) && MatchLots(cfg, tol, lots, date, q, price).Matched?
    ensures OldestFirst(MatchLots(cfg, tol, lots, date, q, price).lots)
  {
    if q > tol && Smaller(lots[0].quantity, q) >= lots[0].quantity - tol {
      SellKeepsOldestFirst(cfg, tol, lots[1..], date, q - Smaller(lots[0].quantity, q), price);
    }
  }

  ghost predicate LongTermFirst(cfg: Config, tol: real, lots: seq<TaxLot>, date: int, q: real, price: real) {
    var m := MatchLots(cfg, tol, lots, date, q, price);
    && m.Matched?
    && LongTermQuantity(m.gains)
       == Smaller(HeldLongerThan(lots, date, cfg.longTermDays), q - SlipOf(tol, lots, q).unsold)
  }

  lemma PoppedLong(cfg: Config, tol: real, lots: seq<TaxLot>, date: int, q: real, price: real)
    requires tol >= 0.0 && Sound(lots) && OldestFirst(lots) && lots != []
    requires q > tol && lots[0].quantity - Smaller(lots[0].quantity, q) <= tol
    requires LongTermFirst(cfg, tol, lots[1..], date, q - Smaller(lots[0].quantity, q), price)
    ensures LongTermFirst(cfg, tol, lots, date, q, price)
  {
    var lot, matched := lots[0], Smaller(lots[0].quantity, q);
    MatchHead(cfg, tol, lots, date, q, price);
    GainHead(GainOn(cfg, lot, date, matched, price), MatchLots(cfg, tol, lots[1..], date, q - matched, price).gains);
    HeldNonNegative(lots[1..], date, cfg.longTermDays);
    SlipIsSmall(tol, lots[1..], q - matched);
    SlipWithin(tol, lots[1..], q - matched);
    if date - lot.buyDate <= cfg.longTermDays {
      NoneHeldLonger(lots[1..], date, cfg.longTermDays);
    }
  }

  lemma TrimmedLong(cfg: Config, tol: real, lots: seq<TaxLot>, date: int, q: real, price: real)
    requires tol >= 0.0 && Sound(lots) && OldestFirst(lots) && lots != []
    requires q > tol && lots[0].quantity - Smaller(lots[0].quantity, q) > tol
    ensures LongTermFirst(cfg, tol, lots, date, q, price)
  {
    MatchHead(cfg, tol, lots, date, q, price);
    GainHead(GainOn(cfg, lots[0], date, q, price), []);
    HeldNonNegative(lots[1..], date, cfg.longTermDays);
    if date - lots[0].buyDate <= cfg.longTermDays {
      NoneHeldLonger(lots[1..], date, cfg.longTermDays);
    }
  }

  lemma NothingSoldLong(cfg: Config, tol: real, lots: seq<TaxLot>, date: int, q: real, price: real)
    requires Sound(lots) && 0.0 <= q <= tol
    ensures LongTermFirst(cfg, tol, lots, date, q, price)
  {
    HeldNonNegative(lots, date, cfg.longTermDays);
  }

  lemma {:induction false} LongTermInOrder(cfg: Config, tol: real, lots: seq<TaxLot>, date: int, q: real, price: real)
    requires tol >= 0.0 && Sound(lots) && q >= 0.0 && OldestFirst(lots)
    requires MatchLots(cfg, tol, lots, date, q, price).Matched?
    ensures LongTermFirst(cfg, tol, lots, date, q, price)
  {
    if q <= tol {
      NothingSoldLong(cfg, tol, lots, date, q, price);
    } else if lots[0].quantity - Smaller(lots[0].quantity, q) > tol {
      TrimmedLong(cfg, tol, lots, date, q, price);
    } else {
      MatchHead(cfg, tol, lots, date, q, price);
      LongTermInOrder(cfg, tol, lots[1..], date, q - Smaller(lots[0].quantity, q), price);
      PoppedLong(cfg, tol, lots, date, q, price);
    }
  }

  /** Of the units sold, as many are long-term as there are units held beyond the threshold. */
  lemma LongTermSoldFirst(cfg: Config, tol: real, lots: seq<TaxLot>, date: int, q: real, price: real)
    requires tol >= 0.0 && Sound(lots) && q >= 0.0 && OldestFirst(lots)
    requires MatchLots(cfg, tol, lots, date, q, price).Matched?
    ensures LongTermQuantity(MatchLots(cfg, tol, lots, date, q, price).gains)
         == Smaller(HeldLongerThan(lots, date, cfg.longTermDays), q - SlipOf(tol, lots, q).unsold)
  {
    LongTermInOrder(cfg, tol, lots, date, q, price);
  }

  lemma {:induction false} SlipWithin(tol: real, lots: seq<TaxLot>, q: real)
    requires Sound(lots) && q >= 0.0
    ensures SlipOf(tol, lots, q).unsold <= q
  {
    if q > tol && lots != [] && lots[0].quantity - Smaller(lots[0].quantity, q) <= tol {
      SlipWithin(tol, lots[1..], q - Smaller(lots[0].quantity, q));
    }
  }

  lemma {:induction false} HeldNonNegative(lots: seq<TaxLot>, date: int, days: int)
    requires Sound(lots)
    ensures HeldLongerThan(lots, date, days) >= 0.0
  {
    if lots != [] {
      HeldNonNegative(lots[1..], date, days);
    }
  }

  // Splits -----------------------------------------------------------------------------------------------------

  /** A split keeps every lot's cost basis, date and place, and scales its quantity. */
  lemma {:induction false} SplitPreservesLot(lots: seq<TaxLot>, ratio: real, i: nat)
    requires ratio > 0.0 && i < |lots|
    ensures var before, after := lots[i], SplitLots(lots, ratio)[i];
            && after == SplitLot(before, ratio)
            && after.buyDate == before.buyDate
            && Times(after.quantity, after.buyPrice) == Times(before.quantity, before.buyPrice)
            && (before.quantity > 0.0 ==> after.quantity > 0.0)
  {
    SplitKeepsBasis(lots[i].quantity, lots[i].buyPrice, ratio);
    if i > 0 {
      SplitPreservesLot(lots[1..], ratio, i - 1);
    }
  }

  /** So the symbol's cost basis is unchanged, its quantity scales, and its lots stay oldest first. */
  lemma {:induction false} SplitPreserves(lots: seq<TaxLot>, ratio: real)
    requires ratio > 0.0
    ensures Basis(SplitLots(lots, ratio)) == Basis(lots)
    ensures Quantity(SplitLots(lots, ratio)) == Times(Quantity(lots), ratio)
    ensures OldestFirst(lots) ==> OldestFirst(SplitLots(lots, ratio))
    ensures Sound(lots) ==> Sound(SplitLots(lots, ratio))
  {
    forall i | 0 <= i < |lots|
      ensures SplitLots(lots, ratio)[i].buyDate == lots[i].buyDate
      ensures lots[i].quantity > 0.0 ==> SplitLots(lots, ratio)[i].quantity > 0.0
    {
      SplitPreservesLot(lots, ratio, i);
    }
    if lots != [] {
      SplitHead(lots, ratio);
      SplitPreserves(lots[1..], ratio);
      SplitKeepsBasis(lots[0].quantity, lots[0].buyPrice, ratio);
      Distribute(lots[0].quantity, Quantity(lots[1..]), ratio);
    }
  }

  lemma SplitKeepsBasis(q: real, price: real, ratio: real)
    requires ratio > 0.0
    ensures Times(Times(q, ratio), price / ratio) == Times(q, price)
    ensures q > 0.0 ==> Times(q, ratio) > 0.0
  {
    assert ratio * (price / ratio) == price;
  }

  function SplitGain(gain: RealizedGain, ratio: real): RealizedGain
    requires ratio > 0.0
  {
    gain.(quantity := Times(gain.quantity, ratio),
          buyPrice := gain.buyPrice / ratio, sellPrice := gain.sellPrice / ratio)
  }

  function SplitGains(gains: seq<RealizedGain>, ratio: real): (r: seq<RealizedGain>)
    requires ratio > 0.0
    ensures |r| == |gains|
    ensures forall i :: 0 <= i < |gains| ==> r[i] == SplitGain(gains[i], ratio)
  {
    if gains == [] then [] else [SplitGain(gains[0], ratio)] + SplitGains(gains[1..], ratio)
  }

  function SplitMatch(m: Match, ratio: real): Match
    requires ratio > 0.0
  {
    match m
    case Matched(gains, lots) => Matched(SplitGains(gains, ratio), SplitLots(lots, ratio))
    case Short(missing) => Short(Times(missing, ratio))
  }

  lemma ScaleOrder(a: real, b: real, ratio: real)
    requires ratio > 0.0
    ensures Times(a, ratio) <= Times(b, ratio) <==> a <= b
    ensures Times(a, ratio) < Times(b, ratio) <==> a < b
    ensures Times(a - b, ratio) == Times(a, ratio) - Times(b, ratio)
  {
    assert Times(a, ratio) - Times(b, ratio) == (a - b) * ratio;
  }

  lemma GainScales(cfg: Config, lot: TaxLot, date: int, matched: real, price: real, ratio: real)
    requires ratio > 0.0
    ensures GainOn(cfg, SplitLot(lot, ratio), date, Times(matched, ratio), price / ratio)
         == SplitGain(GainOn(cfg, lot, date, matched, price), ratio)
  {
    assert price / ratio - lot.buyPrice / ratio == (price - lot.buyPrice) / ratio;
    SplitKeepsBasis(matched, price - lot.buyPrice, ratio);
  }

  predicate Commutes(cfg: Config, tol: real, lots: seq<TaxLot>, date: int, q: real, price: real, ratio: real)
    requires ratio > 0.0
  {
    MatchLots(cfg, Times(tol, ratio), SplitLots(lots, ratio), date, Times(q, ratio), price / ratio)
    == SplitMatch(MatchLots(cfg, tol, lots, date, q, price), ratio)
  }

  lemma PoppedCommutes(cfg: Config, tol: real, lots: seq<TaxLot>, date: int, q: real, price: real, ratio: real)
    requires ratio > 0.0 && q > tol && lots != [] && Smaller(lots[0].quantity, q) >= lots[0].quantity - tol
    requires Commutes(cfg, tol, lots[1..], date, q - Smaller(lots[0].quantity, q), price, ratio)
    ensures Commutes(cfg, tol, lots, date, q, price, ratio)
  {
    var lot, matched := lots[0], Smaller(lots[0].quantity, q);
    ScaleOrder(q, tol, ratio);
    ScaledHead(tol, lot, q, ratio);
    SplitHead(lots, ratio);
    GainScales(cfg, lot, date, matched, price, ratio);
    PrecededScales(GainOn(cfg, lot, date, matched, price), MatchLots(cfg, tol, lots[1..], date, q - matched, price),
                   ratio);
  }

  lemma TrimmedCommutes(cfg: Config, tol: real, lots: seq<TaxLot>, date: int, q: real, price: real, ratio: real)
    requires ratio > 0.0 && q > tol && lots != [] && Smaller(lots[0].quantity, q) < lots[0].quantity - tol
    ensures Commutes(cfg, tol, lots, date, q, price, ratio)
  {
    var lot, matched := lots[0], Smaller(lots[0].quantity, q);
    var trimmed, gain := lot.(quantity := lot.quantity - matched), GainOn(cfg, lot, date, matched, price);
    ScaleOrder(q, tol, ratio);
    ScaledHead(tol, lot, q, ratio);
    SplitHead(lots, ratio);
    GainScales(cfg, lot, date, matched, price, ratio);
    assert ([trimmed] + lots[1..])[1..] == lots[1..];
    SplitHead([trimmed] + lots[1..], ratio);
    assert SplitGains([gain], ratio) == [SplitGain(gain, ratio)];
  }

  /**
   * Splitting first and selling the scaled quantity at the scaled price gives, lot by lot, the sell followed by
   * the split: the same gross gains, gain types and tax, and the same open lots. The tolerance scales with the
   * units, so at tolerance 0 the two orders agree outright.
   */
  lemma {:induction false} SplitCommutesWithSell(
    cfg: Config, tol: real, lots: seq<TaxLot>, date: int, q: real, price: real, ratio: real)
    requires ratio > 0.0
    ensures MatchLots(cfg, Times(tol, ratio), SplitLots(lots, ratio), date, Times(q, ratio), price / ratio)
         == SplitMatch(MatchLots(cfg, tol, lots, date, q, price), ratio)
  {
    ScaleOrder(q, tol, ratio);
    if q > tol && lots != [] {
      var matched := Smaller(lots[0].quantity, q);
      if matched >= lots[0].quantity - tol {
        SplitCommutesWithSell(cfg, tol, lots[1..], date, q - matched, price, ratio);
        PoppedCommutes(cfg, tol, lots, date, q, price, ratio);
      } else {
        TrimmedCommutes(cfg, tol, lots, date, q, price, ratio);
      }
      assert Commutes(cfg, tol, lots, date, q, price, ratio);
    }
  }

  /** The choices made at the head of the queue do not notice the scaling. */
  lemma ScaledHead(tol: real, lot: TaxLot, q: real, ratio: real)
    requires ratio > 0.0
    ensures var m := Smaller(lot.quantity, q);
            && Smaller(Times(lot.quantity, ratio), Times(q, ratio)) == Times(m, ratio)
            && (Times(m, ratio) >= Times(lot.quantity, ratio) - Times(tol, ratio) <==> m >= lot.quantity - tol)
            && Times(q, ratio) - Times(m, ratio) == Times(q - m, ratio)
            && Times(lot.quantity, ratio) - Times(m, ratio) == Times(lot.quantity - m, ratio)
  {
    var m := Smaller(lot.quantity, q);
    ScaleOrder(lot.quantity, q, ratio);
    ScaleOrder(q, m, ratio);
    ScaleOrder(lot.quantity, m, ratio);
    ScaleOrder(lot.quantity, tol, ratio);
    ScaleOrder(lot.quantity - tol, m, ratio);
  }

  lemma SplitHead(lots: seq<TaxLot>, ratio: real)
    requires ratio > 0.0 && lots != []
    ensures SplitLots(lots, ratio)[0] == SplitLot(lots[0], ratio)
    ensures SplitLots(lots, ratio)[1..] == SplitLots(lots[1..], ratio)
  {
  }

  lemma PrecededScales(gain: RealizedGain, rest: Match, ratio: real)
    requires ratio > 0.0
    ensures SplitMatch(Preceded([gain], rest), ratio) == Preceded([SplitGain(gain, ratio)], SplitMatch(rest, ratio))
  {
    if rest.Matched? {
      assert SplitGains([gain] + rest.gains, ratio) == [SplitGain(gain, ratio)] + SplitGains(rest.gains, ratio);
    }
  }
}
