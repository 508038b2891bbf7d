/** Capital-gains tax: what each realized gain owes, and what a whole sell owes read off the units it takes. */
module GainsTax {
  import opened Sums
  import opened CostTax
  import opened Fifo

  function PositivePart(x: real): real { if x > 0.0 then x else 0.0 }

  predicate IsLongTerm(cfg: Config, buyDate: int, sellDate: int) {
    sellDate - buyDate > cfg.longTermDays
  }

  /** A gain of a sell at `price` on `date`, classified and taxed by the rules. */
  predicate TaxedRight(cfg: Config, g: RealizedGain, date: int, price: real) {
    && g.sellDate == date && g.sellPrice == price
    && g.holdingDays == date - g.buyDate
    && (g.gainType == LongTerm <==> g.holdingDays > cfg.longTermDays)
    && g.taxRate == (match g.gainType case LongTerm => cfg.ltcgRate case ShortTerm => cfg.stcgRate)
    && g.grossGain == Times(g.quantity, price) - Times(g.quantity, g.buyPrice)
    && (g.grossGain <= 0.0 ==> g.estimatedTax == 0.0)
    && (g.grossGain > 0.0 ==> g.estimatedTax == Times(g.grossGain, g.taxRate))
  }

  /** Every gain of a sell is taxed right and comes out of one of the lots. */
  lemma {:induction false} GainsTaxedRight(
    cfg: Config, tol: real, lots: seq<TaxLot>, date: int, q: real, price: real, i: nat)
    requires MatchLots(cfg, tol, lots, date, q, price).Matched?
    requires i < |MatchLots(cfg, tol, lots, date, q, price).gains|
    ensures var g := MatchLots(cfg, tol, lots, date, q, price).gains[i];
            && TaxedRight(cfg, g, date, price)
            && exists k :: 0 <= k < |lots|
                 && g.buyDate == lots[k].buyDate && g.buyPrice == lots[k].buyPrice && g.symbol == lots[k].symbol
  {
    var matched := Smaller(lots[0].quantity, q);
    GrossGainSplits(matched, price, lots[0].buyPrice);
    TimesZero(if IsLongTerm(cfg, lots[0].buyDate, date) then cfg.ltcgRate else cfg.stcgRate);
    if matched >= lots[0].quantity - tol && i > 0 {
      GainsTaxedRight(cfg, tol, lots[1..], date, q - matched, price, i - 1);
      var g := MatchLots(cfg, tol, lots[1..], date, q - matched, price).gains[i - 1];
      var k :| 0 <= k < |lots[1..]|
            && g.buyDate == lots[1..][k].buyDate && g.buyPrice == lots[1..][k].buyPrice
            && g.symbol == lots[1..][k].symbol;
      assert lots[k + 1] == lots[1..][k];
    }
  }

  function TaxSum(gains: seq<RealizedGain>): real {
    if gains == [] then 0.0 else gains[0].estimatedTax + TaxSum(gains[1..])
  }

  /** What one unit gains at `price` as a long-term one, or as a short-term one; a loss counts as nothing. */
  function UnitGain(cfg: Config, u: Unit, date: int, price: real, long: bool): real {
    if IsLongTerm(cfg, u.buyDate, date) == long then PositivePart(price - u.buyPrice) else 0.0
  }

  /** What the long-term units, or the short-term ones, gain at `price`: units sold at a loss offset nothing. */
  function PositiveGains(cfg: Config, units: seq<Unit>, date: int, price: real, long: bool): real {
    if units == [] then 0.0
    else UnitGain(cfg, units[0], date, price, long) + PositiveGains(cfg, units[1..], date, price, long)
  }

  lemma OneMore(n: nat, x: real)
    ensures Times((n + 1) as real, x) == x + Times(n as real, x)
  {
  }

  lemma {:induction false} RepeatedGains(
    cfg: Config, u: Unit, n: nat, rest: seq<Unit>, date: int, price: real, long: bool)
    ensures PositiveGains(cfg, Repeat(u, n) + rest, date, price, long)
         == Times(n as real, UnitGain(cfg, u, date, price, long)) + PositiveGains(cfg, rest, date, price, long)
  {
    if n == 0 {
      TimesZero(UnitGain(cfg, u, date, price, long));
      assert Repeat(u, 0) + rest == rest;
    } else {
      RepeatedGains(cfg, u, n - 1, rest, date, price, long);
      OneMore(n - 1, UnitGain(cfg, u, date, price, long));
      assert (Repeat(u, n) + rest)[1..] == Repeat(u, n - 1) + rest;
    }
  }

  /** The gains are for whole units and taxed right. */
  predicate WholeAndTaxed(cfg: Config, gains: seq<RealizedGain>, date: int, price: real) {
    forall i :: 0 <= i < |gains| ==>
      gains[i].quantity >= 0.0 && IsWhole(gains[i].quantity) && TaxedRight(cfg, gains[i], date, price)
  }

  lemma GainOwes(cfg: Config, g: RealizedGain, date: int, price: real)
    requires g.quantity >= 0.0 && TaxedRight(cfg, g, date, price)
    ensures g.estimatedTax
         == Times(Times(g.quantity, PositivePart(price - g.buyPrice)),
                  if IsLongTerm(cfg, g.buyDate, date) then cfg.ltcgRate else cfg.stcgRate)
  {
    GrossGainSplits(g.quantity, price, g.buyPrice);
    TimesZero(g.taxRate);
    TimesZero(g.quantity);
    if price > g.buyPrice {
      TimesMonotone(0.0, g.quantity, price - g.buyPrice);
    } else {
      TimesMonotone(0.0, g.quantity, g.buyPrice - price);
      assert Times(g.quantity, price - g.buyPrice) == -Times(g.quantity, g.buyPrice - price);
    }
  }

  lemma {:induction false} TaxOfUnits(cfg: Config, gains: seq<RealizedGain>, date: int, price: real)
    requires WholeAndTaxed(cfg, gains, date, price)
    ensures NonNegativeGains(gains)
    ensures TaxSum(gains)
         == Times(PositiveGains(cfg, SoldUnits(gains), date, price, true), cfg.ltcgRate)
            + Times(PositiveGains(cfg, SoldUnits(gains), date, price, false), cfg.stcgRate)
  {
    if gains == [] {
      TimesZero(cfg.ltcgRate);
      TimesZero(cfg.stcgRate);
    } else {
      var g, rest := gains[0], SoldUnits(gains[1..]);
      TaxOfUnits(cfg, gains[1..], date, price);
      GainOwes(cfg, g, date, price);
      var u, n := Unit(g.buyDate, g.buyPrice), g.quantity.Floor;
      RepeatedGains(cfg, u, n, rest, date, price, true);
      RepeatedGains(cfg, u, n, rest, date, price, false);
      TimesZero(g.quantity);
      TimesZero(cfg.ltcgRate);
      TimesZero(cfg.stcgRate);
      TimesAdds(Times(g.quantity, UnitGain(cfg, u, date, price, true)), PositiveGains(cfg, rest, date, price, true),
                cfg.ltcgRate);
      TimesAdds(Times(g.quantity, UnitGain(cfg, u, date, price, false)), PositiveGains(cfg, rest, date, price, false),
                cfg.stcgRate);
    }
  }

  lemma TimesAdds(a: real, b: real, c: real)
    ensures Times(a + b, c) == Times(a, c) + Times(b, c)
  {
  }

  lemma {:induction false} WholeSell(cfg: Config, tol: real, lots: seq<TaxLot>, date: int, q: nat, price: real)
    requires 0.0 <= tol < 1.0 && Sound(lots) && AllWhole(lots)
    requires MatchLots(cfg, tol, lots, date, q as real, price).Matched?
    ensures WholeAndTaxed(cfg, MatchLots(cfg, tol, lots, date, q as real, price).gains, date, price)
  {
    var gains := MatchLots(cfg, tol, lots, date, q as real, price).gains;
    forall i | 0 <= i < |gains|
      ensures gains[i].quantity >= 0.0 && IsWhole(gains[i].quantity)
    {
      WholeGains(cfg, tol, lots, date, q, price, i);
    }
    forall i | 0 <= i < |gains|
      ensures TaxedRight(cfg, gains[i], date, price)
    {
      GainsTaxedRight(cfg, tol, lots, date, q as real, price, i);
    }
  }

  lemma {:induction false} WholeGains(
    cfg: Config, tol: real, lots: seq<TaxLot>, date: int, q: nat, price: real, i: nat)
    requires 0.0 <= tol < 1.0 && Sound(lots) && AllWhole(lots)
    requires MatchLots(cfg, tol, lots, date, q as real, price).Matched?
    requires i < |MatchLots(cfg, tol, lots, date, q as real, price).gains|
    ensures var g := MatchLots(cfg, tol, lots, date, q as real, price).gains[i];
            g.quantity >= 0.0 && IsWhole(g.quantity)
  {
    WholeHead(cfg, tol, lots, date, q, price);
    WholeInteger(q);
    if q >= lots[0].quantity.Floor && i > 0 {
      WholeGains(cfg, tol, lots[1..], date, q - lots[0].quantity.Floor, price, i - 1);
    }
  }

  /**
   * The estimated tax of a sell of q whole units is the long-term rate on what the long-term units among the q oldest
   * gain, and the short-term rate on what the others gain; a unit sold at a loss owes nothing and offsets nothing.
   */
  lemma SellOwes(cfg: Config, tol: real, lots: seq<TaxLot>, date: int, q: nat, price: real)
    requires 0.0 <= tol < 1.0 && Sound(lots) && AllWhole(lots) && q <= |Units(lots)|
    ensures var m, taken := MatchLots(cfg, tol, lots, date, q as real, price), Units(lots)[..q];
            && m.Matched?
            && TaxSum(m.gains)
               == Times(PositiveGains(cfg, taken, date, price, true), cfg.ltcgRate)
                  + Times(PositiveGains(cfg, taken, date, price, false), cfg.stcgRate)
  {
    SellTakesOldestUnits(cfg, tol, lots, date, q, price);
    WholeSell(cfg, tol, lots, date, q, price);
    TaxOfUnits(cfg, MatchLots(cfg, tol, lots, date, q as real, price).gains, date, price);
  }
}
