/** The mutable portfolio: cash and positions here, tax lots in the cost-and-tax engine. */
module Portfolios {
  import opened Common
  import opened Sums
  import opened CostTax
  import opened FillSimulator
  import opened Ledger

  class Portfolio {
    var cash: real
    var positions: map<Symbol, real>
    const engine: CostTaxEngine
    const tol: Tolerances

    ghost predicate Valid() {
      engine.tol == tol.lot >= 0.0
    }

    function State(): Account
      reads this, engine
    {
      Account(cash, positions, engine.lots)
    }

    constructor (capital: real, engine: CostTaxEngine, tol: Tolerances)
      requires engine.tol == tol.lot >= 0.0
      ensures Valid() && this.engine == engine && this.tol == tol
      ensures cash == capital && positions == map[]
    {
      cash, positions := capital, map[];
      this.engine, this.tol := engine, tol;
    }

    /** A buy pays price and costs; a sell receives the price less costs. Refused fills change nothing. */
    method ApplyFill(fill: Fill) returns (result: FillResult)
      requires Valid()
      modifies this, engine
      ensures result == Ledger.ApplyFill(engine.config, tol, old(State()), fill)
      ensures result.Booked? ==> State() == result.ledger
      ensures result.InsufficientCash? || result.OverSell? ==> State() == old(State())
      ensures result.LotsShort? ==> cash == old(cash) && positions == old(positions)
    {
      var held := if fill.symbol in positions then positions[fill.symbol] else 0.0;
      if fill.side == Buy {
        var cashOut := fill.cost.grossAmount + fill.cost.TotalCost();
        if cashOut > cash + tol.guard {
          return InsufficientCash;
        }
        cash := cash - cashOut;
        positions := positions[fill.symbol := held + fill.quantity as real];
        engine.RecordBuy(fill.symbol, fill.date, fill.quantity as real, fill.price, fill.cost);
        return Booked(Account(cash, positions, engine.lots), []);
      }
      if fill.quantity as real > held + tol.guard {
        return OverSell;
      }
      var realized := engine.MatchSell(fill.symbol, fill.date, fill.quantity as real, fill.price);
      if realized.Short? {
        return LotsShort(realized.missing);
      }
      cash := cash + (fill.cost.grossAmount - fill.cost.TotalCost());
      positions := positions[fill.symbol := held - fill.quantity as real];
      result := Booked(Account(cash, positions, engine.lots), realized.gains);
    }

    method ApplyDividend(symbol: Symbol, exDate: int, perUnit: real) returns (receipt: Option<DividendReceipt>)
      modifies this
      ensures (State(), receipt) == Ledger.ApplyDividend(tol, old(State()), symbol, exDate, perUnit)
    {
      var held := if symbol in positions then positions[symbol] else 0.0;
      if held <= tol.lot {
        return None;
      }
      var credit := Times(held, perUnit);
      cash := cash + credit;
      receipt := Some(Ledger.DividendReceipt(symbol, exDate, held, perUnit, credit));
    }

    /** A bad ratio is only noticed by the lot tracker, after the position has been rescaled. */
    method ApplySplit(symbol: Symbol, exDate: int, ratio: real) returns (result: SplitResult)
      modifies this, engine
      ensures result == Ledger.ApplySplit(tol, old(State()), symbol, exDate, ratio)
      ensures result.NotHeld? ==> State() == old(State())
      ensures result.Scaled? ==> State() == result.ledger
      ensures result.BadRatio? ==> cash == old(cash) && engine.lots == old(engine.lots)
    {
      var held := if symbol in positions then positions[symbol] else 0.0;
      if held <= tol.lot {
        return NotHeld;
      }
      var scaled := Times(held, ratio);
      positions := positions[symbol := scaled];
      var ok := engine.ApplySplit(symbol, ratio);
      if !ok {
        return BadRatio;
      }
      result := Scaled(Account(cash, positions, engine.lots),
                       SplitEvent(symbol, exDate, ratio, held, scaled));
    }

    method MarketValue(prices: map<Symbol, real>) returns (value: real)
      ensures value == PositionsValue(tol, positions, prices)
    {
      value := 0.0;
      var left := positions.Keys;
      ghost var rest := Valued(tol, positions, prices);
      while left != {}
        invariant left == rest.Keys <= positions.Keys
        invariant forall s :: s in rest ==> rest[s] == Valued(tol, positions, prices)[s]
        invariant value + Total(rest) == PositionsValue(tol, positions, prices)
        decreases left
      {
        var s :| s in left;
        TotalSplit(rest, s);
        if positions[s] > tol.lot {
          value := value + Times(positions[s], if s in prices then prices[s] else 0.0);
        }
        left, rest := left - {s}, rest - {s};
      }
      assert rest == map[];
    }
  }
}
