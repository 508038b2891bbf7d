/** How many whole units a budget buys once transaction costs are counted. */
module Sizing {
  import opened Sums
  import opened CostTax

  function Outlay(costs: CostTax.Config, price: real, q: int): real {
    Times(q as real, price) + TransactionCost(costs, Buy, price, q as real).TotalCost()
  }

  lemma FreeOutlay(price: real)
    ensures Outlay(NO_COSTS, price, 1) == price
  {
    NothingCosts(Buy, price, 1.0);
  }

  /** The largest quantity of at most q, and at least 1, whose outlay fits the budget; 0 when there is none. */
  function CountDown(costs: CostTax.Config, price: real, budget: real, q: int): (r: int)
    ensures 0 <= r && (q > 0 ==> r <= q)
    ensures r > 0 ==> Outlay(costs, price, r) <= budget
    ensures forall k :: r < k <= q ==> Outlay(costs, price, k) > budget
    decreases if q > 0 then q else 0
  {
    if q <= 0 then 0
    else if Outlay(costs, price, q) <= budget then q
    else CountDown(costs, price, budget, q - 1)
  }

  function MaxAffordable(costs: CostTax.Config, price: real, budget: real): int {
    if price <= 0.0 || budget <= 0.0 then 0
    else CountDown(costs, price, budget, (budget / price).Floor)
  }

  lemma OutlayAtLeastGross(costs: CostTax.Config, price: real, q: int)
    requires costs.Valid() && price > 0.0 && q >= 0
    ensures Times(q as real, price) <= Outlay(costs, price, q)
    ensures q >= 1 ==> Outlay(costs, price, q) > 0.0
  {
    CostMonotone(costs, Buy, price, q as real, q as real);
    if q >= 1 {
      TimesMonotone(1.0, q as real, price);
    }
  }

  lemma QuotientBounds(budget: real, price: real, q: int)
    requires price > 0.0 && Times(q as real, price) <= budget
    ensures q <= (budget / price).Floor
  {
    assert Times(budget / price, price) == budget;
    if q as real > budget / price {
      TimesStrict(budget / price, q as real, price);
    }
  }

  lemma TimesStrict(a: real, b: real, c: real)
    requires a < b && c > 0.0
    ensures Times(a, c) < Times(b, c)
  {
    assert Times(b, c) - Times(a, c) == (b - a) * c;
  }

  /** No larger whole quantity is affordable, and the one returned is. */
  lemma MaxAffordableIsMaximum(costs: CostTax.Config, price: real, budget: real, q: int)
    requires costs.Valid() && price > 0.0 && q >= 1
    ensures Outlay(costs, price, q) <= budget <==> q <= MaxAffordable(costs, price, budget)
  {
    OutlayAtLeastGross(costs, price, q);
    var best := MaxAffordable(costs, price, budget);
    if Outlay(costs, price, q) <= budget {
      QuotientBounds(budget, price, q);
    }
    if q <= best {
      OutlayMonotone(costs, price, q, best);
    }
  }

  lemma OneUnitFits(costs: CostTax.Config, price: real, budget: real)
    requires costs.Valid() && price > 0.0 && Outlay(costs, price, 1) <= budget
    ensures MaxAffordable(costs, price, budget) >= 1
  {
    MaxAffordableIsMaximum(costs, price, budget, 1);
  }

  lemma OutlayMonotone(costs: CostTax.Config, price: real, q: int, k: int)
    requires costs.Valid() && price >= 0.0 && 0 <= q <= k
    ensures Outlay(costs, price, q) <= Outlay(costs, price, k)
  {
    TimesMonotone(q as real, k as real, price);
    CostMonotone(costs, Buy, price, q as real, k as real);
  }

  /** Counts down from the gross quotient until costs fit as well. */
  method AffordableQuantity(costs: CostTax.Config, price: real, budget: real) returns (quantity: int)
    ensures quantity == MaxAffordable(costs, price, budget)
  {
    if price <= 0.0 || budget <= 0.0 {
      return 0;
    }
    quantity := (budget / price).Floor;
    while quantity > 0
      invariant CountDown(costs, price, budget, quantity) == MaxAffordable(costs, price, budget)
    {
      var cost := TransactionCost(costs, Buy, price, quantity as real);
      if Times(quantity as real, price) + cost.TotalCost() <= budget {
        return;
      }
      quantity := quantity - 1;
    }
    quantity := 0;
  }
}
