/** The checks an order passes before it is submitted: a chain with no side effects. */
module Verification {
  import opened Common
  import opened Sums
  import opened CostTax
  import opened Sizing

  datatype RejectionReason =
    InvalidOrder | ComplianceFailed | QuoteUnavailable | LiquidityInsufficient | InsufficientFunds

  datatype Verdict = Approved(quantity: int) | Reduced(quantity: int) | Refused(reason: RejectionReason)

  datatype Depth = Depth(bid: real, ask: real)

  /** What verification can see of the world besides cash. */
  datatype Conditions = Conditions(costs: CostTax.Config, maxSpread: real, compliant: bool, depth: Option<Depth>)

  const DEFAULT_MAX_SPREAD := 0.02

  /** Without a bid the spread is infinite. */
  predicate SpreadTooWide(d: Depth, maxSpread: real) {
    d.bid <= 0.0 || (d.ask - d.bid) / d.bid > maxSpread
  }

  predicate MarketAllows(c: Conditions) {
    c.compliant && c.depth.Some? && !SpreadTooWide(c.depth.value, c.maxSpread)
  }

  /** The largest affordable quantity that does not exceed the proposal. */
  function AffordableUpTo(costs: CostTax.Config, price: real, budget: real, proposed: int): int {
    if price <= 0.0 || budget <= 0.0 then 0
    else
      var gross := (budget / price).Floor;
      CountDown(costs, price, budget, if gross < proposed then gross else proposed)
  }

  function Verify(c: Conditions, proposed: int, limitPrice: real, cash: real): Verdict {
    if proposed <= 0 || limitPrice <= 0.0 then Refused(InvalidOrder)
    else if !c.compliant then Refused(ComplianceFailed)
    else if c.depth.None? then Refused(QuoteUnavailable)
    else if SpreadTooWide(c.depth.value, c.maxSpread) then Refused(LiquidityInsufficient)
    else
      var q := AffordableUpTo(c.costs, limitPrice, cash, proposed);
      if q <= 0 then Refused(InsufficientFunds)
      else if q == proposed then Approved(q)
      else Reduced(q)
  }

  lemma AffordableUpToIsMinimum(costs: CostTax.Config, price: real, budget: real, proposed: int)
    requires costs.Valid() && price > 0.0 && proposed >= 1
    ensures AffordableUpTo(costs, price, budget, proposed)
         == (if MaxAffordable(costs, price, budget) < proposed then MaxAffordable(costs, price, budget) else proposed)
  {
    if budget > 0.0 {
      var best := MaxAffordable(costs, price, budget);
      MaxAffordableIsMaximum(costs, price, budget, proposed);
      var gross := (budget / price).Floor;
      var r := AffordableUpTo(costs, price, budget, proposed);
      if 1 <= best {
        MaxAffordableIsMaximum(costs, price, budget, best);
      }
      if r > 0 {
        MaxAffordableIsMaximum(costs, price, budget, r);
      }
      if best < proposed {
        assert r <= best;
      } else {
        OutlayAtLeastGross(costs, price, proposed);
        QuotientBounds(budget, price, proposed);
        assert r <= proposed;
      }
    }
  }

  /**
   * An order is approved in full exactly when it is well formed, the market allows it and its outlay fits the
   * cash; it is reduced exactly when the cash buys some but not all of it, and then to the most it buys.
   */
  lemma VerdictMeaning(c: Conditions, proposed: int, limitPrice: real, cash: real)
    requires c.costs.Valid()
    ensures var v := Verify(c, proposed, limitPrice, cash);
            var fit := proposed >= 1 && limitPrice > 0.0 && MarketAllows(c);
            && (v.Approved? <==> fit && Outlay(c.costs, limitPrice, proposed) <= cash)
            && (v.Approved? ==> v.quantity == proposed)
            && (v.Reduced? <==> fit && Outlay(c.costs, limitPrice, proposed) > cash
                                && MaxAffordable(c.costs, limitPrice, cash) >= 1)
            && (v.Reduced? ==> 1 <= v.quantity == MaxAffordable(c.costs, limitPrice, cash) < proposed)
  {
    if proposed >= 1 && limitPrice > 0.0 {
      AffordableUpToIsMinimum(c.costs, limitPrice, cash, proposed);
      MaxAffordableIsMaximum(c.costs, limitPrice, cash, proposed);
    }
  }

  /** The first check that fails: form, compliance, quote, liquidity, and cash for one unit last. */
  predicate RefusedFor(c: Conditions, proposed: int, limitPrice: real, cash: real, reason: RejectionReason) {
    match reason
    case InvalidOrder => proposed < 1 || limitPrice <= 0.0
    case ComplianceFailed => proposed >= 1 && limitPrice > 0.0 && !c.compliant
    case QuoteUnavailable => proposed >= 1 && limitPrice > 0.0 && c.compliant && c.depth.None?
    case LiquidityInsufficient =>
      proposed >= 1 && limitPrice > 0.0 && c.compliant && c.depth.Some? && SpreadTooWide(c.depth.value, c.maxSpread)
    case InsufficientFunds =>
      proposed >= 1 && limitPrice > 0.0 && MarketAllows(c) && Outlay(c.costs, limitPrice, 1) > cash
  }

  /** A refusal names the first check that fails. */
  lemma RefusalMeaning(c: Conditions, proposed: int, limitPrice: real, cash: real, reason: RejectionReason)
    requires c.costs.Valid()
    ensures Verify(c, proposed, limitPrice, cash) == Refused(reason)
       <==> RefusedFor(c, proposed, limitPrice, cash, reason)
  {
    if proposed >= 1 && limitPrice > 0.0 {
      AffordableUpToIsMinimum(c.costs, limitPrice, cash, proposed);
      MaxAffordableIsMaximum(c.costs, limitPrice, cash, 1);
    }
  }

  method AffordableQuantity(costs: CostTax.Config, price: real, budget: real, proposed: int) returns (quantity: int)
    ensures quantity == AffordableUpTo(costs, price, budget, proposed)
  {
    if price <= 0.0 || budget <= 0.0 {
      return 0;
    }
    var gross := (budget / price).Floor;
    quantity := if gross < proposed then gross else proposed;
    while quantity > 0
      invariant CountDown(costs, price, budget, quantity) == AffordableUpTo(costs, price, budget, proposed)
    {
      var cost := TransactionCost(costs, Buy, price, quantity as real);
      if Times(quantity as real, price) + cost.TotalCost() <= budget {
        return;
      }
      quantity := quantity - 1;
    }
    quantity := 0;
  }
}
