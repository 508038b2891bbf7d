/** Buy-only allocation: largest gap first, whole units, costs included. */
module Allocator {
  import opened Common
  import opened Sums
  import opened CostTax
  import opened Sizing
  import opened Verification

  const GAP_TOLERANCE := 0.000000001

  datatype Opportunity = Opportunity(symbol: Symbol, current: real, target: real, gap: real)

  function Weight(weights: map<Symbol, real>, s: Symbol): real {
    if s in weights then weights[s] else 0.0
  }

  /** Symbols below target; a target below the current weight is not a negative gap, it is no gap. */
  function Gaps(current: map<Symbol, real>, target: map<Symbol, real>): map<Symbol, real> {
    map s | s in current.Keys + target.Keys && Weight(target, s) > Weight(current, s) + GAP_TOLERANCE ::
      Weight(target, s) - Weight(current, s)
  }

  // Priority ---------------------------------------------------------------------------------------------------

  predicate Outranks(a: Opportunity, b: Opportunity) {
    a.gap > b.gap || (a.gap == b.gap && Before(a.symbol, b.symbol))
  }

  predicate Ranked(opps: seq<Opportunity>) {
    forall i, j :: 0 <= i < j < |opps| ==> Outranks(opps[i], opps[j])
  }

  function OpportunityFor(current: map<Symbol, real>, target: map<Symbol, real>, s: Symbol): Opportunity {
    Opportunity(s, Weight(current, s), Weight(target, s), Weight(target, s) - Weight(current, s))
  }

  /** Every underweight symbol, once, in (gap descending, symbol) order. */
  ghost predicate IsPriorityList(opps: seq<Opportunity>, current: map<Symbol, real>, target: map<Symbol, real>) {
    && Ranked(opps)
    && forall o :: o in opps <==>
         o.symbol in Gaps(current, target) && o == OpportunityFor(current, target, o.symbol)
  }

  lemma OutranksTransitive(a: Opportunity, b: Opportunity, c: Opportunity)
    requires Outranks(a, b) && Outranks(b, c)
    ensures Outranks(a, c)
  {
    if a.gap == b.gap == c.gap {
      BeforeTransitive(a.symbol, b.symbol, c.symbol);
    }
  }

  lemma OutranksIrreflexive(a: Opportunity)
    ensures !Outranks(a, a)
  {
    BeforeIrreflexive(a.symbol);
  }

  /** Inserts where it belongs among opportunities of other symbols. */
  method InsertRanked(o: Opportunity, opps: seq<Opportunity>) returns (r: seq<Opportunity>)
    requires Ranked(opps) && forall x :: x in opps ==> x.symbol != o.symbol
    ensures Ranked(r)
    ensures forall x :: x in r <==> x == o || x in opps
  {
    var i := 0;
    while i < |opps| && Outranks(opps[i], o)
      invariant 0 <= i <= |opps|
      invariant forall k :: 0 <= k < i ==> Outranks(opps[k], o)
    {
      i := i + 1;
    }
    r := opps[..i] + [o] + opps[i..];
    forall k | i <= k < |opps|
      ensures Outranks(o, opps[k])
    {
      assert opps[i] in opps;
      BeforeTotal(o.symbol, opps[i].symbol);
      if k > i {
        OutranksTransitive(o, opps[i], opps[k]);
      }
    }
    forall x
      ensures x in r <==> x == o || x in opps
    {
      assert opps == opps[..i] + opps[i..];
    }
  }

  /** The comprehension and the sort: one opportunity per gap, ranked. */
  method PrioritizeByGap(current: map<Symbol, real>, target: map<Symbol, real>) returns (opps: seq<Opportunity>)
    ensures IsPriorityList(opps, current, target)
  {
    opps := [];
    var gaps := Gaps(current, target);
    var left := gaps.Keys;
    while left != {}
      invariant left <= gaps.Keys
      invariant Ranked(opps)
      invariant forall o :: o in opps <==>
                  o.symbol in gaps && o.symbol !in left && o == OpportunityFor(current, target, o.symbol)
      decreases left
    {
      var s :| s in left;
      opps := InsertRanked(OpportunityFor(current, target, s), opps);
      left := left - {s};
    }
  }

  /** The ranking leaves no choice: equal inputs give the same list. */
  lemma PriorityListUnique(
    a: seq<Opportunity>, b: seq<Opportunity>, current: map<Symbol, real>, target: map<Symbol, real>)
    requires IsPriorityList(a, current, target) && IsPriorityList(b, current, target)
    ensures a == b
  {
    RankedUnique(a, b);
  }

  lemma {:induction false} RankedUnique(a: seq<Opportunity>, b: seq<Opportunity>)
    requires Ranked(a) && Ranked(b) && forall o :: o in a <==> o in b
    ensures a == b
  {
    HasMember(a);
    HasMember(b);
    if a != [] {
      assert a[0] in b && b[0] in a;
      if a[0] != b[0] {
        OutranksTransitive(a[0], b[0], a[0]);
        OutranksIrreflexive(a[0]);
      }
      forall o
        ensures o in a[1..] <==> o in b[1..]
      {
        OutranksIrreflexive(a[0]);
        assert o in a[1..] <==> o in a && o != a[0];
        assert o in b[1..] <==> o in b && o != b[0];
      }
      RankedUnique(a[1..], b[1..]);
    }
  }

  // Allocation -------------------------------------------------------------------------------------------------

  /** `closes` holds the last close of every symbol with price history; `limitPrice` turns it into a limit. */
  datatype Pricing = Pricing(costs: CostTax.Config, closes: map<Symbol, real>, limitPrice: real -> real)

  datatype BuyOrder = BuyOrder(symbol: Symbol, quantity: int, limitPrice: real)

  predicate IsPriced(p: Pricing, s: Symbol) {
    s in p.closes && p.closes[s] > 0.0
  }

  function LimitFor(p: Pricing, s: Symbol): real
    requires IsPriced(p, s)
  {
    p.limitPrice(p.closes[s])
  }

  function Min(a: real, b: real): real { if b < a then b else a }

  /** The units bought of one opportunity out of the remaining cash. */
  function UnitsFor(p: Pricing, o: Opportunity, portfolioValue: real, cash: real): int {
    if !IsPriced(p, o.symbol) then 0
    else MaxAffordable(p.costs, LimitFor(p, o.symbol), Min(cash, Times(o.gap, portfolioValue)))
  }

  function Allocate(p: Pricing, opps: seq<Opportunity>, portfolioValue: real, cash: real): seq<BuyOrder> {
    if opps == [] || cash <= 0.0 then []
    else
      var o := opps[0];
      var q := UnitsFor(p, o, portfolioValue, cash);
      if q <= 0 then Allocate(p, opps[1..], portfolioValue, cash)
      else
        [BuyOrder(o.symbol, q, LimitFor(p, o.symbol))]
        + Allocate(p, opps[1..], portfolioValue, cash - Outlay(p.costs, LimitFor(p, o.symbol), q))
  }

  /** The whole allocation: nothing without capital or a portfolio to measure the gaps against. */
  function Proposal(p: Pricing, opps: seq<Opportunity>, portfolioValue: real, capital: real): seq<BuyOrder> {
    if capital <= 0.0 || portfolioValue <= 0.0 then [] else Allocate(p, opps, portfolioValue, capital)
  }

  /** What one opportunity contributes, and the cash it leaves. */
  lemma AllocateStep(p: Pricing, opps: seq<Opportunity>, portfolioValue: real, cash: real, head: seq<BuyOrder>)
    requires opps != [] && cash > 0.0
    ensures var o := opps[0];
            var q := UnitsFor(p, o, portfolioValue, cash);
            head + Allocate(p, opps, portfolioValue, cash)
            == if q <= 0 then head + Allocate(p, opps[1..], portfolioValue, cash)
               else head + [BuyOrder(o.symbol, q, LimitFor(p, o.symbol))]
                    + Allocate(p, opps[1..], portfolioValue, cash - Outlay(p.costs, LimitFor(p, o.symbol), q))
  {
  }

  method QuantityFor(p: Pricing, o: Opportunity, portfolioValue: real, remaining: real) returns (quantity: int)
    ensures quantity == UnitsFor(p, o, portfolioValue, remaining)
  {
    if !IsPriced(p, o.symbol) {
      return 0;
    }
    var gap := Times(o.gap, portfolioValue);
    var budget := if gap < remaining then gap else remaining;
    quantity := Sizing.AffordableQuantity(p.costs, LimitFor(p, o.symbol), budget);
  }

  /** Walks the ranking while cash remains, buying whole units and counting their costs. */
  method AllocateRanked(p: Pricing, opps: seq<Opportunity>, portfolioValue: real, capital: real)
    returns (orders: seq<BuyOrder>)
    ensures orders == Allocate(p, opps, portfolioValue, capital)
  {
    orders := [];
    var remaining := capital;
    ghost var goal := Allocate(p, opps, portfolioValue, capital);
    var i := 0;
    while i < |opps| && remaining > 0.0
      invariant 0 <= i <= |opps|
      invariant goal == orders + Allocate(p, opps[i..], portfolioValue, remaining)
    {
      var o := opps[i];
      AllocateStep(p, opps[i..], portfolioValue, remaining, orders);
      assert opps[i..][1..] == opps[i + 1..];
      i := i + 1;
      var quantity := QuantityFor(p, o, portfolioValue, remaining);
      if quantity <= 0 {
        continue;
      }
      var limit := LimitFor(p, o.symbol);
      orders := orders + [BuyOrder(o.symbol, quantity, limit)];
      remaining := remaining - Outlay(p.costs, limit, quantity);
    }
    assert Allocate(p, opps[i..], portfolioValue, remaining) == [];
  }

  method BuildBuyOrders(p: Pricing, current: map<Symbol, real>, target: map<Symbol, real>,
                        portfolioValue: real, capital: real)
    returns (orders: seq<BuyOrder>)
    ensures exists opps :: IsPriorityList(opps, current, target) && orders == Proposal(p, opps, portfolioValue, capital)
    ensures orders == ProposalFor(p, current, target, portfolioValue, capital)
  {
    var opps := PrioritizeByGap(current, target);
    orders := [];
    if capital > 0.0 && portfolioValue > 0.0 {
      orders := AllocateRanked(p, opps, portfolioValue, capital);
    }
    assert orders == Proposal(p, opps, portfolioValue, capital);
    ProposalForUnique(p, opps, current, target, portfolioValue, capital);
  }

  /** The orders that equal inputs always lead to. */
  ghost function ProposalFor(p: Pricing, current: map<Symbol, real>, target: map<Symbol, real>,
                             portfolioValue: real, capital: real): seq<BuyOrder>
  {
    if opps :| IsPriorityList(opps, current, target) then Proposal(p, opps, portfolioValue, capital) else []
  }

  lemma ProposalForUnique(p: Pricing, opps: seq<Opportunity>, current: map<Symbol, real>, target: map<Symbol, real>,
                          portfolioValue: real, capital: real)
    requires IsPriorityList(opps, current, target)
    ensures ProposalFor(p, current, target, portfolioValue, capital) == Proposal(p, opps, portfolioValue, capital)
  {
    var other :| IsPriorityList(other, current, target)
              && ProposalFor(p, current, target, portfolioValue, capital)
                 == Proposal(p, other, portfolioValue, capital);
    PriorityListUnique(opps, other, current, target);
  }

  // What an allocation guarantees ------------------------------------------------------------------------------

  function Spend(costs: CostTax.Config, orders: seq<BuyOrder>): real {
    if orders == [] then 0.0
    else Outlay(costs, orders[0].limitPrice, orders[0].quantity) + Spend(costs, orders[1..])
  }

  function Bought(orders: seq<BuyOrder>, s: Symbol): int {
    if orders == [] then 0
    else (if orders[0].symbol == s then orders[0].quantity else 0) + Bought(orders[1..], s)
  }

  /** The limit price of every priced symbol is positive. */
  ghost predicate Tradable(p: Pricing) {
    p.costs.Valid() && forall s :: IsPriced(p, s) ==> LimitFor(p, s) > 0.0
  }

  lemma UnitsForSound(p: Pricing, o: Opportunity, portfolioValue: real, cash: real, q: int)
    requires Tradable(p) && IsPriced(p, o.symbol) && q >= 1
    ensures q <= UnitsFor(p, o, portfolioValue, cash)
       <==> Outlay(p.costs, LimitFor(p, o.symbol), q) <= cash
            && Outlay(p.costs, LimitFor(p, o.symbol), q) <= Times(o.gap, portfolioValue)
  {
    MaxAffordableIsMaximum(p.costs, LimitFor(p, o.symbol), Min(cash, Times(o.gap, portfolioValue)), q);
  }

  /** Costs included, an allocation never spends more than the capital. */
  lemma {:induction false} SpendWithinCapital(p: Pricing, opps: seq<Opportunity>, portfolioValue: real, cash: real)
    requires Tradable(p) && cash >= 0.0
    ensures 0.0 <= Spend(p.costs, Allocate(p, opps, portfolioValue, cash)) <= cash
  {
    if opps != [] && cash > 0.0 {
      var o, q := opps[0], UnitsFor(p, opps[0], portfolioValue, cash);
      if q > 0 {
        UnitsForSound(p, o, portfolioValue, cash, q);
        var rest := cash - Outlay(p.costs, LimitFor(p, o.symbol), q);
        OutlayAtLeastGross(p.costs, LimitFor(p, o.symbol), q);
        SpendWithinCapital(p, opps[1..], portfolioValue, rest);
        var later := Allocate(p, opps[1..], portfolioValue, rest);
        assert ([BuyOrder(o.symbol, q, LimitFor(p, o.symbol))] + later)[1..] == later;
      } else {
        SpendWithinCapital(p, opps[1..], portfolioValue, cash);
      }
    }
  }

  predicate HasOpportunity(opps: seq<Opportunity>, s: Symbol) {
    exists l :: 0 <= l < |opps| && opps[l].symbol == s
  }

  /** Some opportunity for `a` ranks before some opportunity for `b`. */
  predicate RanksBefore(opps: seq<Opportunity>, a: Symbol, b: Symbol) {
    exists k, l :: 0 <= k < l < |opps| && opps[k].symbol == a && opps[l].symbol == b
  }

  /** The symbols ordered, in order, are a selection from the ranked symbols. */
  ghost predicate FollowsRanking(opps: seq<Opportunity>, orders: seq<BuyOrder>) {
    && (forall i :: 0 <= i < |orders| ==> HasOpportunity(opps, orders[i].symbol))
    && (forall i, j :: 0 <= i < j < |orders| ==> RanksBefore(opps, orders[i].symbol, orders[j].symbol))
  }

  lemma HasLater(opps: seq<Opportunity>, s: Symbol)
    requires opps != [] && HasOpportunity(opps[1..], s)
    ensures HasOpportunity(opps, s) && RanksBefore(opps, opps[0].symbol, s)
  {
    var l :| 0 <= l < |opps[1..]| && opps[1..][l].symbol == s;
    assert opps[l + 1].symbol == s;
  }

  lemma RanksBeforeLater(opps: seq<Opportunity>, a: Symbol, b: Symbol)
    requires opps != [] && RanksBefore(opps[1..], a, b)
    ensures RanksBefore(opps, a, b)
  {
    var k, l :| 0 <= k < l < |opps[1..]| && opps[1..][k].symbol == a && opps[1..][l].symbol == b;
    assert opps[k + 1].symbol == a && opps[l + 1].symbol == b;
  }

  lemma FollowsLater(opps: seq<Opportunity>, orders: seq<BuyOrder>)
    requires opps != [] && FollowsRanking(opps[1..], orders)
    ensures FollowsRanking(opps, orders)
  {
    forall i | 0 <= i < |orders|
      ensures HasOpportunity(opps, orders[i].symbol)
    {
      HasLater(opps, orders[i].symbol);
    }
    forall i, j | 0 <= i < j < |orders|
      ensures RanksBefore(opps, orders[i].symbol, orders[j].symbol)
    {
      RanksBeforeLater(opps, orders[i].symbol, orders[j].symbol);
    }
  }

  lemma FirstFollows(opps: seq<Opportunity>, first: BuyOrder, later: seq<BuyOrder>)
    requires opps != [] && first.symbol == opps[0].symbol && FollowsRanking(opps[1..], later)
    ensures FollowsRanking(opps, [first] + later)
  {
    FollowsLater(opps, later);
    forall j | 0 <= j < |later|
      ensures RanksBefore(opps, first.symbol, later[j].symbol)
    {
      HasLater(opps, later[j].symbol);
    }
    assert HasOpportunity(opps, first.symbol);
  }

  lemma {:induction false} OrdersFollowRanking(p: Pricing, opps: seq<Opportunity>, portfolioValue: real, cash: real)
    ensures FollowsRanking(opps, Allocate(p, opps, portfolioValue, cash))
  {
    if opps != [] && cash > 0.0 {
      var o, q := opps[0], UnitsFor(p, opps[0], portfolioValue, cash);
      if q <= 0 {
        OrdersFollowRanking(p, opps[1..], portfolioValue, cash);
        FollowsLater(opps, Allocate(p, opps[1..], portfolioValue, cash));
      } else {
        var rest := cash - Outlay(p.costs, LimitFor(p, o.symbol), q);
        OrdersFollowRanking(p, opps[1..], portfolioValue, rest);
        FirstFollows(opps, BuyOrder(o.symbol, q, LimitFor(p, o.symbol)), Allocate(p, opps[1..], portfolioValue, rest));
      }
    }
  }

  /** How far a symbol is below its target weight. */
  function Shortfall(current: map<Symbol, real>, target: map<Symbol, real>, s: Symbol): real {
    Weight(target, s) - Weight(current, s)
  }

  /** Orders come by shortfall, the largest first, by symbol where it is equal; none is for no shortfall. */
  lemma OrdersByShortfall(p: Pricing, opps: seq<Opportunity>, current: map<Symbol, real>, target: map<Symbol, real>,
                          portfolioValue: real, capital: real, i: nat, j: nat)
    requires IsPriorityList(opps, current, target)
    requires i < j < |Proposal(p, opps, portfolioValue, capital)|
    ensures var orders := Proposal(p, opps, portfolioValue, capital);
            var a, b := orders[i].symbol, orders[j].symbol;
            && Shortfall(current, target, b) > GAP_TOLERANCE
            && (|| Shortfall(current, target, a) > Shortfall(current, target, b)
                || (Shortfall(current, target, a) == Shortfall(current, target, b) && Before(a, b)))
  {
    OrdersFollowRanking(p, opps, portfolioValue, capital);
    var orders := Allocate(p, opps, portfolioValue, capital);
    assert RanksBefore(opps, orders[i].symbol, orders[j].symbol);
    var k, l :| 0 <= k < l < |opps| && opps[k].symbol == orders[i].symbol && opps[l].symbol == orders[j].symbol;
    assert opps[k] in opps && opps[l] in opps && Outranks(opps[k], opps[l]);
  }

  lemma {:induction false} BoughtOnlyOpportunities(
    p: Pricing, opps: seq<Opportunity>, portfolioValue: real, cash: real, s: Symbol)
    requires forall i :: 0 <= i < |opps| ==> opps[i].symbol != s
    ensures Bought(Allocate(p, opps, portfolioValue, cash), s) == 0
  {
    if opps != [] && cash > 0.0 {
      var o, q := opps[0], UnitsFor(p, opps[0], portfolioValue, cash);
      var rest := if q <= 0 then cash else cash - Outlay(p.costs, LimitFor(p, o.symbol), q);
      BoughtOnlyOpportunities(p, opps[1..], portfolioValue, rest, s);
      if q > 0 {
        var later := Allocate(p, opps[1..], portfolioValue, rest);
        assert ([BuyOrder(o.symbol, q, LimitFor(p, o.symbol))] + later)[1..] == later;
      }
    }
  }

  /** What q units of a symbol cost in all: nothing at all for none. */
  function Cost(p: Pricing, s: Symbol, q: int): real
    requires IsPriced(p, s)
  {
    if q <= 0 then 0.0 else Outlay(p.costs, LimitFor(p, s), q)
  }

  predicate DistinctSymbols(opps: seq<Opportunity>) {
    forall i, j :: 0 <= i < j < |opps| ==> opps[i].symbol != opps[j].symbol
  }

  /**
   * No overshoot and no waste. For every opportunity with a price, what is bought fits its gap; and one more unit
   * would exceed either the gap or the cash the whole allocation leaves over.
   */
  lemma {:induction false} NoOvershootNoWaste(
    p: Pricing, opps: seq<Opportunity>, portfolioValue: real, cash: real, i: nat)
    requires Tradable(p) && DistinctSymbols(opps) && cash >= 0.0
    requires i < |opps| && IsPriced(p, opps[i].symbol) && opps[i].gap >= 0.0 && portfolioValue >= 0.0
    ensures var orders, o := Allocate(p, opps, portfolioValue, cash), opps[i];
            var q := Bought(orders, o.symbol);
            && q >= 0
            && Cost(p, o.symbol, q) <= Times(o.gap, portfolioValue)
            && (Cost(p, o.symbol, q + 1) > Times(o.gap, portfolioValue)
                || Cost(p, o.symbol, q + 1) - Cost(p, o.symbol, q) > cash - Spend(p.costs, orders))
  {
    var o := opps[i];
    TimesMonotone(0.0, o.gap, portfolioValue);
    if cash <= 0.0 {
      OutlayAtLeastGross(p.costs, LimitFor(p, o.symbol), 1);
    } else {
      var first, q := opps[0], UnitsFor(p, opps[0], portfolioValue, cash);
      var rest := if q <= 0 then cash else cash - Outlay(p.costs, LimitFor(p, first.symbol), q);
      var later := Allocate(p, opps[1..], portfolioValue, rest);
      var orders := Allocate(p, opps, portfolioValue, cash);
      if q > 0 {
        UnitsForSound(p, first, portfolioValue, cash, q);
        assert ([BuyOrder(first.symbol, q, LimitFor(p, first.symbol))] + later)[1..] == later;
      }
      if i == 0 {
        BoughtOnlyOpportunities(p, opps[1..], portfolioValue, rest, first.symbol);
        SpendWithinCapital(p, opps[1..], portfolioValue, rest);
        var bought := Bought(orders, first.symbol);
        assert bought == if q > 0 then q else 0;
        UnitsForSound(p, first, portfolioValue, cash, bought + 1);
      } else {
        assert opps[1..][i - 1] == o;
        NoOvershootNoWaste(p, opps[1..], portfolioValue, rest, i - 1);
        assert Bought(orders, o.symbol) == Bought(later, o.symbol);
        assert cash - Spend(p.costs, orders) == rest - Spend(p.costs, later);
      }
    }
  }

  lemma GapsPositive(opps: seq<Opportunity>, current: map<Symbol, real>, target: map<Symbol, real>, i: nat)
    requires IsPriorityList(opps, current, target) && i < |opps|
    ensures opps[i].gap > 0.0 && opps[i] == OpportunityFor(current, target, opps[i].symbol)
  {
    assert opps[i] in opps;
  }

  lemma PriorityListDistinct(opps: seq<Opportunity>, current: map<Symbol, real>, target: map<Symbol, real>)
    requires IsPriorityList(opps, current, target)
    ensures DistinctSymbols(opps)
  {
    forall i, j | 0 <= i < j < |opps|
      ensures opps[i].symbol != opps[j].symbol
    {
      assert opps[i] in opps && opps[j] in opps;
      OutranksIrreflexive(opps[i]);
    }
  }

  /** The same in weights: what is bought of a symbol added to what was held stays within the target share. */
  predicate FitsTarget(p: Pricing, s: Symbol, current: real, target: real, portfolioValue: real, q: int)
    requires IsPriced(p, s)
  {
    Times(current, portfolioValue) + Cost(p, s, q) <= Times(target, portfolioValue)
  }

  lemma FitsTargetIff(p: Pricing, s: Symbol, current: real, target: real, portfolioValue: real, q: int)
    requires IsPriced(p, s)
    ensures FitsTarget(p, s, current, target, portfolioValue, q)
       <==> Cost(p, s, q) <= Times(target - current, portfolioValue)
  {
    Distribute(current, target - current, portfolioValue);
  }

  /** A proposal stays within the capital, takes no symbol above its target share, and wastes no money. */
  lemma ProposalSound(p: Pricing, opps: seq<Opportunity>, current: map<Symbol, real>, target: map<Symbol, real>,
                      portfolioValue: real, capital: real, i: nat)
    requires Tradable(p) && IsPriorityList(opps, current, target) && capital > 0.0 && portfolioValue > 0.0
    requires i < |opps| && IsPriced(p, opps[i].symbol)
    ensures var orders, s := Proposal(p, opps, portfolioValue, capital), opps[i].symbol;
            var q, held, aim := Bought(orders, s), Weight(current, s), Weight(target, s);
            && Spend(p.costs, orders) <= capital
            && FitsTarget(p, s, held, aim, portfolioValue, q)
            && (!FitsTarget(p, s, held, aim, portfolioValue, q + 1)
                || Cost(p, s, q + 1) - Cost(p, s, q) > capital - Spend(p.costs, orders))
  {
    PriorityListDistinct(opps, current, target);
    GapsPositive(opps, current, target, i);
    SpendWithinCapital(p, opps, portfolioValue, capital);
    NoOvershootNoWaste(p, opps, portfolioValue, capital, i);
    var s := opps[i].symbol;
    var q := Bought(Proposal(p, opps, portfolioValue, capital), s);
    FitsTargetIff(p, s, Weight(current, s), Weight(target, s), portfolioValue, q);
    FitsTargetIff(p, s, Weight(current, s), Weight(target, s), portfolioValue, q + 1);
  }

  // Verification of what was sized -----------------------------------------------------------------------------

  /** Verifies and fills orders one after another; a fill takes quantity times limit price out of the cash. */
  function VerifiedAndFilled(c: Conditions, orders: seq<BuyOrder>, cash: real): (seq<Verdict>, real) {
    if orders == [] then ([], cash)
    else
      var v := Verify(c, orders[0].quantity, orders[0].limitPrice, cash);
      var filled := if v.Refused? then 0 else v.quantity;
      var (later, left) := VerifiedAndFilled(c, orders[1..], cash - Times(filled as real, orders[0].limitPrice));
      ([v] + later, left)
  }

  /** All of the orders are approved in full and leave at least `floor` of cash. */
  predicate FullyApproved(c: Conditions, orders: seq<BuyOrder>, cash: real, floor: real) {
    var (verdicts, left) := VerifiedAndFilled(c, orders, cash);
    && |verdicts| == |orders|
    && (forall i :: 0 <= i < |orders| ==> verdicts[i] == Approved(orders[i].quantity))
    && left >= floor
  }

  lemma FullyApprovedStep(c: Conditions, o: BuyOrder, later: seq<BuyOrder>, cash: real, floor: real, floor': real)
    requires Verify(c, o.quantity, o.limitPrice, cash) == Approved(o.quantity) && floor' <= floor
    requires FullyApproved(c, later, cash - Times(o.quantity as real, o.limitPrice), floor)
    ensures FullyApproved(c, [o] + later, cash, floor')
  {
    assert ([o] + later)[1..] == later;
  }

  lemma HeadApproved(p: Pricing, c: Conditions, o: Opportunity, portfolioValue: real, capital: real, cash: real)
    requires Tradable(p) && c.costs == p.costs && MarketAllows(c) && 0.0 <= capital <= cash
    requires UnitsFor(p, o, portfolioValue, capital) > 0
    ensures var q, limit := UnitsFor(p, o, portfolioValue, capital), LimitFor(p, o.symbol);
            && Verify(c, q, limit, cash) == Approved(q)
            && 0.0 <= capital - Outlay(p.costs, limit, q) <= cash - Times(q as real, limit)
  {
    var q, limit := UnitsFor(p, o, portfolioValue, capital), LimitFor(p, o.symbol);
    UnitsForSound(p, o, portfolioValue, capital, q);
    VerdictMeaning(c, q, limit, cash);
    OutlayAtLeastGross(p.costs, limit, q);
  }

  /** The first order is approved, and so are the later ones against the cash it leaves. */
  lemma HeadThenLater(p: Pricing, c: Conditions, o: Opportunity, portfolioValue: real, capital: real, cash: real,
                      q: int, limit: real, later: seq<BuyOrder>)
    requires Tradable(p) && c.costs == p.costs && MarketAllows(c) && 0.0 <= capital <= cash
    requires q == UnitsFor(p, o, portfolioValue, capital) > 0 && limit == LimitFor(p, o.symbol)
    requires var paid := cash - Times(q as real, limit);
             FullyApproved(c, later, paid, paid - Spend(p.costs, later))
    ensures var orders := [BuyOrder(o.symbol, q, limit)] + later;
            FullyApproved(c, orders, cash, cash - Spend(p.costs, orders))
  {
    var order, paid := BuyOrder(o.symbol, q, limit), cash - Times(q as real, limit);
    HeadApproved(p, c, o, portfolioValue, capital, cash);
    OutlayAtLeastGross(p.costs, limit, q);
    SpendHead(p.costs, order, later);
    FullyApprovedStep(c, order, later, cash, paid - Spend(p.costs, later), cash - Spend(p.costs, [order] + later));
  }

  lemma {:induction false} SizedOrdersApproved(
    p: Pricing, c: Conditions, opps: seq<Opportunity>, portfolioValue: real, capital: real, cash: real)
    requires Tradable(p) && c.costs == p.costs && MarketAllows(c) && 0.0 <= capital <= cash
    ensures var orders := Allocate(p, opps, portfolioValue, capital);
            FullyApproved(c, orders, cash, cash - Spend(p.costs, orders))
  {
    if opps != [] && capital > 0.0 {
      var o, q := opps[0], UnitsFor(p, opps[0], portfolioValue, capital);
      if q > 0 {
        HeadApproved(p, c, o, portfolioValue, capital, cash);
        var limit := LimitFor(p, o.symbol);
        var rest := capital - Outlay(p.costs, limit, q);
        SizedOrdersApproved(p, c, opps[1..], portfolioValue, rest, cash - Times(q as real, limit));
        HeadThenLater(p, c, o, portfolioValue, capital, cash, q, limit, Allocate(p, opps[1..], portfolioValue, rest));
      } else {
        SizedOrdersApproved(p, c, opps[1..], portfolioValue, capital, cash);
      }
    }
  }

  /**
   * Sizing composes with verification: against broker cash no smaller than the capital sized for, every order of
   * an allocation is approved in full, in rank order, and the cash never goes below what sizing left over.
   */
  lemma SizedOrdersVerify(
    p: Pricing, c: Conditions, opps: seq<Opportunity>, portfolioValue: real, capital: real, cash: real)
    requires Tradable(p) && c.costs == p.costs && MarketAllows(c) && 0.0 <= capital <= cash
    ensures var orders := Allocate(p, opps, portfolioValue, capital);
            && FullyApproved(c, orders, cash, cash - Spend(p.costs, orders))
            && cash - Spend(p.costs, orders) >= 0.0
  {
    SpendWithinCapital(p, opps, portfolioValue, capital);
    SizedOrdersApproved(p, c, opps, portfolioValue, capital, cash);
  }

  lemma SpendHead(costs: CostTax.Config, o: BuyOrder, later: seq<BuyOrder>)
    ensures Spend(costs, [o] + later) == Outlay(costs, o.limitPrice, o.quantity) + Spend(costs, later)
  {
    assert ([o] + later)[1..] == later;
  }
}
