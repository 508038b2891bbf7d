/** Orders, and what one execution bar does to them. */
module FillSimulator {
  import opened Common
  import opened CostTax
  import opened MarketData
  import Sums

  datatype OrderType = AtMarket | Limit(price: real)

  datatype Intent = Intent(symbol: Symbol, side: Side, orderType: OrderType, quantity: int)

  /** Construction refuses an order for no units. */
  type OrderIntent = i: Intent | i.quantity > 0 witness Intent("", Buy, AtMarket, 1)

  /** A queued order. The tag numbers the emitted intent this order, or the rest of it, stands for. */
  datatype Pending = Pending(tag: nat, intent: OrderIntent, decided: int, target: int, expiry: int)

  datatype Fill = Fill(symbol: Symbol, side: Side, quantity: int, price: real, date: int, decided: int,
                       cost: CostBreakdown)

  function LimitFillPrice(side: Side, limit: real, bar: Bar): Option<real> {
    match side
    case Buy =>
      if bar.low > limit then None
      else Some(if bar.open < limit then bar.open else limit)
    case Sell =>
      if bar.high < limit then None
      else Some(if bar.open > limit then bar.open else limit)
  }

  function FillPrice(intent: Intent, bar: Bar): Option<real> {
    match intent.orderType
    case AtMarket => Some(bar.open)
    case Limit(price) => LimitFillPrice(intent.side, price, bar)
  }

  /** Whole units the bar's volume lets one order take. */
  function FillQuantity(participation: Option<real>, quantity: int, bar: Bar): int {
    match participation
    case None => quantity
    case Some(share) =>
      var cap := bar.volume as real * share;
      if quantity as real > cap then (if cap.Floor > 0 then cap.Floor else 0) else quantity
  }

  function TryFill(costs: CostTax.Config, participation: Option<real>, pending: Pending, bar: Bar): Option<Fill> {
    var price := FillPrice(pending.intent, bar);
    var quantity := FillQuantity(participation, pending.intent.quantity, bar);
    if price.None? || quantity <= 0 then None
    else
      Some(Fill(pending.intent.symbol, pending.intent.side, quantity, price.value, bar.date, pending.decided,
                TransactionCost(costs, pending.intent.side, price.value, quantity as real)))
  }

  /** The bar's range reaches the limit on the order's side. */
  predicate Touched(intent: Intent, bar: Bar) {
    match intent.orderType
    case AtMarket => true
    case Limit(price) => if intent.side == Buy then bar.low <= price else price <= bar.high
  }

  /** A fill takes at most what was asked, never worse than the limit, inside the bar, within the volume share. */
  lemma FillSound(costs: CostTax.Config, participation: Option<real>, pending: Pending, bar: Bar)
    requires TryFill(costs, participation, pending, bar).Some?
    ensures var f := TryFill(costs, participation, pending, bar).value;
            && 0 < f.quantity <= pending.intent.quantity
            && (participation.Some? ==> f.quantity as real <= bar.volume as real * participation.value)
            && (pending.intent.orderType.Limit? ==>
                  if f.side == Buy then f.price <= pending.intent.orderType.price
                  else f.price >= pending.intent.orderType.price)
            && (bar.low <= bar.open <= bar.high ==> bar.low <= f.price <= bar.high)
            && f.cost.grossAmount == Sums.Times(f.quantity as real, f.price)
            && f.symbol == pending.intent.symbol && f.side == pending.intent.side
            && f.date == bar.date && f.decided == pending.decided
  {
  }

  /** n units are within the share of the bar's volume. */
  predicate InShare(participation: Option<real>, bar: Bar, n: int) {
    participation.Some? ==> n as real <= bar.volume as real * participation.value
  }

  /**
   * A fill is priced at the open, or at the limit where the open is no better, and takes the most whole units of the
   * order that the share of the bar's volume holds.
   */
  lemma FillExact(costs: CostTax.Config, participation: Option<real>, pending: Pending, bar: Bar)
    requires TryFill(costs, participation, pending, bar).Some?
    ensures var f, asked := TryFill(costs, participation, pending, bar).value, pending.intent.quantity;
            && (match pending.intent.orderType
                case AtMarket => f.price == bar.open
                case Limit(price) =>
                  && (f.price == price || f.price == bar.open)
                  && (if f.side == Buy then f.price <= price && f.price <= bar.open
                      else f.price >= price && f.price >= bar.open))
            && InShare(participation, bar, f.quantity) && 0 < f.quantity <= asked
            && (f.quantity < asked ==> !InShare(participation, bar, f.quantity + 1))
            && f.cost == TransactionCost(costs, f.side, f.price, f.quantity as real)
  {
  }

  /** An order goes unfilled exactly when its limit is out of reach or not one whole unit fits the volume share. */
  lemma UnfilledIff(costs: CostTax.Config, participation: Option<real>, pending: Pending, bar: Bar)
    ensures TryFill(costs, participation, pending, bar).None?
       <==> !Touched(pending.intent, bar)
            || (participation.Some? && bar.volume as real * participation.value < 1.0)
  {
    if participation.Some? {
      var cap := bar.volume as real * participation.value;
      assert cap < 1.0 <==> cap.Floor < 1;
    }
  }
}
