/** The simulated broker: orders that advance when polled, and the cash they use. */
module PaperBrokers {
  import opened Common
  import opened Sums
  import opened Lifecycle

  datatype Scenario =
    ImmediateFill | PartialFill | DelayedFill | OrderRejected | OrderCancelled | OrderExpired
    | NetworkTimeout | ApiError | ConnectionLost | QuoteUnavailable

  datatype Parameters = Parameters(ratio: real, delay: int)

  const DEFAULT_PARAMETERS := Parameters(0.5, 3)

  datatype Order = Order(
    symbol: Symbol, quantity: int, limitPrice: real, reference: string, scenario: Scenario, parameters: Parameters,
    state: Status, submitted: int, polls: nat, executed: int, price: Option<real>)

  /** Orders are numbered in the order they were accepted. */
  datatype Broker = Broker(cash: real, next: nat, orders: map<nat, Order>)

  /** Scenarios in which a submission raises instead of opening an order. */
  predicate Refuses(s: Scenario) {
    s in {OrderRejected, NetworkTimeout, ApiError, ConnectionLost, QuoteUnavailable}
  }

  function NewOrder(symbol: Symbol, quantity: int, limitPrice: real, reference: string,
                    scenario: Scenario, parameters: Parameters, now: int): Order {
    Order(symbol, quantity, limitPrice, reference, scenario, parameters, Pending, now, 0, 0, None)
  }

  function Submit(b: Broker, o: Order): Broker {
    if Refuses(o.scenario) then b else Broker(b.cash, b.next + 1, b.orders[b.next := o])
  }

  /** One order after a poll, the cash the poll spent, and whether it raised. */
  datatype Answer = Answer(order: Order, spent: real, raised: bool)

  function Move(o: Order, target: Status, spent: real): Answer {
    if Allowed(o.state, target) then Answer(o.(state := target), spent, false) else Answer(o, spent, true)
  }

  function Execute(o: Order, quantity: int, target: Status): Answer {
    Move(o.(executed := o.executed + quantity, price := Some(o.limitPrice)), target,
         Times(quantity as real, o.limitPrice))
  }

  function FirstPart(o: Order): int {
    var part := Times(o.quantity as real, o.parameters.ratio);
    var whole := if part < 0.0 then -((-part).Floor) else part.Floor;
    if whole > 1 then whole else 1
  }

  function PollOrder(before: Order): Answer {
    var o := before.(polls := before.polls + 1);
    if Terminal(o.state) then Answer(o, 0.0, false)
    else
      match o.scenario
      case ImmediateFill => Execute(o, o.quantity, Filled)
      case PartialFill =>
        if o.state == Pending then Execute(o, FirstPart(o), PartiallyFilled)
        else Execute(o, o.quantity - o.executed, Filled)
      case DelayedFill =>
        if o.polls > o.parameters.delay then Execute(o, o.quantity, Filled) else Answer(o, 0.0, false)
      case OrderCancelled | OrderExpired => Move(o, Cancelled, 0.0)
      case _ => Answer(o, 0.0, true)
  }

  function Polled(b: Broker, id: nat): Broker {
    if id !in b.orders then b
    else
      var a := PollOrder(b.orders[id]);
      b.(cash := b.cash - a.spent, orders := b.orders[id := a.order])
  }

  predicate PollRaises(b: Broker, id: nat) {
    id !in b.orders || PollOrder(b.orders[id]).raised
  }

  function CancelOrder(o: Order): Order {
    if Terminal(o.state) then o else Move(o, Cancelled, 0.0).order
  }

  function Cancel(b: Broker, id: nat): Broker {
    if id in b.orders then b.(orders := b.orders[id := CancelOrder(b.orders[id])]) else b
  }

  function OpenOrders(orders: map<nat, Order>): map<nat, Order> {
    map id | id in orders && !Terminal(orders[id].state) :: orders[id]
  }

  /** Without a retention window every terminal order goes. */
  predicate Purgeable(o: Order, olderThan: Option<int>, now: int) {
    Terminal(o.state) && (olderThan.Some? ==> now - o.submitted >= olderThan.value)
  }

  function Purge(b: Broker, olderThan: Option<int>, now: int): Broker {
    b.(orders := map id | id in b.orders && !Purgeable(b.orders[id], olderThan, now) :: b.orders[id])
  }

  predicate Numbered(b: Broker) {
    forall id :: id in b.orders ==> id < b.next
  }

  // ---- What every tracked order satisfies ----

  predicate Sound(o: Order) {
    && o.quantity >= 1 && 0.0 < o.parameters.ratio <= 1.0 && !Refuses(o.scenario)
    && 0 <= o.executed <= o.quantity
    && o.price == (if o.executed > 0 then Some(o.limitPrice) else None)
    && match o.state
       case Pending => o.executed == 0
       case PartiallyFilled => o.scenario == PartialFill && o.executed >= 1
       case Filled => o.executed == o.quantity
       case Cancelled => true
       case _ => false
  }

  predicate SameTerms(a: Order, b: Order) {
    && a.symbol == b.symbol && a.quantity == b.quantity && a.limitPrice == b.limitPrice
    && a.reference == b.reference && a.submitted == b.submitted
    && a.scenario == b.scenario && a.parameters == b.parameters
  }

  predicate SameProgress(a: Order, b: Order) {
    a.state == b.state && a.executed == b.executed && a.price == b.price
  }

  /** `b` is a later form of `a`: nothing is taken back, and a partial or final execution stays as it was. */
  predicate Advances(a: Order, b: Order) {
    && SameTerms(a, b) && a.executed <= b.executed
    && (a.state == b.state ==> SameProgress(a, b))
    && (a.state != b.state ==> a.state == Pending || (a.state == PartiallyFilled && Terminal(b.state)))
  }

  function Spent(o: Order): real {
    Times(o.executed as real, o.limitPrice)
  }

  /** n is quantity times ratio in whole units, and at least one. */
  predicate IsFirstPart(o: Order, n: int) {
    var part := Times(o.quantity as real, o.parameters.ratio);
    n >= 1 && part < n as real + 1.0 && (n as real <= part || n == 1)
  }

  lemma PartOf(whole: real, ratio: real)
    requires whole >= 0.0 && 0.0 < ratio <= 1.0
    ensures 0.0 <= Times(whole, ratio) <= whole
  {
    assert Times(whole, ratio) == whole * ratio;
    assert whole * (1.0 - ratio) >= 0.0;
  }

  lemma FirstPartFits(o: Order)
    requires o.quantity >= 1 && 0.0 < o.parameters.ratio <= 1.0
    ensures IsFirstPart(o, FirstPart(o)) && FirstPart(o) <= o.quantity
  {
    PartOf(o.quantity as real, o.parameters.ratio);
  }

  /**
   * Polling a tracked order never raises, never loses an execution, fills at most the quantity, and takes from
   * cash exactly what it newly executed.
   */
  lemma PollKeepsSound(o: Order)
    requires Sound(o)
    ensures var a := PollOrder(o);
            !a.raised && Sound(a.order) && Advances(o, a.order) && a.spent == Spent(a.order) - Spent(o)
  {
    FirstPartFits(o);
    FirstPartFits(o.(polls := o.polls + 1));
    if o.state == PartiallyFilled {
      Distribute(o.executed as real, (o.quantity - o.executed) as real, o.limitPrice);
      assert o.executed as real + (o.quantity - o.executed) as real == o.quantity as real;
    }
  }

  lemma CancelKeepsSound(o: Order)
    requires Sound(o)
    ensures var c := CancelOrder(o);
            Sound(c) && Terminal(c.state) && Advances(o, c) && Spent(c) == Spent(o)
  {
  }

  function PollTimes(o: Order, n: nat): Order {
    if n == 0 then o else PollOrder(PollTimes(o, n - 1)).order
  }

  function PollsNeeded(o: Order): nat {
    match o.scenario
    case PartialFill => 2
    case DelayedFill => if o.parameters.delay < 0 then 1 else o.parameters.delay + 1
    case _ => 1
  }

  predicate Fresh(o: Order) {
    Sound(o) && o.state == Pending && o.polls == 0
  }

  /** A fresh order becomes terminal at exactly its number of polls and stays so, in full unless it was cancelled. */
  lemma {:induction false} PollingTerminates(o: Order, n: nat)
    requires Fresh(o)
    ensures var p := PollTimes(o, n);
            && Sound(p) && SameTerms(o, p) && p.polls == n
            && (Terminal(p.state) <==> n >= PollsNeeded(o))
            && (Terminal(p.state) ==>
                  if o.scenario in {OrderCancelled, OrderExpired} then p.state == Cancelled && p.executed == 0
                  else p.state == Filled && p.executed == o.quantity)
            && (!Terminal(p.state) && n > 0 && o.scenario == PartialFill ==>
                  p.state == PartiallyFilled && IsFirstPart(o, p.executed))
            && (!Terminal(p.state) && o.scenario == DelayedFill ==> p.state == Pending)
    ensures PollsNeeded(o) <= if o.parameters.delay + 1 > 2 then o.parameters.delay + 1 else 2
  {
    if n > 0 {
      PollingTerminates(o, n - 1);
      PollKeepsSound(PollTimes(o, n - 1));
      FirstPartFits(PollTimes(o, n - 1).(polls := n));
    }
  }

  class PaperBroker {
    var cash: real
    var next: nat
    var orders: map<nat, Order>

    function View(): Broker
      reads this
    {
      Broker(cash, next, orders)
    }

    constructor (startingCash: real)
      ensures View() == Broker(startingCash, 0, map[])
    {
      cash := startingCash;
      next := 0;
      orders := map[];
    }

    /** Nothing is returned when the scenario raises. */
    method SubmitOrder(symbol: Symbol, quantity: int, limitPrice: real, reference: string,
                       scenario: Scenario, parameters: Parameters, now: int) returns (id: Option<nat>)
      modifies this
      ensures View()
           == Submit(old(View()), NewOrder(symbol, quantity, limitPrice, reference, scenario, parameters, now))
      ensures id == if Refuses(scenario) then None else Some(old(next))
    {
      if scenario in {OrderRejected, NetworkTimeout, ApiError, ConnectionLost, QuoteUnavailable} {
        return None;
      }
      orders := orders[next := NewOrder(symbol, quantity, limitPrice, reference, scenario, parameters, now)];
      id := Some(next);
      next := next + 1;
    }

    method Apply(id: nat, quantity: int, target: Status) returns (ok: bool)
      requires id in orders
      modifies this
      ensures var a := Execute(old(orders)[id], quantity, target);
              && ok == !a.raised && next == old(next)
              && orders == old(orders)[id := a.order] && cash == old(cash) - a.spent
    {
      var o := orders[id];
      cash := cash - Times(quantity as real, o.limitPrice);
      orders := orders[id := o.(executed := o.executed + quantity, price := Some(o.limitPrice))];
      ok := TransitionTo(id, target);
    }

    method TransitionTo(id: nat, target: Status) returns (ok: bool)
      requires id in orders
      modifies this`orders
      ensures ok == Allowed(old(orders)[id].state, target)
      ensures orders == if ok then old(orders)[id := old(orders)[id].(state := target)] else old(orders)
    {
      ok := Allowed(orders[id].state, target);
      if ok {
        orders := orders[id := orders[id].(state := target)];
      }
    }

    /** Asking for a status is what moves a simulated order on. */
    method GetOrderStatus(id: nat) returns (answer: Option<Order>)
      modifies this
      ensures View() == Polled(old(View()), id)
      ensures answer == if PollRaises(old(View()), id) then None else Some(orders[id])
    {
      if id !in orders {
        return None;
      }
      ghost var before := orders[id];
      orders := orders[id := orders[id].(polls := orders[id].polls + 1)];
      var o := orders[id];
      if Terminal(o.state) {
        return Some(o);
      }
      var ok := true;
      match o.scenario {
        case ImmediateFill =>
          ok := Apply(id, o.quantity, Filled);
        case PartialFill =>
          if o.state == Pending {
            var part := FirstPart(o);
            ok := Apply(id, part, PartiallyFilled);
          } else {
            ok := Apply(id, o.quantity - o.executed, Filled);
          }
        case DelayedFill =>
          if o.polls > o.parameters.delay {
            ok := Apply(id, o.quantity, Filled);
          }
        case OrderCancelled =>
          ok := TransitionTo(id, Cancelled);
        case OrderExpired =>
          ok := TransitionTo(id, Cancelled);
        case _ =>
          ok := false;
      }
      assert orders == old(orders)[id := PollOrder(before).order];
      answer := if ok then Some(orders[id]) else None;
    }

    method GetOpenOrders() returns (open: map<nat, Order>)
      ensures open == OpenOrders(orders)
    {
      open := map id | id in orders && !Terminal(orders[id].state) :: orders[id];
    }

    method RequestCancel(id: nat) returns (known: bool)
      modifies this`orders
      ensures known == (id in old(orders))
      ensures View() == Cancel(old(View()), id)
    {
      known := id in orders;
      if known && !Terminal(orders[id].state) {
        var _ := TransitionTo(id, Cancelled);
      }
      assert orders == Cancel(old(View()), id).orders;
    }

    /** The terminal orders past the retention window, in submission order. */
    method ListPurgeable(olderThan: Option<int>, now: int) returns (ids: seq<nat>)
      requires Numbered(View())
      ensures forall k :: k in ids <==> k in orders && Purgeable(orders[k], olderThan, now)
      ensures forall i, j :: 0 <= i < j < |ids| ==> ids[i] < ids[j]
    {
      ids := [];
      for id := 0 to next
        invariant forall k :: k in ids <==> k < id && k in orders && Purgeable(orders[k], olderThan, now)
        invariant forall i :: 0 <= i < |ids| ==> ids[i] < id
        invariant forall i, j :: 0 <= i < j < |ids| ==> ids[i] < ids[j]
      {
        if id in orders && Purgeable(orders[id], olderThan, now) {
          ids := ids + [id];
        }
      }
    }

    method PurgeTerminalOrders(olderThan: Option<int>, now: int) returns (count: nat)
      requires Numbered(View())
      modifies this`orders
      ensures View() == Purge(old(View()), olderThan, now)
      ensures count == |old(orders)| - |orders|
    {
      var toRemove := ListPurgeable(olderThan, now);
      for i := 0 to |toRemove|
        invariant orders == Without(old(orders), toRemove[..i])
        invariant |orders| == |old(orders)| - i
      {
        WithoutOneMore(old(orders), toRemove, i);
        orders := orders - {toRemove[i]};
      }
      assert toRemove[..|toRemove|] == toRemove;
      assert orders == Purge(old(View()), olderThan, now).orders;
      count := |toRemove|;
    }
  }

  function Without(orders: map<nat, Order>, ids: seq<nat>): map<nat, Order> {
    map id | id in orders && id !in ids :: orders[id]
  }

  lemma WithoutOneMore(orders: map<nat, Order>, ids: seq<nat>, i: nat)
    requires i < |ids| && ids[i] in orders && ids[i] !in ids[..i]
    ensures Without(orders, ids[..i + 1]) == Without(orders, ids[..i]) - {ids[i]}
    ensures |Without(orders, ids[..i + 1])| == |Without(orders, ids[..i])| - 1
  {
    assert ids[..i + 1] == ids[..i] + [ids[i]];
    var was := Without(orders, ids[..i]);
    var now := Without(orders, ids[..i + 1]);
    assert was.Keys == now.Keys + {ids[i]};
    assert |was| == |was.Keys| && |now| == |now.Keys|;
  }
}
