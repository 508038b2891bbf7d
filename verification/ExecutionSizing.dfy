/** Sized orders processed in any interleaving: each is approved in full, and the broker's cash never runs out. */
module ExecutionSizing {
  import opened Common
  import opened Sums
  import opened Lifecycle
  import opened PaperBrokers
  import opened ExecutionStore
  import opened Orchestrator
  import opened Execution
  import opened ExecutionInvariant
  import opened ExecutionSafety
  import CostTax
  import Sizing
  import Verification
  import Allocator

  /** A call nothing cuts short: saves work, the broker accepts and its answer arrives. The fill may take any course. */
  predicate Smooth(m: Moment) {
    && m.firstSave && m.reachesBroker && m.answerArrives && m.secondSave && !Refuses(m.scenario)
    && 0.0 < m.parameters.ratio <= 1.0 && m.conditions.costs.Valid()
  }

  /** Where a record approved for q units stands: not sent, or sent once with what it spent missing from the cash. */
  predicate Stage(w: World, id: string, q: int, limit: real, cash: real) {
    && id in w.memory && id in w.rows && w.memory[id] == w.rows[id] && w.rows[id].final == Some(q)
    && (if w.memory[id].status == Verified then
          w.broker.cash == cash && w.rows[id].limitPrice == limit && w.rows[id].brokerId.None?
        else
          && w.memory[id].status in {Pending, PartiallyFilled, Filled, Cancelled} && w.memory[id].brokerId.Some?
          && var b := w.memory[id].brokerId.value;
             && b in w.broker.orders && w.broker.orders[b].quantity == q && w.broker.orders[b].limitPrice == limit
             && w.broker.cash == cash - Spent(w.broker.orders[b]))
  }

  /** Records other than this one are as they were. */
  predicate OthersAlone(w: World, v: World, id: string) {
    && v.rows.Keys == w.rows.Keys && v.memory.Keys == w.memory.Keys
    && (forall k :: k in w.rows && k != id ==> v.rows[k] == w.rows[k])
    && (forall k :: k in w.memory && k != id ==> v.memory[k] == w.memory[k])
  }

  lemma ProcessingOthers(w: World, id: string, m: Moment)
    requires id in w.memory && id in w.rows
    ensures OthersAlone(w, Processing(w, id, m), id)
  {
    var e := Process(w.rows, w.broker, id, w.memory[id], m);
    forall k | k in w.rows && k != id
      ensures e.rows[k] == w.rows[k]
    {
      ProcessLeavesOthers(w, id, m, k);
    }
  }

  lemma ApprovedStage(w: World, id: string, m: Moment)
    requires id in w.memory && id in w.rows && w.memory[id] == w.rows[id] && w.rows[id].status == Proposal && Smooth(m)
    requires w.rows[id].brokerId.None?
    requires Verification.Verify(m.conditions, w.rows[id].proposed, w.rows[id].limitPrice, w.broker.cash).Approved?
    ensures Stage(Processing(w, id, m), id, w.rows[id].proposed, w.rows[id].limitPrice, w.broker.cash)
  {
    Verification.VerdictMeaning(m.conditions, w.rows[id].proposed, w.rows[id].limitPrice, w.broker.cash);
    var e := DoVerify(w.rows, w.broker, id, w.memory[id], m);
    assert Process(w.rows, w.broker, id, w.memory[id], m) == e;
    assert e.copy == e.rows[id] && e.broker == w.broker;
  }

  lemma SentStage(w: World, id: string, m: Moment, q: int, limit: real, cash: real)
    requires Stage(w, id, q, limit, cash) && w.memory[id].status == Verified && q >= 1 && Smooth(m)
    ensures Stage(Processing(w, id, m), id, q, limit, cash)
  {
    var e := DoSubmit(w.rows, w.broker, id, w.memory[id], m);
    assert Process(w.rows, w.broker, id, w.memory[id], m) == e;
    assert e.copy.brokerId == Some(w.broker.next) && e.copy == e.rows[id];
    assert e.broker.orders[w.broker.next] == OrderFor(w.memory[id], m);
    assert Times(0.0, limit) == 0.0;
  }

  /** What one poll of a tracked order makes of it, and of the cash. */
  lemma PollProgress(broker: Broker, b: nat)
    requires b in broker.orders && Sound(broker.orders[b])
    ensures var o := Polled(broker, b).orders[b];
            && Sound(o) && o.quantity == broker.orders[b].quantity && o.limitPrice == broker.orders[b].limitPrice
            && Polled(broker, b).cash == broker.cash - (Spent(o) - Spent(broker.orders[b]))
  {
    PollKeepsSound(broker.orders[b]);
  }

  lemma PolledStage(w: World, id: string, m: Moment, q: int, limit: real, cash: real)
    requires Stage(w, id, q, limit, cash) && w.memory[id].status in {Pending, PartiallyFilled} && Smooth(m)
    requires Answerable(w, id) && Sound(w.broker.orders[w.memory[id].brokerId.value])
    ensures Stage(Processing(w, id, m), id, q, limit, cash)
  {
    var c := w.memory[id];
    var b := c.brokerId.value;
    PollProgress(w.broker, b);
    var o := Polled(w.broker, b).orders[b];
    PollEffect(w.rows, w.broker, id, c, m, b, o);
    var after := if o.state == c.status then c else Adopt(c, o, m.now);
    var e := DoPoll(w.rows, w.broker, id, c, m);
    assert Process(w.rows, w.broker, id, c, m) == e;
    assert e.copy == after && e.rows[id] == after && e.broker == Polled(w.broker, b);
  }

  lemma IdleStage(w: World, id: string, m: Moment, q: int, limit: real, cash: real)
    requires Stage(w, id, q, limit, cash) && w.memory[id].status in {Filled, Cancelled}
    ensures Stage(Processing(w, id, m), id, q, limit, cash)
  {
  }

  lemma NextStage(w: World, id: string, m: Moment, q: int, limit: real, cash: real)
    requires Inv(w) && Stage(w, id, q, limit, cash) && q >= 1 && Smooth(m)
    ensures Stage(Processing(w, id, m), id, q, limit, cash)
  {
    if w.memory[id].status == Verified {
      SentStage(w, id, m, q, limit, cash);
    } else if w.memory[id].status in {Filled, Cancelled} {
      IdleStage(w, id, m, q, limit, cash);
    } else {
      AlwaysAnswerable(w, id);
      TrackedAreSound(w);
      PolledStage(w, id, m, q, limit, cash);
    }
  }

  // ---- One record among others ----

  /** What the broker has spent on the record in hand. */
  function SpentBy(w: World, id: string): real {
    if id in w.memory && w.memory[id].brokerId.Some? && w.memory[id].brokerId.value in w.broker.orders then
      Spent(w.broker.orders[w.memory[id].brokerId.value])
    else 0.0
  }

  /** The record proposes this order and is in hand as it is saved. */
  predicate Proposes(w: World, id: string, o: Allocator.BuyOrder) {
    && id in w.rows && id in w.memory && w.memory[id] == w.rows[id] && w.rows[id].status == Proposal
    && w.rows[id].proposed == o.quantity && w.rows[id].limitPrice == o.limitPrice && w.rows[id].brokerId.None?
  }

  /** The order waits, or was approved at its full quantity and is on its way; either way nothing is lost of it. */
  predicate OnItsWay(w: World, id: string, o: Allocator.BuyOrder) {
    Proposes(w, id, o) || Stage(w, id, o.quantity, o.limitPrice, w.broker.cash + SpentBy(w, id))
  }

  lemma OthersOrder(w: World, id: string, m: Moment, b: nat)
    requires id in w.memory && b in w.broker.orders && w.memory[id].brokerId != Some(b) && b < w.broker.next
    ensures var v := Processing(w, id, m);
            b in v.broker.orders && v.broker.orders[b] == w.broker.orders[b]
  {
  }

  /** Two records never share an order. */
  lemma OwnOrders(w: World, id: string, k: string)
    requires Inv(w) && id in w.memory && k in w.memory && id != k && w.memory[k].brokerId.Some?
    requires w.memory[k].status in {Pending, PartiallyFilled, Filled, Cancelled}
    requires w.memory[id].status in {Proposal, Verified, Pending, PartiallyFilled, Filled, Cancelled}
    ensures w.memory[id].brokerId != w.memory[k].brokerId && w.memory[k].brokerId.value < w.broker.next
  {
    assert CopyInv(w, id, w.memory[id]);
    assert CopyInv(w, k, w.memory[k]);
    assert Entry(w.broker, w.memory[k].brokerId.value, w.book[w.memory[k].brokerId.value]);
  }

  /** Calls for one record leave the others where they were, and what was spent on them. */
  lemma OtherStaysOnItsWay(w: World, id: string, m: Moment, k: string, o: Allocator.BuyOrder, mine: Allocator.BuyOrder)
    requires Inv(w) && id != k && OnItsWay(w, k, o) && OnItsWay(w, id, mine)
    ensures var v := Processing(w, id, m);
            OnItsWay(v, k, o) && SpentBy(v, k) == SpentBy(w, k) && (Proposes(v, k, o) <==> Proposes(w, k, o))
  {
    ProcessingOthers(w, id, m);
    var c := w.memory[k];
    if c.brokerId.Some? {
      OwnOrders(w, id, k);
      OthersOrder(w, id, m, c.brokerId.value);
    }
  }

  lemma StageAccounts(v: World, id: string, q: int, limit: real, cash: real)
    requires Stage(v, id, q, limit, cash)
    ensures v.broker.cash + SpentBy(v, id) == cash && v.rows[id].status != Proposal
  {
  }

  lemma MineIsApproved(w: World, id: string, m: Moment, o: Allocator.BuyOrder)
    requires Proposes(w, id, o) && Smooth(m) && Verification.MarketAllows(m.conditions)
    requires o.quantity >= 1 && o.limitPrice > 0.0
    requires Sizing.Outlay(m.conditions.costs, o.limitPrice, o.quantity) <= w.broker.cash
    ensures Stage(Processing(w, id, m), id, o.quantity, o.limitPrice, w.broker.cash) && SpentBy(w, id) == 0.0
  {
    Verification.VerdictMeaning(m.conditions, o.quantity, o.limitPrice, w.broker.cash);
    ApprovedStage(w, id, m);
  }

  lemma MineMovesOn(w: World, id: string, m: Moment, o: Allocator.BuyOrder)
    requires Inv(w) && OnItsWay(w, id, o) && Smooth(m) && Verification.MarketAllows(m.conditions)
    requires o.quantity >= 1 && o.limitPrice > 0.0
    requires Proposes(w, id, o) ==> Sizing.Outlay(m.conditions.costs, o.limitPrice, o.quantity) <= w.broker.cash
    ensures id in w.memory
    ensures var v := Processing(w, id, m);
            && OnItsWay(v, id, o) && !Proposes(v, id, o)
            && v.broker.cash + SpentBy(v, id) == w.broker.cash + SpentBy(w, id)
  {
    var cash := w.broker.cash + SpentBy(w, id);
    if Proposes(w, id, o) {
      MineIsApproved(w, id, m, o);
    } else {
      NextStage(w, id, m, o.quantity, o.limitPrice, cash);
    }
    StageAccounts(Processing(w, id, m), id, o.quantity, o.limitPrice, cash);
  }

  lemma SpentAtMost(w: World, id: string, o: Allocator.BuyOrder, costs: CostTax.Config)
    requires Inv(w) && OnItsWay(w, id, o) && o.quantity >= 1 && o.limitPrice > 0.0 && costs.Valid()
    ensures SpentBy(w, id) <= Sizing.Outlay(costs, o.limitPrice, o.quantity)
    ensures Proposes(w, id, o) ==> SpentBy(w, id) == 0.0
  {
    Sizing.OutlayAtLeastGross(costs, o.limitPrice, o.quantity);
    TimesMonotone(0.0, o.quantity as real, o.limitPrice);
    if id in w.memory && w.memory[id].brokerId.Some? && w.memory[id].brokerId.value in w.broker.orders {
      var b := w.memory[id].brokerId.value;
      TrackedAreSound(w);
      assert CopyInv(w, id, w.memory[id]);
      TimesMonotone(w.broker.orders[b].executed as real, o.quantity as real, o.limitPrice);
    }
  }

  // ---- A whole allocation, interleaved ----

  /** One more `process_order` for one of the records. */
  datatype Call = Call(index: nat, m: Moment)

  function Interleaved(w: World, ids: seq<string>, calls: seq<Call>): (v: World)
    requires (forall id :: id in ids ==> id in w.memory) && forall c :: c in calls ==> c.index < |ids|
    ensures v.memory.Keys == w.memory.Keys
    decreases |calls|
  {
    if calls == [] then w
    else
      var before := Interleaved(w, ids, calls[..|calls| - 1]);
      Processing(before, ids[calls[|calls| - 1].index], calls[|calls| - 1].m)
  }

  predicate Allowable(p: Allocator.Pricing, ids: seq<string>, c: Call) {
    c.index < |ids| && Smooth(c.m) && c.m.conditions.costs == p.costs && Verification.MarketAllows(c.m.conditions)
  }

  function SumSpent(w: World, ids: seq<string>): real {
    if ids == [] then 0.0 else SpentBy(w, ids[0]) + SumSpent(w, ids[1..])
  }

  ghost predicate AllOnTheirWay(w: World, ids: seq<string>, orders: seq<Allocator.BuyOrder>)
    requires |ids| == |orders|
  {
    forall i :: 0 <= i < |ids| ==> OnItsWay(w, ids[i], orders[i])
  }

  /** The sum follows the one record that spends. */
  lemma {:induction false} SumFollows(w: World, v: World, ids: seq<string>, k: nat)
    requires k < |ids| && forall i :: 0 <= i < |ids| && i != k ==> SpentBy(v, ids[i]) == SpentBy(w, ids[i])
    ensures SumSpent(v, ids) - SumSpent(w, ids) == SpentBy(v, ids[k]) - SpentBy(w, ids[k])
  {
    if k > 0 {
      SumFollows(w, v, ids[1..], k - 1);
    } else {
      SumSame(w, v, ids[1..]);
    }
  }

  lemma {:induction false} SumSame(w: World, v: World, ids: seq<string>)
    requires forall i :: 0 <= i < |ids| ==> SpentBy(v, ids[i]) == SpentBy(w, ids[i])
    ensures SumSpent(v, ids) == SumSpent(w, ids)
  {
    if ids != [] {
      SumSame(w, v, ids[1..]);
    }
  }

  /** Whatever has been spent, the outlay of an order still waiting has been left for it. */
  lemma {:induction false} SumWithin(costs: CostTax.Config, w: World, ids: seq<string>, orders: seq<Allocator.BuyOrder>)
    requires |ids| == |orders| && Inv(w) && costs.Valid() && AllOnTheirWay(w, ids, orders) && Real(orders)
    ensures SumSpent(w, ids) <= Allocator.Spend(costs, orders)
    ensures forall k :: 0 <= k < |ids| && Proposes(w, ids[k], orders[k]) ==>
              SumSpent(w, ids) + Sizing.Outlay(costs, orders[k].limitPrice, orders[k].quantity)
              <= Allocator.Spend(costs, orders)
  {
    if ids != [] {
      SpentAtMost(w, ids[0], orders[0], costs);
      LaterOnTheirWay(w, ids, orders);
      SumWithin(costs, w, ids[1..], orders[1..]);
      forall k | 0 <= k < |ids| && Proposes(w, ids[k], orders[k])
        ensures SumSpent(w, ids) + Sizing.Outlay(costs, orders[k].limitPrice, orders[k].quantity)
             <= Allocator.Spend(costs, orders)
      {
        if k > 0 {
          assert Proposes(w, ids[1..][k - 1], orders[1..][k - 1]);
        }
      }
    }
  }

  predicate Real(orders: seq<Allocator.BuyOrder>) {
    forall i :: 0 <= i < |orders| ==> orders[i].quantity >= 1 && orders[i].limitPrice > 0.0
  }

  lemma LaterOnTheirWay(w: World, ids: seq<string>, orders: seq<Allocator.BuyOrder>)
    requires ids != [] && |ids| == |orders| && AllOnTheirWay(w, ids, orders) && Real(orders)
    ensures AllOnTheirWay(w, ids[1..], orders[1..]) && Real(orders[1..])
  {
    forall i | 0 <= i < |ids[1..]|
      ensures OnItsWay(w, ids[1..][i], orders[1..][i])
    {
      assert OnItsWay(w, ids[i + 1], orders[i + 1]);
    }
  }

  /** The books of an allocation under way: what is gone from the cash is what its records spent. */
  ghost predicate Books(w: World, ids: seq<string>, orders: seq<Allocator.BuyOrder>, cash: real)
    requires |ids| == |orders|
  {
    Inv(w) && AllOnTheirWay(w, ids, orders) && w.broker.cash + SumSpent(w, ids) == cash
  }

  lemma CallKeepsBooks(
    p: Allocator.Pricing, w: World, ids: seq<string>, orders: seq<Allocator.BuyOrder>, cash: real, c: Call)
    requires |ids| == |orders| && Distinct(ids) && Books(w, ids, orders, cash) && Allowable(p, ids, c)
    requires Real(orders) && p.costs.Valid() && Allocator.Spend(p.costs, orders) <= cash
    ensures ids[c.index] in w.memory
    ensures Books(Processing(w, ids[c.index], c.m), ids, orders, cash)
    ensures forall i :: 0 <= i < |ids| ==>
              (Proposes(Processing(w, ids[c.index], c.m), ids[i], orders[i])
               <==> i != c.index && Proposes(w, ids[i], orders[i]))
  {
    var k := c.index;
    assert OnItsWay(w, ids[k], orders[k]);
    SumWithin(p.costs, w, ids, orders);
    ProcessingKeeps(w, ids[k], c.m);
    MineMovesOn(w, ids[k], c.m, orders[k]);
    var v := Processing(w, ids[k], c.m);
    forall i | 0 <= i < |ids| && i != k
      ensures OnItsWay(v, ids[i], orders[i]) && SpentBy(v, ids[i]) == SpentBy(w, ids[i])
      ensures Proposes(v, ids[i], orders[i]) <==> Proposes(w, ids[i], orders[i])
    {
      assert OnItsWay(w, ids[i], orders[i]);
      OtherStaysOnItsWay(w, ids[k], c.m, ids[i], orders[i], orders[k]);
    }
    SumFollows(w, v, ids, k);
  }

  predicate Called(calls: seq<Call>, i: nat) {
    exists c :: c in calls && c.index == i
  }

  lemma {:induction false} CallsKeepBooks(
    p: Allocator.Pricing, w: World, ids: seq<string>, orders: seq<Allocator.BuyOrder>, cash: real, calls: seq<Call>)
    requires |ids| == |orders| && Distinct(ids) && Books(w, ids, orders, cash)
    requires forall id :: id in ids ==> id in w.memory
    requires forall c :: c in calls ==> c.index < |ids| && Allowable(p, ids, c)
    requires Real(orders) && p.costs.Valid() && Allocator.Spend(p.costs, orders) <= cash
    ensures Books(Interleaved(w, ids, calls), ids, orders, cash)
    ensures forall i :: 0 <= i < |ids| && Called(calls, i) ==> !Proposes(Interleaved(w, ids, calls), ids[i], orders[i])
    decreases |calls|
  {
    if calls != [] {
      var fewer, c := calls[..|calls| - 1], calls[|calls| - 1];
      assert calls == fewer + [c];
      CallsKeepBooks(p, w, ids, orders, cash, fewer);
      CallKeepsBooks(p, Interleaved(w, ids, fewer), ids, orders, cash, c);
      CalledOnceMore(Interleaved(w, ids, fewer), Interleaved(w, ids, calls), ids, orders, fewer, c);
    }
  }

  lemma CalledOnceMore(u: World, v: World, ids: seq<string>, orders: seq<Allocator.BuyOrder>, fewer: seq<Call>, c: Call)
    requires |ids| == |orders|
    requires forall i :: 0 <= i < |ids| && Called(fewer, i) ==> !Proposes(u, ids[i], orders[i])
    requires forall i :: 0 <= i < |ids| ==>
               (Proposes(v, ids[i], orders[i]) <==> i != c.index && Proposes(u, ids[i], orders[i]))
    ensures forall i :: 0 <= i < |ids| && Called(fewer + [c], i) ==> !Proposes(v, ids[i], orders[i])
  {
    forall i | 0 <= i < |ids| && i != c.index && Called(fewer + [c], i)
      ensures Called(fewer, i)
    {
      var x :| x in fewer + [c] && x.index == i;
      assert x in fewer;
    }
  }

  lemma StartsOnItsWay(w: World, ids: seq<string>, orders: seq<Allocator.BuyOrder>)
    requires |ids| == |orders| && forall i :: 0 <= i < |ids| ==> Proposes(w, ids[i], orders[i])
    ensures AllOnTheirWay(w, ids, orders) && SumSpent(w, ids) == 0.0 && forall id :: id in ids ==> id in w.memory
  {
    NothingSpent(w, ids);
    forall id | id in ids
      ensures id in w.memory
    {
      var i :| 0 <= i < |ids| && ids[i] == id;
      assert Proposes(w, ids[i], orders[i]);
    }
  }

  lemma {:induction false} NothingSpent(w: World, ids: seq<string>)
    requires forall i :: 0 <= i < |ids| ==> SpentBy(w, ids[i]) == 0.0
    ensures SumSpent(w, ids) == 0.0
  {
    if ids != [] {
      NothingSpent(w, ids[1..]);
    }
  }

  lemma {:induction false} AllocatedOrdersAreReal(
    p: Allocator.Pricing, opps: seq<Allocator.Opportunity>, value: real, cash: real)
    requires Allocator.Tradable(p)
    ensures forall o :: o in Allocator.Allocate(p, opps, value, cash) ==> o.quantity >= 1 && o.limitPrice > 0.0
  {
    if opps != [] && cash > 0.0 {
      var o, q := opps[0], Allocator.UnitsFor(p, opps[0], value, cash);
      if q > 0 {
        Allocator.UnitsForSound(p, o, value, cash, q);
        AllocatedOrdersAreReal(p, opps[1..], value, cash - Sizing.Outlay(p.costs, Allocator.LimitFor(p, o.symbol), q));
      } else {
        AllocatedOrdersAreReal(p, opps[1..], value, cash);
      }
    }
  }

  /** Every order called at all is approved in full, and none has failed. */
  ghost predicate ApprovedInFull(v: World, ids: seq<string>, orders: seq<Allocator.BuyOrder>, calls: seq<Call>)
    requires |ids| == |orders|
  {
    forall i :: 0 <= i < |ids| ==>
      && ids[i] in v.rows && v.rows[ids[i]].status != Failed
      && (Called(calls, i) ==> v.rows[ids[i]].final == Some(orders[i].quantity))
  }

  lemma OnTheirWayIsApproved(v: World, ids: seq<string>, orders: seq<Allocator.BuyOrder>, calls: seq<Call>)
    requires |ids| == |orders| && AllOnTheirWay(v, ids, orders)
    requires forall i :: 0 <= i < |ids| && Called(calls, i) ==> !Proposes(v, ids[i], orders[i])
    ensures ApprovedInFull(v, ids, orders, calls)
  {
    forall i | 0 <= i < |ids|
      ensures ids[i] in v.rows && v.rows[ids[i]].status != Failed
      ensures Called(calls, i) ==> v.rows[ids[i]].final == Some(orders[i].quantity)
    {
      assert OnItsWay(v, ids[i], orders[i]);
    }
  }

  lemma RealOrdersExecute(
    p: Allocator.Pricing, w: World, ids: seq<string>, orders: seq<Allocator.BuyOrder>, calls: seq<Call>)
    requires |ids| == |orders| && Distinct(ids) && Inv(w) && Real(orders) && p.costs.Valid()
    requires forall i :: 0 <= i < |ids| ==> Proposes(w, ids[i], orders[i])
    requires forall c :: c in calls ==> c.index < |ids| && Allowable(p, ids, c)
    requires Allocator.Spend(p.costs, orders) <= w.broker.cash
    ensures forall id :: id in ids ==> id in w.memory
    ensures var v := Interleaved(w, ids, calls);
            ApprovedInFull(v, ids, orders, calls) && v.broker.cash >= w.broker.cash - Allocator.Spend(p.costs, orders)
  {
    StartsOnItsWay(w, ids, orders);
    CallsKeepBooks(p, w, ids, orders, w.broker.cash, calls);
    var v := Interleaved(w, ids, calls);
    SumWithin(p.costs, v, ids, orders);
    OnTheirWayIsApproved(v, ids, orders, calls);
  }

  /**
   * An allocation sized for no more than the broker's cash, its records processed in any interleaving, each as often as
   * one likes and with any course of fills: every order called at all is approved at its full quantity, none fails, and
   * at every point the broker's cash is at least what sizing left, so never below zero.
   */
  lemma SizedOrdersExecute(p: Allocator.Pricing, opps: seq<Allocator.Opportunity>, value: real, capital: real,
                           orders: seq<Allocator.BuyOrder>, w: World, ids: seq<string>, calls: seq<Call>)
    requires Allocator.Tradable(p) && 0.0 <= capital <= w.broker.cash && Reachable(w) && Distinct(ids)
    requires orders == Allocator.Allocate(p, opps, value, capital) && |ids| == |orders|
    requires forall i :: 0 <= i < |ids| ==> Proposes(w, ids[i], orders[i])
    requires forall c :: c in calls ==> c.index < |ids| && Allowable(p, ids, c)
    ensures forall id :: id in ids ==> id in w.memory
    ensures var v := Interleaved(w, ids, calls);
            && ApprovedInFull(v, ids, orders, calls)
            && v.broker.cash >= w.broker.cash - Allocator.Spend(p.costs, orders) >= 0.0
  {
    ReachableInv(w);
    AllocatedOrdersAreReal(p, opps, value, capital);
    assert forall i :: 0 <= i < |orders| ==> orders[i] in orders;
    Allocator.SpendWithinCapital(p, opps, value, capital);
    RealOrdersExecute(p, w, ids, orders, calls);
  }
}
