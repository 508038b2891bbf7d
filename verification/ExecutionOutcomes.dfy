/** What a call or a pass makes of each record, told from the market, the cash and the broker's own orders. */
module ExecutionOutcomes {
  import opened Common
  import opened Lifecycle
  import opened PaperBrokers
  import opened ExecutionStore
  import opened Orchestrator
  import opened Reconciliation
  import opened Execution
  import opened ExecutionInvariant
  import opened ExecutionSafety
  import CostTax
  import Sizing
  import Verification

  // ---- Verification ----

  /** The market allows the order and the cash buys at least one unit of it. */
  predicate BuysOne(c: Row, cash: real, k: Verification.Conditions) {
    && Verification.MarketAllows(k) && c.proposed >= 1 && c.limitPrice > 0.0
    && Sizing.Outlay(k.costs, c.limitPrice, 1) <= cash
  }

  /** The whole proposal if the cash buys it, else the most the cash buys. */
  predicate MostOf(c: Row, cash: real, costs: CostTax.Config, q: int) {
    && 1 <= q <= c.proposed
    && Sizing.Outlay(costs, c.limitPrice, q) <= cash
    && (q < c.proposed ==> Sizing.Outlay(costs, c.limitPrice, q + 1) > cash)
  }

  lemma VerdictMost(c: Row, cash: real, k: Verification.Conditions)
    requires k.costs.Valid()
    ensures var v := Verification.Verify(k, c.proposed, c.limitPrice, cash);
            && (v.Refused? <==> !BuysOne(c, cash, k))
            && (!v.Refused? ==> MostOf(c, cash, k.costs, v.quantity))
  {
    Verification.VerdictMeaning(k, c.proposed, c.limitPrice, cash);
    if c.proposed >= 1 && c.limitPrice > 0.0 {
      var most := Sizing.MaxAffordable(k.costs, c.limitPrice, cash);
      Sizing.MaxAffordableIsMaximum(k.costs, c.limitPrice, cash, 1);
      Sizing.MaxAffordableIsMaximum(k.costs, c.limitPrice, cash, c.proposed);
      if most >= 1 {
        Sizing.MaxAffordableIsMaximum(k.costs, c.limitPrice, cash, most);
        Sizing.MaxAffordableIsMaximum(k.costs, c.limitPrice, cash, most + 1);
      }
    }
  }

  lemma SavedRow(w: World, id: string, c: Row, works: bool)
    requires Inv(w) && id in w.memory && SameIdentity(c, w.memory[id])
    ensures id in w.rows && SaveIf(works, w.rows, id, c) == if works then w.rows[id := c] else w.rows
  {
    assert CopyInv(w, id, w.memory[id]);
  }

  /**
   * A proposal in hand becomes VERIFIED exactly when the market allows it and one unit is affordable, and keeps the
   * largest quantity up to the proposal that the cash buys with its costs; otherwise it becomes FAILED. The broker is
   * not touched, and the table follows the record unless the save fails.
   */
  lemma VerificationOutcome(w: World, id: string, m: Moment)
    requires Reachable(w) && Possible(w, ProcessOrder(id, m)) && m.conditions.costs.Valid()
    requires w.memory[id].status == Proposal
    ensures var v, c := Next(w, ProcessOrder(id, m)), w.memory[id];
            && id in v.memory
            && (if BuysOne(c, w.broker.cash, m.conditions) then
                  && v.memory[id].final.Some?
                  && MostOf(c, w.broker.cash, m.conditions.costs, v.memory[id].final.value)
                  && v.memory[id] == c.(status := Verified, final := v.memory[id].final)
                else v.memory[id] == c.(status := Failed))
            && v.broker == w.broker
            && v.rows == if m.firstSave then w.rows[id := v.memory[id]] else w.rows
  {
    ReachableInv(w);
    var c := w.memory[id];
    VerdictMost(c, w.broker.cash, m.conditions);
    SavedRow(w, id, AfterVerification(c, w.broker.cash, m), m.firstSave);
  }

  // ---- Submission ----

  predicate Placed(m: Moment) {
    m.firstSave && m.reachesBroker && !Refuses(m.scenario)
  }

  /** What the broker enters for a record approved for q units. */
  function EntryFor(c: Row, q: int, m: Moment): Order {
    Order(c.symbol, q, c.limitPrice, c.cycle, m.scenario, m.parameters, Pending, m.now, 0, 0, None)
  }

  /**
   * A VERIFIED record reaches the broker exactly when its intent was saved, the process lived until then and the
   * broker did not refuse; the broker then holds one more order, for the quantity verification kept, and no less cash.
   * The record learns its number exactly when the answer arrives.
   */
  lemma SubmissionOutcome(w: World, id: string, m: Moment)
    requires Reachable(w) && Possible(w, ProcessOrder(id, m)) && w.memory[id].status == Verified
    ensures w.memory[id].final.Some?
    ensures var v, c, b := Next(w, ProcessOrder(id, m)), w.memory[id], w.broker;
            && v.broker
               == (if Placed(m) then
                     Broker(b.cash, b.next + 1, b.orders[b.next := EntryFor(c, c.final.value, m)])
                   else b)
            && id in v.memory
            && v.memory[id] == (if Placed(m) && m.answerArrives then c.(status := Pending, brokerId := Some(b.next))
                                else c.(status := Submitted))
            && v.rows == (if !m.firstSave then w.rows
                          else if Placed(m) && m.answerArrives && m.secondSave then w.rows[id := v.memory[id]]
                          else w.rows[id := c.(status := Submitted)])
  {
    ReachableInv(w);
    var c := w.memory[id];
    assert CopyInv(w, id, c);
    OrderIsFresh(c, m);
    SavedRow(w, id, c.(status := Submitted), m.firstSave);
    var saved := w.rows[id := c.(status := Submitted)];
    var pending := c.(status := Pending, brokerId := Some(w.broker.next));
    assert SameIdentity(pending, saved[id]);
    assert saved[id := pending] == w.rows[id := pending];
  }

  /** Steps that leave the record in hand alone. */
  predicate Spares(s: Step, id: string) {
    !s.Crash? && !((s.ProcessOrder? || s.Load? || s.Create?) && s.id == id)
  }

  lemma CopyStays(w: World, s: Step, id: string)
    requires Possible(w, s) && id in w.memory && Spares(s, id)
    ensures id in Next(w, s).memory && Next(w, s).memory[id] == w.memory[id]
  {
  }

  lemma {:induction false} CopyStaysOver(w: World, steps: seq<Step>, id: string)
    requires Legal(w, steps) && id in w.memory && forall s :: s in steps ==> Spares(s, id)
    ensures id in After(w, steps).memory && After(w, steps).memory[id] == w.memory[id]
    decreases |steps|
  {
    if steps != [] {
      assert steps[0] in steps;
      CopyStays(w, steps[0], id);
      CopyStaysOver(Next(w, steps[0]), steps[1..], id);
    }
  }

  lemma {:induction false} ReachableAfter(w: World, steps: seq<Step>)
    requires Reachable(w) && Legal(w, steps)
    ensures Reachable(After(w, steps))
    decreases |steps|
  {
    if steps != [] {
      ReachableNext(w, steps[0]);
      ReachableAfter(Next(w, steps[0]), steps[1..]);
    }
  }

  /**
   * Whatever happens to the table, the broker and the other records in between, the order the broker receives is for
   * the quantity the record was verified for: the most of the proposal that the cash bought then.
   */
  lemma SentAsVerified(w: World, id: string, m: Moment, between: seq<Step>, n: Moment)
    requires Reachable(w) && Possible(w, ProcessOrder(id, m)) && m.conditions.costs.Valid()
    requires w.memory[id].status == Proposal && BuysOne(w.memory[id], w.broker.cash, m.conditions)
    requires Legal(Next(w, ProcessOrder(id, m)), between) && forall s :: s in between ==> Spares(s, id)
    requires Placed(n) && 0.0 < n.parameters.ratio <= 1.0
    ensures var u := After(Next(w, ProcessOrder(id, m)), between);
            && Possible(u, ProcessOrder(id, n))
            && var broker := Next(u, ProcessOrder(id, n)).broker;
               && broker.cash == u.broker.cash && u.broker.next in broker.orders
               && var o := broker.orders[u.broker.next];
                  && MostOf(w.memory[id], w.broker.cash, m.conditions.costs, o.quantity)
                  && o == EntryFor(w.memory[id], o.quantity, n)
  {
    var v := Next(w, ProcessOrder(id, m));
    ReachableNext(w, ProcessOrder(id, m));
    VerificationOutcome(w, id, m);
    ReachableAfter(v, between);
    CopyStaysOver(v, between, id);
    SubmissionOutcome(After(v, between), id, n);
  }

  // ---- A pass of reconciliation ----

  /** An order the broker still lists as open and that carries the record's reference and symbol. */
  predicate OpenMatch(w: World, r: Row, b: nat) {
    b in w.broker.orders && !Terminal(w.broker.orders[b].state) && Matches(w.broker.orders[b], r)
  }

  /** What a completed pass makes of a record it found in this state. */
  ghost predicate SettledRight(w: World, r: Row, after: Row, now: int) {
    match r.status
    case Proposal | Verified | Ambiguous | Reconciled => after == r
    case Failed => after == r.(status := Reconciled)
    case Submitted =>
      && (forall b :: OpenMatch(w, r, b) ==>
            var o := w.broker.orders[b];
            after == r.(brokerId := Some(b), status := o.state, executed := o.executed, price := o.price,
                        checked := Some(now)))
      && ((forall b :: !OpenMatch(w, r, b)) ==> after == r.(status := Ambiguous))
    case _ =>
      && r.brokerId.Some?
      && var b := r.brokerId.value;
         if b !in w.broker.orders || !Terminal(w.broker.orders[b].state) then after == r
         else
           var o := w.broker.orders[b];
           && after.status == Reconciled && after.brokerId == r.brokerId && SameIdentity(after, r)
           && after.executed == o.executed && after.price == o.price
           && after.final == (if r.status != o.state && o.executed != 0 then Some(o.executed) else r.final)
           && after.checked == (if r.status != o.state then Some(now) else r.checked)
  }

  /** The pass finds the open order that matches, and there is only one. */
  lemma FindsMatch(w: World, id: string, b: nat)
    requires Inv(w) && id in w.rows && OpenMatch(w, w.rows[id], b)
    ensures FirstMatch(OpenOrders(w.broker.orders), 0, w.broker.next, w.rows[id]) == Some(b)
  {
    var open := OpenOrders(w.broker.orders);
    MatchIsOwn(w, id, b);
    assert Entry(w.broker, b, w.book[b]);
    assert b in open && open[b] == w.broker.orders[b];
    var found := FirstMatch(open, 0, w.broker.next, w.rows[id]);
    assert b < w.broker.next && Matches(open[b], w.rows[id]);
    match found
    case None =>
    case Some(k) =>
      MatchIsOwn(w, id, k);
      assert w.owner[k] == w.owner[b];
  }

  lemma SubmittedSettled(w: World, id: string, now: int)
    requires Inv(w) && id in w.rows && w.rows[id].status == Submitted
    ensures SettledRight(w, w.rows[id], Settled(w.broker, w.rows[id], now), now)
  {
    assert Consistent(w.book, w.owner, id, w.rows[id]);
    var found := FirstMatch(OpenOrders(w.broker.orders), 0, w.broker.next, w.rows[id]);
    forall b: nat | OpenMatch(w, w.rows[id], b)
      ensures found == Some(b)
    {
      FindsMatch(w, id, b);
    }
    if found.Some? {
      assert OpenMatch(w, w.rows[id], found.value);
    }
    SettledUnanswered(w.broker, w.rows[id], found, now);
    SubmittedRight(w, w.rows[id], found, Settled(w.broker, w.rows[id], now), now);
  }

  predicate AdoptsOrEscalates(broker: Broker, r: Row, found: Option<nat>, after: Row, now: int) {
    match found
    case None => after == r.(status := Ambiguous)
    case Some(b) =>
      && b in broker.orders
      && var o := broker.orders[b];
         after == r.(brokerId := found, status := o.state, executed := o.executed, price := o.price,
                     checked := Some(now))
  }

  lemma SettledUnanswered(broker: Broker, r: Row, found: Option<nat>, now: int)
    requires r.status == Submitted && r.brokerId.None?
    requires found == FirstMatch(OpenOrders(broker.orders), 0, broker.next, r)
    ensures AdoptsOrEscalates(broker, r, found, Settled(broker, r, now), now)
  {
  }

  lemma SubmittedRight(w: World, r: Row, found: Option<nat>, after: Row, now: int)
    requires r.status == Submitted && AdoptsOrEscalates(w.broker, r, found, after, now)
    requires forall b: nat :: OpenMatch(w, r, b) ==> found == Some(b)
    requires found.Some? ==> OpenMatch(w, r, found.value)
    ensures SettledRight(w, r, after, now)
  {
  }

  lemma NumberedSettled(w: World, id: string, now: int)
    requires Inv(w) && id in w.rows && w.rows[id].status in {Pending, PartiallyFilled, Filled, Cancelled}
    ensures SettledRight(w, w.rows[id], Settled(w.broker, w.rows[id], now), now)
  {
    OwnOrder(w, id);
    var b := w.rows[id].brokerId.value;
    SettledNumbered(w.broker, w.rows[id], b, now);
    NumberedRight(w, w.rows[id], b, Settled(w.broker, w.rows[id], now), now);
  }

  lemma NumberedRight(w: World, r: Row, b: nat, after: Row, now: int)
    requires r.status in {Pending, PartiallyFilled, Filled, Cancelled} && r.brokerId == Some(b)
    requires b in w.broker.orders && r.status == w.broker.orders[b].state ==> SameFill(r, w.broker.orders[b])
    requires FollowsOrder(w.broker, r, b, after, now)
    ensures SettledRight(w, r, after, now)
  {
  }

  lemma OwnOrder(w: World, id: string)
    requires Inv(w) && id in w.rows && w.rows[id].status in {Pending, PartiallyFilled, Filled, Cancelled}
    ensures w.rows[id].brokerId.Some?
    ensures var b := w.rows[id].brokerId.value;
            b in w.broker.orders ==>
              && Sound(w.broker.orders[b])
              && (w.rows[id].status == w.broker.orders[b].state ==> SameFill(w.rows[id], w.broker.orders[b]))
  {
    assert Consistent(w.book, w.owner, id, w.rows[id]);
    TrackedAreSound(w);
  }

  predicate FollowsOrder(broker: Broker, r: Row, b: nat, after: Row, now: int) {
    if b !in broker.orders || !Terminal(broker.orders[b].state) then after == r
    else
      var o := broker.orders[b];
      after == if r.status == o.state then r.(status := Reconciled)
               else r.(status := Reconciled, executed := o.executed, price := o.price, checked := Some(now),
                       final := if o.executed != 0 then Some(o.executed) else r.final)
  }

  /** A numbered record against its own order. */
  lemma SettledNumbered(broker: Broker, r: Row, b: nat, now: int)
    requires r.brokerId == Some(b) && r.status in {Pending, PartiallyFilled, Filled, Cancelled}
    requires b in broker.orders ==> Sound(broker.orders[b])
    ensures FollowsOrder(broker, r, b, Settled(broker, r, now), now)
  {
  }

  /**
   * A completed pass, in whatever order it visits the records, settles every one of them by the broker's orders: an
   * unanswered submission adopts the open order that is its own, or is escalated to AMBIGUOUS if there is none; a
   * numbered record takes over the fill of its order once that is terminal; a rejected one is closed. No record stays
   * SUBMITTED, and the rest are left alone.
   */
  lemma PassOutcome(w: World, ids: seq<string>, now: int, id: string)
    requires Reachable(w) && Distinct(ids) && Covers(ids, w.rows) && (forall k :: k in ids ==> k in w.rows)
    requires id in w.rows
    ensures var after := Reconciling(w, ids, now).rows[id];
            SettledRight(w, w.rows[id], after, now) && after.status != Submitted
  {
    ReachableInv(w);
    ReconcilePointwise(Pass(w.rows, w.broker), ids, now);
    assert Consistent(w.book, w.owner, id, w.rows[id]);
    if w.rows[id].status == Submitted {
      SubmittedSettled(w, id, now);
      SubmittedLeaves(w, id, now);
    } else if w.rows[id].status in {Pending, PartiallyFilled, Filled, Cancelled} {
      NumberedSettled(w, id, now);
    }
  }

  lemma SubmittedLeaves(w: World, id: string, now: int)
    requires Inv(w) && id in w.rows && w.rows[id].status == Submitted
    ensures Settled(w.broker, w.rows[id], now).status != Submitted
  {
    assert Consistent(w.book, w.owner, id, w.rows[id]);
    TrackedAreSound(w);
  }

  /** What a pass reports of a record. */
  lemma FindingIff(w: World, id: string, now: int)
    requires Reachable(w) && id in w.rows && Relevant(w.rows[id])
    ensures var r, found := w.rows[id], Finding(w.broker, w.rows[id], now);
            if r.status == Failed then found == NoDiscrepancy
            else if r.status == Submitted then
              found == if exists b :: OpenMatch(w, r, b) then StateMismatch else AmbiguousNoLocalId
            else
              && r.brokerId.Some?
              && var b := r.brokerId.value;
                 found == if b !in w.broker.orders then BrokerHasNoRecord
                          else if !Terminal(w.broker.orders[b].state) then StillOpen
                          else if r.status == w.broker.orders[b].state then NoDiscrepancy
                          else StateMismatch
  {
    ReachableInv(w);
    assert Consistent(w.book, w.owner, id, w.rows[id]);
    if w.rows[id].status == Submitted {
      SubmittedFinding(w, id, now);
    } else if w.rows[id].status != Failed {
      OwnOrder(w, id);
      NumberedFinding(w.broker, w.rows[id], w.rows[id].brokerId.value, now);
    }
  }

  lemma SubmittedFinding(w: World, id: string, now: int)
    requires Inv(w) && id in w.rows && w.rows[id].status == Submitted
    ensures Finding(w.broker, w.rows[id], now)
         == if exists b :: OpenMatch(w, w.rows[id], b) then StateMismatch else AmbiguousNoLocalId
  {
    assert Consistent(w.book, w.owner, id, w.rows[id]);
    var found := FirstMatch(OpenOrders(w.broker.orders), 0, w.broker.next, w.rows[id]);
    if b :| OpenMatch(w, w.rows[id], b) {
      FindsMatch(w, id, b);
    } else if found.Some? {
      assert OpenMatch(w, w.rows[id], found.value);
    }
  }

  lemma NumberedFinding(broker: Broker, r: Row, b: nat, now: int)
    requires r.brokerId == Some(b) && r.status in {Pending, PartiallyFilled, Filled, Cancelled}
    requires b in broker.orders ==> Sound(broker.orders[b])
    ensures Finding(broker, r, now)
         == if b !in broker.orders then BrokerHasNoRecord
            else if !Terminal(broker.orders[b].state) then StillOpen
            else if r.status == broker.orders[b].state then NoDiscrepancy
            else StateMismatch
  {
  }

  // ---- The operator ----

  /** The answer is for an AMBIGUOUS record, comes with notes, and names a state the table offers. */
  predicate Acceptable(r: Row, how: Resolution) {
    && r.status == Ambiguous && how.explained
    && !(how.target.Proposal? || how.target.Submitted? || how.target.Ambiguous?)
  }

  /** The record says what was answered; what was not answered is as nothing was known of it. */
  predicate SaysAnswer(r: Row, how: Resolution, now: int, after: Row) {
    after == r.(status := how.target, brokerId := how.brokerId, price := how.price, checked := Some(now),
                executed := if how.executed.Some? then how.executed.value else 0)
  }

  lemma ResolvedIs(r: Row, how: Resolution, now: int)
    requires r.status == Ambiguous ==> Untouched(r)
    ensures Resolve(r, how, now).Some? <==> Acceptable(r, how)
    ensures Acceptable(r, how) ==> SaysAnswer(r, how, now, Resolve(r, how, now).value)
  {
    match how.target
    case Proposal | Submitted | Ambiguous =>
    case Verified | Pending | PartiallyFilled | Filled | Cancelled | Failed | Reconciled =>
  }

  /** An operator's answer is taken exactly where it is acceptable, and touches nothing else. */
  lemma OperatorOutcome(w: World, id: string, how: Resolution, now: int)
    requires Reachable(w) && Possible(w, Operator(id, how, now))
    ensures var v, r := Next(w, Operator(id, how, now)), w.rows[id];
            && v == w.(rows := v.rows)
            && (forall k :: k in w.rows && k != id ==> v.rows[k] == w.rows[k])
            && if Acceptable(r, how) then SaysAnswer(r, how, now, v.rows[id]) else v.rows[id] == r
  {
    ReachableInv(w);
    AmbiguousUntouched(w, id);
    ResolvedIs(w.rows[id], how, now);
    if Acceptable(w.rows[id], how) {
      SaveThenLoad(w.rows, id, Resolve(w.rows[id], how, now).value);
    }
  }

  lemma AmbiguousUntouched(w: World, id: string)
    requires Inv(w) && id in w.rows
    ensures w.rows[id].status == Ambiguous ==> Untouched(w.rows[id])
  {
    assert Consistent(w.book, w.owner, id, w.rows[id]);
  }
}
