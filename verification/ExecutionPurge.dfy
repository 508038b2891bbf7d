/** When the broker may forget an order: reconciling before purging, and what an operator can still undo. */
module ExecutionPurge {
  import opened Common
  import opened Lifecycle
  import opened PaperBrokers
  import opened ExecutionStore
  import opened Orchestrator
  import opened Reconciliation
  import opened Execution
  import opened ExecutionInvariant
  import opened ExecutionSafety

  predicate Orphan(r: Row, orders: map<nat, Order>) {
    r.status != Reconciled && r.brokerId.Some? && r.brokerId.value !in orders
  }

  /** Every unresolved record with a broker number still has its order at the broker. */
  ghost predicate OrphanFree(w: World) {
    forall id :: id in w.rows ==> !Orphan(w.rows[id], w.broker.orders)
  }

  /** The order an unresolved record refers to is old enough, and terminal, to be purged. */
  predicate StillNeeded(r: Row, orders: map<nat, Order>, olderThan: Option<int>, now: int) {
    && r.status != Reconciled && r.brokerId.Some? && r.brokerId.value in orders
    && Purgeable(orders[r.brokerId.value], olderThan, now)
  }

  /** Steps that leave no orphan: a bare purge meets no order still needed, an operator reopens no purged one. */
  ghost predicate Careful(w: World, s: Step) {
    match s
    case PurgeOnly(olderThan, now) =>
      forall id :: id in w.rows ==> !StillNeeded(w.rows[id], w.broker.orders, olderThan, now)
    case Operator(id, how, now) =>
      id in w.rows && Resolve(w.rows[id], how, now).Some? ==>
        how.target == Reconciled || how.brokerId.None? || how.brokerId.value in w.broker.orders
    case _ => true
  }

  lemma SubmitKeepsOrders(rows: Rows, broker: Broker, id: string, c: Row, m: Moment)
    requires c.status == Verified && c.brokerId.None?
    ensures var e := Process(rows, broker, id, c, m);
            && broker.orders.Keys <= e.broker.orders.Keys
            && (e.copy.brokerId.Some? ==> e.copy.brokerId.value in e.broker.orders)
            && (e.rows == rows || e.rows == Upsert(rows, id, c.(status := Submitted))
                || e.rows == Upsert(Upsert(rows, id, c.(status := Submitted)), id, e.copy))
  {
  }

  predicate NoNewOrphan(w: World, id: string, e: Effect) {
    && w.broker.orders.Keys <= e.broker.orders.Keys
    && (id in e.rows && id in w.rows ==> e.rows[id] == w.rows[id] || !Orphan(e.rows[id], e.broker.orders))
  }

  lemma PollOrphans(w: World, id: string, m: Moment)
    requires Inv(w) && id in w.memory && w.memory[id].status in {Pending, PartiallyFilled}
    ensures NoNewOrphan(w, id, DoPoll(w.rows, w.broker, id, w.memory[id], m))
  {
    AlwaysAnswerable(w, id);
    PollOutcome(w, id, m);
  }

  lemma ProcessOrphans(w: World, id: string, m: Moment)
    requires Inv(w) && id in w.memory
    ensures NoNewOrphan(w, id, Process(w.rows, w.broker, id, w.memory[id], m))
  {
    var c := w.memory[id];
    assert CopyInv(w, id, c);
    match c.status
    case Pending | PartiallyFilled => PollOrphans(w, id, m);
    case Verified => SubmitKeepsOrders(w.rows, w.broker, id, c, m);
    case _ =>
  }

  lemma ProcessKeepsOrphanFree(w: World, id: string, m: Moment)
    requires Inv(w) && OrphanFree(w) && id in w.memory
    ensures OrphanFree(Processing(w, id, m))
  {
    ProcessOrphans(w, id, m);
    assert CopyInv(w, id, w.memory[id]);
    var e := Process(w.rows, w.broker, id, w.memory[id], m);
    forall k | k in e.rows
      ensures !Orphan(e.rows[k], e.broker.orders)
    {
      if k != id {
        ProcessLeavesOthers(w, id, m, k);
      }
    }
  }

  lemma IrrelevantIsUnnumbered(w: World, id: string)
    requires Inv(w) && id in w.rows && !Relevant(w.rows[id])
    ensures w.rows[id].status == Reconciled || w.rows[id].brokerId.None?
  {
    assert Consistent(w.book, w.owner, id, w.rows[id]);
  }

  lemma SettledOrphan(broker: Broker, r: Row, now: int)
    requires !Orphan(r, broker.orders) && (Relevant(r) || r.status == Reconciled || r.brokerId.None?)
    ensures var s := Settled(broker, r, now);
            && !Orphan(s, broker.orders)
            && (s.status != Reconciled && s.brokerId.Some? ==> !Terminal(broker.orders[s.brokerId.value].state))
  {
  }

  lemma ReconcileKeepsOrphanFree(w: World, ids: seq<string>, now: int)
    requires Inv(w) && OrphanFree(w) && Distinct(ids) && forall id :: id in ids ==> id in w.rows
    ensures OrphanFree(Reconciling(w, ids, now))
    ensures Covers(ids, w.rows) ==>
              forall id :: id in w.rows ==> OpenOrSettled(Reconciling(w, ids, now), id)
  {
    var v := Reconciling(w, ids, now);
    ReconcilePointwise(Pass(w.rows, w.broker), ids, now);
    assert v.rows.Keys == w.rows.Keys && v.broker.orders.Keys == w.broker.orders.Keys;
    forall id | id in w.rows
      ensures !Orphan(v.rows[id], v.broker.orders)
      ensures Covers(ids, w.rows) ==> OpenOrSettled(v, id)
    {
      OrphanOfOne(w, v.broker, id, now);
      assert id !in ids ==> v.rows[id] == w.rows[id];
    }
  }

  /** One record, visited or not, against the broker as the pass leaves it. */
  lemma OrphanOfOne(w: World, c: Broker, id: string, now: int)
    requires Inv(w) && id in w.rows && !Orphan(w.rows[id], w.broker.orders) && Undisturbed(w.broker, c)
    ensures var r := Settled(w.broker, w.rows[id], now);
            && !Orphan(r, c.orders) && !Orphan(w.rows[id], c.orders)
            && (r.status != Reconciled && r.brokerId.Some? ==>
                  r.brokerId.value in c.orders && !Terminal(c.orders[r.brokerId.value].state))
            && (!Relevant(w.rows[id]) ==> r == w.rows[id])
  {
    if !Relevant(w.rows[id]) {
      IrrelevantIsUnnumbered(w, id);
    }
    SettledOrphan(w.broker, w.rows[id], now);
  }

  /** An unresolved record with a number has an order that is still open. */
  predicate OpenOrSettled(w: World, id: string)
    requires id in w.rows
  {
    var r := w.rows[id];
    r.status != Reconciled && r.brokerId.Some? ==>
      r.brokerId.value in w.broker.orders && !Terminal(w.broker.orders[r.brokerId.value].state)
  }

  lemma SweepKeepsOrphanFree(w: World, ids: seq<string>, olderThan: Option<int>, now: int)
    requires Inv(w) && OrphanFree(w) && Enabled(w, ReconcileThenPurge(ids, olderThan, now))
    ensures OrphanFree(Next(w, ReconcileThenPurge(ids, olderThan, now)))
  {
    ReconcileKeepsOrphanFree(w, ids, now);
    var v := Reconciling(w, ids, now);
    forall id | id in v.rows
      ensures !Orphan(v.rows[id], Purge(v.broker, olderThan, now).orders)
    {
      assert OpenOrSettled(v, id);
    }
  }

  lemma ResolvedOrphanIff(r: Row, how: Resolution, now: int, orders: map<nat, Order>)
    requires r.brokerId.None? && Resolve(r, how, now).Some?
    ensures Orphan(Resolve(r, how, now).value, orders)
       <==> how.target != Reconciled && how.brokerId.Some? && how.brokerId.value !in orders
  {
  }

  lemma OperatorOrphanIff(w: World, id: string, how: Resolution, now: int)
    requires Inv(w) && OrphanFree(w) && Enabled(w, Operator(id, how, now))
    ensures OrphanFree(Next(w, Operator(id, how, now))) <==> Careful(w, Operator(id, how, now))
  {
    var resolved := Resolve(w.rows[id], how, now);
    if resolved.Some? {
      assert Consistent(w.book, w.owner, id, w.rows[id]);
      ResolvedOrphanIff(w.rows[id], how, now, w.broker.orders);
      OneRowOrphanIff(w, id, resolved.value);
    }
  }

  lemma OneRowOrphanIff(w: World, id: string, r: Row)
    requires OrphanFree(w) && id in w.rows
    ensures OrphanFree(WithRow(w, id, r)) <==> !Orphan(r, w.broker.orders)
  {
    var v := WithRow(w, id, r);
    assert Orphan(v.rows[id], v.broker.orders) == Orphan(r, w.broker.orders);
    assert forall k :: k in v.rows && k != id ==> v.rows[k] == w.rows[k];
  }

  lemma PurgeOrphanIff(w: World, olderThan: Option<int>, now: int)
    requires OrphanFree(w)
    ensures OrphanFree(WithBroker(w, Purge(w.broker, olderThan, now)))
       <==> forall id :: id in w.rows ==> !StillNeeded(w.rows[id], w.broker.orders, olderThan, now)
  {
    var left := Purge(w.broker, olderThan, now).orders;
    forall id | id in w.rows
      ensures Orphan(w.rows[id], left) <==> StillNeeded(w.rows[id], w.broker.orders, olderThan, now)
    {
      assert !Orphan(w.rows[id], w.broker.orders);
    }
  }

  lemma CalmKeepsOrphanFree(w: World, s: Step)
    requires Inv(w) && OrphanFree(w) && Enabled(w, s)
    requires s.Create? || s.Load? || s.Crash? || s.PollElsewhere? || s.CancelElsewhere?
    ensures OrphanFree(Next(w, s))
  {
    var v := Next(w, s);
    forall id | id in v.rows
      ensures !Orphan(v.rows[id], v.broker.orders)
    {
      assert id in w.rows ==> v.rows[id] == w.rows[id] && !Orphan(w.rows[id], w.broker.orders);
    }
  }

  /** A step creates an orphan exactly when it is a bare purge of a referenced order or reopens a purged one. */
  lemma OrphanFreeIff(w: World, s: Step)
    requires Reachable(w) && OrphanFree(w) && Enabled(w, s)
    ensures OrphanFree(Next(w, s)) <==> Careful(w, s)
  {
    ReachableInv(w);
    if s.ProcessOrder? {
      ProcessKeepsOrphanFree(w, s.id, s.m);
    } else if s.ReconcileSome? {
      ReconcileKeepsOrphanFree(w, s.ids, s.now);
    } else if s.ReconcileThenPurge? {
      SweepKeepsOrphanFree(w, s.ids, s.olderThan, s.now);
    } else if s.Operator? {
      OperatorOrphanIff(w, s.id, s.how, s.now);
    } else if s.PurgeOnly? {
      PurgeOrphanIff(w, s.olderThan, s.now);
    } else {
      CalmKeepsOrphanFree(w, s);
    }
  }

  ghost predicate CarefulRun(w: World, steps: seq<Step>)
    requires Legal(w, steps)
    decreases |steps|
  {
    steps == [] || (Careful(w, steps[0]) && CarefulRun(Next(w, steps[0]), steps[1..]))
  }

  lemma {:induction false} CarefulFrom(w: World, steps: seq<Step>)
    requires Reachable(w) && OrphanFree(w) && Legal(w, steps) && CarefulRun(w, steps)
    ensures OrphanFree(After(w, steps)) && Reachable(After(w, steps))
    decreases |steps|
  {
    if steps != [] {
      OrphanFreeIff(w, steps[0]);
      ReachableNext(w, steps[0]);
      CarefulFrom(Next(w, steps[0]), steps[1..]);
    }
  }

  /**
   * When every purge directly follows a completed reconciliation and no operator reopens a purged order, no run
   * ever produces an orphan, and reconciliation never reports that the broker has no record of an order.
   */
  lemma ReconcileBeforePurge(cash: real, steps: seq<Step>, id: string, now: int)
    requires Legal(Start(cash), steps) && CarefulRun(Start(cash), steps)
    requires id in After(Start(cash), steps).rows && Relevant(After(Start(cash), steps).rows[id])
    ensures var w := After(Start(cash), steps);
            OrphanFree(w) && CheckRow(OpenOrders(w.broker.orders), w.broker, w.rows[id], now).found != BrokerHasNoRecord
  {
    StartReachable(cash);
    CarefulFrom(Start(cash), steps);
    AlarmIff(After(Start(cash), steps), id, now);
  }

  /** Reconciliation reports a missing order exactly for an orphan. */
  lemma AlarmIff(w: World, id: string, now: int)
    requires Reachable(w) && id in w.rows && Relevant(w.rows[id])
    ensures CheckRow(OpenOrders(w.broker.orders), w.broker, w.rows[id], now).found == BrokerHasNoRecord
       <==> Orphan(w.rows[id], w.broker.orders)
  {
    ReachableInv(w);
    TrackedAreSound(w);
  }
}
