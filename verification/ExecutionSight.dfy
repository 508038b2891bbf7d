/** The same system with an operator who knows only what the broker shows, and purges that spare what it must show. */
module ExecutionSight {
  import opened Common
  import opened Lifecycle
  import opened PaperBrokers
  import opened ExecutionStore
  import opened Orchestrator
  import opened Reconciliation
  import opened Execution
  import opened ExecutionInvariant
  import opened ExecutionSafety
  import opened ExecutionPurge

  // ---- The rules, in terms of the table and the broker alone ----

  /** No order the broker holds carries the record's reference and symbol. */
  predicate Absent(r: Row, orders: map<nat, Order>) {
    forall b :: b in orders ==> !Matches(orders[b], r)
  }

  /**
   * VERIFIED, FAILED and closing without a number are answered when the broker holds no such order; any other answer
   * names an order that matches and repeats what the broker shows of it.
   */
  predicate AnswersBySight(r: Row, orders: map<nat, Order>, how: Resolution) {
    if how.target in {Verified, Failed} || (how.target == Reconciled && how.brokerId.None?) then
      Absent(r, orders) && ReportsNothing(how)
    else if Allowed(Ambiguous, how.target) then
      && how.brokerId.Some? && how.brokerId.value in orders
      && var o := orders[how.brokerId.value];
         && Matches(o, r) && Reports(how, o)
         && (if how.target == Reconciled then Terminal(o.state) else o.state == how.target)
    else true
  }

  /** The purge takes no order that matches a record still without a number. */
  predicate Spares(rows: Rows, orders: map<nat, Order>, olderThan: Option<int>, now: int) {
    forall b :: b in orders && Purgeable(orders[b], olderThan, now) ==>
      forall id :: id in rows && rows[id].brokerId.None? ==> !Matches(orders[b], rows[id])
  }

  ghost predicate Sighted(w: World, s: Step) {
    && Possible(w, s)
    && match s
       case Operator(id, how, _) => AnswersBySight(w.rows[id], w.broker.orders, how)
       case PurgeOnly(olderThan, now) => Spares(w.rows, w.broker.orders, olderThan, now)
       case ReconcileThenPurge(ids, olderThan, now) =>
         var v := Reconciling(w, ids, now);
         Spares(v.rows, v.broker.orders, olderThan, now)
       case _ => true
  }

  /** The steps lead from one world to the other, each within the rules. */
  ghost predicate SightedRun(v: World, steps: seq<Step>, w: World)
    decreases |steps|
  {
    if steps == [] then v == w
    else Sighted(v, steps[0]) && SightedRun(Next(v, steps[0]), steps[1..], w)
  }

  ghost predicate SightedReachable(w: World) {
    exists cash: real, steps: seq<Step> :: SightedRun(Start(cash), steps, w)
  }

  // ---- What the rules keep ----

  /** An accepted order the broker no longer holds belongs to a record that has its number. */
  ghost predicate Remembered(w: World) {
    forall b :: b in w.owner && b !in w.broker.orders ==>
      w.owner[b] in w.rows && w.rows[w.owner[b]].brokerId.Some?
  }

  /** For a record without a number, what the broker shows is what it accepted. */
  lemma AbsentMeansNeverAccepted(w: World, id: string)
    requires Inv(w) && Remembered(w) && id in w.rows && w.rows[id].brokerId.None?
    ensures NeverAccepted(w.owner, id) <==> Absent(w.rows[id], w.broker.orders)
  {
    forall b | b in w.owner && w.owner[b] == id
      ensures b in w.broker.orders && Matches(w.broker.orders[b], w.rows[id])
    {
      assert Belongs(w.book[b], w.rows[w.owner[b]]);
      assert Entry(w.broker, b, w.book[b]);
    }
    forall b | b in w.broker.orders && Matches(w.broker.orders[b], w.rows[id])
      ensures b in w.owner && w.owner[b] == id
    {
      MatchIsOwn(w, id, b);
    }
  }

  lemma SightIsTrue(w: World, id: string, how: Resolution, now: int)
    requires Inv(w) && Remembered(w) && id in w.rows
    requires AnswersBySight(w.rows[id], w.broker.orders, how) && Resolve(w.rows[id], how, now).Some?
    ensures Truthful(w, id, how)
  {
    assert Consistent(w.book, w.owner, id, w.rows[id]);
    AbsentMeansNeverAccepted(w, id);
    if how.brokerId.Some? && how.brokerId.value in w.broker.orders
       && Matches(w.broker.orders[how.brokerId.value], w.rows[id]) {
      MatchIsOwn(w, id, how.brokerId.value);
    }
  }

  lemma SightedIsEnabled(w: World, s: Step)
    requires Inv(w) && Remembered(w) && Sighted(w, s)
    ensures Enabled(w, s)
  {
    if s.Operator? && Resolve(w.rows[s.id], s.how, s.now).Some? {
      SightIsTrue(w, s.id, s.how, s.now);
    }
  }

  /** Later worlds with no fewer numbers and no fewer orders remember as much. */
  lemma RemembersMore(w: World, v: World)
    requires Remembered(w) && v.owner == w.owner && w.broker.orders.Keys <= v.broker.orders.Keys
    requires w.rows.Keys <= v.rows.Keys
    requires forall id :: id in w.rows && w.rows[id].brokerId.Some? ==> v.rows[id].brokerId.Some?
    ensures Remembered(v)
  {
  }

  predicate NumbersKept(w: World, id: string, e: Effect) {
    && w.broker.orders.Keys <= e.broker.orders.Keys
    && (e.broker.next == w.broker.next || (e.broker.next == w.broker.next + 1 && w.broker.next in e.broker.orders))
    && (id in w.rows && w.rows[id].brokerId.Some? ==> id in e.rows && e.rows[id].brokerId.Some?)
  }

  lemma PollNumbers(w: World, id: string, m: Moment)
    requires Inv(w) && id in w.memory && w.memory[id].status in {Pending, PartiallyFilled}
    ensures NumbersKept(w, id, Process(w.rows, w.broker, id, w.memory[id], m))
  {
    AlwaysAnswerable(w, id);
    PollOutcome(w, id, m);
  }

  lemma EarlyIsUnnumbered(w: World, id: string)
    requires Inv(w) && id in w.memory && w.memory[id].status in {Proposal, Verified}
    ensures id in w.rows && w.rows[id].brokerId.None?
  {
    assert CopyInv(w, id, w.memory[id]);
    assert Consistent(w.book, w.owner, id, w.rows[id]);
  }

  lemma SubmitNumbers(w: World, id: string, m: Moment)
    requires id in w.memory && w.memory[id].status == Verified && id in w.rows && w.rows[id].brokerId.None?
    ensures NumbersKept(w, id, DoSubmit(w.rows, w.broker, id, w.memory[id], m))
  {
  }

  lemma ProcessNumbers(w: World, id: string, m: Moment)
    requires Inv(w) && id in w.memory
    ensures NumbersKept(w, id, Process(w.rows, w.broker, id, w.memory[id], m))
  {
    match w.memory[id].status
    case Pending | PartiallyFilled => PollNumbers(w, id, m);
    case Verified =>
      EarlyIsUnnumbered(w, id);
      SubmitNumbers(w, id, m);
    case Proposal => EarlyIsUnnumbered(w, id);
    case _ =>
  }

  lemma ProcessRemembers(w: World, id: string, m: Moment)
    requires Inv(w) && Remembered(w) && id in w.memory
    ensures Remembered(Processing(w, id, m))
  {
    ProcessNumbers(w, id, m);
    var v := Processing(w, id, m);
    forall b | b in v.owner && b !in v.broker.orders
      ensures v.owner[b] in v.rows && v.rows[v.owner[b]].brokerId.Some?
    {
      assert b in w.owner && b !in w.broker.orders && v.owner[b] == w.owner[b];
      if w.owner[b] != id {
        ProcessLeavesOthers(w, id, m, w.owner[b]);
      }
    }
  }

  lemma SettledNumbers(b: Broker, r: Row, now: int)
    requires r.brokerId.Some?
    ensures Settled(b, r, now).brokerId.Some?
  {
  }

  lemma ReconcileRemembers(w: World, ids: seq<string>, now: int)
    requires Inv(w) && Remembered(w) && Distinct(ids) && forall id :: id in ids ==> id in w.rows
    ensures Remembered(Reconciling(w, ids, now))
  {
    ReconcilePointwise(Pass(w.rows, w.broker), ids, now);
    var v := Reconciling(w, ids, now);
    forall id | id in w.rows && w.rows[id].brokerId.Some?
      ensures v.rows[id].brokerId.Some?
    {
      SettledNumbers(w.broker, w.rows[id], now);
    }
    RemembersMore(w, v);
  }

  lemma SparingPurgeRemembers(w: World, olderThan: Option<int>, now: int)
    requires Inv(w) && Remembered(w) && Spares(w.rows, w.broker.orders, olderThan, now)
    ensures Remembered(WithBroker(w, Purge(w.broker, olderThan, now)))
  {
    var v := WithBroker(w, Purge(w.broker, olderThan, now));
    forall b | b in v.owner && b !in v.broker.orders
      ensures v.owner[b] in v.rows && v.rows[v.owner[b]].brokerId.Some?
    {
      assert Belongs(w.book[b], w.rows[w.owner[b]]);
      assert Entry(w.broker, b, w.book[b]);
    }
  }

  /** A purge keeps the broker's memory exactly when it spares the orders of records without a number. */
  lemma PurgeRemembersIff(w: World, olderThan: Option<int>, now: int)
    requires Inv(w) && Remembered(w)
    ensures Remembered(WithBroker(w, Purge(w.broker, olderThan, now)))
       <==> Spares(w.rows, w.broker.orders, olderThan, now)
  {
    if Spares(w.rows, w.broker.orders, olderThan, now) {
      SparingPurgeRemembers(w, olderThan, now);
    } else {
      var b, id :| b in w.broker.orders && Purgeable(w.broker.orders[b], olderThan, now)
                && id in w.rows && w.rows[id].brokerId.None? && Matches(w.broker.orders[b], w.rows[id]);
      MatchIsOwn(w, id, b);
      var v := WithBroker(w, Purge(w.broker, olderThan, now));
      assert b in v.owner && b !in v.broker.orders;
    }
  }

  lemma OperatorRemembers(w: World, id: string, how: Resolution, now: int)
    requires Inv(w) && Remembered(w) && id in w.rows
    ensures Remembered(Next(w, Operator(id, how, now)))
  {
    RemembersMore(w, Next(w, Operator(id, how, now)));
  }

  lemma CalmRemembers(w: World, s: Step)
    requires Inv(w) && Remembered(w) && Possible(w, s)
    requires s.Create? || s.Load? || s.Crash? || s.PollElsewhere? || s.CancelElsewhere?
    ensures Remembered(Next(w, s))
  {
    RemembersMore(w, Next(w, s));
  }

  lemma SightedStepRemembers(w: World, s: Step)
    requires Inv(w) && Remembered(w) && Sighted(w, s)
    ensures Remembered(Next(w, s))
  {
    if s.ProcessOrder? {
      ProcessRemembers(w, s.id, s.m);
    } else if s.ReconcileSome? {
      ReconcileRemembers(w, s.ids, s.now);
    } else if s.ReconcileThenPurge? {
      ReconcileRemembers(w, s.ids, s.now);
      ReconcilingKeeps(w, s.ids, s.now);
      PurgeRemembersIff(Reconciling(w, s.ids, s.now), s.olderThan, s.now);
    } else if s.PurgeOnly? {
      PurgeRemembersIff(w, s.olderThan, s.now);
    } else if s.Operator? {
      OperatorRemembers(w, s.id, s.how, s.now);
    } else {
      CalmRemembers(w, s);
    }
  }

  lemma {:induction false} SightedRunIsLegal(v: World, steps: seq<Step>, w: World)
    requires Reachable(v) && Remembered(v) && SightedRun(v, steps, w)
    ensures Reachable(w) && Remembered(w)
    decreases |steps|
  {
    if steps != [] {
      ReachableInv(v);
      SightedIsEnabled(v, steps[0]);
      SightedStepRemembers(v, steps[0]);
      ReachableNext(v, steps[0]);
      SightedRunIsLegal(Next(v, steps[0]), steps[1..], w);
    }
  }

  /** Answering by sight is answering truthfully: such a run is one of the runs with an all-knowing operator. */
  lemma SightedIsReachable(w: World)
    requires SightedReachable(w)
    ensures Reachable(w) && Inv(w) && Remembered(w)
  {
    var cash, steps :| SightedRun(Start(cash), steps, w);
    StartReachable(cash);
    SightedRunIsLegal(Start(cash), steps, w);
    ReachableInv(w);
  }

  // ---- At most one order per record ----

  /**
   * With crashes anywhere, lost answers, stale records in hand, reconciliations, and an operator who releases a retry
   * whenever the broker holds no such order, the broker accepts at most one order per record, as long as no purge
   * takes an order matching a record without a number.
   */
  lemma AtMostOnce(w: World)
    requires SightedReachable(w)
    ensures OneOrderPerRecord(w)
  {
    SightedIsReachable(w);
    OneOrder(w);
  }

  predicate PurgeFree(steps: seq<Step>) {
    forall i :: 0 <= i < |steps| ==> !steps[i].PurgeOnly? && !steps[i].ReconcileThenPurge?
  }

  /** Without purges only the operator's answers are left to check. */
  ghost predicate AnsweredBySight(v: World, steps: seq<Step>, w: World)
    decreases |steps|
  {
    if steps == [] then v == w
    else
      && Possible(v, steps[0])
      && (steps[0].Operator? ==> AnswersBySight(v.rows[steps[0].id], v.broker.orders, steps[0].how))
      && AnsweredBySight(Next(v, steps[0]), steps[1..], w)
  }

  lemma {:induction false} PurgeFreeIsSighted(v: World, steps: seq<Step>, w: World)
    requires PurgeFree(steps) && AnsweredBySight(v, steps, w)
    ensures SightedRun(v, steps, w)
    decreases |steps|
  {
    if steps != [] {
      PurgeFreeIsSighted(Next(v, steps[0]), steps[1..], w);
    }
  }

  /** In particular on every run without purges. */
  lemma AtMostOnceWithoutPurges(cash: real, steps: seq<Step>, w: World)
    requires PurgeFree(steps) && AnsweredBySight(Start(cash), steps, w)
    ensures OneOrderPerRecord(w)
  {
    PurgeFreeIsSighted(Start(cash), steps, w);
    AtMostOnce(w);
  }

  // ---- What a purge may take ----

  /** What the broker shows of every record without a number is the truth. */
  ghost predicate ViewIsTrue(w: World) {
    forall id :: id in w.rows && w.rows[id].brokerId.None? ==>
      (Absent(w.rows[id], w.broker.orders) ==> NeverAccepted(w.owner, id))
  }

  lemma ViewIsTrueIff(w: World)
    requires Inv(w)
    ensures ViewIsTrue(w) <==> Remembered(w)
  {
    if Remembered(w) {
      forall id | id in w.rows && w.rows[id].brokerId.None?
        ensures Absent(w.rows[id], w.broker.orders) ==> NeverAccepted(w.owner, id)
      {
        AbsentMeansNeverAccepted(w, id);
      }
    }
    if ViewIsTrue(w) {
      forall b | b in w.owner && b !in w.broker.orders
        ensures w.owner[b] in w.rows && w.rows[w.owner[b]].brokerId.Some?
      {
        OnlyOwnMatches(w, b);
      }
    }
  }

  /** Where the one order of a record is gone, nothing the broker holds matches the record. */
  lemma OnlyOwnMatches(w: World, b: nat)
    requires Inv(w) && b in w.owner && b !in w.broker.orders
    ensures w.owner[b] in w.rows && Absent(w.rows[w.owner[b]], w.broker.orders)
  {
    var id := w.owner[b];
    assert Belongs(w.book[b], w.rows[id]);
    forall k | k in w.broker.orders
      ensures !Matches(w.broker.orders[k], w.rows[id])
    {
      if Matches(w.broker.orders[k], w.rows[id]) {
        MatchIsOwn(w, id, k);
        assert false;
      }
    }
  }

  /** A purge keeps the broker's view truthful exactly when it spares every order matching a record without a number. */
  lemma PurgeKeepsViewIff(w: World, olderThan: Option<int>, now: int)
    requires SightedReachable(w)
    ensures ViewIsTrue(Next(w, PurgeOnly(olderThan, now))) <==> Spares(w.rows, w.broker.orders, olderThan, now)
  {
    SightedIsReachable(w);
    PurgeRemembersIff(w, olderThan, now);
    PurgeKeeps(w, olderThan, now);
    ViewIsTrueIff(Next(w, PurgeOnly(olderThan, now)));
  }

  /** For a record without a number, the broker never accepted an order exactly when it holds no such order. */
  lemma AbsentIsNeverAcceptedIff(w: World, id: string)
    requires SightedReachable(w) && id in w.rows && w.rows[id].brokerId.None?
    ensures NeverAccepted(w.owner, id) <==> Absent(w.rows[id], w.broker.orders)
  {
    SightedIsReachable(w);
    AbsentMeansNeverAccepted(w, id);
  }

  // ---- The retry an operator releases ----

  /** The operator resolves to VERIFIED, the process loads the record and submits it. */
  function Retried(w: World, id: string, now: int, m: Moment): World
    requires id in w.rows
  {
    var r := Resolve(w.rows[id], Resolution(Verified, true, None, None, None), now);
    var resolved := if r.Some? then WithRow(w, id, r.value) else w;
    Processing(WithCopy(resolved, id, resolved.rows[id]), id, m)
  }

  ghost predicate BoughtTwice(w: World, id: string) {
    exists a, b :: a in w.owner && b in w.owner && a != b && w.owner[a] == w.owner[b] == id
  }

  lemma RetryAddsOne(w: World, id: string, now: int, m: Moment)
    requires Inv(w) && id in w.rows && w.rows[id].status == Ambiguous
    requires m.firstSave && m.reachesBroker && !Refuses(m.scenario)
    ensures BoughtTwice(Retried(w, id, now, m), id) <==> !NeverAccepted(w.owner, id)
  {
    assert Consistent(w.book, w.owner, id, w.rows[id]);
    var v := Retried(w, id, now, m);
    assert v.owner == w.owner[w.broker.next := id];
    forall b | b in w.owner
      ensures b < w.broker.next
    {
      assert Entry(w.broker, b, w.book[b]);
    }
    if !NeverAccepted(w.owner, id) {
      var a :| a in w.owner && w.owner[a] == id;
      assert v.owner[a] == v.owner[w.broker.next] == id;
    }
  }

  /** A retry released from AMBIGUOUS buys twice exactly when the broker holds an order matching the record. */
  lemma RetryDuplicatesIff(w: World, id: string, now: int, m: Moment)
    requires SightedReachable(w) && id in w.rows && w.rows[id].status == Ambiguous
    requires m.firstSave && m.reachesBroker && !Refuses(m.scenario)
    ensures BoughtTwice(Retried(w, id, now, m), id) <==> !Absent(w.rows[id], w.broker.orders)
  {
    SightedIsReachable(w);
    assert Consistent(w.book, w.owner, id, w.rows[id]);
    RetryAddsOne(w, id, now, m);
    AbsentMeansNeverAccepted(w, id);
  }

  /**
   * After a purge the broker shows nothing of an AMBIGUOUS record; the retry released for it buys twice exactly when
   * the purge took an order matching the record.
   */
  lemma PurgeReleasesDuplicateIff(w: World, olderThan: Option<int>, purged: int, id: string, now: int, m: Moment)
    requires SightedReachable(w) && id in w.rows && w.rows[id].status == Ambiguous
    requires m.firstSave && m.reachesBroker && !Refuses(m.scenario)
    requires Absent(w.rows[id], Purge(w.broker, olderThan, purged).orders)
    ensures BoughtTwice(Retried(Next(w, PurgeOnly(olderThan, purged)), id, now, m), id)
       <==> exists b :: b in w.broker.orders && Purgeable(w.broker.orders[b], olderThan, purged)
                        && Matches(w.broker.orders[b], w.rows[id])
  {
    SightedIsReachable(w);
    assert Consistent(w.book, w.owner, id, w.rows[id]);
    PurgeKeeps(w, olderThan, purged);
    RetryAddsOne(Next(w, PurgeOnly(olderThan, purged)), id, now, m);
    AbsentMeansNeverAccepted(w, id);
    if b :| b in w.broker.orders && Matches(w.broker.orders[b], w.rows[id]) {
      assert b !in Purge(w.broker, olderThan, purged).orders;
      assert Purgeable(w.broker.orders[b], olderThan, purged);
    }
  }

  // ---- Orphans under these rules ----

  /** An operator who answers by sight reopens no purged order, so only a bare purge can make an orphan. */
  lemma SightedOrphanFreeIff(w: World, s: Step)
    requires SightedReachable(w) && OrphanFree(w) && Sighted(w, s)
    ensures OrphanFree(Next(w, s))
       <==> (s.PurgeOnly? ==>
               forall id :: id in w.rows ==> !StillNeeded(w.rows[id], w.broker.orders, s.olderThan, s.now))
  {
    SightedIsReachable(w);
    SightedIsEnabled(w, s);
    OrphanFreeIff(w, s);
  }
}
