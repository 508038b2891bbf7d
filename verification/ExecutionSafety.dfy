/** What every run of the execution system guarantees, and exactly where a guarantee ends. */
module ExecutionSafety {
  import opened Common
  import opened Lifecycle
  import opened PaperBrokers
  import opened ExecutionStore
  import opened Orchestrator
  import opened Reconciliation
  import opened Execution
  import opened ExecutionInvariant

  /** Some run from an empty system leads here. */
  ghost predicate Reachable(w: World) {
    exists cash: real, steps: seq<Step> :: RunTo(cash, steps, w)
  }

  ghost predicate RunTo(cash: real, steps: seq<Step>, w: World) {
    Legal(Start(cash), steps) && After(Start(cash), steps) == w
  }

  lemma {:induction false} RunExtends(w: World, steps: seq<Step>, s: Step)
    requires Legal(w, steps) && Enabled(After(w, steps), s)
    ensures Legal(w, steps + [s]) && After(w, steps + [s]) == Next(After(w, steps), s)
    decreases |steps|
  {
    if steps == [] {
      assert steps + [s] == [s];
    } else {
      RunExtends(Next(w, steps[0]), steps[1..], s);
      assert (steps + [s])[1..] == steps[1..] + [s];
    }
  }

  lemma StartReachable(cash: real)
    ensures Reachable(Start(cash))
  {
    assert RunTo(cash, [], Start(cash));
  }

  lemma ReachableNext(w: World, s: Step)
    requires Reachable(w) && Enabled(w, s)
    ensures Reachable(Next(w, s))
  {
    var cash, steps :| RunTo(cash, steps, w);
    RunExtends(Start(cash), steps, s);
    assert RunTo(cash, steps + [s], Next(w, s));
  }

  lemma ReachableInv(w: World)
    requires Reachable(w)
    ensures Inv(w)
  {
    var cash, steps :| RunTo(cash, steps, w);
    RunKeeps(Start(cash), steps);
  }

  // ---- At most one order per record ----

  predicate BeforeSubmission(s: Status) {
    s in {Proposal, Verified, Failed}
  }

  /** At most one accepted order per record, durable past VERIFIED, on the record's terms and within its proposal. */
  ghost predicate OneOrderPerRecord(w: World) {
    && (forall a, b :: a in w.owner && b in w.owner && w.owner[a] == w.owner[b] ==> a == b)
    && forall b :: b in w.owner ==>
         && b in w.book && w.owner[b] in w.rows && Belongs(w.book[b], w.rows[w.owner[b]])
         && !BeforeSubmission(w.rows[w.owner[b]].status)
         && (w.owner[b] in w.memory ==> !BeforeSubmission(w.memory[w.owner[b]].status))
  }

  lemma OneOrder(w: World)
    requires Inv(w)
    ensures OneOrderPerRecord(w)
  {
    forall b | b in w.owner
      ensures w.owner[b] in w.rows && !BeforeSubmission(w.rows[w.owner[b]].status)
      ensures w.owner[b] in w.memory ==> !BeforeSubmission(w.memory[w.owner[b]].status)
    {
      var id := w.owner[b];
      assert Consistent(w.book, w.owner, id, w.rows[id]);
      if id in w.memory {
        assert CopyInv(w, id, w.memory[id]);
      }
    }
  }

  /** Whatever is purged, while every operator knows what the broker accepted. */
  lemma AtMostOnceIfTruthful(w: World)
    requires Reachable(w)
    ensures OneOrderPerRecord(w)
  {
    ReachableInv(w);
    OneOrder(w);
  }

  // ---- Polling never meets an impossible transition ----

  function PollTarget(w: World, id: string): Status
    requires id in w.memory && w.memory[id].brokerId.Some? && w.memory[id].brokerId.value in w.broker.orders
  {
    Polled(w.broker, w.memory[id].brokerId.value).orders[w.memory[id].brokerId.value].state
  }

  predicate Answerable(w: World, id: string) {
    && id in w.memory && w.memory[id].status in {Pending, PartiallyFilled} && w.memory[id].brokerId.Some?
    && (w.memory[id].brokerId.value in w.broker.orders ==>
          && !PollRaises(w.broker, w.memory[id].brokerId.value)
          && (PollTarget(w, id) != w.memory[id].status ==> Allowed(w.memory[id].status, PollTarget(w, id))))
  }

  lemma AlwaysAnswerable(w: World, id: string)
    requires Inv(w) && id in w.memory && w.memory[id].status in {Pending, PartiallyFilled}
    ensures Answerable(w, id)
  {
    PollAnswers(w, id, 0);
  }

  lemma PollOutcome(w: World, id: string, m: Moment)
    requires Answerable(w, id)
    ensures var e, c := Process(w.rows, w.broker, id, w.memory[id], m), w.memory[id];
            && e.broker == Polled(w.broker, c.brokerId.value) && e.copy.brokerId == c.brokerId
            && if c.brokerId.value !in w.broker.orders then e.rows == w.rows && e.raised
               else if PollTarget(w, id) == c.status then e.rows == w.rows && !e.raised
               else e.raised == !m.firstSave && e.copy.status == PollTarget(w, id)
                     && e.rows == SaveIf(m.firstSave, w.rows, id, e.copy)
  {
    var b := w.memory[id].brokerId.value;
    if b in w.broker.orders {
      PollEffect(w.rows, w.broker, id, w.memory[id], m, b, Polled(w.broker, b).orders[b]);
    }
  }

  /** A poll raises exactly when the order was purged or a needed save fails, never on the lifecycle table. */
  lemma PollRaisesIff(w: World, id: string, m: Moment)
    requires Reachable(w) && id in w.memory && w.memory[id].status in {Pending, PartiallyFilled}
    ensures w.memory[id].brokerId.Some?
    ensures Process(w.rows, w.broker, id, w.memory[id], m).raised
       <==> w.memory[id].brokerId.value !in w.broker.orders
            || (!m.firstSave && PollTarget(w, id) != w.memory[id].status)
  {
    ReachableInv(w);
    AlwaysAnswerable(w, id);
    PollOutcome(w, id, m);
  }

  // ---- Durable status changes ----

  /** A record in hand, out of date, is about to be polled and saved over what the table holds. */
  predicate SavesPoll(w: World, s: Step, id: string) {
    && s.ProcessOrder? && s.id == id && s.m.firstSave && id in w.memory
    && w.memory[id].status in {Pending, PartiallyFilled} && w.memory[id].brokerId.Some?
    && var b := w.memory[id].brokerId.value;
       b in w.broker.orders && Polled(w.broker, b).orders[b].state != w.memory[id].status
  }

  lemma EarlyStatus(w: World, id: string, m: Moment)
    requires Inv(w) && id in w.memory && id in w.rows && w.memory[id].status !in {Pending, PartiallyFilled}
    ensures var s, was := Processing(w, id, m).rows[id].status, w.rows[id].status;
            s == was || (was in {Proposal, Verified} && s in Onward(was))
  {
    assert CopyInv(w, id, w.memory[id]);
  }

  lemma LateStatus(w: World, id: string, m: Moment)
    requires Inv(w) && id in w.memory && id in w.rows && w.memory[id].status in {Pending, PartiallyFilled}
    ensures Processing(w, id, m).rows[id].status
         == if SavesPoll(w, ProcessOrder(id, m), id) then PollTarget(w, id) else w.rows[id].status
  {
    AlwaysAnswerable(w, id);
    PollOutcome(w, id, m);
  }

  lemma ProcessLeavesOthers(w: World, id: string, m: Moment, k: string)
    requires id in w.memory && k in w.rows && k != id
    ensures Processing(w, id, m).rows[k] == w.rows[k]
  {
  }

  lemma TracksOwnOrder(book: map<nat, Order>, owner: map<nat, string>, id: string, r: Row, b: nat)
    requires Consistent(book, owner, id, r) && b in owner && b in book && owner[b] == id
    requires forall a :: a in owner && owner[a] == id ==> a == b
    ensures Tracks(r.status, book[b].state)
  {
  }

  lemma RowTracksOrder(w: World, id: string, b: nat)
    requires Inv(w) && id in w.rows && Owns(w, id, b)
    ensures Tracks(w.rows[id].status, w.book[b].state)
  {
    TracksOwnOrder(w.book, w.owner, id, w.rows[id], b);
  }

  /** The statuses a row can have once its order was accepted. */
  predicate Tracks(s: Status, o: Status) {
    s in {Submitted, Ambiguous, Reconciled} || (s in {Pending, PartiallyFilled, Filled, Cancelled} && NotAhead(s, o))
  }

  lemma InHand(w: World, id: string)
    requires Inv(w) && id in w.memory && w.memory[id].status in {Pending, PartiallyFilled}
    ensures w.memory[id].brokerId.Some?
    ensures var b := w.memory[id].brokerId.value;
            && Owns(w, id, b) && NotAhead(w.memory[id].status, w.book[b].state)
            && (b in w.broker.orders ==>
                  var now := Polled(w.broker, b).orders[b];
                  Sound(w.book[b]) && Sound(now) && Advances(w.book[b], now))
  {
    assert CopyInv(w, id, w.memory[id]);
    AnswerIsTracked(w, w.memory[id].brokerId.value);
  }

  lemma ForwardOnly(row: Status, copy: Status, was: Order, now: Order)
    requires Tracks(row, was.state) && NotAhead(copy, was.state) && copy in {Pending, PartiallyFilled}
    requires Sound(was) && Sound(now) && Advances(was, now) && now.state != copy
    ensures now.state in {PartiallyFilled, Filled, Cancelled}
    ensures row == Reconciled || now.state == row || now.state in Onward(row)
  {
  }

  /** Where a saved poll can take the row: never backwards, except over RECONCILED. */
  lemma PolledStatus(w: World, s: Step, id: string)
    requires Inv(w) && id in w.rows && SavesPoll(w, s, id)
    ensures var target, was := PollTarget(w, id), w.rows[id].status;
            && target in {PartiallyFilled, Filled, Cancelled}
            && (was == Reconciled || target == was || target in Onward(was))
  {
    InHand(w, id);
    var b := w.memory[id].brokerId.value;
    RowTracksOrder(w, id, b);
    ForwardOnly(w.rows[id].status, w.memory[id].status, w.book[b], Polled(w.broker, b).orders[b]);
  }

  lemma SettledStatus(w: World, id: string, now: int)
    requires Inv(w) && id in w.rows
    ensures var s, was := Settled(w.broker, w.rows[id], now).status, w.rows[id].status;
            (s == was || s in Onward(was)) && (was in {Ambiguous, Proposal, Verified, Reconciled} ==> s == was)
  {
    var r := w.rows[id];
    assert Consistent(w.book, w.owner, id, r);
    TrackedAreSound(w);
  }

  /** How a step may change one row's status. */
  predicate Explained(w: World, s: Step, id: string, was: Status, to: Status) {
    if SavesPoll(w, s, id) then
      && to in {PartiallyFilled, Filled, Cancelled}
      && (was == Reconciled || to == was || to in Onward(was))
    else
      && (to == was || to in Onward(was))
      && (was == Ambiguous && to != was ==> s.Operator? && s.id == id)
  }

  lemma ProcessExplained(w: World, k: string, m: Moment, id: string)
    requires Inv(w) && k in w.memory && id in w.rows
    ensures Explained(w, ProcessOrder(k, m), id, w.rows[id].status, Processing(w, k, m).rows[id].status)
  {
    if k != id {
      ProcessLeavesOthers(w, k, m, id);
    } else if w.memory[id].status in {Pending, PartiallyFilled} {
      LateStatus(w, id, m);
      if SavesPoll(w, ProcessOrder(id, m), id) {
        PolledStatus(w, ProcessOrder(id, m), id);
      }
    } else {
      EarlyStatus(w, id, m);
    }
  }

  lemma PassExplained(w: World, ids: seq<string>, now: int, s: Step, id: string)
    requires Inv(w) && id in w.rows && Distinct(ids) && (forall k :: k in ids ==> k in w.rows)
    requires !s.ProcessOrder?
    ensures Explained(w, s, id, w.rows[id].status, Reconciling(w, ids, now).rows[id].status)
  {
    ReconcilePointwise(Pass(w.rows, w.broker), ids, now);
    SettledStatus(w, id, now);
  }

  lemma OperatorExplained(w: World, k: string, how: Resolution, now: int, id: string)
    requires k in w.rows && id in w.rows
    ensures Explained(w, Operator(k, how, now), id, w.rows[id].status, Next(w, Operator(k, how, now)).rows[id].status)
  {
  }

  lemma IdleExplained(w: World, s: Step, id: string)
    requires Enabled(w, s) && id in w.rows
    requires s.Create? || s.Load? || s.Crash? || s.PurgeOnly? || s.PollElsewhere? || s.CancelElsewhere?
    ensures Next(w, s).rows[id] == w.rows[id]
  {
  }

  lemma PurgeIsQuiet(w: World, ids: seq<string>, olderThan: Option<int>, now: int)
    requires Enabled(w, ReconcileThenPurge(ids, olderThan, now))
    ensures Next(w, ReconcileThenPurge(ids, olderThan, now)).rows == Reconciling(w, ids, now).rows
  {
  }

  /** What each kind of step does to one row's status. */
  lemma StatusAfter(w: World, s: Step, id: string)
    requires Inv(w) && Enabled(w, s) && id in w.rows
    ensures Explained(w, s, id, w.rows[id].status, Next(w, s).rows[id].status)
  {
    if s.ProcessOrder? {
      ProcessExplained(w, s.id, s.m, id);
    } else if s.ReconcileSome? {
      PassExplained(w, s.ids, s.now, s, id);
    } else if s.ReconcileThenPurge? {
      PassExplained(w, s.ids, s.now, s, id);
      PurgeIsQuiet(w, s.ids, s.olderThan, s.now);
    } else if s.Operator? {
      OperatorExplained(w, s.id, s.how, s.now, id);
    } else {
      IdleExplained(w, s, id);
    }
  }

  lemma ExplainedByTable(w: World, s: Step, id: string, was: Status, to: Status)
    requires Explained(w, s, id, was, to)
    ensures (to == was || Reaches(was, to)) <==> !(SavesPoll(w, s, id) && was == Reconciled)
  {
    ReachesIff(was, to);
  }

  /**
   * A step changes a durable status only along the transitive closure of the lifecycle table, although
   * reconciliation assigns statuses directly; the one exception is a stale record in hand saved over RECONCILED.
   */
  lemma StatusChangeIff(w: World, s: Step, id: string)
    requires Reachable(w) && Enabled(w, s) && id in w.rows
    ensures var to, was := Next(w, s).rows[id].status, w.rows[id].status;
            (to == was || Reaches(was, to)) <==> !(SavesPoll(w, s, id) && was == Reconciled)
  {
    ReachableInv(w);
    StatusAfter(w, s, id);
    ExplainedByTable(w, s, id, w.rows[id].status, Next(w, s).rows[id].status);
  }

  /** Only the operator, or a stale record in hand, takes a record out of AMBIGUOUS. */
  lemma AmbiguousLeftIff(w: World, s: Step, id: string)
    requires Reachable(w) && Enabled(w, s) && id in w.rows && w.rows[id].status == Ambiguous
    ensures Next(w, s).rows[id].status != Ambiguous
       <==> SavesPoll(w, s, id) || (s.Operator? && s.id == id && Resolve(w.rows[id], s.how, s.now).Some?)
  {
    ReachableInv(w);
    StatusAfter(w, s, id);
  }

  /** A process that works on freshly loaded records meets neither exception. */
  lemma FreshRecordsAreSafe(w: World, s: Step, id: string)
    requires Reachable(w) && Enabled(w, s) && id in w.rows
    requires s.ProcessOrder? && s.id == id ==> w.memory[id] == w.rows[id]
    ensures var to, was := Next(w, s).rows[id].status, w.rows[id].status;
            && (to == was || Reaches(was, to))
            && (was == Ambiguous && to != was ==> s.Operator? && s.id == id)
  {
    StatusChangeIff(w, s, id);
    ReachableInv(w);
    StatusAfter(w, s, id);
  }
}
