/** Short runs in which a safeguard is skipped and the guarantee it protects is lost. */
module ExecutionRuns {
  import opened Common
  import opened Lifecycle
  import opened PaperBrokers
  import opened ExecutionStore
  import opened Orchestrator
  import opened Reconciliation
  import opened Execution
  import opened ExecutionSafety
  import opened ExecutionPurge
  import opened ExecutionSight
  import CostTax
  import Sizing
  import Verification

  const CALM := Verification.Conditions(
    CostTax.NO_COSTS, Verification.DEFAULT_MAX_SPREAD, true, Some(Verification.Depth(100.0, 101.0)))

  const PROPOSED := NewProposal("cycle", "X", 1, 100.0, 1)
  const VERIFIED := PROPOSED.(status := Verified, final := Some(1))
  const SENT := VERIFIED.(status := Submitted)
  const WAITING := SENT.(status := Pending, brokerId := Some(0))

  const OPEN := NewOrder("X", 1, 100.0, "cycle", ImmediateFill, DEFAULT_PARAMETERS, 0)
  const DONE := OPEN.(polls := 1, executed := 1, price := Some(100.0), state := Filled)

  function Quiet(answerArrives: bool, secondSave: bool): Moment {
    Moment(0, CALM, true, true, ImmediateFill, DEFAULT_PARAMETERS, answerArrives, secondSave)
  }

  /** One record, as the table and the process hold it, and its one order. */
  function One(row: Row, copy: Row, cash: real, order: Order): World {
    World(map["A" := row], map["A" := copy], Broker(cash, 1, map[0 := order]), map[0 := order], map[0 := "A"])
  }

  function Before(row: Row): World {
    World(map["A" := row], map["A" := row], Broker(1000.0, 0, map[]), map[], map[])
  }

  lemma ApprovedOne(m: Moment)
    requires m.conditions == CALM
    ensures AfterVerification(PROPOSED, 1000.0, m) == VERIFIED
  {
    Sizing.FreeOutlay(100.0);
    assert Verification.MarketAllows(CALM);
    Verification.VerdictMeaning(CALM, 1, 100.0, 1000.0);
  }

  lemma ProcessReaches(w: World, id: string, m: Moment)
    requires Reachable(w) && id in w.memory && 0.0 < m.parameters.ratio <= 1.0
    ensures Reachable(Processing(w, id, m))
  {
    ReachableNext(w, ProcessOrder(id, m));
  }

  lemma ProposedIsReachable()
    ensures Reachable(Before(PROPOSED))
  {
    var s := Create("A", "cycle", "X", 1, 100.0, 1);
    StartReachable(1000.0);
    ReachableNext(Start(1000.0), s);
    assert Next(Start(1000.0), s) == Before(PROPOSED);
  }

  lemma VerifyingOne(m: Moment)
    requires m.conditions == CALM && m.firstSave
    ensures Processing(Before(PROPOSED), "A", m) == Before(VERIFIED)
  {
    ApprovedOne(m);
    var w := Before(PROPOSED);
    var e := DoVerify(w.rows, w.broker, "A", PROPOSED, m);
    assert e.copy == VERIFIED && e.rows == map["A" := VERIFIED];
    assert Process(w.rows, w.broker, "A", PROPOSED, m) == e;
  }

  lemma VerifiedIsReachable()
    ensures Reachable(Before(VERIFIED))
  {
    ProposedIsReachable();
    var m := Quiet(true, true);
    VerifyingOne(m);
    ProcessReaches(Before(PROPOSED), "A", m);
  }

  function Submitting(answerArrives: bool, secondSave: bool): World {
    One(if answerArrives && secondSave then WAITING else SENT, if answerArrives then WAITING else SENT, 1000.0, OPEN)
  }

  lemma SubmittingOne(answerArrives: bool, secondSave: bool)
    ensures Processing(Before(VERIFIED), "A", Quiet(answerArrives, secondSave)) == Submitting(answerArrives, secondSave)
  {
    var w, m := Before(VERIFIED), Quiet(answerArrives, secondSave);
    var e := DoSubmit(w.rows, w.broker, "A", VERIFIED, m);
    assert e.broker == Broker(1000.0, 1, map[0 := OPEN]);
    assert Process(w.rows, w.broker, "A", VERIFIED, m) == e;
  }

  lemma SubmittedIsReachable(answerArrives: bool, secondSave: bool)
    ensures Reachable(Submitting(answerArrives, secondSave))
  {
    VerifiedIsReachable();
    SubmittingOne(answerArrives, secondSave);
    ProcessReaches(Before(VERIFIED), "A", Quiet(answerArrives, secondSave));
  }

  /** The order fills at the broker while the process is not looking. */
  lemma FilledIsReachable(row: Row, copy: Row)
    requires Reachable(One(row, copy, 1000.0, OPEN))
    ensures Reachable(One(row, copy, 900.0, DONE))
  {
    var w := One(row, copy, 1000.0, OPEN);
    ReachableNext(w, PollElsewhere(0));
    assert PollOrder(OPEN) == Answer(DONE, 100.0, false);
    assert Next(w, PollElsewhere(0)) == One(row, copy, 900.0, DONE);
  }

  lemma SweepReaches(w: World, ids: seq<string>, now: int)
    requires Reachable(w) && Distinct(ids) && Covers(ids, w.rows) && forall id :: id in ids ==> id in w.rows
    ensures Reachable(Reconciling(w, ids, now))
    ensures Reachable(WithBroker(Reconciling(w, ids, now), Purge(Reconciling(w, ids, now).broker, None, now)))
  {
    ReachableNext(w, ReconcileSome(ids, now));
    ReachableNext(w, ReconcileThenPurge(ids, None, now));
  }

  const PUZZLED := SENT.(status := Ambiguous)
  const CLOSED := WAITING.(status := Reconciled, executed := 1, price := Some(100.0), checked := Some(1))
  const ASKED := DONE.(polls := 2)

  /** An AMBIGUOUS record whose order was filled and is no longer known to the broker. */
  function ForgottenFill(): World {
    World(map["A" := PUZZLED], map["A" := SENT], Broker(900.0, 1, map[]), map[0 := DONE], map[0 := "A"])
  }

  /** A pass over a record whose answer was lost, after its order was filled. */
  lemma VisitingSent(copy: Row)
    ensures Reconciling(One(SENT, copy, 900.0, DONE), ["A"], 1) == One(PUZZLED, copy, 900.0, DONE)
  {
    var w := One(SENT, copy, 900.0, DONE);
    var start := Pass(w.rows, w.broker);
    assert OpenOrders(w.broker.orders) == map[];
    assert FirstMatch(map[], 0, 1, SENT) == None;
    assert CheckAll(map[], start, ["A"], 1) == CheckOne(map[], CheckAll(map[], start, [], 1), "A", 1);
  }

  /** A pass over a record known to be PENDING, after its order was filled. */
  lemma VisitingWaiting(copy: Row)
    ensures Reconciling(One(WAITING, copy, 900.0, DONE), ["A"], 1) == One(CLOSED, copy, 900.0, ASKED)
  {
    var w := One(WAITING, copy, 900.0, DONE);
    var start := Pass(w.rows, w.broker);
    assert OpenOrders(w.broker.orders) == map[];
    assert CheckAll(map[], start, ["A"], 1) == CheckOne(map[], CheckAll(map[], start, [], 1), "A", 1);
  }

  lemma SweepForgets()
    ensures var v := Reconciling(One(SENT, SENT, 900.0, DONE), ["A"], 1);
            WithBroker(v, Purge(v.broker, None, 1)) == ForgottenFill()
  {
    VisitingSent(SENT);
    assert Purge(Broker(900.0, 1, map[0 := DONE]), None, 1).orders == map[];
  }

  /** Losing the answer leaves AMBIGUOUS, and the purge that follows the reconciliation forgets the filled order. */
  lemma ForgottenFillIsReachable()
    ensures Reachable(ForgottenFill())
  {
    SubmittedIsReachable(false, true);
    FilledIsReachable(SENT, SENT);
    SweepForgets();
    SweepReaches(One(SENT, SENT, 900.0, DONE), ["A"], 1);
  }

  /** An operator who sees no order at the broker and answers VERIFIED then releases a second order for the record. */
  lemma UnseenFillIsBoughtTwice()
    ensures exists w: World, m: Moment ::
              && Reachable(w) && "A" in w.rows && w.rows["A"].status == Ambiguous
              && Absent(w.rows["A"], w.broker.orders) && BoughtTwice(Retried(w, "A", 2, m), "A")
  {
    ForgottenFillIsReachable();
    var w, m := ForgottenFill(), Quiet(true, true);
    assert w.owner[0] == "A";
    ReachableInv(w);
    RetryAddsOne(w, "A", 2, m);
    assert Absent(w.rows["A"], w.broker.orders);
  }

  /** An operator who truthfully answers FILLED with the number of a purged order makes an orphan. */
  lemma ReopeningPurgedMakesOrphan()
    ensures exists w: World, s: Step ::
              Reachable(w) && OrphanFree(w) && Enabled(w, s) && s.Operator? && !OrphanFree(Next(w, s))
  {
    ForgottenFillIsReachable();
    var w := ForgottenFill();
    var how := Resolution(Filled, true, Some(0), Some(1), Some(100.0));
    var s := Operator("A", how, 2);
    assert Owns(w, "A", 0) && Truthful(w, "A", how);
    assert OrphanFree(w);
    OrphanFreeIff(w, s);
    assert !Careful(w, s);
  }

  /** Purging without reconciling first makes an orphan of a record still PENDING. */
  lemma PurgingAloneMakesOrphan()
    ensures exists w: World, s: Step ::
              Reachable(w) && OrphanFree(w) && Enabled(w, s) && s.PurgeOnly? && !OrphanFree(Next(w, s))
  {
    SubmittedIsReachable(true, true);
    FilledIsReachable(WAITING, WAITING);
    var w := One(WAITING, WAITING, 900.0, DONE);
    var s := PurgeOnly(None, 1);
    assert OrphanFree(w);
    OrphanFreeIff(w, s);
    assert Orphan(w.rows["A"], Purge(w.broker, None, 1).orders);
    assert !Careful(w, s);
  }

  lemma StaleIsSaved(row: Row, order: Order)
    requires order == DONE || order == ASKED
    ensures var w, s := One(row, WAITING, 900.0, order), ProcessOrder("A", Quiet(true, true));
            Enabled(w, s) && SavesPoll(w, s, "A")
  {
  }

  /** A record in hand since before the fill, polled after reconciliation closed it, reopens it as FILLED. */
  lemma StaleRecordReopens()
    ensures exists w: World, s: Step ::
              && Reachable(w) && Enabled(w, s) && s.ProcessOrder? && "A" in w.rows
              && w.rows["A"].status == Reconciled && Next(w, s).rows["A"].status != Reconciled
  {
    SubmittedIsReachable(true, true);
    FilledIsReachable(WAITING, WAITING);
    VisitingWaiting(WAITING);
    SweepReaches(One(WAITING, WAITING, 900.0, DONE), ["A"], 1);
    var w, s := One(CLOSED, WAITING, 900.0, ASKED), ProcessOrder("A", Quiet(true, true));
    StaleIsSaved(CLOSED, ASKED);
    assert Reachable(w) && Enabled(w, s);
    StatusChangeIff(w, s, "A");
  }

  /** A record in hand whose last save failed takes its row out of AMBIGUOUS without the operator. */
  lemma StaleRecordLeavesAmbiguous()
    ensures exists w: World, s: Step ::
              && Reachable(w) && Enabled(w, s) && s.ProcessOrder? && "A" in w.rows
              && w.rows["A"].status == Ambiguous && Next(w, s).rows["A"].status != Ambiguous
  {
    SubmittedIsReachable(true, false);
    FilledIsReachable(SENT, WAITING);
    VisitingSent(WAITING);
    SweepReaches(One(SENT, WAITING, 900.0, DONE), ["A"], 1);
    var w, s := One(PUZZLED, WAITING, 900.0, DONE), ProcessOrder("A", Quiet(true, true));
    StaleIsSaved(PUZZLED, DONE);
    assert Reachable(w) && Enabled(w, s);
    AmbiguousLeftIff(w, s, "A");
  }
}
