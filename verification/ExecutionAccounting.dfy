/** Where the broker's cash went: conserved over every run, and equal to the portfolio once all is reconciled. */
module ExecutionAccounting {
  import opened Common
  import opened Sums
  import opened Lifecycle
  import opened PaperBrokers
  import opened ExecutionStore
  import opened Orchestrator
  import opened Reconciliation
  import opened Execution
  import opened ExecutionInvariant
  import opened ExecutionSafety
  import opened PortfolioReconciliation

  function Outlays(book: map<nat, Order>): map<nat, real> {
    map b | b in book :: Spent(book[b])
  }

  /** Cash left plus everything executed at its limit price, over all orders ever accepted. */
  ghost function Funds(w: World): real {
    w.broker.cash + Total(Outlays(w.book))
  }

  lemma SameFunds(w: World, v: World)
    requires v.broker.cash == w.broker.cash && v.book.Keys == w.book.Keys
    requires forall b :: b in w.book ==> Spent(v.book[b]) == Spent(w.book[b])
    ensures Funds(v) == Funds(w)
  {
    assert Outlays(v.book) == Outlays(w.book);
  }

  lemma OneOutlay(book: map<nat, Order>, b: nat, o: Order)
    ensures Total(Outlays(book[b := o]))
         == Total(Outlays(book)) - (if b in book then Spent(book[b]) else 0.0) + Spent(o)
  {
    TotalUpdate(Outlays(book), b, Spent(o));
    assert Outlays(book[b := o]) == Outlays(book)[b := Spent(o)];
  }

  lemma OverlayOne(book: map<nat, Order>, orders: map<nat, Order>, b: nat, o: Order)
    requires book + orders == book
    ensures book + orders[b := o] == book[b := o]
  {
    forall k | k in orders && k != b
      ensures k in book && book[k] == orders[k]
    {
      assert (book + orders)[k] == orders[k];
    }
  }

  lemma Overlays(w: World)
    requires BookInv(w)
    ensures w.book + w.broker.orders == w.book
    ensures forall b :: b in w.broker.orders ==> b in w.book && w.book[b] == w.broker.orders[b] && Sound(w.book[b])
    ensures w.broker.next !in w.book
  {
    TrackedAreSound(w);
    SameBroker(w);
    forall b | b in w.book
      ensures b < w.broker.next
    {
      assert Entry(w.broker, b, w.book[b]);
    }
  }

  lemma PollConserves(w: World, b: nat)
    requires BookInv(w)
    ensures Funds(WithBroker(w, Polled(w.broker, b))) == Funds(w)
  {
    Overlays(w);
    if b in w.broker.orders {
      var a := PollOrder(w.broker.orders[b]);
      PollKeepsSound(w.broker.orders[b]);
      OverlayOne(w.book, w.broker.orders, b, a.order);
      OneOutlay(w.book, b, a.order);
    }
  }

  lemma AcceptConserves(w: World, id: string, o: Order)
    requires BookInv(w) && o.executed == 0
    ensures Funds(Accepted(w, id, o)) == Funds(w)
  {
    Overlays(w);
    if !Refuses(o.scenario) {
      OverlayOne(w.book, w.broker.orders, w.broker.next, o);
      OneOutlay(w.book, w.broker.next, o);
    }
  }

  lemma SubmissionConserves(w: World, id: string, m: Moment)
    requires Inv(w) && id in w.memory && w.memory[id].status == Verified
    ensures Funds(Submission(w, id, m)) == Funds(w)
  {
    IntentKeeps(w, id, m.firstSave);
    AcceptConserves(Written(w, id, w.memory[id].(status := Submitted), m.firstSave), id, OrderFor(w.memory[id], m));
  }

  lemma ProcessConserves(w: World, id: string, m: Moment)
    requires Inv(w) && id in w.memory
    ensures Funds(Processing(w, id, m)) == Funds(w)
  {
    SameBroker(w);
    match w.memory[id].status
    case Verified =>
      SubmissionIsProcessing(w, id, m);
      SubmissionConserves(w, id, m);
    case Pending | PartiallyFilled =>
      AlwaysAnswerable(w, id);
      PollOutcome(w, id, m);
      PollConserves(w, w.memory[id].brokerId.value);
    case _ =>
  }

  lemma UndisturbedSpent(w: World, c: Broker, b: nat)
    requires BookInv(w) && Undisturbed(w.broker, c) && b in w.book
    ensures b in (w.book + c.orders) && Spent((w.book + c.orders)[b]) == Spent(w.book[b])
  {
    assert Entry(w.broker, b, w.book[b]);
  }

  lemma UndisturbedConserves(w: World, c: Broker, rows: Rows)
    requires BookInv(w) && Undisturbed(w.broker, c)
    ensures Funds(WithBroker(w, c).(rows := rows)) == Funds(w)
  {
    var book := w.book + c.orders;
    assert book.Keys == w.book.Keys;
    forall b | b in w.book
      ensures Spent(book[b]) == Spent(w.book[b])
    {
      UndisturbedSpent(w, c, b);
    }
    SameFunds(w, WithBroker(w, c).(rows := rows));
  }

  lemma CancelConserves(w: World, b: nat)
    requires BookInv(w)
    ensures Funds(WithBroker(w, Cancel(w.broker, b))) == Funds(w)
  {
    Overlays(w);
    if b in w.broker.orders {
      var o := CancelOrder(w.broker.orders[b]);
      CancelKeepsSound(w.broker.orders[b]);
      OverlayOne(w.book, w.broker.orders, b, o);
      OneOutlay(w.book, b, o);
    }
  }

  lemma PurgeConserves(w: World, olderThan: Option<int>, now: int)
    requires Inv(w)
    ensures Funds(WithBroker(w, Purge(w.broker, olderThan, now))) == Funds(w)
  {
    TrackedAreSound(w);
    SameFunds(w, WithBroker(w, Purge(w.broker, olderThan, now)));
  }

  lemma NextConserves(w: World, s: Step)
    requires Inv(w) && Enabled(w, s)
    ensures Funds(Next(w, s)) == Funds(w)
  {
    match s
    case ProcessOrder(id, m) => ProcessConserves(w, id, m);
    case ReconcileSome(ids, now) =>
      ReconcilePointwise(Pass(w.rows, w.broker), ids, now);
      UndisturbedConserves(w, Reconciling(w, ids, now).broker, Reconciling(w, ids, now).rows);
    case ReconcileThenPurge(ids, olderThan, now) =>
      ReconcilePointwise(Pass(w.rows, w.broker), ids, now);
      UndisturbedConserves(w, Reconciling(w, ids, now).broker, Reconciling(w, ids, now).rows);
      ReconcilingKeeps(w, ids, now);
      PurgeConserves(Reconciling(w, ids, now), olderThan, now);
    case PurgeOnly(olderThan, now) => PurgeConserves(w, olderThan, now);
    case PollElsewhere(b) => PollConserves(w, b);
    case CancelElsewhere(b) => CancelConserves(w, b);
    case _ =>
  }

  /** Over every run, the cash spent is the executed quantities at their limit prices, purged orders included. */
  lemma {:induction false} CashConserved(w: World, steps: seq<Step>)
    requires Inv(w) && Legal(w, steps)
    ensures Funds(After(w, steps)) == Funds(w)
    decreases |steps|
  {
    if steps != [] {
      NextConserves(w, steps[0]);
      NextKeeps(w, steps[0]);
      CashConserved(Next(w, steps[0]), steps[1..]);
    }
  }

  // ---- The portfolio once everything is reconciled ----

  lemma ReconciledCost(w: World, id: string)
    requires Inv(w) && id in w.rows && w.rows[id].status == Reconciled
    ensures NeverAccepted(w.owner, id) ==> Cost(w.rows[id]) == 0.0
    ensures forall b :: Owns(w, id, b) ==> Cost(w.rows[id]) == Spent(w.book[b])
  {
    var r := w.rows[id];
    assert Consistent(w.book, w.owner, id, r);
    forall b | Owns(w, id, b)
      ensures Cost(r) == Spent(w.book[b])
    {
      assert r.brokerId == Some(b);
      assert Entry(w.broker, b, w.book[b]);
      assert Belongs(w.book[b], w.rows[w.owner[b]]);
    }
  }

  /** The order's record costs what was spent on the order. */
  lemma OwnerPaid(w: World, b: nat)
    requires Inv(w) && b in w.book && forall id :: id in w.rows ==> w.rows[id].status == Reconciled
    ensures b in w.owner && w.owner[b] in w.rows && Cost(w.rows[w.owner[b]]) == Spent(w.book[b])
  {
    assert Belongs(w.book[b], w.rows[w.owner[b]]);
    ReconciledCost(w, w.owner[b]);
    assert Owns(w, w.owner[b], b);
  }

  /** A record no order was accepted for costs nothing. */
  lemma UnownedCostsNothing(w: World, id: string)
    requires Inv(w) && id in w.rows && w.rows[id].status == Reconciled && id !in w.owner.Values
    ensures Cost(w.rows[id]) == 0.0
  {
    ReconciledCost(w, id);
  }

  lemma SpentIsPaid(w: World)
    requires Inv(w) && forall id :: id in w.rows ==> w.rows[id].status == Reconciled
    ensures Total(Outlays(w.book)) == Total(Costs(w.rows))
  {
    var outlays, costs := Outlays(w.book), Costs(w.rows);
    forall b | b in outlays
      ensures w.owner[b] in costs && costs[w.owner[b]] == outlays[b]
    {
      OwnerPaid(w, b);
    }
    forall id | id in costs && id !in w.owner.Values
      ensures costs[id] == 0.0
    {
      UnownedCostsNothing(w, id);
    }
    OwnersDiffer(w);
    TotalRenamed(outlays, w.owner, costs);
  }

  lemma OwnersDiffer(w: World)
    requires Inv(w)
    ensures OneToOne(w.owner) && Outlays(w.book).Keys == w.owner.Keys
  {
  }

  /** Once every record is RECONCILED, the cash that left the broker is the invested value of the rebuilt portfolio. */
  lemma PortfolioMatchesCash(cash: real, steps: seq<Step>, holdings: map<Symbol, Holding>)
    requires Legal(Start(cash), steps)
    requires var w := After(Start(cash), steps);
             && (forall id :: id in w.rows ==> w.rows[id].status == Reconciled)
             && Rebuilt(holdings, w.rows)
    ensures cash - After(Start(cash), steps).broker.cash == Total(Invested(holdings))
  {
    var w := After(Start(cash), steps);
    RunKeeps(Start(cash), steps);
    CashConserved(Start(cash), steps);
    InvestedIsPaid(holdings, w.rows);
    SpentIsPaid(w);
    assert Outlays(map[]) == map[];
  }
}
