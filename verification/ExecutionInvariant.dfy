/** Every step of the execution system keeps its invariant. */
module ExecutionInvariant {
  import opened Common
  import opened Lifecycle
  import opened PaperBrokers
  import opened ExecutionStore
  import opened Orchestrator
  import opened Reconciliation
  import opened Execution
  import Verification

  ghost predicate AllSound(b: Broker) {
    forall id :: id in b.orders ==> Sound(b.orders[id])
  }

  lemma TrackedAreSound(w: World)
    requires BookInv(w)
    ensures AllSound(w.broker)
    ensures forall id :: id in w.broker.orders ==> id in w.book && w.book[id] == w.broker.orders[id]
  {
    forall id | id in w.broker.orders
      ensures id in w.book && w.book[id] == w.broker.orders[id] && Sound(w.broker.orders[id])
    {
      assert Entry(w.broker, id, w.book[id]);
    }
  }

  lemma AllReflexive(b: Broker)
    ensures forall id :: id in b.orders ==> Advances(b.orders[id], b.orders[id])
  {
    forall id | id in b.orders
      ensures Advances(b.orders[id], b.orders[id])
    {
      AdvancesReflexive(b.orders[id]);
    }
  }

  lemma PollMoves(b: Broker, id: nat)
    requires AllSound(b)
    ensures MovesOn(b, Polled(b, id)) && (id in b.orders ==> !PollRaises(b, id))
  {
    AllReflexive(b);
    if id in b.orders {
      PollKeepsSound(b.orders[id]);
    }
  }

  lemma CancelMoves(b: Broker, id: nat)
    requires AllSound(b)
    ensures MovesOn(b, Cancel(b, id))
  {
    AllReflexive(b);
    if id in b.orders {
      CancelKeepsSound(b.orders[id]);
    }
  }

  lemma PurgeMoves(b: Broker, olderThan: Option<int>, now: int)
    requires AllSound(b)
    ensures MovesOn(b, Purge(b, olderThan, now))
  {
    AllReflexive(b);
  }

  lemma UndisturbedMoves(b: Broker, c: Broker)
    requires AllSound(b) && Undisturbed(b, c)
    ensures MovesOn(b, c)
  {
    forall id | id in c.orders
      ensures Sound(c.orders[id]) && Advances(b.orders[id], c.orders[id])
    {
      AdvancesReflexive(b.orders[id]);
    }
  }

  lemma SameBroker(w: World)
    requires BookInv(w)
    ensures WithBroker(w, w.broker) == w
  {
    TrackedAreSound(w);
    assert w.book + w.broker.orders == w.book;
  }

  /** The copy in hand changes, and the table follows it if the save works. */
  function Written(w: World, id: string, c: Row, saved: bool): World {
    var v := WithCopy(w, id, c);
    if saved then WithRow(v, id, c) else v
  }

  lemma WrittenKeeps(w: World, id: string, c: Row, saved: bool)
    requires Inv(w) && id in w.memory
    requires SameIdentity(c, w.memory[id]) && Consistent(w.book, w.owner, id, c)
    requires Behind(c.status, w.rows[id].status)
    ensures var v := Written(w, id, c, saved);
            Inv(v) && v.memory == w.memory[id := c] && v.rows == if saved then w.rows[id := c] else w.rows
  {
    assert CopyInv(w, id, w.memory[id]);
    CopyMoves(w, id, c);
    if saved {
      RowMoves(WithCopy(w, id, c), id, c);
    }
  }

  // ---- Verification ----

  lemma VerifyKeeps(w: World, id: string, m: Moment)
    requires Inv(w) && id in w.memory && w.memory[id].status == Proposal
    ensures Inv(Processing(w, id, m))
  {
    var c := w.memory[id];
    assert CopyInv(w, id, c);
    var after := AfterVerification(c, w.broker.cash, m);
    VerdictIsSized(c, w.broker.cash, m);
    WrittenKeeps(w, id, after, m.firstSave);
    SameBroker(w);
    assert Processing(w, id, m) == Written(w, id, after, m.firstSave);
  }

  lemma VerdictIsSized(c: Row, cash: real, m: Moment)
    ensures var after := AfterVerification(c, cash, m);
            SameIdentity(after, c) && (Untouched(c) ==> Untouched(after))
            && (after.status == Failed || (after.status == Verified && Sized(after)))
  {
    var v := Verification.Verify(m.conditions, c.proposed, c.limitPrice, cash);
    if !v.Refused? {
      CountDownIsBounded(m, c, cash);
    }
  }

  lemma CountDownIsBounded(m: Moment, c: Row, cash: real)
    requires c.proposed >= 1
    ensures Verification.AffordableUpTo(m.conditions.costs, c.limitPrice, cash, c.proposed) <= c.proposed
  {
  }

  // ---- Submission ----

  /** The broker accepts an order for a record already durable as SUBMITTED. */
  function Accepted(w: World, id: string, o: Order): World {
    WithBroker(w, Submit(w.broker, o)).(owner := if Refuses(o.scenario) then w.owner else w.owner[w.broker.next := id])
  }

  lemma OthersUnaffected(w: World, v: World, id: string, k: string, c: Row)
    requires Consistent(w.book, w.owner, k, c)
    requires w.broker.next !in w.owner && w.broker.next !in w.book
    requires v.owner == w.owner[w.broker.next := id]
    requires w.broker.next in v.book && forall b :: b in w.book ==> b in v.book && v.book[b] == w.book[b]
    requires k == id ==> c.status == Submitted
    ensures Consistent(v.book, v.owner, k, c)
  {
  }

  lemma AcceptBook(w: World, id: string, o: Order)
    requires BookInv(w) && Fresh(o)
    ensures var v := Accepted(w, id, o);
            && BookInv(v) && v.book == w.book[w.broker.next := o] && v.owner == w.owner[w.broker.next := id]
            && w.broker.next !in w.owner && w.broker.next !in w.book
  {
    TrackedAreSound(w);
    var v := Accepted(w, id, o);
    forall b | b in w.book
      ensures b < w.broker.next
    {
      assert Entry(w.broker, b, w.book[b]);
    }
    assert v.book == w.book[w.broker.next := o];
    forall b | b in v.book
      ensures Entry(v.broker, b, v.book[b])
    {
      assert b in w.book ==> Entry(w.broker, b, w.book[b]);
    }
  }

  lemma AcceptOwners(w: World, v: World, id: string, o: Order)
    requires OwnerInv(w) && NeverAccepted(w.owner, id) && id in w.rows && Belongs(o, w.rows[id])
    requires w.broker.next !in w.owner && v.rows == w.rows
    requires v.book == w.book[w.broker.next := o] && v.owner == w.owner[w.broker.next := id]
    ensures OwnerInv(v)
  {
  }

  lemma AcceptKeeps(w: World, id: string, o: Order)
    requires Inv(w) && id in w.memory && w.rows[id].status == w.memory[id].status == Submitted
    requires NeverAccepted(w.owner, id) && Fresh(o) && Belongs(o, w.rows[id])
    ensures Inv(Accepted(w, id, o))
  {
    var v := Accepted(w, id, o);
    AcceptBook(w, id, o);
    AcceptOwners(w, v, id, o);
    forall k | k in v.rows
      ensures Consistent(v.book, v.owner, k, v.rows[k])
    {
      OthersUnaffected(w, v, id, k, w.rows[k]);
    }
    assert RowsInv(v);
    forall k | k in v.memory
      ensures CopyInv(v, k, v.memory[k])
    {
      assert CopyInv(w, k, w.memory[k]);
      OthersUnaffected(w, v, id, k, w.memory[k]);
    }
  }

  lemma OrderIsFresh(c: Row, m: Moment)
    requires Sized(c) && 0.0 < m.parameters.ratio <= 1.0
    ensures var o := OrderFor(c, m);
            o.quantity == c.final.value && Belongs(o, c) && (!Refuses(m.scenario) ==> Fresh(o))
  {
  }

  lemma IntentKeeps(w: World, id: string, saved: bool)
    requires Inv(w) && id in w.memory && w.memory[id].status == Verified
    ensures var v := Written(w, id, w.memory[id].(status := Submitted), saved);
            && Inv(v) && v.memory[id] == w.memory[id].(status := Submitted)
            && (saved ==> v.rows[id] == v.memory[id])
            && NeverAccepted(v.owner, id) && Sized(w.memory[id])
  {
    assert CopyInv(w, id, w.memory[id]);
    WrittenKeeps(w, id, w.memory[id].(status := Submitted), saved);
  }

  lemma AnswerKeeps(w: World, id: string, b: nat, saved: bool)
    requires Inv(w) && id in w.memory && w.memory[id].status == Submitted
    requires b in w.owner && w.owner[b] == id && w.book[b].state == Pending
    ensures Inv(Written(w, id, w.memory[id].(brokerId := Some(b), status := Pending), saved))
  {
    assert CopyInv(w, id, w.memory[id]);
    assert Entry(w.broker, b, w.book[b]);
    WrittenKeeps(w, id, w.memory[id].(brokerId := Some(b), status := Pending), saved);
  }

  /** Submission is a durable intent, then an acceptance, then a durable answer, cut short anywhere. */
  function Submission(w: World, id: string, m: Moment): World
    requires id in w.memory
  {
    var c := w.memory[id];
    var intent := Written(w, id, c.(status := Submitted), m.firstSave);
    if !m.firstSave || !m.reachesBroker then intent
    else
      var placed := Accepted(intent, id, OrderFor(c, m));
      if !Answered(m) then placed
      else Written(placed, id, c.(brokerId := Some(w.broker.next), status := Pending), m.secondSave)
  }

  lemma SubmissionIsProcessing(w: World, id: string, m: Moment)
    requires Inv(w) && id in w.memory && w.memory[id].status == Verified
    ensures Processing(w, id, m) == Submission(w, id, m)
  {
    SameBroker(w);
    assert w.memory[id := w.memory[id].(status := Submitted)]
             [id := w.memory[id].(brokerId := Some(w.broker.next), status := Pending)]
        == w.memory[id := w.memory[id].(brokerId := Some(w.broker.next), status := Pending)];
  }

  /** From the durable intent onward. */
  lemma PlacingKeeps(w: World, id: string, o: Order, answered: bool, saved: bool)
    requires Inv(w) && id in w.memory && w.rows[id].status == w.memory[id].status == Submitted
    requires NeverAccepted(w.owner, id) && Belongs(o, w.rows[id]) && (!Refuses(o.scenario) ==> Fresh(o))
    requires answered ==> !Refuses(o.scenario)
    ensures var placed := Accepted(w, id, o);
            && Inv(placed) && placed.memory == w.memory
            && (answered ==>
                  Inv(Written(placed, id, w.memory[id].(brokerId := Some(w.broker.next), status := Pending), saved)))
  {
    if Refuses(o.scenario) {
      SameBroker(w);
    } else {
      AcceptKeeps(w, id, o);
      AcceptBook(w, id, o);
      if answered {
        AnswerKeeps(Accepted(w, id, o), id, w.broker.next, saved);
      }
    }
  }

  lemma SubmitKeeps(w: World, id: string, m: Moment)
    requires Inv(w) && id in w.memory && w.memory[id].status == Verified && 0.0 < m.parameters.ratio <= 1.0
    ensures Inv(Submission(w, id, m))
  {
    var c := w.memory[id];
    IntentKeeps(w, id, m.firstSave);
    var intent := Written(w, id, c.(status := Submitted), m.firstSave);
    if m.firstSave && m.reachesBroker {
      OrderIsFresh(c, m);
      assert CopyInv(intent, id, intent.memory[id]);
      assert intent.broker == w.broker;
      PlacingKeeps(intent, id, OrderFor(c, m), Answered(m), m.secondSave);
    }
  }

  // ---- Polling ----

  /** The broker answers, then the copy adopts the answer if it brings news. */
  function Polling(w: World, id: string, b: nat, m: Moment): World
    requires id in w.memory && b in Polled(w.broker, b).orders
  {
    var v := WithBroker(w, Polled(w.broker, b));
    var o := v.broker.orders[b];
    if o.state == w.memory[id].status then v else Written(v, id, Adopt(w.memory[id], o, m.now), m.firstSave)
  }

  /** A status that is not ahead of an order can follow it wherever the order goes. */
  lemma StatusFollows(s: Status, was: Order, now: Order)
    requires NotAhead(s, was.state) && Advances(was, now) && Sound(was) && Sound(now)
    requires s in {Pending, PartiallyFilled}
    ensures now.state != s ==> Allowed(s, now.state)
    ensures now.state in {Pending, PartiallyFilled, Filled, Cancelled}
  {
  }

  lemma AnswerIsTracked(w: World, b: nat)
    requires Inv(w)
    ensures var v := WithBroker(w, Polled(w.broker, b));
            && Inv(v) && (PollRaises(w.broker, b) <==> b !in w.broker.orders)
            && (b in w.broker.orders ==>
                  b in v.broker.orders && v.book[b] == v.broker.orders[b]
                  && Sound(w.broker.orders[b]) && Sound(v.broker.orders[b])
                  && w.book[b] == w.broker.orders[b] && Advances(w.broker.orders[b], v.broker.orders[b]))
  {
    TrackedAreSound(w);
    PollMoves(w.broker, b);
    BrokerMoves(w, Polled(w.broker, b));
  }

  lemma PollAnswers(w: World, id: string, now: int)
    requires Inv(w) && id in w.memory && w.memory[id].status in {Pending, PartiallyFilled}
    ensures w.memory[id].brokerId.Some?
    ensures var b := w.memory[id].brokerId.value;
            var v := WithBroker(w, Polled(w.broker, b));
            && Owns(w, id, b) && Inv(v) && (PollRaises(w.broker, b) <==> b !in w.broker.orders)
            && (b in w.broker.orders ==>
                  b in v.broker.orders
                  && (v.broker.orders[b].state != w.memory[id].status ==>
                        && Allowed(w.memory[id].status, v.broker.orders[b].state)
                        && Consistent(v.book, v.owner, id, Adopt(w.memory[id], v.broker.orders[b], now))))
  {
    assert CopyInv(w, id, w.memory[id]);
    var b := w.memory[id].brokerId.value;
    AnswerIsTracked(w, b);
    if b in w.broker.orders {
      StatusFollows(w.memory[id].status, w.broker.orders[b], Polled(w.broker, b).orders[b]);
    }
  }

  lemma PollEffect(rows: Rows, broker: Broker, id: string, c: Row, m: Moment, b: nat, o: Order)
    requires c.brokerId == Some(b) && b in broker.orders && !PollRaises(broker, b)
    requires o == Polled(broker, b).orders[b] && (o.state != c.status ==> Allowed(c.status, o.state))
    ensures DoPoll(rows, broker, id, c, m)
         == var after := Adopt(c, o, m.now);
            if o.state == c.status then Effect(c, rows, Polled(broker, b), false)
            else Effect(after, SaveIf(m.firstSave, rows, id, after), Polled(broker, b), !m.firstSave)
  {
  }

  lemma PollingIsProcessing(w: World, id: string, m: Moment)
    requires id in w.memory && w.memory[id].status in {Pending, PartiallyFilled}
    requires w.memory[id].brokerId.Some? && WithBroker(w, w.broker) == w
    requires PollRaises(w.broker, w.memory[id].brokerId.value) <==> w.memory[id].brokerId.value !in w.broker.orders
    requires var b := w.memory[id].brokerId.value;
             b in w.broker.orders && Polled(w.broker, b).orders[b].state != w.memory[id].status
             ==> Allowed(w.memory[id].status, Polled(w.broker, b).orders[b].state)
    ensures var b := w.memory[id].brokerId.value;
            Processing(w, id, m) == if b in w.broker.orders then Polling(w, id, b, m) else w
  {
    var b := w.memory[id].brokerId.value;
    if b in w.broker.orders {
      PollEffect(w.rows, w.broker, id, w.memory[id], m, b, Polled(w.broker, b).orders[b]);
    }
    assert w.memory[id := w.memory[id]] == w.memory;
  }

  lemma PollKeeps(w: World, id: string, m: Moment)
    requires Inv(w) && id in w.memory && w.memory[id].status in {Pending, PartiallyFilled}
    ensures Inv(Processing(w, id, m))
  {
    PollAnswers(w, id, m.now);
    SameBroker(w);
    PollingIsProcessing(w, id, m);
    var b := w.memory[id].brokerId.value;
    if b in w.broker.orders {
      var v := WithBroker(w, Polled(w.broker, b));
      var o := v.broker.orders[b];
      if o.state != w.memory[id].status {
        WrittenKeeps(v, id, Adopt(w.memory[id], o, m.now), m.firstSave);
      }
    }
  }

  lemma ProcessingKeeps(w: World, id: string, m: Moment)
    requires Inv(w) && id in w.memory && 0.0 < m.parameters.ratio <= 1.0
    ensures Inv(Processing(w, id, m))
  {
    match w.memory[id].status
    case Proposal => VerifyKeeps(w, id, m);
    case Verified =>
      SubmissionIsProcessing(w, id, m);
      SubmitKeeps(w, id, m);
    case Pending | PartiallyFilled => PollKeeps(w, id, m);
    case _ =>
      SameBroker(w);
      assert w.memory[id := w.memory[id]] == w.memory;
      assert Processing(w, id, m) == w;
  }

  // ---- Reconciliation ----

  /** The one open order that can match a record is the one sent for it. */
  lemma MatchIsOwn(w: World, id: string, b: nat)
    requires Inv(w) && id in w.rows && b in w.broker.orders && Matches(w.broker.orders[b], w.rows[id])
    ensures b in w.book && b in w.owner && w.owner[b] == id && w.book[b] == w.broker.orders[b]
  {
    TrackedAreSound(w);
    var k := w.owner[b];
    assert Belongs(w.book[b], w.rows[k]);
    assert SameOrder(w.rows[k], w.rows[id]);
  }

  lemma UnnumberedStaysConsistent(w: World, id: string, now: int)
    requires Inv(w) && id in w.rows && Relevant(w.rows[id]) && w.rows[id].brokerId.None?
    ensures var open := OpenOrders(w.broker.orders);
            Consistent(w.book, w.owner, id, CheckRow(open, w.broker, w.rows[id], now).row)
  {
    var open := OpenOrders(w.broker.orders);
    var r := w.rows[id];
    assert Consistent(w.book, w.owner, id, r);
    var matched := FirstMatch(open, 0, w.broker.next, r);
    if r.status == Submitted && matched.Some? {
      MatchIsOwn(w, id, matched.value);
      assert Entry(w.broker, matched.value, w.book[matched.value]);
    }
  }

  lemma NumberedStaysConsistent(w: World, id: string, now: int)
    requires Inv(w) && id in w.rows && Relevant(w.rows[id]) && w.rows[id].brokerId.Some?
    ensures var open := OpenOrders(w.broker.orders);
            Consistent(w.book, w.owner, id, CheckRow(open, w.broker, w.rows[id], now).row)
  {
    var r := w.rows[id];
    assert Consistent(w.book, w.owner, id, r);
    var b := r.brokerId.value;
    assert Entry(w.broker, b, w.book[b]);
    SettlesFromOrder(w.broker, r, b, now);
  }

  lemma SettlesFromOrder(broker: Broker, r: Row, b: nat, now: int)
    requires r.brokerId == Some(b)
    ensures var c := CheckNumbered(OpenOrders(broker.orders), broker, r, b, now).row;
            c == r || (&& b in broker.orders && Terminal(broker.orders[b].state)
                       && c.status == Reconciled && c.brokerId == r.brokerId
                       && (if r.status == broker.orders[b].state then c.executed == r.executed && c.price == r.price
                           else SameFill(c, broker.orders[b])))
  {
  }

  lemma CheckKeeps(w: World, id: string, now: int)
    requires Inv(w) && id in w.rows && Relevant(w.rows[id])
    ensures var c := CheckRow(OpenOrders(w.broker.orders), w.broker, w.rows[id], now);
            Inv(WithBroker(WithRow(w, id, c.row), c.broker))
  {
    var c := CheckRow(OpenOrders(w.broker.orders), w.broker, w.rows[id], now);
    if w.rows[id].brokerId.None? {
      UnnumberedStaysConsistent(w, id, now);
    } else {
      NumberedStaysConsistent(w, id, now);
    }
    CheckRowKeepsIdentity(OpenOrders(w.broker.orders), w.broker, w.rows[id], now);
    if id in w.memory {
      assert CopyInv(w, id, w.memory[id]);
    }
    RowMoves(w, id, c.row);
    TrackedAreSound(w);
    CheckRowUndisturbs(w.broker, w.rows[id], now);
    UndisturbedMoves(w.broker, c.broker);
    BrokerMoves(WithRow(w, id, c.row), c.broker);
  }

  lemma {:induction false} ReconcilingKeeps(w: World, ids: seq<string>, now: int)
    requires Inv(w) && Distinct(ids) && forall id :: id in ids ==> id in w.rows
    ensures Inv(Reconciling(w, ids, now))
    decreases |ids|
  {
    var p := Pass(w.rows, w.broker);
    if ids == [] {
      SameBroker(w);
    } else {
      var fewer, last := ids[..|ids| - 1], ids[|ids| - 1];
      assert forall id :: id in fewer ==> id in ids;
      ReconcilingKeeps(w, fewer, now);
      ReconcilePointwise(p, fewer, now);
      ReconcilePointwise(p, ids, now);
      var mid := Reconciling(w, fewer, now);
      UndisturbedOpen(w.broker, mid.broker);
      assert last in ids;
      OneMoreRow(w, ids, now);
      if Relevant(mid.rows[last]) {
        CheckKeeps(mid, last, now);
      }
    }
  }

  lemma BookedOnce(book: map<nat, Order>, earlier: map<nat, Order>, later: map<nat, Order>)
    requires earlier.Keys == later.Keys
    ensures book + earlier + later == book + later
  {
  }

  lemma OneMoreRow(w: World, ids: seq<string>, now: int)
    requires ids != [] && forall id :: id in ids ==> id in w.rows
    requires forall id :: id in ids[..|ids| - 1] ==> id in w.rows
    requires OpenOrders(Reconciling(w, ids[..|ids| - 1], now).broker.orders) == OpenOrders(w.broker.orders)
    requires Reconciling(w, ids[..|ids| - 1], now).broker.orders.Keys == Reconciling(w, ids, now).broker.orders.Keys
    requires ids[|ids| - 1] in w.rows
    ensures var mid, last := Reconciling(w, ids[..|ids| - 1], now), ids[|ids| - 1];
            Reconciling(w, ids, now)
            == if Relevant(mid.rows[last]) then
                 var c := CheckRow(OpenOrders(mid.broker.orders), mid.broker, mid.rows[last], now);
                 WithBroker(WithRow(mid, last, c.row), c.broker)
               else mid
  {
    var mid := Reconciling(w, ids[..|ids| - 1], now);
    var z := Reconciling(w, ids, now);
    BookedOnce(w.book, mid.broker.orders, z.broker.orders);
    var p := Reconcile(Pass(w.rows, w.broker), ids[..|ids| - 1], now);
    assert Reconcile(Pass(w.rows, w.broker), ids, now) == CheckOne(OpenOrders(w.broker.orders), p, ids[|ids| - 1], now);
  }

  // ---- The operator, and every step together ----

  lemma OperatorKeeps(w: World, id: string, how: Resolution, now: int)
    requires Inv(w) && id in w.rows && (Resolve(w.rows[id], how, now).Some? ==> Truthful(w, id, how))
    ensures Resolve(w.rows[id], how, now).Some? ==> Inv(WithRow(w, id, Resolve(w.rows[id], how, now).value))
  {
    var r := w.rows[id];
    assert Consistent(w.book, w.owner, id, r);
    if Resolve(r, how, now).Some? {
      if id in w.memory {
        assert CopyInv(w, id, w.memory[id]);
      }
      RowMoves(w, id, Resolve(r, how, now).value);
    }
  }

  lemma NobodyOwns(w: World, id: string)
    requires OwnerInv(w) && id !in w.rows
    ensures NeverAccepted(w.owner, id)
  {
  }

  lemma NewRowIsAlone(w: World, id: string, r: Row)
    requires RowsInv(w) && id !in w.rows && Consistent(w.book, w.owner, id, r)
    requires forall k :: k in w.rows ==> !SameOrder(w.rows[k], r)
    ensures RowsInv(w.(rows := w.rows[id := r]))
  {
    var v := w.(rows := w.rows[id := r]);
    forall i, j | i in v.rows && j in v.rows && i != j
      ensures !SameOrder(v.rows[i], v.rows[j])
    {
      assert i != id ==> !SameOrder(w.rows[i], r);
      assert j != id ==> !SameOrder(w.rows[j], r);
      assert i != id && j != id ==> !SameOrder(w.rows[i], w.rows[j]);
    }
  }

  lemma OthersKeepNewRow(w: World, id: string, r: Row)
    requires Inv(w) && id !in w.rows
    ensures var v := w.(rows := w.rows[id := r]);
            OwnerInv(v) && forall k :: k in v.memory ==> CopyInv(v, k, v.memory[k])
  {
    var v := w.(rows := w.rows[id := r]);
    assert OwnerInv(v);
    forall k | k in v.memory
      ensures CopyInv(v, k, v.memory[k])
    {
      assert CopyInv(w, k, w.memory[k]);
    }
  }

  lemma CreateKeeps(w: World, id: string, r: Row)
    requires Inv(w) && id !in w.rows && r == NewProposal(r.cycle, r.symbol, r.proposed, r.limitPrice, r.rank)
    requires forall k :: k in w.rows ==> !SameOrder(w.rows[k], r)
    ensures Inv(WithCopy(WithRow(w, id, r), id, r))
  {
    NobodyOwns(w, id);
    NewRowIsAlone(w, id, r);
    OthersKeepNewRow(w, id, r);
    var v := WithRow(w, id, r);
    assert v == w.(rows := w.rows[id := r]);
    CopyMoves(v, id, r);
  }

  lemma PurgeKeeps(w: World, olderThan: Option<int>, now: int)
    requires Inv(w)
    ensures Inv(WithBroker(w, Purge(w.broker, olderThan, now)))
  {
    TrackedAreSound(w);
    PurgeMoves(w.broker, olderThan, now);
    BrokerMoves(w, Purge(w.broker, olderThan, now));
  }

  /** Every enabled step, wherever a crash or a lost answer cuts it short, keeps the invariant. */
  lemma NextKeeps(w: World, s: Step)
    requires Inv(w) && Enabled(w, s)
    ensures Inv(Next(w, s))
  {
    match s
    case Create(id, cycle, symbol, proposed, limitPrice, rank) =>
      CreateKeeps(w, id, NewProposal(cycle, symbol, proposed, limitPrice, rank));
    case Load(id) =>
      assert Consistent(w.book, w.owner, id, w.rows[id]);
      CopyMoves(w, id, w.rows[id]);
    case Crash =>
    case ProcessOrder(id, m) => ProcessingKeeps(w, id, m);
    case ReconcileSome(ids, now) => ReconcilingKeeps(w, ids, now);
    case ReconcileThenPurge(ids, olderThan, now) =>
      ReconcilingKeeps(w, ids, now);
      PurgeKeeps(Reconciling(w, ids, now), olderThan, now);
    case PurgeOnly(olderThan, now) => PurgeKeeps(w, olderThan, now);
    case Operator(id, how, now) => OperatorKeeps(w, id, how, now);
    case PollElsewhere(b) => AnswerIsTracked(w, b);
    case CancelElsewhere(b) =>
      TrackedAreSound(w);
      CancelMoves(w.broker, b);
      BrokerMoves(w, Cancel(w.broker, b));
  }

  lemma {:induction false} RunKeeps(w: World, steps: seq<Step>)
    requires Inv(w) && Legal(w, steps)
    ensures Inv(After(w, steps))
    decreases |steps|
  {
    if steps != [] {
      NextKeeps(w, steps[0]);
      RunKeeps(Next(w, steps[0]), steps[1..]);
    }
  }
}
