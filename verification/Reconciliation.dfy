/** Bringing the durable records into line with the broker. */
module Reconciliation {
  import opened Common
  import opened Lifecycle
  import opened PaperBrokers
  import opened ExecutionStore

  datatype Discrepancy = NoDiscrepancy | StillOpen | StateMismatch | BrokerHasNoRecord | AmbiguousNoLocalId

  /** One record after its check, the broker after being asked, and what was found. */
  datatype Checked = Checked(row: Row, broker: Broker, found: Discrepancy)

  predicate Relevant(r: Row) {
    r.status !in {Reconciled, Proposal, Verified, Ambiguous}
  }

  predicate Matches(o: Order, r: Row) {
    o.reference == r.cycle && o.symbol == r.symbol
  }

  /** The first open order, in submission order, carrying the record's reference and symbol. */
  function FirstMatch(open: map<nat, Order>, from: nat, next: nat, r: Row): (found: Option<nat>)
    ensures match found
            case Some(b) =>
              && from <= b < next && b in open && Matches(open[b], r)
              && (forall k :: from <= k < b && k in open ==> !Matches(open[k], r))
            case None => forall k :: from <= k < next && k in open ==> !Matches(open[k], r)
    decreases next - from
  {
    if from >= next then None
    else if from in open && Matches(open[from], r) then Some(from)
    else FirstMatch(open, from + 1, next, r)
  }

  predicate Final(s: Status) {
    s == Filled || s == Cancelled || s == Failed
  }

  function CheckUnnumbered(open: map<nat, Order>, b: Broker, r: Row, now: int): Checked {
    var matched := FirstMatch(open, 0, b.next, r);
    if matched.Some? then
      var o := open[matched.value];
      Checked(r.(brokerId := matched, status := o.state, executed := o.executed, price := o.price,
                 checked := Some(now)),
              b, StateMismatch)
    else
      Checked(if r.status == Submitted then r.(status := Ambiguous) else r, b, AmbiguousNoLocalId)
  }

  function CheckNumbered(open: map<nat, Order>, b: Broker, r: Row, brokerId: nat, now: int): Checked {
    if brokerId in open then Checked(r, b, StillOpen)
    else
      var asked := Polled(b, brokerId);
      if PollRaises(b, brokerId) then Checked(r, asked, BrokerHasNoRecord)
      else
        var o := asked.orders[brokerId];
        if o.state == r.status then
          Checked(if Final(o.state) then r.(status := Reconciled) else r, asked, NoDiscrepancy)
        else
          Checked(r.(final := if o.executed != 0 then Some(o.executed) else r.final, price := o.price,
                     executed := o.executed, status := if Final(o.state) then Reconciled else o.state,
                     checked := Some(now)),
                  asked, StateMismatch)
  }

  function CheckRow(open: map<nat, Order>, b: Broker, r: Row, now: int): Checked
  {
    if r.status == Failed && r.brokerId.None? then Checked(r.(status := Reconciled), b, NoDiscrepancy)
    else if r.brokerId.None? then CheckUnnumbered(open, b, r, now)
    else CheckNumbered(open, b, r, r.brokerId.value, now)
  }

  // ---- One pass over the table ----

  datatype Pass = Pass(rows: Rows, broker: Broker)

  function CheckOne(open: map<nat, Order>, p: Pass, id: string, now: int): Pass
    requires id in p.rows
  {
    if !Relevant(p.rows[id]) then p
    else
      var c := CheckRow(open, p.broker, p.rows[id], now);
      Pass(Upsert(p.rows, id, c.row), c.broker)
  }

  /** The records named by `ids`, one after the other, against one snapshot of the open orders. */
  function CheckAll(open: map<nat, Order>, p: Pass, ids: seq<string>, now: int): (q: Pass)
    requires forall id :: id in ids ==> id in p.rows
    ensures q.rows.Keys == p.rows.Keys
  {
    if ids == [] then p
    else CheckOne(open, CheckAll(open, p, ids[..|ids| - 1], now), ids[|ids| - 1], now)
  }

  function Reconcile(p: Pass, ids: seq<string>, now: int): Pass
    requires forall id :: id in ids ==> id in p.rows
  {
    CheckAll(OpenOrders(p.broker.orders), p, ids, now)
  }

  predicate Covers(ids: seq<string>, rows: Rows) {
    forall id :: id in rows && Relevant(rows[id]) ==> id in ids
  }

  /** The same broker apart from how often its terminal orders were polled. */
  predicate Undisturbed(b: Broker, c: Broker) {
    && b.cash == c.cash && b.next == c.next && b.orders.Keys == c.orders.Keys
    && forall id :: id in b.orders ==>
         && c.orders[id] == b.orders[id].(polls := c.orders[id].polls)
         && (!Terminal(b.orders[id].state) ==> c.orders[id] == b.orders[id])
  }

  lemma UndisturbedOpen(b: Broker, c: Broker)
    requires Undisturbed(b, c)
    ensures OpenOrders(b.orders) == OpenOrders(c.orders)
  {
  }

  lemma CheckRowUndisturbs(b: Broker, r: Row, now: int)
    ensures Undisturbed(b, CheckRow(OpenOrders(b.orders), b, r, now).broker)
  {
  }

  lemma CheckRowIgnoresPolls(b: Broker, c: Broker, r: Row, now: int)
    requires Undisturbed(b, c)
    ensures var open := OpenOrders(b.orders);
            && CheckRow(open, c, r, now).row == CheckRow(open, b, r, now).row
            && CheckRow(open, c, r, now).found == CheckRow(open, b, r, now).found
  {
  }

  /** What a pass starting from this broker reports of a relevant record. */
  function Finding(b: Broker, r: Row, now: int): Discrepancy {
    CheckRow(OpenOrders(b.orders), b, r, now).found
  }

  function Settled(b: Broker, r: Row, now: int): Row {
    if Relevant(r) then CheckRow(OpenOrders(b.orders), b, r, now).row else r
  }

  lemma CheckRowKeepsIdentity(open: map<nat, Order>, b: Broker, r: Row, now: int)
    ensures SameIdentity(CheckRow(open, b, r, now).row, r)
  {
  }

  /**
   * The order in which records are visited does not matter: each visited record is settled against the broker as
   * it was at the start, the others are untouched, and the broker's orders and cash are as before.
   */
  lemma {:induction false} ReconcilePointwise(p: Pass, ids: seq<string>, now: int)
    requires forall id :: id in ids ==> id in p.rows
    requires Distinct(ids)
    ensures var q := CheckAll(OpenOrders(p.broker.orders), p, ids, now);
            && Undisturbed(p.broker, q.broker)
            && forall id :: id in p.rows ==>
                 q.rows[id] == if id in ids then Settled(p.broker, p.rows[id], now) else p.rows[id]
    decreases |ids|
  {
    if ids != [] {
      var open := OpenOrders(p.broker.orders);
      var fewer, last := ids[..|ids| - 1], ids[|ids| - 1];
      assert ids == fewer + [last];
      assert last in ids && last !in fewer;
      ReconcilePointwise(p, fewer, now);
      var mid := CheckAll(open, p, fewer, now);
      UndisturbedOpen(p.broker, mid.broker);
      CheckRowUndisturbs(mid.broker, mid.rows[last], now);
      CheckRowIgnoresPolls(p.broker, mid.broker, p.rows[last], now);
      CheckRowKeepsIdentity(open, mid.broker, mid.rows[last], now);
      OneMore(open, p, ids, now, mid);
    }
  }

  lemma OneMore(open: map<nat, Order>, p: Pass, ids: seq<string>, now: int, mid: Pass)
    requires forall id :: id in ids ==> id in p.rows
    requires ids != [] && mid == CheckAll(open, p, ids[..|ids| - 1], now)
    ensures var last := ids[|ids| - 1];
            CheckAll(open, p, ids, now).rows
            == mid.rows[last := if Relevant(mid.rows[last]) then CheckRow(open, mid.broker, mid.rows[last], now).row
                                else mid.rows[last]]
  {
    CheckRowKeepsIdentity(open, mid.broker, mid.rows[ids[|ids| - 1]], now);
  }

  lemma SettledAgain(b: Broker, r: Row, now: int, later: int)
    ensures Settled(b, Settled(b, r, now), later) == Settled(b, r, now)
  {
  }

  lemma SettledTwice(b: Broker, c: Broker, r: Row, now: int, later: int)
    requires Undisturbed(b, c)
    ensures Settled(c, Settled(b, r, now), later) == Settled(b, r, now)
  {
    SettledAgain(b, r, now, later);
    SettledIgnoresPolls(b, c, Settled(b, r, now), later);
  }

  lemma SettledIgnoresPolls(b: Broker, c: Broker, r: Row, now: int)
    requires Undisturbed(b, c)
    ensures Settled(c, r, now) == Settled(b, r, now)
  {
    UndisturbedOpen(b, c);
    CheckRowIgnoresPolls(b, c, r, now);
  }

  /** A second pass, at any later time and in any order, changes no record. */
  lemma ReconcileIdempotent(p: Pass, ids: seq<string>, now: int, again: seq<string>, later: int)
    requires Distinct(ids) && Distinct(again)
    requires forall id :: id in ids ==> id in p.rows
    requires forall id :: id in again ==> id in p.rows
    requires Covers(ids, p.rows)
    ensures Reconcile(Reconcile(p, ids, now), again, later).rows == Reconcile(p, ids, now).rows
  {
    ReconcilePointwise(p, ids, now);
    var q := Reconcile(p, ids, now);
    ReconcilePointwise(q, again, later);
    var z := Reconcile(q, again, later);
    forall id | id in p.rows
      ensures z.rows[id] == q.rows[id]
    {
      SettledTwice(p.broker, q.broker, p.rows[id], now, later);
    }
  }

  /** A completed pass leaves a numbered, unresolved record only where its order is open or unknown to the broker. */
  lemma ReconcileSettles(p: Pass, ids: seq<string>, now: int, id: string)
    requires Distinct(ids) && Covers(ids, p.rows)
    requires forall k :: k in ids ==> k in p.rows
    requires id in p.rows
    ensures var r := Reconcile(p, ids, now).rows[id];
            Relevant(r) && r.brokerId.Some? ==>
              r.brokerId.value !in p.broker.orders || !Terminal(p.broker.orders[r.brokerId.value].state)
  {
    ReconcilePointwise(p, ids, now);
  }

  // ---- The operator's way out of AMBIGUOUS ----

  datatype Resolution = Resolution(
    target: Status, explained: bool, brokerId: Option<nat>, executed: Option<int>, price: Option<real>)

  function Or<T>(given: Option<T>, otherwise: T): T {
    if given.Some? then given.value else otherwise
  }

  /** Refused for a record that is not AMBIGUOUS, without notes, or for a state the table does not offer. */
  function Resolve(r: Row, how: Resolution, now: int): Option<Row> {
    if r.status != Ambiguous || !how.explained || !Allowed(Ambiguous, how.target) then None
    else
      Some(r.(status := how.target,
              brokerId := if how.brokerId.Some? then how.brokerId else r.brokerId,
              executed := Or(how.executed, r.executed),
              price := if how.price.Some? then how.price else r.price,
              checked := Some(now)))
  }

  class ReconciliationService {
    const store: ExecutionStateStore
    const broker: PaperBroker

    constructor (store: ExecutionStateStore, broker: PaperBroker)
      ensures this.store == store && this.broker == broker
    {
      this.store := store;
      this.broker := broker;
    }

    /** The unresolved records that have attempted some broker interaction. */
    method FindRelevant() returns (relevant: seq<string>)
      requires store.Valid()
      ensures Distinct(relevant)
      ensures forall id :: id in relevant <==> id in store.rows && Relevant(store.rows[id])
    {
      var unresolved := store.LoadWhere(false);
      relevant := [];
      for i := 0 to |unresolved|
        invariant Distinct(relevant)
        invariant forall id :: id in relevant <==> id in unresolved[..i] && Relevant(store.rows[id])
      {
        assert unresolved[..i + 1] == unresolved[..i] + [unresolved[i]];
        assert unresolved[i] !in unresolved[..i];
        if store.rows[unresolved[i]].status !in {Proposal, Verified, Ambiguous} {
          relevant := relevant + [unresolved[i]];
        }
      }
      assert unresolved[..|unresolved|] == unresolved;
    }

    method ReconcileAll(now: int) returns (visited: seq<string>, outcomes: seq<Discrepancy>)
      requires store.Valid()
      modifies store, broker
      ensures store.Valid()
      ensures Distinct(visited) && (forall id :: id in visited ==> id in old(store.rows))
      ensures Covers(visited, old(store.rows)) && |outcomes| == |visited|
      ensures Pass(store.rows, broker.View()) == Reconcile(Pass(old(store.rows), old(broker.View())), visited, now)
      ensures forall i :: 0 <= i < |visited| ==>
                outcomes[i] == Finding(old(broker.View()), old(store.rows)[visited[i]], now)
    {
      visited := FindRelevant();
      var open := broker.GetOpenOrders();
      outcomes := ReconcileEach(visited, open, now);
    }

    method ReconcileEach(relevant: seq<string>, open: map<nat, Order>, now: int) returns (outcomes: seq<Discrepancy>)
      requires store.Valid() && Distinct(relevant) && open == OpenOrders(broker.View().orders)
      requires forall id :: id in relevant ==> id in store.rows && Relevant(store.rows[id])
      modifies store, broker
      ensures store.Valid() && |outcomes| == |relevant|
      ensures Pass(store.rows, broker.View())
           == CheckAll(open, Pass(old(store.rows), old(broker.View())), relevant, now)
      ensures forall i :: 0 <= i < |relevant| ==>
                outcomes[i] == Finding(old(broker.View()), old(store.rows)[relevant[i]], now)
    {
      outcomes := [];
      ghost var start := Pass(store.rows, broker.View());
      for i := 0 to |relevant|
        invariant store.Valid() && |outcomes| == i
        invariant Pass(store.rows, broker.View()) == CheckAll(open, start, relevant[..i], now)
        invariant forall j :: 0 <= j < i ==> outcomes[j] == Finding(start.broker, start.rows[relevant[j]], now)
      {
        NextVisited(start, relevant, i, now, Pass(store.rows, broker.View()));
        var outcome := ReconcileOne(relevant[i], open, now);
        outcomes := outcomes + [outcome];
      }
      assert relevant[..|relevant|] == relevant;
    }

    method ReconcileOne(id: string, open: map<nat, Order>, now: int) returns (found: Discrepancy)
      requires store.Valid() && id in store.rows
      modifies store, broker
      ensures store.Valid()
      ensures var c := CheckRow(open, old(broker.View()), old(store.rows)[id], now);
              found == c.found && broker.View() == c.broker && store.rows == Upsert(old(store.rows), id, c.row)
    {
      var r := store.rows[id];
      found := NoDiscrepancy;
      if r.status == Failed && r.brokerId.None? {
        var _ := store.SaveExecutionRecord(id, r.(status := Reconciled), true);
      } else if r.brokerId.None? {
        found := CheckWithoutNumber(id, open, now);
      } else {
        found := CheckWithNumber(id, r.brokerId.value, open, now);
      }
    }

    method CheckWithoutNumber(id: string, open: map<nat, Order>, now: int) returns (found: Discrepancy)
      requires store.Valid() && id in store.rows
      modifies store
      ensures store.Valid()
      ensures var c := CheckUnnumbered(open, broker.View(), old(store.rows)[id], now);
              found == c.found && broker.View() == c.broker && store.rows == Upsert(old(store.rows), id, c.row)
    {
      var r := store.rows[id];
      var matched := FirstMatch(open, 0, broker.next, r);
      if matched.Some? {
        var o := open[matched.value];
        r := r.(brokerId := matched, status := o.state, executed := o.executed, price := o.price, checked := Some(now));
        var _ := store.SaveExecutionRecord(id, r, true);
        return StateMismatch;
      }
      if r.status == Submitted {
        var _ := store.SaveExecutionRecord(id, r.(status := Ambiguous), true);
      }
      found := AmbiguousNoLocalId;
    }

    method CheckWithNumber(id: string, brokerId: nat, open: map<nat, Order>, now: int) returns (found: Discrepancy)
      requires store.Valid() && id in store.rows
      modifies store, broker
      ensures store.Valid()
      ensures var c := CheckNumbered(open, old(broker.View()), old(store.rows)[id], brokerId, now);
              found == c.found && broker.View() == c.broker && store.rows == Upsert(old(store.rows), id, c.row)
    {
      if brokerId in open {
        return StillOpen;
      }
      var r := store.rows[id];
      var answer := broker.GetOrderStatus(brokerId);
      if answer.None? {
        return BrokerHasNoRecord;
      }
      var o := answer.value;
      if o.state == r.status {
        if Final(o.state) {
          var _ := store.SaveExecutionRecord(id, r.(status := Reconciled), true);
        }
        return NoDiscrepancy;
      }
      r := r.(final := if o.executed != 0 then Some(o.executed) else r.final, price := o.price, executed := o.executed,
              status := if Final(o.state) then Reconciled else o.state, checked := Some(now));
      var _ := store.SaveExecutionRecord(id, r, true);
      found := StateMismatch;
    }

    method ResolveAmbiguousExecution(id: string, how: Resolution, now: int) returns (resolved: bool)
      requires store.Valid()
      modifies store
      ensures store.Valid()
      ensures resolved == (id in old(store.rows) && Resolve(old(store.rows)[id], how, now).Some?)
      ensures store.rows
           == if resolved then Upsert(old(store.rows), id, Resolve(old(store.rows)[id], how, now).value)
              else old(store.rows)
    {
      var loaded := store.LoadExecutionRecord(id);
      if loaded.None? || loaded.value.status != Ambiguous || !how.explained {
        return false;
      }
      var record := new ExecutionRecord(id, loaded.value);
      var ok := record.TransitionTo(how.target);
      if !ok {
        return false;
      }
      var r := record.row;
      if how.brokerId.Some? {
        r := r.(brokerId := how.brokerId);
      }
      if how.executed.Some? {
        r := r.(executed := how.executed.value);
      }
      if how.price.Some? {
        r := r.(price := how.price);
      }
      resolved := store.SaveExecutionRecord(id, r.(checked := Some(now)), true);
    }
  }

  /** The next record of a pass is still relevant, as the pass found it, and its finding is the one at the start. */
  lemma NextVisited(start: Pass, relevant: seq<string>, i: nat, now: int, mid: Pass)
    requires i < |relevant| && Distinct(relevant)
    requires forall id :: id in relevant ==> id in start.rows && Relevant(start.rows[id])
    requires mid == CheckAll(OpenOrders(start.broker.orders), start, relevant[..i], now)
    ensures relevant[i] in mid.rows
    ensures var open, id := OpenOrders(start.broker.orders), relevant[i];
            var c := CheckRow(open, mid.broker, mid.rows[id], now);
            && CheckAll(open, start, relevant[..i + 1], now) == Pass(Upsert(mid.rows, id, c.row), c.broker)
            && c.found == Finding(start.broker, start.rows[id], now)
  {
    ReconcilePointwise(start, relevant[..i], now);
    assert relevant[i] in relevant && relevant[i] !in relevant[..i];
    assert relevant[..i + 1][..i] == relevant[..i];
    assert relevant[..i + 1] == relevant[..i] + [relevant[i]];
    CheckRowIgnoresPolls(start.broker, mid.broker, start.rows[relevant[i]], now);
  }
}
