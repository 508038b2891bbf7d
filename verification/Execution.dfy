/** The execution system as a whole: a durable table, a volatile process, a long-lived broker and an operator. */
module Execution {
  import opened Common
  import opened Lifecycle
  import opened PaperBrokers
  import opened ExecutionStore
  import opened Orchestrator
  import opened Reconciliation

  /**
   * `memory` holds the records the running process has in hand, which may differ from the table. `book` remembers
   * every order the broker ever accepted, purged ones included, and `owner` the record each one was sent for.
   */
  datatype World = World(rows: Rows, memory: Rows, broker: Broker, book: map<nat, Order>, owner: map<nat, string>)

  datatype Step =
    | Create(id: string, cycle: string, symbol: Symbol, proposed: int, limitPrice: real, rank: int)
    | Load(id: string)
    | Crash
    | ProcessOrder(id: string, m: Moment)
    | ReconcileSome(ids: seq<string>, now: int)
    | ReconcileThenPurge(ids: seq<string>, olderThan: Option<int>, now: int)
    | PurgeOnly(olderThan: Option<int>, now: int)
    | Operator(id: string, how: Resolution, now: int)
    | PollElsewhere(brokerId: nat)
    | CancelElsewhere(brokerId: nat)

  function Start(cash: real): World {
    World(map[], map[], Broker(cash, 0, map[]), map[], map[])
  }

  ghost predicate NeverAccepted(owner: map<nat, string>, id: string) {
    forall b :: b in owner ==> owner[b] != id
  }

  predicate Owns(w: World, id: string, b: nat) {
    b in w.owner && b in w.book && w.owner[b] == id
  }

  predicate Reports(how: Resolution, o: Order) {
    Or(how.executed, 0) == o.executed && how.price == o.price
  }

  predicate ReportsNothing(how: Resolution) {
    how.brokerId.None? && how.executed.None? && how.price.None?
  }

  /**
   * The operator has seen the contract notes and confirms what really happened: VERIFIED and FAILED only when the
   * broker never accepted an order for the record, any other state with the order's number and what it executed.
   */
  ghost predicate Truthful(w: World, id: string, how: Resolution) {
    if how.target in {Verified, Failed} || (how.target == Reconciled && how.brokerId.None?) then
      NeverAccepted(w.owner, id) && ReportsNothing(how)
    else if Allowed(Ambiguous, how.target) then
      && how.brokerId.Some? && Owns(w, id, how.brokerId.value)
      && var o := w.book[how.brokerId.value];
         Reports(how, o) && (if how.target == Reconciled then Terminal(o.state) else o.state == how.target)
    else true
  }

  /** What a step needs in order to be taken at all. */
  ghost predicate Possible(w: World, s: Step) {
    match s
    case Create(id, cycle, symbol, _, _, _) =>
      id !in w.rows && forall k :: k in w.rows ==> !(w.rows[k].cycle == cycle && w.rows[k].symbol == symbol)
    case Load(id) => id in w.rows
    case ProcessOrder(id, m) => id in w.memory && 0.0 < m.parameters.ratio <= 1.0
    case ReconcileSome(ids, _) => Distinct(ids) && forall id :: id in ids ==> id in w.rows
    case ReconcileThenPurge(ids, _, _) =>
      Distinct(ids) && Covers(ids, w.rows) && forall id :: id in ids ==> id in w.rows
    case Operator(id, _, _) => id in w.rows
    case _ => true
  }

  /** An operator whose answer is refused can have said anything. */
  ghost predicate Enabled(w: World, s: Step) {
    Possible(w, s) && (s.Operator? && Resolve(w.rows[s.id], s.how, s.now).Some? ==> Truthful(w, s.id, s.how))
  }

  function WithBroker(w: World, b: Broker): World {
    w.(broker := b, book := w.book + b.orders)
  }

  function WithRow(w: World, id: string, r: Row): World {
    w.(rows := Upsert(w.rows, id, r))
  }

  function WithCopy(w: World, id: string, c: Row): World {
    w.(memory := w.memory[id := c])
  }

  function Reconciling(w: World, ids: seq<string>, now: int): World
    requires forall id :: id in ids ==> id in w.rows
  {
    var p := Reconcile(Pass(w.rows, w.broker), ids, now);
    WithBroker(w, p.broker).(rows := p.rows)
  }

  function Processing(w: World, id: string, m: Moment): (v: World)
    requires id in w.memory
    ensures w.rows.Keys <= v.rows.Keys
  {
    var e := Process(w.rows, w.broker, id, w.memory[id], m);
    WithBroker(w, e.broker).(
      rows := e.rows, memory := w.memory[id := e.copy],
      owner := if e.broker.next > w.broker.next then w.owner[w.broker.next := id] else w.owner)
  }

  ghost function Next(w: World, s: Step): (v: World)
    requires Possible(w, s)
    ensures w.rows.Keys <= v.rows.Keys
  {
    match s
    case Create(id, cycle, symbol, proposed, limitPrice, rank) =>
      var r := NewProposal(cycle, symbol, proposed, limitPrice, rank);
      WithCopy(WithRow(w, id, r), id, r)
    case Load(id) => WithCopy(w, id, w.rows[id])
    case Crash => w.(memory := map[])
    case ProcessOrder(id, m) => Processing(w, id, m)
    case ReconcileSome(ids, now) => Reconciling(w, ids, now)
    case ReconcileThenPurge(ids, olderThan, now) =>
      var settled := Reconciling(w, ids, now);
      WithBroker(settled, Purge(settled.broker, olderThan, now))
    case PurgeOnly(olderThan, now) => WithBroker(w, Purge(w.broker, olderThan, now))
    case Operator(id, how, now) =>
      var r := Resolve(w.rows[id], how, now);
      if r.Some? then WithRow(w, id, r.value) else w
    case PollElsewhere(b) => WithBroker(w, Polled(w.broker, b))
    case CancelElsewhere(b) => WithBroker(w, Cancel(w.broker, b))
  }

  ghost predicate Legal(w: World, steps: seq<Step>)
    decreases |steps|
  {
    steps == [] || (Enabled(w, steps[0]) && Legal(Next(w, steps[0]), steps[1..]))
  }

  ghost function After(w: World, steps: seq<Step>): World
    requires Legal(w, steps)
    decreases |steps|
  {
    if steps == [] then w else After(Next(w, steps[0]), steps[1..])
  }

  // ---- The invariant of every run ----

  predicate Untouched(c: Row) {
    c.brokerId.None? && c.executed == 0 && c.price.None?
  }

  predicate Sized(c: Row) {
    c.final.Some? && 1 <= c.final.value <= c.proposed
  }

  predicate SameFill(c: Row, o: Order) {
    c.executed == o.executed && c.price == o.price
  }

  /** The record's status says no more than the order's state does. */
  predicate NotAhead(s: Status, o: Status) {
    match s
    case Pending => true
    case PartiallyFilled => o == PartiallyFilled || Terminal(o)
    case _ => s == o
  }

  /** What a record, durable or in hand, can truthfully say at each status. */
  ghost predicate Consistent(book: map<nat, Order>, owner: map<nat, string>, id: string, c: Row) {
    match c.status
    case Proposal | Failed => NeverAccepted(owner, id) && Untouched(c)
    case Verified => NeverAccepted(owner, id) && Untouched(c) && Sized(c)
    case Submitted | Ambiguous => Untouched(c) && Sized(c)
    case Reconciled =>
      if c.brokerId.None? then NeverAccepted(owner, id) && c.executed == 0
      else
        var b := c.brokerId.value;
        b in owner && b in book && owner[b] == id && Terminal(book[b].state) && SameFill(c, book[b])
    case _ =>
      && c.brokerId.Some?
      && var b := c.brokerId.value;
         && b in owner && b in book && owner[b] == id && NotAhead(c.status, book[b].state)
         && (c.status == book[b].state ==> SameFill(c, book[b]))
  }

  /** A record in hand at PROPOSAL or VERIFIED has not been overtaken by the table. */
  predicate Behind(copy: Status, row: Status) {
    && (copy == Proposal ==> row == Proposal)
    && (copy == Verified ==> row == Proposal || row == Verified)
  }

  predicate Belongs(o: Order, r: Row) {
    o.symbol == r.symbol && o.reference == r.cycle && o.limitPrice == r.limitPrice && o.quantity <= r.proposed
  }

  /** The book agrees with the broker about an order it still tracks, and remembers a purged one as terminal. */
  predicate Entry(broker: Broker, b: nat, o: Order) {
    && b < broker.next && Sound(o)
    && (if b in broker.orders then o == broker.orders[b] else Terminal(o.state))
  }

  ghost predicate BookInv(w: World) {
    && w.book.Keys == w.owner.Keys && w.broker.orders.Keys <= w.book.Keys
    && forall b :: b in w.book ==> Entry(w.broker, b, w.book[b])
  }

  ghost predicate OwnerInv(w: World) {
    && (forall a, b :: a in w.owner && b in w.owner && w.owner[a] == w.owner[b] ==> a == b)
    && (forall b :: b in w.owner ==> b in w.book && w.owner[b] in w.rows && Belongs(w.book[b], w.rows[w.owner[b]]))
  }

  predicate SameOrder(a: Row, b: Row) {
    a.cycle == b.cycle && a.symbol == b.symbol
  }

  ghost predicate RowsInv(w: World) {
    && (forall i, j :: i in w.rows && j in w.rows && i != j ==> !SameOrder(w.rows[i], w.rows[j]))
    && (forall id :: id in w.rows ==> Consistent(w.book, w.owner, id, w.rows[id]))
  }

  ghost predicate CopyInv(w: World, id: string, c: Row) {
    && id in w.rows && SameIdentity(c, w.rows[id]) && Behind(c.status, w.rows[id].status)
    && Consistent(w.book, w.owner, id, c)
  }

  ghost predicate Inv(w: World) {
    BookInv(w) && OwnerInv(w) && RowsInv(w) && forall id :: id in w.memory ==> CopyInv(w, id, w.memory[id])
  }

  // ---- Three elementary changes that keep it ----

  lemma ConsistentLater(w: World, v: World, id: string, c: Row)
    requires Consistent(w.book, w.owner, id, c)
    requires v.owner == w.owner && v.book.Keys == w.book.Keys
    requires forall b :: b in w.book ==> Advances(w.book[b], v.book[b])
    ensures Consistent(v.book, v.owner, id, c)
  {
  }

  /** A broker that lost only terminal orders and otherwise only moved on. */
  predicate MovesOn(b: Broker, c: Broker) {
    && b.next == c.next
    && (forall id :: id in c.orders ==> id in b.orders && Sound(c.orders[id]) && Advances(b.orders[id], c.orders[id]))
    && (forall id :: id in b.orders && id !in c.orders ==> Terminal(b.orders[id].state))
  }

  lemma AdvancesReflexive(o: Order)
    ensures Advances(o, o)
  {
  }

  lemma BookMoves(w: World, c: Broker)
    requires BookInv(w) && MovesOn(w.broker, c)
    ensures var v := WithBroker(w, c);
            BookInv(v) && v.book.Keys == w.book.Keys && forall b :: b in w.book ==> Advances(w.book[b], v.book[b])
  {
    var book := w.book + c.orders;
    assert book.Keys == w.book.Keys;
    forall b | b in w.book
      ensures Entry(c, b, book[b]) && Advances(w.book[b], book[b])
    {
      EntryMoves(w.broker, c, b, w.book[b], book[b]);
    }
  }

  lemma EntryMoves(broker: Broker, c: Broker, b: nat, was: Order, now: Order)
    requires Entry(broker, b, was) && MovesOn(broker, c)
    requires now == if b in c.orders then c.orders[b] else was
    ensures Entry(c, b, now) && Advances(was, now)
  {
    AdvancesReflexive(was);
  }

  lemma OwnersMove(w: World, v: World)
    requires OwnerInv(w) && v.owner == w.owner && v.rows == w.rows && v.book.Keys == w.book.Keys
    requires forall b :: b in w.book ==> Advances(w.book[b], v.book[b])
    ensures OwnerInv(v)
  {
    forall b | b in v.owner
      ensures Belongs(v.book[b], v.rows[v.owner[b]])
    {
      assert Advances(w.book[b], v.book[b]);
    }
  }

  lemma BrokerMoves(w: World, c: Broker)
    requires Inv(w) && MovesOn(w.broker, c)
    ensures Inv(WithBroker(w, c))
    ensures WithBroker(w, c).book.Keys == w.book.Keys
  {
    var v := WithBroker(w, c);
    BookMoves(w, c);
    OwnersMove(w, v);
    forall id | id in w.rows
      ensures Consistent(v.book, v.owner, id, w.rows[id])
    {
      ConsistentLater(w, v, id, w.rows[id]);
    }
    assert RowsInv(v);
    forall id | id in w.memory
      ensures CopyInv(v, id, v.memory[id])
    {
      assert CopyInv(w, id, w.memory[id]);
      ConsistentLater(w, v, id, w.memory[id]);
    }
  }

  lemma OwnersKeepRow(w: World, v: World, id: string)
    requires OwnerInv(w) && id in w.rows && v.owner == w.owner && v.book == w.book && v.rows.Keys == w.rows.Keys
    requires SameIdentity(v.rows[id], w.rows[id]) && forall k :: k in w.rows && k != id ==> v.rows[k] == w.rows[k]
    ensures OwnerInv(v)
  {
  }

  lemma RowsKeepRow(w: World, id: string, r: Row)
    requires RowsInv(w) && id in w.rows && SameIdentity(r, w.rows[id]) && Consistent(w.book, w.owner, id, r)
    ensures RowsInv(w.(rows := w.rows[id := r]))
  {
    var v := w.(rows := w.rows[id := r]);
    forall i, j | i in v.rows && j in v.rows && i != j
      ensures !SameOrder(v.rows[i], v.rows[j])
    {
      assert !SameOrder(w.rows[i], w.rows[j]);
    }
  }

  lemma RowMoves(w: World, id: string, r: Row)
    requires Inv(w) && id in w.rows && SameIdentity(r, w.rows[id]) && Consistent(w.book, w.owner, id, r)
    requires id in w.memory ==> Behind(w.memory[id].status, r.status)
    ensures WithRow(w, id, r) == w.(rows := w.rows[id := r])
    ensures Inv(WithRow(w, id, r))
  {
    SaveThenLoad(w.rows, id, r);
    var v := WithRow(w, id, r);
    assert v.rows == w.rows[id := r];
    OwnersKeepRow(w, v, id);
    RowsKeepRow(w, id, r);
    forall k | k in v.memory
      ensures CopyInv(v, k, v.memory[k])
    {
      assert CopyInv(w, k, w.memory[k]);
    }
  }

  lemma CopyMoves(w: World, id: string, c: Row)
    requires Inv(w) && CopyInv(w, id, c)
    ensures Inv(WithCopy(w, id, c))
  {
    var v := WithCopy(w, id, c);
    forall k | k in v.memory
      ensures CopyInv(v, k, v.memory[k])
    {
      assert k != id ==> CopyInv(w, k, w.memory[k]);
      assert CopyInv(w, id, c);
    }
  }
}
