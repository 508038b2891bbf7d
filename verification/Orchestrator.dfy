/** One call of `process_order`: the next step of one record, with every point where it can be cut short. */
module Orchestrator {
  import opened Common
  import opened Lifecycle
  import opened PaperBrokers
  import opened ExecutionStore
  import Verification

  /**
   * What the outside world does during one call: whether each save works, whether the process survives until the
   * broker is called, what the broker does with a submission, and whether its answer arrives.
   */
  datatype Moment = Moment(
    now: int, conditions: Verification.Conditions, firstSave: bool, reachesBroker: bool,
    scenario: Scenario, parameters: Parameters, answerArrives: bool, secondSave: bool)

  /** The in-memory record, the table and the broker after the call, and whether the call was cut short. */
  datatype Effect = Effect(copy: Row, rows: Rows, broker: Broker, raised: bool)

  function SaveIf(works: bool, rows: Rows, id: string, r: Row): Rows {
    if works then Upsert(rows, id, r) else rows
  }

  function Process(rows: Rows, broker: Broker, id: string, copy: Row, m: Moment): (e: Effect)
    ensures rows.Keys <= e.rows.Keys <= rows.Keys + {id}
  {
    match copy.status
    case Proposal => DoVerify(rows, broker, id, copy, m)
    case Verified => DoSubmit(rows, broker, id, copy, m)
    case Pending | PartiallyFilled => DoPoll(rows, broker, id, copy, m)
    case _ => Effect(copy, rows, broker, false)
  }

  function AfterVerification(copy: Row, cash: real, m: Moment): Row {
    var verdict := Verification.Verify(m.conditions, copy.proposed, copy.limitPrice, cash);
    if verdict.Refused? then copy.(status := Failed)
    else copy.(status := Verified, final := Some(verdict.quantity))
  }

  function DoVerify(rows: Rows, broker: Broker, id: string, copy: Row, m: Moment): (e: Effect)
    ensures rows.Keys <= e.rows.Keys <= rows.Keys + {id}
  {
    var after := AfterVerification(copy, broker.cash, m);
    Effect(after, SaveIf(m.firstSave, rows, id, after), broker, !m.firstSave)
  }

  /** Python's `or`: a missing or zero final quantity gives way to the proposal. */
  function OrderQuantity(r: Row): int {
    if r.final.Some? && r.final.value != 0 then r.final.value else r.proposed
  }

  function OrderFor(r: Row, m: Moment): Order {
    NewOrder(r.symbol, OrderQuantity(r), r.limitPrice, r.cycle, m.scenario, m.parameters, m.now)
  }

  predicate Answered(m: Moment) {
    !Refuses(m.scenario) && m.answerArrives
  }

  function DoSubmit(rows: Rows, broker: Broker, id: string, copy: Row, m: Moment): (e: Effect)
    ensures rows.Keys <= e.rows.Keys <= rows.Keys + {id}
  {
    var intent := copy.(status := Submitted);
    if !m.firstSave then Effect(intent, rows, broker, true)
    else
      var saved := Upsert(rows, id, intent);
      if !m.reachesBroker then Effect(intent, saved, broker, true)
      else
        var placed := Submit(broker, OrderFor(copy, m));
        if !Answered(m) then Effect(intent, saved, placed, true)
        else
          var pending := intent.(brokerId := Some(broker.next), status := Pending);
          Effect(pending, SaveIf(m.secondSave, saved, id, pending), placed, !m.secondSave)
  }

  function Adopt(copy: Row, o: Order, now: int): Row {
    copy.(status := o.state, executed := o.executed, price := o.price, checked := Some(now))
  }

  function DoPoll(rows: Rows, broker: Broker, id: string, copy: Row, m: Moment): (e: Effect)
    ensures rows.Keys <= e.rows.Keys <= rows.Keys + {id}
  {
    if copy.brokerId.None? then Effect(copy, rows, broker, true)
    else
      var b := copy.brokerId.value;
      var polled := Polled(broker, b);
      if PollRaises(broker, b) then Effect(copy, rows, polled, true)
      else
        var o := polled.orders[b];
        if o.state == copy.status then Effect(copy, rows, polled, false)
        else if !Allowed(copy.status, o.state) then Effect(copy, rows, polled, true)
        else
          var after := Adopt(copy, o, m.now);
          Effect(after, SaveIf(m.firstSave, rows, id, after), polled, !m.firstSave)
  }

  class SubmissionOrchestrator {
    const store: ExecutionStateStore
    const broker: PaperBroker

    constructor (store: ExecutionStateStore, broker: PaperBroker)
      ensures this.store == store && this.broker == broker
    {
      this.store := store;
      this.broker := broker;
    }

    method ProcessOrder(record: ExecutionRecord, m: Moment) returns (raised: bool)
      requires store.Valid()
      modifies record, store, broker
      ensures store.Valid()
      ensures Effect(record.row, store.rows, broker.View(), raised)
           == Process(old(store.rows), old(broker.View()), record.id, old(record.row), m)
    {
      match record.row.status {
        case Proposal => raised := Verify(record, m);
        case Verified => raised := SubmitIntent(record, m);
        case Pending | PartiallyFilled => raised := Poll(record, m);
        case _ => raised := false;
      }
    }

    method Verify(record: ExecutionRecord, m: Moment) returns (raised: bool)
      requires store.Valid() && record.row.status == Proposal
      modifies record, store
      ensures store.Valid()
      ensures Effect(record.row, store.rows, broker.View(), raised)
           == DoVerify(old(store.rows), broker.View(), record.id, old(record.row), m)
    {
      var verdict := Verification.Verify(m.conditions, record.row.proposed, record.row.limitPrice, broker.cash);
      var ok;
      if verdict.Refused? {
        ok := record.TransitionTo(Failed);
      } else {
        ok := record.TransitionTo(Verified);
        record.row := record.row.(final := Some(verdict.quantity));
      }
      var saved := store.SaveExecutionRecord(record.id, record.row, m.firstSave);
      raised := !saved;
    }

    /** The intent is durable before the broker hears of it. */
    method SubmitIntent(record: ExecutionRecord, m: Moment) returns (raised: bool)
      requires store.Valid() && record.row.status == Verified
      modifies record, store, broker
      ensures store.Valid()
      ensures Effect(record.row, store.rows, broker.View(), raised)
           == DoSubmit(old(store.rows), old(broker.View()), record.id, old(record.row), m)
    {
      var quantity := OrderQuantity(record.row);
      var ok := record.TransitionTo(Submitted);
      var saved := store.SaveExecutionRecord(record.id, record.row, m.firstSave);
      if !saved || !m.reachesBroker {
        return true;
      }
      var brokerId := broker.SubmitOrder(record.row.symbol, quantity, record.row.limitPrice, record.row.cycle,
                                         m.scenario, m.parameters, m.now);
      if brokerId.None? || !m.answerArrives {
        return true;
      }
      record.row := record.row.(brokerId := brokerId);
      ok := record.TransitionTo(Pending);
      saved := store.SaveExecutionRecord(record.id, record.row, m.secondSave);
      raised := !saved;
    }

    method Poll(record: ExecutionRecord, m: Moment) returns (raised: bool)
      requires store.Valid()
      modifies record, store, broker
      ensures store.Valid()
      ensures Effect(record.row, store.rows, broker.View(), raised)
           == DoPoll(old(store.rows), old(broker.View()), record.id, old(record.row), m)
    {
      if record.row.brokerId.None? {
        return true;
      }
      var answer := broker.GetOrderStatus(record.row.brokerId.value);
      if answer.None? {
        return true;
      }
      if answer.value.state == record.row.status {
        return false;
      }
      var ok := record.TransitionTo(answer.value.state);
      if !ok {
        return true;
      }
      record.row := Adopt(record.row, answer.value, m.now);
      var saved := store.SaveExecutionRecord(record.id, record.row, m.firstSave);
      raised := !saved;
    }
  }
}
