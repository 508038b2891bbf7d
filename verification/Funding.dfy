/** The monthly funding workflow: one short run a day, state saved before anything leaves the process. */
module Funding {
  import opened Common
  import opened Allocator

  /** Months are numbered, so that a later month is a larger number. */
  datatype Date = Date(month: int, day: int)

  predicate NotAfter(a: Date, b: Date) {
    a.month < b.month || (a.month == b.month && a.day <= b.day)
  }

  datatype Progress = AwaitingFunds | Executing | Idle

  datatype State = State(
    month: int, progress: Progress, reminded: bool, lastCheck: Option<Date>, paused: bool, discontinued: bool)

  datatype Command = Pause | Resume | Discontinue

  datatype Source = RecurringMonthly | LumpSum | NoSource

  datatype Pool = Pool(existing: real, incoming: real, source: Source)

  /** What leaves the process: a notice of the month's expected contribution, a reminder that funds are absent. */
  datatype Message = Notice(month: int) | Reminder(month: int)

  /** Everything one daily run reads. */
  datatype Day = Day(
    date: Date, commands: seq<Command>, pool: Pool, tradingDay: bool,
    pricing: Pricing, current: map<Symbol, real>, target: map<Symbol, real>)

  /** Where a run dies, if it does. */
  datatype Cut = BeforeSave | AfterSave | AfterNotice | AfterMessages | BeforeLastSave | Never

  datatype CycleResult = CycleResult(
    orders: seq<BuyOrder>, cycle: Option<(int, Source)>, progress: Progress, deferred: bool)

  function NewMonth(month: int, paused: bool, discontinued: bool): State {
    State(month, AwaitingFunds, false, None, paused, discontinued)
  }

  // ---- The policy ----

  function Obey(s: State, c: Command): State {
    match c
    case Pause => s.(paused := true)
    case Resume => s.(paused := false)
    case Discontinue => s.(discontinued := true)
  }

  function ObeyAll(s: State, commands: seq<Command>): State {
    if commands == [] then s else Obey(ObeyAll(s, commands[..|commands| - 1]), commands[|commands| - 1])
  }

  /** Commands create a state where there is none. */
  function Commanded(s: Option<State>, month: int, commands: seq<Command>): Option<State> {
    if commands == [] then s
    else Some(ObeyAll(if s.None? then NewMonth(month, false, false) else s.value, commands))
  }

  /** The policy's decision: the state to save, the pool if there is something to invest, what to send. */
  datatype Decision = Decision(state: State, pool: Option<Pool>, reminder: bool, notice: bool)

  function ThisMonth(s: Option<State>, month: int): State {
    if s.Some? && s.value.month == month then s.value
    else NewMonth(month, s.Some? && s.value.paused, s.Some? && s.value.discontinued)
  }

  predicate Enters(s: Option<State>, month: int) {
    s.None? || s.value.month != month
  }

  function Decide(reminderDay: int, date: Date, before: Option<State>, pool: Pool): Decision {
    var s := ThisMonth(before, date.month);
    var notice := Enters(before, date.month);
    if s.discontinued || s.paused || s.progress == Idle then Decision(s, None, false, notice)
    else
      var checked := s.(lastCheck := Some(date));
      if pool.incoming <= 0.0 then
        var remind := date.day >= reminderDay && !s.reminded;
        Decision(checked.(reminded := s.reminded || remind), None, remind, notice)
      else Decision(checked.(progress := Executing), Some(pool), false, notice)
  }

  function Completed(s: State, anyOrders: bool): State {
    s.(progress := if anyOrders then Idle else AwaitingFunds)
  }

  // ---- One daily run ----

  /** The saved state, everything sent so far, and what the run returned unless it died. */
  datatype Outcome = Outcome(disk: Option<State>, sent: seq<Message>, result: Option<CycleResult>)

  ghost function OrdersFor(day: Day): seq<BuyOrder> {
    ProposalFor(day.pricing, day.current, day.target, day.pool.existing + day.pool.incoming, day.pool.incoming)
  }

  ghost function ResultOf(d: Decision, day: Day): CycleResult {
    if d.pool.None? then CycleResult([], None, d.state.progress, false)
    else
      var cycle := Some((d.state.month, day.pool.source));
      if !day.tradingDay then CycleResult([], cycle, d.state.progress, true)
      else CycleResult(OrdersFor(day), cycle, if OrdersFor(day) == [] then AwaitingFunds else d.state.progress, false)
  }

  function NoticesOf(d: Decision): seq<Message> {
    if d.notice then [Notice(d.state.month)] else []
  }

  function RemindersOf(d: Decision): seq<Message> {
    if d.reminder then [Reminder(d.state.month)] else []
  }

  ghost function Daily(reminderDay: int, disk: Option<State>, sent: seq<Message>, day: Day, cut: Cut): Outcome {
    var d := Decide(reminderDay, day.date, Commanded(disk, day.date.month, day.commands), day.pool);
    if cut == BeforeSave then Outcome(disk, sent, None)
    else if cut == AfterSave then Outcome(Some(d.state), sent, None)
    else if cut == AfterNotice then Outcome(Some(d.state), sent + NoticesOf(d), None)
    else
      var all := sent + NoticesOf(d) + RemindersOf(d);
      if cut == AfterMessages then Outcome(Some(d.state), all, None)
      else
        var nothing := d.pool.Some? && day.tradingDay && OrdersFor(day) == [];
        if nothing && cut == BeforeLastSave then Outcome(Some(d.state), all, None)
        else Outcome(Some(if nothing then Completed(d.state, false) else d.state), all, Some(ResultOf(d, day)))
  }

  class StrategyStateStore {
    var row: Option<State>

    constructor ()
      ensures row == None
    {
      row := None;
    }

    method Load() returns (s: Option<State>)
      ensures s == row
    {
      s := row;
    }

    method Save(s: State)
      modifies this
      ensures row == Some(s)
    {
      row := Some(s);
    }
  }

  class Outbox {
    var sent: seq<Message>

    constructor ()
      ensures sent == []
    {
      sent := [];
    }

    method Send(m: Message)
      modifies this
      ensures sent == old(sent) + [m]
    {
      sent := sent + [m];
    }
  }

  class RecurringMonthlyPolicy {
    const reminderDay: int

    constructor (reminderDay: int)
      requires 1 <= reminderDay <= 28
      ensures this.reminderDay == reminderDay
    {
      this.reminderDay := reminderDay;
    }

    method RunCycle(date: Date, before: Option<State>, pool: Pool) returns (d: Decision)
      ensures d == Decide(reminderDay, date, before, pool)
    {
      var notice := false;
      var state;
      if before.None? || before.value.month != date.month {
        state := NewMonth(date.month, before.Some? && before.value.paused, before.Some? && before.value.discontinued);
        notice := true;
      } else {
        state := before.value;
      }
      if state.discontinued || state.paused || state.progress == Idle {
        return Decision(state, None, false, notice);
      }
      state := state.(lastCheck := Some(date));
      if pool.incoming <= 0.0 {
        var remind := false;
        if date.day >= reminderDay && !state.reminded {
          remind := true;
          state := state.(reminded := true);
        }
        return Decision(state, None, remind, notice);
      }
      state := state.(progress := Executing);
      d := Decision(state, Some(pool), false, notice);
    }
  }

  class StrategyEngine {
    const policy: RecurringMonthlyPolicy
    const store: StrategyStateStore
    const outbox: Outbox

    constructor (policy: RecurringMonthlyPolicy, store: StrategyStateStore, outbox: Outbox)
      ensures this.policy == policy && this.store == store && this.outbox == outbox
    {
      this.policy := policy;
      this.store := store;
      this.outbox := outbox;
    }

    method ApplyPendingCommands(before: Option<State>, month: int, commands: seq<Command>)
      returns (after: Option<State>)
      ensures after == Commanded(before, month, commands)
    {
      if commands == [] {
        return before;
      }
      var first := if before.None? then NewMonth(month, false, false) else before.value;
      var state := first;
      for i := 0 to |commands|
        invariant state == ObeyAll(first, commands[..i])
      {
        assert commands[..i + 1][..i] == commands[..i];
        match commands[i] {
          case Pause => state := state.(paused := true);
          case Resume => state := state.(paused := false);
          case Discontinue => state := state.(discontinued := true);
        }
      }
      assert commands[..|commands|] == commands;
      after := Some(state);
    }

    /** The state is saved before anything is sent; a run that produced orders leaves it EXECUTING. */
    method RunDailyCycle(day: Day, cut: Cut) returns (result: Option<CycleResult>)
      modifies store, outbox
      ensures Outcome(store.row, outbox.sent, result)
           == Daily(policy.reminderDay, old(store.row), old(outbox.sent), day, cut)
    {
      var state := store.Load();
      state := ApplyPendingCommands(state, day.date.month, day.commands);
      var d := policy.RunCycle(day.date, state, day.pool);
      if cut == BeforeSave {
        return None;
      }
      store.Save(d.state);
      if cut == AfterSave {
        return None;
      }
      if d.notice {
        outbox.Send(Notice(d.state.month));
      }
      if cut == AfterNotice {
        return None;
      }
      if d.reminder {
        outbox.Send(Reminder(d.state.month));
      }
      if cut == AfterMessages {
        return None;
      }
      result := Propose(d, day, cut);
    }

    method Propose(d: Decision, day: Day, cut: Cut) returns (result: Option<CycleResult>)
      requires d.pool.Some? ==> d.pool.value == day.pool
      requires store.row == Some(d.state)
      modifies store
      ensures var nothing := d.pool.Some? && day.tradingDay && OrdersFor(day) == [];
              if nothing && cut == BeforeLastSave then result == None && store.row == Some(d.state)
              else result == Some(ResultOf(d, day))
                   && store.row == Some(if nothing then Completed(d.state, false) else d.state)
    {
      if d.pool.None? {
        return Some(CycleResult([], None, d.state.progress, false));
      }
      var pool := d.pool.value;
      var cycle := Some((d.state.month, pool.source));
      if !day.tradingDay {
        return Some(CycleResult([], cycle, d.state.progress, true));
      }
      var orders := BuildBuyOrders(day.pricing, day.current, day.target, pool.existing + pool.incoming, pool.incoming);
      assert orders == OrdersFor(day);
      var state := d.state;
      if orders == [] {
        if cut == BeforeLastSave {
          return None;
        }
        state := Completed(state, false);
        store.Save(state);
      }
      result := Some(CycleResult(orders, cycle, state.progress, false));
    }

    method ConfirmCycleOutcome(submitted: bool)
      modifies store
      ensures store.row == Confirmed(old(store.row), submitted)
    {
      var state := store.Load();
      if state.None? {
        return;
      }
      store.Save(Completed(state.value, submitted));
    }
  }

  function Confirmed(disk: Option<State>, submitted: bool): Option<State> {
    if disk.None? then None else Some(Completed(disk.value, submitted))
  }
}
