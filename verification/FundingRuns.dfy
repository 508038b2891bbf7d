/** What the funding workflow guarantees over any sequence of runs, crashes and confirmations. */
module FundingRuns {
  import opened Common
  import opened Allocator
  import opened Funding
  import CostTax
  import Sizing
  import Sums

  datatype Step = Run(day: Day, cut: Cut) | Confirm(submitted: bool)

  /** The saved state, everything sent, and the date of the latest run. */
  datatype World = World(disk: Option<State>, sent: seq<Message>, latest: Option<Date>)

  const START := World(None, [], None)

  ghost function Returned(reminderDay: int, w: World, s: Step): Option<CycleResult> {
    if s.Run? then Daily(reminderDay, w.disk, w.sent, s.day, s.cut).result else None
  }

  ghost function Next(reminderDay: int, w: World, s: Step): World {
    match s
    case Run(day, cut) =>
      var o := Daily(reminderDay, w.disk, w.sent, day, cut);
      World(o.disk, o.sent, Some(day.date))
    case Confirm(submitted) => w.(disk := Confirmed(w.disk, submitted))
  }

  ghost function After(reminderDay: int, w: World, steps: seq<Step>): World
    decreases |steps|
  {
    if steps == [] then w else After(reminderDay, Next(reminderDay, w, steps[0]), steps[1..])
  }

  /** Dates never go back. */
  predicate Timely(w: World, s: Step) {
    s.Run? && w.latest.Some? ==> NotAfter(w.latest.value, s.day.date)
  }

  ghost predicate InOrder(reminderDay: int, w: World, steps: seq<Step>)
    decreases |steps|
  {
    steps == [] || (Timely(w, steps[0]) && InOrder(reminderDay, Next(reminderDay, w, steps[0]), steps[1..]))
  }

  /** Every message is backed by the saved state, so that a run after a crash will not decide to send it again. */
  predicate Backed(m: Message, s: State) {
    m.month < s.month || (m.month == s.month && (m.Reminder? ==> s.reminded))
  }

  predicate AllDifferent(sent: seq<Message>) {
    forall i, j :: 0 <= i < j < |sent| ==> sent[i] != sent[j]
  }

  predicate AllBacked(sent: seq<Message>, s: State) {
    forall i :: 0 <= i < |sent| ==> Backed(sent[i], s)
  }

  ghost predicate Inv(w: World) {
    && (w.disk.Some? ==> w.latest.Some? && w.disk.value.month <= w.latest.value.month)
    && (w.sent == [] || (w.disk.Some? && AllBacked(w.sent, w.disk.value)))
    && AllDifferent(w.sent)
  }

  // ---- Messages ----

  lemma {:induction false} ObeyingKeepsMonth(s: State, commands: seq<Command>)
    ensures var t := ObeyAll(s, commands);
            t == s.(paused := t.paused, discontinued := t.discontinued)
    ensures ObeyAll(s, commands).discontinued <==> s.discontinued || Discontinue in commands
  {
    if commands != [] {
      ObeyingKeepsMonth(s, commands[..|commands| - 1]);
      assert commands == commands[..|commands| - 1] + [commands[|commands| - 1]];
    }
  }

  function DecisionOf(reminderDay: int, w: World, day: Day): Decision {
    Decide(reminderDay, day.date, Commanded(w.disk, day.date.month, day.commands), day.pool)
  }

  lemma DecisionIsNew(reminderDay: int, w: World, day: Day)
    requires Inv(w) && (w.latest.Some? ==> NotAfter(w.latest.value, day.date))
    ensures var d := DecisionOf(reminderDay, w, day);
            && d.state.month == day.date.month
            && (d.reminder ==> d.state.reminded)
            && forall i :: 0 <= i < |w.sent| ==>
                 && Backed(w.sent[i], d.state)
                 && (d.notice ==> w.sent[i].month < d.state.month)
                 && (d.reminder ==> w.sent[i] != Reminder(d.state.month))
  {
    var before := Commanded(w.disk, day.date.month, day.commands);
    if day.commands != [] {
      ObeyingKeepsMonth(if w.disk.None? then NewMonth(day.date.month, false, false) else w.disk.value, day.commands);
    }
    forall i | 0 <= i < |w.sent|
      ensures Backed(w.sent[i], ThisMonth(before, day.date.month))
      ensures Enters(before, day.date.month) ==> w.sent[i].month < day.date.month
    {
      assert Backed(w.sent[i], w.disk.value);
    }
  }

  lemma OneMore(sent: seq<Message>, m: Message, s: State)
    requires AllDifferent(sent) && AllBacked(sent, s) && Backed(m, s) && m !in sent
    ensures AllDifferent(sent + [m]) && AllBacked(sent + [m], s)
  {
  }

  /** However much of what was decided is sent, the messages differ and the saved state backs them. */
  lemma SendingIsSafe(reminderDay: int, w: World, day: Day)
    requires Inv(w) && (w.latest.Some? ==> NotAfter(w.latest.value, day.date))
    ensures var d := DecisionOf(reminderDay, w, day);
            var noticed := w.sent + NoticesOf(d);
            && d.state.month == day.date.month
            && AllDifferent(noticed) && AllBacked(w.sent, d.state) && AllBacked(noticed, d.state)
            && AllDifferent(noticed + RemindersOf(d)) && AllBacked(noticed + RemindersOf(d), d.state)
  {
    DecisionIsNew(reminderDay, w, day);
    var d := DecisionOf(reminderDay, w, day);
    if d.notice {
      OneMore(w.sent, Notice(d.state.month), d.state);
    }
    if d.reminder {
      OneMore(w.sent + NoticesOf(d), Reminder(d.state.month), d.state);
    }
  }

  lemma BackedWhatever(sent: seq<Message>, s: State, progress: Progress)
    requires AllBacked(sent, s)
    ensures AllBacked(sent, s.(progress := progress))
  {
    forall i | 0 <= i < |sent|
      ensures Backed(sent[i], s.(progress := progress))
    {
      assert Backed(sent[i], s);
    }
  }

  lemma RunKeeps(reminderDay: int, w: World, day: Day, cut: Cut)
    requires Inv(w) && Timely(w, Run(day, cut))
    ensures Inv(Next(reminderDay, w, Run(day, cut)))
  {
    SendingIsSafe(reminderDay, w, day);
    var d, o := DecisionOf(reminderDay, w, day), Daily(reminderDay, w.disk, w.sent, day, cut);
    if cut != BeforeSave {
      assert o.disk.Some? && o.disk.value == d.state.(progress := o.disk.value.progress);
      BackedWhatever(o.sent, d.state, o.disk.value.progress);
      assert o.sent == w.sent || o.sent == w.sent + NoticesOf(d) || o.sent == w.sent + NoticesOf(d) + RemindersOf(d);
    }
  }

  lemma {:induction false} EveryRunKeeps(reminderDay: int, w: World, steps: seq<Step>)
    requires Inv(w) && InOrder(reminderDay, w, steps)
    ensures Inv(After(reminderDay, w, steps))
    decreases |steps|
  {
    if steps != [] {
      if steps[0].Run? {
        RunKeeps(reminderDay, w, steps[0].day, steps[0].cut);
      }
      EveryRunKeeps(reminderDay, Next(reminderDay, w, steps[0]), steps[1..]);
    }
  }

  /** However often runs die and repeat, a month gets at most one notice and at most one reminder. */
  lemma MessagesOnce(reminderDay: int, steps: seq<Step>)
    requires InOrder(reminderDay, START, steps)
    ensures var sent := After(reminderDay, START, steps).sent;
            forall i, j :: 0 <= i < j < |sent| ==> sent[i] != sent[j]
  {
    EveryRunKeeps(reminderDay, START, steps);
  }

  // ---- Proposals ----

  /** A run that returns orders leaves EXECUTING saved for the month its cycle is named after. */
  lemma OrdersAreSaved(reminderDay: int, w: World, s: Step)
    requires Returned(reminderDay, w, s).Some? && Returned(reminderDay, w, s).value.orders != []
    ensures var r, v := Returned(reminderDay, w, s).value, Next(reminderDay, w, s);
            && v.disk.Some? && v.disk.value.progress == Executing == r.progress
            && r.cycle == Some((v.disk.value.month, s.day.pool.source)) && v.disk.value.month == s.day.date.month
  {
    var day := s.day;
    if day.commands != [] {
      ObeyingKeepsMonth(if w.disk.None? then NewMonth(day.date.month, false, false) else w.disk.value, day.commands);
    }
  }

  /** The run decides to invest and has something to buy. */
  ghost predicate WouldPropose(reminderDay: int, w: World, day: Day) {
    && DecisionOf(reminderDay, w, day).pool.Some?
    && day.tradingDay && OrdersFor(day) != []
  }

  /** Deciding again from a state saved by a decision to invest comes to the same decision, with nothing to send. */
  lemma DecisionStands(reminderDay: int, w: World, day: Day)
    requires DecisionOf(reminderDay, w, day).pool.Some?
    ensures var d := DecisionOf(reminderDay, w, day);
            && d.state.month == day.date.month && d.state.progress == Executing
            && Decide(reminderDay, day.date, Some(d.state), day.pool) == Decision(d.state, Some(day.pool), false, false)
  {
    if day.commands != [] {
      ObeyingKeepsMonth(if w.disk.None? then NewMonth(day.date.month, false, false) else w.disk.value, day.commands);
    }
  }

  lemma ProposingRun(reminderDay: int, w: World, day: Day, cut: Cut)
    requires cut != BeforeSave && WouldPropose(reminderDay, w, day)
    ensures Next(reminderDay, w, Run(day, cut)).disk == Some(DecisionOf(reminderDay, w, day).state)
    ensures cut == Never ==>
              Returned(reminderDay, w, Run(day, cut)) == Some(ResultOf(DecisionOf(reminderDay, w, day), day))
  {
  }

  /**
   * Wherever the run dies after its first save, running the same day again proposes the same orders under the same
   * cycle, sends nothing more and saves nothing new.
   */
  lemma RerunRepeats(reminderDay: int, w: World, day: Day, cut: Cut)
    requires cut != BeforeSave && WouldPropose(reminderDay, w, day)
    ensures var v := Next(reminderDay, w, Run(day, cut));
            var again := Run(day.(commands := []), Never);
            && Returned(reminderDay, v, again)
               == Some(CycleResult(OrdersFor(day), Some((day.date.month, day.pool.source)), Executing, false))
            && Next(reminderDay, v, again) == v
            && (cut == Never ==> Returned(reminderDay, w, Run(day, cut)) == Returned(reminderDay, v, again))
  {
    DecisionStands(reminderDay, w, day);
    ProposingRun(reminderDay, w, day, cut);
    ProposesAgain(reminderDay, Next(reminderDay, w, Run(day, cut)), day.(commands := []),
                  DecisionOf(reminderDay, w, day).state);
  }

  lemma ProposesAgain(reminderDay: int, v: World, day: Day, s: State)
    requires v.disk == Some(s) && day.commands == [] && v.latest == Some(day.date)
    requires Decide(reminderDay, day.date, Some(s), day.pool) == Decision(s, Some(day.pool), false, false)
    requires day.tradingDay && OrdersFor(day) != []
    ensures Returned(reminderDay, v, Run(day, Never))
         == Some(CycleResult(OrdersFor(day), Some((s.month, day.pool.source)), s.progress, false))
    ensures Next(reminderDay, v, Run(day, Never)) == v
  {
  }

  ghost predicate Invests(reminderDay: int, w: World, s: Step) {
    Returned(reminderDay, w, s).Some? && Returned(reminderDay, w, s).value.cycle.Some?
  }

  /** No step of the run gets a pool to invest. */
  ghost predicate NeverInvests(reminderDay: int, w: World, steps: seq<Step>)
    decreases |steps|
  {
    || steps == []
    || (!Invests(reminderDay, w, steps[0])
        && NeverInvests(reminderDay, Next(reminderDay, w, steps[0]), steps[1..]))
  }

  predicate Within(s: Step, month: int) {
    match s
    case Run(day, _) => day.date.month == month
    case Confirm(submitted) => submitted
  }

  predicate DoneFor(w: World, month: int) {
    w.disk.Some? && w.disk.value.month == month && w.disk.value.progress == Idle
  }

  lemma StaysDone(reminderDay: int, w: World, month: int, s: Step)
    requires DoneFor(w, month) && Within(s, month)
    ensures DoneFor(Next(reminderDay, w, s), month) && !Invests(reminderDay, w, s)
  {
    if s.Run? && s.day.commands != [] {
      ObeyingKeepsMonth(w.disk.value, s.day.commands);
    }
  }

  /** After a successful confirmation nothing is invested for the rest of the month, unless a failed one intervenes. */
  lemma {:induction false} OncePerMonth(reminderDay: int, w: World, month: int, steps: seq<Step>)
    requires DoneFor(w, month) && forall i :: 0 <= i < |steps| ==> Within(steps[i], month)
    ensures NeverInvests(reminderDay, w, steps) && DoneFor(After(reminderDay, w, steps), month)
    decreases |steps|
  {
    if steps != [] {
      assert Within(steps[0], month);
      StaysDone(reminderDay, w, month, steps[0]);
      OncePerMonth(reminderDay, Next(reminderDay, w, steps[0]), month, steps[1..]);
    }
  }

  // ---- A confirmation that arrives late ----

  predicate Saved(s: Step) {
    s.Run? && s.cut != BeforeSave
  }

  lemma RunSetsMonth(reminderDay: int, w: World, s: Step)
    requires s.Run? && w.disk.Some?
    ensures var v := Next(reminderDay, w, s);
            v.disk.Some? && v.disk.value.month == if Saved(s) then s.day.date.month else w.disk.value.month
  {
    if s.day.commands != [] {
      ObeyingKeepsMonth(w.disk.value, s.day.commands);
    }
  }

  /**
   * A confirmation names no month: it completes the month saved last. That is the month of the proposal exactly
   * when no run of another month was saved in between.
   */
  lemma {:induction false} ConfirmsRightMonthIff(reminderDay: int, w: World, steps: seq<Step>)
    requires w.disk.Some? && Inv(w) && InOrder(reminderDay, w, steps)
    requires forall i :: 0 <= i < |steps| ==> steps[i].Run?
    ensures var v := Next(reminderDay, After(reminderDay, w, steps), Confirm(true));
            && v.disk.Some? && w.disk.value.month <= v.disk.value.month
            && (DoneFor(v, w.disk.value.month)
                <==> forall i :: 0 <= i < |steps| && Saved(steps[i]) ==> steps[i].day.date.month == w.disk.value.month)
    decreases |steps|
  {
    if steps != [] {
      var s, next := steps[0], Next(reminderDay, w, steps[0]);
      RunSetsMonth(reminderDay, w, s);
      RunKeeps(reminderDay, w, s.day, s.cut);
      ConfirmsRightMonthIff(reminderDay, next, steps[1..]);
      assert steps == [s] + steps[1..];
      assert forall i :: 0 < i < |steps| ==> steps[i] == steps[1..][i - 1];
    }
  }

  /** A confirmation that arrives after the next month was entered leaves that month uninvested. */
  lemma LateConfirmationSkipsMonth(reminderDay: int, w: World, day: Day, cut: Cut, later: seq<Step>)
    requires w.disk.Some? && w.disk.value.progress == Executing && w.disk.value.month < day.date.month
    requires cut != BeforeSave
    requires forall i :: 0 <= i < |later| ==> Within(later[i], day.date.month)
    ensures NeverInvests(reminderDay, Next(reminderDay, Next(reminderDay, w, Run(day, cut)), Confirm(true)), later)
  {
    RunSetsMonth(reminderDay, w, Run(day, cut));
    var v := Next(reminderDay, Next(reminderDay, w, Run(day, cut)), Confirm(true));
    OncePerMonth(reminderDay, v, day.date.month, later);
  }

  // A run from the start in which that happens.

  /** A trading day on which one symbol, at price 1, is wanted and nothing is held. */
  function DayWith(month: int, day: int, incoming: real): Day {
    Day(Date(month, day), [], Pool(0.0, incoming, RecurringMonthly), true,
        Pricing(CostTax.NO_COSTS, map["X" := 1.0], (close: real) => close), map[], map["X" := 1.0])
  }

  const WANTED := Opportunity("X", 0.0, 1.0, 1.0)

  lemma OneOpportunity()
    ensures IsPriorityList([WANTED], map[], map["X" := 1.0])
  {
    assert Gaps(map[], map["X" := 1.0]) == map["X" := 1.0];
    assert WANTED == OpportunityFor(map[], map["X" := 1.0], "X");
  }

  lemma UnitsAre(p: Pricing, o: Opportunity, value: real, cash: real, limit: real, budget: real)
    requires IsPriced(p, o.symbol) && LimitFor(p, o.symbol) == limit && Min(cash, Sums.Times(o.gap, value)) == budget
    ensures UnitsFor(p, o, value, cash) == Sizing.MaxAffordable(p.costs, limit, budget)
  {
  }

  lemma OneAffordable(p: Pricing, limit: real, funds: real)
    requires p.costs == CostTax.NO_COSTS && IsPriced(p, "X") && LimitFor(p, "X") == limit && funds >= limit > 0.0
    ensures UnitsFor(p, WANTED, funds, funds) >= 1
  {
    Sizing.FreeOutlay(limit);
    Sizing.OneUnitFits(p.costs, limit, funds);
    assert Sums.Times(1.0, funds) == funds;
    UnitsAre(p, WANTED, funds, funds, limit, funds);
  }

  lemma OneIsOrdered(p: Pricing, value: real, cash: real)
    requires cash > 0.0 && value > 0.0 && UnitsFor(p, WANTED, value, cash) >= 1
    ensures Proposal(p, [WANTED], value, cash) != []
  {
  }

  lemma OrdersAre(d: Day, opps: seq<Opportunity>)
    requires IsPriorityList(opps, d.current, d.target)
    ensures OrdersFor(d) == Proposal(d.pricing, opps, d.pool.existing + d.pool.incoming, d.pool.incoming)
  {
    ProposalForUnique(d.pricing, opps, d.current, d.target, d.pool.existing + d.pool.incoming, d.pool.incoming);
  }

  lemma WantedIsBought(p: Pricing, limit: real, funds: real)
    requires p.costs == CostTax.NO_COSTS && IsPriced(p, "X") && LimitFor(p, "X") == limit && funds >= limit > 0.0
    ensures Proposal(p, [WANTED], funds, funds) != []
  {
    OneAffordable(p, limit, funds);
    OneIsOrdered(p, funds, funds);
  }

  lemma FundedDayBuys(month: int, day: int, funds: real)
    requires funds >= 1.0
    ensures OrdersFor(DayWith(month, day, funds)) != []
  {
    var d := DayWith(month, day, funds);
    OneOpportunity();
    OrdersAre(d, [WANTED]);
    assert d.pool.existing + d.pool.incoming == funds;
    WantedIsBought(d.pricing, 1.0, funds);
  }

  /** Month 1 is proposed. */
  lemma FirstMonth(reminderDay: int, funds: real) returns (u: World)
    requires funds >= 1.0
    ensures u == Next(reminderDay, START, Run(DayWith(1, 3, funds), Never))
    ensures Returned(reminderDay, START, Run(DayWith(1, 3, funds), Never)).Some?
    ensures Returned(reminderDay, START, Run(DayWith(1, 3, funds), Never)).value.orders != []
    ensures u.disk == Some(State(1, Executing, false, Some(Date(1, 3)), false, false)) && u.latest == Some(Date(1, 3))
  {
    FundedDayBuys(1, 3, funds);
    var d := DayWith(1, 3, funds);
    assert DecisionOf(reminderDay, START, d).pool == Some(d.pool);
    ProposingRun(reminderDay, START, d, Never);
    u := Next(reminderDay, START, Run(d, Never));
  }

  /** Month 2 begins without funds. */
  lemma SecondMonth(reminderDay: int, u: World) returns (w: World)
    requires u.disk.Some? && u.disk.value.month == 1 && !u.disk.value.paused && !u.disk.value.discontinued
    ensures w == Next(reminderDay, u, Run(DayWith(2, 1, 0.0), Never)) && w.latest == Some(Date(2, 1))
    ensures w.disk.Some? && w.disk.value.month == 2 && w.disk.value.progress == AwaitingFunds
    ensures !w.disk.value.paused && !w.disk.value.discontinued
  {
    w := Next(reminderDay, u, Run(DayWith(2, 1, 0.0), Never));
  }

  lemma FundsInvestUnlessDone(reminderDay: int, w: World, funds: real)
    requires w.disk.Some? && w.disk.value.month == 2 && !w.disk.value.paused && !w.disk.value.discontinued
    requires funds > 0.0
    ensures Invests(reminderDay, w, Run(DayWith(2, 2, funds), Never)) <==> w.disk.value.progress != Idle
  {
  }

  /**
   * From the start: month 1 is proposed, month 2 begins without funds, the confirmation of month 1 arrives, and the
   * funds of month 2, which would have been invested, are not.
   */
  lemma LateConfirmationHappens(reminderDay: int, funds: real)
    requires funds >= 1.0
    ensures var first := Run(DayWith(1, 3, funds), Never);
            var rollover, funded := Run(DayWith(2, 1, 0.0), Never), Run(DayWith(2, 2, funds), Never);
            var w := Next(reminderDay, Next(reminderDay, START, first), rollover);
            && InOrder(reminderDay, START, [first, rollover, Confirm(true), funded])
            && Returned(reminderDay, START, first).Some? && Returned(reminderDay, START, first).value.orders != []
            && Invests(reminderDay, w, funded) && !Invests(reminderDay, Next(reminderDay, w, Confirm(true)), funded)
  {
    var first := Run(DayWith(1, 3, funds), Never);
    var rollover, funded := Run(DayWith(2, 1, 0.0), Never), Run(DayWith(2, 2, funds), Never);
    var u := FirstMonth(reminderDay, funds);
    var w := SecondMonth(reminderDay, u);
    FundsInvestUnlessDone(reminderDay, w, funds);
    FundsInvestUnlessDone(reminderDay, Next(reminderDay, w, Confirm(true)), funds);
    FourInOrder(reminderDay, START, first, rollover, Confirm(true), funded);
  }

  lemma FourInOrder(reminderDay: int, w: World, a: Step, b: Step, c: Step, d: Step)
    requires Timely(w, a) && Timely(Next(reminderDay, w, a), b)
    requires Timely(Next(reminderDay, Next(reminderDay, w, a), b), c)
    requires Timely(Next(reminderDay, Next(reminderDay, Next(reminderDay, w, a), b), c), d)
    ensures InOrder(reminderDay, w, [a, b, c, d])
  {
    var u := Next(reminderDay, w, a);
    var v := Next(reminderDay, u, b);
    var z := Next(reminderDay, v, c);
    assert [a, b, c, d][1..] == [b, c, d] && [b, c, d][1..] == [c, d] && [c, d][1..] == [d] && [d][1..] == [];
    assert InOrder(reminderDay, z, [d]);
    assert InOrder(reminderDay, v, [c, d]);
    assert InOrder(reminderDay, u, [b, c, d]);
  }

  // ---- What a run sends and when it invests ----

  /** Of PAUSE and RESUME the one polled last counts; without either, what was saved. */
  predicate PausedBy(was: bool, commands: seq<Command>) {
    || (exists i :: 0 <= i < |commands| && commands[i] == Pause
                    && forall j :: i < j < |commands| ==> commands[j] != Resume)
    || (was && Resume !in commands)
  }

  lemma PausedByOneMore(was: bool, fewer: seq<Command>, last: Command)
    ensures PausedBy(was, fewer + [last]) <==> last == Pause || (last != Resume && PausedBy(was, fewer))
  {
    var all := fewer + [last];
    assert all[|fewer|] == last && forall i :: 0 <= i < |fewer| ==> all[i] == fewer[i];
  }

  lemma {:induction false} ObeyingPauses(s: State, commands: seq<Command>)
    ensures ObeyAll(s, commands).paused <==> PausedBy(s.paused, commands)
  {
    if commands != [] {
      var fewer, last := commands[..|commands| - 1], commands[|commands| - 1];
      ObeyingPauses(s, fewer);
      PausedByOneMore(s.paused, fewer, last);
      assert commands == fewer + [last];
    }
  }

  /** The month's workflow is saved already. */
  predicate Entered(w: World, month: int) {
    w.disk.Some? && w.disk.value.month == month
  }

  /** Neither discontinued nor paused, and the month not done yet: the run looks at the funds. */
  predicate LooksAtFunds(w: World, day: Day) {
    && !Stopped(w) && Discontinue !in day.commands
    && !PausedBy(w.disk.Some? && w.disk.value.paused, day.commands)
    && !DoneFor(w, day.date.month)
  }

  predicate ReminderDue(reminderDay: int, w: World, day: Day) {
    && LooksAtFunds(w, day) && day.pool.incoming <= 0.0 && day.date.day >= reminderDay
    && !(Entered(w, day.date.month) && w.disk.value.reminded)
  }

  /** The month is new; with commands polled before anything was ever saved the source does not notice that. */
  predicate NoticeDue(w: World, day: Day) {
    !Entered(w, day.date.month) && (w.disk.None? ==> day.commands == [])
  }

  lemma DecisionIff(reminderDay: int, w: World, day: Day)
    ensures var d := DecisionOf(reminderDay, w, day);
            && d.state.month == day.date.month
            && (d.notice <==> NoticeDue(w, day))
            && (d.reminder <==> ReminderDue(reminderDay, w, day))
            && d.pool == (if LooksAtFunds(w, day) && day.pool.incoming > 0.0 then Some(day.pool) else None)
            && (d.state.reminded <==> ReminderDue(reminderDay, w, day)
                                      || (Entered(w, day.date.month) && w.disk.value.reminded))
  {
    var s := if w.disk.None? then NewMonth(day.date.month, false, false) else w.disk.value;
    ObeyingKeepsMonth(s, day.commands);
    ObeyingPauses(s, day.commands);
    if day.commands == [] {
      assert PausedBy(s.paused, day.commands) <==> s.paused;
    }
  }

  /**
   * A run that lives through its messages sends the month's notice exactly when the month is new, and the reminder
   * exactly when it looks at the funds, finds none, the reminder day has come and none was saved as sent; a run that
   * dies earlier sends neither, or only the notice.
   */
  lemma SendsIff(reminderDay: int, w: World, day: Day, cut: Cut)
    ensures var v, month := Next(reminderDay, w, Run(day, cut)), day.date.month;
            v.sent == w.sent
                      + (if NoticeDue(w, day) && cut !in {BeforeSave, AfterSave} then [Notice(month)] else [])
                      + (if ReminderDue(reminderDay, w, day) && cut !in {BeforeSave, AfterSave, AfterNotice}
                         then [Reminder(month)] else [])
  {
    DecisionIff(reminderDay, w, day);
  }

  /**
   * A run that returns invests exactly when it looks at the funds and finds some, under the month's cycle; its orders
   * are the allocation of them on a trading day, and none, deferred, on any other.
   */
  lemma InvestsIff(reminderDay: int, w: World, day: Day, cut: Cut)
    requires Returned(reminderDay, w, Run(day, cut)).Some?
    ensures var r, funded := Returned(reminderDay, w, Run(day, cut)).value,
                             LooksAtFunds(w, day) && day.pool.incoming > 0.0;
            && r.cycle == (if funded then Some((day.date.month, day.pool.source)) else None)
            && r.orders == (if funded && day.tradingDay then OrdersFor(day) else [])
            && (r.deferred <==> funded && !day.tradingDay)
  {
    DecisionIff(reminderDay, w, day);
  }

  /**
   * No margin, no leverage: what a run returns costs no more than the funds that came in, and of every underweight
   * symbol with a price it buys what fits the target share of the pool, as far as the funds go.
   */
  lemma OrdersWithinFunds(reminderDay: int, w: World, day: Day, cut: Cut, opps: seq<Opportunity>, i: nat)
    requires Returned(reminderDay, w, Run(day, cut)).Some? && Tradable(day.pricing)
    requires Returned(reminderDay, w, Run(day, cut)).value.orders != []
    requires IsPriorityList(opps, day.current, day.target) && i < |opps| && IsPriced(day.pricing, opps[i].symbol)
    ensures var orders, p := Returned(reminderDay, w, Run(day, cut)).value.orders, day.pricing;
            var s, pool := opps[i].symbol, day.pool.existing + day.pool.incoming;
            var q, held, aim := Bought(orders, s), Weight(day.current, s), Weight(day.target, s);
            && Spend(p.costs, orders) <= day.pool.incoming
            && FitsTarget(p, s, held, aim, pool, q)
            && (!FitsTarget(p, s, held, aim, pool, q + 1)
                || Cost(p, s, q + 1) - Cost(p, s, q) > day.pool.incoming - Spend(p.costs, orders))
  {
    InvestsIff(reminderDay, w, day, cut);
    OrdersAre(day, opps);
    ProposalSound(day.pricing, opps, day.current, day.target, day.pool.existing + day.pool.incoming,
                  day.pool.incoming, i);
  }

  /**
   * What a run saves for the month: EXECUTING when it invests, unless it returned without anything to buy and so waits
   * for more funds; otherwise the progress the month had, or AWAITING_FUNDS for a new one.
   */
  lemma ProgressSaved(reminderDay: int, w: World, day: Day, cut: Cut)
    requires cut != BeforeSave
    ensures var v := Next(reminderDay, w, Run(day, cut));
            && Entered(v, day.date.month)
            && v.disk.value.progress
               == if !(LooksAtFunds(w, day) && day.pool.incoming > 0.0) then
                    (if Entered(w, day.date.month) then w.disk.value.progress else AwaitingFunds)
                  else if Returned(reminderDay, w, Run(day, cut)).Some? && day.tradingDay && OrdersFor(day) == [] then
                    AwaitingFunds
                  else Executing
  {
    DecisionIff(reminderDay, w, day);
    SavedIsDecided(reminderDay, w, day, cut);
    ObeyingKeepsMonth(if w.disk.None? then NewMonth(day.date.month, false, false) else w.disk.value, day.commands);
  }

  /** A confirmation closes the saved month exactly when something was submitted; if not, its funds are tried again. */
  lemma ConfirmationIff(reminderDay: int, w: World, submitted: bool, day: Day)
    requires w.disk.Some? && !Stopped(w) && !w.disk.value.paused && day.commands == []
    requires day.date.month == w.disk.value.month
    ensures LooksAtFunds(Next(reminderDay, w, Confirm(submitted)), day) <==> !submitted
  {
  }

  // ---- Discontinued for good ----

  predicate Stopped(w: World) {
    w.disk.Some? && w.disk.value.discontinued
  }

  lemma DecisionStops(reminderDay: int, w: World, day: Day)
    ensures DecisionOf(reminderDay, w, day).state.discontinued <==> Stopped(w) || Discontinue in day.commands
  {
    if day.commands != [] {
      ObeyingKeepsMonth(if w.disk.None? then NewMonth(day.date.month, false, false) else w.disk.value, day.commands);
    }
  }

  /** What a run saves is what it decided, up to the progress a run without orders takes back. */
  lemma SavedIsDecided(reminderDay: int, w: World, day: Day, cut: Cut)
    ensures var disk, d := Next(reminderDay, w, Run(day, cut)).disk, DecisionOf(reminderDay, w, day);
            if cut == BeforeSave then disk == w.disk
            else disk.Some? && disk.value == d.state.(progress := disk.value.progress)
  {
  }

  /** A run leaves the engine discontinued exactly when it was, or DISCONTINUE was polled and the run saved it. */
  lemma StoppingIsSaved(reminderDay: int, w: World, day: Day, cut: Cut)
    ensures Stopped(Next(reminderDay, w, Run(day, cut)))
       <==> Stopped(w) || (Discontinue in day.commands && cut != BeforeSave)
  {
    DecisionStops(reminderDay, w, day);
    SavedIsDecided(reminderDay, w, day, cut);
  }

  lemma StoppedStep(reminderDay: int, w: World, s: Step)
    requires Stopped(w)
    ensures var v := Next(reminderDay, w, s);
            && Stopped(v) && !Invests(reminderDay, w, s)
            && w.sent <= v.sent && forall i :: |w.sent| <= i < |v.sent| ==> v.sent[i].Notice?
  {
    if s.Run? && s.day.commands != [] {
      ObeyingKeepsMonth(w.disk.value, s.day.commands);
    }
  }

  /**
   * Once DISCONTINUE is saved, no run invests or reminds again, across months, commands, crashes and confirmations;
   * only the monthly notice still goes out.
   */
  lemma {:induction false} StoppedForever(reminderDay: int, w: World, steps: seq<Step>)
    requires Stopped(w)
    ensures NeverInvests(reminderDay, w, steps)
    ensures var v := After(reminderDay, w, steps);
            && Stopped(v) && w.sent <= v.sent && forall i :: |w.sent| <= i < |v.sent| ==> v.sent[i].Notice?
    decreases |steps|
  {
    if steps != [] {
      StoppedStep(reminderDay, w, steps[0]);
      StoppedForever(reminderDay, Next(reminderDay, w, steps[0]), steps[1..]);
    }
  }
}
