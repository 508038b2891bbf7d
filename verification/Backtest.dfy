/** What a backtest run computes, day by day, stated on values: no pointers, no caches, no mutation. */
module Backtest {
  import opened Common
  import opened CostTax
  import opened MarketData
  import opened FillSimulator
  import opened Ledger

  datatype EquityPoint = EquityPoint(date: int, cash: real, positionsValue: real) {
    function TotalValue(): real { cash + positionsValue }
  }

  datatype Snapshot = Snapshot(asOf: int, cash: real, positions: map<Symbol, real>, totalValue: real)

  /** What a strategy is shown at the end of one day. */
  datatype Observation = Observation(date: int, history: map<Symbol, seq<Bar>>, portfolio: Snapshot)

  /** A deterministic strategy may remember: its orders depend on everything it was shown, the latest day last. */
  type Strategy = seq<Observation> -> seq<OrderIntent>

  /** The memory of a strategy object that keeps a state of its own between calls. */
  function Memory<S>(start: S, call: (S, Observation) -> (S, seq<OrderIntent>), seen: seq<Observation>): S {
    if seen == [] then start else call(Memory(start, call, seen[..|seen| - 1]), seen[|seen| - 1]).0
  }

  /** Such an object as a strategy. */
  function Remembering<S>(start: S, call: (S, Observation) -> (S, seq<OrderIntent>)): Strategy {
    (seen: seq<Observation>) =>
      if seen == [] then [] else call(Memory(start, call, seen[..|seen| - 1]), seen[|seen| - 1]).1
  }

  lemma RemembersCalls<S>(
    start: S, call: (S, Observation) -> (S, seq<OrderIntent>), seen: seq<Observation>, next: Observation)
    ensures (Memory(start, call, seen + [next]), Remembering(start, call)(seen + [next]))
         == call(Memory(start, call, seen), next)
  {
    assert (seen + [next])[..|seen|] == seen;
  }

  datatype Env = Env(
    costs: CostTax.Config, tol: Tolerances, start: int, end: int, capital: real,
    expiryDays: int, lookback: int, participation: Option<real>, strategy: Strategy)

  datatype Trade = Trade(tag: nat, fill: Fill, gains: seq<RealizedGain>)

  datatype Reason = NoTradingData | LimitNeverTouched | CashShort | SoldMoreThanHeld | RemainderExpired | RunEnded

  datatype Rejection = Rejection(tag: nat, intent: OrderIntent, reason: Reason)

  datatype Emission = Emission(intent: OrderIntent, decided: int)

  /** `emitted` lists every intent the strategy has produced; tags index it. `seen` is what it has been shown. */
  datatype State = State(
    account: Account, pending: seq<Pending>, trades: seq<Trade>, rejected: seq<Rejection>,
    equity: seq<EquityPoint>, receipts: seq<DividendReceipt>, events: seq<SplitEvent>, emitted: seq<Emission>,
    seen: seq<Observation>)

  datatype Error = InvalidBars | InsufficientLots(missing: real) | BadSplitRatio

  datatype Outcome = Ok(state: State) | Fail(error: Error)

  // What is known on day d -------------------------------------------------------------------------------------

  function ExecutionBar(m: Market, s: Symbol, d: int): Option<Bar> {
    if s in m.bars then BarOn(SortByDate(m.bars[s]), d) else None
  }

  function Seen(m: Market, s: Symbol, d: int): seq<Bar>
    requires s in m.bars
  {
    Upto(SortByDate(m.bars[s]), d)
  }

  /** The latest close of every symbol that has traded by day d. */
  function Prices(m: Market, d: int): map<Symbol, real> {
    map s | s in m.bars && Seen(m, s, d) != [] :: Seen(m, s, d)[|Seen(m, s, d)| - 1].close
  }

  function History(env: Env, m: Market, d: int): map<Symbol, seq<Bar>> {
    map s | s in m.bars :: Window(SortByDate(m.bars[s]), d - env.lookback, d)
  }

  // One day ----------------------------------------------------------------------------------------------------

  function Act(env: Env, st: State, action: CorporateAction, d: int): Outcome {
    match action.kind
    case Dividend =>
      var (account, receipt) := ApplyDividend(env.tol, st.account, action.symbol, d, action.amount);
      Ok(st.(account := account, receipts := if receipt.Some? then st.receipts + [receipt.value] else st.receipts))
    case SplitOrBonus =>
      (match ApplySplit(env.tol, st.account, action.symbol, d, action.amount)
       case NotHeld => Ok(st)
       case BadRatio => Fail(BadSplitRatio)
       case Scaled(account, event) => Ok(st.(account := account, events := st.events + [event])))
    case Unhandled => Ok(st)
  }

  /** The first n of the day's corporate actions. */
  function Acted(env: Env, st: State, due: seq<CorporateAction>, d: int, n: nat): Outcome
    requires n <= |due|
  {
    if n == 0 then Ok(st)
    else
      match Acted(env, st, due, d, n - 1)
      case Fail(e) => Fail(e)
      case Ok(before) => Act(env, before, due[n - 1], d)
  }

  function Rejected(st: State, p: Pending, reason: Reason): Outcome {
    Ok(st.(rejected := st.rejected + [Rejection(p.tag, p.intent, reason)]))
  }

  function KeptWaiting(st: State, p: Pending): Outcome {
    Ok(st.(pending := st.pending + [p]))
  }

  /** What is left of an order after a partial fill on day d. */
  function Remainder(p: Pending, filled: int, d: int): Pending
    requires p.intent.quantity > filled
  {
    p.(intent := p.intent.(quantity := p.intent.quantity - filled), target := d + 1)
  }

  /** One queued order meets day d. `st.pending` collects the orders that keep waiting. */
  function Settle(env: Env, m: Market, st: State, p: Pending, d: int): Outcome {
    if d < p.target then KeptWaiting(st, p)
    else
      match ExecutionBar(m, p.intent.symbol, d)
      case None => if d <= p.expiry then KeptWaiting(st, p) else Rejected(st, p, NoTradingData)
      case Some(bar) =>
        match TryFill(env.costs, env.participation, p, bar)
        case None => if d < p.expiry then KeptWaiting(st, p) else Rejected(st, p, LimitNeverTouched)
        case Some(fill) =>
          match ApplyFill(env.costs, env.tol, st.account, fill)
          case InsufficientCash => Rejected(st, p, CashShort)
          case OverSell => Rejected(st, p, SoldMoreThanHeld)
          case LotsShort(missing) => Fail(InsufficientLots(missing))
          case Booked(account, gains) =>
            var traded := st.(account := account, trades := st.trades + [Trade(p.tag, fill, gains)]);
            if p.intent.quantity <= fill.quantity then Ok(traded)
            else if d < p.expiry then KeptWaiting(traded, Remainder(p, fill.quantity, d))
            else Rejected(traded, p, RemainderExpired)
  }

  /** The first n queued orders have met day d. */
  function Settled(env: Env, m: Market, st: State, queue: seq<Pending>, d: int, n: nat): Outcome
    requires n <= |queue|
  {
    if n == 0 then Ok(st)
    else
      match Settled(env, m, st, queue, d, n - 1)
      case Fail(e) => Fail(e)
      case Ok(before) => Settle(env, m, before, queue[n - 1], d)
  }

  function Enqueue(env: Env, st: State, intent: OrderIntent, d: int): State {
    st.(pending := st.pending + [Pending(|st.emitted|, intent, d, d + 1, d + env.expiryDays)],
        emitted := st.emitted + [Emission(intent, d)])
  }

  function Enqueued(env: Env, st: State, intents: seq<OrderIntent>, d: int, n: nat): State
    requires n <= |intents|
  {
    if n == 0 then st else Enqueue(env, Enqueued(env, st, intents, d, n - 1), intents[n - 1], d)
  }

  ghost function Valuation(env: Env, m: Market, account: Account, d: int): EquityPoint {
    EquityPoint(d, account.cash, PositionsValue(env.tol, account.positions, Prices(m, d)))
  }

  ghost function Shown(env: Env, m: Market, account: Account, d: int): Observation {
    var total := Valuation(env, m, account, d).TotalValue();
    Observation(d, History(env, m, d), Snapshot(d, account.cash, account.positions, total))
  }

  /** The day's equity point and what the strategy is shown. */
  ghost function Surveyed(env: Env, m: Market, st: State, d: int): State {
    st.(equity := st.equity + [Valuation(env, m, st.account, d)], seen := st.seen + [Shown(env, m, st.account, d)])
  }

  /** End of day: value the portfolio, show the strategy the past, queue what it asks for. */
  ghost function Closed(env: Env, m: Market, st: State, d: int): State {
    var valued := Surveyed(env, m, st, d);
    var intents := env.strategy(valued.seen);
    Enqueued(env, valued, intents, d, |intents|)
  }

  ghost function Day(env: Env, m: Market, st: State, d: int): Outcome {
    if d < env.start then Ok(st)
    else
      var due := AllDue(m.actions, d);
      match Acted(env, st, due, d, |due|)
      case Fail(e) => Fail(e)
      case Ok(acted) =>
        match Settled(env, m, acted.(pending := []), acted.pending, d, |acted.pending|)
        case Fail(e) => Fail(e)
        case Ok(settled) => Ok(Closed(env, m, settled, d))
  }

  // The run ----------------------------------------------------------------------------------------------------

  function Initial(env: Env): State {
    State(Account(env.capital, map[], map[]), [], [], [], [], [], [], [], [])
  }

  predicate Increasing(dates: seq<int>) {
    forall i, j :: 0 <= i < j < |dates| ==> dates[i] < dates[j]
  }

  ghost predicate TradesOn(env: Env, m: Market, d: int) {
    d <= env.end && exists s, b :: s in m.bars && b in m.bars[s] && b.date == d
  }

  /** The dates processed: every date up to the configured end on which some symbol has a bar, in order. */
  ghost predicate TradingDates(env: Env, m: Market, dates: seq<int>) {
    && Increasing(dates)
    && forall d :: d in dates <==> TradesOn(env, m, d)
  }

  /** The state after the first n dates. */
  ghost function After(env: Env, m: Market, dates: seq<int>, n: nat): Outcome
    requires n <= |dates|
  {
    if n == 0 then Ok(Initial(env))
    else
      match After(env, m, dates, n - 1)
      case Fail(e) => Fail(e)
      case Ok(before) => Day(env, m, before, dates[n - 1])
  }

  function Abandoned(pending: seq<Pending>): (r: seq<Rejection>)
    ensures |r| == |pending|
  {
    if pending == [] then []
    else Abandoned(pending[..|pending| - 1])
         + [Rejection(pending[|pending| - 1].tag, pending[|pending| - 1].intent, RunEnded)]
  }

  /** Whatever still waits when the data ends is rejected. */
  function Finish(st: State): State {
    st.(rejected := st.rejected + Abandoned(st.pending), pending := [])
  }

  ghost function Result(env: Env, m: Market, dates: seq<int>): Outcome {
    if !Sane(m) then Fail(InvalidBars)
    else
      match After(env, m, dates, |dates|)
      case Fail(e) => Fail(e)
      case Ok(st) => Ok(Finish(st))
  }
}
