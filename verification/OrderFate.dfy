/** What becomes of a waiting order on a day, told from the bar of the day and from the cash and holdings it meets. */
module OrderFate {
  import opened Common
  import opened Sums
  import opened CostTax
  import opened MarketData
  import opened FillSimulator
  import opened Ledger
  import opened Backtest
  import opened Attribution
  import opened OrderAccounting
  import opened DayData

  // What the day offers ----------------------------------------------------------------------------------------

  /** The day's bar reaches the order, and its volume share holds a whole unit. */
  predicate Reached(env: Env, m: Market, p: Pending, d: int) {
    && ExecutionBar(m, p.intent.symbol, d).Some?
    && Touched(p.intent, ExecutionBar(m, p.intent.symbol, d).value)
    && (env.participation.Some? ==>
          ExecutionBar(m, p.intent.symbol, d).value.volume as real * env.participation.value >= 1.0)
  }

  lemma ReachedIff(env: Env, m: Market, p: Pending, d: int)
    ensures Reached(env, m, p, d)
       <==> && ExecutionBar(m, p.intent.symbol, d).Some?
            && TryFill(env.costs, env.participation, p, ExecutionBar(m, p.intent.symbol, d).value).Some?
  {
    if ExecutionBar(m, p.intent.symbol, d).Some? {
      UnfilledIff(env.costs, env.participation, p, ExecutionBar(m, p.intent.symbol, d).value);
    }
  }

  /** The fill a reached order gets. */
  function DayFill(env: Env, m: Market, p: Pending, d: int): Fill
    requires Reached(env, m, p, d)
  {
    ReachedIff(env, m, p, d);
    TryFill(env.costs, env.participation, p, ExecutionBar(m, p.intent.symbol, d).value).value
  }

  /** Cash covers a purchase with its costs, holdings cover a sale, up to the guard. */
  predicate Bears(env: Env, account: Account, fill: Fill) {
    if fill.side == Buy then
      Times(fill.quantity as real, fill.price) + fill.cost.TotalCost() <= account.cash + env.tol.guard
    else fill.quantity as real <= Held(account, fill.symbol) + env.tol.guard
  }

  /** What a fill realizes: a purchase nothing, a sale what its lots give up first in, first out. */
  function GainsMade(env: Env, account: Account, fill: Fill): seq<RealizedGain> {
    if fill.side == Buy then []
    else
      match MatchLots(env.costs, env.tol.lot, LotsOf(account.lots, fill.symbol), fill.date, fill.quantity as real,
                      fill.price)
      case Matched(gains, _) => gains
      case Short(_) => []
  }

  predicate IsTradeOf(env: Env, account: Account, tag: nat, fill: Fill, t: Trade) {
    t == Trade(tag, fill, GainsMade(env, account, fill))
  }

  predicate Executed(env: Env, m: Market, account: Account, p: Pending, d: int) {
    Reached(env, m, p, d) && Bears(env, account, DayFill(env, m, p, d))
  }

  /** Units executed on day d. */
  function Units(env: Env, m: Market, account: Account, p: Pending, d: int): int {
    if Executed(env, m, account, p, d) then DayFill(env, m, p, d).quantity else 0
  }

  /** The order is given up on day d, for this reason. */
  predicate RefusedFor(env: Env, m: Market, account: Account, p: Pending, d: int, reason: Reason) {
    match reason
    case NoTradingData => !TradesThatDay(m, p.intent.symbol, d) && p.expiry < d
    case LimitNeverTouched => TradesThatDay(m, p.intent.symbol, d) && !Reached(env, m, p, d) && p.expiry <= d
    case CashShort => Reached(env, m, p, d) && !Executed(env, m, account, p, d) && p.intent.side == Buy
    case SoldMoreThanHeld => Reached(env, m, p, d) && !Executed(env, m, account, p, d) && p.intent.side == Sell
    case RemainderExpired =>
      Executed(env, m, account, p, d) && Units(env, m, account, p, d) < p.intent.quantity && p.expiry <= d
    case RunEnded => false
  }

  /** The order waits on after day d, as q. */
  predicate WaitsAs(env: Env, m: Market, account: Account, p: Pending, d: int, q: Pending) {
    if !TradesThatDay(m, p.intent.symbol, d) then d <= p.expiry && q == p
    else if !Reached(env, m, p, d) then d < p.expiry && q == p
    else
      && Executed(env, m, account, p, d) && d < p.expiry
      && Units(env, m, account, p, d) < p.intent.quantity
      && q == Remainder(p, Units(env, m, account, p, d), d)
  }

  /** The account before the j-th order of the queue: the earlier ones that could be executed have been. */
  function AccountBefore(env: Env, m: Market, account: Account, queue: seq<Pending>, d: int, j: nat): Account
    requires j <= |queue|
  {
    if j == 0 then account
    else
      var met, p := AccountBefore(env, m, account, queue, d, j - 1), queue[j - 1];
      if p.target <= d && Executed(env, m, met, p, d) then
        match ApplyFill(env.costs, env.tol, met, DayFill(env, m, p, d))
        case Booked(after, _) => after
        case _ => met
      else met
  }

  /** The account an order of the queue meets: after the day's actions and the orders queued before it. */
  function AccountMet(env: Env, m: Market, st: State, d: int, k: nat): Account
    requires k <= |st.pending|
  {
    var due := AllDue(m.actions, d);
    match Acted(env, st, due, d, |due|)
    case Fail(_) => st.account
    case Ok(acted) => AccountBefore(env, m, acted.account, st.pending, d, k)
  }

  // One order's fill -------------------------------------------------------------------------------------------

  lemma FillOfDay(env: Env, m: Market, p: Pending, d: int)
    requires Reached(env, m, p, d)
    ensures var fill := DayFill(env, m, p, d);
            && fill.symbol == p.intent.symbol && fill.side == p.intent.side
            && 0 < fill.quantity <= p.intent.quantity && fill.date == d && fill.decided == p.decided
            && fill.cost.grossAmount == Times(fill.quantity as real, fill.price)
  {
    ReachedIff(env, m, p, d);
    ExecutionBarSeen(m, p.intent.symbol, d);
    FillSound(env.costs, env.participation, p, ExecutionBar(m, p.intent.symbol, d).value);
  }

  // One order --------------------------------------------------------------------------------------------------

  predicate HasRefusal(rejected: seq<Rejection>, tag: nat, reason: Reason) {
    exists r :: r in rejected && r.tag == tag && r.reason == reason
  }

  predicate FilledOn(trades: seq<Trade>, tag: nat, d: int) {
    exists t :: t in trades && t.tag == tag && t.fill.date == d
  }

  predicate InQueue(queue: seq<Pending>, tag: nat, q: Pending) {
    q.tag == tag && q in queue
  }

  /** Two states that say the same of one tag. */
  ghost predicate SameOfTag(a: State, b: State, tag: nat) {
    && (forall q :: InQueue(a.pending, tag, q) <==> InQueue(b.pending, tag, q))
    && (forall reason :: HasRefusal(a.rejected, tag, reason) <==> HasRefusal(b.rejected, tag, reason))
    && (forall r: Rejection :: r.tag == tag ==> (r in a.rejected <==> r in b.rejected))
    && (forall t: Trade :: t.tag == tag ==> (t in a.trades <==> t in b.trades))
    && Filled(a.trades, tag) == Filled(b.trades, tag)
  }

  /** `after` says of order p what is left of it when day d has met it with this account. */
  ghost predicate Fated(env: Env, m: Market, before: State, after: State, account: Account, p: Pending, d: int) {
    && (forall reason :: HasRefusal(after.rejected, p.tag, reason) <==> RefusedFor(env, m, account, p, d, reason))
    && (forall r :: r in after.rejected && r.tag == p.tag ==> r.intent == p.intent)
    && (forall q :: InQueue(after.pending, p.tag, q) <==> WaitsAs(env, m, account, p, d, q))
    && Filled(after.trades, p.tag) == Filled(before.trades, p.tag) + Units(env, m, account, p, d)
    && (forall t :: t in after.trades && t.tag == p.tag ==>
          t in before.trades
          || (Executed(env, m, account, p, d) && IsTradeOf(env, account, p.tag, DayFill(env, m, p, d), t)))
    && (Executed(env, m, account, p, d) ==>
          exists t :: t in after.trades && IsTradeOf(env, account, p.tag, DayFill(env, m, p, d), t))
  }

  /** Nothing in the queue or among the rejections carries the tag. */
  ghost predicate Unsettled(st: State, tag: nat) {
    && (forall q :: !InQueue(st.pending, tag, q))
    && (forall reason :: !HasRefusal(st.rejected, tag, reason))
    && (forall r :: r in st.rejected ==> r.tag != tag)
  }

  lemma AddedRefusal(rejected: seq<Rejection>, r: Rejection, tag: nat, reason: Reason)
    ensures HasRefusal(rejected + [r], tag, reason)
       <==> HasRefusal(rejected, tag, reason) || (r.tag == tag && r.reason == reason)
  {
    assert r in rejected + [r];
    if HasRefusal(rejected, tag, reason) {
      var x :| x in rejected && x.tag == tag && x.reason == reason;
      assert x in rejected + [r];
    }
  }

  lemma RejectedFate(st: State, p: Pending, why: Reason, tag: nat)
    ensures var r := Rejected(st, p, why).state;
            && (forall reason :: HasRefusal(r.rejected, tag, reason)
                            <==> HasRefusal(st.rejected, tag, reason) || (p.tag == tag && why == reason))
            && (forall x :: x in r.rejected <==> x in st.rejected || x == Rejection(p.tag, p.intent, why))
            && r == st.(rejected := r.rejected)
  {
    forall reason
      ensures HasRefusal(st.rejected + [Rejection(p.tag, p.intent, why)], tag, reason)
         <==> HasRefusal(st.rejected, tag, reason) || (p.tag == tag && why == reason)
    {
      AddedRefusal(st.rejected, Rejection(p.tag, p.intent, why), tag, reason);
    }
  }

  lemma KeptFate(st: State, p: Pending, tag: nat)
    ensures var r := KeptWaiting(st, p).state;
            && (forall q :: InQueue(r.pending, tag, q) <==> InQueue(st.pending, tag, q) || (p.tag == tag && q == p))
            && r == st.(pending := r.pending)
  {
  }

  lemma TradedFate(trades: seq<Trade>, t: Trade, tag: nat)
    ensures Filled(trades + [t], tag) == Filled(trades, tag) + (if t.tag == tag then t.fill.quantity else 0)
    ensures forall x :: x in trades + [t] <==> x in trades || x == t
  {
    AddFilled(trades, t, tag);
  }

  /** The account after meeting an order. */
  lemma SettleAccount(env: Env, m: Market, st: State, p: Pending, d: int)
    requires Settle(env, m, st, p, d).Ok?
    ensures Settle(env, m, st, p, d).state.account
         == if p.target <= d && Executed(env, m, st.account, p, d) then
              match ApplyFill(env.costs, env.tol, st.account, DayFill(env, m, p, d))
              case Booked(after, _) => after
              case _ => st.account
            else st.account
  {
    SettleBooks(env, m, st, p, d);
    ReachedIff(env, m, p, d);
    if Reached(env, m, p, d) {
      FillOfDay(env, m, p, d);
    }
  }

  lemma OtherOrder(env: Env, m: Market, st: State, p: Pending, d: int, tag: nat)
    requires p.tag != tag
    ensures Settle(env, m, st, p, d).Ok? ==> SameOfTag(st, Settle(env, m, st, p, d).state, tag)
  {
    KeptFate(st, p, tag);
    forall why {
      RejectedFate(st, p, why, tag);
    }
    var bar := ExecutionBar(m, p.intent.symbol, d);
    if d >= p.target && bar.Some? && TryFill(env.costs, env.participation, p, bar.value).Some? {
      var fill := TryFill(env.costs, env.participation, p, bar.value).value;
      FillSound(env.costs, env.participation, p, bar.value);
      var r := ApplyFill(env.costs, env.tol, st.account, fill);
      if r.Booked? {
        var t := Trade(p.tag, fill, r.gains);
        var traded := st.(account := r.ledger, trades := st.trades + [t]);
        TradedFate(st.trades, t, tag);
        if fill.quantity < p.intent.quantity {
          KeptFate(traded, Remainder(p, fill.quantity, d), tag);
          RejectedFate(traded, p, RemainderExpired, tag);
        }
      }
    }
  }

  lemma UnreachedFate(env: Env, m: Market, st: State, p: Pending, d: int)
    requires p.target <= d && Unsettled(st, p.tag) && !Reached(env, m, p, d)
    ensures var r := Settle(env, m, st, p, d);
            r.Ok? && Fated(env, m, st, r.state, st.account, p, d)
  {
    ExecutionBarIs(m, p.intent.symbol, d);
    ReachedIff(env, m, p, d);
    KeptFate(st, p, p.tag);
    RejectedFate(st, p, NoTradingData, p.tag);
    RejectedFate(st, p, LimitNeverTouched, p.tag);
  }

  lemma RefusedFate(env: Env, m: Market, st: State, p: Pending, d: int)
    requires p.target <= d && Unsettled(st, p.tag)
    requires Reached(env, m, p, d) && !Executed(env, m, st.account, p, d)
    ensures var r := Settle(env, m, st, p, d);
            r.Ok? && Fated(env, m, st, r.state, st.account, p, d)
  {
    ExecutionBarIs(m, p.intent.symbol, d);
    ReachedIff(env, m, p, d);
    FillOfDay(env, m, p, d);
    RejectedFate(st, p, CashShort, p.tag);
    RejectedFate(st, p, SoldMoreThanHeld, p.tag);
  }

  /** What an executed order turns into: the trade, and the rest of it queued or refused. */
  lemma ExecutedOrder(env: Env, m: Market, st: State, p: Pending, d: int)
    requires p.target <= d && Executed(env, m, st.account, p, d) && Settle(env, m, st, p, d).Ok?
    ensures var fill, r := DayFill(env, m, p, d), ApplyFill(env.costs, env.tol, st.account, DayFill(env, m, p, d));
            && r.Booked? && r.gains == GainsMade(env, st.account, fill)
            && var traded := st.(account := r.ledger, trades := st.trades + [Trade(p.tag, fill, r.gains)]);
               Settle(env, m, st, p, d)
               == if fill.quantity == p.intent.quantity then Ok(traded)
                  else if d < p.expiry then KeptWaiting(traded, Remainder(p, fill.quantity, d))
                  else Rejected(traded, p, RemainderExpired)
  {
    ReachedIff(env, m, p, d);
    FillOfDay(env, m, p, d);
  }

  lemma TradedStateFate(st: State, traded: State, t: Trade, p: Pending)
    requires Unsettled(st, p.tag) && t.tag == p.tag
    requires traded == st.(account := traded.account, trades := st.trades + [t])
    ensures Unsettled(traded, p.tag) && t in traded.trades
    ensures Filled(traded.trades, p.tag) == Filled(st.trades, p.tag) + t.fill.quantity
    ensures forall x :: x in traded.trades ==> x in st.trades || x == t
  {
    TradedFate(st.trades, t, p.tag);
  }

  lemma ExecutedFate(env: Env, m: Market, st: State, p: Pending, d: int)
    requires p.target <= d && Unsettled(st, p.tag) && Executed(env, m, st.account, p, d)
    requires Settle(env, m, st, p, d).Ok?
    ensures Fated(env, m, st, Settle(env, m, st, p, d).state, st.account, p, d)
  {
    ExecutedOrder(env, m, st, p, d);
    FillOfDay(env, m, p, d);
    ExecutionBarIs(m, p.intent.symbol, d);
    var fill := DayFill(env, m, p, d);
    var r := ApplyFill(env.costs, env.tol, st.account, fill);
    var t := Trade(p.tag, fill, r.gains);
    BookedFate(env, m, st, p, d, st.(account := r.ledger, trades := st.trades + [t]), t, Settle(env, m, st, p, d));
  }

  lemma BookedFate(env: Env, m: Market, st: State, p: Pending, d: int, traded: State, t: Trade, r: Outcome)
    requires Unsettled(st, p.tag) && TradesThatDay(m, p.intent.symbol, d)
    requires Executed(env, m, st.account, p, d) && IsTradeOf(env, st.account, p.tag, DayFill(env, m, p, d), t)
    requires t.fill.quantity <= p.intent.quantity
    requires traded == st.(account := traded.account, trades := st.trades + [t])
    requires r == if t.fill.quantity == p.intent.quantity then Ok(traded)
                  else if d < p.expiry then KeptWaiting(traded, Remainder(p, t.fill.quantity, d))
                  else Rejected(traded, p, RemainderExpired)
    ensures Fated(env, m, st, r.state, st.account, p, d)
  {
    TradedStateFate(st, traded, t, p);
    if t.fill.quantity == p.intent.quantity {
      TradedIsFate(env, m, st, p, d, traded, t, r.state, None, None);
    } else if d < p.expiry {
      KeptFate(traded, Remainder(p, t.fill.quantity, d), p.tag);
      TradedIsFate(env, m, st, p, d, traded, t, r.state, Some(Remainder(p, t.fill.quantity, d)), None);
    } else {
      RejectedFate(traded, p, RemainderExpired, p.tag);
      TradedIsFate(env, m, st, p, d, traded, t, r.state, None, Some(RemainderExpired));
    }
  }

  /** After its trade the order has left this in the queue and this refusal, if any. */
  lemma TradedIsFate(env: Env, m: Market, st: State, p: Pending, d: int, traded: State, t: Trade, after: State,
                     rest: Option<Pending>, refusal: Option<Reason>)
    requires TradesThatDay(m, p.intent.symbol, d)
    requires Executed(env, m, st.account, p, d) && IsTradeOf(env, st.account, p.tag, DayFill(env, m, p, d), t)
    requires t in traded.trades && (forall x :: x in traded.trades ==> x in st.trades || x == t)
    requires Filled(traded.trades, p.tag) == Filled(st.trades, p.tag) + t.fill.quantity
    requires after.trades == traded.trades
    requires forall q :: InQueue(after.pending, p.tag, q) <==> rest == Some(q)
    requires forall reason :: HasRefusal(after.rejected, p.tag, reason) <==> refusal == Some(reason)
    requires forall r :: r in after.rejected && r.tag == p.tag ==> r.intent == p.intent
    requires var part := t.fill.quantity < p.intent.quantity;
             && rest == (if part && d < p.expiry then Some(Remainder(p, t.fill.quantity, d)) else None)
             && refusal == (if part && p.expiry <= d then Some(RemainderExpired) else None)
    ensures Fated(env, m, st, after, st.account, p, d)
  {
  }

  lemma OwnOrder(env: Env, m: Market, st: State, p: Pending, d: int)
    requires p.target <= d && Unsettled(st, p.tag) && Settle(env, m, st, p, d).Ok?
    ensures Fated(env, m, st, Settle(env, m, st, p, d).state, st.account, p, d)
  {
    if !Reached(env, m, p, d) {
      UnreachedFate(env, m, st, p, d);
    } else if !Executed(env, m, st.account, p, d) {
      RefusedFate(env, m, st, p, d);
    } else {
      ExecutedFate(env, m, st, p, d);
    }
  }

  // A whole day ------------------------------------------------------------------------------------------------

  /** Entries other than the k-th carry other tags. */
  predicate OnlyEntry(queue: seq<Pending>, k: nat) {
    k < |queue| && forall j :: 0 <= j < |queue| && j != k ==> queue[j].tag != queue[k].tag
  }

  lemma {:induction false} SettledAccount(env: Env, m: Market, st: State, queue: seq<Pending>, d: int, j: nat)
    requires j <= |queue|
    ensures Settled(env, m, st, queue, d, j).Ok? ==>
              Settled(env, m, st, queue, d, j).state.account == AccountBefore(env, m, st.account, queue, d, j)
  {
    if j > 0 {
      SettledAccount(env, m, st, queue, d, j - 1);
      if Settled(env, m, st, queue, d, j).Ok? {
        SettleAccount(env, m, Settled(env, m, st, queue, d, j - 1).state, queue[j - 1], d);
      }
    }
  }

  lemma SameOfTagUnsettled(a: State, b: State, tag: nat)
    requires SameOfTag(a, b, tag) && Unsettled(a, tag)
    ensures Unsettled(b, tag)
  {
  }

  lemma SameBeforeFated(env: Env, m: Market, a: State, b: State, after: State, account: Account, p: Pending, d: int)
    requires SameOfTag(a, b, p.tag) && Fated(env, m, b, after, account, p, d)
    ensures Fated(env, m, a, after, account, p, d)
  {
  }

  lemma SameAfterFated(env: Env, m: Market, before: State, a: State, b: State, account: Account, p: Pending, d: int)
    requires Fated(env, m, before, a, account, p, d) && SameOfTag(a, b, p.tag)
    ensures Fated(env, m, before, b, account, p, d)
  {
  }

  /** After j orders of the queue, the k-th is untouched if it has not had its turn, and has met its fate if it has. */
  lemma {:induction false} SettledFate(
    env: Env, m: Market, st: State, queue: seq<Pending>, d: int, k: nat, j: nat)
    requires OnlyEntry(queue, k) && j <= |queue| && queue[k].target <= d && Unsettled(st, queue[k].tag)
    requires Settled(env, m, st, queue, d, j).Ok?
    ensures var after, p := Settled(env, m, st, queue, d, j).state, queue[k];
            if j <= k then SameOfTag(st, after, p.tag)
            else Fated(env, m, st, after, AccountBefore(env, m, st.account, queue, d, k), p, d)
  {
    if j > 0 {
      SettledFate(env, m, st, queue, d, k, j - 1);
      var before, after := Settled(env, m, st, queue, d, j - 1).state, Settled(env, m, st, queue, d, j).state;
      var account, p := AccountBefore(env, m, st.account, queue, d, k), queue[k];
      if j - 1 == k {
        SettledAccount(env, m, st, queue, d, k);
        SameOfTagUnsettled(st, before, p.tag);
        OwnOrder(env, m, before, p, d);
        SameBeforeFated(env, m, st, before, after, account, p, d);
      } else {
        OtherOrder(env, m, before, queue[j - 1], d, p.tag);
        if j - 1 > k {
          SameAfterFated(env, m, st, before, after, account, p, d);
        }
      }
    }
  }

  lemma {:induction false} EntriesAtLeast(queue: seq<Pending>, k: nat, j: nat)
    requires k < j < |queue| && queue[k].tag == queue[j].tag
    ensures Entries(queue, queue[k].tag) >= 2
  {
    if k == 0 {
      EntryCounts(queue[1..], j - 1);
    } else {
      EntriesAtLeast(queue[1..], k - 1, j - 1);
    }
  }

  lemma {:induction false} EntryCounts(queue: seq<Pending>, j: nat)
    requires j < |queue|
    ensures Entries(queue, queue[j].tag) >= 1
  {
    if j > 0 {
      EntryCounts(queue[1..], j - 1);
    }
  }

  lemma {:induction false} RefusalCounts(rejected: seq<Rejection>, tag: nat)
    requires Refusals(rejected, tag) == 0
    ensures forall r :: r in rejected ==> r.tag != tag
  {
    if rejected != [] {
      var fewer, last := rejected[..|rejected| - 1], rejected[|rejected| - 1];
      RefusalCounts(fewer, tag);
      assert rejected == fewer + [last];
    }
  }

  lemma QueueHasOneEach(st: State, k: nat)
    requires Accounted(st, []) && k < |st.pending|
    ensures OnlyEntry(st.pending, k)
    ensures st.pending[k].tag < |st.emitted|
    ensures forall reason :: !HasRefusal(st.rejected, st.pending[k].tag, reason)
    ensures forall r :: r in st.rejected ==> r.tag != st.pending[k].tag
  {
    var tag := st.pending[k].tag;
    assert st.pending + [] == st.pending;
    assert TagOk(st, st.pending + [], tag);
    EntryCounts(st.pending, k);
    RefusalCounts(st.rejected, tag);
    forall j | 0 <= j < |st.pending| && j != k
      ensures st.pending[j].tag != tag
    {
      if st.pending[j].tag == tag {
        EntriesAtLeast(st.pending, if j < k then j else k, if j < k then k else j);
        assert false;
      }
    }
  }

  lemma {:induction false} EnqueuedOthers(env: Env, st: State, intents: seq<OrderIntent>, d: int, n: nat, tag: nat)
    requires n <= |intents| && tag < |st.emitted|
    ensures var r := Enqueued(env, st, intents, d, n);
            SameOfTag(st, r, tag) && |r.emitted| == |st.emitted| + n
  {
    if n > 0 {
      EnqueuedOthers(env, st, intents, d, n - 1, tag);
    }
  }

  lemma QueueIsTargeted(env: Env, st: State, dates: seq<int>, n: nat)
    requires Increasing(dates) && n < |dates| && OnTime(env, st, dates, n)
    ensures forall p :: p in st.pending ==> p.target <= dates[n]
  {
    forall p | p in st.pending
      ensures p.target <= dates[n]
    {
      assert QueuedOnTime(env, st.emitted, p, dates[n - 1]);
    }
  }

  /** Settlement leaves the log of intents and the strategy's memory alone. */
  lemma {:induction false} SettledLog(env: Env, m: Market, st: State, queue: seq<Pending>, d: int, n: nat)
    requires n <= |queue|
    ensures var r := Settled(env, m, st, queue, d, n);
            r.Ok? ==> r.state.emitted == st.emitted && r.state.seen == st.seen
  {
    if n > 0 {
      SettledLog(env, m, st, queue, d, n - 1);
    }
  }

  lemma DayFate(env: Env, m: Market, st: State, d: int, k: nat)
    requires d >= env.start && Day(env, m, st, d).Ok? && Accounted(st, []) && k < |st.pending|
    requires st.pending[k].target <= d
    ensures Fated(env, m, st, Day(env, m, st, d).state, AccountMet(env, m, st, d, k), st.pending[k], d)
  {
    var due, p := AllDue(m.actions, d), st.pending[k];
    QueueHasOneEach(st, k);
    ActedFrame(env, st, due, d, |due|);
    var acted := Acted(env, st, due, d, |due|).state;
    var cleared := acted.(pending := []);
    SettledFate(env, m, cleared, st.pending, d, k, |st.pending|);
    SettledLog(env, m, cleared, st.pending, d, |st.pending|);
    var settled := Settled(env, m, cleared, st.pending, d, |st.pending|).state;
    var surveyed := Surveyed(env, m, settled, d);
    var intents := env.strategy(surveyed.seen);
    EnqueuedOthers(env, surveyed, intents, d, |intents|, p.tag);
    SameAfterFated(env, m, cleared, surveyed, Day(env, m, st, d).state, AccountMet(env, m, st, d, k), p, d);
  }

  /**
   * The fate of every waiting order on every day of every run. It is refused exactly for the reasons told from the
   * day's bar, its expiry and the account it meets; otherwise it is executed for the units told by them, and what is
   * left of it, or all of it, waits on.
   */
  lemma FateOfOrder(env: Env, m: Market, dates: seq<int>, n: nat, k: nat)
    requires Increasing(dates) && n < |dates| && After(env, m, dates, n + 1).Ok?
    requires After(env, m, dates, n).Ok? && k < |After(env, m, dates, n).state.pending|
    ensures var before, after := After(env, m, dates, n).state, After(env, m, dates, n + 1).state;
            Fated(env, m, before, after, AccountMet(env, m, before, dates[n], k), before.pending[k], dates[n])
  {
    var before, d := After(env, m, dates, n).state, dates[n];
    AlwaysAccounted(env, m, dates, n);
    AlwaysOnTime(env, m, dates, n);
    QueueIsTargeted(env, before, dates, n);
    assert before.pending[k] in before.pending;
    DayFate(env, m, before, d, k);
  }

  /** In particular, an order its symbol gives no bar stays queued as it is until its expiry. */
  lemma WaitsForBar(env: Env, m: Market, dates: seq<int>, n: nat, k: nat)
    requires Increasing(dates) && n < |dates| && After(env, m, dates, n + 1).Ok?
    requires After(env, m, dates, n).Ok? && k < |After(env, m, dates, n).state.pending|
    requires var p := After(env, m, dates, n).state.pending[k];
             !TradesThatDay(m, p.intent.symbol, dates[n]) && dates[n] <= p.expiry
    ensures var before, after := After(env, m, dates, n).state, After(env, m, dates, n + 1).state;
            var p := before.pending[k];
            && p in after.pending && (forall reason :: !HasRefusal(after.rejected, p.tag, reason))
            && Filled(after.trades, p.tag) == Filled(before.trades, p.tag)
  {
    FateOfOrder(env, m, dates, n, k);
    var p := After(env, m, dates, n).state.pending[k];
    ExecutionBarIs(m, p.intent.symbol, dates[n]);
    assert WaitsAs(env, m, AccountMet(env, m, After(env, m, dates, n).state, dates[n], k), p, dates[n], p);
    assert InQueue(After(env, m, dates, n + 1).state.pending, p.tag, p);
  }

  // New orders -------------------------------------------------------------------------------------------------

  lemma {:induction false} EnqueuedAdds(env: Env, st: State, intents: seq<OrderIntent>, d: int, n: nat)
    requires n <= |intents|
    ensures var r := Enqueued(env, st, intents, d, n);
            && r == st.(pending := r.pending, emitted := r.emitted)
            && |r.emitted| == |st.emitted| + n && r.emitted[..|st.emitted|] == st.emitted
            && (forall i :: 0 <= i < n ==> r.emitted[|st.emitted| + i] == Emission(intents[i], d))
            && |r.pending| == |st.pending| + n && r.pending[..|st.pending|] == st.pending
            && (forall i :: 0 <= i < n ==>
                  r.pending[|st.pending| + i] == Pending(|st.emitted| + i, intents[i], d, d + 1, d + env.expiryDays))
  {
    if n > 0 {
      EnqueuedAdds(env, st, intents, d, n - 1);
    }
  }

  /** The day as a strategy sees it: its history, and the account with the positions at the day's prices. */
  ghost predicate ShowsDay(env: Env, m: Market, account: Account, d: int, seen: Observation) {
    && seen.date == d && seen.history == History(env, m, d)
    && seen.portfolio.asOf == d
    && seen.portfolio.cash == account.cash && seen.portfolio.positions == account.positions
    && seen.portfolio.totalValue == account.cash + PositionsValue(env.tol, account.positions, Prices(m, d))
  }

  /** The strategy was shown the day as `after` has it, and its orders are logged and queued. */
  ghost predicate Asked(env: Env, m: Market, before: State, after: State, d: int) {
    var k, intents := |before.emitted|, env.strategy(after.seen);
    && |after.seen| == |before.seen| + 1 && after.seen[..|before.seen|] == before.seen
    && ShowsDay(env, m, after.account, d, after.seen[|before.seen|])
    && |after.emitted| == k + |intents| && after.emitted[..k] == before.emitted
    && |after.pending| >= |intents|
    && forall i :: 0 <= i < |intents| ==>
         && after.emitted[k + i] == Emission(intents[i], d)
         && after.pending[|after.pending| - |intents| + i] == Pending(k + i, intents[i], d, d + 1, d + env.expiryDays)
  }

  lemma ClosedAsks(env: Env, m: Market, st: State, d: int)
    ensures Asked(env, m, st, Closed(env, m, st, d), d)
  {
    var surveyed := Surveyed(env, m, st, d);
    EnqueuedAdds(env, surveyed, env.strategy(surveyed.seen), d, |env.strategy(surveyed.seen)|);
  }

  lemma DayAsks(env: Env, m: Market, st: State, d: int)
    requires d >= env.start && Day(env, m, st, d).Ok?
    ensures Asked(env, m, st, Day(env, m, st, d).state, d)
  {
    var due := AllDue(m.actions, d);
    ActedFrame(env, st, due, d, |due|);
    var acted := Acted(env, st, due, d, |due|).state;
    SettledLog(env, m, acted.(pending := []), acted.pending, d, |acted.pending|);
    ClosedAsks(env, m, Settled(env, m, acted.(pending := []), acted.pending, d, |acted.pending|).state, d);
  }

  /**
   * Every day from the start, the strategy is shown the day's history and the account as the day leaves it; each of
   * its orders is logged, and queued for the next day with the configured life.
   */
  lemma OrdersOfDay(env: Env, m: Market, dates: seq<int>, n: nat)
    requires n < |dates| && dates[n] >= env.start && After(env, m, dates, n + 1).Ok?
    ensures After(env, m, dates, n).Ok?
    ensures Asked(env, m, After(env, m, dates, n).state, After(env, m, dates, n + 1).state, dates[n])
  {
    DayAsks(env, m, After(env, m, dates, n).state, dates[n]);
  }

  lemma {:induction false} AbandonedAre(pending: seq<Pending>, r: Rejection)
    ensures r in Abandoned(pending) <==> exists p :: p in pending && r == Rejection(p.tag, p.intent, RunEnded)
  {
    if pending != [] {
      var fewer, last := pending[..|pending| - 1], pending[|pending| - 1];
      AbandonedAre(fewer, r);
      assert pending == fewer + [last];
    }
  }

  /** When the data ends, exactly the orders still waiting are refused for that reason; nothing else is. */
  lemma RefusedAtEnd(env: Env, m: Market, dates: seq<int>, r: Rejection)
    requires Result(env, m, dates).Ok?
    ensures After(env, m, dates, |dates|).Ok?
    ensures var st := After(env, m, dates, |dates|).state;
            r in Result(env, m, dates).state.rejected
            <==> r in st.rejected || exists p :: p in st.pending && r == Rejection(p.tag, p.intent, RunEnded)
  {
    AbandonedAre(After(env, m, dates, |dates|).state.pending, r);
  }
}
