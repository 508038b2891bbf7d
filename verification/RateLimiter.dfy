/** Two token buckets, per second and per minute; a call waits until both hold a token. */
module RateLimiter {
  import opened Sums

  datatype Bucket = Bucket(rate: real, capacity: real, tokens: real, last: real) {
    /** Construction refuses a rate or a capacity that is not positive. */
    predicate Valid() {
      rate > 0.0 && capacity > 0.0 && tokens <= capacity
    }
  }

  function Min(a: real, b: real): real { if b < a then b else a }
  function Max(a: real, b: real): real { if b > a then b else a }

  function Full(rate: real, capacity: real, now: real): Bucket {
    Bucket(rate, capacity, capacity, now)
  }

  function Refilled(b: Bucket, now: real): Bucket {
    b.(tokens := Min(b.capacity, b.tokens + Times(now - b.last, b.rate)), last := now)
  }

  /** The wait a refilled bucket asks for. */
  function Wait(b: Bucket, cost: real): real
    requires b.rate > 0.0
  {
    if b.tokens >= cost then 0.0 else (cost - b.tokens) / b.rate
  }

  function Consumed(b: Bucket, now: real, cost: real): Bucket {
    var full := Refilled(b, now);
    full.(tokens := full.tokens - cost)
  }

  class TokenBucket {
    const rate: real
    const capacity: real
    var tokens: real
    var last: real

    function View(): Bucket
      reads this
    {
      Bucket(rate, capacity, tokens, last)
    }

    constructor (ratePerSecond: real, capacity: real, now: real)
      requires ratePerSecond > 0.0 && capacity > 0.0
      ensures View() == Full(ratePerSecond, capacity, now)
    {
      rate := ratePerSecond;
      this.capacity := capacity;
      tokens := capacity;
      last := now;
    }

    method Refill(now: real)
      modifies this
      ensures View() == Refilled(old(View()), now)
    {
      var elapsed := now - last;
      tokens := Min(capacity, tokens + Times(elapsed, rate));
      last := now;
    }

    method TimeUntilAvailable(now: real, cost: real) returns (wait: real)
      requires rate > 0.0
      modifies this
      ensures View() == Refilled(old(View()), now) && wait == Wait(View(), cost)
    {
      Refill(now);
      if tokens >= cost {
        return 0.0;
      }
      var deficit := cost - tokens;
      wait := deficit / rate;
    }

    method Consume(now: real, cost: real)
      modifies this
      ensures View() == Consumed(old(View()), now, cost)
    {
      Refill(now);
      tokens := tokens - cost;
    }
  }

  // ---- One call ----

  /** The four clock readings of a call: a look at each bucket, then, after any sleep, a use of each. */
  datatype Readings = Readings(lookSecond: real, lookMinute: real, useSecond: real, useMinute: real)

  datatype Limiter = Limiter(second: Bucket, minute: Bucket) {
    predicate Valid() {
      second.Valid() && minute.Valid()
    }
  }

  function NewLimiter(callsPerSecond: real, callsPerMinute: real, now: real): (l: Limiter)
    requires callsPerSecond > 0.0 && callsPerMinute > 0.0
    ensures l.Valid()
  {
    Limiter(Full(callsPerSecond, Max(1.0, callsPerSecond), now), Full(callsPerMinute / 60.0, callsPerMinute, now))
  }

  function WaitFor(l: Limiter, r: Readings): real
    requires l.Valid()
  {
    Max(Wait(Refilled(l.second, r.lookSecond), 1.0), Wait(Refilled(l.minute, r.lookMinute), 1.0))
  }

  /** The clock never goes back, and a sleep takes at least as long as was asked. */
  predicate Honoured(l: Limiter, r: Readings)
    requires l.Valid()
  {
    && l.second.last <= r.lookSecond <= r.lookMinute && l.minute.last <= r.lookMinute
    && r.lookMinute + WaitFor(l, r) <= r.useSecond <= r.useMinute
  }

  function Used(b: Bucket, look: real, use: real): Bucket {
    Consumed(Refilled(b, look), use, 1.0)
  }

  function Acquired(l: Limiter, r: Readings): Limiter {
    Limiter(Used(l.second, r.lookSecond, r.useSecond), Used(l.minute, r.lookMinute, r.useMinute))
  }

  /** A bucket just looked at holds `cost` tokens after t seconds exactly when t is at least the wait it asked for. */
  lemma WaitIff(b: Bucket, now: real, cost: real, t: real)
    requires b.Valid() && b.last <= now && t >= 0.0
    ensures var seen := Refilled(b, now);
            Refilled(seen, now + t).tokens >= cost <==> cost <= b.capacity && t >= Wait(seen, cost)
  {
    var seen := Refilled(b, now);
    assert Refilled(seen, now + t).tokens == Min(b.capacity, seen.tokens + Times(t, b.rate)) by {
      assert now + t - now == t;
    }
    TimesMonotone(0.0, t, b.rate);
    if seen.tokens < cost {
      EnoughAfter(b.rate, cost - seen.tokens, t);
    }
  }

  /** Tokens trickle in at the rate: t seconds bring the missing ones exactly from the quotient on. */
  lemma EnoughAfter(rate: real, missing: real, t: real)
    requires rate > 0.0
    ensures Times(t, rate) >= missing <==> t >= missing / rate
  {
    var wait := missing / rate;
    assert wait * rate == missing;
    assert (t - wait) * rate == t * rate - missing;
    assert t >= wait <==> (t - wait) * rate >= 0.0;
  }

  /** The wait of a call is the least after which both buckets hold a token; if either is too small there is none. */
  lemma WaitIsLeast(l: Limiter, r: Readings, t: real)
    requires l.Valid() && l.second.last <= r.lookSecond && l.minute.last <= r.lookMinute && t >= 0.0
    ensures && Refilled(Refilled(l.second, r.lookSecond), r.lookSecond + t).tokens >= 1.0
            && Refilled(Refilled(l.minute, r.lookMinute), r.lookMinute + t).tokens >= 1.0
       <==> l.second.capacity >= 1.0 && l.minute.capacity >= 1.0 && t >= WaitFor(l, r)
  {
    WaitIff(l.second, r.lookSecond, 1.0, t);
    WaitIff(l.minute, r.lookMinute, 1.0, t);
  }

  class RateLimiter {
    const perSecond: TokenBucket
    const perMinute: TokenBucket

    ghost predicate Valid()
      reads this, perSecond, perMinute
    {
      perSecond != perMinute && View().Valid()
    }

    function View(): Limiter
      reads this, perSecond, perMinute
    {
      Limiter(perSecond.View(), perMinute.View())
    }

    constructor (callsPerSecond: real, callsPerMinute: real, now: real)
      requires callsPerSecond > 0.0 && callsPerMinute > 0.0
      ensures Valid() && fresh(perSecond) && fresh(perMinute)
      ensures View() == NewLimiter(callsPerSecond, callsPerMinute, now)
    {
      perSecond := new TokenBucket(callsPerSecond, Max(1.0, callsPerSecond), now);
      perMinute := new TokenBucket(callsPerMinute / 60.0, callsPerMinute, now);
    }

    /** Sleeps for the wait returned; nothing when both buckets hold a token. */
    method Acquire(r: Readings) returns (slept: real)
      requires Valid() && Honoured(View(), r)
      modifies perSecond, perMinute
      ensures Valid() && View() == Acquired(old(View()), r) && slept == WaitFor(old(View()), r)
    {
      ghost var before := View();
      var first := perSecond.TimeUntilAvailable(r.lookSecond, 1.0);
      var second := perMinute.TimeUntilAvailable(r.lookMinute, 1.0);
      slept := Max(first, second);
      perSecond.Consume(r.useSecond, 1.0);
      perMinute.Consume(r.useMinute, 1.0);
      AcquiredIsValid(before, r);
    }
  }

  lemma UsedBounds(b: Bucket, look: real, use: real)
    requires b.Valid() && b.last <= look <= use
    ensures var u := Used(b, look, use);
            && u.rate == b.rate && u.capacity == b.capacity && u.last == use
            && u.tokens <= b.capacity - 1.0
            && u.tokens <= b.tokens + Times(use - b.last, b.rate) - 1.0
  {
    Distribute(look - b.last, use - look, b.rate);
    assert look - b.last + (use - look) == use - b.last;
  }

  lemma AcquiredIsValid(l: Limiter, r: Readings)
    requires l.Valid() && Honoured(l, r)
    ensures Acquired(l, r).Valid()
  {
    WaitIsNonNegative(l, r);
    UsedBounds(l.second, r.lookSecond, r.useSecond);
    UsedBounds(l.minute, r.lookMinute, r.useMinute);
  }

  lemma QuotientTimes(a: real, b: real)
    requires b > 0.0
    ensures Times(a / b, b) == a
    ensures a > 0.0 ==> a / b > 0.0
  {
  }

  lemma WaitIsNonNegative(l: Limiter, r: Readings)
    requires l.Valid()
    ensures WaitFor(l, r) >= 0.0
    ensures Wait(Refilled(l.second, r.lookSecond), 1.0) >= 0.0 && Wait(Refilled(l.minute, r.lookMinute), 1.0) >= 0.0
  {
    WaitIsZeroIff(Refilled(l.second, r.lookSecond));
    WaitIsZeroIff(Refilled(l.minute, r.lookMinute));
  }

  lemma WaitIsZeroIff(b: Bucket)
    requires b.rate > 0.0
    ensures Wait(b, 1.0) >= 0.0 && (Wait(b, 1.0) == 0.0 <==> b.tokens >= 1.0)
  {
    if b.tokens < 1.0 {
      QuotientTimes(1.0 - b.tokens, b.rate);
    }
  }

  /** A call goes through at once exactly when both buckets hold a token. */
  lemma NoWaitIff(l: Limiter, r: Readings)
    requires l.Valid()
    ensures WaitFor(l, r) == 0.0
       <==> Refilled(l.second, r.lookSecond).tokens >= 1.0 && Refilled(l.minute, r.lookMinute).tokens >= 1.0
  {
    WaitIsZeroIff(Refilled(l.second, r.lookSecond));
    WaitIsZeroIff(Refilled(l.minute, r.lookMinute));
  }

  /** After the wait a bucket holds a token, unless its capacity is below one, and then its whole capacity. */
  lemma WaitedEnough(b: Bucket, look: real, use: real)
    requires b.Valid() && look + Wait(Refilled(b, look), 1.0) <= use
    ensures Used(b, look, use).tokens >= Min(1.0, b.capacity) - 1.0
    ensures Used(b, look, use).tokens >= 0.0 <==> b.capacity >= 1.0
  {
    var f := Refilled(b, look);
    WaitIsZeroIff(f);
    TimesMonotone(Wait(f, 1.0), use - look, b.rate);
    if f.tokens < 1.0 {
      QuotientTimes(1.0 - f.tokens, b.rate);
    }
  }

  // ---- Any number of calls ----

  predicate AllHonoured(l: Limiter, rs: seq<Readings>)
    requires l.Valid()
    decreases |rs|
  {
    rs == [] || (Honoured(l, rs[0]) && Acquired(l, rs[0]).Valid() && AllHonoured(Acquired(l, rs[0]), rs[1..]))
  }

  function After(l: Limiter, rs: seq<Readings>): Limiter
    decreases |rs|
  {
    if rs == [] then l else After(Acquired(l, rs[0]), rs[1..])
  }

  /** After a call both buckets hold what waiting for one token can leave. */
  predicate Paid(l: Limiter) {
    && (l.second.tokens >= 0.0 <==> l.second.capacity >= 1.0)
    && (l.minute.tokens >= 0.0 <==> l.minute.capacity >= 1.0)
    && l.second.tokens >= Min(1.0, l.second.capacity) - 1.0
    && l.minute.tokens >= Min(1.0, l.minute.capacity) - 1.0
  }

  lemma CallPays(l: Limiter, r: Readings)
    requires l.Valid() && Honoured(l, r)
    ensures Paid(Acquired(l, r))
    ensures Acquired(l, r).second.capacity == l.second.capacity && Acquired(l, r).minute.capacity == l.minute.capacity
  {
    WaitIsNonNegative(l, r);
    WaitedEnough(l.second, r.lookSecond, r.useSecond);
    WaitedEnough(l.minute, r.lookMinute, r.useMinute);
  }

  /** However many calls were made, a bucket is in debt exactly when its capacity is below one token. */
  lemma {:induction false} NeverNegativeIff(l: Limiter, rs: seq<Readings>)
    requires l.Valid() && AllHonoured(l, rs) && rs != []
    ensures Paid(After(l, rs))
    ensures After(l, rs).second.capacity == l.second.capacity && After(l, rs).minute.capacity == l.minute.capacity
    decreases |rs|
  {
    CallPays(l, rs[0]);
    if |rs| > 1 {
      NeverNegativeIff(Acquired(l, rs[0]), rs[1..]);
    } else {
      assert rs[1..] == [];
    }
  }

  /** Tokens pay for calls: what a bucket holds is bounded by what it had, what came in, and how often it was used. */
  lemma {:induction false} TokensSpent(l: Limiter, rs: seq<Readings>)
    requires l.Valid() && AllHonoured(l, rs)
    ensures var z := After(l, rs);
            && z.Valid() && z.second.rate == l.second.rate && z.second.capacity == l.second.capacity
            && z.minute.rate == l.minute.rate && z.minute.capacity == l.minute.capacity
            && z.second.tokens <= l.second.tokens + Times(z.second.last - l.second.last, l.second.rate) - |rs| as real
            && z.minute.tokens <= l.minute.tokens + Times(z.minute.last - l.minute.last, l.minute.rate) - |rs| as real
            && (rs != [] ==> z.second.last == rs[|rs| - 1].useSecond && z.minute.last == rs[|rs| - 1].useMinute)
    decreases |rs|
  {
    if rs != [] {
      WaitIsNonNegative(l, rs[0]);
      UsedBounds(l.second, rs[0].lookSecond, rs[0].useSecond);
      UsedBounds(l.minute, rs[0].lookMinute, rs[0].useMinute);
      var a := Acquired(l, rs[0]);
      TokensSpent(a, rs[1..]);
      var z := After(l, rs);
      SpanSplits(l.second.last, a.second.last, z.second.last, l.second.rate);
      SpanSplits(l.minute.last, a.minute.last, z.minute.last, l.minute.rate);
    }
  }

  lemma SpanSplits(a: real, b: real, c: real, rate: real)
    ensures Times(c - a, rate) == Times(b - a, rate) + Times(c - b, rate)
  {
    Distribute(b - a, c - b, rate);
    assert b - a + (c - b) == c - a;
  }

  /**
   * Any n consecutive calls, wherever they begin in a run, number at most the capacity, or one, plus the rate times
   * the time between the first and the last, for each bucket.
   */
  lemma RateBound(l: Limiter, rs: seq<Readings>)
    requires l.Valid() && AllHonoured(l, rs) && rs != []
    ensures var first, final := rs[0], rs[|rs| - 1];
            && |rs| as real <= Max(1.0, l.second.capacity) + Times(final.useSecond - first.useSecond, l.second.rate)
            && |rs| as real <= Max(1.0, l.minute.capacity) + Times(final.useMinute - first.useMinute, l.minute.rate)
  {
    WaitIsNonNegative(l, rs[0]);
    UsedBounds(l.second, rs[0].lookSecond, rs[0].useSecond);
    UsedBounds(l.minute, rs[0].lookMinute, rs[0].useMinute);
    TokensSpent(Acquired(l, rs[0]), rs[1..]);
    NeverNegativeIff(l, rs);
    assert rs[1..] != [] ==> rs[1..][|rs[1..]| - 1] == rs[|rs| - 1];
  }

  /** A bucket in use gives up one token and is never emptied by the clock. */
  lemma UsedKeeps(b: Bucket, look: real, use: real)
    requires b.Valid() && b.last <= look <= use
    ensures Refilled(b, look).tokens >= b.tokens && Used(b, look, use).tokens >= b.tokens - 1.0
  {
    TimesMonotone(0.0, look - b.last, b.rate);
    TimesMonotone(0.0, use - look, b.rate);
  }

  /** As many calls as both buckets hold tokens go through without waiting. */
  lemma {:induction false} BurstIsFree(l: Limiter, rs: seq<Readings>, i: nat)
    requires l.Valid() && AllHonoured(l, rs) && i < |rs|
    requires (i + 1) as real <= l.second.tokens && (i + 1) as real <= l.minute.tokens
    ensures After(l, rs[..i]).Valid() && WaitFor(After(l, rs[..i]), rs[i]) == 0.0
    decreases i
  {
    WaitIsNonNegative(l, rs[0]);
    UsedKeeps(l.second, rs[0].lookSecond, rs[0].useSecond);
    UsedKeeps(l.minute, rs[0].lookMinute, rs[0].useMinute);
    if i == 0 {
      NoWaitIff(l, rs[0]);
    } else {
      BurstIsFree(Acquired(l, rs[0]), rs[1..], i - 1);
      assert rs[1..][..i - 1] == rs[..i][1..];
    }
  }

  /** A new limiter starts full: the first calls, up to a minute's worth and a second's or one, do not wait. */
  lemma StartsFull(callsPerSecond: real, callsPerMinute: real, start: real, rs: seq<Readings>, i: nat)
    requires callsPerSecond > 0.0 && callsPerMinute > 0.0 && i < |rs|
    requires AllHonoured(NewLimiter(callsPerSecond, callsPerMinute, start), rs)
    requires (i + 1) as real <= callsPerMinute && (i + 1) as real <= Max(1.0, callsPerSecond)
    ensures var before := After(NewLimiter(callsPerSecond, callsPerMinute, start), rs[..i]);
            before.Valid() && WaitFor(before, rs[i]) == 0.0
  {
    BurstIsFree(NewLimiter(callsPerSecond, callsPerMinute, start), rs, i);
  }

  lemma {:induction false} LaterPart(l: Limiter, rs: seq<Readings>, i: nat)
    requires l.Valid() && AllHonoured(l, rs) && i <= |rs|
    ensures After(l, rs[..i]).Valid() && AllHonoured(After(l, rs[..i]), rs[i..])
    ensures var a := After(l, rs[..i]);
            && a.second.rate == l.second.rate && a.second.capacity == l.second.capacity
            && a.minute.rate == l.minute.rate && a.minute.capacity == l.minute.capacity
    decreases i
  {
    if i > 0 {
      LaterPart(Acquired(l, rs[0]), rs[1..], i - 1);
      assert rs[1..][..i - 1] == rs[..i][1..] && rs[1..][i - 1..] == rs[i..];
    }
  }

  lemma {:induction false} EarlierPart(l: Limiter, rs: seq<Readings>, n: nat)
    requires l.Valid() && AllHonoured(l, rs) && n <= |rs|
    ensures AllHonoured(l, rs[..n])
    decreases n
  {
    if n > 0 {
      EarlierPart(Acquired(l, rs[0]), rs[1..], n - 1);
      assert rs[1..][..n - 1] == rs[..n][1..];
    }
  }

  /** Both budgets hold over every stretch of calls on a limiter made for them. */
  lemma BudgetsHold(callsPerSecond: real, callsPerMinute: real, start: real, rs: seq<Readings>, i: nat, j: nat)
    requires callsPerSecond > 0.0 && callsPerMinute > 0.0 && i < j <= |rs|
    requires AllHonoured(NewLimiter(callsPerSecond, callsPerMinute, start), rs)
    ensures (j - i) as real <= Max(1.0, callsPerSecond) + Times(rs[j - 1].useSecond - rs[i].useSecond, callsPerSecond)
    ensures (j - i) as real
         <= Max(1.0, callsPerMinute) + Times(rs[j - 1].useMinute - rs[i].useMinute, callsPerMinute / 60.0)
  {
    var l := NewLimiter(callsPerSecond, callsPerMinute, start);
    LaterPart(l, rs, i);
    EarlierPart(After(l, rs[..i]), rs[i..], j - i);
    var stretch := rs[i..][..j - i];
    assert stretch[0] == rs[i] && stretch[|stretch| - 1] == rs[j - 1];
    RateBound(After(l, rs[..i]), stretch);
  }
}
