/** The per-tenant token bucket, as one call sees it: refill, decide, expire.
    Money and floats are reals, times are whole milliseconds. */
module TokenBucket {
  import opened Wrappers
  import opened Reals

  datatype Limits = Limits(capacity: real, rate: real) {
    ghost predicate Valid() { 0.0 < capacity && 0.0 < rate }
  }

  datatype Bucket = Bucket(tokens: real, lastRefillMs: int)

  /** What Redis holds under a tenant's key: both hash fields, or nothing. */
  type Stored = Option<Bucket>

  datatype Verdict = Verdict(allowed: bool, retryAfter: real, bucket: Bucket)

  /** WATCH/EXEC attempts a call makes before it gives up. */
  const MAX_TRIES: nat := 5

  datatype Call = Call(nowMs: int, cost: real)

  /** The balance a caller with clock `nowMs` computes from the stored hash. */
  function Refilled(p: Limits, s: Stored, nowMs: int): real {
    match s
    case None => p.capacity
    case Some(b) => Min(p.capacity, b.tokens + Max(0.0, (nowMs - b.lastRefillMs) as real / 1000.0) * p.rate)
  }

  /** Refill, then admit and subtract, or deny and say when to come back. */
  function Decide(p: Limits, s: Stored, c: Call): Verdict
    requires p.rate != 0.0
  {
    var tokens := Refilled(p, s, c.nowMs);
    if tokens < c.cost
    then Verdict(false, (c.cost - tokens) / p.rate, Bucket(tokens, c.nowMs))
    else Verdict(true, 0.0, Bucket(tokens - c.cost, c.nowMs))
  }

  /** Time to live given to the key by every write. */
  function TtlMs(p: Limits): int
    requires p.rate != 0.0
  {
    var ms := (p.capacity / p.rate * 2000.0).Floor;
    if ms < 1000 then 1000 else ms
  }

  ghost predicate InRange(p: Limits, s: Stored) {
    s.Some? ==> 0.0 <= s.value.tokens <= p.capacity
  }

  // ---------------------------------------------------------------- refill

  lemma DecideStaysInRange(p: Limits, s: Stored, c: Call)
    requires p.Valid() && InRange(p, s) && 0.0 <= c.cost
    ensures 0.0 <= Refilled(p, s, c.nowMs) <= p.capacity
    ensures InRange(p, Some(Decide(p, s, c).bucket))
  {
    if s.Some? {
      ProductNonNegative(Max(0.0, (c.nowMs - s.value.lastRefillMs) as real / 1000.0), p.rate);
    }
  }

  /** Refilling at t1 and again at t2 is refilling once at t2, exactly when the
      first refill did not move the stored time backwards (or it cannot matter). */
  lemma RefillComposes(p: Limits, b: Bucket, t1: int, t2: int)
    requires p.Valid() && InRange(p, Some(b)) && t1 <= t2
    ensures
      (Refilled(p, Some(Bucket(Refilled(p, Some(b), t1), t1)), t2) == Refilled(p, Some(b), t2))
      <==> (b.lastRefillMs <= t1 || t1 == t2 || Refilled(p, Some(b), t2) == p.capacity)
  {
    var early := Max(0.0, (t1 - b.lastRefillMs) as real / 1000.0);
    var late := Max(0.0, (t2 - b.lastRefillMs) as real / 1000.0);
    var between := (t2 - t1) as real / 1000.0;
    ProductNonNegative(early, p.rate);
    ProductNonNegative(late, p.rate);
    ProductNonNegative(between, p.rate);
    if b.lastRefillMs <= t1 {
      assert late == early + between;
      assert late * p.rate == early * p.rate + between * p.rate;
    } else if t1 < t2 {
      assert early == 0.0 && late < between;
      ScaleOrder(between, late, p.rate);
    }
  }

  /** Last stored time, or `nowMs` when there is none. */
  function LastOr(s: Stored, nowMs: int): int {
    if s.Some? then s.value.lastRefillMs else nowMs
  }

  ghost predicate NonDecreasing(from: int, calls: seq<Call>)
    decreases |calls|
  {
    calls == [] || (from <= calls[0].nowMs && NonDecreasing(calls[0].nowMs, calls[1..]))
  }

  /** The hash after serving `calls` one after another. */
  function ServeAll(p: Limits, s: Stored, calls: seq<Call>): Stored
    requires p.rate != 0.0
    decreases |calls|
  {
    if calls == [] then s else ServeAll(p, Some(Decide(p, s, calls[0]).bucket), calls[1..])
  }

  ghost predicate AllDenied(p: Limits, s: Stored, calls: seq<Call>)
    requires p.rate != 0.0
    decreases |calls|
  {
    calls != [] ==>
      !Decide(p, s, calls[0]).allowed && AllDenied(p, Some(Decide(p, s, calls[0]).bucket), calls[1..])
  }

  /** One refused poll, as any later reader sees it. */
  lemma DeniedPollIsInvisible(p: Limits, s: Stored, poll: Call, t: int)
    requires p.Valid() && InRange(p, s) && !Decide(p, s, poll).allowed
    requires LastOr(s, poll.nowMs) <= poll.nowMs <= t
    ensures Refilled(p, Some(Decide(p, s, poll).bucket), t) == Refilled(p, s, t)
  {
    if s.Some? {
      RefillComposes(p, s.value, poll.nowMs, t);
    } else {
      ProductNonNegative((t - poll.nowMs) as real / 1000.0, p.rate);
    }
  }

  lemma SameBalanceSameVerdict(p: Limits, s: Stored, s': Stored, c: Call)
    requires p.rate != 0.0 && Refilled(p, s, c.nowMs) == Refilled(p, s', c.nowMs)
    ensures Decide(p, s, c) == Decide(p, s', c)
  {
  }

  /** Any number of refused polls on a clock that does not run backwards leaves
      every later decision, and the state it writes, as if they had not happened. */
  lemma {:induction false} DeniedPollsAreInvisible(p: Limits, s: Stored, polls: seq<Call>, next: Call)
    requires p.Valid() && InRange(p, s)
    requires forall i :: 0 <= i < |polls| ==> 0.0 <= polls[i].cost
    requires polls != [] ==> NonDecreasing(LastOr(s, polls[0].nowMs), polls + [next])
    requires AllDenied(p, s, polls)
    ensures Decide(p, ServeAll(p, s, polls), next) == Decide(p, s, next)
    decreases |polls|
  {
    if polls != [] {
      var after := Some(Decide(p, s, polls[0]).bucket);
      assert polls + [next] == [polls[0]] + (polls[1..] + [next]);
      DecideStaysInRange(p, s, polls[0]);
      assert (polls + [next])[1..] == polls[1..] + [next];
      LastIsLatest(polls[0].nowMs, polls[1..] + [next]);
      DeniedPollIsInvisible(p, s, polls[0], next.nowMs);
      SameBalanceSameVerdict(p, after, s, next);
      assert LastOr(after, 0) == polls[0].nowMs;
      DeniedPollsAreInvisible(p, after, polls[1..], next);
    }
  }

  lemma {:induction false} LastIsLatest(from: int, calls: seq<Call>)
    requires calls != [] && NonDecreasing(from, calls)
    ensures from <= calls[|calls| - 1].nowMs
    decreases |calls|
  {
    if |calls| > 1 {
      LastIsLatest(calls[0].nowMs, calls[1..]);
    }
  }

  // ----------------------------------------------------------- Retry-After

  /** After a refusal and with no other traffic, a call is admitted at `t`
      exactly when the advertised wait has passed and the cost can ever fit. */
  lemma RetryAfterIsExact(p: Limits, s: Stored, c: Call, t: int)
    requires p.Valid() && InRange(p, s) && !Decide(p, s, c).allowed && c.nowMs <= t
    ensures var v := Decide(p, s, c);
            Decide(p, Some(v.bucket), Call(t, c.cost)).allowed
            <==> (c.cost <= p.capacity && v.retryAfter * 1000.0 <= (t - c.nowMs) as real)
  {
    var v := Decide(p, s, c);
    var waited := (t - c.nowMs) as real / 1000.0;
    var missing, gained := c.cost - v.bucket.tokens, waited * p.rate;
    assert v.retryAfter * p.rate == missing by {
      QuotientTimesDivisor(missing, p.rate);
    }
    assert v.retryAfter <= waited <==> missing <= gained by {
      ScaleOrder(v.retryAfter, waited, p.rate);
    }
    assert v.retryAfter * 1000.0 <= (t - c.nowMs) as real <==> v.retryAfter <= waited;
    WaitFills(p, v.bucket, t);
  }

  /** After a wait the balance has grown by what was gained, up to the capacity. */
  lemma WaitFills(p: Limits, b: Bucket, t: int)
    requires b.lastRefillMs <= t
    ensures Refilled(p, Some(b), t) == Min(p.capacity, b.tokens + (t - b.lastRefillMs) as real / 1000.0 * p.rate)
  {
  }

  /** Seconds sent in the Retry-After header: at least 1, rounded up. */
  function RetryAfterHeader(retryAfter: real): int {
    var seconds := -(-Max(retryAfter, 0.001)).Floor;
    if seconds < 1 then 1 else seconds
  }

  /** Waiting the header's seconds admits the call if its cost fits the bucket at
      all, and no smaller positive number of seconds does. */
  lemma HeaderIsLeastWait(p: Limits, s: Stored, c: Call, seconds: int)
    requires p.Valid() && InRange(p, s) && !Decide(p, s, c).allowed && 1 <= seconds
    ensures var v := Decide(p, s, c);
            Decide(p, Some(v.bucket), Call(c.nowMs + 1000 * seconds, c.cost)).allowed
            <==> (c.cost <= p.capacity && RetryAfterHeader(v.retryAfter) <= seconds)
  {
    RetryAfterIsExact(p, s, c, c.nowMs + 1000 * seconds);
    var r := Decide(p, s, c).retryAfter;
    assert (1000 * seconds) as real == 1000.0 * (seconds as real);
    CeilIsLeast(Max(r, 0.001), seconds);
  }

  // ---------------------------------------------------------------- expiry

  /** A key lives for twice the time a full refill takes, in whole milliseconds, and for a
      second at least. */
  lemma TtlIsTwiceTheRefill(p: Limits)
    requires p.Valid()
    ensures var twice := p.capacity / p.rate * 2000.0;
            if twice < 1001.0 then TtlMs(p) == 1000 else TtlMs(p) as real <= twice < TtlMs(p) as real + 1.0
  {
    var twice := p.capacity / p.rate * 2000.0;
    if twice < 1001.0 {
      assert twice.Floor as real <= twice < 1001.0;
      assert twice.Floor <= 1000;
    } else {
      assert twice < twice.Floor as real + 1.0;
      assert 1000 <= twice.Floor;
    }
  }

  lemma TtlCoversRefill(p: Limits)
    requires p.Valid()
    ensures p.capacity / p.rate * 1000.0 <= TtlMs(p) as real
  {
    var x := p.capacity / p.rate;
    var f := (x * 2000.0).Floor;
    QuotientTimesDivisor(p.capacity, p.rate);
    assert 0.0 < x;
    assert x * 2000.0 < (f + 1) as real;
    if f < 1000 {
      assert (f + 1) as real <= 1000.0;
    } else {
      assert (f + 1) as real == f as real + 1.0;
      assert 1000.0 <= f as real;
    }
  }

  /** A caller whose clock reading is `lagMs` older than the moment it reads Redis
      cannot tell an expired bucket from a live one, exactly when the lag fits in
      the slack between the time to live and the time a refill needs. */
  lemma ExpiryInvisibleIff(p: Limits, lagMs: nat)
    requires p.Valid() && lagMs <= TtlMs(p)
    ensures (forall b: Bucket, now: int ::
               InRange(p, Some(b)) && b.lastRefillMs + TtlMs(p) <= now + lagMs ==>
                 Refilled(p, Some(b), now) == p.capacity)
            <==> p.capacity / p.rate * 1000.0 <= (TtlMs(p) - lagMs) as real
  {
    var x := p.capacity / p.rate;
    QuotientTimesDivisor(p.capacity, p.rate);
    if x * 1000.0 <= (TtlMs(p) - lagMs) as real {
      forall b: Bucket, now: int | InRange(p, Some(b)) && b.lastRefillMs + TtlMs(p) <= now + lagMs
        ensures Refilled(p, Some(b), now) == p.capacity
      {
        LongWaitFills(p, b, now);
      }
    } else {
      var b := Bucket(0.0, 0);
      var now := TtlMs(p) - lagMs;
      var waited := now as real / 1000.0;
      ScaleOrder(x, waited, p.rate);
      assert Refilled(p, Some(b), now) == Min(p.capacity, waited * p.rate) < p.capacity;
      assert InRange(p, Some(b)) && b.lastRefillMs + TtlMs(p) <= now + lagMs;
    }
  }

  lemma LongWaitFills(p: Limits, b: Bucket, now: int)
    requires p.Valid() && InRange(p, Some(b))
    requires p.capacity / p.rate * 1000.0 <= (now - b.lastRefillMs) as real
    ensures Refilled(p, Some(b), now) == p.capacity
  {
    var x := p.capacity / p.rate;
    var waited := (now - b.lastRefillMs) as real / 1000.0;
    QuotientTimesDivisor(p.capacity, p.rate);
    ScaleOrder(x, waited, p.rate);
    ScaleOrder(x, 0.0, p.rate);
    assert Max(0.0, waited) == waited;
  }

  /** One call of a run in which Redis may have dropped the key beforehand. */
  datatype Poll = Poll(call: Call, expired: bool)

  /** What the caller of `q` finds. */
  function Found(s: Stored, q: Poll): Stored { if q.expired then None else s }

  /** Decisions of a run, one per call. */
  function Decisions(p: Limits, s: Stored, polls: seq<Poll>, honourExpiry: bool): seq<Verdict>
    requires p.rate != 0.0
    decreases |polls|
  {
    if polls == [] then [] else
    var v := Decide(p, if honourExpiry then Found(s, polls[0]) else s, polls[0].call);
    [v] + Decisions(p, Some(v.bucket), polls[1..], honourExpiry)
  }

  /** A key may only be gone once its time to live has run out since the last
      write, with the caller's clock reading at most `lagMs` behind. */
  ghost predicate ExpiriesAreDue(p: Limits, s: Stored, polls: seq<Poll>, lagMs: nat)
    requires p.rate != 0.0
    decreases |polls|
  {
    polls != [] ==>
      var q := polls[0];
      && 0.0 <= q.call.cost
      && (q.expired ==> s.Some? && s.value.lastRefillMs + TtlMs(p) <= q.call.nowMs + lagMs)
      && ExpiriesAreDue(p, Some(Decide(p, Found(s, q), q.call).bucket), polls[1..], lagMs)
  }

  /** Over whole runs: every decision, wait and written state is the same whether
      or not due buckets were dropped. */
  lemma {:induction false} ExpiryIsUnobservable(p: Limits, s: Stored, polls: seq<Poll>, lagMs: nat)
    requires p.Valid() && InRange(p, s)
    requires p.capacity / p.rate * 1000.0 <= (TtlMs(p) - lagMs) as real
    requires ExpiriesAreDue(p, s, polls, lagMs)
    ensures Decisions(p, s, polls, true) == Decisions(p, s, polls, false)
    decreases |polls|
  {
    if polls != [] {
      var q := polls[0];
      if q.expired {
        LongWaitFills(p, s.value, q.call.nowMs);
      }
      var v := Decide(p, s, q.call);
      assert Decide(p, Found(s, q), q.call) == v;
      DecideStaysInRange(p, s, q.call);
      ExpiryIsUnobservable(p, Some(v.bucket), polls[1..], lagMs);
    }
  }
}
