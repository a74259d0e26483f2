/** RateLimitService: one call's retry loop over a Redis key that other
    gateway processes may rewrite between any two of its commands. */
module RateLimiter {
  import opened Wrappers
  import opened Reals
  import opened TokenBucket

  /** The Redis hash of one tenant. */
  class BucketKey {
    var stored: Stored

    constructor (stored: Stored)
      ensures this.stored == stored
    {
      this.stored := stored;
    }
  }

  /** What other clients do to the key during one try: between WATCH and HMGET, and
      between HMGET and the try's own write. None means they leave it alone. */
  datatype Rival = Rival(beforeRead: Option<Stored>, afterRead: Option<Stored>) {
    predicate Quiet() { beforeRead.None? && afterRead.None? }
  }

  function Overwritten(s: Stored, write: Option<Stored>): Stored {
    if write.Some? then write.value else s
  }

  function AfterRival(s: Stored, r: Rival): Stored {
    Overwritten(Overwritten(s, r.beforeRead), r.afterRead)
  }

  /** The key as `k` tries that wrote nothing leave it. */
  function LeftBy(s: Stored, rivals: seq<Rival>, k: nat): Stored
    requires k <= |rivals|
  {
    if k == 0 then s else AfterRival(LeftBy(s, rivals, k - 1), rivals[k - 1])
  }

  /** What try `k` reads. */
  function SeenAt(s: Stored, rivals: seq<Rival>, k: nat): Stored
    requires k < |rivals|
  {
    Overwritten(LeftBy(s, rivals, k), rivals[k].beforeRead)
  }

  /** Try `k` is the first no rival spoils; it admits, and `s'` is the charged key. */
  ghost predicate ChargedAt(p: Limits, s: Stored, call: Call, rivals: seq<Rival>, k: nat, s': Stored)
    requires p.rate != 0.0 && k < |rivals|
  {
    && (forall j :: 0 <= j < k ==> !rivals[j].Quiet())
    && rivals[k].Quiet()
    && Decide(p, SeenAt(s, rivals, k), call).allowed
    && s' == Some(Decide(p, SeenAt(s, rivals, k), call).bucket)
  }

  /** Try `k` is the first not lost to a rival; it refuses, and `s'` is what it writes,
      whatever the rivals of that try did. */
  ghost predicate RefusedAt(p: Limits, s: Stored, call: Call, rivals: seq<Rival>, k: nat, retryAfter: real, s': Stored)
    requires p.rate != 0.0 && k < |rivals|
  {
    var v := Decide(p, SeenAt(s, rivals, k), call);
    && (forall j :: 0 <= j < k ==> !rivals[j].Quiet())
    && !v.allowed && retryAfter == v.retryAfter && s' == Some(v.bucket)
  }

  /** Every try would have admitted and lost its race; the key is as the rivals left it. */
  ghost predicate LostAllRaces(p: Limits, s: Stored, rivals: seq<Rival>, retryAfter: real, s': Stored)
    requires p.rate != 0.0
  {
    && (forall j :: 0 <= j < |rivals| ==> !rivals[j].Quiet())
    && retryAfter == 1.0 / p.rate && s' == LeftBy(s, rivals, |rivals|)
  }

  /** Capacity and refill per second of a limit per minute. */
  function PerMinute(limit: int): (p: Limits)
    ensures 0 < limit ==> p.Valid()
  {
    Limits(limit as real, limit as real / 60.0)
  }

  /** What a limit per minute means for one call, in terms of the limit alone: a fresh
      bucket holds the limit, a stored one gains the limit every 60 s up to the limit, and
      a refused call is told how long its missing tokens take to arrive. */
  lemma DecideByLimit(limit: int, s: Stored, call: Call)
    requires 0 < limit
    ensures var balance := match s
                           case None => limit as real
                           case Some(b) =>
                             var elapsed := if b.lastRefillMs < call.nowMs then call.nowMs - b.lastRefillMs else 0;
                             var refilled := b.tokens + (elapsed * limit) as real / 60000.0;
                             if limit as real < refilled then limit as real else refilled;
            Decide(PerMinute(limit), s, call)
            == if call.cost <= balance then Verdict(true, 0.0, Bucket(balance - call.cost, call.nowMs))
               else Verdict(false, (call.cost - balance) * 60.0 / limit as real, Bucket(balance, call.nowMs))
  {
  }

  /** `n` calls of cost one at the same moment. */
  function Burst(nowMs: int, n: nat): seq<Call> {
    if n == 0 then [] else [Call(nowMs, 1.0)] + Burst(nowMs, n - 1)
  }

  lemma {:induction false} BurstDrains(limit: int, nowMs: int, left: nat, n: nat)
    requires 0 < limit && left <= limit
    ensures ServeAll(PerMinute(limit), Some(Bucket(left as real, nowMs)), Burst(nowMs, n))
         == Some(Bucket(if n <= left then (left - n) as real else 0.0, nowMs))
    decreases n
  {
    if n > 0 {
      var p, s := PerMinute(limit), Some(Bucket(left as real, nowMs));
      assert Burst(nowMs, n)[1..] == Burst(nowMs, n - 1);
      DecideByLimit(limit, s, Call(nowMs, 1.0));
      BurstDrains(limit, nowMs, if left > 0 then left - 1 else 0, n - 1);
    }
  }

  /** Of any number of calls at one moment a fresh tenant has exactly `limit` admitted, and
      each further one is told to wait the time one token takes. */
  lemma FreshTenantGetsItsLimit(limit: int, nowMs: int, n: nat)
    requires 0 < limit
    ensures var p := PerMinute(limit);
            var v := Decide(p, ServeAll(p, None, Burst(nowMs, n)), Call(nowMs, 1.0));
            (v.allowed <==> n < limit) && (!v.allowed ==> v.retryAfter == 60.0 / limit as real)
  {
    var p, call := PerMinute(limit), Call(nowMs, 1.0);
    DecideByLimit(limit, None, call);
    if n > 0 {
      assert Burst(nowMs, n)[1..] == Burst(nowMs, n - 1);
      BurstDrains(limit, nowMs, limit - 1, n - 1);
      DecideByLimit(limit, ServeAll(p, None, Burst(nowMs, n)), call);
    }
  }

  // ---------------------------------------------------------- Redis failures

  /** The Redis commands of one try, in order: the last three on a refusal, EXEC on an
      admission. */
  datatype Command = WATCH | HMGET | UNWATCH | HSET | PEXPIRE | EXEC

  /** The command of try `at` that raises, and whether Redis had carried it out. */
  datatype Fault = Fault(at: nat, command: Command, applied: bool)

  /** The command is on the branch the try takes. */
  predicate OnBranch(command: Command, allowed: bool) {
    match command
    case WATCH => true
    case HMGET => true
    case EXEC => allowed
    case _ => !allowed
  }

  /** The call gets as far as the failing command: the tries before lost their races. */
  ghost predicate Reached(p: Limits, s: Stored, call: Call, rivals: seq<Rival>, f: Fault)
    requires p.rate != 0.0
  {
    && f.at < |rivals|
    && (forall j :: 0 <= j < f.at ==> Decide(p, SeenAt(s, rivals, j), call).allowed && !rivals[j].Quiet())
    && OnBranch(f.command, Decide(p, SeenAt(s, rivals, f.at), call).allowed)
  }

  /** The failing command was an EXEC that Redis carried out: the call is charged. */
  predicate CommitsFirst(rival: Rival, f: Fault) { f.command == EXEC && f.applied && rival.Quiet() }

  /** What a failing try that found `s` leaves. */
  function LeftByTry(p: Limits, s: Stored, call: Call, rival: Rival, f: Fault): Stored
    requires p.rate != 0.0
  {
    var seen := Overwritten(s, rival.beforeRead);
    var own := Some(Decide(p, seen, call).bucket);
    match f.command
    case WATCH => s
    case HMGET => seen
    case UNWATCH => AfterRival(s, rival)
    case HSET => if f.applied then own else AfterRival(s, rival)
    case PEXPIRE => own
    case EXEC => if CommitsFirst(rival, f) then own else AfterRival(s, rival)
  }

  /** The key when the failure is noticed. */
  function LeftByFault(p: Limits, s: Stored, call: Call, rivals: seq<Rival>, f: Fault): Stored
    requires p.rate != 0.0 && f.at < |rivals|
  {
    LeftByTry(p, LeftBy(s, rivals, f.at), call, rivals[f.at], f)
  }

  /** The key is as the rivals left it, or charged once by the call, or holds the refilled
      balance of its refusal. */
  ghost predicate WholeWrites(p: Limits, s: Stored, call: Call, rivals: seq<Rival>, f: Fault, left: Stored)
    requires p.rate != 0.0 && f.at < |rivals|
  {
    if CommitsFirst(rivals[f.at], f) then ChargedAt(p, s, call, rivals, f.at, left)
    else
      || left in {LeftBy(s, rivals, f.at), SeenAt(s, rivals, f.at), LeftBy(s, rivals, f.at + 1)}
      || left == Some(Bucket(Refilled(p, SeenAt(s, rivals, f.at), call.nowMs), call.nowMs))
  }

  predicate Raises(failing: Option<Fault>, command: Command) { failing.Some? && failing.value.command == command }

  /** How one try ends. */
  datatype TryEnd = Answered(allowed: bool, retryAfter: real) | Lost | Raised

  /** The end of a try or a call, the commits it made, and the key it left. */
  datatype CallResult = CallResult(end: TryEnd, charges: nat, left: Stored)

  /** What one round that finds `s` comes to. */
  function TryOf(p: Limits, s: Stored, call: Call, rival: Rival, failing: Option<Fault>): CallResult
    requires p.rate != 0.0
  {
    var v := Decide(p, Overwritten(s, rival.beforeRead), call);
    if failing.Some? && OnBranch(failing.value.command, v.allowed) then
      var charges := if CommitsFirst(rival, failing.value) then 1 else 0;
      CallResult(Raised, charges, LeftByTry(p, s, call, rival, failing.value))
    else if v.allowed && !rival.Quiet() then
      CallResult(Lost, 0, AfterRival(s, rival))
    else
      CallResult(Answered(v.allowed, v.retryAfter), if v.allowed then 1 else 0, Some(v.bucket))
  }

  function FaultAt(fault: Option<Fault>, k: nat): Option<Fault> {
    if fault.Some? && fault.value.at == k then fault else None
  }

  /** What a call that stands before try `k` comes to. */
  function CallOf(p: Limits, s: Stored, call: Call, rivals: seq<Rival>, fault: Option<Fault>, k: nat): CallResult
    requires p.rate != 0.0 && k <= |rivals|
    decreases |rivals| - k
  {
    if k == |rivals| then CallResult(Answered(false, 1.0 / p.rate), 0, s)
    else
      var r := TryOf(p, s, call, rivals[k], FaultAt(fault, k));
      if r.end.Lost? then CallOf(p, r.left, call, rivals, fault, k + 1) else r
  }

  datatype Failure =
    | RateLimitExceeded(retryAfter: real)
    | RedisError

  class RateLimitService {
    const redis: BucketKey
    const defaultLimit: int
    const enabled: bool
    const failOpen: bool

    constructor (redis: BucketKey, defaultLimit: int, enabled: bool, failOpen: bool)
      ensures this.redis == redis && this.defaultLimit == defaultLimit
      ensures this.enabled == enabled && this.failOpen == failOpen
    {
      this.redis, this.defaultLimit := redis, defaultLimit;
      this.enabled, this.failOpen := enabled, failOpen;
    }

    /** One WATCH / HMGET / EXEC round, up to its failing command if it has one. */
    method Try(p: Limits, call: Call, rival: Rival, failing: Option<Fault>) returns (end: TryEnd, charges: nat)
      requires p.rate != 0.0
      modifies redis
      ensures CallResult(end, charges, redis.stored) == TryOf(p, old(redis.stored), call, rival, failing)
    {
      if Raises(failing, WATCH) {
        return Raised, 0;
      }
      redis.stored := Overwritten(redis.stored, rival.beforeRead);
      if Raises(failing, HMGET) {
        return Raised, 0;
      }
      var tokens := Refilled(p, redis.stored, call.nowMs);
      redis.stored := Overwritten(redis.stored, rival.afterRead);
      if tokens < call.cost {
        if Raises(failing, UNWATCH) {
          return Raised, 0;
        }
        if !Raises(failing, HSET) || failing.value.applied {
          redis.stored := Some(Bucket(tokens, call.nowMs));
        }
        if Raises(failing, HSET) || Raises(failing, PEXPIRE) {
          return Raised, 0;
        }
        return Answered(false, (call.cost - tokens) / p.rate), 0;
      }
      charges := 0;
      if rival.Quiet() && (!Raises(failing, EXEC) || failing.value.applied) {
        redis.stored := Some(Bucket(tokens - call.cost, call.nowMs));
        charges := 1;
      }
      end := if Raises(failing, EXEC) then Raised else if rival.Quiet() then Answered(true, 0.0) else Lost;
    }

    /** Answers from the first try that is not lost to a rival write. An admission
        charges the key once, at the value it read; a refusal stores the refilled
        balance it computed whatever rivals did since; five lost races refuse
        without touching the key. A Redis error on the way is raised at once, and
        leaves what the commands before it did. `charges` counts the commits. */
    method ConsumeToken(p: Limits, call: Call, rivals: seq<Rival>, fault: Option<Fault>)
      returns (answer: Option<(bool, real)>, tries: nat, charges: nat)
      requires p.rate != 0.0 && |rivals| == MAX_TRIES
      modifies redis
      ensures 1 <= tries <= MAX_TRIES && charges <= 1
      ensures var end := if answer.Some? then Answered(answer.value.0, answer.value.1) else Raised;
              CallResult(end, charges, redis.stored)
                == CallOf(p, old(redis.stored), call, rivals, fault, 0)
      ensures answer.None? <==> fault.Some? && Reached(p, old(redis.stored), call, rivals, fault.value)
      ensures answer.None? ==>
                && tries == fault.value.at + 1
                && redis.stored == LeftByFault(p, old(redis.stored), call, rivals, fault.value)
                && WholeWrites(p, old(redis.stored), call, rivals, fault.value, redis.stored)
                && (charges == 1 <==> CommitsFirst(rivals[fault.value.at], fault.value))
      ensures answer.Some? ==> (charges == 1 <==> answer.value.0)
      ensures answer.Some? ==>
                && (forall k :: 0 <= k < tries - 1 ==>
                      Decide(p, SeenAt(old(redis.stored), rivals, k), call).allowed && !rivals[k].Quiet())
                && var v := Decide(p, SeenAt(old(redis.stored), rivals, tries - 1), call);
                   if v.allowed && !rivals[tries - 1].Quiet()
                   then tries == MAX_TRIES && answer.value == (false, 1.0 / p.rate)
                        && redis.stored == LeftBy(old(redis.stored), rivals, MAX_TRIES)
                   else answer.value == (v.allowed, v.retryAfter) && redis.stored == Some(v.bucket)
    {
      ghost var before := redis.stored;
      tries, charges := 0, 0;
      while tries < MAX_TRIES
        invariant 0 <= tries <= MAX_TRIES && charges == 0
        invariant redis.stored == LeftBy(before, rivals, tries)
        invariant forall k :: 0 <= k < tries ==>
                    Decide(p, SeenAt(before, rivals, k), call).allowed && !rivals[k].Quiet()
        invariant CallOf(p, before, call, rivals, fault, 0) == CallOf(p, redis.stored, call, rivals, fault, tries)
        invariant fault.Some? && fault.value.at < tries ==> !Reached(p, before, call, rivals, fault.value)
      {
        var end;
        end, charges := Try(p, call, rivals[tries], FaultAt(fault, tries));
        tries := tries + 1;
        match end {
          case Answered(allowed, retryAfter) => return Some((allowed, retryAfter)), tries, charges;
          case Raised => return None, tries, charges;
          case Lost =>
        }
      }
      return Some((false, 1.0 / p.rate)), tries, 0;
    }

    /** A missing or zero limit means the default one. */
    function LimitFor(limitPerMinute: Option<int>): int {
      if limitPerMinute.Some? && limitPerMinute.value != 0 then limitPerMinute.value else defaultLimit
    }

    predicate Applies(limitPerMinute: Option<int>) { enabled && LimitFor(limitPerMinute) > 0 }

    /** Charges one call, or says why not. A limiter that is off or has no positive limit
        lets the call through uncharged. After a Redis error the call passes or fails as
        configured, either way charged exactly if the failing command was a commit that
        Redis had carried out. */
    method CheckAndIncrement(limitPerMinute: Option<int>, call: Call, rivals: seq<Rival>, fault: Option<Fault>)
      returns (r: Result<(), Failure>, charges: nat)
      requires |rivals| == 5
      modifies redis
      ensures charges <= 1
      ensures var limit := if limitPerMinute in {None, Some(0)} then defaultLimit else limitPerMinute.value;
              if !enabled || limit <= 0 then r == Ok(()) && charges == 0 && redis.stored == old(redis.stored)
              else fault.None? && (forall k :: 0 <= k < 5 ==> rivals[k].Quiet()) ==>
                var balance := match old(redis.stored)
                               case None => limit as real
                               case Some(b) =>
                                 var elapsed := if b.lastRefillMs < call.nowMs then call.nowMs - b.lastRefillMs else 0;
                                 var refilled := b.tokens + (elapsed * limit) as real / 60000.0;
                                 if limit as real < refilled then limit as real else refilled;
                if call.cost <= balance then
                  r == Ok(()) && redis.stored == Some(Bucket(balance - call.cost, call.nowMs))
                else
                  var wait := (call.cost - balance) * 60.0 / limit as real;
                  && r == Err(RateLimitExceeded(if wait < 0.001 then 0.001 else wait))
                  && redis.stored == Some(Bucket(balance, call.nowMs))
      ensures !Applies(limitPerMinute) ==> r == Ok(()) && charges == 0 && redis.stored == old(redis.stored)
      ensures Applies(limitPerMinute) ==>
                var p := PerMinute(LimitFor(limitPerMinute));
                if fault.Some? && Reached(p, old(redis.stored), call, rivals, fault.value) then
                  && r == (if failOpen then Ok(()) else Err(RedisError))
                  && redis.stored == LeftByFault(p, old(redis.stored), call, rivals, fault.value)
                  && WholeWrites(p, old(redis.stored), call, rivals, fault.value, redis.stored)
                  && (charges == 1 <==> CommitsFirst(rivals[fault.value.at], fault.value))
                else
                  && (charges == 1 <==> r.Ok?)
                  && match r
                     case Ok(_) =>
                       exists k: nat :: k < MAX_TRIES && ChargedAt(p, old(redis.stored), call, rivals, k, redis.stored)
                     case Err(e) =>
                       exists retryAfter: real ::
                         && e == RateLimitExceeded(Max(retryAfter, 0.001))
                         && (LostAllRaces(p, old(redis.stored), rivals, retryAfter, redis.stored)
                             || exists k: nat ::
                                  && k < MAX_TRIES
                                  && RefusedAt(p, old(redis.stored), call, rivals, k, retryAfter, redis.stored))
    {
      if !enabled {
        return Ok(()), 0;
      }
      var limit := LimitFor(limitPerMinute);
      if limit <= 0 {
        return Ok(()), 0;
      }
      var p := PerMinute(limit);
      ghost var before := redis.stored;
      DecideByLimit(limit, before, call);
      var answer, tries;
      answer, tries, charges := ConsumeToken(p, call, rivals, fault);
      if answer.None? {
        return if failOpen then Ok(()) else Err(RedisError), charges;
      }
      var (allowed, retryAfter) := answer.value;
      assert allowed ==> ChargedAt(p, before, call, rivals, tries - 1, redis.stored);
      assert !allowed ==> LostAllRaces(p, before, rivals, retryAfter, redis.stored)
                          || RefusedAt(p, before, call, rivals, tries - 1, retryAfter, redis.stored);
      return if allowed then Ok(()) else Err(RateLimitExceeded(Max(retryAfter, 0.001))), charges;
    }
  }

  /** At the production rate (limit per minute) a bucket refills in one minute and
      lives for two, so expiry stays invisible to readers up to a minute behind. */
  lemma PerMinuteLimitsTolerateAMinuteOfLag(limit: int, lagMs: nat)
    requires 0 < limit && lagMs <= 60000
    ensures var p := PerMinute(limit);
            p.Valid() && TtlMs(p) == 120000
            && p.capacity / p.rate * 1000.0 <= (TtlMs(p) - lagMs) as real
  {
    var p := PerMinute(limit);
    assert p.rate * 60.0 == p.capacity;
    assert p.capacity / p.rate == 60.0;
  }
}
