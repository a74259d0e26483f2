/** BaseLLMProvider: retry loop, backoff and circuit breaker around one upstream.
    The upstream is a script: outcome i is what call number i of this request does. */
module Provider {
  import opened Wrappers
  import opened CircuitBreaker

  datatype ProviderError =
    | RateLimited(retryAfter: Option<real>)
    | TimedOut
    | ConnectionFailed
    | BadResponse(status: int)
    | Unavailable(provider: string)
  {
    predicate Retryable() {
      match this
      case BadResponse(status) => status >= 500
      case Unavailable(_) => false
      case _ => true
    }

    function RetryAfter(): Option<real> {
      if RateLimited? then retryAfter else None
    }
  }

  /** What a caller may see raised: a provider error, or anything else. */
  datatype Raised = Provider(err: ProviderError) | Foreign

  datatype Outcome<+R> = Answered(response: R) | Failed(err: ProviderError) | Crashed {
    predicate WorthRetrying() { Failed? && err.Retryable() }

    function AsResult(): Result<R, Raised> {
      match this
      case Answered(response) => Ok(response)
      case Failed(err) => Err(Provider(err))
      case Crashed => Err(Foreign)
    }
  }

  /** One streamed upstream call: the chunks it yields, then how it ends. */
  datatype StreamScript = StreamScript(chunks: seq<string>, end: Outcome<()>)

  /** What the consumer of a provider's stream gets. */
  datatype Streamed = Streamed(chunks: seq<string>, end: Result<(), Raised>)

  // --------------------------------------------------------------- backoff

  const BASE_SECONDS: real := 0.5
  const MAX_SECONDS: real := 20.0
  const JITTER_SECONDS: real := 0.5

  function Pow2(n: nat): nat { if n == 0 then 1 else 2 * Pow2(n - 1) }

  function Exponential(attempt: nat): real {
    var d := BASE_SECONDS * Pow2(attempt) as real;
    if MAX_SECONDS <= d then MAX_SECONDS else d
  }

  function BackoffDelay(attempt: nat, retryAfter: Option<real>, jitter: real): real {
    match retryAfter
    case Some(seconds) => if seconds < 0.0 then 0.0 else seconds
    case None => Exponential(attempt) + jitter
  }

  function ErrorRetryAfter<R>(o: Outcome<R>): Option<real> {
    if o.Failed? then o.err.RetryAfter() else None
  }

  /** Sleep before the first `n` retries. */
  function TotalDelay<R>(upstream: nat -> Outcome<R>, jitter: nat -> real, n: nat): real {
    if n == 0 then 0.0
    else TotalDelay(upstream, jitter, n - 1) + BackoffDelay(n - 1, ErrorRetryAfter(upstream(n - 1)), jitter(n - 1))
  }

  /** Sum of the first `n` capped exponentials: doubling up to 16 s, then 20 s each. */
  function ExponentialSum(n: nat): real {
    if n <= 6 then BASE_SECONDS * (Pow2(n) - 1) as real else 31.5 + MAX_SECONDS * (n - 6) as real
  }

  lemma {:induction false} Pow2Grows(m: nat, n: nat)
    requires m <= n
    ensures Pow2(m) <= Pow2(n)
  {
    if m < n {
      Pow2Grows(m, n - 1);
    }
  }

  lemma Pow2Small()
    ensures Pow2(5) == 32 && Pow2(6) == 64
  {
    assert Pow2(2) == 4;
    assert Pow2(3) == 8;
    assert Pow2(4) == 16;
    assert Pow2(5) == 32;
  }

  lemma ExponentialSumStep(n: nat)
    ensures ExponentialSum(n + 1) == ExponentialSum(n) + Exponential(n)
  {
    Pow2Small();
    if n < 6 {
      Pow2Grows(n, 5);
      assert Pow2(n + 1) == 2 * Pow2(n);
    } else {
      Pow2Grows(6, n);
    }
  }

  /** When no upstream sends Retry-After, the sleep of `n` retries lies between the
      closed form and the closed form plus half a second each. */
  lemma {:induction false} BackoffIsBounded<R>(upstream: nat -> Outcome<R>, jitter: nat -> real, n: nat)
    requires forall i: nat :: i < n ==> 0.0 <= jitter(i) <= JITTER_SECONDS
    requires forall i: nat :: i < n ==> ErrorRetryAfter(upstream(i)) == None
    ensures ExponentialSum(n) <= TotalDelay(upstream, jitter, n) <= ExponentialSum(n) + JITTER_SECONDS * n as real
    decreases n
  {
    if n > 0 {
      BackoffIsBounded(upstream, jitter, n - 1);
      ExponentialSumStep(n - 1);
    }
  }

  /** Each wait in seconds: what the upstream asks for, if it does, or 0.5, 1, 2, 4, 8, 16
      and from then on 20, plus jitter. */
  lemma WaitBeforeRetry<R>(upstream: nat -> Outcome<R>, jitter: nat -> real, n: nat)
    ensures TotalDelay(upstream, jitter, 0) == 0.0
    ensures var wait := TotalDelay(upstream, jitter, n + 1) - TotalDelay(upstream, jitter, n);
            if upstream(n).Failed? && upstream(n).err.RateLimited? && upstream(n).err.retryAfter.Some? then
              var asked := upstream(n).err.retryAfter.value;
              wait == if asked < 0.0 then 0.0 else asked
            else
              wait == (if n < 6 then [0.5, 1.0, 2.0, 4.0, 8.0, 16.0][n] else 20.0) + jitter(n)
  {
    Pow2Small();
    assert Pow2(2) == 4 && Pow2(3) == 8 && Pow2(4) == 16;
    if 6 <= n {
      Pow2Grows(6, n);
    }
  }

  // ------------------------------------------------- what a call amounts to

  /** Upstream calls made by a request standing at `attempt`. */
  function CallsMade<R>(upstream: nat -> Outcome<R>, budget: nat, attempt: nat): (n: nat)
    ensures attempt < n
    decreases budget - attempt
  {
    if upstream(attempt).WorthRetrying() && attempt < budget
    then CallsMade(upstream, budget, attempt + 1)
    else attempt + 1
  }

  /** The number of calls is the smaller of `budget + 1` and the position of the
      first outcome not worth retrying. */
  lemma {:induction false} CallsMadeIsFirstStop<R>(upstream: nat -> Outcome<R>, budget: nat, attempt: nat)
    requires attempt <= budget
    ensures var n := CallsMade(upstream, budget, attempt);
            && attempt < n <= budget + 1
            && (forall i :: attempt <= i < n - 1 ==> upstream(i).WorthRetrying())
            && (n == budget + 1 || !upstream(n - 1).WorthRetrying())
    decreases budget - attempt
  {
    if upstream(attempt).WorthRetrying() && attempt < budget {
      CallsMadeIsFirstStop(upstream, budget, attempt + 1);
    }
  }

  /** A request is called again exactly after a rate limit, a timeout, a lost connection or
      a status from 500 on, and at most `budget` times. */
  lemma RetriedErrors<R>(upstream: nat -> Outcome<R>, budget: nat)
    ensures var n := CallsMade(upstream, budget, 0);
            && 0 < n <= budget + 1
            && (forall i: nat :: i < n - 1 ==>
                  && upstream(i).Failed? && !upstream(i).err.Unavailable?
                  && (upstream(i).err.BadResponse? ==> 500 <= upstream(i).err.status))
            && (n <= budget ==>
                  || !upstream(n - 1).Failed? || upstream(n - 1).err.Unavailable?
                  || (upstream(n - 1).err.BadResponse? && upstream(n - 1).err.status < 500))
  {
    CallsMadeIsFirstStop(upstream, budget, 0);
    hide CallsMade;
    var n := CallsMade(upstream, budget, 0);
    forall i: nat | i < n - 1
      ensures upstream(i).Failed? && !upstream(i).err.Unavailable?
      ensures upstream(i).err.BadResponse? ==> 500 <= upstream(i).err.status
    {
      assert upstream(i).WorthRetrying();
    }
  }

  /** Clock readings are numbered: 0 when admission is decided, then two for each
      call's outcome. Call number `i` adds this to the breaker's history. */
  function EventsOf<R>(o: Outcome<R>, clock: nat -> real, i: nat): seq<Event> {
    match o
    case Answered(_) => [Success(clock(2 * i + 1))]
    case Failed(_) => [Failure(clock(2 * i + 2))]
    case Crashed => []
  }

  /** The breaker's history after the first `n` calls of an admitted request. */
  function HistoryAfter<R>(h: seq<Event>, upstream: nat -> Outcome<R>, clock: nat -> real, n: nat): seq<Event> {
    if n == 0 then h else HistoryAfter(h, upstream, clock, n - 1) + EventsOf(upstream(n - 1), clock, n - 1)
  }

  lemma OneMoreCall<R>(h: seq<Event>, upstream: nat -> Outcome<R>, clock: nat -> real, budget: nat, attempt: nat)
    ensures HistoryAfter(h, upstream, clock, 0) == h
    ensures HistoryAfter(h, upstream, clock, attempt + 1)
         == HistoryAfter(h, upstream, clock, attempt) + EventsOf(upstream(attempt), clock, attempt)
    ensures CallsMade(upstream, budget, attempt)
         == if upstream(attempt).WorthRetrying() && attempt < budget
            then CallsMade(upstream, budget, attempt + 1) else attempt + 1
  {
  }

  /** The consecutive-failure counter ends at zero on success, and otherwise at its
      old value plus one for every failed call. */
  lemma {:induction false} CounterAfterRequest<R>(h: seq<Event>, upstream: nat -> Outcome<R>,
      clock: nat -> real, n: nat)
    requires 1 <= n && forall i :: 0 <= i < n - 1 ==> upstream(i).Failed?
    ensures FailureRun(HistoryAfter(h, upstream, clock, n))
         == match upstream(n - 1)
            case Answered(_) => 0
            case Failed(_) => FailureRun(h) + n
            case Crashed => FailureRun(h) + n - 1
    decreases n
  {
    var before := HistoryAfter(h, upstream, clock, n - 1);
    if n > 1 {
      CounterAfterRequest(h, upstream, clock, n - 1);
    }
    match upstream(n - 1)
    case Answered(_) =>
    case Failed(_) => FailuresAdd(before, [Failure(clock(2 * n))]);
    case Crashed => assert HistoryAfter(h, upstream, clock, n) == before;
  }

  // ----------------------------------------------------------------- class

  /** Name and native models of a provider; a model is native by its prefix. */
  datatype ProviderInfo = ProviderInfo(name: string, prefixes: seq<string>) {
    predicate SupportsModel(model: string) {
      exists p :: p in prefixes && p <= model
    }
  }

  class LLMProvider {
    const info: ProviderInfo
    const maxRetries: int
    const breaker: CircuitBreaker

    constructor (info: ProviderInfo, maxRetries: int, cfg: Config)
      ensures this.info == info && this.maxRetries == maxRetries
      ensures fresh(breaker) && breaker.Valid() && breaker.cfg == cfg && breaker.history == []
    {
      this.info, this.maxRetries := info, maxRetries;
      breaker := new CircuitBreaker(cfg);
    }

    /** Retries allowed after the first call. */
    function Budget(): nat {
      if maxRetries < 0 then 0 else maxRetries
    }

    /** What a request will be answered, given the breaker's history and the script. */
    function AnswerFrom<R>(h: seq<Event>, upstream: nat -> Outcome<R>, clock: nat -> real): Result<R, Raised> {
      if Refused(breaker.cfg, h, clock(0)) then Err(Provider(Unavailable(info.name)))
      else upstream(CallsMade(upstream, Budget(), 0) - 1).AsResult()
    }

    /** Upstream calls the request will make: none when it is refused. */
    function CallsFrom<R>(h: seq<Event>, upstream: nat -> Outcome<R>, clock: nat -> real): nat {
      if Refused(breaker.cfg, h, clock(0)) then 0 else CallsMade(upstream, Budget(), 0)
    }

    function StreamCallsFrom(h: seq<Event>, upstream: nat -> StreamScript, clock: nat -> real): nat {
      CallsFrom(h, StreamOutcomes(upstream), clock)
    }

    function StreamAnswerFrom(h: seq<Event>, upstream: nat -> StreamScript, clock: nat -> real): Streamed {
      if Refused(breaker.cfg, h, clock(0)) then Streamed([], Err(Provider(Unavailable(info.name))))
      else
        var last := upstream(CallsMade(StreamOutcomes(upstream), Budget(), 0) - 1);
        Streamed(last.chunks, last.end.AsResult())
    }

    /** One request: refused by the breaker without touching the upstream, or
        called until an outcome is final or the retries are used up. */
    method Complete<R>(upstream: nat -> Outcome<R>, clock: nat -> real, jitter: nat -> real)
      returns (r: Result<R, Raised>, calls: nat, slept: real)
      requires breaker.Valid()
      modifies breaker
      ensures breaker.Valid() && r == AnswerFrom(old(breaker.history), upstream, clock)
      ensures calls == CallsFrom(old(breaker.history), upstream, clock)
      ensures breaker.history == HistoryAfter(old(breaker.history), upstream, clock, calls)
      ensures calls == 0 <==> Refused(breaker.cfg, old(breaker.history), clock(0))
      ensures calls == 0 ==> r == Err(Provider(Unavailable(info.name))) && slept == 0.0
      ensures calls > 0 ==> slept == TotalDelay(upstream, jitter, calls - 1)
      ensures calls > 0 ==> match upstream(calls - 1)
                            case Answered(response) => r == Ok(response)
                            case Failed(err) => r == Err(Provider(err))
                            case Crashed => r == Err(Foreign)
      ensures calls > 0 ==> calls == CallsMade(upstream, if maxRetries < 0 then 0 else maxRetries, 0)
    {
      hide FieldsOf, HistoryAfter, CallsMade, Refused, BackoffDelay;
      calls, slept := 0, 0.0;
      ghost var before := breaker.history;
      OneMoreCall(before, upstream, clock, Budget(), 0);
      var allowed := breaker.AllowRequest(clock(0));
      if !allowed {
        return Err(Provider(Unavailable(info.name))), 0, 0.0;
      }
      var attempt := 0;
      while true
        invariant 0 <= attempt <= Budget() && calls == attempt
        invariant CallsMade(upstream, Budget(), attempt) == CallsMade(upstream, Budget(), 0)
        invariant breaker.Valid() && breaker.history == HistoryAfter(before, upstream, clock, attempt)
        invariant slept == TotalDelay(upstream, jitter, attempt)
        decreases Budget() - attempt
      {
        calls := calls + 1;
        OneMoreCall(before, upstream, clock, Budget(), attempt);
        match upstream(attempt) {
          case Answered(response) =>
            breaker.RecordSuccess(clock(2 * attempt + 1));
            return Ok(response), calls, slept;
          case Failed(err) =>
            breaker.RecordFailure(clock(2 * attempt + 1), clock(2 * attempt + 2));
            if !err.Retryable() || attempt >= maxRetries {
              return Err(Provider(err)), calls, slept;
            }
            slept := slept + BackoffDelay(attempt, err.RetryAfter(), jitter(attempt));
            attempt := attempt + 1;
          case Crashed =>
            assert breaker.history == HistoryAfter(before, upstream, clock, calls);
            return Err(Foreign), calls, slept;
        }
      }
    }

    /** Hands one call's chunks to the consumer. */
    method YieldAll(chunks: seq<string>) returns (delivered: seq<string>, yieldedAny: bool)
      ensures delivered == chunks && yieldedAny == (chunks != [])
    {
      delivered, yieldedAny := [], false;
      for k := 0 to |chunks|
        invariant delivered == chunks[..k] && yieldedAny == (k > 0)
      {
        yieldedAny := true;
        delivered := delivered + [chunks[k]];
      }
    }

    /** One streamed call: passes its chunks on and records how it ended. */
    method StreamCall(script: StreamScript, clock: nat -> real, attempt: nat)
      returns (delivered: seq<string>, yieldedAny: bool)
      requires breaker.Valid()
      modifies breaker
      ensures breaker.Valid() && breaker.history == old(breaker.history) + EventsOf(script.end, clock, attempt)
      ensures delivered == script.chunks && yieldedAny == (script.chunks != [])
    {
      delivered, yieldedAny := YieldAll(script.chunks);
      match script.end {
        case Answered(_) => breaker.RecordSuccess(clock(2 * attempt + 1));
        case Failed(_) => breaker.RecordFailure(clock(2 * attempt + 1), clock(2 * attempt + 2));
        case Crashed => assert breaker.history == breaker.history + [];
      }
    }

    /** The streaming form: a call that has yielded a chunk is never retried. */
    method Stream(upstream: nat -> StreamScript, clock: nat -> real, jitter: nat -> real)
      returns (delivered: seq<string>, end: Result<(), Raised>, calls: nat, slept: real)
      requires breaker.Valid()
      modifies breaker
      ensures breaker.Valid() && Streamed(delivered, end) == StreamAnswerFrom(old(breaker.history), upstream, clock)
      ensures calls == StreamCallsFrom(old(breaker.history), upstream, clock)
      ensures breaker.history == HistoryAfter(old(breaker.history), EndsOf(upstream), clock, calls)
      ensures calls == 0 <==> Refused(breaker.cfg, old(breaker.history), clock(0))
      ensures calls == 0 ==> delivered == [] && end == Err(Provider(Unavailable(info.name))) && slept == 0.0
      ensures calls > 0 ==>
                && delivered == upstream(calls - 1).chunks
                && slept == TotalDelay(EndsOf(upstream), jitter, calls - 1)
                && (forall i :: 0 <= i < calls - 1 ==> upstream(i).chunks == [])
      ensures calls > 0 ==> match upstream(calls - 1).end
                            case Answered(done) => end == Ok(done)
                            case Failed(err) => end == Err(Provider(err))
                            case Crashed => end == Err(Foreign)
      ensures calls > 0 ==> calls == CallsMade(StreamOutcomes(upstream), if maxRetries < 0 then 0 else maxRetries, 0)
    {
      hide FieldsOf, HistoryAfter, CallsMade, Refused, BackoffDelay;
      delivered, calls, slept := [], 0, 0.0;
      ghost var before := breaker.history;
      OneMoreCall(before, EndsOf(upstream), clock, Budget(), 0);
      var allowed := breaker.AllowRequest(clock(0));
      if !allowed {
        return [], Err(Provider(Unavailable(info.name))), 0, 0.0;
      }
      var attempt := 0;
      while true
        invariant 0 <= attempt <= Budget() && calls == attempt
        invariant CallsMade(StreamOutcomes(upstream), Budget(), attempt)
                  == CallsMade(StreamOutcomes(upstream), Budget(), 0)
        invariant forall i :: 0 <= i < attempt ==> upstream(i).chunks == []
        invariant breaker.Valid() && breaker.history == HistoryAfter(before, EndsOf(upstream), clock, attempt)
        invariant slept == TotalDelay(EndsOf(upstream), jitter, attempt)
        decreases Budget() - attempt
      {
        calls := calls + 1;
        OneMoreCall(before, EndsOf(upstream), clock, Budget(), attempt);
        OneMoreCall(before, StreamOutcomes(upstream), clock, Budget(), attempt);
        var script := upstream(attempt);
        var yieldedAny;
        delivered, yieldedAny := StreamCall(script, clock, attempt);
        end := script.end.AsResult();
        if !script.end.Failed? || yieldedAny || !script.end.err.Retryable() || attempt >= maxRetries {
          return;
        }
        slept := slept + BackoffDelay(attempt, script.end.err.RetryAfter(), jitter(attempt));
        attempt := attempt + 1;
      }
    }
  }

  /** How each streamed call ends. */
  function EndsOf(upstream: nat -> StreamScript): nat -> Outcome<()> {
    (i: nat) => upstream(i).end
  }

  /** As the retry loop sees it: a failure after the first chunk is final. */
  function StreamOutcomes(upstream: nat -> StreamScript): nat -> Outcome<()> {
    (i: nat) => if upstream(i).chunks == [] then upstream(i).end else Crashed
  }

  /** A stream is started again exactly after such an error before its first chunk, and
      at most `budget` times. */
  lemma RetriedStreams(upstream: nat -> StreamScript, budget: nat)
    ensures var n := CallsMade(StreamOutcomes(upstream), budget, 0);
            && 0 < n <= budget + 1
            && (forall i: nat :: i < n - 1 ==>
                  && upstream(i).chunks == [] && upstream(i).end.Failed? && !upstream(i).end.err.Unavailable?
                  && (upstream(i).end.err.BadResponse? ==> 500 <= upstream(i).end.err.status))
            && (n <= budget ==>
                  var last := upstream(n - 1);
                  || last.chunks != [] || !last.end.Failed? || last.end.err.Unavailable?
                  || (last.end.err.BadResponse? && last.end.err.status < 500))
  {
    hide CallsMade;
    RetriedErrors(StreamOutcomes(upstream), budget);
    var n := CallsMade(StreamOutcomes(upstream), budget, 0);
    forall i: nat | i < n - 1
      ensures upstream(i).chunks == [] && upstream(i).end.Failed? && !upstream(i).end.err.Unavailable?
      ensures upstream(i).end.err.BadResponse? ==> 500 <= upstream(i).end.err.status
    {
      assert StreamOutcomes(upstream)(i).Failed?;
    }
  }
}
