/** Any number of chat requests in flight through one gateway: both cache layers,
    the coalescing lock, the upstream call and the write-backs. A run is a sequence
    of actions; each action is what one task does between two awaits, or something
    the stores and the clock do on their own. */
module GatewayProtocol {
  import opened Wrappers
  import opened ChatRequest
  import opened ChatResponse
  import opened CacheKeys

  /** The lock's time to live is whole seconds: the configured one is truncated. */
  datatype Config = Config(lockTtlSeconds: int, waitMs: int, pollMs: nat)

  /** `requests` are the requests in use; `similar(asked, stored)` says that the
      embeddings of two normalized prompts pass the similarity threshold. */
  datatype World = World(sha: Sha, requests: set<ChatRequest>, similar: (string, string) -> bool)

  /** What a write-back writes. A reader of the exact layer sees only the response; a
      reader of the semantic layer also the tenant, the model and the parameters' hash. */
  datatype Stored = Stored(tenant: string, request: ChatRequest, response: ChatResponse)

  /** Every winner stores the same value: `owner` is not in Redis, it records who won. */
  datatype Lock = Lock(expiresAt: int, owner: nat)

  datatype Won = NotWon | FailedOpen | Took

  datatype Phase =
    | ReadingExact
    | ReadingSemantic
    | Acquiring
    | Waiting(deadline: int)                                     // about to test the deadline
    | Napping(deadline: int, wakeAt: int)                        // about to poll
    | Calling(won: Won)
    | Releasing(won: Won, outcome: Option<ChatResponse>)         // the `finally` of the upstream call
    | Costing(raw: ChatResponse)
    | Returned(response: ChatResponse)
    | Ended                                                      // a bypassed stream sends no metadata
    | Raised

  datatype Handler = Handler(tenant: string, request: ChatRequest, traceId: string, startedAt: int,
                             status: CacheStatus, polls: nat, phase: Phase)

  /** A priced upstream completion. */
  datatype Made = Made(id: nat, tenant: string, request: ChatRequest, response: ChatResponse)

  /** `toExact` and `toSemantic` are the write-backs scheduled so far. One of them may
      land at any later time, several times when a queued job is retried, or never. */
  datatype State = State(
    now: int,
    exact: map<string, Stored>,
    points: set<Stored>,
    locks: map<string, Lock>,
    toExact: set<Stored>,
    toSemantic: set<Stored>,
    handlers: map<nat, Handler>,
    made: seq<Made>,
    replies: seq<ChatResponse>)

  /** `reachable` says that the Redis command succeeds in time; `found` is the point the
      vector search answers with, None when it fails or nothing is near enough. */
  datatype Action =
    | Begin(id: nat, tenant: string, request: ChatRequest, traceId: string)
    | ReadExact(id: nat, reachable: bool)
    | ReadSemantic(id: nat, found: Option<Stored>)
    | Acquire(id: nat, reachable: bool)
    | Nap(id: nat)
    | Poll(id: nat, reachable: bool)
    | GiveUp(id: nat)
    | Succeed(id: nat, raw: ChatResponse)
    | Fail(id: nat)
    | Release(id: nat, reachable: bool)
    | Price(id: nat, costUsd: real)
    | LandExact(write: Stored)
    | LandSemantic(write: Stored)
    | Evict(key: string)
    | Forget(point: Stored)
    | Tick(ms: nat)
  {
    /** The request whose task takes the action, if one does. */
    function Actor(): Option<nat> {
      if LandExact? || LandSemantic? || Evict? || Forget? || Tick? then None else Some(id)
    }
  }

  function Normal(r: ChatRequest): string { NormalizePrompt(r.CanonicalPrompt()) }

  /** The semantic layer's filter and threshold. */
  predicate Matches(w: World, tenant: string, r: ChatRequest, p: Stored) {
    && p.tenant == tenant
    && p.request.model == r.model
    && ParamsHash(w.sha, p.request) == ParamsHash(w.sha, r)
    && w.similar(Normal(r), Normal(p.request))
  }

  predicate InPhase(s: State, a: Action)
    requires a.Actor().Some? && !a.Begin?
  {
    a.id in s.handlers &&
    var h := s.handlers[a.id];
    match a
    case ReadExact(_, _) => h.phase.ReadingExact?
    case ReadSemantic(_, _) => h.phase.ReadingSemantic?
    case Acquire(_, _) => h.phase.Acquiring?
    case Nap(_) => h.phase.Waiting? && s.now < h.phase.deadline
    case Poll(_, _) => h.phase.Napping? && h.phase.wakeAt <= s.now
    case GiveUp(_) => h.phase.Waiting? && h.phase.deadline <= s.now
    case Succeed(_, _) => h.phase.Calling?
    case Fail(_) => h.phase.Calling?
    case Release(_, _) => h.phase.Releasing?
    case Price(_, _) => h.phase.Costing?
  }

  predicate Enabled(w: World, s: State, a: Action) {
    match a
    case Begin(id, tenant, request, _) => id !in s.handlers && request in w.requests
    case ReadSemantic(id, found) =>
      InPhase(s, a) && (found.Some? ==>
                          found.value in s.points
                            && Matches(w, s.handlers[id].tenant, s.handlers[id].request, found.value))
    case LandExact(write) => write in s.toExact
    case LandSemantic(write) => write in s.toSemantic
    case Evict(key) => key in s.exact
    case Forget(point) => point in s.points
    case Tick(_) => true
    case _ => InPhase(s, a)
  }

  // ------------------------------------------------------------------ steps

  function Move(s: State, id: nat, phase: Phase): State
    requires id in s.handlers
  {
    s.(handlers := s.handlers[id := s.handlers[id].(phase := phase)])
  }

  /** The reply that ends a request. */
  function Finish(s: State, id: nat, response: ChatResponse, status: CacheStatus): State
    requires id in s.handlers
  {
    var h := s.handlers[id];
    var reply := Stamp(response, h.traceId, status, s.now - h.startedAt, h.request);
    s.(handlers := s.handlers[id := h.(phase := Returned(reply), status := status)],
       replies := s.replies + [reply])
  }

  /** A GET of the exact layer; any failure reads as a miss. */
  function Get(w: World, s: State, h: Handler, reachable: bool): Option<ChatResponse> {
    var key := EntryKey(w.sha, h.request, h.tenant);
    if reachable && key in s.exact then Some(s.exact[key].response) else None
  }

  function Without<K, V>(m: map<K, V>, k: K): map<K, V> { m - {k} }

  /** SET NX EX. Redis refuses times to live under one second. */
  function SetNx(c: Config, s: State, id: nat, key: string): State
    requires key !in s.locks && 1 <= c.lockTtlSeconds
  {
    s.(locks := s.locks[key := Lock(s.now + 1000 * c.lockTtlSeconds, id)])
  }

  predicate FailsOpen(c: Config, reachable: bool) { !reachable || c.lockTtlSeconds < 1 }

  function LockOf(w: World, h: Handler): string { LockKey(w.sha, h.request, h.tenant) }

  /** After the upstream call: a winner releases whatever came of it. */
  function AfterCall(h: Handler, won: Won, outcome: Option<ChatResponse>): Phase {
    if won != NotWon then Releasing(won, outcome)
    else if outcome.None? then Raised
    else if h.request.stream && h.status.Bypassed? then Ended
    else Costing(outcome.value)
  }

  /** The response that is cached: a streamed one is built from the request. */
  function Built(h: Handler, raw: ChatResponse, costUsd: real, now: int): ChatResponse {
    if h.request.stream
    then Stamp(raw.(model := h.request.model, costUsd := costUsd), h.traceId, h.status, now - h.startedAt, h.request)
    else raw.(costUsd := costUsd)
  }

  /** One task's step, which touches no other task's state. */
  function ApplyOwn(w: World, c: Config, s: State, a: Action): (s': State)
    requires a.Actor().Some? && Enabled(w, s, a)
    ensures a.id in s'.handlers && s'.handlers == s.handlers[a.id := s'.handlers[a.id]] && s'.now == s.now
    ensures s.toExact <= s'.toExact && s.toSemantic <= s'.toSemantic
  {
    match a
    case Begin(id, tenant, request, traceId) =>
      var h := if request.cacheBypass
               then Handler(tenant, request, traceId, s.now, Bypassed, 0, Calling(NotWon))
               else Handler(tenant, request, traceId, s.now, Miss, 0, ReadingExact);
      s.(handlers := s.handlers[id := h])
    case ReadExact(id, reachable) =>
      var hit := Get(w, s, s.handlers[id], reachable);
      if hit.Some? then Finish(s, id, hit.value, ExactHit) else Move(s, id, ReadingSemantic)
    case ReadSemantic(id, found) =>
      var h := s.handlers[id];
      if found.Some? then
        var write := Stored(h.tenant, h.request, found.value.response.(cacheStatus := SemanticHit));
        Finish(s.(toExact := s.toExact + {write}), id, write.response, SemanticHit)
      else
        Move(s, id, if h.request.stream then Calling(NotWon) else Acquiring)
    case Acquire(id, reachable) =>
      var key := LockOf(w, s.handlers[id]);
      if FailsOpen(c, reachable) then Move(s, id, Calling(FailedOpen))
      else if key in s.locks then Move(s, id, Waiting(s.now + c.waitMs))
      else Move(SetNx(c, s, id, key), id, Calling(Took))
    case Nap(id) => Move(s, id, Napping(s.handlers[id].phase.deadline, s.now + c.pollMs))
    case Poll(id, reachable) =>
      var h := s.handlers[id];
      var hit := Get(w, s, h, reachable);
      var s' := s.(handlers := s.handlers[id := h.(polls := h.polls + 1)]);
      if hit.Some? then Finish(s', id, hit.value, ExactHit) else Move(s', id, Waiting(h.phase.deadline))
    case GiveUp(id) => Move(s, id, Calling(NotWon))
    case Succeed(id, raw) => Move(s, id, AfterCall(s.handlers[id], s.handlers[id].phase.won, Some(raw)))
    case Fail(id) => Move(s, id, AfterCall(s.handlers[id], s.handlers[id].phase.won, None))
    case Release(id, reachable) =>
      var h := s.handlers[id];
      var s' := if reachable then s.(locks := Without(s.locks, LockOf(w, h))) else s;
      Move(s', id, AfterCall(h, NotWon, h.phase.outcome))
    case Price(id, costUsd) =>
      var h := s.handlers[id];
      var response := Built(h, h.phase.raw, costUsd, s.now);
      var write := Stored(h.tenant, h.request, response);
      var s' := s.(made := s.made + [Made(id, h.tenant, h.request, response)]);
      var s'' := if h.status.Bypassed? then s'
                 else s'.(toExact := s'.toExact + {write}, toSemantic := s'.toSemantic + {write});
      Finish(s'', id, response, h.status)
  }

  function Apply(w: World, c: Config, s: State, a: Action): State
    requires Enabled(w, s, a)
  {
    match a
    case LandExact(write) => s.(exact := s.exact[EntryKey(w.sha, write.request, write.tenant) := write])
    case LandSemantic(write) => s.(points := s.points + {write})
    case Evict(key) => s.(exact := Without(s.exact, key))
    case Forget(point) => s.(points := s.points - {point})
    case Tick(ms) => s.(now := s.now + ms, locks := Unexpired(s.locks, s.now + ms))
    case _ => ApplyOwn(w, c, s, a)
  }

  /** What is scheduled for the caches: a priced answer for both layers, unless its request
      bypassed them, and a semantic hit for the exact one. Nothing else ever is. */
  lemma WriteBacks(w: World, c: Config, s: State, a: Action)
    requires Enabled(w, s, a)
    ensures var s' := Apply(w, c, s, a);
            match a
            case Price(id, costUsd) =>
              var h := s.handlers[id];
              var write := Stored(h.tenant, h.request, Built(h, h.phase.raw, costUsd, s.now));
              var writes := if h.status.Bypassed? then {} else {write};
              s'.toExact == s.toExact + writes && s'.toSemantic == s.toSemantic + writes
            case ReadSemantic(id, Some(point)) =>
              var h := s.handlers[id];
              && s'.toExact == s.toExact + {Stored(h.tenant, h.request, point.response.(cacheStatus := SemanticHit))}
              && s'.toSemantic == s.toSemantic
            case _ => s'.toExact == s.toExact && s'.toSemantic == s.toSemantic
  {
    hide Matches, Built;
  }

  /** What is cached says what the provider said, at the cost of its making; a streamed
      answer goes under the model its client asked for. */
  lemma BuiltAnswer(h: Handler, raw: ChatResponse, costUsd: real, now: int)
    ensures var built := Built(h, raw, costUsd, now);
            && AnswerOf(built) == AnswerOf(raw).(model := if h.request.stream then h.request.model else raw.model)
            && (!h.status.IsHit() ==> built.costUsd == costUsd)
  {
  }

  function Unexpired(locks: map<string, Lock>, now: int): map<string, Lock> {
    map key | key in locks && now < locks[key].expiresAt :: locks[key]
  }

  predicate Runnable(w: World, c: Config, s: State, run: seq<Action>)
    decreases |run|
  {
    run != [] ==> Enabled(w, s, run[0]) && Runnable(w, c, Apply(w, c, s, run[0]), run[1..])
  }

  function After(w: World, c: Config, s: State, run: seq<Action>): State
    requires Runnable(w, c, s, run)
    decreases |run|
  {
    if run == [] then s else After(w, c, Apply(w, c, s, run[0]), run[1..])
  }

  function Start(now: int): State { State(now, map[], {}, map[], {}, {}, map[], [], []) }

  lemma {:induction false} Continue(w: World, c: Config, s: State, run: seq<Action>, a: Action)
    requires Runnable(w, c, s, run) && Enabled(w, After(w, c, s, run), a)
    ensures Runnable(w, c, s, run + [a])
    ensures After(w, c, s, run + [a]) == Apply(w, c, After(w, c, s, run), a)
    decreases |run|
  {
    hide Enabled, Apply;
    if run == [] {
      assert [a][1..] == [] && [] + [a] == [a];
    } else {
      assert (run + [a])[1..] == run[1..] + [a];
      Continue(w, c, Apply(w, c, s, run[0]), run[1..], a);
    }
  }

  /** No task touches another's state, time does not go back, and no write-back is
      taken off the schedule. */
  lemma OthersDoNotInterfere(w: World, c: Config, s: State, a: Action, id: nat)
    requires Enabled(w, s, a) && a.Actor() != Some(id)
    ensures id in s.handlers <==> id in Apply(w, c, s, a).handlers
    ensures id in s.handlers ==> Apply(w, c, s, a).handlers[id] == s.handlers[id]
    ensures s.now <= Apply(w, c, s, a).now
    ensures s.toExact <= Apply(w, c, s, a).toExact && s.toSemantic <= Apply(w, c, s, a).toSemantic
  {
    hide ApplyOwn, Matches;
  }
}
