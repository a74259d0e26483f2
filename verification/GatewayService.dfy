/** GatewayService: one request from its arrival to its reply, through the cache, the
    router and the price table. */
module GatewayService {
  import opened Wrappers
  import opened ChatRequest
  import opened ChatResponse
  import opened CacheKeys
  import opened CacheService
  import opened GatewayProtocol
  import opened Pricing
  import opened Provenance
  import opened Registry
  import AdapterRoutes
  import CircuitBreaker
  import Routing
  import Text

  function OutcomeOf(answer: Result<ChatResponse, Routing.RoutingError>): Option<ChatResponse> {
    if answer.Ok? then Some(answer.value) else None
  }

  /** The handler once the upstream call and any release are behind it. */
  function Called(h: Handler, outcome: Option<ChatResponse>): Handler { h.(phase := AfterCall(h, NotWon, outcome)) }

  /** A priced answer is the reply. */
  function Priced(h: Handler, raw: ChatResponse, costUsd: real, now: int): Handler {
    h.(phase := Returned(Stamp(Built(h, raw, costUsd, now), h.traceId, h.status, now - h.startedAt, h.request)))
  }

  lemma OutcomeStep(w: World, c: Config, s: State, id: nat, outcome: Option<ChatResponse>)
    requires id in s.handlers && s.handlers[id].phase.Calling?
    ensures var a, h := if outcome.Some? then Succeed(id, outcome.value) else Fail(id), s.handlers[id];
            && Enabled(w, s, a) && id in Apply(w, c, s, a).handlers
            && Apply(w, c, s, a).handlers[id] == h.(phase := AfterCall(h, h.phase.won, outcome))
  {
  }

  lemma PriceStep(w: World, c: Config, s: State, id: nat, costUsd: real)
    requires Enabled(w, s, Action.Price(id, costUsd))
    ensures var h, s' := s.handlers[id], Apply(w, c, s, Action.Price(id, costUsd));
            s'.now == s.now && id in s'.handlers && s'.handlers[id] == Priced(h, h.phase.raw, costUsd, s.now)
  {
    hide Built;
  }

  lemma BeginStep(w: World, c: Config, s: State, id: nat, tenant: string, request: ChatRequest, traceId: string)
    requires id !in s.handlers && request in w.requests
    ensures var a := Begin(id, tenant, request, traceId);
            && Enabled(w, s, a) && Apply(w, c, s, a).now == s.now && id in Apply(w, c, s, a).handlers
            && Apply(w, c, s, a).handlers[id] == Begun(tenant, request, traceId, s.now)
  {
  }

  function Begun(tenant: string, request: ChatRequest, traceId: string, now: int): Handler {
    Handler(tenant, request, traceId, now, if request.cacheBypass then Bypassed else Miss, 0,
            if request.cacheBypass then Calling(NotWon) else ReadingExact)
  }

  /** Built and stamped answers say what the provider said, at the price they were given. */
  lemma PricedIsFaithful(h: Handler, raw: ChatResponse, costUsd: real, now: int)
    requires !h.status.IsHit()
    ensures var reply := Priced(h, raw, costUsd, now).phase.response;
            && reply.cacheStatus == h.status && reply.costUsd == costUsd && Labelled(reply, h.traceId, h.request)
            && AnswerOf(reply) == AnswerOf(raw).(model := if h.request.stream then h.request.model else raw.model)
  {
  }

  /** When a price is looked up, and what fails on the way. */
  datatype PriceLookup = PriceLookup(now: int, databaseUp: bool, cacheReadable: bool, cacheWritable: bool)

  // ------------------------------------------------------------ what a stream showed

  function TextsOf(trace: seq<Routing.StreamEvent>): seq<string> {
    if trace == [] then []
    else
      var last := trace[|trace| - 1];
      TextsOf(trace[..|trace| - 1]) + if last.Chunk? then [last.text] else []
  }

  /** The attempt announced last. */
  function SelectionOf(trace: seq<Routing.StreamEvent>): Option<Routing.Attempt> {
    if trace == [] then None
    else
      var last := trace[|trace| - 1];
      if last.Selected? then Some(last.attempt) else SelectionOf(trace[..|trace| - 1])
  }

  /** From what a routed stream shows, its text and its server can be told. */
  lemma {:induction false} ShownBy(a: Routing.Attempt, texts: seq<string>)
    ensures TextsOf(Routing.Announced(a, texts)) == texts
    ensures SelectionOf(Routing.Announced(a, texts)) == if texts == [] then None else Some(a)
    ensures if texts == [] then Routing.Announced(a, texts) == []
            else Routing.Announced(a, texts)[0] == Routing.Selected(a)
    decreases |texts|
  {
    if texts != [] {
      var before := texts[..|texts| - 1];
      var trace := Routing.Announced(a, texts);
      if before == [] {
        assert trace == [Routing.Selected(a)] + [Routing.Chunk(texts[0])];
        assert trace[..1] == [Routing.Selected(a)] && trace[..1][..0] == [] && TextsOf(trace[..1]) == [];
      } else {
        assert trace[..|trace| - 1] == Routing.Announced(a, before);
        ShownBy(a, before);
      }
    }
  }

  class GatewayService {
    const cacheService: CacheService
    const routingService: Routing.RoutingService
    const costService: CostService

    constructor (cacheService: CacheService, routingService: Routing.RoutingService, costService: CostService)
      ensures this.cacheService == cacheService && this.routingService == routingService
              && this.costService == costService
    {
      this.cacheService, this.routingService, this.costService := cacheService, routingService, costService;
    }

    ghost predicate Valid()
      reads cacheService, routingService.Breakers(), costService
    {
      && cacheService.Valid() && routingService.Valid() && costService.Valid()
      && cacheService !in routingService.Breakers() && costService !in routingService.Breakers()
    }

    /** The stamped hit: free, and backed by a completion for this tenant. */
    method HitReply(id: nat, cached: ChatResponse, status: CacheStatus) returns (reply: ChatResponse)
      requires cacheService.Valid() && id in cacheService.s.handlers && status.IsHit()
      requires var h := cacheService.s.handlers[id];
               h == Hit(h, cached, status, cacheService.s.now)
      ensures cacheService.s.handlers[id].phase == Returned(reply) && AnswerOf(reply) == AnswerOf(cached)
      ensures reply.costUsd == 0.0 && reply.cacheStatus == status == cacheService.s.handlers[id].status
      ensures Labelled(reply, cacheService.s.handlers[id].traceId, cacheService.s.handlers[id].request)
      ensures IsDigest(cacheService.w.sha) ==>
                var h := cacheService.s.handlers[id];
                Served(cacheService.w, cacheService.s.made, h.tenant, h.request, AnswerOf(reply))
    {
      hide Runnable, After, Served, IsDigest;
      var h := cacheService.s.handlers[id];
      reply := Stamp(cached, h.traceId, status, cacheService.s.now - h.startedAt, h.request);
      if IsDigest(cacheService.w.sha) {
        cacheService.RepliesAreServed(id);
      }
    }

    /** The upstream call, and in its `finally` the release by whoever won. */
    method CallUpstream(id: nat, wonLock: bool, scripts: nat -> Routing.Script<ChatResponse>)
      returns (answer: Result<ChatResponse, Routing.RoutingError>, calls: seq<nat>)
      requires Valid() && id in cacheService.s.handlers && cacheService.s.handlers[id].phase.Calling?
      requires wonLock <==> cacheService.s.handlers[id].phase.won != NotWon
      modifies cacheService, routingService.Breakers()
      ensures Valid() && old(cacheService.trace) <= cacheService.trace && id in cacheService.s.handlers
      ensures routingService.Answered(old(cacheService.s.handlers[id]).request, old(routingService.Histories()),
              scripts, answer, calls)
      ensures cacheService.s.handlers[id] == Called(old(cacheService.s.handlers[id]), OutcomeOf(answer))
    {
      hide Apply, Enabled, Runnable, GatewayProtocol.After, Routing.RoutingService.Answered,
           Routing.RoutingService.Valid, Routing.RoutingService.WellFormed;
      var request := cacheService.s.handlers[id].request;
      answer, calls := routingService.Complete(request, scripts);
      Conclude(id, wonLock, answer);
    }

    /** What the upstream call comes to, and the release. */
    method Conclude(id: nat, wonLock: bool, answer: Result<ChatResponse, Routing.RoutingError>)
      requires cacheService.Valid() && id in cacheService.s.handlers && cacheService.s.handlers[id].phase.Calling?
      requires wonLock <==> cacheService.s.handlers[id].phase.won != NotWon
      modifies cacheService
      ensures cacheService.Valid() && old(cacheService.trace) <= cacheService.trace && id in cacheService.s.handlers
      ensures cacheService.s.handlers[id] == Called(old(cacheService.s.handlers[id]), OutcomeOf(answer))
    {
      hide Apply, Enabled, Runnable, GatewayProtocol.After;
      var _ := cacheService.Await(id);
      OutcomeStep(cacheService.w, cacheService.c, cacheService.s, id, OutcomeOf(answer));
      match answer {
        case Ok(raw) => cacheService.Step(Succeed(id, raw));
        case Err(_) => cacheService.Step(Fail(id));
      }
      if wonLock {
        cacheService.ReleaseCoalescingLock(id);
      }
    }

    /** The answer of a reply is on its way into both cache layers, at the reply's cost, for
        the tenant and the request it was given to. */
    ghost predicate Scheduled(id: nat, reply: ChatResponse)
      requires id in cacheService.s.handlers
      reads cacheService
    {
      var h := cacheService.s.handlers[id];
      exists write :: write in cacheService.s.toExact && write in cacheService.s.toSemantic
                      && write.tenant == h.tenant && write.request == h.request
                      && AnswerOf(write.response) == AnswerOf(reply) && write.response.costUsd == reply.costUsd
    }

    /** Prices the answer, schedules its write-backs and stamps it. */
    method PriceReply(id: nat, costUsd: real) returns (reply: ChatResponse)
      requires cacheService.Valid() && id in cacheService.s.handlers && cacheService.s.handlers[id].phase.Costing?
      requires !cacheService.s.handlers[id].status.IsHit()
      modifies cacheService
      ensures cacheService.Valid() && old(cacheService.trace) <= cacheService.trace && id in cacheService.s.handlers
      ensures var h := old(cacheService.s.handlers[id]);
              && cacheService.s.handlers[id] == h.(phase := Returned(reply))
              && reply.cacheStatus == h.status && reply.costUsd == costUsd && Labelled(reply, h.traceId, h.request)
              && AnswerOf(reply)
                 == AnswerOf(h.phase.raw).(model := if h.request.stream then h.request.model else h.phase.raw.model)
      ensures old(cacheService.s.handlers[id]).status.Bypassed? || Scheduled(id, reply)
    {
      hide Apply, Runnable, GatewayProtocol.After, Built, Stamp, Later;
      var _ := cacheService.Await(id);
      var h, now := cacheService.s.handlers[id], cacheService.s.now;
      PriceStep(cacheService.w, cacheService.c, cacheService.s, id, costUsd);
      PricedIsFaithful(h, h.phase.raw, costUsd, now);
      BuiltAnswer(h, h.phase.raw, costUsd, now);
      WriteBacks(cacheService.w, cacheService.c, cacheService.s, Action.Price(id, costUsd));
      cacheService.Step(Action.Price(id, costUsd));
      var response := Built(h, h.phase.raw, costUsd, now);
      reply := Stamp(response, h.traceId, h.status, now - h.startedAt, h.request);
    }

    /** A new request, looked up. */
    method Open(id: nat, tenant: string, request: ChatRequest, traceId: string)
      returns (cached: Option<ChatResponse>, status: CacheStatus)
      requires cacheService.Valid() && id !in cacheService.s.handlers && request in cacheService.w.requests
      modifies cacheService
      ensures cacheService.Valid() && old(cacheService.trace) <= cacheService.trace && id in cacheService.s.handlers
      ensures var h := cacheService.s.handlers[id];
              && h.tenant == tenant && h.request == request && h.traceId == traceId && h.status == status
              && (status.IsHit() <==> cached.Some?) && (status.Bypassed? <==> request.cacheBypass)
              && (cached.Some? ==> h == Hit(h, cached.value, status, cacheService.s.now))
              && (cached.None? ==> h.phase == if status.Bypassed? || request.stream then Calling(NotWon) else Acquiring)
      ensures old(cacheService.moments(cacheService.awaits)).reachable && !request.cacheBypass ==>
                var begun := Begin(id, tenant, request, traceId);
                var asked := Apply(cacheService.w, cacheService.c, old(cacheService.s), begun);
                var others := cacheService.moments(old(cacheService.awaits)).others;
                var exact := Later(cacheService.w, cacheService.c, asked, others, id).exact;
                var key := EntryKey(cacheService.w.sha, request, tenant);
                && (status.ExactHit? <==> key in exact)
                && (key in exact ==> cached == Some(exact[key].response))
    {
      hide Runnable, GatewayProtocol.After, Apply, Stamp, Later, EntryKey, ParamsHash, Normal;
      BeginStep(cacheService.w, cacheService.c, cacheService.s, id, tenant, request, traceId);
      cacheService.Step(Begin(id, tenant, request, traceId));
      cached, status := cacheService.Lookup(id);
    }

    /** Takes the lock, or waits for whoever has it and then goes ahead without. */
    method Coalesce(id: nat) returns (wonLock: bool, coalesced: Option<ChatResponse>)
      requires cacheService.Valid() && id in cacheService.s.handlers && cacheService.s.handlers[id].phase.Acquiring?
      modifies cacheService
      ensures cacheService.Valid() && old(cacheService.trace) <= cacheService.trace && id in cacheService.s.handlers
      ensures var h, h' := old(cacheService.s.handlers[id]), cacheService.s.handlers[id];
              if coalesced.Some?
              then h'.tenant == h.tenant && h'.request == h.request && h'.traceId == h.traceId
                && h' == Hit(h', coalesced.value, ExactHit, cacheService.s.now)
              else
                && h' == h.(polls := h'.polls, phase := h'.phase) && h'.phase.Calling?
                && (wonLock <==> h'.phase.won != NotWon)
    {
      hide Runnable, GatewayProtocol.After, LockOf, Stamp, Later, EntryKey, CacheService.Visited;
      coalesced := None;
      wonLock := cacheService.AcquireCoalescingLock(id);
      if !wonLock {
        ghost var seen;
        coalesced, seen := cacheService.WaitForCoalescedResult(id);
      }
    }

    /** The cost is that of a price some table read justifies at that moment. */
    ghost predicate PricedAt(model: ModelIdentifier, usage: TokenUsage, now: int, costUsd: real)
      reads costService
    {
      exists price :: costService.Justified(costService.loads, model, now, price) && costUsd == CostUsd(price, usage)
    }

    /** The way upstream of a request that found nothing: answered at its own cost, or failed. */
    method Fetch(id: nat, wonLock: bool, scripts: nat -> Routing.Script<ChatResponse>, at: PriceLookup)
      returns (result: Result<ChatResponse, Routing.RoutingError>,
        ghost answer: Result<ChatResponse, Routing.RoutingError>, calls: seq<nat>)
      requires Valid() && id in cacheService.s.handlers && cacheService.s.handlers[id].phase.Calling?
      requires !cacheService.s.handlers[id].request.stream && !cacheService.s.handlers[id].status.IsHit()
      requires wonLock <==> cacheService.s.handlers[id].phase.won != NotWon
      requires costService.clock <= at.now
      modifies cacheService, routingService.Breakers(), costService
      ensures Valid() && old(cacheService.trace) <= cacheService.trace && id in cacheService.s.handlers
      ensures var h := old(cacheService.s.handlers[id]);
              && cacheService.s.handlers[id] == h.(phase := if result.Ok? then Returned(result.value) else Raised)
              && routingService.Answered(h.request, old(routingService.Histories()), scripts, answer, calls)
              && (if result.Ok? then
                    && answer.Ok? && AnswerOf(result.value) == AnswerOf(answer.value)
                       && result.value.cacheStatus == h.status && Labelled(result.value, h.traceId, h.request)
                    && PricedAt(ModelIdentifier(answer.value.provider, answer.value.model), answer.value.usage, at.now,
                       result.value.costUsd)
                  else answer == Err(result.error))
      ensures result.Ok? && !result.value.cacheStatus.Bypassed? ==> Scheduled(id, result.value)
    {
      hide Runnable, GatewayProtocol.After, Apply, Routing.RoutingService.Answered, Scheduled;
      var response;
      response, calls := CallUpstream(id, wonLock, scripts);
      answer := response;
      if response.Err? {
        return Err(response.error), answer, calls;
      }
      var model := ModelIdentifier(response.value.provider, response.value.model);
      var cost := costService.CalculateCostUsd(model, response.value.usage, at.now, at.databaseUp, at.cacheReadable,
        at.cacheWritable);
      var reply := PriceReply(id, cost);
      return Ok(reply), answer, calls;
    }

    /** The reply is a hit, for which neither a provider nor a price is asked; or this
        request's own routed answer at its own cost; or the router's error, after any
        lock the request won is released. */
    method HandleChatCompletion(id: nat, raw: ChatRequest, traceId: string, tenant: string,
        routes: AdapterRoutes.Table, hash: nat, routesUp: bool, scripts: nat -> Routing.Script<ChatResponse>,
          at: PriceLookup)
      returns (result: Result<ChatResponse, Routing.RoutingError>,
        ghost answer: Result<ChatResponse, Routing.RoutingError>, calls: seq<nat>)
      requires Valid() && id !in cacheService.s.handlers && costService.clock <= at.now
      requires !raw.stream && AdapterRoutes.ApplyRoute(raw, routes, tenant, hash, routesUp) in cacheService.w.requests
      modifies cacheService, routingService.Breakers(), costService
      ensures Valid() && old(cacheService.trace) <= cacheService.trace && id in cacheService.s.handlers
      ensures cacheService.s.handlers[id].tenant == tenant
      ensures cacheService.s.handlers[id].request == AdapterRoutes.ApplyRoute(raw, routes, tenant, hash, routesUp)
      ensures match result
              case Ok(reply) => cacheService.s.handlers[id].phase == Returned(reply)
                && cacheService.s.handlers[id].status == reply.cacheStatus
                && Labelled(reply, traceId, cacheService.s.handlers[id].request)
                && (reply.cacheStatus.Bypassed? <==> raw.cacheBypass)
              case Err(e) => cacheService.s.handlers[id].phase == Raised && answer == Err(e)
      ensures old(cacheService.moments(cacheService.awaits)).reachable && !raw.cacheBypass ==>
                var request := AdapterRoutes.ApplyRoute(raw, routes, tenant, hash, routesUp);
                var begun := Begin(id, tenant, request, traceId);
                var asked := Apply(cacheService.w, cacheService.c, old(cacheService.s), begun);
                var others := cacheService.moments(old(cacheService.awaits)).others;
                var exact := Later(cacheService.w, cacheService.c, asked, others, id).exact;
                var key := EntryKey(cacheService.w.sha, request, tenant);
                key in exact ==>
                  && result.Ok? && result.value.cacheStatus == ExactHit
                  && AnswerOf(result.value) == AnswerOf(exact[key].response)
      ensures result.Ok? && result.value.cacheStatus.IsHit() ==>
                && result.value.costUsd == 0.0
                && calls == [] && routingService.Histories() == old(routingService.Histories())
                && costService.loads == old(costService.loads) && costService.cache == old(costService.cache)
                && (IsDigest(cacheService.w.sha) ==>
                      Served(cacheService.w, cacheService.s.made, tenant, cacheService.s.handlers[id].request,
                        AnswerOf(result.value)))
      ensures result.Err? || !result.value.cacheStatus.IsHit() ==>
                && routingService.Answered(cacheService.s.handlers[id].request, old(routingService.Histories()),
                   scripts, answer, calls)
                && (answer.Ok? <==> result.Ok?)
      ensures result.Ok? && !result.value.cacheStatus.IsHit() ==>
                && answer.Ok? && AnswerOf(result.value) == AnswerOf(answer.value)
                && PricedAt(ModelIdentifier(answer.value.provider, answer.value.model), answer.value.usage, at.now,
                   result.value.costUsd)
                && (result.value.cacheStatus.Bypassed? || Scheduled(id, result.value))
    {
      hide Runnable, GatewayProtocol.After, Apply, LockOf, Served, IsDigest, Hit, PricedAt, Later, EntryKey, Scheduled,
           Routing.RoutingService.Answered, Routing.RoutingService.Valid, Routing.RoutingService.WellFormed,
           CostService.Valid;
      var request := AdapterRoutes.ApplyRoute(raw, routes, tenant, hash, routesUp);
      calls := [];
      var cached, status := Open(id, tenant, request, traceId);
      if cached.Some? {
        var reply := HitReply(id, cached.value, status);
        return Ok(reply), Ok(reply), [];
      }
      var wonLock := false;
      if !status.Bypassed? {
        var coalesced;
        wonLock, coalesced := Coalesce(id);
        if coalesced.Some? {
          var reply := HitReply(id, coalesced.value, ExactHit);
          return Ok(reply), Ok(reply), [];
        }
      }
      result, answer, calls := Fetch(id, wonLock, scripts, at);
    }

    lemma NothingShown()
      ensures SelectionOf([]) == None
    {
    }

    /** A registered provider serves the stream, if any does. */
    lemma SelectionIsPlaced(r: ChatRequest, histories: seq<seq<CircuitBreaker.Event>>,
        scripts: nat -> Routing.StreamingScript,
        d: Routing.Delivery, calls: seq<nat>)
      requires routingService.StreamAnswered(r, histories, scripts, d, calls)
      ensures SelectionOf(d.trace).Some? ==> SelectionOf(d.trace).value.provider < |routingService.providers|
      ensures if d.trace == [] then SelectionOf(d.trace) == None
              else d.trace[0].Selected? && SelectionOf(d.trace) == Some(d.trace[0].attempt)
    {
      hide Routing.StreamFallBack, Routing.Silent, Routing.Recorded, Routing.Plan, Routing.Announced, TextsOf,
           SelectionOf, Routing.RoutingService.StreamCallsAre, Routing.FirstStreaming;
      NothingShown();
      var plan := Routing.Plan(routingService.settings, routingService.providers, r);
      if plan.Ok? && d.trace != [] {
        var last := |calls| - 1;
        ShownBy(plan.value[last], scripts(last).upstream(calls[last] - 1).chunks);
      }
    }

    /** Passes the chunks on one by one, and notes which attempt serves them. */
    method Relay(id: nat, trace: seq<Routing.StreamEvent>)
      returns (chunks: seq<string>, selection: Option<Routing.Attempt>)
      requires cacheService.Valid() && id in cacheService.s.handlers
      modifies cacheService
      ensures cacheService.Valid() && old(cacheService.trace) <= cacheService.trace && id in cacheService.s.handlers
      ensures cacheService.s.handlers[id] == old(cacheService.s.handlers[id])
      ensures chunks == TextsOf(trace) && selection == SelectionOf(trace)
    {
      hide Runnable, GatewayProtocol.After;
      chunks, selection := [], None;
      for i := 0 to |trace|
        invariant cacheService.Valid() && old(cacheService.trace) <= cacheService.trace && id in cacheService.s.handlers
        invariant cacheService.s.handlers[id] == old(cacheService.s.handlers[id])
        invariant chunks == TextsOf(trace[..i]) && selection == SelectionOf(trace[..i])
      {
        assert trace[..i + 1][..i] == trace[..i];
        match trace[i] {
          case Selected(a) =>
            selection := Some(a);
          case Chunk(text) =>
            var _ := cacheService.Await(id);
            chunks := chunks + [text];
        }
      }
      assert trace[..|trace|] == trace;
    }

    /** Who served a stream and what it used; nobody and nothing when no attempt spoke. */
    function ServerOf(selection: Option<Routing.Attempt>): string
      requires selection.Some? ==> selection.value.provider < |routingService.providers|
    {
      if selection.Some? then routingService.providers[selection.value.provider].name else "unknown"
    }

    function UsageOf(selection: Option<Routing.Attempt>, countTokens: (Routing.Attempt, string) -> TokenUsage,
        text: string): TokenUsage
    {
      if selection.Some? then countTokens(selection.value, text) else TokenUsage(0, 0)
    }

    /** The routed stream, as the client gets it. */
    method StreamUpstream(id: nat, scripts: nat -> Routing.StreamingScript)
      returns (chunks: seq<string>, selection: Option<Routing.Attempt>, trace: seq<Routing.StreamEvent>,
        end: Result<(), Routing.RoutingError>, calls: seq<nat>)
      requires Valid() && id in cacheService.s.handlers
      modifies cacheService, routingService.Breakers()
      ensures Valid() && old(cacheService.trace) <= cacheService.trace && id in cacheService.s.handlers
      ensures cacheService.s.handlers[id] == old(cacheService.s.handlers[id])
      ensures routingService.StreamAnswered(old(cacheService.s.handlers[id]).request, old(routingService.Histories()),
              scripts, Routing.Delivery(trace, end), calls)
      ensures chunks == TextsOf(trace) && selection == SelectionOf(trace)
      ensures selection.Some? ==> selection.value.provider < |routingService.providers|
      ensures if trace == [] then selection == None else trace[0].Selected? && selection == Some(trace[0].attempt)
    {
      hide Runnable, GatewayProtocol.After, TextsOf, SelectionOf, Routing.RoutingService.StreamAnswered,
           Routing.RoutingService.Valid, Routing.RoutingService.WellFormed;
      var request := cacheService.s.handlers[id].request;
      ghost var histories := routingService.Histories();
      trace, end, calls := routingService.Stream(request, scripts);
      SelectionIsPlaced(request, histories, scripts, Routing.Delivery(trace, end), calls);
      chunks, selection := Relay(id, trace);
    }

    /** After the last chunk: the text is priced and described, unless the stream failed
        or bypassed the cache. */
    method FinishStream(id: nat, chunks: seq<string>, selection: Option<Routing.Attempt>,
        end: Result<(), Routing.RoutingError>,
        countTokens: (Routing.Attempt, string) -> TokenUsage, responseId: string, createdAt: int, at: PriceLookup)
      returns (metadata: Option<ChatResponse>)
      requires cacheService.Valid() && id in cacheService.s.handlers
               && cacheService.s.handlers[id].phase == Calling(NotWon)
      requires cacheService.s.handlers[id].request.stream
      requires cacheService.s.handlers[id].status
            == if cacheService.s.handlers[id].request.cacheBypass then Bypassed else Miss
      requires costService.Valid() && costService.clock <= at.now
      requires selection.Some? ==> selection.value.provider < |routingService.providers|
      modifies cacheService, costService
      ensures cacheService.Valid() && costService.Valid() && old(cacheService.trace) <= cacheService.trace
              && id in cacheService.s.handlers
      ensures var h := old(cacheService.s.handlers[id]);
              && cacheService.s.handlers[id] == h.(phase := cacheService.s.handlers[id].phase)
              && (metadata.Some? <==> end.Ok? && !h.request.cacheBypass)
              && (end.Err? ==> cacheService.s.handlers[id].phase == Raised)
              && (end.Ok? && h.request.cacheBypass ==> cacheService.s.handlers[id].phase == Ended)
              && (metadata.Some? ==>
                    && cacheService.s.handlers[id].phase == Returned(metadata.value)
                    && metadata.value.cacheStatus == h.status && Labelled(metadata.value, h.traceId, h.request))
      ensures metadata.Some? ==> Scheduled(id, metadata.value)
      ensures metadata.Some? ==>
              Describes(metadata.value, old(cacheService.s.handlers[id]).request, chunks, selection,
                countTokens, at.now)
    {
      hide Runnable, GatewayProtocol.After, Apply, Text.Join, Scheduled;
      var h := cacheService.s.handlers[id];
      var fullText := Text.Join("", chunks);
      var usage := UsageOf(selection, countTokens, fullText);
      var response := ChatResponse(
        responseId, h.request.model, ServerOf(selection), ChatMessage(Assistant, fullText), usage, 0.0, h.status,
        h.traceId, createdAt, 0, h.request.adapterId, h.request.modelAlias, h.request.adapterStage);
      Conclude(id, false, if end.Ok? then Ok(response) else Err(end.error));
      metadata := None;
      if end.Err? || h.request.cacheBypass {
        return;
      }
      var cost := costService.CalculateCostUsd(ModelIdentifier(response.provider, response.model), usage, at.now,
        at.databaseUp, at.cacheReadable, at.cacheWritable);
      var reply := PriceReply(id, cost);
      metadata := Some(reply);
    }

    /** The closing metadata: exactly the text sent, by whom it was served, and a price
        under that provider and the model the client asked for. */
    ghost predicate Describes(m: ChatResponse, request: ChatRequest, chunks: seq<string>,
        selection: Option<Routing.Attempt>,
        countTokens: (Routing.Attempt, string) -> TokenUsage, now: int)
      requires selection.Some? ==> selection.value.provider < |routingService.providers|
      reads costService
    {
      && m.message == ChatMessage(Assistant, Text.Join("", chunks))
      && m.model == request.model
      && m.provider == ServerOf(selection)
      && m.usage == UsageOf(selection, countTokens, Text.Join("", chunks))
      && PricedAt(ModelIdentifier(m.provider, m.model), m.usage, now, m.costUsd)
    }

    /** A hit's whole text is sent as one chunk, and neither a provider nor a price is
        asked; otherwise exactly what the router delivered is sent. The closing metadata
        describes what was sent; a bypassed or failed stream has none. */
    method HandleChatCompletionStream(id: nat, raw: ChatRequest, traceId: string, tenant: string,
        routes: AdapterRoutes.Table, hash: nat, routesUp: bool, scripts: nat -> Routing.StreamingScript,
        countTokens: (Routing.Attempt, string) -> TokenUsage, responseId: string, createdAt: int, at: PriceLookup)
      returns (chunks: seq<string>, metadata: Option<ChatResponse>, end: Result<(), Routing.RoutingError>,
        ghost trace: seq<Routing.StreamEvent>, calls: seq<nat>)
      requires Valid() && id !in cacheService.s.handlers && costService.clock <= at.now
      requires raw.stream && AdapterRoutes.ApplyRoute(raw, routes, tenant, hash, routesUp) in cacheService.w.requests
      modifies cacheService, routingService.Breakers(), costService
      ensures Valid() && old(cacheService.trace) <= cacheService.trace && id in cacheService.s.handlers
      ensures cacheService.s.handlers[id].tenant == tenant
      ensures cacheService.s.handlers[id].request == AdapterRoutes.ApplyRoute(raw, routes, tenant, hash, routesUp)
      ensures metadata.Some? ==>
                && cacheService.s.handlers[id].phase == Returned(metadata.value)
                && Labelled(metadata.value, traceId, cacheService.s.handlers[id].request)
      ensures old(cacheService.moments(cacheService.awaits)).reachable && !raw.cacheBypass ==>
                var request := AdapterRoutes.ApplyRoute(raw, routes, tenant, hash, routesUp);
                var begun := Begin(id, tenant, request, traceId);
                var asked := Apply(cacheService.w, cacheService.c, old(cacheService.s), begun);
                var others := cacheService.moments(old(cacheService.awaits)).others;
                var exact := Later(cacheService.w, cacheService.c, asked, others, id).exact;
                var key := EntryKey(cacheService.w.sha, request, tenant);
                key in exact ==> chunks == [exact[key].response.message.content]
      ensures metadata.Some? && !metadata.value.cacheStatus.IsHit() ==>
                if trace == [] then metadata.value.provider == "unknown" && metadata.value.usage == TokenUsage(0, 0)
                else
                  && trace[0].Selected? && trace[0].attempt.provider < |routingService.providers|
                  && metadata.value.provider == routingService.providers[trace[0].attempt.provider].name
                  && metadata.value.usage == countTokens(trace[0].attempt, metadata.value.message.content)
      ensures cacheService.s.handlers[id].status.IsHit() ==>
                && metadata.Some? && end.Ok? && metadata.value.costUsd == 0.0
                   && chunks == [metadata.value.message.content]
                && calls == [] && routingService.Histories() == old(routingService.Histories())
                && costService.loads == old(costService.loads) && costService.cache == old(costService.cache)
                && (IsDigest(cacheService.w.sha) ==>
                      Served(cacheService.w, cacheService.s.made, tenant, cacheService.s.handlers[id].request,
                        AnswerOf(metadata.value)))
      ensures !cacheService.s.handlers[id].status.IsHit() ==>
                var request := cacheService.s.handlers[id].request;
                && routingService.StreamAnswered(request, old(routingService.Histories()), scripts,
                   Routing.Delivery(trace, end), calls)
                && chunks == TextsOf(trace)
                && (metadata.Some? <==> end.Ok? && !request.cacheBypass)
                && (end.Err? ==> cacheService.s.handlers[id].phase == Raised)
                && (end.Ok? && request.cacheBypass ==> cacheService.s.handlers[id].phase == Ended)
                && (SelectionOf(trace).Some? ==> SelectionOf(trace).value.provider < |routingService.providers|)
                && (metadata.Some? ==> Describes(metadata.value, request, chunks, SelectionOf(trace),
                    countTokens, at.now))
                && (metadata.Some? ==> Scheduled(id, metadata.value))
    {
      hide Runnable, GatewayProtocol.After, Apply, LockOf, Served, IsDigest, Hit, PricedAt, TextsOf, Later, EntryKey,
           Scheduled, SelectionOf, Text.Join, Routing.RoutingService.StreamAnswered, Routing.RoutingService.Valid,
           Routing.RoutingService.WellFormed, CostService.Valid;
      var request := AdapterRoutes.ApplyRoute(raw, routes, tenant, hash, routesUp);
      var cached, status := Open(id, tenant, request, traceId);
      if cached.Some? {
        var reply := HitReply(id, cached.value, status);
        return [reply.message.content], Some(reply), Ok(()), [], [];
      }
      var selection, events;
      chunks, selection, events, end, calls := StreamUpstream(id, scripts);
      trace := events;
      metadata := FinishStream(id, chunks, selection, end, countTokens, responseId, createdAt, at);
    }
  }
}
