# llmops-gateway: verified request-path control logic

A Dafny model of what the gateway does to a chat request between the API and the
upstream providers: rate limiting, adapter routing, the two cache layers and the
coalescing lock, provider fallback with retries and circuit breakers, and pricing.
`dafny verify dfyconfig.toml` checks every file.

Each component comes as a specification (datatypes and functions) with theorems about
it. Where the source mutates objects there is also a class whose methods are proved
against that specification. The two places where many requests race, the rate-limit
bucket and the cache/lock/upstream path, are state machines: a run is any sequence of
enabled actions of any number of clients, and the theorems quantify over all runs.

| files | component |
|---|---|
| `TokenBucket`, `BucketLog`, `BucketProtocol` | one bucket sequentially; what a history of writes can admit; N clients under WATCH/EXEC whose commands may fail |
| `BucketRuns`, `RateLimiter`, `BucketRefinement` | bounds for calls that take turns and for failing open; the service class; its calls as runs of the protocol |
| `CircuitBreaker`, `Provider`, `BurstBound` | the breaker against a history; retry and stream loops; calls made to a dead upstream |
| `Registry`, `Routing`, `StreamCost` | model identifiers, equivalents, the fallback plan, fallback of completions and streams; what a stream is priced as |
| `Text`, `Repr`, `ChatRequest`, `CacheKeys` | words, splitting and decimal text; printed Python lists; prompt normal form and fingerprint; Redis keys |
| `ChatResponse`, `GatewayProtocol`, `Provenance`, `Accounts`, `Coalescing` | the request machine; where cached answers come from; who pays; the lock |
| `CacheService`, `GatewayService` | the service classes, from arrival to reply |
| `AdapterRoutes`, `Pricing` | the canary table; price versions, their cache and costs |
| `Reals`, `Wrappers` | small arithmetic facts; Option and Result |

Reading notes

- Floats are `real`, so rounding is not modelled; bucket and machine times are whole
  milliseconds, breaker times are reals, price times whole seconds.
- Upstreams, clocks, jitter, Redis failures, vector-search answers and the steps of
  other tasks are parameters (scripts indexed by call or await), arbitrary in every theorem.
- SHA-256 is any function to 64-character digests. Tenant isolation and cost conservation
  need no more; equality of parameters also assumes that it does not collide on the finite set
  of requests in use and that no model or adapter id contains `|`, which is needed
  (`Provenance.BarsServeAnotherModel`). Prompts and stop lists may contain it.
- `EXEC` is taken to fail whenever the key was modified or expired since `WATCH`, as Redis
  does from 6.0.9 on. `SET ... EX n` is taken to fail for `n < 1`.
- In the request machine, `Lock.owner`, the request kept inside `Stored`, and `made` are
  bookkeeping for the theorems. The lock's stored value is the same for every winner, and
  readers of the exact layer see only the response.

Where the code and its documentation differ, the model follows the code

- `providers/base.py:123-127` promises a single half-open probe. `allow_request` admits every
  caller once the cooldown is over, and an admitted request makes up to `max_retries + 1`
  calls without asking again. The guarantees that remain are
  `BurstBound.FirstRefusalComesInTime` and `BurstBound.CallsToDeadUpstream`.
- `caching/hashing.py:13` speaks of case normalization; there is none
  (`ChatRequest.NormalFormsAgree`). `hashing.py:19-21` speaks of truly equivalent requests;
  message boundaries are not part of the key (`ChatRequest.TwoMessagesCanLookLikeOne`).
- `gateway_service.py:72-75` captures the serving provider for accurate cost attribution. A
  stream is then priced under the model the client asked for, even when the router asked
  an equivalent one (`GatewayService.GatewayService.HandleChatCompletionStream`).
  `StreamCost.PricedAsServedIff` says exactly when the two agree, and
  `StreamCost.DefaultFallbackStreamIsFree` what happens with the shipped defaults when they do not.
- Lock release deletes the key whoever owns it now (`Coalescing.LateReleaseFreesAnothersLock`).
- A refusal is written outside the transaction, so the plain bound "capacity plus refill"
  does not hold for every run (`BucketProtocol.LateRefusalBreaksPlainBound`,
  `BucketProtocol.BackwardsClockBreaksPlainBoundInRuns`); the bounds proved carry the correction
  terms, and the plain one holds for calls that take turns (`BucketRuns.TurnsObeyPlainBound`).
- "threshold + max_retries calls before the first refusal" is no bound when requests are
  spaced wider than the cooldown (`BurstBound.SpacedRequestsAreNeverRefused`); it holds when
  none waits the cooldown out, and for retryable failures only then
  (`BurstBound.FirstRefusalComesInTime`).
- `rate_limit_service.py:62-71` treats every Redis error as a call that was not limited or not
  served. After a commit that Redis carried out the call is charged all the same
  (`RateLimiter.RateLimitService.CheckAndIncrement`).

## Model

| member | source | states |
|---|---|---|
| TokenBucket.DecideStaysInRange | src/llmops_gateway/services/rate_limit_service.py:90-102 | whatever is stored in range, every verdict leaves a balance between 0 and the capacity |
| TokenBucket.RefillComposes | src/llmops_gateway/services/rate_limit_service.py:90-94 | refilling at t1 and again at t2 equals refilling once at t2, if and only if the first refill did not move the stored time backwards or could not matter |
| TokenBucket.DeniedPollsAreInvisible | src/llmops_gateway/services/rate_limit_service.py:96-100 | any number of refused polls on a non-decreasing clock changes no later decision and no state it writes |
| TokenBucket.RetryAfterIsExact | src/llmops_gateway/services/rate_limit_service.py:96-100 | after a refusal and without other traffic, a call is admitted at t if and only if the advertised wait has passed and the cost fits the bucket |
| TokenBucket.HeaderIsLeastWait | src/llmops_gateway/middleware/error_handling.py:65-74 | waiting the rounded-up Retry-After header admits, and no smaller positive number of seconds does |
| TokenBucket.TtlIsTwiceTheRefill | src/llmops_gateway/services/rate_limit_service.py:103 | a key lives for twice the time of a full refill, in whole milliseconds, and for one second at least |
| TokenBucket.ExpiryInvisibleIff | src/llmops_gateway/services/rate_limit_service.py:103-109 | a reader whose clock lags cannot tell an expired bucket from a live one if and only if the lag fits between the time to live and the full-refill time |
| TokenBucket.ExpiryIsUnobservable | src/llmops_gateway/services/rate_limit_service.py:90-109 | over whole runs, dropping due buckets changes no decision, wait or written state |
| BucketLog.AdmissionBound | src/llmops_gateway/services/rate_limit_service.py:86-117 | for any history: admitted cost plus stored tokens is at most the initial tokens, plus refill over the forward steps of the stored time, plus the cost of late refusals |
| BucketLog.SteadyTelescopes | src/llmops_gateway/services/rate_limit_service.py:86-117 | without late refusals and with non-decreasing times the forward steps add up to the elapsed time |
| BucketLog.WindowBound | src/llmops_gateway/services/rate_limit_service.py:86-117 | on a steady stretch every window admits at most one capacity plus the refill of its own length |
| BucketLog.BackwardsClockBreaksPlainBound | src/llmops_gateway/services/rate_limit_service.py:52-60 | an older clock reading alone lets a legal history without late refusals exceed capacity plus refill |
| BucketProtocol.Linearizable | src/llmops_gateway/services/rate_limit_service.py:86-132 | every interleaving of any number of calls, any of whose commands may fail before or after Redis carried it out, is a history of the sequential bucket; a call is charged once if it was admitted or failed on a commit that went through, and never otherwise; the balance stays within 0 and the capacity |
| BucketProtocol.StepKeepsInv | src/llmops_gateway/services/rate_limit_service.py:86-132 | each Redis command of any client, failing or not, and expiry, keeps the linearization invariant |
| BucketProtocol.WritesActSequentially | src/llmops_gateway/services/rate_limit_service.py:96-114 | a successful EXEC, and a refusal written before anything changed, do to the value stored at that instant what the sequential bucket does |
| BucketProtocol.RunAdmissionBound | src/llmops_gateway/services/rate_limit_service.py:86-132 | the general admission bound over every run of the protocol |
| BucketProtocol.RunWindowBound | src/llmops_gateway/services/rate_limit_service.py:86-132 | the plain bound in every steady window of every run |
| BucketProtocol.CallsTerminate | src/llmops_gateway/services/rate_limit_service.py:86-117 | each own command brings a call nearer its answer, at most sixteen of them, and no other client's command touches it |
| BucketProtocol.SerialHistoriesHappen | src/llmops_gateway/services/rate_limit_service.py:86-117 | conversely to Linearizable, every legal history without late refusals in which each client calls once is the history of some run |
| BucketProtocol.BackwardsClockBreaksPlainBoundInRuns | src/llmops_gateway/services/rate_limit_service.py:52-60 | a run of three undisturbed calls, one with a clock a second behind, admits 2 units at one instant from a bucket of 1 |
| BucketProtocol.LateRefusalBreaksPlainBound | src/llmops_gateway/services/rate_limit_service.py:96-100 | a concrete run with monotone clocks that admits 2 units within 100 ms from a bucket of 1 refilled at 1 per second |
| BucketRuns.TurnsObeyPlainBound | src/llmops_gateway/services/rate_limit_service.py:52-60 | when a call or an expiry begins only while no other call is under way and their times do not decrease, every window of the run admits at most one capacity plus the refill of its own length, whichever commands fail |
| BucketRuns.TurnsObeyTheLimit | src/llmops_gateway/services/rate_limit_service.py:49-60 | at a limit per minute, every window of such a run admits at most the limit and as much again per 60 s of its length |
| BucketRuns.PassBound | src/llmops_gateway/services/rate_limit_service.py:62-74 | over every run, what callers are let through plus the tokens left is within the general admission bound, plus, if the limiter fails open, the cost of the calls that failed uncharged |
| BucketRefinement.ConsumeTokenIsARun | src/llmops_gateway/services/rate_limit_service.py:76-117 | from any point of any run, with any possible steps of the others between its commands and any command failing, a call's commands extend the run, and its answer, charge and key are those of the retry loop against the writes the others made |
| BucketRefinement.OthersMayDoAnything | src/llmops_gateway/services/rate_limit_service.py:86-114 | every sequence of steps that other clients and expiry can take is taken as it stands between a call's commands |
| RateLimiter.RateLimitService.Try | src/llmops_gateway/services/rate_limit_service.py:86-114 | one WATCH / HMGET / EXEC round against any rival writes and any failing command: its answer, its commits and the key it leaves |
| RateLimiter.RateLimitService.ConsumeToken | src/llmops_gateway/services/rate_limit_service.py:76-117 | the retry loop under arbitrary rival writes and an arbitrary failing command: it raises exactly when it reaches that command, commits at most once, charges the key at the value it read, refuses with the exact wait, or gives up untouched after five lost races; after a failure the key is as the rivals left it, charged once, or the refilled balance of a refusal, and charged exactly if the failing command was an EXEC that had been carried out |
| RateLimiter.RateLimitService.CheckAndIncrement | src/llmops_gateway/services/rate_limit_service.py:34-74 | undisturbed, in terms of the limit alone: a tenant's own limit or else the default, a fresh bucket of that many tokens, as many again per 60 s, the call admitted if its cost fits the balance and otherwise told how long the missing tokens take; uncharged when off or without a positive limit; in general at most one charge, exactly if admitted; after a Redis error it passes or raises as configured, charged exactly if the commit had been carried out, and never leaves half a charge |
| RateLimiter.FreshTenantGetsItsLimit | src/llmops_gateway/services/rate_limit_service.py:46-60 | of any number of unit calls at one moment a fresh tenant has exactly its limit per minute admitted; each further one is told to wait 60 / limit seconds |
| RateLimiter.PerMinuteLimitsTolerateAMinuteOfLag | src/llmops_gateway/services/rate_limit_service.py:50-52 | with per-minute limits expiry stays invisible to readers up to a minute behind |
| CircuitBreaker.FailureRunIsLongest | src/llmops_gateway/providers/base.py:153-170 | the specification's count is the length of the longest all-failure suffix of the history |
| CircuitBreaker.RefusedIff | src/llmops_gateway/providers/base.py:139-151 | refusal at any time, read off the recorded outcomes and the two settings |
| CircuitBreaker.CircuitBreaker.AllowRequest | src/llmops_gateway/providers/base.py:139-151 | a request is allowed if and only if one of the last max(1, failure_threshold) recorded outcomes is missing or a success, or cooldown_seconds have passed since the last one |
| CircuitBreaker.CircuitBreaker.RecordSuccess | src/llmops_gateway/providers/base.py:153-157 | the fields become those of the history with one more success |
| CircuitBreaker.CircuitBreaker.RecordFailure | src/llmops_gateway/providers/base.py:159-170 | the fields become those of the history with one more failure |
| CircuitBreaker.HalfOpenBranchIsRedundant | src/llmops_gateway/providers/base.py:162-167 | on every reachable breaker the half-open branch of a failure changes nothing |
| CircuitBreaker.StoredState | src/llmops_gateway/providers/base.py:134-147 | never stored half-open, open exactly from the threshold on, opened at the last failure |
| Provider.BackoffIsBounded | src/llmops_gateway/providers/base.py:96-110 | without Retry-After the total sleep of n retries lies between the closed form of min(20, 0.5 * 2^i) and that plus half a second each |
| Provider.WaitBeforeRetry | src/llmops_gateway/providers/base.py:96-110 | each single wait: what Retry-After asks, never negative, or else 0.5, 1, 2, 4, 8, 16 and then 20 seconds, plus jitter |
| Provider.CallsMadeIsFirstStop | src/llmops_gateway/providers/base.py:187-214 | the number of calls is the smaller of max_retries + 1 and the position of the first outcome not worth retrying |
| Provider.RetriedErrors | src/llmops_gateway/providers/base.py:49-87 | a request is called again exactly after a 429, a timeout, a lost connection or a status of 500 and above, up to max_retries times; never after another status, an open circuit, a success or a crash |
| Provider.RetriedStreams | src/llmops_gateway/providers/base.py:216-248 | a stream is started again exactly after such an error before its first chunk |
| Provider.CounterAfterRequest | src/llmops_gateway/providers/base.py:194-214 | the failure counter ends at 0 on success and otherwise at its old value plus the calls |
| Provider.LLMProvider.Complete | src/llmops_gateway/providers/base.py:187-214 | refused without an upstream call exactly when the breaker's history says so; otherwise the last call's response is returned, its error raised, its crash passed on, with exact call count, sleep and breaker history |
| Provider.LLMProvider.Stream | src/llmops_gateway/providers/base.py:216-248 | the chunks delivered are the whole output of the last call, every earlier call produced none, a call that yielded is never retried; exact call count, sleep and breaker history |
| BurstBound.DeadSession | src/llmops_gateway/providers/base.py:187-248 | what one completed or streamed request to a dead upstream adds to the breaker: at most max_retries + 1 failures, exactly that many when all are worth a retry, and none when refused |
| BurstBound.ProbesAreSpaced | src/llmops_gateway/providers/base.py:139-151 | a request let through a tripped breaker starts at least one cooldown after the failure before it |
| BurstBound.CallsToDeadUpstream | src/llmops_gateway/providers/base.py:139-248 | calls made by time t to a dead upstream: threshold + retries, plus one burst of retries + 1 per whole cooldown elapsed |
| BurstBound.FirstRefusalComesInTime | src/llmops_gateway/providers/base.py:139-248 | at most threshold + retries calls happen before the first refusal unless some request arrives a cooldown or more after the failure that tripped the breaker; if and only if, when every failure is worth retrying |
| BurstBound.CompletionsRetryAlike | src/llmops_gateway/providers/base.py:187-248 | a completion retries as a stream that yields nothing, so the bounds cover both loops |
| BurstBound.CrashesAreNeverCounted | src/llmops_gateway/providers/base.py:193-214 | calls that end in anything but a provider error never reach the breaker: n requests make n calls at any threshold |
| BurstBound.SpacedRequestsAreNeverRefused | src/llmops_gateway/providers/base.py:139-151 | a concrete sequence of requests spaced wider than the cooldown that is never refused and exceeds threshold + retries |
| Registry.IdentifierRoundTrips | src/llmops_gateway/domain/value_objects/model_identifier.py:15-23 | parsing a printed identifier gives it back if and only if the provider has no colon and the model is not empty |
| Registry.ParseIsExact | src/llmops_gateway/domain/value_objects/model_identifier.py:18-23 | a text parses to an identifier if and only if it is that identifier printed, with a colon-free provider and a non-empty model |
| Registry.EquivalentIff | src/llmops_gateway/providers/registry.py:54-72 | a target holds an equivalent if and only if the map has, under the native provider's printed identifier, that target and equivalent printed; planning fails exactly on an entry there that is no identifier |
| Registry.OneEquivalentTarget | src/llmops_gateway/providers/registry.py:54-72 | at most one provider holds the configured equivalent of a model |
| Registry.ConfiguredEquivalentIsFound | src/llmops_gateway/providers/registry.py:54-72 | a configured equivalent is found under its target's name and no other |
| Routing.PlanIsComplete | src/llmops_gateway/services/routing_service.py:55-78 | without an override no provider appears twice, one appears if and only if it is native or in the chain and serves the model or holds its equivalent, and planning fails exactly on a malformed mapping |
| Routing.WhoIsAsked | src/llmops_gateway/services/routing_service.py:55-78 | without an override, or with an empty one, a registered provider is asked if and only if it is native or in the chain, and serves the model or has an equivalent configured; it fails only on a malformed entry |
| Routing.PinnedIsAskedAlone | src/llmops_gateway/services/routing_service.py:56-57 | a pinned provider is the whole plan, for the requested model; an unregistered one is an error |
| Routing.PlanIsSound | src/llmops_gateway/services/routing_service.py:67-78 | each attempt serves the requested model, or is the one provider holding its equivalent |
| Routing.NativeProviderComesFirst | src/llmops_gateway/services/routing_service.py:59-65 | the native provider is asked first, for the model itself |
| Routing.RoutingService.ResolveAttempts | src/llmops_gateway/services/routing_service.py:55-78 | the list-building loops produce exactly the plan |
| Routing.RoutingService.Complete | src/llmops_gateway/services/routing_service.py:84-99 | the first answer in plan order that is no provider error, or every provider tried reported once in order; the breakers of the providers tried record exactly the calls made, and no other breaker moves |
| Routing.RoutingService.Stream | src/llmops_gateway/services/routing_service.py:101-139 | for all histories and scripts, everything observed comes from the last call of the last attempt tried, announced once right before its first chunk; all other calls produced nothing; breakers record exactly the calls made |
| Routing.RoutingService.CompletionsAreTold | src/llmops_gateway/services/routing_service.py:80-99 | the result is a response if and only if the last call of the last provider tried answered, and then that very response; a crash is passed on; otherwise every planned provider was refused or failed in its last call and is reported with that error; no provider is left for another reason |
| Routing.RoutingService.StreamsAreTold | src/llmops_gateway/services/routing_service.py:113-139 | a stream ends normally if and only if its last call did, raises that call's error as itself if it had produced a chunk, passes a crash on, and otherwise reports every planned provider's own error |
| Routing.RoutingService.StreamsShowTheProviders | src/llmops_gateway/services/routing_service.py:116-127 | what is observed is nothing, or the serving attempt exactly once, and then the chunks of its last call one by one |
| Routing.ReportNamesEveryProvider | src/llmops_gateway/services/routing_service.py:36-47 | the exhausted report names each planned provider once, in plan order |
| Routing.StreamsNeverMix | src/llmops_gateway/services/routing_service.py:113-139 | through retries and fallback alike: all calls of earlier attempts and all but the last call of the settling attempt yield nothing, the trace is the callback with that attempt followed by that call's chunks, or empty; nothing is observed if no attempt settles |
| Routing.OnlyLastCallSpeaks | src/llmops_gateway/providers/base.py:216-248 | of the calls one provider makes for a stream only the last can yield chunks, and these are what it delivers |
| ChatRequest.NormalFormKeepsWords | src/llmops_gateway/caching/hashing.py:12-15 | splitting a normalized prompt gives back the original words |
| ChatRequest.NormalizeIsIdempotent | src/llmops_gateway/caching/hashing.py:12-15 | normalizing twice is normalizing once |
| ChatRequest.NormalFormsAgree | src/llmops_gateway/caching/hashing.py:12-15 | two prompts normalize equally if and only if their word sequences are equal |
| ChatRequest.PromptsAgree | src/llmops_gateway/domain/entities/chat_request.py:46-48 | two requests share a normalized prompt if and only if the words of their messages, run together, agree |
| ChatRequest.MessageWordsAgree | src/llmops_gateway/domain/entities/chat_request.py:46-48 | two single messages are keyed alike if and only if their roles are equal and the words after the role are |
| ChatRequest.TwoMessagesCanLookLikeOne | src/llmops_gateway/domain/entities/chat_request.py:46-48 | a message that quotes a second one is keyed like two messages |
| ChatRequest.FingerprintDecodes | src/llmops_gateway/caching/hashing.py:18-24 | splitting at the last six bars recovers prompt and parameters if and only if model, adapter and printed stop list hold no bar |
| Repr.ListTextsAreSuffixFree | src/llmops_gateway/domain/entities/chat_request.py:50-55 | no printed stop list, None included, ends in the text of another one, whatever quotes, backslashes and bars its elements hold |
| ChatRequest.StopsAgree | src/llmops_gateway/domain/entities/chat_request.py:50-55 | so the stop list can be read off the end of a fingerprint |
| ChatRequest.ParamsFromTheRight | src/llmops_gateway/caching/hashing.py:18-24 | without bars in model and adapter, whatever precedes them, texts that end in two parameter texts are equal only if what precedes and all parameters are |
| ChatRequest.FingerprintsAgree | src/llmops_gateway/domain/entities/chat_request.py:50-55 | for requests without bars in model and adapter, whatever prompts and stop lists hold, equal fingerprints mean exactly equal words and equal model, adapter, temperature, max_tokens, top_p and stop |
| ChatRequest.MaxTokensTextIsFaithful | src/llmops_gateway/domain/entities/chat_request.py:50-55 | the printed max_tokens stands for its value, None included |
| ChatRequest.ParamTextsAgree | src/llmops_gateway/caching/hashing.py:27-32 | likewise, equal parameter texts mean equal parameters |
| ChatRequest.BarsCollide | src/llmops_gateway/domain/entities/chat_request.py:50-55 | every request with a bar in its model or adapter shares its fingerprint with another of the same prompt and different parameters |
| CacheKeys.EntryKeysSplit | src/llmops_gateway/caching/redis_exact_cache.py:72-74 | two entry keys, and two lock keys, are equal if and only if tenant and digest are, whatever tenants are called |
| CacheKeys.EntryKeysAgree | src/llmops_gateway/caching/hashing.py:18-24 | without collisions, if and only if tenant and fingerprint are |
| CacheKeys.FilterHashIsShort | src/llmops_gateway/caching/hashing.py:27-32 | the semantic filter compares the first 16 characters of the digest |
| CacheKeys.KeySpacesAreDisjoint | src/llmops_gateway/services/cache_service.py:132-134 | cache entries, locks, buckets, prices and cached API keys never share a Redis key |
| GatewayProtocol.OthersDoNotInterfere | src/llmops_gateway/services/gateway_service.py:103-187 | no task's step changes another request's state, and time does not go back |
| GatewayProtocol.WriteBacks | src/llmops_gateway/services/gateway_service.py:173-178 | a priced answer is scheduled for both layers unless its request bypassed them, a semantic hit for the exact layer, and nothing else ever is |
| GatewayProtocol.BuiltAnswer | src/llmops_gateway/services/gateway_service.py:249-271 | what is cached is the provider's answer at its own cost, a streamed one under the requested model |
| Provenance.GetIsBacked | src/llmops_gateway/caching/redis_exact_cache.py:42-60 | what an exact GET returns answers the reader's own request |
| Provenance.PointIsBacked | src/llmops_gateway/caching/qdrant_semantic_cache.py:177-191 | a point passing tenant, model and parameter-hash filter has the reader's parameters and may be written back under its key |
| Provenance.StepKeepsInv | src/llmops_gateway/services/cache_service.py:57-86 | every action, including write-backs landing late, twice or never and entries vanishing, keeps the provenance invariant |
| Provenance.HitIsServed | src/llmops_gateway/services/gateway_service.py:121-154 | in every run a hit, exact, semantic or coalesced, costs 0, was not asked to bypass the cache, and is an answer backed by a completion |
| Provenance.TenantsAreIsolated | src/llmops_gateway/services/cache_service.py:57-86 | in every run a hit is an answer a provider gave this very tenant, even if digests collide or fields hold separators |
| Provenance.HitsAreEarned | src/llmops_gateway/services/cache_service.py:57-73 | without collisions, and without bars in models and adapters, it was given to a request with the same parameters and the same words, or a prompt one similarity search away, however often answers were written back |
| Accounts.CompletionsAreAccounted | src/llmops_gateway/services/gateway_service.py:159-187 | in every run the successful upstream calls are as many as the priced completions plus the answers still unpriced; each request succeeds at most once, and each priced completion says what its own upstream call said |
| Accounts.CostIsConserved | src/llmops_gateway/services/gateway_service.py:168-187 | in every run, collisions or not, once no answer is pending the replies are charged exactly what the successful upstream calls were priced at, one each, bypassed streams excepted, while cached entries keep their original cost |
| Provenance.CompletionsAreChargedOnce | src/llmops_gateway/services/gateway_service.py:431-455 | every priced completion belongs to exactly one finished request that was not a hit |
| Provenance.BarsServeAnotherModel | src/llmops_gateway/caching/hashing.py:18-24 | for every request, streamed or not, with a bar in its model or adapter that does not bypass the cache, a run serves its answer as an exact hit to a request with other parameters |
| Coalescing.HoldersAreBounded | src/llmops_gateway/services/cache_service.py:88-115 | in every run the requests between win and release of one lock are at most one more than its faults (holds outliving the time to live, acquisitions that failed open) |
| Coalescing.WinnersExclude | src/llmops_gateway/services/cache_service.py:88-115 | without faults at most one request is between win and release |
| Coalescing.StrayStep | src/llmops_gateway/services/cache_service.py:100-115 | holders whose own lock is gone increase by at most the step's faults, although a release may delete another's lock |
| Coalescing.SlowWinnersPileUp | src/llmops_gateway/services/cache_service.py:100-108 | for every n a run with n faults and n + 1 holders: the bound is tight |
| Coalescing.LateReleaseFreesAnothersLock | src/llmops_gateway/services/cache_service.py:110-115 | one late release deletes another's fresh lock and lets a third request overlap |
| Coalescing.LockDiscipline | src/llmops_gateway/services/gateway_service.py:133-166 | a request starts holding only by acquiring and stops only by its own release, after success and failure alike, and only holders release |
| Coalescing.LosersPollBoundedly | src/llmops_gateway/services/cache_service.py:117-130 | a loser makes at most wait / poll polls, rounded up |
| CacheService.CacheService.Lookup | src/llmops_gateway/services/cache_service.py:57-73 | bypass touches nothing; otherwise an exact hit if and only if Redis answers and holds the key once the others' steps of that await are done, with that entry's response; failing that a semantic hit if and only if the point the search offers is stored and has the tenant, the model, the parameter hash and a similar prompt; a hit is stamped as the reply, a miss goes on to the lock or the stream |
| CacheService.OthersMayDoAnything | src/llmops_gateway/services/cache_service.py:57-130 | at each await any sequence of steps the rest of the gateway can take is taken as it stands |
| CacheService.CacheService.AcquireCoalescingLock | src/llmops_gateway/services/cache_service.py:88-108 | won without a lock if and only if Redis fails or refuses the time to live; otherwise won if and only if nobody holds the key, which is then held with its exact expiry; the loser waits the configured time |
| CacheService.CacheService.ReleaseCoalescingLock | src/llmops_gateway/services/cache_service.py:110-115 | the key, whoever holds it, and no other is gone when Redis answers; nothing changes when it does not; the request goes on either way |
| CacheService.CacheService.WaitForCoalescedResult | src/llmops_gateway/services/cache_service.py:117-130 | returns the answer the first poll that gets through finds under the key, and none only when no poll found any and the wait budget is spent |
| CacheService.CacheService.Backfill | src/llmops_gateway/services/cache_service.py:75-86 | each layer is written or not on its own, in either order, with anything happening in between |
| GatewayService.GatewayService.CallUpstream | src/llmops_gateway/services/gateway_service.py:159-166 | after the try/finally no lock is held any more, whether the call succeeded or raised |
| GatewayService.GatewayService.HandleChatCompletion | src/llmops_gateway/services/gateway_service.py:103-187 | the handler's steps, interleaved with anyone's, are a run of the machine; an answer that is in the exact layer when it is read is the reply; a hit asks neither provider nor price and is backed by a completion for this tenant; otherwise the result is the router's own answer at a justified price for its provider and model, scheduled for both layers unless bypassed, or the router's error; every reply carries its own request's trace and adapter |
| GatewayService.GatewayService.HandleChatCompletionStream | src/llmops_gateway/services/gateway_service.py:189-287 | a hit is one chunk and asks neither provider nor price; otherwise exactly the routed chunks are sent, and the closing metadata describes them: their text, the provider announced and its token count, or "unknown" and none if nobody spoke, and a justified price under that provider and the requested model; it is scheduled for both layers; none after a bypassed or failed stream |
| GatewayService.ShownBy | src/llmops_gateway/services/gateway_service.py:72-83 | the announced attempt and the text can be told from what a stream shows |
| StreamCost.PricedAsServedIff | src/llmops_gateway/services/gateway_service.py:243-259 | the price looked up for a stream is that of what served it if and only if the provider was pinned, serves the requested model, or stands in for it under the same name |
| StreamCost.FreeIff | src/llmops_gateway/services/cost_service.py:41-49 | a model costs nothing at any usage if and only if no price row covers it or its price is zero |
| StreamCost.DefaultFallbackStreamIsFree | src/llmops_gateway/config/settings.py:84-103 | with the shipped chain, map and prices, a gpt-4o stream whose native provider fails before its first chunk is served by Claude and priced at 0, although the model that served it is not free |
| AdapterRoutes.CanaryShareIsExact | src/llmops_gateway/persistence/repositories/adapter_route_repository.py:57-68 | at percentage p exactly 42949672 p + min(p, 96) of the 2^32 hash values go to Staging |
| AdapterRoutes.CanaryIsMonotone | src/llmops_gateway/persistence/repositories/adapter_route_repository.py:57-68 | raising the percentage never moves a key from Staging to Production |
| AdapterRoutes.ChooseByTable | src/llmops_gateway/persistence/repositories/adapter_route_repository.py:38-68 | the row chosen, read off the table: an enabled row of the preferred stage or none; else Staging below its percentage, then Production, then Staging |
| AdapterRoutes.RoutedRequest | src/llmops_gateway/services/gateway_service.py:391-429 | a found row replaces model, adapter and stage and records the alias, and nothing else; no row, a failed lookup or an already routed request changes nothing |
| AdapterRoutes.AdapterRouteRepository.ResolveWithCanary | src/llmops_gateway/persistence/repositories/adapter_route_repository.py:38-68 | the row queries choose what the table, seen as a map, prescribes |
| AdapterRoutes.AdapterRouteRepository.Upsert | src/llmops_gateway/persistence/repositories/adapter_route_repository.py:79-113 | writes one row, clamped, and no other; keys stay unique and percentages in range |
| AdapterRoutes.AdapterRouteRepository.Disable | src/llmops_gateway/persistence/repositories/adapter_route_repository.py:134-148 | switches one row off and no other, or reports there is none |
| AdapterRoutes.RowsAreIndependent | src/llmops_gateway/persistence/repositories/adapter_route_repository.py:79-148 | after any run of upserts and disables a row is what the operations on its own (tenant, alias, stage) made it, within 0..100 |
| AdapterRoutes.RoutingIsAppliedOnceIff | src/llmops_gateway/services/gateway_service.py:391-429 | a request that found a row passes every further routing unchanged, whatever the table, the hash and the database's availability by then, if and only if the row names an adapter and the request named a model |
| Pricing.ActivePrice | src/llmops_gateway/persistence/repositories/pricing_repository.py:20-41 | the covering row with the greatest effective_from, and none only when no row covers |
| Pricing.HandoverIsSeamless | src/llmops_gateway/persistence/repositories/pricing_repository.py:20-41 | when one version ends where the next begins, exactly one of them is the price at every second, whatever the order of rows |
| Pricing.LaterPricesDoNotMatterYet | src/llmops_gateway/persistence/repositories/pricing_repository.py:63-85 | a price scheduled for later or for another model does not change today's |
| Pricing.CacheTextReadsBack | src/llmops_gateway/services/cost_service.py:85-94 | for any way of printing numbers that reads back, holds no comma and does not begin with N, the cached text of a price or of "no price" reads back, and the two are never confused |
| Pricing.CostService.GetPricing | src/llmops_gateway/services/cost_service.py:51-82 | the price used is what a table read returned at most a time to live earlier, over any run of inserts, lookups and outages; a fresh readable entry spares the read, and any other lookup reads the table as it is now and caches what it found, "no price" included |
| Pricing.CostService.CalculateCostUsd | src/llmops_gateway/services/cost_service.py:41-49 | in billionths of a dollar, input tokens times input price plus output tokens times output price, at a price read at most a time to live earlier; 0 without one |
| Pricing.CostIsLinear | src/llmops_gateway/services/cost_service.py:46-49 | 1000 input tokens cost the input price and 1000 output tokens the output price; usages add up and scale; no price is free |
| Pricing.SameTextSameModel | src/llmops_gateway/domain/value_objects/model_identifier.py:15-16 | a pricing key stands for one model when provider names hold no colon |

## Left out

- HTTP adapters, JSON, tiktoken, pydantic validation: an upstream is a script of answers, chunks and errors, token counting is a function parameter, and a corrupt cache entry is a failed read.
- Embeddings, vector scores and collection bootstrap: the semantic layer is a set of points, a search answers with any point passing filter and threshold or with none, and "similar" is a fixed relation on normalized prompts.
- Tracing, metrics, span persistence and their background jobs: they copy fields and never feed back into a reply.
- API-key authentication, scopes, admin endpoints, settings, migrations: short lookups and plumbing.
- Client disconnects and task cancellation: a handler always runs to its end.
- Float rounding, and the distribution of jitter: jitter is any number in its interval.
- ChatRequest.FingerprintDecodes: the two floats of a request are kept as the text Python prints for them, of which only "no bar in a float" is used.
- Repr.ListTextsAreSuffixFree: characters beyond Latin-1 are taken to print as themselves, where Python escapes the unprintable ones among them.
- Pricing.CacheTextReadsBack: prices are whole millionths, as the Numeric(12, 6) columns hold them; how they print as floats is any faithful printing.
- BucketProtocol.Linearizable: all calls of a run share one limit per tenant, and HSET with PEXPIRE of a refusal counts as one command, also when the second fails.
- RateLimiter.RateLimitService.ConsumeToken: one command fails per call, since the first error ends it; a key left without its expiry by a failed PEXPIRE is not told from one with.
- BurstBound.CallsToDeadUpstream: requests to the provider come one at a time, because concurrent requests are all admitted while the breaker is half-open; calls that end in something other than a provider error are outside the bound, see BurstBound.CrashesAreNeverCounted.
- BurstBound.FirstRefusalComesInTime: with failures that are not worth retrying only one direction holds, since such requests make fewer calls than the bound allows for.
- Provider.LLMProvider.Complete: the awaits of one request are not interleaved with other requests to the same provider; the breaker may have any history when it starts.
- Routing.RoutingService.Complete: likewise for the breakers of the providers tried.
- Provenance.HitsAreEarned: does not say the answer is right for the prompt beyond the similarity relation.
- Accounts.CostIsConserved: bypassed streams are outside the account, because the source returns before pricing them; a cancelled handler stays pending.
- Coalescing.WinnersExclude: no exclusion is claimed for streams, which take no lock, nor once a request has waited out its budget, since it then calls the provider without one.
- GatewayService.GatewayService.HandleChatCompletion: the adapter lookup reads the table in one step before the request's clock starts, and while the router or the price table is asked no other request moves a breaker or a price.
- GatewayService.GatewayService.HandleChatCompletionStream: the routed stream is computed before its chunks are sent one by one, as nothing in it depends on when the client reads them.
- Pricing.CostService.GetPricing: a table load and the cache write that follows it are one step.
- `fallback_chain` of the registry and `list_*` queries: straightforward filters not on the modelled paths.
