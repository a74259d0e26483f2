/** Where cached answers come from, and who pays for them, over every run. */
module Provenance {
  import opened Wrappers
  import opened ChatRequest
  import opened ChatResponse
  import opened CacheKeys
  import opened GatewayProtocol

  /** Hashes do not collide on the requests in use, and none of these holds a bar in
      its model or adapter. */
  ghost predicate Good(w: World) {
    && CollisionFree(w.sha, w.requests)
    && forall r :: r in w.requests ==> BarFree(r)
  }

  /** The prompts have the same words, or are one similarity search apart. */
  predicate Close(w: World, asked: ChatRequest, answered: ChatRequest) {
    Normal(asked) == Normal(answered) || w.similar(Normal(asked), Normal(answered))
  }

  /** `m` answers `request` for `tenant`: it was made for that tenant by a request that
      did not bypass the cache and, in a good world, had the same parameters and a
      close prompt. */
  ghost predicate Answers(w: World, m: Made, tenant: string, request: ChatRequest, answer: Answer) {
    && m.tenant == tenant
    && m.request in w.requests && !m.request.cacheBypass
    && AnswerOf(m.response) == answer
    && (Good(w) ==> SameParams(m.request, request) && Close(w, request, m.request))
  }

  ghost predicate Served(w: World, made: seq<Made>, tenant: string, request: ChatRequest, answer: Answer) {
    exists m :: m in made && Answers(w, m, tenant, request, answer)
  }

  /** A write-back or entry of the exact layer: still carries the cost of its making. */
  ghost predicate Backed(w: World, made: seq<Made>, e: Stored) {
    && e.request in w.requests
    && exists m ::
         && m in made && Answers(w, m, e.tenant, e.request, AnswerOf(e.response))
         && m.response.costUsd == e.response.costUsd
  }

  /** A write-back or point of the semantic layer: stored under the very request it was made for. */
  ghost predicate Original(w: World, made: seq<Made>, e: Stored) {
    && e.request in w.requests && !e.request.cacheBypass
    && exists m :: m in made && m.tenant == e.tenant && m.request == e.request && m.response == e.response
  }

  ghost predicate OwnMade(made: seq<Made>, id: nat, h: Handler, reply: ChatResponse) {
    exists m :: m in made && m.id == id && m.tenant == h.tenant && m.request == h.request
             && AnswerOf(m.response) == AnswerOf(reply) && m.response.costUsd == reply.costUsd
  }

  predicate Early(h: Handler) {
    h.phase.ReadingExact? || h.phase.ReadingSemantic? || h.phase.Acquiring? || h.phase.Waiting? || h.phase.Napping?
  }

  ghost predicate HandlerOk(w: World, made: seq<Made>, id: nat, h: Handler) {
    && h.request in w.requests
    && (Early(h) ==> !h.request.cacheBypass)
    && (if h.phase.Returned? then
          var reply := h.phase.response;
          && reply.cacheStatus == h.status
          && (if h.status.IsHit()
              then !h.request.cacheBypass && reply.costUsd == 0.0
                && Served(w, made, h.tenant, h.request, AnswerOf(reply))
              else OwnMade(made, id, h, reply))
        else h.status == if h.request.cacheBypass then Bypassed else Miss)
  }

  ghost predicate CachesOk(w: World, s: State) {
    && (forall e :: e in s.toExact ==> Backed(w, s.made, e))
    && (forall e :: e in s.toSemantic ==> Original(w, s.made, e))
    && (forall e :: e in s.points ==> Original(w, s.made, e))
    && (forall k :: k in s.exact ==>
          Backed(w, s.made, s.exact[k]) && k == EntryKey(w.sha, s.exact[k].request, s.exact[k].tenant))
  }

  ghost predicate HandlersOk(w: World, s: State) {
    forall id :: id in s.handlers ==> HandlerOk(w, s.made, id, s.handlers[id])
  }

  function Spent(made: seq<Made>): real {
    if made == [] then 0.0 else Spent(made[..|made| - 1]) + made[|made| - 1].response.costUsd
  }

  function Charged(replies: seq<ChatResponse>): real {
    if replies == [] then 0.0 else Charged(replies[..|replies| - 1]) + replies[|replies| - 1].costUsd
  }

  ghost predicate Inv(w: World, s: State) {
    CachesOk(w, s) && HandlersOk(w, s) && Charged(s.replies) == Spent(s.made)
  }

  // ---------------------------------------------------------------- lookups

  /** Equal entry keys: same tenant and, in a good world, same parameters and words. */
  lemma SameEntry(w: World, a: ChatRequest, t: string, b: ChatRequest, u: string)
    requires IsDigest(w.sha) && a in w.requests && b in w.requests && EntryKey(w.sha, a, t) == EntryKey(w.sha, b, u)
    ensures t == u
    ensures Good(w) ==> SameParams(a, b) && Normal(a) == Normal(b)
  {
    hide BarFree, WordsOfMessages, NormalizePrompt, Fingerprint, EntryKey, LockKey, IsDigest, ParamsHash,
         ChatRequest.CanonicalPrompt;
    EntryKeysSplit(w.sha, a, t, b, u);
    if Good(w) {
      assert CollisionFree(w.sha, {a, b});
      EntryKeysAgree(w.sha, a, t, b, u);
      FingerprintsAgree(a, b);
      PromptsAgree(a, b);
    }
  }

  /** What an exact GET returns is an answer to the reader's request. */
  lemma GetIsBacked(w: World, s: State, h: Handler)
    requires IsDigest(w.sha) && CachesOk(w, s) && h.request in w.requests && Get(w, s, h, true).Some?
    ensures Served(w, s.made, h.tenant, h.request, AnswerOf(Get(w, s, h, true).value))
  {
    hide Good, IsDigest, EntryKey, Normal;
    var e := s.exact[EntryKey(w.sha, h.request, h.tenant)];
    SameEntry(w, e.request, e.tenant, h.request, h.tenant);
    var m :| m in s.made && Answers(w, m, e.tenant, e.request, AnswerOf(e.response))
      && m.response.costUsd == e.response.costUsd;
    assert Answers(w, m, h.tenant, h.request, AnswerOf(e.response));
  }

  /** The filter's hash stands for the parameters. */
  lemma SameFilter(w: World, a: ChatRequest, b: ChatRequest)
    requires Good(w) && a in w.requests && b in w.requests && ParamsHash(w.sha, a) == ParamsHash(w.sha, b)
    ensures SameParams(a, b)
  {
    hide ParamsHash, BarFree, SameParams;
    assert a.ParamsFingerprint() == b.ParamsFingerprint();
    ParamTextsAgree(a, b);
  }

  /** So is a point that passes the filter, and it may be written back as one. */
  lemma PointIsBacked(w: World, made: seq<Made>, tenant: string, r: ChatRequest, p: Stored)
    requires Original(w, made, p) && r in w.requests && Matches(w, tenant, r, p)
    ensures !r.cacheBypass ==> Backed(w, made, Stored(tenant, r, p.response.(cacheStatus := SemanticHit)))
    ensures Served(w, made, tenant, r, AnswerOf(p.response))
  {
    hide Good, IsDigest, Normal, ParamsHash;
    if Good(w) {
      SameFilter(w, p.request, r);
    }
    var m :| m in made && m.tenant == p.tenant && m.request == p.request && m.response == p.response;
    assert Answers(w, m, tenant, r, AnswerOf(p.response));
  }

  // -------------------------------------------------------------- invariant

  /** More completions never unback an entry or a reply. */
  lemma MadeGrows(w: World, s: State, m: Made)
    requires CachesOk(w, s) && HandlersOk(w, s)
    ensures CachesOk(w, s.(made := s.made + [m])) && HandlersOk(w, s.(made := s.made + [m]))
  {
    hide Answers, EntryKey;
    var made := s.made + [m];
    forall e | Backed(w, s.made, e)
      ensures Backed(w, made, e)
    {
    }
    forall e | Original(w, s.made, e)
      ensures Original(w, made, e)
    {
    }
    forall id | id in s.handlers
      ensures HandlerOk(w, made, id, s.handlers[id])
    {
      assert HandlerOk(w, s.made, id, s.handlers[id]);
    }
  }

  /** Only the acting request changes, and neither caches nor accounts do. */
  lemma HandlerStep(w: World, s: State, id: nat, h: Handler)
    requires Inv(w, s) && HandlerOk(w, s.made, id, h)
    ensures Inv(w, s.(handlers := s.handlers[id := h]))
  {
    hide HandlerOk, Backed, Original, EntryKey;
  }

  lemma FinishKeepsInv(w: World, s: State, id: nat, response: ChatResponse, status: CacheStatus, owed: real)
    requires CachesOk(w, s) && HandlersOk(w, s) && id in s.handlers && Charged(s.replies) + owed == Spent(s.made)
    requires owed == if status.IsHit() then 0.0 else response.costUsd
    requires var h := s.handlers[id];
             if status.IsHit() then !h.request.cacheBypass && Served(w, s.made, h.tenant, h.request, AnswerOf(response))
             else OwnMade(s.made, id, h, response)
    ensures Inv(w, Finish(s, id, response, status))
  {
    hide Served, Backed, Original, EntryKey;
    var s' := Finish(s, id, response, status);
    assert HandlerOk(w, s.made, id, s.handlers[id]);
    assert HandlerOk(w, s.made, id, s'.handlers[id]);
    assert s'.replies[..|s'.replies| - 1] == s.replies;
  }

  lemma HitKeepsInv(w: World, s: State, id: nat, reachable: bool)
    requires IsDigest(w.sha) && Inv(w, s) && id in s.handlers && Early(s.handlers[id])
    requires Get(w, s, s.handlers[id], reachable).Some?
    ensures Inv(w, Finish(s, id, Get(w, s, s.handlers[id], reachable).value, ExactHit))
  {
    hide Good, IsDigest, Served, CachesOk, EntryKey;
    assert HandlerOk(w, s.made, id, s.handlers[id]);
    GetIsBacked(w, s, s.handlers[id]);
    FinishKeepsInv(w, s, id, Get(w, s, s.handlers[id], true).value, ExactHit, 0.0);
  }

  lemma SemanticHitKeepsInv(w: World, c: Config, s: State, id: nat, p: Stored)
    requires IsDigest(w.sha) && Inv(w, s) && Enabled(w, s, ReadSemantic(id, Some(p)))
    ensures Inv(w, Apply(w, c, s, ReadSemantic(id, Some(p))))
  {
    hide Good, IsDigest, Served, Backed, Original, Matches, EntryKey;
    var h := s.handlers[id];
    assert HandlerOk(w, s.made, id, h);
    PointIsBacked(w, s.made, h.tenant, h.request, p);
    var write := Stored(h.tenant, h.request, p.response.(cacheStatus := SemanticHit));
    var s' := s.(toExact := s.toExact + {write});
    assert CachesOk(w, s') && HandlersOk(w, s');
    FinishKeepsInv(w, s', id, write.response, SemanticHit, 0.0);
  }

  /** A completion backs the write-backs of its own response. */
  lemma CompletionBacks(w: World, made: seq<Made>, id: nat, h: Handler, response: ChatResponse)
    requires h.request in w.requests
    ensures var write, made' := Stored(h.tenant, h.request, response), made + [Made(id, h.tenant, h.request, response)];
            OwnMade(made', id, h, response)
              && (!h.request.cacheBypass ==> Backed(w, made', write) && Original(w, made', write))
    ensures Spent(made + [Made(id, h.tenant, h.request, response)]) == Spent(made) + response.costUsd
  {
    hide Normal;
    var m := Made(id, h.tenant, h.request, response);
    assert m in made + [m] && (made + [m])[..|made + [m]| - 1] == made;
    assert !h.request.cacheBypass ==> Answers(w, m, h.tenant, h.request, AnswerOf(response));
  }

  lemma ScheduleKeepsCaches(w: World, s: State, write: Stored)
    requires CachesOk(w, s) && HandlersOk(w, s) && Backed(w, s.made, write) && Original(w, s.made, write)
    ensures var s' := s.(toExact := s.toExact + {write}, toSemantic := s.toSemantic + {write});
            CachesOk(w, s') && HandlersOk(w, s')
  {
    hide Backed, Original, EntryKey, HandlerOk;
  }

  lemma PriceKeepsInv(w: World, c: Config, s: State, id: nat, costUsd: real)
    requires IsDigest(w.sha) && Inv(w, s) && Enabled(w, s, Price(id, costUsd))
    ensures Inv(w, Apply(w, c, s, Price(id, costUsd)))
  {
    hide Good, IsDigest, Backed, Original, OwnMade, CachesOk, Spent, Charged, Built;
    var h := s.handlers[id];
    assert HandlerOk(w, s.made, id, h);
    var response := Built(h, h.phase.raw, costUsd, s.now);
    var m, write := Made(id, h.tenant, h.request, response), Stored(h.tenant, h.request, response);
    MadeGrows(w, s, m);
    CompletionBacks(w, s.made, id, h, response);
    var s' := s.(made := s.made + [m]);
    if h.status.Bypassed? {
      FinishKeepsInv(w, s', id, response, h.status, response.costUsd);
    } else {
      ScheduleKeepsCaches(w, s', write);
      FinishKeepsInv(w, s'.(toExact := s'.toExact + {write}, toSemantic := s'.toSemantic + {write}),
                     id, response, h.status, response.costUsd);
    }
  }

  /** Write-backs landing, entries vanishing and time passing. */
  lemma StoresKeepInv(w: World, c: Config, s: State, a: Action)
    requires Inv(w, s) && Enabled(w, s, a) && a.Actor().None?
    ensures Inv(w, Apply(w, c, s, a))
  {
    hide Backed, Original, HandlerOk, EntryKey;
    assert Apply(w, c, s, a).handlers == s.handlers;
  }

  /** Steps that do not answer the request. */
  lemma MoveKeepsInv(w: World, s: State, locks: map<string, Lock>, id: nat, h: Handler)
    requires Inv(w, s) && id in s.handlers && !h.phase.Returned? && !s.handlers[id].phase.Returned?
    requires h.request == s.handlers[id].request && h.status == s.handlers[id].status
    requires Early(h) ==> Early(s.handlers[id])
    ensures Inv(w, s.(locks := locks, handlers := s.handlers[id := h]))
  {
    hide Backed, Original, EntryKey, Served;
    assert HandlerOk(w, s.made, id, s.handlers[id]);
    HandlerStep(w, s, id, h);
  }

  lemma PollKeepsInv(w: World, c: Config, s: State, id: nat, reachable: bool)
    requires IsDigest(w.sha) && Inv(w, s) && Enabled(w, s, Poll(id, reachable))
    ensures Inv(w, Apply(w, c, s, Poll(id, reachable)))
  {
    hide Good, IsDigest, Inv;
    var h, s' := s.handlers[id], Apply(w, c, s, Poll(id, reachable));
    var s1 := s.(handlers := s.handlers[id := h.(polls := h.polls + 1)]);
    MoveKeepsInv(w, s, s.locks, id, s1.handlers[id]);
    if Get(w, s, h, reachable).Some? {
      HitKeepsInv(w, s1, id, reachable);
    } else {
      MoveKeepsInv(w, s1, s.locks, id, s'.handlers[id]);
      assert s' == s1.(locks := s.locks, handlers := s1.handlers[id := s'.handlers[id]]);
    }
  }

  lemma LookupKeepsInv(w: World, c: Config, s: State, a: Action)
    requires IsDigest(w.sha) && Inv(w, s) && Enabled(w, s, a) && (a.ReadExact? || a.ReadSemantic?)
    ensures Inv(w, Apply(w, c, s, a))
  {
    hide Good, IsDigest, Inv, Matches;
    var s' := Apply(w, c, s, a);
    if a.ReadExact? && Get(w, s, s.handlers[a.id], a.reachable).Some? {
      HitKeepsInv(w, s, a.id, a.reachable);
    } else if a.ReadSemantic? && a.found.Some? {
      SemanticHitKeepsInv(w, c, s, a.id, a.found.value);
    } else {
      MoveKeepsInv(w, s, s.locks, a.id, s'.handlers[a.id]);
    }
  }

  predicate IsQuiet(a: Action) {
    a.Acquire? || a.Nap? || a.GiveUp? || a.Succeed? || a.Fail? || a.Release?
  }

  lemma QuietStep(w: World, c: Config, s: State, a: Action)
    requires Enabled(w, s, a) && IsQuiet(a)
    ensures a.id in s.handlers && a.id in Apply(w, c, s, a).handlers
    ensures var s', h := Apply(w, c, s, a), s.handlers[a.id];
            && s' == s.(locks := s'.locks, handlers := s.handlers[a.id := s'.handlers[a.id]])
            && s'.handlers[a.id] == h.(phase := s'.handlers[a.id].phase)
            && !s'.handlers[a.id].phase.Returned? && !h.phase.Returned?
            && (Early(s'.handlers[a.id]) ==> Early(h))
  {
  }

  lemma StepKeepsInv(w: World, c: Config, s: State, a: Action)
    requires IsDigest(w.sha) && Inv(w, s) && Enabled(w, s, a)
    ensures Inv(w, Apply(w, c, s, a))
  {
    hide Good, IsDigest, Inv, Matches, Apply, Enabled;
    if IsQuiet(a) {
      QuietStep(w, c, s, a);
      MoveKeepsInv(w, s, Apply(w, c, s, a).locks, a.id, Apply(w, c, s, a).handlers[a.id]);
    } else if a.Begin? {
      BeginKeepsInv(w, c, s, a);
    } else if a.Poll? {
      PollKeepsInv(w, c, s, a.id, a.reachable);
    } else if a.Price? {
      PriceKeepsInv(w, c, s, a.id, a.costUsd);
    } else if a.Actor().None? {
      StoresKeepInv(w, c, s, a);
    } else {
      LookupKeepsInv(w, c, s, a);
    }
  }

  lemma BeginKeepsInv(w: World, c: Config, s: State, a: Action)
    requires Inv(w, s) && Enabled(w, s, a) && a.Begin?
    ensures Inv(w, Apply(w, c, s, a))
  {
    hide Inv;
    HandlerStep(w, s, a.id, Apply(w, c, s, a).handlers[a.id]);
  }

  lemma {:induction false} RunKeepsInv(w: World, c: Config, s: State, run: seq<Action>)
    requires IsDigest(w.sha) && Inv(w, s) && Runnable(w, c, s, run)
    ensures Inv(w, After(w, c, s, run))
    decreases |run|
  {
    hide Good, IsDigest, Inv, Enabled, Apply;
    if run != [] {
      StepKeepsInv(w, c, s, run[0]);
      RunKeepsInv(w, c, Apply(w, c, s, run[0]), run[1..]);
    }
  }

  // ---------------------------------------------------------------- results

  lemma StartIsSound(w: World, now: int)
    ensures Inv(w, Start(now))
  {
  }

  lemma HitIsServed(w: World, c: Config, now: int, run: seq<Action>, id: nat)
    requires IsDigest(w.sha) && Runnable(w, c, Start(now), run)
    requires var s := After(w, c, Start(now), run);
             id in s.handlers && s.handlers[id].phase.Returned? && s.handlers[id].status.IsHit()
    ensures var s := After(w, c, Start(now), run);
            var h := s.handlers[id];
            && h.phase.response.costUsd == 0.0 && !h.request.cacheBypass
            && Served(w, s.made, h.tenant, h.request, AnswerOf(h.phase.response))
  {
    hide Served;
    StartIsSound(w, now);
    RunKeepsInv(w, c, Start(now), run);
    assert HandlerOk(w, After(w, c, Start(now), run).made, id, After(w, c, Start(now), run).handlers[id]);
  }

  /** Tenants never share answers, even where digests collide or fields hold bars: a
      hit is always something a provider told this tenant. */
  lemma TenantsAreIsolated(w: World, c: Config, now: int, run: seq<Action>, id: nat)
    requires IsDigest(w.sha) && Runnable(w, c, Start(now), run)
    requires var s := After(w, c, Start(now), run);
             id in s.handlers && s.handlers[id].phase.Returned? && s.handlers[id].status.IsHit()
    ensures var s := After(w, c, Start(now), run);
            exists m :: m in s.made && m.tenant == s.handlers[id].tenant && !m.request.cacheBypass
                        && AnswerOf(m.response) == AnswerOf(s.handlers[id].phase.response)
  {
    hide Runnable, After;
    HitIsServed(w, c, now, run, id);
  }

  /** Whatever the interleaving, the write-backs and the losses: in a good world the
      answer was given to a request with the same parameters whose prompt has the same
      words or is one similarity search away. Answers written back from the semantic
      to the exact layer drift no further. */
  lemma HitsAreEarned(w: World, c: Config, now: int, run: seq<Action>, id: nat)
    requires Good(w) && Runnable(w, c, Start(now), run)
    requires var s := After(w, c, Start(now), run);
             id in s.handlers && s.handlers[id].phase.Returned? && s.handlers[id].status.IsHit()
    ensures var s := After(w, c, Start(now), run);
            var h := s.handlers[id];
            exists m :: m in s.made && m.tenant == h.tenant && SameParams(m.request, h.request)
                        && Close(w, h.request, m.request) && AnswerOf(m.response) == AnswerOf(h.phase.response)
  {
    hide Close, Runnable, After;
    HitIsServed(w, c, now, run, id);
  }

  /** Over any run, what the replies are charged is what the completions cost, although
      every entry of either cache layer still carries the full cost of its making. */
  lemma RepliesPayForCompletions(w: World, c: Config, now: int, run: seq<Action>)
    requires IsDigest(w.sha) && Runnable(w, c, Start(now), run)
    ensures var s := After(w, c, Start(now), run);
            && Charged(s.replies) == Spent(s.made)
            && (forall k :: k in s.exact ==> Backed(w, s.made, s.exact[k]))
            && (forall p :: p in s.points ==> Original(w, s.made, p))
  {
    StartIsSound(w, now);
    RunKeepsInv(w, c, Start(now), run);
  }

  /** A completion belongs to one request, which got it as its own reply. */
  ghost predicate MadeOnce(s: State) {
    && (forall m :: m in s.made ==>
        m.id in s.handlers && s.handlers[m.id].phase.Returned? && !s.handlers[m.id].status.IsHit())
    && (forall i, j :: 0 <= i < j < |s.made| ==> s.made[i].id != s.made[j].id)
  }

  lemma RepliesAreFinal(w: World, c: Config, s: State, a: Action, id: nat)
    requires Enabled(w, s, a) && id in s.handlers && s.handlers[id].phase.Returned?
    ensures id in Apply(w, c, s, a).handlers && Apply(w, c, s, a).handlers[id] == s.handlers[id]
  {
  }

  lemma OnlyPricingMakes(w: World, c: Config, s: State, a: Action)
    requires Enabled(w, s, a)
    ensures !a.Price? ==> Apply(w, c, s, a).made == s.made
    ensures a.Price? ==>
              var s' := Apply(w, c, s, a);
              && a.id in s.handlers && !s.handlers[a.id].phase.Returned?
              && |s'.made| == |s.made| + 1 && s'.made[..|s.made|] == s.made && s'.made[|s.made|].id == a.id
              && a.id in s'.handlers && s'.handlers[a.id].phase.Returned?
                 && s'.handlers[a.id].status == s.handlers[a.id].status
  {
  }

  lemma {:induction false} CompletionsAreChargedOnce(w: World, c: Config, s: State, run: seq<Action>)
    requires IsDigest(w.sha) && Inv(w, s) && MadeOnce(s) && Runnable(w, c, s, run)
    ensures MadeOnce(After(w, c, s, run))
    decreases |run|
  {
    hide Good, IsDigest, Inv, Enabled, Apply;
    if run != [] {
      var s' := Apply(w, c, s, run[0]);
      OnlyPricingMakes(w, c, s, run[0]);
      forall m | m in s'.made
        ensures m.id in s'.handlers && s'.handlers[m.id].phase.Returned? && !s'.handlers[m.id].status.IsHit()
      {
        if m in s.made {
          RepliesAreFinal(w, c, s, run[0], m.id);
        } else {
          StatusBeforeReply(w, s, run[0].id);
        }
      }
      StepKeepsInv(w, c, s, run[0]);
      CompletionsAreChargedOnce(w, c, s', run[1..]);
    }
  }

  lemma StatusBeforeReply(w: World, s: State, id: nat)
    requires Inv(w, s) && id in s.handlers && !s.handlers[id].phase.Returned?
    ensures !s.handlers[id].status.IsHit()
  {
    assert HandlerOk(w, s.made, id, s.handlers[id]);
  }

  // ------------------------------------------- bars in model names, concretely

  /** A request asked first, alone, misses and is answered upstream. One that takes
      the lock cannot reach Redis here, which changes nothing for the caches. */
  lemma FirstAnswerArrives(w: World, c: Config, r: ChatRequest, raw: ChatResponse) returns (run: seq<Action>)
    requires r in w.requests && !r.cacheBypass
    ensures Runnable(w, c, Start(0), run)
    ensures After(w, c, Start(0), run) == Start(0).(handlers := map[0 := Asked(r, Costing(raw))])
  {
    hide EntryKey, LockKey, Runnable, After;
    var s := Start(0);
    Nothing(w, c);
    run := Then(w, c, [], Begin(0, "t", r, ""));
    run := Then(w, c, run, ReadExact(0, true));
    run := Then(w, c, run, ReadSemantic(0, None));
    if r.stream {
      assert After(w, c, s, run) == s.(handlers := map[0 := Asked(r, Calling(NotWon))]);
      run := Then(w, c, run, Succeed(0, raw));
    } else {
      assert After(w, c, s, run) == s.(handlers := map[0 := Asked(r, Acquiring)]);
      run := AnswerUnlocked(w, c, r, raw, run);
    }
  }

  /** The only request there is, asked by tenant "t". */
  function Asked(r: ChatRequest, phase: Phase): Handler { Handler("t", r, "", 0, Miss, 0, phase) }

  lemma AnswerUnlocked(w: World, c: Config, r: ChatRequest, raw: ChatResponse, run: seq<Action>)
    returns (run': seq<Action>)
    requires !r.cacheBypass && !r.stream && Runnable(w, c, Start(0), run)
    requires After(w, c, Start(0), run) == Start(0).(handlers := map[0 := Asked(r, Acquiring)])
    ensures Runnable(w, c, Start(0), run')
    ensures After(w, c, Start(0), run') == Start(0).(handlers := map[0 := Asked(r, Costing(raw))])
  {
    hide EntryKey, LockKey, Runnable, After;
    var s := Start(0);
    run' := Then(w, c, run, Acquire(0, false));
    assert After(w, c, s, run') == s.(handlers := map[0 := Asked(r, Calling(FailedOpen))]);
    run' := Then(w, c, run', Succeed(0, raw));
    assert After(w, c, s, run') == s.(handlers := map[0 := Asked(r, Releasing(FailedOpen, Some(raw)))]);
    run' := Then(w, c, run', Release(0, false));
  }

  /** And its answer ends in the exact layer. */
  lemma FirstAnswerIsCached(w: World, c: Config, r: ChatRequest, raw: ChatResponse) returns (run: seq<Action>)
    requires r in w.requests && !r.cacheBypass
    ensures Runnable(w, c, Start(0), run)
    ensures var s := After(w, c, Start(0), run);
            && s.handlers.Keys == {0}
            && |s.made| == 1 && s.made[0].request == r
            && EntryKey(w.sha, r, "t") in s.exact
  {
    hide EntryKey, Built, Stamp, Runnable, After;
    run := FirstAnswerArrives(w, c, r, raw);
    run := Then(w, c, run, Price(0, 1.0));
    var reply := Built(Asked(r, Costing(raw)), raw, 1.0, 0);
    run := Then(w, c, run, LandExact(Stored("t", r, reply)));
  }

  lemma Nothing(w: World, c: Config)
    ensures Runnable(w, c, Start(0), []) && After(w, c, Start(0), []) == Start(0)
  {
  }

  lemma Then(w: World, c: Config, run: seq<Action>, a: Action) returns (run': seq<Action>)
    requires Runnable(w, c, Start(0), run) && Enabled(w, After(w, c, Start(0), run), a)
    ensures Runnable(w, c, Start(0), run')
    ensures After(w, c, Start(0), run') == Apply(w, c, After(w, c, Start(0), run), a)
  {
    Continue(w, c, Start(0), run, a);
    run' := run + [a];
  }

  /** For every request that does not bypass the cache and has a bar in its model or
      adapter there is another, of the same tenant and prompt but different parameters,
      that may be served the first one's answer, even though no digests collide. */
  lemma BarsServeAnotherModel(sha: Sha, similar: (string, string) -> bool, c: Config, r: ChatRequest, raw: ChatResponse)
    returns (other: ChatRequest, run: seq<Action>)
    requires '|' in r.model || '|' in r.Adapter()
    requires !r.cacheBypass
    ensures !SameParams(other, r) && other.messages == r.messages
    ensures var w := World(sha, {r, other}, similar);
            && Runnable(w, c, Start(0), run)
            && var s := After(w, c, Start(0), run);
               && 1 in s.handlers && s.handlers[1].tenant == "t" && s.handlers[1].request == other
               && s.handlers[1].phase.Returned? && s.handlers[1].status == ExactHit
               && |s.made| == 1 && s.made[0].request == r
  {
    other := BarsCollide(r);
    hide EntryKey, Fingerprint, SameParams;
    var w := World(sha, {r, other}, similar);
    SameFingerprintSameKey(sha, r, other);
    run := FirstAnswerIsCached(w, c, r, raw);
    run := Then(w, c, run, Begin(1, "t", other, ""));
    run := Then(w, c, run, ReadExact(1, true));
  }

  lemma SameFingerprintSameKey(sha: Sha, a: ChatRequest, b: ChatRequest)
    requires Fingerprint(a) == Fingerprint(b)
    ensures EntryKey(sha, a, "t") == EntryKey(sha, b, "t")
  {
  }
}
