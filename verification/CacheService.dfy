/** CacheService: the cache and lock operations of one request. At every await the rest
    of the gateway may take any of its steps; what the code does between its awaits is
    a run of the request machine. */
module CacheService {
  import opened Wrappers
  import opened ChatResponse
  import opened CacheKeys
  import opened GatewayProtocol
  import opened Provenance
  import Coalescing

  /** What one await meets: the steps others take meanwhile, whether the Redis command
      succeeds, and what the vector search would answer. */
  datatype Moment = Moment(others: seq<Action>, reachable: bool, found: Option<Stored>)

  // ------------------------------------------------------------- the others

  /** The others take those of their steps that are possible. */
  function Later(w: World, c: Config, s: State, actions: seq<Action>, id: nat): State
    decreases |actions|
  {
    if actions == [] then s
    else
      var possible := actions[0].Actor() != Some(id) && Enabled(w, s, actions[0]);
      Later(w, c, if possible then Apply(w, c, s, actions[0]) else s, actions[1..], id)
  }

  /** No sequence of steps the others could take is left out of account. */
  lemma {:induction false} OthersMayDoAnything(w: World, c: Config, s: State, actions: seq<Action>, id: nat)
    requires Runnable(w, c, s, actions) && forall a :: a in actions ==> a.Actor() != Some(id)
    ensures Later(w, c, s, actions, id) == After(w, c, s, actions)
    decreases |actions|
  {
    hide Enabled, Apply;
    if actions != [] {
      OthersMayDoAnything(w, c, Apply(w, c, s, actions[0]), actions[1..], id);
    }
  }

  // ------------------------------------------------ one request's own steps

  /** A hit answers the request on the spot. */
  function Hit(h: Handler, response: ChatResponse, status: CacheStatus, now: int): (answered: Handler)
    ensures answered.polls == h.polls && answered.tenant == h.tenant && answered.request == h.request
  {
    h.(phase := Returned(Stamp(response, h.traceId, status, now - h.startedAt, h.request)), status := status)
  }

  /** After the lookup: answered, or on the way upstream. */
  function LookedUp(h: Handler, cached: Option<ChatResponse>, status: CacheStatus, now: int): Handler {
    if cached.Some? then Hit(h, cached.value, status, now)
    else h.(phase := if status.Bypassed? || h.request.stream then Calling(NotWon) else Acquiring)
  }

  lemma ExactStep(w: World, c: Config, s: State, id: nat, reachable: bool)
    requires Enabled(w, s, ReadExact(id, reachable))
    ensures var h, s' := s.handlers[id], Apply(w, c, s, ReadExact(id, reachable));
            var hit := Get(w, s, h, reachable);
            s'.now == s.now && s'.exact == s.exact && id in s'.handlers &&
            s'.handlers[id] == if hit.Some? then Hit(h, hit.value, ExactHit, s.now) else h.(phase := ReadingSemantic)
  {
    hide Get;
  }

  lemma SemanticStep(w: World, c: Config, s: State, id: nat, found: Option<Stored>)
    requires Enabled(w, s, ReadSemantic(id, found))
    ensures var h, s' := s.handlers[id], Apply(w, c, s, ReadSemantic(id, found));
            s'.now == s.now && s'.points == s.points && id in s'.handlers &&
            s'.handlers[id] == if found.Some?
              then Hit(h, found.value.response.(cacheStatus := SemanticHit), SemanticHit, s.now)
                               else h.(phase := if h.request.stream then Calling(NotWon) else Acquiring)
  {
    hide Matches;
  }

  lemma PollStep(w: World, c: Config, s: State, id: nat, reachable: bool)
    requires Enabled(w, s, Poll(id, reachable))
    ensures var h, hit, s' := s.handlers[id], Get(w, s, s.handlers[id], reachable), Apply(w, c, s, Poll(id, reachable));
            s'.now == s.now && s'.exact == s.exact && id in s'.handlers &&
            var h' := h.(polls := h.polls + 1);
            s'.handlers[id] == if hit.Some? then Hit(h', hit.value, ExactHit, s.now)
              else h'.(phase := Waiting(h.phase.deadline))
  {
    hide Get;
  }

  lemma HitForgetsPhase(h: Handler, phase: Phase, response: ChatResponse, status: CacheStatus, now: int)
    ensures Hit(h.(phase := phase), response, status, now) == Hit(h, response, status, now)
  {
  }

  lemma NapStep(w: World, c: Config, s: State, id: nat)
    requires Enabled(w, s, Nap(id))
    ensures var h, s' := s.handlers[id], Apply(w, c, s, Nap(id));
            s'.now == s.now && id in s'.handlers
              && s'.handlers[id] == h.(phase := Napping(h.phase.deadline, s.now + c.pollMs))
  {
  }

  lemma GiveUpStep(w: World, c: Config, s: State, id: nat)
    requires Enabled(w, s, GiveUp(id))
    ensures var s' := Apply(w, c, s, GiveUp(id));
            s'.now == s.now && id in s'.handlers && s'.handlers[id] == s.handlers[id].(phase := Calling(NotWon))
  {
  }

  lemma SameLock(w: World, a: Handler, b: Handler)
    requires a.tenant == b.tenant && a.request == b.request
    ensures LockOf(w, a) == LockOf(w, b)
  {
  }

  class CacheService {
    const w: World
    const c: Config
    const moments: nat -> Moment
    const startedAt: int
    var awaits: nat
    var s: State
    ghost var trace: seq<Action>

    ghost predicate Valid()
      reads this
    {
      Runnable(w, c, Start(startedAt), trace) && s == After(w, c, Start(startedAt), trace)
    }

    constructor (w: World, c: Config, moments: nat -> Moment, now: int)
      ensures Valid() && trace == [] && s == Start(now)
      ensures this.w == w && this.c == c && this.moments == moments && startedAt == now
    {
      this.w, this.c, this.moments, this.startedAt := w, c, moments, now;
      awaits, s, trace := 0, Start(now), [];
    }

    method Step(a: Action)
      requires Valid() && Enabled(w, s, a)
      modifies this`s, this`trace
      ensures Valid() && trace == old(trace) + [a] && s == Apply(w, c, old(s), a)
    {
      hide Enabled, Apply;
      Continue(w, c, Start(startedAt), trace, a);
      s := Apply(w, c, s, a);
      trace := trace + [a];
    }

    /** Lets the others run; they never touch what belongs to `id`. */
    method Await(id: nat) returns (moment: Moment)
      requires Valid()
      modifies this`awaits, this`s, this`trace
      ensures Valid() && old(trace) <= trace && old(s).now <= s.now
      ensures moment == moments(old(awaits)) && awaits == old(awaits) + 1
      ensures s == Later(w, c, old(s), moment.others, id)
      ensures id in s.handlers <==> id in old(s).handlers
      ensures id in s.handlers ==> s.handlers[id] == old(s).handlers[id]
      ensures old(s).toExact <= s.toExact && old(s).toSemantic <= s.toSemantic
    {
      hide Runnable, After, Enabled, Apply;
      moment := moments(awaits);
      awaits := awaits + 1;
      for i := 0 to |moment.others|
        invariant Valid() && old(trace) <= trace && old(s).now <= s.now && awaits == old(awaits) + 1
        invariant Later(w, c, s, moment.others[i..], id) == Later(w, c, old(s), moment.others, id)
        invariant id in s.handlers <==> id in old(s).handlers
        invariant id in s.handlers ==> s.handlers[id] == old(s).handlers[id]
        invariant old(s).toExact <= s.toExact && old(s).toSemantic <= s.toSemantic
      {
        var a := moment.others[i];
        assert moment.others[i..][0] == a && moment.others[i..][1..] == moment.others[i + 1..];
        if a.Actor() != Some(id) && Enabled(w, s, a) {
          OthersDoNotInterfere(w, c, s, a, id);
          Step(a);
        }
      }
    }

    /** A hit's reply is backed by an earlier completion for the same tenant. */
    lemma RepliesAreServed(id: nat)
      requires Valid() && IsDigest(w.sha) && id in s.handlers
      requires s.handlers[id].phase.Returned? && s.handlers[id].status.IsHit()
      ensures Served(w, s.made, s.handlers[id].tenant, s.handlers[id].request, AnswerOf(s.handlers[id].phase.response))
    {
      hide Runnable, After, Served;
      HitIsServed(w, c, startedAt, trace, id);
    }

    /** Layer 1. */
    method GetExact(id: nat) returns (hit: Option<ChatResponse>)
      requires Valid() && id in s.handlers && s.handlers[id].phase.ReadingExact?
      modifies this`awaits, this`s, this`trace
      ensures Valid() && old(trace) <= trace && id in s.handlers
      ensures s.handlers[id] == if hit.Some? then Hit(old(s.handlers[id]), hit.value, ExactHit, s.now)
                                else old(s.handlers[id]).(phase := ReadingSemantic)
      ensures var h, moment := old(s.handlers[id]), moments(old(awaits));
              var key := EntryKey(w.sha, h.request, h.tenant);
              && awaits == old(awaits) + 1
              && s.exact == Later(w, c, old(s), moment.others, id).exact
              && hit == if moment.reachable && key in s.exact then Some(s.exact[key].response) else None
    {
      hide Apply, EntryKey, Runnable, After, Hit;
      var moment := Await(id);
      hit := Get(w, s, s.handlers[id], moment.reachable);
      ExactStep(w, c, s, id, moment.reachable);
      Step(ReadExact(id, moment.reachable));
    }

    /** Layer 2: at most one point, of this tenant, model and parameters. */
    method GetSemantic(id: nat) returns (hit: Option<ChatResponse>)
      requires Valid() && id in s.handlers && s.handlers[id].phase.ReadingSemantic?
      modifies this`awaits, this`s, this`trace
      ensures Valid() && old(trace) <= trace && id in s.handlers
      ensures s.handlers[id] == if hit.Some? then Hit(old(s.handlers[id]), hit.value, SemanticHit, s.now)
                                else if old(s.handlers[id]).request.stream then
                                  old(s.handlers[id]).(phase := Calling(NotWon))
                                else old(s.handlers[id]).(phase := Acquiring)
      ensures var h, offered := old(s.handlers[id]), moments(old(awaits)).found;
              && awaits == old(awaits) + 1
              && (hit.Some? <==>
                    && offered.Some? && offered.value in s.points
                    && offered.value.tenant == h.tenant && offered.value.request.model == h.request.model
                    && ParamsHash(w.sha, offered.value.request) == ParamsHash(w.sha, h.request)
                    && w.similar(Normal(h.request), Normal(offered.value.request)))
              && (hit.Some? ==> hit.value == offered.value.response.(cacheStatus := SemanticHit))
    {
      hide Apply, Runnable, After, Hit, ParamsHash, Normal;
      var moment := Await(id);
      var h := s.handlers[id];
      var found := if moment.found.Some? && moment.found.value in s.points
        && Matches(w, h.tenant, h.request, moment.found.value)
                   then moment.found else None;
      SemanticStep(w, c, s, id, found);
      Step(ReadSemantic(id, found));
      hit := if found.Some? then Some(found.value.response.(cacheStatus := SemanticHit)) else None;
    }

    /** Layer 1, then layer 2; a hit's stamp, taken at once, is the reply. */
    method Lookup(id: nat) returns (cached: Option<ChatResponse>, status: CacheStatus)
      requires Valid() && id in s.handlers
      requires s.handlers[id].phase == if s.handlers[id].request.cacheBypass then Calling(NotWon) else ReadingExact
      modifies this`awaits, this`s, this`trace
      ensures Valid() && old(trace) <= trace && id in s.handlers
      ensures status.IsHit() <==> cached.Some?
      ensures s.handlers[id] == LookedUp(old(s.handlers[id]), cached, status, s.now)
      ensures status.Bypassed? <==> old(s.handlers[id]).request.cacheBypass
      ensures status.Bypassed? ==> s == old(s)
      ensures var h, moment := old(s.handlers[id]), moments(old(awaits));
              var key, exact := EntryKey(w.sha, h.request, h.tenant), Later(w, c, old(s), moment.others, id).exact;
              && (status.ExactHit? <==> !h.request.cacheBypass && moment.reachable && key in exact)
              && (status.ExactHit? ==> cached == Some(exact[key].response))
      ensures var h, offered := old(s.handlers[id]), moments(old(awaits) + 1).found;
              && (status.SemanticHit? <==>
                    && !h.request.cacheBypass && !status.ExactHit?
                    && offered.Some? && offered.value in s.points
                    && offered.value.tenant == h.tenant && offered.value.request.model == h.request.model
                    && ParamsHash(w.sha, offered.value.request) == ParamsHash(w.sha, h.request)
                    && w.similar(Normal(h.request), Normal(offered.value.request)))
              && (status.SemanticHit? ==> cached == Some(offered.value.response.(cacheStatus := SemanticHit)))
    {
      hide Runnable, After, EntryKey, ParamsHash, Normal, Later;
      if s.handlers[id].request.cacheBypass {
        return None, Bypassed;
      }
      cached := GetExact(id);
      if cached.Some? {
        return cached, ExactHit;
      }
      cached := GetSemantic(id);
      status := if cached.Some? then SemanticHit else Miss;
    }

    /** Writes one scheduled response through both layers, in either order and with
        anything happening in between; each write may fail on its own. */
    method Backfill(id: nat, write: Stored, exactFirst: bool, exactUp: bool, semanticUp: bool)
      returns (ghost between: seq<Action>)
      requires Valid() && write in s.toExact && write in s.toSemantic
      modifies this`awaits, this`s, this`trace
      ensures Valid()
      ensures var exact := if exactUp then [LandExact(write)] else [];
              var semantic := if semanticUp then [LandSemantic(write)] else [];
              trace == old(trace) + (if exactFirst then exact + between + semantic else semantic + between + exact)
    {
      hide Runnable, After, Apply;
      ghost var before := trace;
      if exactFirst {
        Land(LandExact(write), exactUp);
      } else {
        Land(LandSemantic(write), semanticUp);
      }
      ghost var landed := trace;
      var _ := Await(id);
      between := trace[|landed|..];
      if exactFirst {
        Land(LandSemantic(write), semanticUp);
      } else {
        Land(LandExact(write), exactUp);
      }
    }

    /** One write-back, unless its store fails. */
    method Land(a: Action, up: bool)
      requires Valid() && Enabled(w, s, a) && (a.LandExact? || a.LandSemantic?)
      modifies this`s, this`trace
      ensures Valid() && trace == old(trace) + if up then [a] else []
      ensures old(s).toExact == s.toExact && old(s).toSemantic == s.toSemantic
    {
      hide Runnable, After;
      if up {
        Step(a);
      }
    }

    /** True when this request took the lock, or could not ask. */
    method AcquireCoalescingLock(id: nat) returns (won: bool)
      requires Valid() && id in s.handlers && s.handlers[id].phase.Acquiring?
      modifies this`awaits, this`s, this`trace
      ensures Valid() && old(trace) <= trace && id in s.handlers
      ensures s.handlers[id] == old(s.handlers[id]).(phase := s.handlers[id].phase)
      ensures var moment, key := moments(old(awaits)), LockOf(w, old(s.handlers[id]));
              var found := Later(w, c, old(s), moment.others, id).locks;
              if !moment.reachable || c.lockTtlSeconds < 1 then
                won && s.handlers[id].phase == Calling(FailedOpen) && s.locks == found
              else if key in found then
                !won && s.handlers[id].phase == Waiting(s.now + c.waitMs) && s.locks == found
              else
                && won && s.handlers[id].phase == Calling(Took)
                && s.locks == found[key := Lock(s.now + 1000 * c.lockTtlSeconds, id)]
    {
      hide LockOf, Runnable, After, Later;
      var moment := Await(id);
      var key := LockOf(w, s.handlers[id]);
      SameLock(w, s.handlers[id], old(s.handlers[id]));
      won := FailsOpen(c, moment.reachable) || key !in s.locks;
      Step(Acquire(id, moment.reachable));
    }

    /** Deletes the lock, whoever's it is; a failed DEL is only logged. */
    method ReleaseCoalescingLock(id: nat)
      requires Valid() && id in s.handlers && s.handlers[id].phase.Releasing?
      modifies this`awaits, this`s, this`trace
      ensures Valid() && old(trace) <= trace && id in s.handlers
      ensures s.handlers[id]
              == old(s.handlers[id]).(
                   phase := AfterCall(old(s.handlers[id]), NotWon, old(s.handlers[id].phase.outcome)))
      ensures var moment, key := moments(old(awaits)), LockOf(w, old(s.handlers[id]));
              var found := Later(w, c, old(s), moment.others, id).locks;
              s.locks == if moment.reachable then Without(found, key) else found
    {
      hide Apply, LockOf, Runnable, After, Later;
      var moment := Await(id);
      Coalescing.ReleaseStep(w, c, s, id, moment.reachable);
      Step(Release(id, moment.reachable));
    }

    /** A sleep takes at least its interval, and some time in any case. */
    method Sleep(id: nat)
      requires Valid() && id in s.handlers
      modifies this`awaits, this`s, this`trace
      ensures Valid() && old(trace) <= trace && id in s.handlers && s.handlers[id] == old(s.handlers[id])
      ensures old(s).now < s.now && old(s).now + c.pollMs <= s.now && awaits == old(awaits) + 1
    {
      hide Runnable, After;
      var wakeAt := s.now + if c.pollMs == 0 then 1 else c.pollMs;
      var _ := Await(id);
      if s.now < wakeAt {
        Step(Tick(wakeAt - s.now));
      }
    }

    /** The gateway was in state `x` at some point of the run. */
    ghost predicate Visited(run: seq<Action>, x: State) {
      exists n :: 0 <= n <= |run| && Runnable(w, c, Start(startedAt), run[..n])
                  && x == After(w, c, Start(startedAt), run[..n])
    }

    lemma NowVisited()
      requires Valid()
      ensures Visited(trace, s)
    {
      assert trace[..|trace|] == trace;
    }

    lemma StillVisited(run: seq<Action>, more: seq<Action>, x: State)
      requires Visited(run, x) && run <= more
      ensures Visited(more, x)
    {
      hide Runnable, After;
      var n :| 0 <= n <= |run| && Runnable(w, c, Start(startedAt), run[..n])
        && x == After(w, c, Start(startedAt), run[..n]);
      assert run[..n] == more[..n];
    }

    /** Polls the exact layer until it answers or the budget is spent; never fails. `seen`
        holds the gateway's state at each poll: the last one has the answer that is
        returned, and no earlier one had any to a poll that got through. */
    method WaitForCoalescedResult(id: nat) returns (hit: Option<ChatResponse>, ghost seen: seq<State>)
      requires Valid() && id in s.handlers && s.handlers[id].phase == Waiting(s.now + c.waitMs)
      modifies this`awaits, this`s, this`trace
      ensures Valid() && old(trace) <= trace && id in s.handlers
      ensures var h := old(s.handlers[id]).(polls := s.handlers[id].polls);
              s.handlers[id] == if hit.Some? then Hit(h, hit.value, ExactHit, s.now) else h.(phase := Calling(NotWon))
      ensures hit.None? ==> old(s).now + c.waitMs <= s.now && (0 < c.waitMs ==> seen != [])
      ensures s.handlers[id].polls == old(s.handlers[id]).polls + |seen| && awaits == old(awaits) + 2 * |seen|
      ensures forall i :: 0 <= i < |seen| ==> old(s).now < seen[i].now && Visited(trace, seen[i])
      ensures var key := EntryKey(w.sha, old(s.handlers[id]).request, old(s.handlers[id]).tenant);
              && (hit.Some? ==> seen != [] && key in seen[|seen| - 1].exact
                                && hit.value == seen[|seen| - 1].exact[key].response)
              && (forall i :: 0 <= i < |seen| && (hit.Some? ==> i < |seen| - 1) ==>
                    !(moments(old(awaits) + 2 * i + 1).reachable && key in seen[i].exact))
    {
      hide Apply, Get, Runnable, After, Hit, EntryKey, Visited;
      var deadline := s.now + c.waitMs;
      ghost var key := EntryKey(w.sha, s.handlers[id].request, s.handlers[id].tenant);
      seen := [];
      while s.now < deadline
        invariant Valid() && old(trace) <= trace && id in s.handlers && old(s).now <= s.now
        invariant s.handlers[id] == old(s.handlers[id]).(polls := s.handlers[id].polls)
        invariant s.handlers[id].polls == old(s.handlers[id]).polls + |seen| && awaits == old(awaits) + 2 * |seen|
        invariant s.now < deadline || seen != [] || c.waitMs <= 0
        invariant forall i :: 0 <= i < |seen| ==> old(s).now < seen[i].now && Visited(trace, seen[i])
        invariant forall i :: 0 <= i < |seen| ==>
                    !(moments(old(awaits) + 2 * i + 1).reachable && key in seen[i].exact)
        decreases deadline - s.now
      {
        ghost var before := trace;
        hit := PollOnce(id);
        forall i | 0 <= i < |seen|
          ensures Visited(trace, seen[i])
        {
          StillVisited(before, trace, seen[i]);
        }
        seen := seen + [s];
        assert Visited(trace, s) by { NowVisited(); }
        if hit.Some? {
          return;
        }
      }
      ghost var polled := trace;
      GiveUpStep(w, c, s, id);
      Step(GiveUp(id));
      forall i | 0 <= i < |seen|
        ensures Visited(trace, seen[i])
      {
        StillVisited(polled, trace, seen[i]);
      }
      hit := None;
    }

    method PollOnce(id: nat) returns (hit: Option<ChatResponse>)
      requires Valid() && id in s.handlers && s.handlers[id].phase.Waiting? && s.now < s.handlers[id].phase.deadline
      modifies this`awaits, this`s, this`trace
      ensures Valid() && old(trace) <= trace && id in s.handlers && old(s).now < s.now
      ensures var h := old(s.handlers[id]).(polls := old(s.handlers[id]).polls + 1);
              s.handlers[id] == if hit.Some? then Hit(h, hit.value, ExactHit, s.now) else h
      ensures var key := EntryKey(w.sha, old(s.handlers[id]).request, old(s.handlers[id]).tenant);
              && awaits == old(awaits) + 2
              && hit == if moments(awaits - 1).reachable && key in s.exact then Some(s.exact[key].response) else None
    {
      hide Apply, EntryKey, Runnable, After, Hit, Later;
      NapStep(w, c, s, id);
      Step(Nap(id));
      Sleep(id);
      var moment := Await(id);
      hit := Get(w, s, s.handlers[id], moment.reachable);
      PollStep(w, c, s, id, moment.reachable);
      if hit.Some? {
        var h := s.handlers[id].(polls := s.handlers[id].polls + 1);
        HitForgetsPhase(h, Waiting(h.phase.deadline), hit.value, ExactHit, s.now);
      }
      Step(Poll(id, moment.reachable));
    }
  }
}
