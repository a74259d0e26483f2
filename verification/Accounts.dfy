/** The accounts of a run against what the upstreams did: every successful upstream
    call is priced once, for the request that made it, unless it is still on its way
    or ended a stream that bypassed the cache. */
module Accounts {
  import opened Wrappers
  import opened CacheKeys
  import opened ChatRequest
  import opened ChatResponse
  import opened GatewayProtocol
  import opened Provenance

  /** The upstream has answered, the answer is not priced yet. */
  predicate Pending(h: Handler) { h.phase.Costing? || (h.phase.Releasing? && h.phase.outcome.Some?) }

  function RawOf(h: Handler): ChatResponse
    requires Pending(h)
  {
    if h.phase.Costing? then h.phase.raw else h.phase.outcome.value
  }

  /** The answer of a request's upstream call is held for it, or was dropped for good. */
  predicate Open(h: Handler) { Pending(h) || h.phase.Ended? }

  /** Requests whose answer is not priced yet, or never will be. */
  function Unpriced(s: State): set<nat> {
    set id | id in s.handlers && Open(s.handlers[id])
  }

  /** Successful upstream calls of a run. */
  function Completions(run: seq<Action>): nat {
    if run == [] then 0 else (if run[0].Succeed? then 1 else 0) + Completions(run[1..])
  }

  function CompletionsOf(run: seq<Action>, id: nat): nat {
    if run == [] then 0 else (if run[0].Succeed? && run[0].id == id then 1 else 0) + CompletionsOf(run[1..], id)
  }

  function MadesOf(made: seq<Made>, id: nat): nat {
    if made == [] then 0
    else MadesOf(made[..|made| - 1], id) + if made[|made| - 1].id == id then 1 else 0
  }

  function AsOne(b: bool): nat { if b then 1 else 0 }

  /** What the account of a request holds for its upstream call. */
  function Accounted(s: State, id: nat): nat { MadesOf(s.made, id) + AsOne(id in Unpriced(s)) }

  /** What the gateway makes of a provider's answer; a stream goes by the requested model. */
  function Said(request: ChatRequest, raw: ChatResponse): Answer {
    AnswerOf(raw).(model := if request.stream then request.model else raw.model)
  }

  ghost predicate FromUpstream(run: seq<Action>, m: Made) {
    exists raw :: Succeed(m.id, raw) in run && AnswerOf(m.response) == Said(m.request, raw)
  }

  // ---------------------------------------------------------------- one step

  lemma SucceedOpens(w: World, c: Config, s: State, id: nat, raw: ChatResponse)
    requires Enabled(w, s, Succeed(id, raw))
    ensures var h, h' := s.handlers[id], Apply(w, c, s, Succeed(id, raw)).handlers[id];
            !Open(h) && h.phase.Calling? && Open(h') && (Pending(h') ==> RawOf(h') == raw)
  {
  }

  lemma PriceCloses(w: World, c: Config, s: State, id: nat, costUsd: real)
    requires Enabled(w, s, Price(id, costUsd))
    ensures Pending(s.handlers[id]) && !Open(Apply(w, c, s, Price(id, costUsd)).handlers[id])
  {
    hide Built, Stamp;
  }

  lemma ReleaseKeeps(w: World, c: Config, s: State, id: nat, reachable: bool)
    requires Enabled(w, s, Release(id, reachable))
    ensures var h, h' := s.handlers[id], Apply(w, c, s, Release(id, reachable)).handlers[id];
            (Open(h') <==> Open(h)) && (Pending(h') ==> Pending(h) && RawOf(h') == RawOf(h))
  {
    hide LockKey;
  }

  lemma OthersStayClosed(w: World, c: Config, s: State, a: Action)
    requires Enabled(w, s, a) && a.Actor().Some? && !a.Succeed? && !a.Price? && !a.Release?
    ensures a.id in s.handlers ==> !Open(s.handlers[a.id])
    ensures !Open(Apply(w, c, s, a).handlers[a.id])
  {
    hide Get, Matches, Stamp, EntryKey, LockKey;
  }

  /** How a request's own step moves it through the account. */
  lemma StageStep(w: World, c: Config, s: State, a: Action)
    requires Enabled(w, s, a) && a.Actor().Some?
    ensures var h', before := Apply(w, c, s, a).handlers[a.id], a.id in Unpriced(s);
            && (Open(h') <==> if a.Succeed? then true else if a.Price? then false else before)
            && (a.Succeed? ==> !before && s.handlers[a.id].phase.Calling? && (Pending(h') ==> RawOf(h') == a.raw))
            && (a.Price? ==> before && Pending(s.handlers[a.id]))
            && (Pending(h') && !a.Succeed? ==> Pending(s.handlers[a.id]) && RawOf(h') == RawOf(s.handlers[a.id]))
  {
    if a.Succeed? {
      SucceedOpens(w, c, s, a.id, a.raw);
    } else if a.Price? {
      PriceCloses(w, c, s, a.id, a.costUsd);
    } else if a.Release? {
      ReleaseKeeps(w, c, s, a.id, a.reachable);
    } else {
      OthersStayClosed(w, c, s, a);
    }
    hide Apply, Pending;
  }

  lemma UnpricedAfter(s: State, s': State, id: nat)
    requires id in s'.handlers && s'.handlers == s.handlers[id := s'.handlers[id]]
    ensures Unpriced(s') == Unpriced(s) - {id} + if Open(s'.handlers[id]) then {id} else {}
  {
    hide Pending;
  }

  lemma OwnStepHandlers(w: World, c: Config, s: State, a: Action)
    requires Enabled(w, s, a) && a.Actor().Some?
    ensures a.id in Apply(w, c, s, a).handlers
    ensures Apply(w, c, s, a).handlers == s.handlers[a.id := Apply(w, c, s, a).handlers[a.id]]
  {
    hide ApplyOwn, Enabled;
  }

  lemma EnvironmentHandlers(w: World, c: Config, s: State, a: Action)
    requires Enabled(w, s, a) && a.Actor().None?
    ensures Apply(w, c, s, a).handlers == s.handlers
  {
  }

  lemma MadeBy(made: seq<Made>, made': seq<Made>)
    ensures |made'| == |made| + 1 && made'[..|made|] == made ==>
              forall id :: MadesOf(made', id) == MadesOf(made, id) + AsOne(made'[|made|].id == id)
  {
  }

  /** Succeeding opens an entry and pricing closes one; nothing else does. */
  lemma EntriesStep(w: World, c: Config, s: State, a: Action)
    requires Enabled(w, s, a)
    ensures Unpriced(Apply(w, c, s, a))
         == if a.Succeed? then Unpriced(s) + {a.id} else if a.Price? then Unpriced(s) - {a.id} else Unpriced(s)
    ensures a.Succeed? ==> a.id !in Unpriced(s)
    ensures a.Price? ==> a.id in Unpriced(s)
  {
    if a.Actor().Some? {
      StageStep(w, c, s, a);
      OwnStepHandlers(w, c, s, a);
      hide Pending, Enabled, Apply;
      UnpricedAfter(s, Apply(w, c, s, a), a.id);
    } else {
      hide Pending;
      EnvironmentHandlers(w, c, s, a);
    }
  }

  lemma AccountStep(w: World, c: Config, s: State, a: Action)
    requires Enabled(w, s, a)
    ensures var s' := Apply(w, c, s, a);
            && |s'.made| + |Unpriced(s')| == |s.made| + |Unpriced(s)| + AsOne(a.Succeed?)
            && forall id :: Accounted(s', id) == Accounted(s, id) + AsOne(a.Succeed? && a.id == id)
  {
    hide Pending, Enabled, Apply, Unpriced, MadesOf;
    OnlyPricingMakes(w, c, s, a);
    EntriesStep(w, c, s, a);
    MadeBy(s.made, Apply(w, c, s, a).made);
  }

  // ------------------------------------------------------------------- runs

  lemma {:induction false} RunAccount(w: World, c: Config, s: State, run: seq<Action>)
    requires Runnable(w, c, s, run)
    ensures var s' := After(w, c, s, run);
            && |s'.made| + |Unpriced(s')| == |s.made| + |Unpriced(s)| + Completions(run)
            && forall id :: Accounted(s', id) == Accounted(s, id) + CompletionsOf(run, id)
    decreases |run|
  {
    hide Enabled, Apply, Unpriced, Accounted;
    if run != [] {
      AccountStep(w, c, s, run[0]);
      RunAccount(w, c, Apply(w, c, s, run[0]), run[1..]);
    }
  }

  /** Nothing is accounted for a request that has yet to hear from its upstream, and
      nothing is left open for one that has its reply. */
  ghost predicate Booked(s: State) {
    forall id ::
      && Accounted(s, id) <= 1
      && (Accounted(s, id) > 0 ==> id in s.handlers)
      && (Accounted(s, id) > 0 && MadesOf(s.made, id) > 0 ==> s.handlers[id].phase.Returned?)
  }

  lemma StepStaysBooked(w: World, c: Config, s: State, a: Action)
    requires Booked(s) && Enabled(w, s, a)
    ensures Booked(Apply(w, c, s, a))
  {
    hide Enabled, Apply, Pending;
    var s' := Apply(w, c, s, a);
    AccountStep(w, c, s, a);
    OnlyPricingMakes(w, c, s, a);
    MadeBy(s.made, s'.made);
    forall id
      ensures Accounted(s', id) <= 1
              && (Accounted(s', id) > 0 ==>
                  id in s'.handlers && (MadesOf(s'.made, id) > 0 ==> s'.handlers[id].phase.Returned?))
    {
      if a.Actor() == Some(id) {
        StageStep(w, c, s, a);
        OwnStepHandlers(w, c, s, a);
        if id in s.handlers && s.handlers[id].phase.Returned? {
          RepliesAreFinal(w, c, s, a, id);
        }
      } else {
        OthersDoNotInterfere(w, c, s, a, id);
      }
    }
  }

  lemma {:induction false} RunStaysBooked(w: World, c: Config, s: State, run: seq<Action>)
    requires Booked(s) && Runnable(w, c, s, run)
    ensures Booked(After(w, c, s, run))
    decreases |run|
  {
    hide Enabled, Apply, Booked;
    if run != [] {
      StepStaysBooked(w, c, s, run[0]);
      RunStaysBooked(w, c, Apply(w, c, s, run[0]), run[1..]);
    }
  }

  // ------------------------------------------------------ what is accounted for

  /** Everything priced, and everything about to be, was said by an upstream in `known`. */
  ghost predicate Sourced(known: seq<Action>, s: State) {
    && (forall m :: m in s.made ==> FromUpstream(known, m))
    && (forall id :: id in s.handlers && Pending(s.handlers[id]) ==> Succeed(id, RawOf(s.handlers[id])) in known)
  }

  lemma PriceSays(w: World, c: Config, s: State, id: nat, costUsd: real)
    requires Enabled(w, s, Price(id, costUsd))
    ensures var h, m := s.handlers[id], Apply(w, c, s, Price(id, costUsd)).made[|s.made|];
            |Apply(w, c, s, Price(id, costUsd)).made| == |s.made| + 1
            && m.id == id && m.tenant == h.tenant && m.request == h.request
            && AnswerOf(m.response) == Said(h.request, RawOf(h))
  {
  }

  lemma StepStaysSourced(w: World, c: Config, known: seq<Action>, s: State, a: Action)
    requires Sourced(known, s) && Enabled(w, s, a)
    ensures Sourced(known + [a], Apply(w, c, s, a))
  {
    hide Enabled, Apply, Pending, Said;
    var s' := Apply(w, c, s, a);
    OnlyPricingMakes(w, c, s, a);
    forall m | m in s.made
      ensures FromUpstream(known + [a], m)
    {
      var raw :| Succeed(m.id, raw) in known && AnswerOf(m.response) == Said(m.request, raw);
      assert Succeed(m.id, raw) in known + [a];
    }
    if a.Actor().Some? {
      StageStep(w, c, s, a);
      OwnStepHandlers(w, c, s, a);
      if a.Price? {
        PriceSays(w, c, s, a.id, a.costUsd);
        assert Succeed(a.id, RawOf(s.handlers[a.id])) in known + [a];
        assert FromUpstream(known + [a], s'.made[|s.made|]);
      }
    } else {
      EnvironmentHandlers(w, c, s, a);
    }
  }

  lemma {:induction false} RunStaysSourced(w: World, c: Config, known: seq<Action>, s: State, run: seq<Action>)
    requires Sourced(known, s) && Runnable(w, c, s, run)
    ensures Sourced(known + run, After(w, c, s, run))
    decreases |run|
  {
    hide Enabled, Apply, Sourced;
    if run == [] {
      assert known + run == known;
    } else {
      StepStaysSourced(w, c, known, s, run[0]);
      assert known + [run[0]] + run[1..] == known + run;
      RunStaysSourced(w, c, known + [run[0]], Apply(w, c, s, run[0]), run[1..]);
    }
  }

  // ---------------------------------------------------------------- results

  /** In every run the successful upstream calls are as many as the priced completions
      and the answers still unpriced; request by request, each has succeeded at most
      once, and exactly if it holds one priced completion or its answer is unpriced. */
  lemma CompletionsAreAccounted(w: World, c: Config, now: int, run: seq<Action>)
    requires Runnable(w, c, Start(now), run)
    ensures var s := After(w, c, Start(now), run);
            && Completions(run) == |s.made| + |Unpriced(s)|
            && (forall id :: CompletionsOf(run, id) == MadesOf(s.made, id) + AsOne(id in Unpriced(s)) <= 1)
            && (forall m :: m in s.made ==> FromUpstream(run, m))
  {
    hide Runnable, After, Pending, FromUpstream;
    RunAccount(w, c, Start(now), run);
    RunStaysBooked(w, c, Start(now), run);
    RunStaysSourced(w, c, [], Start(now), run);
    assert [] + run == run;
  }

  /** So once nothing is pending, the replies are charged exactly the priced answers of
      the upstream calls that succeeded, one each, except the bypassed streams'. */
  lemma CostIsConserved(w: World, c: Config, now: int, run: seq<Action>)
    requires IsDigest(w.sha) && Runnable(w, c, Start(now), run)
    requires var s := After(w, c, Start(now), run);
             forall id :: id in s.handlers ==> !Pending(s.handlers[id])
    ensures var s := After(w, c, Start(now), run);
            && Charged(s.replies) == Spent(s.made)
            && (forall id ::
                  CompletionsOf(run, id)
                  == if id in s.handlers && s.handlers[id].phase.Ended? then 1 else MadesOf(s.made, id))
            && (forall id :: id in s.handlers && s.handlers[id].phase.Ended? ==> MadesOf(s.made, id) == 0)
            && (forall m :: m in s.made ==> FromUpstream(run, m))
            && (forall k :: k in s.exact ==> Backed(w, s.made, s.exact[k]))
            && (forall p :: p in s.points ==> Original(w, s.made, p))
  {
    hide Runnable, After, Pending, FromUpstream, Backed, Original;
    CompletionsAreAccounted(w, c, now, run);
    RepliesPayForCompletions(w, c, now, run);
  }
}
