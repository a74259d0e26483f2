/** RoutingService: which providers a request is offered to, in which order, and
    how completions and streams fall back from one to the next. */
module Routing {
  import opened Wrappers
  import opened Provider
  import opened Registry
  import opened CircuitBreaker
  import opened ChatRequest

  /** A provider, by its position in the registry, and the model to ask it for. */
  datatype Attempt = Attempt(provider: nat, model: string)

  /** What one attempt meets: its upstream calls, its clock and its jitter. */
  datatype Script<+R> = Script(upstream: nat -> Outcome<R>, clock: nat -> real, jitter: nat -> real)

  datatype StreamingScript = StreamingScript(upstream: nat -> StreamScript, clock: nat -> real, jitter: nat -> real)

  /** What the consumer of a routed stream observes, in order: the selection callback
      and the chunks. */
  datatype StreamEvent = Selected(attempt: Attempt) | Chunk(text: string)

  // ---------------------------------------------------------------- planning

  /** `names` extended by the names of `chain` it does not hold yet. */
  function AddNew(names: seq<string>, chain: seq<string>): seq<string>
    decreases |chain|
  {
    if chain == [] then names
    else AddNew(if chain[0] in names then names else names + [chain[0]], chain[1..])
  }

  ghost predicate Distinct<T(!new)>(s: seq<T>) {
    forall i, j :: 0 <= i < j < |s| ==> s[i] != s[j]
  }

  /** No name twice, nothing lost, nothing invented, and the given names stay in front. */
  lemma {:induction false} AddNewIsDistinctUnion(names: seq<string>, chain: seq<string>)
    requires Distinct(names)
    ensures var all := AddNew(names, chain);
            && Distinct(all) && names <= all
            && forall n :: n in all <==> n in names || n in chain
    decreases |chain|
  {
    if chain != [] {
      var more := if chain[0] in names then names else names + [chain[0]];
      AddNewIsDistinctUnion(more, chain[1..]);
      assert chain == [chain[0]] + chain[1..];
    }
  }

  ghost predicate Placed(providers: seq<ProviderInfo>, plan: seq<Attempt>) {
    forall i :: 0 <= i < |plan| ==> plan[i].provider < |providers|
  }

  /** The attempt a provider name yields, if any. */
  function AttemptFor(s: Settings, providers: seq<ProviderInfo>, model: string, name: string)
    : Result<Option<Attempt>, RegistryError>
  {
    match TryGet(providers, name)
    case None => Ok(None)
    case Some(p) =>
      if providers[p].SupportsModel(model) then Ok(Some(Attempt(p, model))) else
      match ResolveEquivalentModel(s, providers, model, name)
      case Err(e) => Err(e)
      case Ok(None) => Ok(None)
      case Ok(Some(equivalent)) => Ok(Some(Attempt(p, equivalent)))
  }

  /** The attempts of `names`, after `acc`; the first malformed mapping fails it. */
  function Collect(s: Settings, providers: seq<ProviderInfo>, model: string, names: seq<string>, acc: seq<Attempt>)
    : (plan: Result<seq<Attempt>, RegistryError>)
    ensures plan.Ok? && Placed(providers, acc) ==> Placed(providers, plan.value)
    decreases |names|
  {
    if names == [] then Ok(acc) else
    match AttemptFor(s, providers, model, names[0])
    case Err(e) => Err(e)
    case Ok(None) => Collect(s, providers, model, names[1..], acc)
    case Ok(Some(a)) => Collect(s, providers, model, names[1..], acc + [a])
  }

  function CandidateNames(s: Settings, providers: seq<ProviderInfo>, model: string): seq<string> {
    var primary := FindSupporting(providers, model);
    AddNew(if primary.Some? then [providers[primary.value].name] else [], s.fallbackChain)
  }

  /** An empty override does not pin a provider. */
  predicate Pinned(r: ChatRequest) { r.providerOverride.Some? && r.providerOverride.value != "" }

  /** The attempts of a request: a pinned provider alone, or the fallback list. */
  function Plan(s: Settings, providers: seq<ProviderInfo>, r: ChatRequest): (plan: Result<seq<Attempt>, RegistryError>)
    ensures plan.Ok? ==> Placed(providers, plan.value)
  {
    if Pinned(r) then
      var p := TryGet(providers, r.providerOverride.value);
      if p.None? then Err(UnknownProvider(r.providerOverride.value)) else Ok([Attempt(p.value, r.model)])
    else
      Collect(s, providers, r.model, CandidateNames(s, providers, r.model), [])
  }

  predicate Malformed(s: Settings, providers: seq<ProviderInfo>, model: string, name: string) {
    AttemptFor(s, providers, model, name).Err?
  }

  predicate Usable(s: Settings, providers: seq<ProviderInfo>, model: string, name: string) {
    var a := AttemptFor(s, providers, model, name);
    a.Ok? && a.value.Some?
  }

  function UsableNames(s: Settings, providers: seq<ProviderInfo>, model: string, names: seq<string>): seq<string> {
    if names == [] then []
    else (if Usable(s, providers, model, names[0]) then [names[0]] else [])
         + UsableNames(s, providers, model, names[1..])
  }

  function ProviderNames(providers: seq<ProviderInfo>, plan: seq<Attempt>): (names: seq<string>)
    requires Placed(providers, plan)
    ensures |names| == |plan| && forall i :: 0 <= i < |plan| ==> names[i] == providers[plan[i].provider].name
  {
    if plan == [] then []
    else ProviderNames(providers, plan[..|plan| - 1]) + [providers[plan[|plan| - 1].provider].name]
  }

  /** The provider serves the model itself, or stands in with its configured equivalent. */
  ghost predicate Sound(s: Settings, providers: seq<ProviderInfo>, model: string, a: Attempt) {
    && a.provider < |providers|
    && (if providers[a.provider].SupportsModel(model) then a.model == model
        else ResolveEquivalentModel(s, providers, model, providers[a.provider].name) == Ok(Some(a.model)))
  }

  lemma AttemptIsSound(s: Settings, providers: seq<ProviderInfo>, model: string, name: string)
    ensures var a := AttemptFor(s, providers, model, name);
            a.Ok? && a.value.Some? ==>
              Sound(s, providers, model, a.value.value) && providers[a.value.value.provider].name == name
  {
  }

  /** Planning fails exactly when some name's mapping is malformed. */
  lemma {:induction false} CollectFailsIff(s: Settings, providers: seq<ProviderInfo>, model: string, names: seq<string>,
      acc: seq<Attempt>)
    ensures Collect(s, providers, model, names, acc).Err?
            <==> exists n :: n in names && Malformed(s, providers, model, n)
    decreases |names|
  {
    hide AttemptFor;
    if names != [] {
      assert names == [names[0]] + names[1..];
      var a := AttemptFor(s, providers, model, names[0]);
      assert Malformed(s, providers, model, names[0]) <==> a.Err?;
      hide Malformed;
      if a.Ok? {
        CollectFailsIff(s, providers, model, names[1..], if a.value.Some? then acc + [a.value.value] else acc);
      }
    }
  }

  /** Exactly the usable names are attempted, in order, each soundly. */
  lemma {:induction false} CollectIsFilter(s: Settings, providers: seq<ProviderInfo>, model: string, names: seq<string>,
      acc: seq<Attempt>)
    requires Placed(providers, acc) && forall a :: a in acc ==> Sound(s, providers, model, a)
    requires Collect(s, providers, model, names, acc).Ok?
    ensures var plan := Collect(s, providers, model, names, acc).value;
            && ProviderNames(providers, plan) == ProviderNames(providers, acc) + UsableNames(s, providers, model, names)
            && forall a :: a in plan ==> Sound(s, providers, model, a)
    decreases |names|
  {
    hide AttemptFor, Sound;
    if names != [] {
      var a := AttemptFor(s, providers, model, names[0]);
      AttemptIsSound(s, providers, model, names[0]);
      var more := if a.value.Some? then acc + [a.value.value] else acc;
      CollectIsFilter(s, providers, model, names[1..], more);
      assert a.value.Some? ==> ProviderNames(providers, more) == ProviderNames(providers, acc) + [names[0]];
    }
  }

  lemma {:induction false} UsableNamesFilter(s: Settings, providers: seq<ProviderInfo>, model: string,
      names: seq<string>)
    requires Distinct(names)
    ensures var kept := UsableNames(s, providers, model, names);
            && Distinct(kept)
            && forall n :: n in kept <==> n in names && Usable(s, providers, model, n)
    decreases |names|
  {
    if names != [] {
      assert names == [names[0]] + names[1..];
      UsableNamesFilter(s, providers, model, names[1..]);
      assert names[0] !in names[1..];
    }
  }

  /** The names a plan offers the request to. */
  lemma PlannedNames(s: Settings, providers: seq<ProviderInfo>, r: ChatRequest)
    requires !Pinned(r)
    ensures var names := CandidateNames(s, providers, r.model);
            && (Plan(s, providers, r).Err? <==> exists n :: n in names && Malformed(s, providers, r.model, n))
            && (Plan(s, providers, r).Ok? ==>
                  && ProviderNames(providers, Plan(s, providers, r).value) == UsableNames(s, providers, r.model, names)
                  && forall a :: a in Plan(s, providers, r).value ==> Sound(s, providers, r.model, a))
  {
    hide AddNew, Usable, Malformed, Sound;
    var names := CandidateNames(s, providers, r.model);
    CollectFailsIff(s, providers, r.model, names, []);
    if Plan(s, providers, r).Ok? {
      CollectIsFilter(s, providers, r.model, names, []);
    }
    assert ProviderNames(providers, []) + UsableNames(s, providers, r.model, names)
      == UsableNames(s, providers, r.model, names);
  }

  /** Candidates: the native provider, then the chain, each once. */
  lemma CandidatesAre(s: Settings, providers: seq<ProviderInfo>, model: string)
    ensures var names, native := CandidateNames(s, providers, model), FindSupporting(providers, model);
            && Distinct(names)
            && (native.Some? ==> names != [] && names[0] == providers[native.value].name)
            && forall n :: n in names <==> n in s.fallbackChain || (native.Some? && n == providers[native.value].name)
  {
    var native := FindSupporting(providers, model);
    AddNewIsDistinctUnion(if native.Some? then [providers[native.value].name] else [], s.fallbackChain);
  }

  /** Without an override the plan is complete and duplicate-free: no provider appears
      twice, and a provider appears exactly if it is native or in the chain, and serves
      the model or holds its equivalent. A malformed mapping of any such name fails it. */
  lemma PlanIsComplete(s: Settings, providers: seq<ProviderInfo>, r: ChatRequest)
    requires !Pinned(r)
    ensures var plan, native := Plan(s, providers, r), FindSupporting(providers, r.model);
            if plan.Ok? then
              && Distinct(ProviderNames(providers, plan.value))
              && (forall n :: n in ProviderNames(providers, plan.value) <==>
                    (n in s.fallbackChain || (native.Some? && n == providers[native.value].name))
                      && Usable(s, providers, r.model, n))
            else
              exists n :: (n in s.fallbackChain || (native.Some? && n == providers[native.value].name))
                && Malformed(s, providers, r.model, n)
  {
    hide AddNew, Usable, Malformed, Sound, CandidateNames;
    PlannedNames(s, providers, r);
    CandidatesAre(s, providers, r.model);
    UsableNamesFilter(s, providers, r.model, CandidateNames(s, providers, r.model));
  }

  /** Who is asked, read off the configuration: without an override, the registered
      providers that are native or in the chain, and serve the model themselves or have an
      equivalent; a malformed mapping on the way fails the request. */
  lemma WhoIsAsked(s: Settings, providers: seq<ProviderInfo>, r: ChatRequest)
    requires r.providerOverride in {None, Some("")} && ValidProviders(providers)
    ensures var plan, native := Plan(s, providers, r), FindSupporting(providers, r.model);
            if plan.Ok? then
              forall p: nat :: p < |providers| ==>
                ((exists a :: a in plan.value && a.provider == p)
                 <==> var mapped := ResolveEquivalentModel(s, providers, r.model, providers[p].name);
                      && (providers[p].name in s.fallbackChain || native == Some(p))
                      && (providers[p].SupportsModel(r.model) || (mapped.Ok? && mapped.value.Some?)))
            else
              exists p: nat :: p < |providers| && providers[p].name in s.fallbackChain
                && !providers[p].SupportsModel(r.model)
                && ResolveEquivalentModel(s, providers, r.model, providers[p].name).Err?
  {
    hide Plan, ResolveEquivalentModel, FindSupporting, ProviderInfo.SupportsModel;
    if Plan(s, providers, r).Ok? {
      forall p: nat | p < |providers|
        ensures (exists a :: a in Plan(s, providers, r).value && a.provider == p)
                <==> var mapped := ResolveEquivalentModel(s, providers, r.model, providers[p].name);
                     && (providers[p].name in s.fallbackChain || FindSupporting(providers, r.model) == Some(p))
                     && (providers[p].SupportsModel(r.model) || (mapped.Ok? && mapped.value.Some?))
      {
        IsAskedIff(s, providers, r, p);
      }
    } else {
      SomeMappingIsMalformed(s, providers, r);
    }
  }

  lemma SomeMappingIsMalformed(s: Settings, providers: seq<ProviderInfo>, r: ChatRequest)
    requires !Pinned(r) && ValidProviders(providers) && Plan(s, providers, r).Err?
    ensures exists p: nat :: p < |providers| && providers[p].name in s.fallbackChain
              && !providers[p].SupportsModel(r.model)
              && ResolveEquivalentModel(s, providers, r.model, providers[p].name).Err?
  {
    PlanIsComplete(s, providers, r);
    hide Plan, Malformed, ResolveEquivalentModel, FindSupporting;
    var native := FindSupporting(providers, r.model);
    var n :| (n in s.fallbackChain || (native.Some? && n == providers[native.value].name))
      && Malformed(s, providers, r.model, n);
    MalformedIsRegistered(s, providers, r.model, n);
    assert native.Some? ==> providers[native.value].SupportsModel(r.model);
    hide ProviderInfo.SupportsModel;
    var p: nat :| p < |providers| && providers[p].name == n && !providers[p].SupportsModel(r.model)
      && ResolveEquivalentModel(s, providers, r.model, n).Err?;
    assert native != Some(p);
  }

  lemma IsAskedIff(s: Settings, providers: seq<ProviderInfo>, r: ChatRequest, p: nat)
    requires !Pinned(r) && ValidProviders(providers) && p < |providers| && Plan(s, providers, r).Ok?
    ensures (exists a :: a in Plan(s, providers, r).value && a.provider == p)
            <==> var mapped := ResolveEquivalentModel(s, providers, r.model, providers[p].name);
                 && (providers[p].name in s.fallbackChain || FindSupporting(providers, r.model) == Some(p))
                 && (providers[p].SupportsModel(r.model) || (mapped.Ok? && mapped.value.Some?))
  {
    PlanIsComplete(s, providers, r);
    hide Plan, Usable, ResolveEquivalentModel, FindSupporting, ProviderInfo.SupportsModel;
    AskedByName(providers, Plan(s, providers, r).value, p);
    NameStandsFor(s, providers, r.model, p);
  }

  lemma AskedByName(providers: seq<ProviderInfo>, plan: seq<Attempt>, p: nat)
    requires ValidProviders(providers) && Placed(providers, plan) && p < |providers|
    ensures (exists a :: a in plan && a.provider == p) <==> providers[p].name in ProviderNames(providers, plan)
  {
    var names := ProviderNames(providers, plan);
    if providers[p].name in names {
      var i :| 0 <= i < |names| && names[i] == providers[p].name;
      assert plan[i] in plan && plan[i].provider == p;
    }
    if a :| a in plan && a.provider == p {
      var i :| 0 <= i < |plan| && plan[i] == a;
      assert names[i] == providers[p].name;
    }
  }

  lemma NameStandsFor(s: Settings, providers: seq<ProviderInfo>, model: string, p: nat)
    requires ValidProviders(providers) && p < |providers|
    ensures var mapped := ResolveEquivalentModel(s, providers, model, providers[p].name);
            Usable(s, providers, model, providers[p].name)
            <==> providers[p].SupportsModel(model) || (mapped.Ok? && mapped.value.Some?)
  {
    hide ResolveEquivalentModel;
  }

  lemma MalformedIsRegistered(s: Settings, providers: seq<ProviderInfo>, model: string, n: string)
    requires Malformed(s, providers, model, n)
    ensures exists p: nat :: p < |providers| && providers[p].name == n && !providers[p].SupportsModel(model)
              && ResolveEquivalentModel(s, providers, model, n).Err?
  {
    hide ResolveEquivalentModel;
    assert TryGet(providers, n).Some?;
  }

  /** A pinned provider is asked alone, and for the model as it is; an unknown one is an
      error. */
  lemma PinnedIsAskedAlone(s: Settings, providers: seq<ProviderInfo>, r: ChatRequest, name: string)
    requires r.providerOverride == Some(name) && name != "" && ValidProviders(providers)
    ensures forall p: nat :: p < |providers| && providers[p].name == name ==>
              Plan(s, providers, r) == Ok([Attempt(p, r.model)])
    ensures (forall p: nat :: p < |providers| ==> providers[p].name != name) ==>
              Plan(s, providers, r) == Err(UnknownProvider(name))
  {
  }

  /** Each attempt serves the model, or is the one provider holding its equivalent. */
  lemma PlanIsSound(s: Settings, providers: seq<ProviderInfo>, r: ChatRequest)
    requires !Pinned(r) && Plan(s, providers, r).Ok?
    ensures var plan := Plan(s, providers, r).value;
            && (forall a :: a in plan ==> Sound(s, providers, r.model, a))
            && (forall i, j :: (0 <= i < |plan| && 0 <= j < |plan|
                                && plan[i].model != r.model && plan[j].model != r.model) ==> i == j)
  {
    PlannedNames(s, providers, r);
    PlanIsComplete(s, providers, r);
    var plan := Plan(s, providers, r).value;
    forall i, j | 0 <= i < |plan| && 0 <= j < |plan| && plan[i].model != r.model && plan[j].model != r.model
      ensures i == j
    {
      hide ResolveEquivalentModel, Collect, CandidateNames;
      assert Sound(s, providers, r.model, plan[i]) && Sound(s, providers, r.model, plan[j]);
      OneEquivalentTarget(s, providers, r.model, providers[plan[i].provider].name, providers[plan[j].provider].name);
      assert ProviderNames(providers, plan)[i] == providers[plan[i].provider].name;
      assert ProviderNames(providers, plan)[j] == providers[plan[j].provider].name;
    }
  }

  /** The native provider is asked first, for the model itself. */
  lemma NativeProviderComesFirst(s: Settings, providers: seq<ProviderInfo>, r: ChatRequest)
    requires !Pinned(r) && ValidProviders(providers)
    requires Plan(s, providers, r).Ok? && FindSupporting(providers, r.model).Some?
    ensures var plan := Plan(s, providers, r).value;
            plan != [] && plan[0] == Attempt(FindSupporting(providers, r.model).value, r.model)
  {
    var native := FindSupporting(providers, r.model).value;
    var plan := Plan(s, providers, r).value;
    PlannedNames(s, providers, r);
    CandidatesAre(s, providers, r.model);
    hide Collect, CandidateNames;
    assert TryGet(providers, providers[native].name) == Some(native);
    assert Usable(s, providers, r.model, providers[native].name);
    assert ProviderNames(providers, plan)[0] == providers[native].name;
    assert Sound(s, providers, r.model, plan[0]);
  }

  // ------------------------------------------------------- what falls back

  datatype Report = Report(provider: string, err: ProviderError)

  datatype RoutingError =
    | BadRequest(cause: RegistryError)
    | Exhausted(errors: seq<Report>)
    | Upstream(err: ProviderError)
    | Unexpected

  predicate IsProviderError<R>(answer: Result<R, Raised>) {
    answer.Err? && answer.error.Provider?
  }

  predicate AllFailed<R>(answers: seq<Result<R, Raised>>, n: nat)
    requires n <= |answers|
  {
    forall j :: 0 <= j < n ==> IsProviderError(answers[j])
  }

  predicate AllFellThrough(answers: seq<Streamed>, n: nat)
    requires n <= |answers|
  {
    forall j :: 0 <= j < n ==> FallsThrough(answers[j])
  }

  /** What leaves the router when an attempt's outcome is passed on unchanged. */
  function Surface<R>(answer: Result<R, Raised>): Result<R, RoutingError> {
    match answer
    case Ok(response) => Ok(response)
    case Err(Provider(err)) => Err(Upstream(err))
    case Err(Foreign) => Err(Unexpected)
  }

  /** What each planned provider will answer, from its own breaker's history and script. */
  function Answers<R>(adapters: seq<LLMProvider>, plan: seq<Attempt>, histories: seq<seq<Event>>,
      scripts: nat -> Script<R>)
    : (answers: seq<Result<R, Raised>>)
    requires |histories| == |adapters| && forall i :: 0 <= i < |plan| ==> plan[i].provider < |adapters|
    ensures |answers| == |plan|
    ensures forall i :: 0 <= i < |plan| ==>
              answers[i] == adapters[plan[i].provider].AnswerFrom(histories[plan[i].provider], scripts(i).upstream,
                scripts(i).clock)
  {
    if plan == [] then [] else
    var n := |plan| - 1;
    Answers(adapters, plan[..n], histories, scripts)
    + [adapters[plan[n].provider].AnswerFrom(histories[plan[n].provider], scripts(n).upstream, scripts(n).clock)]
  }

  function StreamAnswers(adapters: seq<LLMProvider>, plan: seq<Attempt>, histories: seq<seq<Event>>,
      scripts: nat -> StreamingScript)
    : (answers: seq<Streamed>)
    requires |histories| == |adapters| && forall i :: 0 <= i < |plan| ==> plan[i].provider < |adapters|
    ensures |answers| == |plan|
    ensures forall i :: 0 <= i < |plan| ==>
              answers[i] == adapters[plan[i].provider].StreamAnswerFrom(histories[plan[i].provider],
                scripts(i).upstream, scripts(i).clock)
  {
    if plan == [] then [] else
    var n := |plan| - 1;
    StreamAnswers(adapters, plan[..n], histories, scripts)
    + [adapters[plan[n].provider].StreamAnswerFrom(histories[plan[n].provider], scripts(n).upstream, scripts(n).clock)]
  }

  /** Index of the first answer that ends the fallback, or the length. */
  function FirstFinal<R>(answers: seq<Result<R, Raised>>): (k: nat)
    ensures k <= |answers|
    ensures forall j :: 0 <= j < k ==> IsProviderError(answers[j])
    ensures k < |answers| ==> !IsProviderError(answers[k])
  {
    if answers == [] || !IsProviderError(answers[0]) then 0 else 1 + FirstFinal(answers[1..])
  }

  /** The first `n` providers tried with their errors, in order. */
  function ErrorsOf<R>(providers: seq<ProviderInfo>, plan: seq<Attempt>, answers: seq<Result<R, Raised>>, n: nat)
    : seq<Report>
    requires Placed(providers, plan) && n <= |plan| == |answers| && AllFailed(answers, n)
  {
    if n == 0 then []
    else
      assert IsProviderError(answers[n - 1]);
      ErrorsOf(providers, plan, answers, n - 1)
        + [Report(providers[plan[n - 1].provider].name, answers[n - 1].error.err)]
  }

  /** The first answer in plan order that is no provider error, or all the errors. */
  function FallBack<R>(providers: seq<ProviderInfo>, plan: seq<Attempt>, answers: seq<Result<R, Raised>>)
    : Result<R, RoutingError>
    requires Placed(providers, plan) && |plan| == |answers|
  {
    var k := FirstFinal(answers);
    if k < |answers| then Surface(answers[k]) else Err(Exhausted(ErrorsOf(providers, plan, answers, |plan|)))
  }

  lemma NoErrorsYet<R>(providers: seq<ProviderInfo>, plan: seq<Attempt>, answers: seq<Result<R, Raised>>)
    requires Placed(providers, plan) && |plan| == |answers|
    ensures AllFailed(answers, 0) && ErrorsOf(providers, plan, answers, 0) == []
  {
  }

  lemma ErrorsGrow<R>(providers: seq<ProviderInfo>, plan: seq<Attempt>, answers: seq<Result<R, Raised>>, n: nat)
    requires Placed(providers, plan) && n < |plan| == |answers| && AllFailed(answers, n) && IsProviderError(answers[n])
    ensures AllFailed(answers, n + 1)
    ensures ErrorsOf(providers, plan, answers, n + 1)
         == ErrorsOf(providers, plan, answers, n) + [Report(providers[plan[n].provider].name, answers[n].error.err)]
  {
  }

  /** The report names every provider of the plan once, in plan order. */
  lemma {:induction false} ReportNamesEveryProvider<R>(providers: seq<ProviderInfo>, plan: seq<Attempt>,
      answers: seq<Result<R, Raised>>, n: nat)
    requires Placed(providers, plan) && n <= |plan| == |answers| && AllFailed(answers, n)
    ensures |ErrorsOf(providers, plan, answers, n)| == n
    ensures forall j :: 0 <= j < n ==>
              ErrorsOf(providers, plan, answers, n)[j] == Report(providers[plan[j].provider].name, answers[j].error.err)
  {
    if n > 0 {
      ReportNamesEveryProvider(providers, plan, answers, n - 1);
    }
  }

  lemma FallBackStops<R>(providers: seq<ProviderInfo>, plan: seq<Attempt>,
      answers: seq<Result<R, Raised>>, i: nat)
    requires Placed(providers, plan) && |plan| == |answers| && i < |plan| && AllFailed(answers, i)
    requires !IsProviderError(answers[i])
    ensures FallBack(providers, plan, answers) == Surface(answers[i]) && FirstFinal(answers) == i
  {
  }

  lemma FallBackFails<R>(providers: seq<ProviderInfo>, plan: seq<Attempt>,
      answers: seq<Result<R, Raised>>)
    requires Placed(providers, plan) && |plan| == |answers| && AllFailed(answers, |plan|)
    ensures FallBack(providers, plan, answers) == Err(Exhausted(ErrorsOf(providers, plan, answers, |plan|)))
            && FirstFinal(answers) == |plan|
  {
  }

  /** A streamed attempt that failed before its first chunk. */
  predicate FallsThrough(answer: Streamed) {
    answer.chunks == [] && IsProviderError(answer.end)
  }

  function EndsOfAnswers(answers: seq<Streamed>): (ends: seq<Result<(), Raised>>)
    ensures |ends| == |answers|
  {
    seq(|answers|, i requires 0 <= i < |answers| => answers[i].end)
  }

  function FirstStreaming(answers: seq<Streamed>): (k: nat)
    ensures k <= |answers|
    ensures forall j :: 0 <= j < k ==> FallsThrough(answers[j])
    ensures k < |answers| ==> !FallsThrough(answers[k])
  {
    if answers == [] || !FallsThrough(answers[0]) then 0 else 1 + FirstStreaming(answers[1..])
  }

  function Chunks(texts: seq<string>): (trace: seq<StreamEvent>)
    ensures |trace| == |texts|
  {
    if texts == [] then [] else Chunks(texts[..|texts| - 1]) + [Chunk(texts[|texts| - 1])]
  }

  /** The callback once, right before the first chunk, and not at all without one. */
  function Announced(a: Attempt, texts: seq<string>): seq<StreamEvent> {
    if texts == [] then [] else [Selected(a)] + Chunks(texts)
  }

  datatype Delivery = Delivery(trace: seq<StreamEvent>, end: Result<(), RoutingError>)

  /** What is observed of the attempt the stream settles on. */
  function StreamFallBack(providers: seq<ProviderInfo>, plan: seq<Attempt>, answers: seq<Streamed>)
    : Delivery
    requires Placed(providers, plan) && |plan| == |answers|
  {
    var k := FirstStreaming(answers);
    if k < |answers|
    then Delivery(Announced(plan[k], answers[k].chunks), Surface(answers[k].end))
    else Delivery([], Err(Exhausted(ErrorsOf(providers, plan, EndsOfAnswers(answers), |plan|))))
  }

  /** One more attempt: it falls through and is reported, or the stream settles on it. */
  lemma StreamFallBackStep(providers: seq<ProviderInfo>, plan: seq<Attempt>,
      answers: seq<Streamed>, i: nat,
      chunks: seq<string>, answer: Result<(), Raised>)
    requires Placed(providers, plan) && i < |plan| == |answers| && AllFellThrough(answers, i)
             && AllFailed(EndsOfAnswers(answers), i)
    requires Streamed(chunks, answer) == answers[i]
    ensures var ends := EndsOfAnswers(answers);
            if IsProviderError(answer) && chunks == [] then
              && AllFellThrough(answers, i + 1) && AllFailed(ends, i + 1)
              && ErrorsOf(providers, plan, ends, i + 1)
                 == ErrorsOf(providers, plan, ends, i) + [Report(providers[plan[i].provider].name, answer.error.err)]
            else
              StreamFallBack(providers, plan, answers) == Delivery(Announced(plan[i], chunks), Surface(answer))
                && FirstStreaming(answers) == i
  {
    if IsProviderError(answer) && chunks == [] {
      ErrorsGrow(providers, plan, EndsOfAnswers(answers), i);
    }
  }

  lemma StreamFallBackFails(providers: seq<ProviderInfo>, plan: seq<Attempt>, answers: seq<Streamed>,
      errors: seq<Report>)
    requires Placed(providers, plan) && |plan| == |answers| && Unsettled(providers, plan, answers, |plan|, errors)
    ensures StreamFallBack(providers, plan, answers) == Delivery([], Err(Exhausted(errors)))
            && FirstStreaming(answers) == |plan|
  {
  }

  /** The first `n` attempts fell through and are reported in `errors`. */
  predicate Unsettled(providers: seq<ProviderInfo>, plan: seq<Attempt>, answers: seq<Streamed>, n: nat,
      errors: seq<Report>)
    requires Placed(providers, plan) && n <= |plan| == |answers|
  {
    && AllFellThrough(answers, n) && AllFailed(EndsOfAnswers(answers), n)
    && errors == ErrorsOf(providers, plan, EndsOfAnswers(answers), n)
  }

  /** A plan holds registered providers, each at most once. */
  ghost predicate Registered(providers: seq<ProviderInfo>, plan: seq<Attempt>) {
    Placed(providers, plan) && forall i, j :: 0 <= i < j < |plan| ==> plan[i].provider != plan[j].provider
  }

  lemma PlanUsesRegistered(s: Settings, providers: seq<ProviderInfo>, r: ChatRequest)
    ensures Plan(s, providers, r).Ok? ==> Registered(providers, Plan(s, providers, r).value)
  {
    if !Pinned(r) && Plan(s, providers, r).Ok? {
      PlanIsComplete(s, providers, r);
      var plan := Plan(s, providers, r).value;
      assert forall i :: 0 <= i < |plan| ==> ProviderNames(providers, plan)[i] == providers[plan[i].provider].name;
    }
  }

  // ------------------------------------------------------ what breakers record

  /** Attempts made when attempt `k` is the last word, if any is. */
  function Tried(k: nat, planned: nat): nat { if k < planned then k + 1 else planned }

  /** `calls[i]` is the number of upstream calls of attempt `i`. A tried provider's
      breaker has recorded exactly these calls' outcomes; no other has moved. */
  ghost predicate Recorded<R>(plan: seq<Attempt>, before: seq<seq<Event>>, after: seq<seq<Event>>,
      scripts: nat -> Script<R>, calls: seq<nat>)
  {
    && |before| == |after| && |calls| <= |plan|
    && (forall i :: 0 <= i < |plan| ==> plan[i].provider < |before|)
    && (forall i :: 0 <= i < |calls| ==>
          after[plan[i].provider]
            == HistoryAfter(before[plan[i].provider], scripts(i).upstream, scripts(i).clock, calls[i]))
    && (forall p :: 0 <= p < |before| && (forall i :: 0 <= i < |calls| ==> plan[i].provider != p) ==>
        after[p] == before[p])
  }

  /** The provider of a further attempt has not been touched yet, and trying it is recorded. */
  lemma RecordOneMore<R>(providers: seq<ProviderInfo>, plan: seq<Attempt>, before: seq<seq<Event>>,
      between: seq<seq<Event>>,
      after: seq<seq<Event>>, scripts: nat -> Script<R>, calls: seq<nat>, n: nat)
    requires Registered(providers, plan) && |before| == |providers| && Recorded(plan, before, between, scripts, calls)
    requires |calls| < |plan|
    requires var i, p := |calls|, plan[|calls|].provider;
             after == between[p := HistoryAfter(between[p], scripts(i).upstream, scripts(i).clock, n)]
    ensures between[plan[|calls|].provider] == before[plan[|calls|].provider]
    ensures Recorded(plan, before, after, scripts, calls + [n])
  {
    hide HistoryAfter;
    var p := plan[|calls|].provider;
    assert forall i :: 0 <= i < |calls| ==> plan[i].provider != p;
    forall q | 0 <= q < |before| && (forall i :: 0 <= i < |calls + [n]| ==> plan[i].provider != q)
      ensures after[q] == before[q]
    {
      assert (calls + [n])[|calls|] == n;
    }
  }

  /** A streaming script as its breaker sees it. */
  function EndsScript(s: StreamingScript): Script<()> { Script(EndsOf(s.upstream), s.clock, s.jitter) }

  function EndsScripts(scripts: nat -> StreamingScript): nat -> Script<()> {
    (i: nat) => EndsScript(scripts(i))
  }

  // ------------------------------------------------------------ single source

  /** The first `n` attempts' calls, `calls[i]` of them by attempt `i`, produced nothing. */
  ghost predicate Silent(scripts: nat -> StreamingScript, calls: seq<nat>, n: nat)
    requires n <= |calls|
  {
    forall i: nat, j: nat :: i < n && j < calls[i] ==> scripts(i).upstream(j).chunks == []
  }

  /** Everything observed comes from the last call of the last attempt tried: all calls
      of the attempts before it and its own calls before the last produced nothing,
      and the last call's chunks follow its attempt's announcement. */
  ghost predicate OneSource(plan: seq<Attempt>, scripts: nat -> StreamingScript, calls: seq<nat>,
      trace: seq<StreamEvent>)
    requires |calls| <= |plan|
  {
    if calls == [] then trace == [] else
    var last := |calls| - 1;
    && Silent(scripts, calls, last)
    && (forall j: nat :: j + 1 < calls[last] ==> scripts(last).upstream(j).chunks == [])
    && trace == if calls[last] == 0 then [] else Announced(plan[last], scripts(last).upstream(calls[last] - 1).chunks)
  }

  /** Of `n` calls only the last can have produced anything, and that is the answer. */
  ghost predicate SpeaksLast(upstream: nat -> StreamScript, n: nat, chunks: seq<string>) {
    && (forall j: nat :: j + 1 < n ==> upstream(j).chunks == [])
    && chunks == if n == 0 then [] else upstream(n - 1).chunks
  }

  /** One provider's retry loop: only its last call can have produced anything. */
  lemma OnlyLastCallSpeaks(p: LLMProvider, h: seq<Event>, upstream: nat -> StreamScript, clock: nat -> real)
    ensures SpeaksLast(upstream, p.StreamCallsFrom(h, upstream, clock), p.StreamAnswerFrom(h, upstream, clock).chunks)
  {
    CallsMadeIsFirstStop(StreamOutcomes(upstream), p.Budget(), 0);
    forall i: nat | i < CallsMade(StreamOutcomes(upstream), p.Budget(), 0) - 1
      ensures upstream(i).chunks == []
    {
      assert StreamOutcomes(upstream)(i).WorthRetrying();
    }
  }

  /** The fallback loop on top: attempts that fell through produced nothing at all. */
  lemma {:induction false} FallBackIsOneSource(providers: seq<ProviderInfo>, plan: seq<Attempt>,
      scripts: nat -> StreamingScript,
      calls: seq<nat>, answers: seq<Streamed>)
    requires Placed(providers, plan) && |plan| == |answers| && |calls| == Tried(FirstStreaming(answers), |plan|)
    requires forall i: nat :: i < |calls| ==> SpeaksLast(scripts(i).upstream, calls[i], answers[i].chunks)
    ensures OneSource(plan, scripts, calls, StreamFallBack(providers, plan, answers).trace)
    ensures FirstStreaming(answers) == |plan| ==>
              Silent(scripts, calls, |calls|) && StreamFallBack(providers, plan, answers).trace == []
  {
    var k := FirstStreaming(answers);
    if k < |plan| {
      SilentSoFar(scripts, calls, answers, k);
      hide StreamFallBack, SpeaksLast;
      SettledIsOneSource(plan, scripts, calls, answers[k].chunks);
      assert StreamFallBack(providers, plan, answers).trace == Announced(plan[k], answers[k].chunks) by {
        SettlesAtFirst(providers, plan, answers);
      }
    } else {
      SilentSoFar(scripts, calls, answers, |calls|);
      if calls != [] {
        assert FallsThrough(answers[|calls| - 1]);
        SettledIsOneSource(plan, scripts, calls, []);
      }
    }
  }

  lemma SilentSoFar(scripts: nat -> StreamingScript, calls: seq<nat>, answers: seq<Streamed>, n: nat)
    requires n <= |calls| <= |answers| && AllFellThrough(answers, n)
    requires forall i: nat :: i < n ==> SpeaksLast(scripts(i).upstream, calls[i], answers[i].chunks)
    ensures Silent(scripts, calls, n)
  {
    forall i: nat, j: nat | i < n && j < calls[i]
      ensures scripts(i).upstream(j).chunks == []
    {
      assert SpeaksLast(scripts(i).upstream, calls[i], answers[i].chunks) && FallsThrough(answers[i]);
    }
  }

  lemma SettledIsOneSource(plan: seq<Attempt>, scripts: nat -> StreamingScript, calls: seq<nat>,
      chunks: seq<string>)
    requires 0 < |calls| <= |plan| && Silent(scripts, calls, |calls| - 1)
    requires SpeaksLast(scripts(|calls| - 1).upstream, calls[|calls| - 1], chunks)
    ensures OneSource(plan, scripts, calls, Announced(plan[|calls| - 1], chunks))
  {
    hide Silent;
  }

  lemma SettlesAtFirst(providers: seq<ProviderInfo>, plan: seq<Attempt>, answers: seq<Streamed>)
    requires Placed(providers, plan) && |plan| == |answers| && FirstStreaming(answers) < |plan|
    ensures var k := FirstStreaming(answers);
            StreamFallBack(providers, plan, answers)
              == Delivery(Announced(plan[k], answers[k].chunks), Surface(answers[k].end))
  {
  }

  /** Streams never mix sources, through retries and fallback alike: with the calls
      each provider's history and script lead to, all that is observed comes from one
      call of one attempt, and if no attempt settles, nothing is. */
  lemma StreamsNeverMix(providers: seq<ProviderInfo>, adapters: seq<LLMProvider>, plan: seq<Attempt>,
      histories: seq<seq<Event>>, scripts: nat -> StreamingScript, calls: seq<nat>)
    requires Placed(providers, plan) && |histories| == |adapters| == |providers|
    requires var k := FirstStreaming(StreamAnswers(adapters, plan, histories, scripts));
             |calls| == Tried(k, |plan|)
    requires forall i :: 0 <= i < |calls| ==>
               var p := plan[i].provider;
               calls[i] == adapters[p].StreamCallsFrom(histories[p], scripts(i).upstream, scripts(i).clock)
    ensures var answers := StreamAnswers(adapters, plan, histories, scripts);
            var trace := StreamFallBack(providers, plan, answers).trace;
            && OneSource(plan, scripts, calls, trace)
            && (FirstStreaming(answers) == |plan| ==> Silent(scripts, calls, |calls|) && trace == [])
  {
    hide SpeaksLast, StreamFallBack, OneSource, Silent;
    var answers := StreamAnswers(adapters, plan, histories, scripts);
    forall i: nat | i < |calls|
      ensures SpeaksLast(scripts(i).upstream, calls[i], answers[i].chunks)
    {
      OnlyLastCallSpeaks(adapters[plan[i].provider], histories[plan[i].provider], scripts(i).upstream,
        scripts(i).clock);
    }
    FallBackIsOneSource(providers, plan, scripts, calls, answers);
  }

  /** What the fallback comes to: the first answer that is no provider error, response or
      crash, or everyone's errors in plan order. */
  lemma FallBackMeans<R>(providers: seq<ProviderInfo>, plan: seq<Attempt>, answers: seq<Result<R, Raised>>)
    requires Placed(providers, plan) && |plan| == |answers|
    ensures var k, result := FirstFinal(answers), FallBack(providers, plan, answers);
            if k < |plan| then
              match answers[k]
              case Ok(response) => result == Ok(response)
              case Err(_) => answers[k] == Err(Foreign) && result == Err(Unexpected)
            else
              && result.Err? && result.error.Exhausted? && |result.error.errors| == |plan|
              && forall i :: 0 <= i < |plan| ==>
                   answers[i].Err? && answers[i].error.Provider?
                     && result.error.errors[i] == Report(providers[plan[i].provider].name, answers[i].error.err)
  {
    if FirstFinal(answers) == |plan| {
      ReportNamesEveryProvider(providers, plan, answers, |plan|);
    }
  }

  /** Likewise for streams; an error after the first chunk is raised as itself. */
  lemma StreamFallBackMeans(providers: seq<ProviderInfo>, plan: seq<Attempt>, answers: seq<Streamed>)
    requires Placed(providers, plan) && |plan| == |answers|
    ensures var k, d := FirstStreaming(answers), StreamFallBack(providers, plan, answers);
            if k < |plan| then
              match answers[k].end
              case Ok(done) => d.end == Ok(done)
              case Err(Provider(err)) => answers[k].chunks != [] && d.end == Err(Upstream(err))
              case Err(Foreign) => d.end == Err(Unexpected)
            else
              && d.end.Err? && d.end.error.Exhausted? && |d.end.error.errors| == |plan|
              && forall i :: 0 <= i < |plan| ==>
                   answers[i].end.Err? && answers[i].end.error.Provider?
                     && d.end.error.errors[i] == Report(providers[plan[i].provider].name, answers[i].end.error.err)
  {
    if FirstStreaming(answers) == |plan| {
      ReportNamesEveryProvider(providers, plan, EndsOfAnswers(answers), |plan|);
    }
  }

  // ----------------------------------------------------- how an attempt ends

  /** What the router hears from each attempt: what its last call came to, or nothing when
      the breaker let none through. */
  function Heard<R>(scripts: nat -> Script<R>, calls: seq<nat>): (heard: seq<Option<Outcome<R>>>)
    ensures |heard| == |calls|
    ensures forall i :: 0 <= i < |calls| ==>
              heard[i] == if calls[i] == 0 then None else Some(scripts(i).upstream(calls[i] - 1))
  {
    seq(|calls|, i requires 0 <= i < |calls| =>
      if calls[i] == 0 then None else Some(scripts(i).upstream(calls[i] - 1)))
  }

  /** The error an attempt is left with: the provider's own, or that it was not asked. */
  function ErrorHeard<R>(name: string, heard: Option<Outcome<R>>): ProviderError
    requires heard.Some? ==> heard.value.Failed?
  {
    if heard.None? then Unavailable(name) else heard.value.err
  }

  /** An answer passes on what was heard. */
  predicate Echoes<R(==)>(answer: Result<R, Raised>, name: string, heard: Option<Outcome<R>>) {
    match heard
    case None => answer == Err(Provider(Unavailable(name)))
    case Some(Answered(response)) => answer == Ok(response)
    case Some(Failed(err)) => answer == Err(Provider(err))
    case Some(Crashed) => answer == Err(Foreign)
  }

  /** A provider's answer is what its last call came to, or its refusal without a call. */
  lemma AttemptEnds<R>(p: LLMProvider, h: seq<Event>, upstream: nat -> Outcome<R>, clock: nat -> real)
    ensures var n := p.CallsFrom(h, upstream, clock);
            Echoes(p.AnswerFrom(h, upstream, clock), p.info.name, if n == 0 then None else Some(upstream(n - 1)))
  {
  }

  lemma StreamAttemptEnds(p: LLMProvider, h: seq<Event>, upstream: nat -> StreamScript, clock: nat -> real)
    ensures var answer, n := p.StreamAnswerFrom(h, upstream, clock), p.StreamCallsFrom(h, upstream, clock);
            && answer.chunks == (if n == 0 then [] else upstream(n - 1).chunks)
            && Echoes(answer.end, p.info.name, if n == 0 then None else Some(upstream(n - 1).end))
  {
  }

  /** One entry for each attempt of the plan, with its provider's name and error. */
  predicate AllReported<R(==)>(providers: seq<ProviderInfo>, plan: seq<Attempt>, heard: seq<Option<Outcome<R>>>,
      errors: seq<Report>)
    requires Placed(providers, plan) && |heard| == |plan|
  {
    && |errors| == |plan|
    && forall i :: 0 <= i < |plan| ==>
         && (heard[i].Some? ==> heard[i].value.Failed?)
         && var name := providers[plan[i].provider].name;
            errors[i] == Report(name, ErrorHeard(name, heard[i]))
  }

  /** The first answer that is no provider error is told as it was heard, after nothing but
      failures and refusals; without one, everyone's errors are, in plan order. */
  predicate Told<R(==)>(providers: seq<ProviderInfo>, plan: seq<Attempt>, heard: seq<Option<Outcome<R>>>,
      result: Result<R, RoutingError>)
    requires Placed(providers, plan) && |heard| <= |plan|
  {
    var n := |heard|;
    && (result.Ok? <==> n > 0 && heard[n - 1].Some? && heard[n - 1].value.Answered?)
    && (result.Ok? ==> result.value == heard[n - 1].value.response)
    && (result == Err(Unexpected) <==> n > 0 && heard[n - 1] == Some(Crashed))
    && (forall i :: 0 <= i < n - 1 ==> heard[i].Some? ==> heard[i].value.Failed?)
    && (result.Err? && result.error != Unexpected ==>
          n == |plan| && result.error.Exhausted? && AllReported(providers, plan, heard, result.error.errors))
  }

  lemma ToldAsHeard<R>(providers: seq<ProviderInfo>, plan: seq<Attempt>, answers: seq<Result<R, Raised>>,
      heard: seq<Option<Outcome<R>>>)
    requires Placed(providers, plan) && |plan| == |answers| && |heard| == Tried(FirstFinal(answers), |plan|)
    requires forall i :: 0 <= i < |heard| ==> Echoes(answers[i], providers[plan[i].provider].name, heard[i])
    ensures Told(providers, plan, heard, FallBack(providers, plan, answers))
  {
    hide FirstFinal, FallBack;
    FallBackMeans(providers, plan, answers);
  }

  /** A stream ends as its last call does, and an error is raised as itself if that call
      `spoke` before; without a word from anyone, everyone's errors are told, in plan order. */
  predicate StreamTold(providers: seq<ProviderInfo>, plan: seq<Attempt>, heard: seq<Option<Outcome<()>>>, spoke: bool,
      end: Result<(), RoutingError>)
    requires Placed(providers, plan) && |heard| <= |plan|
  {
    var n := |heard|;
    && (end.Ok? <==> n > 0 && heard[n - 1].Some? && heard[n - 1].value.Answered?)
    && (end == Err(Unexpected) <==> n > 0 && heard[n - 1] == Some(Crashed))
    && (end.Err? && end.error.Upstream?
        <==> n > 0 && heard[n - 1].Some? && heard[n - 1].value.Failed? && spoke)
    && (end.Err? && end.error.Upstream? ==> end.error.err == heard[n - 1].value.err)
    && (forall i :: 0 <= i < n - 1 ==> heard[i].Some? ==> heard[i].value.Failed?)
    && (end.Err? && end.error != Unexpected && !end.error.Upstream? ==>
          n == |plan| && end.error.Exhausted? && AllReported(providers, plan, heard, end.error.errors))
  }

  /** The last call of the last attempt produced something. */
  predicate Spoke(scripts: nat -> StreamingScript, calls: seq<nat>) {
    calls != [] && calls[|calls| - 1] > 0
      && scripts(|calls| - 1).upstream(calls[|calls| - 1] - 1).chunks != []
  }

  /** The answers pass on what was heard: ends and chunks. */
  ghost predicate AllEcho(providers: seq<ProviderInfo>, plan: seq<Attempt>, answers: seq<Streamed>,
      scripts: nat -> StreamingScript, calls: seq<nat>)
    requires Placed(providers, plan) && |calls| <= |plan| == |answers|
  {
    forall i :: 0 <= i < |calls| ==>
      && Echoes(answers[i].end, providers[plan[i].provider].name, Heard(EndsScripts(scripts), calls)[i])
      && answers[i].chunks == if calls[i] == 0 then [] else scripts(i).upstream(calls[i] - 1).chunks
  }

  lemma StreamToldAsHeard(providers: seq<ProviderInfo>, plan: seq<Attempt>, answers: seq<Streamed>,
      scripts: nat -> StreamingScript, calls: seq<nat>)
    requires Placed(providers, plan) && |plan| == |answers| && |calls| == Tried(FirstStreaming(answers), |plan|)
    requires AllEcho(providers, plan, answers, scripts, calls)
    ensures StreamTold(providers, plan, Heard(EndsScripts(scripts), calls), Spoke(scripts, calls),
            StreamFallBack(providers, plan, answers).end)
  {
    hide FirstStreaming, StreamFallBack, Heard, EndsScripts;
    StreamFallBackMeans(providers, plan, answers);
  }

  /** Nothing, or the attempt, once, and then the chunks of its last call. */
  ghost predicate ShowsOneCall(plan: seq<Attempt>, scripts: nat -> StreamingScript, calls: seq<nat>,
      trace: seq<StreamEvent>)
    requires |calls| <= |plan|
  {
    if !Spoke(scripts, calls) then trace == []
    else
      var last := |calls| - 1;
      var texts := scripts(last).upstream(calls[last] - 1).chunks;
      && |trace| == |texts| + 1 && trace[0] == Selected(plan[last])
      && forall j :: 0 <= j < |texts| ==> trace[j + 1] == Chunk(texts[j])
  }

  lemma SourceIsShown(plan: seq<Attempt>, scripts: nat -> StreamingScript, calls: seq<nat>, trace: seq<StreamEvent>)
    requires |calls| <= |plan| && OneSource(plan, scripts, calls, trace)
    ensures ShowsOneCall(plan, scripts, calls, trace)
  {
    hide Silent;
    if Spoke(scripts, calls) {
      var last := |calls| - 1;
      AnnouncedOnceThenChunks(plan[last], scripts(last).upstream(calls[last] - 1).chunks);
    }
  }

  lemma AnnouncedOnceThenChunks(a: Attempt, texts: seq<string>)
    requires texts != []
    ensures var trace := Announced(a, texts);
            && |trace| == |texts| + 1 && trace[0] == Selected(a)
            && forall j :: 0 <= j < |texts| ==> trace[j + 1] == Chunk(texts[j])
  {
    ChunksInOrder(texts);
  }

  lemma {:induction false} ChunksInOrder(texts: seq<string>)
    ensures forall j :: 0 <= j < |texts| ==> Chunks(texts)[j] == Chunk(texts[j])
    decreases |texts|
  {
    if texts != [] {
      ChunksInOrder(texts[..|texts| - 1]);
    }
  }

  // ----------------------------------------------------------------- service

  /** The service's registered providers, each with its own breaker. */
  class RoutingService {
    const settings: Settings
    const providers: seq<ProviderInfo>
    const adapters: seq<LLMProvider>

    constructor (settings: Settings, providers: seq<ProviderInfo>, adapters: seq<LLMProvider>)
      ensures this.settings == settings && this.providers == providers && this.adapters == adapters
    {
      this.settings, this.providers, this.adapters := settings, providers, adapters;
    }

    ghost function Breakers(): set<object> {
      set i | 0 <= i < |adapters| :: adapters[i].breaker
    }

    /** One adapter per registered provider, no two sharing a breaker. */
    ghost predicate WellFormed() {
      && |adapters| == |providers|
      && (forall i :: 0 <= i < |adapters| ==> adapters[i].info == providers[i])
      && (forall i, j :: 0 <= i < j < |adapters| ==> adapters[i].breaker != adapters[j].breaker)
    }

    ghost predicate Valid()
      reads Breakers()
    {
      WellFormed() && forall i :: 0 <= i < |adapters| ==> adapters[i].breaker.Valid()
    }

    /** What each adapter's breaker has recorded. */
    ghost function Histories(): (h: seq<seq<Event>>)
      reads Breakers()
      ensures |h| == |adapters| && forall i :: 0 <= i < |h| ==> h[i] == adapters[i].breaker.history
    {
      seq(|adapters|, i requires 0 <= i < |adapters| reads Breakers() => adapters[i].breaker.history)
    }

    /** Builds the plan in place, name by name. */
    method ResolveAttempts(r: ChatRequest) returns (plan: Result<seq<Attempt>, RegistryError>)
      ensures plan == Plan(settings, providers, r)
    {
      if Pinned(r) {
        var p := TryGet(providers, r.providerOverride.value);
        return if p.None? then Err(UnknownProvider(r.providerOverride.value)) else Ok([Attempt(p.value, r.model)]);
      }
      var orderedNames: seq<string> := [];
      var primary := FindSupporting(providers, r.model);
      if primary.Some? {
        orderedNames := orderedNames + [providers[primary.value].name];
      }
      ghost var first := orderedNames;
      for i := 0 to |settings.fallbackChain|
        invariant AddNew(orderedNames, settings.fallbackChain[i..]) == AddNew(first, settings.fallbackChain)
      {
        var name := settings.fallbackChain[i];
        assert settings.fallbackChain[i..][1..] == settings.fallbackChain[i + 1..];
        if name !in orderedNames {
          orderedNames := orderedNames + [name];
        }
      }
      assert orderedNames == CandidateNames(settings, providers, r.model) by {
        assert first == if primary.Some? then [providers[primary.value].name] else [];
        assert settings.fallbackChain[|settings.fallbackChain|..] == [];
      }
      hide CandidateNames, AddNew, FindSupporting;
      var attempts: seq<Attempt> := [];
      for i := 0 to |orderedNames|
        invariant Collect(settings, providers, r.model, orderedNames[i..], attempts)
               == Collect(settings, providers, r.model, orderedNames, [])
      {
        var name := orderedNames[i];
        assert orderedNames[i..][1..] == orderedNames[i + 1..];
        var provider := TryGet(providers, name);
        if provider.None? {
          continue;
        }
        if providers[provider.value].SupportsModel(r.model) {
          attempts := attempts + [Attempt(provider.value, r.model)];
          continue;
        }
        match ResolveEquivalentModel(settings, providers, r.model, name) {
          case Err(e) =>
            assert AttemptFor(settings, providers, r.model, name) == Err(e);
            return Err(e);
          case Ok(equivalent) =>
            if equivalent.Some? {
              attempts := attempts + [Attempt(provider.value, equivalent.value)];
            }
        }
      }
      return Ok(attempts);
    }

    /** The calls each tried attempt makes, from its provider's own history and script. */
    ghost predicate CallsAre<R>(plan: seq<Attempt>, histories: seq<seq<Event>>, scripts: nat -> Script<R>,
        calls: seq<nat>)
      requires |histories| == |adapters| && |calls| <= |plan|
      requires forall i :: 0 <= i < |plan| ==> plan[i].provider < |adapters|
    {
      forall i :: 0 <= i < |calls| ==>
        calls[i] == adapters[plan[i].provider].CallsFrom(histories[plan[i].provider], scripts(i).upstream,
          scripts(i).clock)
    }

    ghost predicate StreamCallsAre(plan: seq<Attempt>, histories: seq<seq<Event>>, scripts: nat -> StreamingScript,
        calls: seq<nat>)
      requires |histories| == |adapters| && |calls| <= |plan|
      requires forall i :: 0 <= i < |plan| ==> plan[i].provider < |adapters|
    {
      forall i :: 0 <= i < |calls| ==>
        calls[i] == adapters[plan[i].provider].StreamCallsFrom(histories[plan[i].provider], scripts(i).upstream,
          scripts(i).clock)
    }

    /** One attempt moves only its own provider's breaker. */
    method Try<R>(p: nat, script: Script<R>) returns (answer: Result<R, Raised>, calls: nat)
      requires Valid() && p < |adapters|
      modifies Breakers()
      ensures Valid() && answer == adapters[p].AnswerFrom(old(Histories())[p], script.upstream, script.clock)
      ensures calls == adapters[p].CallsFrom(old(Histories())[p], script.upstream, script.clock)
      ensures Histories()
              == old(Histories())[p := HistoryAfter(old(Histories())[p], script.upstream, script.clock, calls)]
    {
      hide FieldsOf, Refused, HistoryAfter, CallsMade;
      var slept;
      answer, calls, slept := adapters[p].Complete(script.upstream, script.clock, script.jitter);
    }

    method TryStream(p: nat, script: StreamingScript)
      returns (chunks: seq<string>, answer: Result<(), Raised>, calls: nat)
      requires Valid() && p < |adapters|
      modifies Breakers()
      ensures Valid() && Streamed(chunks, answer)
              == adapters[p].StreamAnswerFrom(old(Histories())[p], script.upstream, script.clock)
      ensures calls == adapters[p].StreamCallsFrom(old(Histories())[p], script.upstream, script.clock)
      ensures Histories()
              == old(Histories())[p := HistoryAfter(old(Histories())[p], EndsScript(script).upstream,
                script.clock, calls)]
    {
      hide FieldsOf, Refused, HistoryAfter, CallsMade;
      var slept;
      chunks, answer, calls, slept := adapters[p].Stream(script.upstream, script.clock, script.jitter);
    }

    /** So far the attempts listed in `calls` were made, and nothing else happened. */
    ghost predicate Tracked<R>(plan: seq<Attempt>, histories: seq<seq<Event>>, scripts: nat -> Script<R>,
        calls: seq<nat>)
      reads Breakers()
    {
      && Registered(providers, plan) && |histories| == |providers| == |adapters|
      && Recorded(plan, histories, Histories(), scripts, calls)
      && CallsAre(plan, histories, scripts, calls)
    }

    ghost predicate StreamTracked(plan: seq<Attempt>, histories: seq<seq<Event>>, scripts: nat -> StreamingScript,
        calls: seq<nat>)
      reads Breakers()
    {
      && Registered(providers, plan) && |histories| == |providers| == |adapters|
      && Recorded(plan, histories, Histories(), EndsScripts(scripts), calls)
      && StreamCallsAre(plan, histories, scripts, calls)
    }

    /** The request was served by the attempts listed in `calls`, and ended in `result`. */
    ghost predicate Served<R>(plan: seq<Attempt>, histories: seq<seq<Event>>, scripts: nat -> Script<R>,
        result: Result<R, RoutingError>, calls: seq<nat>)
      reads Breakers()
    {
      && Tracked(plan, histories, scripts, calls)
      && var answers := Answers(adapters, plan, histories, scripts);
         && |calls| == Tried(FirstFinal(answers), |plan|)
         && result == FallBack(providers, plan, answers)
    }

    /** The stream was served by the attempts listed in `calls`; what was observed is
        what the fallback prescribes, and comes from one upstream call. */
    ghost predicate StreamServed(plan: seq<Attempt>, histories: seq<seq<Event>>, scripts: nat -> StreamingScript,
        d: Delivery, calls: seq<nat>)
      reads Breakers()
    {
      && StreamTracked(plan, histories, scripts, calls)
      && OneSource(plan, scripts, calls, d.trace)
      && var answers := StreamAnswers(adapters, plan, histories, scripts);
         && |calls| == Tried(FirstStreaming(answers), |plan|)
         && d == StreamFallBack(providers, plan, answers)
    }

    /** What becomes of a request: served by its plan, or turned away without one. */
    ghost predicate Answered<R>(r: ChatRequest, histories: seq<seq<Event>>, scripts: nat -> Script<R>,
        result: Result<R, RoutingError>, calls: seq<nat>)
      reads Breakers()
    {
      match Plan(settings, providers, r)
      case Err(e) => result == Err(BadRequest(e)) && calls == [] && Histories() == histories
      case Ok(plan) => Served(plan, histories, scripts, result, calls)
    }

    ghost predicate StreamAnswered(r: ChatRequest, histories: seq<seq<Event>>, scripts: nat -> StreamingScript,
        d: Delivery, calls: seq<nat>)
      reads Breakers()
    {
      match Plan(settings, providers, r)
      case Err(e) => d == Delivery([], Err(BadRequest(e))) && calls == [] && Histories() == histories
      case Ok(plan) => StreamServed(plan, histories, scripts, d, calls)
    }

    lemma HeardFrom<R>(plan: seq<Attempt>, histories: seq<seq<Event>>, scripts: nat -> Script<R>, calls: seq<nat>,
        i: nat)
      requires WellFormed() && Placed(providers, plan) && |histories| == |providers| && i < |calls| <= |plan|
      requires CallsAre(plan, histories, scripts, calls)
      ensures Echoes(Answers(adapters, plan, histories, scripts)[i], providers[plan[i].provider].name,
              Heard(scripts, calls)[i])
    {
      hide Answers, LLMProvider.AnswerFrom, LLMProvider.CallsFrom, Echoes;
      var p := plan[i].provider;
      AttemptEnds(adapters[p], histories[p], scripts(i).upstream, scripts(i).clock);
    }

    lemma HeardOfStream(plan: seq<Attempt>, histories: seq<seq<Event>>, scripts: nat -> StreamingScript,
        calls: seq<nat>, i: nat)
      requires WellFormed() && Placed(providers, plan) && |histories| == |providers| && i < |calls| <= |plan|
      requires StreamCallsAre(plan, histories, scripts, calls)
      ensures var answer := StreamAnswers(adapters, plan, histories, scripts)[i];
              && Echoes(answer.end, providers[plan[i].provider].name, Heard(EndsScripts(scripts), calls)[i])
              && answer.chunks == if calls[i] == 0 then [] else scripts(i).upstream(calls[i] - 1).chunks
    {
      hide StreamAnswers, LLMProvider.StreamAnswerFrom, LLMProvider.StreamCallsFrom, Echoes;
      var p := plan[i].provider;
      StreamAttemptEnds(adapters[p], histories[p], scripts(i).upstream, scripts(i).clock);
    }

    /** What the caller is told is what was heard from the providers tried. */
    lemma CompletionsAreTold<R>(r: ChatRequest, histories: seq<seq<Event>>, scripts: nat -> Script<R>,
        result: Result<R, RoutingError>, calls: seq<nat>)
      requires WellFormed() && Answered(r, histories, scripts, result, calls) && Plan(settings, providers, r).Ok?
      ensures var plan := Plan(settings, providers, r).value;
              |calls| <= |plan| && Told(providers, plan, Heard(scripts, calls), result)
    {
      var plan := Plan(settings, providers, r).value;
      hide Plan, Recorded, Answers, FallBack, FirstFinal, CallsAre, WellFormed, Told, Heard, Echoes;
      var answers, heard := Answers(adapters, plan, histories, scripts), Heard(scripts, calls);
      forall i | 0 <= i < |heard|
        ensures Echoes(answers[i], providers[plan[i].provider].name, heard[i])
      {
        HeardFrom(plan, histories, scripts, calls, i);
      }
      ToldAsHeard(providers, plan, answers, heard);
    }

    lemma AllHeard(plan: seq<Attempt>, histories: seq<seq<Event>>, scripts: nat -> StreamingScript, calls: seq<nat>)
      requires WellFormed() && Placed(providers, plan) && |histories| == |providers| && |calls| <= |plan|
      requires StreamCallsAre(plan, histories, scripts, calls)
      ensures AllEcho(providers, plan, StreamAnswers(adapters, plan, histories, scripts), scripts, calls)
    {
      hide StreamAnswers, StreamCallsAre, Heard, Echoes;
      var answers := StreamAnswers(adapters, plan, histories, scripts);
      forall i | 0 <= i < |calls|
        ensures Echoes(answers[i].end, providers[plan[i].provider].name, Heard(EndsScripts(scripts), calls)[i])
        ensures answers[i].chunks == if calls[i] == 0 then [] else scripts(i).upstream(calls[i] - 1).chunks
      {
        HeardOfStream(plan, histories, scripts, calls, i);
      }
    }

    /** Likewise for streams. */
    lemma StreamsAreTold(r: ChatRequest, histories: seq<seq<Event>>, scripts: nat -> StreamingScript,
        d: Delivery, calls: seq<nat>)
      requires WellFormed() && StreamAnswered(r, histories, scripts, d, calls) && Plan(settings, providers, r).Ok?
      ensures var plan := Plan(settings, providers, r).value;
              |calls| <= |plan|
                && StreamTold(providers, plan, Heard(EndsScripts(scripts), calls), Spoke(scripts, calls), d.end)
    {
      hide Plan, StreamAnswers, StreamFallBack, FirstStreaming, OneSource, StreamCallsAre, WellFormed, StreamTold,
           Recorded, AllEcho, Heard, Spoke;
      var plan := Plan(settings, providers, r).value;
      AllHeard(plan, histories, scripts, calls);
      StreamToldAsHeard(providers, plan, StreamAnswers(adapters, plan, histories, scripts), scripts, calls);
    }

    /** What is observed of a stream: nothing, or the attempt served by, once, and then the
        chunks of its last call. */
    lemma StreamsShowTheProviders(r: ChatRequest, histories: seq<seq<Event>>, scripts: nat -> StreamingScript,
        d: Delivery, calls: seq<nat>)
      requires StreamAnswered(r, histories, scripts, d, calls) && Plan(settings, providers, r).Ok?
      ensures |calls| <= |Plan(settings, providers, r).value|
      ensures ShowsOneCall(Plan(settings, providers, r).value, scripts, calls, d.trace)
    {
      hide Plan, StreamAnswers, StreamFallBack, FirstStreaming, OneSource, StreamCallsAre, Recorded, ShowsOneCall;
      SourceIsShown(Plan(settings, providers, r).value, scripts, calls, d.trace);
    }

    method TryNext<R>(plan: seq<Attempt>, scripts: nat -> Script<R>, calls: seq<nat>,
        ghost histories: seq<seq<Event>>, ghost answers: seq<Result<R, Raised>>)
      returns (answer: Result<R, Raised>, calls': seq<nat>)
      requires Valid() && Tracked(plan, histories, scripts, calls) && |calls| < |plan|
      requires answers == Answers(adapters, plan, histories, scripts)
      modifies Breakers()
      ensures Valid() && Tracked(plan, histories, scripts, calls') && |calls'| == |calls| + 1
              && answer == answers[|calls|]
    {
      hide HistoryAfter, Valid, WellFormed;
      ghost var between := Histories();
      var n;
      answer, n := Try(plan[|calls|].provider, scripts(|calls|));
      RecordOneMore(providers, plan, histories, between, Histories(), scripts, calls, n);
      calls' := calls + [n];
    }

    method TryNextStream(plan: seq<Attempt>, scripts: nat -> StreamingScript, calls: seq<nat>,
        ghost histories: seq<seq<Event>>, ghost answers: seq<Streamed>)
      returns (chunks: seq<string>, answer: Result<(), Raised>, calls': seq<nat>)
      requires Valid() && StreamTracked(plan, histories, scripts, calls) && |calls| < |plan|
      requires answers == StreamAnswers(adapters, plan, histories, scripts)
      modifies Breakers()
      ensures Valid() && StreamTracked(plan, histories, scripts, calls')
      ensures |calls'| == |calls| + 1 && Streamed(chunks, answer) == answers[|calls|]
    {
      hide HistoryAfter, Valid, WellFormed;
      ghost var between := Histories();
      var n;
      chunks, answer, n := TryStream(plan[|calls|].provider, scripts(|calls|));
      RecordOneMore(providers, plan, histories, between, Histories(), EndsScripts(scripts), calls, n);
      calls' := calls + [n];
    }

    /** What to do with attempt `k`'s stream: settle on it, or report its error. */
    method Settle(plan: seq<Attempt>, k: nat, chunks: seq<string>, answer: Result<(), Raised>, errors: seq<Report>,
        ghost answers: seq<Streamed>)
      returns (settled: bool, d: Delivery, errors': seq<Report>)
      requires Placed(providers, plan) && k < |plan| == |answers| && Streamed(chunks, answer) == answers[k]
      requires Unsettled(providers, plan, answers, k, errors)
      ensures settled <==> !FallsThrough(Streamed(chunks, answer))
      ensures if settled then d == StreamFallBack(providers, plan, answers) && FirstStreaming(answers) == k
              else Unsettled(providers, plan, answers, k + 1, errors')
    {
      StreamFallBackStep(providers, plan, answers, k, chunks, answer);
      hide StreamFallBack, ErrorsOf;
      var trace, yieldedAny := Forward(chunks, plan[k]);
      d := Delivery(trace, Surface(answer));
      if !IsProviderError(answer) {
        return true, d, errors;
      }
      errors' := errors + [Report(providers[plan[k].provider].name, answer.error.err)];
      settled := yieldedAny;
    }

    /** Offers the request to the planned providers in turn; `scripts(i)` is what
        attempt `i` would meet. The first answer that is not a provider error is the
        result; otherwise every provider tried is reported once, in order. `calls`
        lists the upstream calls of the attempts tried; only their breakers move. */
    method Complete<R>(r: ChatRequest, scripts: nat -> Script<R>)
      returns (result: Result<R, RoutingError>, calls: seq<nat>)
      requires Valid()
      modifies Breakers()
      ensures Valid() && Answered(r, old(Histories()), scripts, result, calls)
    {
      var resolved := ResolveAttempts(r);
      if resolved.Err? {
        return Err(BadRequest(resolved.error)), [];
      }
      PlanUsesRegistered(settings, providers, r);
      ghost var histories := Histories();
      assert Tracked(resolved.value, histories, scripts, []);
      hide Registered, Placed, Valid, WellFormed, Plan, Served;
      result, calls := CompletePlan(resolved.value, scripts, histories,
        Answers(adapters, resolved.value, histories, scripts));
    }

    method CompletePlan<R>(plan: seq<Attempt>, scripts: nat -> Script<R>,
        ghost histories: seq<seq<Event>>, ghost answers: seq<Result<R, Raised>>)
      returns (result: Result<R, RoutingError>, calls: seq<nat>)
      requires Valid() && Tracked(plan, histories, scripts, [])
      requires answers == Answers(adapters, plan, histories, scripts)
      modifies Breakers()
      ensures Valid() && Served(plan, histories, scripts, result, calls)
    {
      NoErrorsYet(providers, plan, answers);
      hide Valid, WellFormed, AllFailed, ErrorsOf, FallBack, Surface, Tracked, Registered;
      var errors: seq<Report> := [];
      calls := [];
      for i := 0 to |plan|
        invariant Valid() && Tracked(plan, histories, scripts, calls) && |calls| == i
        invariant AllFailed(answers, i) && errors == ErrorsOf(providers, plan, answers, i)
      {
        var answer;
        answer, calls := TryNext(plan, scripts, calls, histories, answers);
        if !IsProviderError(answer) {
          FallBackStops(providers, plan, answers, i);
          return Surface(answer), calls;
        }
        ErrorsGrow(providers, plan, answers, i);
        errors := errors + [Report(providers[plan[i].provider].name, answer.error.err)];
      }
      FallBackFails(providers, plan, answers);
      return Err(Exhausted(errors)), calls;
    }

    /** Streams from the first planned provider that delivers a chunk, finishes, or
        fails otherwise. Whatever the scripts, all that is observed comes from one
        upstream call, announced once before its first chunk. */
    method Stream(r: ChatRequest, scripts: nat -> StreamingScript)
      returns (trace: seq<StreamEvent>, end: Result<(), RoutingError>, calls: seq<nat>)
      requires Valid()
      modifies Breakers()
      ensures Valid() && StreamAnswered(r, old(Histories()), scripts, Delivery(trace, end), calls)
    {
      var resolved := ResolveAttempts(r);
      if resolved.Err? {
        return [], Err(BadRequest(resolved.error)), [];
      }
      PlanUsesRegistered(settings, providers, r);
      ghost var histories := Histories();
      assert StreamTracked(resolved.value, histories, scripts, []);
      hide Registered, Placed, Valid, WellFormed, Plan, StreamServed;
      var d;
      d, calls := StreamPlan(resolved.value, scripts, histories,
        StreamAnswers(adapters, resolved.value, histories, scripts));
      return d.trace, d.end, calls;
    }

    /** The next attempt of a stream: it settles the stream, or is reported. */
    method StreamNext(plan: seq<Attempt>, scripts: nat -> StreamingScript, calls: seq<nat>, errors: seq<Report>,
        ghost histories: seq<seq<Event>>, ghost answers: seq<Streamed>)
      returns (settled: bool, d: Delivery, errors': seq<Report>, calls': seq<nat>)
      requires Valid() && Placed(providers, plan) && StreamTracked(plan, histories, scripts, calls) && |calls| < |plan|
      requires answers == StreamAnswers(adapters, plan, histories, scripts)
      requires Unsettled(providers, plan, answers, |calls|, errors)
      modifies Breakers()
      ensures Valid() && StreamTracked(plan, histories, scripts, calls') && |calls'| == |calls| + 1
      ensures if settled then d == StreamFallBack(providers, plan, answers) && FirstStreaming(answers) == |calls|
              else Unsettled(providers, plan, answers, |calls| + 1, errors')
    {
      hide Valid, WellFormed, Unsettled, StreamFallBack, ErrorsOf, StreamTracked, Registered, Placed, FirstStreaming;
      var chunks, answer;
      chunks, answer, calls' := TryNextStream(plan, scripts, calls, histories, answers);
      settled, d, errors' := Settle(plan, |calls|, chunks, answer, errors, answers);
    }

    /** Before the first attempt. */
    lemma NothingTried(plan: seq<Attempt>, scripts: nat -> StreamingScript, histories: seq<seq<Event>>,
        answers: seq<Streamed>)
      requires StreamTracked(plan, histories, scripts, []) && |answers| == |plan|
      ensures Placed(providers, plan) && Unsettled(providers, plan, answers, 0, [])
    {
      NoErrorsYet(providers, plan, EndsOfAnswers(answers));
    }

    /** The last word has been spoken. */
    lemma ServedBy(plan: seq<Attempt>, scripts: nat -> StreamingScript, histories: seq<seq<Event>>, calls: seq<nat>,
        d: Delivery)
      requires StreamTracked(plan, histories, scripts, calls)
      requires var answers := StreamAnswers(adapters, plan, histories, scripts);
               |calls| == Tried(FirstStreaming(answers), |plan|) && d == StreamFallBack(providers, plan, answers)
      ensures StreamServed(plan, histories, scripts, d, calls)
    {
      StreamsNeverMix(providers, adapters, plan, histories, scripts, calls);
    }

    method StreamPlan(plan: seq<Attempt>, scripts: nat -> StreamingScript,
        ghost histories: seq<seq<Event>>, ghost answers: seq<Streamed>)
      returns (d: Delivery, calls: seq<nat>)
      requires Valid() && StreamTracked(plan, histories, scripts, [])
      requires answers == StreamAnswers(adapters, plan, histories, scripts)
      modifies Breakers()
      ensures Valid() && StreamServed(plan, histories, scripts, d, calls)
    {
      hide Valid, WellFormed, Unsettled, StreamFallBack, ErrorsOf, StreamTracked, StreamServed, Registered, Placed,
        FirstStreaming;
      NothingTried(plan, scripts, histories, answers);
      var errors: seq<Report>;
      errors, calls := [], [];
      for k := 0 to |plan|
        invariant Valid() && StreamTracked(plan, histories, scripts, calls) && |calls| == k
        invariant Unsettled(providers, plan, answers, k, errors)
      {
        var settled;
        settled, d, errors, calls := StreamNext(plan, scripts, calls, errors, histories, answers);
        if settled {
          ServedBy(plan, scripts, histories, calls, d);
          return;
        }
      }
      StreamFallBackFails(providers, plan, answers, errors);
      d := Delivery([], Err(Exhausted(errors)));
      ServedBy(plan, scripts, histories, calls, d);
    }

    /** Passes one attempt's chunks on, announcing the attempt before the first. */
    method Forward(chunks: seq<string>, a: Attempt) returns (trace: seq<StreamEvent>, yieldedAny: bool)
      ensures trace == Announced(a, chunks) && yieldedAny == (chunks != [])
    {
      trace, yieldedAny := [], false;
      for k := 0 to |chunks|
        invariant trace == Announced(a, chunks[..k]) && yieldedAny == (k > 0)
      {
        if !yieldedAny {
          trace := trace + [Selected(a)];
        }
        yieldedAny := true;
        trace := trace + [Chunk(chunks[k])];
        assert chunks[..k + 1][..k] == chunks[..k];
      }
      assert chunks[..|chunks|] == chunks;
    }
  }
}
