/** Model identifiers, the provider registry and fallback equivalents. */
module Registry {
  import opened Wrappers
  import opened Text
  import opened Provider

  datatype ModelIdentifier = ModelIdentifier(provider: string, model: string) {
    function ToText(): string { provider + ":" + model }
  }

  /** "provider:model", split at the first colon; an empty model is an error. */
  function ParseModelIdentifier(value: string): Option<ModelIdentifier> {
    if After(value, ':') == "" then None else Some(ModelIdentifier(Before(value, ':'), After(value, ':')))
  }

  /** Reading back a printed identifier works exactly for colon-free provider names
      and non-empty models. */
  lemma IdentifierRoundTrips(id: ModelIdentifier)
    ensures ParseModelIdentifier(id.ToText()) == Some(id) <==> ':' !in id.provider && id.model != ""
  {
    if ':' !in id.provider {
      PartitionAtFirst(id.provider, ':', id.model);
    }
  }

  /** A text reads as an identifier exactly when it is one printed with a colon-free
      provider and a non-empty model; everything else is an error. */
  lemma ParseIsExact(value: string, id: ModelIdentifier)
    ensures ParseModelIdentifier(value) == Some(id)
            <==> value == id.provider + ":" + id.model && ':' !in id.provider && id.model != ""
  {
    if value == id.ToText() {
      IdentifierRoundTrips(id);
    }
    if ParseModelIdentifier(value) == Some(id) {
      PartsGiveBack(value, ':');
    }
  }

  datatype Settings = Settings(fallbackChain: seq<string>, fallbackMap: map<string, string>)

  /** Registered providers, in registration order and under distinct names. A
      provider is referred to by its position. */
  ghost predicate ValidProviders(providers: seq<ProviderInfo>) {
    forall i, j :: 0 <= i < j < |providers| ==> providers[i].name != providers[j].name
  }

  /** Position of the provider registered under `name`. */
  function TryGet(providers: seq<ProviderInfo>, name: string): (p: Option<nat>)
    ensures p.Some? ==> p.value < |providers| && providers[p.value].name == name
    ensures p.None? ==> forall i :: 0 <= i < |providers| ==> providers[i].name != name
  {
    if providers == [] then None
    else if providers[|providers| - 1].name == name then Some(|providers| - 1)
    else TryGet(providers[..|providers| - 1], name)
  }

  /** Position of the first provider that natively serves the model. */
  function FindSupporting(providers: seq<ProviderInfo>, model: string): (p: Option<nat>)
    ensures p.Some? ==> p.value < |providers| && providers[p.value].SupportsModel(model)
    ensures p.Some? ==> forall i :: 0 <= i < p.value ==> !providers[i].SupportsModel(model)
    ensures p.None? ==> forall i :: 0 <= i < |providers| ==> !providers[i].SupportsModel(model)
  {
    if providers == [] then None
    else
      var n := |providers| - 1;
      var earlier := FindSupporting(providers[..n], model);
      if earlier.Some? then earlier else if providers[n].SupportsModel(model) then Some(n) else None
  }

  datatype RegistryError = UnknownProvider(name: string) | MalformedMapping(value: string)

  /** The configured equivalent of `model` on `target`, if any. */
  function ResolveEquivalentModel(s: Settings, providers: seq<ProviderInfo>, model: string, target: string)
    : Result<Option<string>, RegistryError>
  {
    var source := FindSupporting(providers, model);
    if source.None? then Ok(None) else
    var key := ModelIdentifier(providers[source.value].name, model).ToText();
    if key !in s.fallbackMap then Ok(None) else
    match ParseModelIdentifier(s.fallbackMap[key])
    case None => Err(MalformedMapping(s.fallbackMap[key]))
    case Some(id) => Ok(if id.provider == target then Some(id.model) else None)
  }

  /** The equivalent of a model, read off the configuration: the entry of its native
      provider, if there is one, must read as an identifier, and must name the target. */
  lemma EquivalentIff(s: Settings, providers: seq<ProviderInfo>, model: string, target: string, equivalent: string)
    ensures ResolveEquivalentModel(s, providers, model, target) == Ok(Some(equivalent))
            <==> var native := FindSupporting(providers, model);
                 && native.Some?
                 && providers[native.value].name + ":" + model in s.fallbackMap
                 && s.fallbackMap[providers[native.value].name + ":" + model] == target + ":" + equivalent
                 && ':' !in target && equivalent != ""
    ensures ResolveEquivalentModel(s, providers, model, target).Err?
            <==> var native := FindSupporting(providers, model);
                 && native.Some?
                 && providers[native.value].name + ":" + model in s.fallbackMap
                 && forall id: ModelIdentifier :: ':' !in id.provider && id.model != "" ==>
                      s.fallbackMap[providers[native.value].name + ":" + model] != id.provider + ":" + id.model
  {
    var native := FindSupporting(providers, model);
    if native.Some? && providers[native.value].name + ":" + model in s.fallbackMap {
      var value := s.fallbackMap[providers[native.value].name + ":" + model];
      assert ModelIdentifier(providers[native.value].name, model).ToText() in s.fallbackMap;
      ParseIsExact(value, ModelIdentifier(target, equivalent));
      hide ParseModelIdentifier;
      forall id: ModelIdentifier
        ensures ParseModelIdentifier(value) == Some(id)
                <==> value == id.provider + ":" + id.model && ':' !in id.provider && id.model != ""
      {
        ParseIsExact(value, id);
      }
    }
  }

  /** At most one provider holds the equivalent of a model. */
  lemma OneEquivalentTarget(s: Settings, providers: seq<ProviderInfo>, model: string, t1: string, t2: string)
    requires ResolveEquivalentModel(s, providers, model, t1).Ok?
             && ResolveEquivalentModel(s, providers, model, t1).value.Some?
    requires ResolveEquivalentModel(s, providers, model, t2).Ok?
             && ResolveEquivalentModel(s, providers, model, t2).value.Some?
    ensures t1 == t2
  {
  }

  /** An equivalent written "target:other" for the native provider is found, exactly
      under its target's name. */
  lemma ConfiguredEquivalentIsFound(s: Settings, providers: seq<ProviderInfo>, model: string, to: ModelIdentifier,
      target: string)
    requires FindSupporting(providers, model).Some?
    requires var key := ModelIdentifier(providers[FindSupporting(providers, model).value].name, model).ToText();
             key in s.fallbackMap && s.fallbackMap[key] == to.ToText()
    requires ':' !in to.provider && to.model != ""
    ensures ResolveEquivalentModel(s, providers, model, target)
            == Ok(if target == to.provider then Some(to.model) else None)
  {
    IdentifierRoundTrips(to);
  }
}
