/** What a stream is priced as, against what served it: the provider that served,
    but always under the model the client asked for. */
module StreamCost {
  import opened Wrappers
  import opened ChatRequest
  import opened Pricing
  import opened Provider
  import opened Registry
  import opened Routing

  function PricedAs(providers: seq<ProviderInfo>, r: ChatRequest, a: Attempt): ModelIdentifier
    requires a.provider < |providers|
  {
    ModelIdentifier(providers[a.provider].name, r.model)
  }

  function ServedBy(providers: seq<ProviderInfo>, a: Attempt): ModelIdentifier
    requires a.provider < |providers|
  {
    ModelIdentifier(providers[a.provider].name, a.model)
  }

  /** The price looked up is that of what served the stream exactly when the provider
      was pinned, serves the requested model itself, or is configured to stand in for
      it under the same name. */
  lemma PricedAsServedIff(s: Settings, providers: seq<ProviderInfo>, r: ChatRequest, a: Attempt)
    requires Plan(s, providers, r).Ok? && a in Plan(s, providers, r).value
    ensures a.provider < |providers|
    ensures PricedAs(providers, r, a) == ServedBy(providers, a)
            <==> || Pinned(r)
                 || providers[a.provider].SupportsModel(r.model)
                 || ResolveEquivalentModel(s, providers, r.model, providers[a.provider].name) == Ok(Some(r.model))
  {
    if !Pinned(r) {
      PlanIsSound(s, providers, r);
      hide Plan, ResolveEquivalentModel;
      assert Sound(s, providers, r.model, a);
    }
  }

  /** A model costs nothing whatever its usage exactly when no price row covers it, or
      the row that does is free. */
  lemma FreeIff(rows: seq<PriceRow>, id: ModelIdentifier, at: int)
    ensures var price := Load(id, at, rows, true).Result();
            (forall u: TokenUsage :: CostUsd(price, u) == 0.0)
            <==> (forall row :: row in rows ==> !row.Covers(id, at)) || price == Some(Price(0, 0))
  {
    var price := Load(id, at, rows, true).Result();
    if price.Some? && price != Some(Price(0, 0)) {
      var u := if price.value.input != 0 then TokenUsage(1000, 0) else TokenUsage(0, 1000);
      assert CostUsd(price, u) != 0.0;
    }
  }

  // -------------------------------------------------- with the shipped defaults

  const DEFAULTS: Settings := Settings(
    ["openai", "anthropic"],
    map["openai:gpt-4o" := "anthropic:claude-3-5-sonnet-20241022",
        "openai:gpt-4o-mini" := "anthropic:claude-3-5-haiku-20241022",
        "anthropic:claude-3-5-sonnet-20241022" := "openai:gpt-4o",
        "anthropic:claude-3-5-haiku-20241022" := "openai:gpt-4o-mini"])

  const PROVIDERS: seq<ProviderInfo> :=
    [ProviderInfo("openai", ["gpt-", "o1", "o3", "o4", "chatgpt-"]), ProviderInfo("anthropic", ["claude-"])]

  const SONNET: string := "claude-3-5-sonnet-20241022"

  /** The seeded price table, in force from `since` on. */
  function SeedPrices(since: int): seq<PriceRow> {
    [PriceRow(ModelIdentifier("openai", "gpt-4o"), Price(2500, 10000), since, None),
     PriceRow(ModelIdentifier("openai", "gpt-4o-mini"), Price(150, 600), since, None),
     PriceRow(ModelIdentifier("anthropic", SONNET), Price(3000, 15000), since, None),
     PriceRow(ModelIdentifier("anthropic", "claude-3-5-haiku-20241022"), Price(800, 4000), since, None)]
  }

  lemma DefaultsServe()
    ensures PROVIDERS[0].name == "openai" && PROVIDERS[1].name == "anthropic" && "openai" != "anthropic"
    ensures PROVIDERS[0].SupportsModel("gpt-4o") && !PROVIDERS[1].SupportsModel("gpt-4o")
  {
    assert "gpt-" in PROVIDERS[0].prefixes && "gpt-" <= "gpt-4o";
    assert "claude-"[0] != "gpt-4o"[0];
    assert "openai"[0] != "anthropic"[0];
  }

  lemma DefaultMapping()
    ensures "openai:gpt-4o" in DEFAULTS.fallbackMap
    ensures DEFAULTS.fallbackMap["openai:gpt-4o"] == "anthropic:claude-3-5-sonnet-20241022"
  {
    assert |"openai:gpt-4o"| == 13 && |"openai:gpt-4o-mini"| == 18;
    assert |"anthropic:claude-3-5-sonnet-20241022"| == 36 && |"anthropic:claude-3-5-haiku-20241022"| == 35;
  }

  lemma NativeText()
    ensures ModelIdentifier("openai", "gpt-4o").ToText() == "openai:gpt-4o"
  {
    assert "openai" + ":" + "gpt-4o" == "openai:gpt-4o";
  }

  lemma StandInText()
    ensures ModelIdentifier("anthropic", SONNET).ToText() == "anthropic:claude-3-5-sonnet-20241022"
  {
    assert |SONNET| == 26 && |"anthropic" + ":" + SONNET| == 36 == |"anthropic:claude-3-5-sonnet-20241022"|;
    assert "anthropic:claude-3-5-sonnet-20241022"[10..] == SONNET;
    assert "anthropic:claude-3-5-sonnet-20241022"[..10] == "anthropic" + ":";
  }

  lemma DefaultEquivalent()
    ensures ResolveEquivalentModel(DEFAULTS, PROVIDERS, "gpt-4o", "anthropic") == Ok(Some(SONNET))
  {
    DefaultsServe();
    DefaultMapping();
    NativeText();
    StandInText();
    assert ':' !in "anthropic" && SONNET != "";
    FirstIsNative(PROVIDERS, "gpt-4o");
    hide ResolveEquivalentModel, ModelIdentifier.ToText, DEFAULTS, PROVIDERS, SONNET;
    ConfiguredEquivalentIsFound(DEFAULTS, PROVIDERS, "gpt-4o", ModelIdentifier("anthropic", SONNET), "anthropic");
  }

  lemma FirstIsNative(providers: seq<ProviderInfo>, model: string)
    requires providers != [] && providers[0].SupportsModel(model)
    ensures FindSupporting(providers, model) == Some(0)
  {
  }

  /** Two providers in the chain, the first native and the second standing in. */
  lemma StandInPlan(s: Settings, providers: seq<ProviderInfo>, r: ChatRequest, equivalent: string)
    requires |providers| == 2 && providers[0].name != providers[1].name && !Pinned(r)
    requires s.fallbackChain == [providers[0].name, providers[1].name]
    requires providers[0].SupportsModel(r.model) && !providers[1].SupportsModel(r.model)
    requires ResolveEquivalentModel(s, providers, r.model, providers[1].name) == Ok(Some(equivalent))
    ensures Plan(s, providers, r) == Ok([Attempt(0, r.model), Attempt(1, equivalent)])
  {
    hide ResolveEquivalentModel;
    var n0, n1 := providers[0].name, providers[1].name;
    assert FindSupporting(providers, r.model) == Some(0);
    assert [n0, n1][1..] == [n1] && [n1][1..] == [];
    assert AddNew([n0], [n0, n1]) == AddNew([n0], [n1]) == AddNew([n0, n1], []) by {
      assert [n0] + [n1] == [n0, n1];
    }
    assert CandidateNames(s, providers, r.model) == [n0, n1];
    assert TryGet(providers, n0) == Some(0) && TryGet(providers, n1) == Some(1);
    hide TryGet, FindSupporting, CandidateNames;
    var first, second := Attempt(0, r.model), Attempt(1, equivalent);
    assert AttemptFor(s, providers, r.model, n0) == Ok(Some(first));
    assert AttemptFor(s, providers, r.model, n1) == Ok(Some(second));
    hide AttemptFor;
    assert Collect(s, providers, r.model, [n0, n1], []) == Collect(s, providers, r.model, [n1], [first]) by {
      assert [] + [first] == [first];
    }
    assert [first] + [second] == [first, second];
    assert Collect(s, providers, r.model, [n1], [first]) == Collect(s, providers, r.model, [], [first, second]);
  }

  lemma SeededPrices(since: int, at: int)
    requires since <= at
    ensures forall row :: row in SeedPrices(since) ==> !row.Covers(ModelIdentifier("anthropic", "gpt-4o"), at)
    ensures Load(ModelIdentifier("anthropic", SONNET), at, SeedPrices(since), true).Result() == Some(Price(3000, 15000))
  {
    var sonnet, rows := ModelIdentifier("anthropic", SONNET), SeedPrices(since);
    assert "gpt-4o"[0] != SONNET[0] && "openai"[0] != "anthropic"[0] && SONNET[9] != "claude-3-5-haiku-20241022"[11];
    assert SONNET[11] == 's' && "claude-3-5-haiku-20241022"[11] == 'h';
    assert rows[2].Covers(sonnet, at) && rows[2] in rows;
    assert ActivePrice(rows, sonnet, at).Some?;
  }

  lemma SecondStreams(answers: seq<Streamed>)
    requires |answers| == 2 && FallsThrough(answers[0]) && answers[1].chunks != []
    ensures FirstStreaming(answers) == 1
  {
    assert !FallsThrough(answers[1]);
  }

  lemma SeededCosts(since: int, at: int, usage: TokenUsage)
    requires since <= at && usage.inputTokens + usage.outputTokens > 0
    ensures CostUsd(Load(ModelIdentifier("anthropic", "gpt-4o"), at, SeedPrices(since), true).Result(), usage) == 0.0
    ensures CostUsd(Load(ModelIdentifier("anthropic", SONNET), at, SeedPrices(since), true).Result(), usage) > 0.0
  {
    SeededPrices(since, at);
    hide SeedPrices, ActivePrice;
    FreeIff(SeedPrices(since), ModelIdentifier("anthropic", "gpt-4o"), at);
  }

  /** Out of the box, a stream of gpt-4o whose native provider fails before its first
      chunk is served by Claude and priced as a model no row covers: it is free, though
      what served it is not. */
  lemma DefaultFallbackStreamIsFree(r: ChatRequest, answers: seq<Streamed>, since: int, at: int, usage: TokenUsage)
    requires r.model == "gpt-4o" && !Pinned(r)
    requires |answers| == 2 && FallsThrough(answers[0]) && answers[1].chunks != []
    requires since <= at && usage.inputTokens + usage.outputTokens > 0
    ensures var plan := Plan(DEFAULTS, PROVIDERS, r);
            && plan == Ok([Attempt(0, "gpt-4o"), Attempt(1, SONNET)])
            && var a := plan.value[1];
               && StreamFallBack(PROVIDERS, plan.value, answers).trace == [Selected(a)] + Chunks(answers[1].chunks)
               && PricedAs(PROVIDERS, r, a) != ServedBy(PROVIDERS, a)
               && CostUsd(Load(PricedAs(PROVIDERS, r, a), at, SeedPrices(since), true).Result(), usage) == 0.0
               && CostUsd(Load(ServedBy(PROVIDERS, a), at, SeedPrices(since), true).Result(), usage) > 0.0
  {
    DefaultsServe();
    DefaultEquivalent();
    StandInPlan(DEFAULTS, PROVIDERS, r, SONNET);
    SecondStreams(answers);
    SeededCosts(since, at, usage);
    hide Plan, SeedPrices, ActivePrice, CostUsd, FirstStreaming, FallsThrough;
    assert "gpt-4o"[0] != SONNET[0];
  }
}
