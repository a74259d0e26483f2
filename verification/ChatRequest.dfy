/** The canonical request and the keys its answer is cached under. */
module ChatRequest {
  import opened Repr
  import opened Text
  import opened Wrappers

  datatype Role = System | User | Assistant | Tool {
    function Name(): string {
      match this
      case System => "system"
      case User => "user"
      case Assistant => "assistant"
      case Tool => "tool"
    }
  }

  datatype ChatMessage = ChatMessage(role: Role, content: string)

  /** A float, as the text it prints as: never contains a bar. */
  type FloatText = s: string | '|' !in s

  datatype ChatRequest = ChatRequest(
    model: string,
    messages: seq<ChatMessage>,
    temperature: FloatText,
    maxTokens: Option<int>,
    topP: FloatText,
    stream: bool,
    stop: Option<seq<string>>,
    cacheBypass: bool,
    providerOverride: Option<string>,
    adapterId: Option<string>,
    modelAlias: Option<string>,
    adapterStage: Option<string>)
  {
    function CanonicalPrompt(): string { Join("\n", Lines(messages)) }

    function Adapter(): string { if adapterId.Some? then adapterId.value else "" }

    function MaxTokensText(): string { if maxTokens.Some? then IntText(maxTokens.value) else "None" }

    function StopText(): string { OptionalListText(stop) }

    function CoreText(): string {
      model + "|" + Adapter() + "|" + temperature + "|" + MaxTokensText() + "|" + topP
    }

    function ParamsFingerprint(): string { CoreText() + "|" + StopText() }
  }

  function Line(m: ChatMessage): string { m.role.Name() + ":" + m.content }

  function Lines(ms: seq<ChatMessage>): seq<string> {
    if ms == [] then [] else [Line(ms[0])] + Lines(ms[1..])
  }

  // ---------------------------------------------------------- normalization

  function NormalizePrompt(text: string): string { Join(" ", Words(StripRight(StripLeft(text)))) }

  /** The normal form keeps exactly the words. */
  lemma NormalFormKeepsWords(text: string)
    ensures NormalizePrompt(text) == Join(" ", Words(text))
    ensures Words(NormalizePrompt(text)) == Words(text)
  {
    StripLeftKeepsWords(text);
    StripRightKeepsWords(StripLeft(text));
    WordsAreWords(text);
    WordsOfJoin(Words(text));
  }

  lemma NormalizeIsIdempotent(text: string)
    ensures NormalizePrompt(NormalizePrompt(text)) == NormalizePrompt(text)
  {
    NormalFormKeepsWords(text);
    NormalFormKeepsWords(NormalizePrompt(text));
  }

  /** Two prompts share a normal form exactly when their words agree, letter case included. */
  lemma NormalFormsAgree(a: string, b: string)
    ensures NormalizePrompt(a) == NormalizePrompt(b) <==> Words(a) == Words(b)
  {
    NormalFormKeepsWords(a);
    NormalFormKeepsWords(b);
  }

  function WordsOfMessages(ms: seq<ChatMessage>): seq<string> {
    if ms == [] then [] else Words(Line(ms[0])) + WordsOfMessages(ms[1..])
  }

  lemma {:induction false} PromptWords(ms: seq<ChatMessage>)
    ensures Words(Join("\n", Lines(ms))) == WordsOfMessages(ms)
    decreases |ms|
  {
    if |ms| > 0 {
      assert Lines(ms)[1..] == Lines(ms[1..]);
      if |ms| == 1 {
        assert Lines(ms[1..]) == [] && WordsOfMessages(ms[1..]) == [];
      } else {
        assert Lines(ms[1..]) == [Line(ms[1])] + Lines(ms[1..][1..]);
        WordsSplitAtBlank(Line(ms[0]), '\n', Join("\n", Lines(ms[1..])));
        PromptWords(ms[1..]);
      }
    }
  }

  /** Message boundaries are lost: the prompts of two requests normalize equally
      exactly when the words of their messages, run together, agree. */
  lemma PromptsAgree(a: ChatRequest, b: ChatRequest)
    ensures NormalizePrompt(a.CanonicalPrompt()) == NormalizePrompt(b.CanonicalPrompt())
            <==> WordsOfMessages(a.messages) == WordsOfMessages(b.messages)
  {
    PromptWords(a.messages);
    PromptWords(b.messages);
    NormalFormsAgree(a.CanonicalPrompt(), b.CanonicalPrompt());
  }

  /** A message's words tell its role and its content's words: no two roles share keys. */
  lemma MessageWordsAgree(a: ChatMessage, b: ChatMessage)
    ensures Words(Line(a)) == Words(Line(b))
            <==> a.role == b.role && Words(":" + a.content) == Words(":" + b.content)
  {
    MessageWords(a);
    MessageWords(b);
    hide Words;
    var v, w := Words(":" + a.content), Words(":" + b.content);
    if Words(Line(a)) == Words(Line(b)) {
      var x, y := Words(Line(a)), Words(Line(b));
      assert x[0][0] == a.role.Name()[0] && y[0][0] == b.role.Name()[0];
      assert v[0] == x[0][|a.role.Name()|..] && w[0] == y[0][|b.role.Name()|..];
      assert v == [v[0]] + x[1..] && w == [w[0]] + y[1..];
    }
  }

  lemma MessageWords(m: ChatMessage)
    ensures var rest := Words(":" + m.content);
            rest != [] && Words(Line(m)) == [m.role.Name() + rest[0]] + rest[1..]
  {
    WordsAfterName(m.role.Name(), ":" + m.content);
    assert Line(m) == m.role.Name() + (":" + m.content);
  }

  /** One message that quotes a second is keyed like two messages. */
  lemma TwoMessagesCanLookLikeOne()
    ensures WordsOfMessages([ChatMessage(User, "hi\nuser:bye")])
         == WordsOfMessages([ChatMessage(User, "hi"), ChatMessage(User, "bye")])
  {
    var one, two := ChatMessage(User, "hi\nuser:bye"), [ChatMessage(User, "hi"), ChatMessage(User, "bye")];
    assert Line(one) == Line(two[0]) + ['\n'] + Line(two[1]);
    WordsSplitAtBlank(Line(two[0]), '\n', Line(two[1]));
    assert WordsOfMessages([one]) == Words(Line(one)) + [];
    assert two[1..] == [two[1]] && WordsOfMessages(two[1..]) == Words(Line(two[1])) + WordsOfMessages(two[1..][1..]);
  }

  // ------------------------------------------------------------ fingerprint

  function Fingerprint(r: ChatRequest): string {
    NormalizePrompt(r.CanonicalPrompt()) + "|" + r.ParamsFingerprint()
  }

  /** The parameters a cached answer depends on, as printed; the stop list apart. */
  function Core(r: ChatRequest): seq<string> {
    [r.model, r.Adapter(), r.temperature, r.MaxTokensText(), r.topP]
  }

  function Params(r: ChatRequest): seq<string> { Core(r) + [r.StopText()] }

  /** The same generation parameters; no adapter and an empty adapter id are one. */
  predicate SameParams(a: ChatRequest, b: ChatRequest) {
    && a.model == b.model && a.Adapter() == b.Adapter() && a.stop == b.stop
    && a.temperature == b.temperature && a.maxTokens == b.maxTokens && a.topP == b.topP
  }

  predicate BarFree(r: ChatRequest) { '|' !in r.model && '|' !in r.Adapter() }

  lemma BarFreeMaxTokens(r: ChatRequest)
    ensures '|' !in r.MaxTokensText()
  {
    if r.maxTokens.Some? {
      IntTextAvoids(r.maxTokens.value, '|');
    }
  }

  /** Splitting at the last six bars gives back prompt and parameters, exactly when
      model, adapter and printed stop list hold no bar; the prompt may. */
  lemma FingerprintDecodes(r: ChatRequest)
    ensures RSplit(Fingerprint(r), 6) == [NormalizePrompt(r.CanonicalPrompt())] + Params(r)
            <==> BarFree(r) && '|' !in r.StopText()
  {
    hide RSplit, NormalizePrompt;
    var prompt := NormalizePrompt(r.CanonicalPrompt());
    if BarFree(r) && '|' !in r.StopText() {
      Glue(prompt, r.CoreText(), r.StopText());
      RSplitLast(prompt + "|" + r.CoreText(), r.StopText(), 5);
      DecodeCore(prompt, r);
      assert [prompt] + Core(r) + [r.StopText()] == [prompt] + Params(r);
    } else {
      RSplitPiecesHaveNoBar(Fingerprint(r), 6);
      var pieces := [prompt] + Params(r);
      assert pieces[1] == r.model && pieces[2] == r.Adapter() && pieces[6] == r.StopText();
    }
  }

  lemma NoSplit(s: string)
    ensures RSplit(s, 0) == [s]
  {
  }

  lemma Glue(p: string, s: string, t: string)
    ensures p + "|" + (s + "|" + t) == (p + "|" + s) + "|" + t
  {
  }

  /** The parameter text but for the stop list decodes after any prefix and a bar. */
  lemma DecodeCore(prefix: string, r: ChatRequest)
    requires BarFree(r)
    ensures RSplit(prefix + "|" + r.CoreText(), 5) == [prefix] + Core(r)
  {
    hide RSplit;
    BarFreeMaxTokens(r);
    var p1 := r.model;
    var p2 := p1 + "|" + r.Adapter();
    var p3 := p2 + "|" + r.temperature;
    var p4 := p3 + "|" + r.MaxTokensText();
    DecodeLast(prefix, p4, r.topP, 5);
    DecodeLast(prefix, p3, r.MaxTokensText(), 4);
    DecodeLast(prefix, p2, r.temperature, 3);
    DecodeLast(prefix, p1, r.Adapter(), 2);
    RSplitLast(prefix, r.model, 0);
    NoSplit(prefix);
  }

  lemma DecodeLast(prefix: string, text: string, last: string, n: nat)
    requires '|' !in last && 0 < n
    ensures RSplit(prefix + "|" + (text + "|" + last), n) == RSplit(prefix + "|" + text, n - 1) + [last]
  {
    hide RSplit;
    Glue(prefix, text, last);
    RSplitLast(prefix + "|" + text, last, n - 1);
  }

  /** Equal maximum-token texts are equal settings. */
  lemma MaxTokensTextIsFaithful(a: ChatRequest, b: ChatRequest)
    ensures a.MaxTokensText() == b.MaxTokensText() <==> a.maxTokens == b.maxTokens
  {
    if a.maxTokens.Some? {
      ParseIntText(a.maxTokens.value);
      IntTextAvoids(a.maxTokens.value, 'N');
    }
    if b.maxTokens.Some? {
      ParseIntText(b.maxTokens.value);
      IntTextAvoids(b.maxTokens.value, 'N');
    }
  }

  /** One stop text cannot end in another, so where whole texts agree the stop lists do. */
  lemma StopsAgree(x: string, a: ChatRequest, y: string, b: ChatRequest)
    requires x + "|" + a.StopText() == y + "|" + b.StopText()
    ensures x == y && a.stop == b.stop
  {
    hide OptionalListText;
    var s, t, whole := a.StopText(), b.StopText(), x + "|" + a.StopText();
    if |s| <= |t| {
      assert t[..|t| - |s|] + s == t by {
        assert s == whole[|whole| - |s|..] == t[|t| - |s|..];
      }
      ListTextsAreSuffixFree(t[..|t| - |s|], a.stop, b.stop);
    } else {
      assert s[..|s| - |t|] + t == s by {
        assert t == whole[|whole| - |t|..] == s[|s| - |t|..];
      }
      ListTextsAreSuffixFree(s[..|s| - |t|], b.stop, a.stop);
    }
    assert x == whole[..|x|] && y == whole[..|x|];
  }

  /** Two parameter texts that end the same text, after a bar, are one; whatever their
      stop lists hold. */
  lemma ParamsFromTheRight(x: string, a: ChatRequest, y: string, b: ChatRequest)
    requires BarFree(a) && BarFree(b)
    requires x + "|" + a.ParamsFingerprint() == y + "|" + b.ParamsFingerprint()
    ensures x == y && SameParams(a, b)
  {
    hide RSplit;
    Glue(x, a.CoreText(), a.StopText());
    Glue(y, b.CoreText(), b.StopText());
    StopsAgree(x + "|" + a.CoreText(), a, y + "|" + b.CoreText(), b);
    DecodeCore(x, a);
    DecodeCore(y, b);
    MaxTokensTextIsFaithful(a, b);
    var p, q := [x] + Core(a), [y] + Core(b);
    assert p[0] == x && q[0] == y && p[1..] == Core(a) && q[1..] == Core(b);
    CoresAgree(a, b);
  }

  lemma CoresAgree(a: ChatRequest, b: ChatRequest)
    ensures Core(a) == Core(b)
            <==> && a.model == b.model && a.Adapter() == b.Adapter() && a.temperature == b.temperature
                 && a.MaxTokensText() == b.MaxTokensText() && a.topP == b.topP
  {
    var p, q := Core(a), Core(b);
    assert p[0] == a.model && p[1] == a.Adapter() && p[2] == a.temperature && p[3] == a.MaxTokensText()
      && p[4] == a.topP;
    assert q[0] == b.model && q[1] == b.Adapter() && q[2] == b.temperature && q[3] == b.MaxTokensText()
      && q[4] == b.topP;
  }

  /** Equal fingerprints mean equal words and equal parameters. */
  lemma FingerprintsAgree(a: ChatRequest, b: ChatRequest)
    requires BarFree(a) && BarFree(b)
    ensures Fingerprint(a) == Fingerprint(b)
            <==> && WordsOfMessages(a.messages) == WordsOfMessages(b.messages)
                 && a.model == b.model && a.Adapter() == b.Adapter() && a.temperature == b.temperature
                 && a.maxTokens == b.maxTokens && a.topP == b.topP && a.stop == b.stop
  {
    PromptsAgree(a, b);
    hide NormalizePrompt, WordsOfMessages;
    if Fingerprint(a) == Fingerprint(b) {
      ParamsFromTheRight(NormalizePrompt(a.CanonicalPrompt()), a, NormalizePrompt(b.CanonicalPrompt()), b);
    }
  }

  /** The parameter text alone determines the parameters too. */
  lemma ParamTextsAgree(a: ChatRequest, b: ChatRequest)
    requires BarFree(a) && BarFree(b)
    ensures a.ParamsFingerprint() == b.ParamsFingerprint() <==> SameParams(a, b)
  {
    if a.ParamsFingerprint() == b.ParamsFingerprint() {
      ParamsFromTheRight("", a, "", b);
    }
  }

  lemma SameTextSameFingerprint(a: ChatRequest, b: ChatRequest)
    requires a.messages == b.messages && a.temperature == b.temperature && a.maxTokens == b.maxTokens
    requires a.topP == b.topP && a.stop == b.stop
    requires a.model + "|" + a.Adapter() == b.model + "|" + b.Adapter()
    ensures Fingerprint(a) == Fingerprint(b)
  {
    hide NormalizePrompt, Join;
  }

  lemma SplitAt(s: string, c: char) returns (before: string, rest: string)
    requires c in s
    ensures s == before + [c] + rest
  {
    var i :| 0 <= i < |s| && s[i] == c;
    before, rest := s[..i], s[i + 1..];
  }

  /** Bars in model or adapter do collide: every such request shares its fingerprint
      with another of the same prompt and different parameters. */
  lemma BarsCollide(r: ChatRequest) returns (other: ChatRequest)
    requires '|' in r.model || '|' in r.Adapter()
    ensures Fingerprint(other) == Fingerprint(r) && !SameParams(other, r)
    ensures other == r.(model := other.model, adapterId := other.adapterId)
  {
    hide Fingerprint;
    if '|' in r.model {
      var model, rest := SplitAt(r.model, '|');
      other := r.(model := model, adapterId := Some(rest + "|" + r.Adapter()));
      Glue(model, rest, r.Adapter());
    } else {
      var adapter, rest := SplitAt(r.Adapter(), '|');
      other := r.(model := r.model + "|" + adapter, adapterId := Some(rest));
      Glue(r.model, adapter, rest);
    }
    SameTextSameFingerprint(other, r);
  }
}
