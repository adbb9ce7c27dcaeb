/** `AIService` (src/services/ai.service.ts): an idea from Gemini or the
    HuggingFace inference API, retried once, with a local idea as fallback. */
module AiService {
  import opened JsCore
  import opened JsString
  import opened Decimal
  import opened Errors
  import opened Config
  import opened Net
  import opened Retrying

  /** `generatedBy`: who produced the idea. */
  datatype Origin = Ai | Local

  /** `GeneratedIdea`, with the creation time in ms since the epoch. */
  datatype GeneratedIdea = GeneratedIdea(text: string, topic: Option<string>, generatedBy: Origin, timestamp: int)

  /** The idea corpus: a general pool and one pool per topic key. */
  datatype IdeaCorpus = IdeaCorpus(general: seq<string>, topics: map<string, seq<string>>)

  /** Every pool has something to draw from. */
  predicate ValidCorpus(c: IdeaCorpus)
  {
    |c.general| > 0 && forall k :: k in c.topics ==> |c.topics[k]| > 0
  }

  /** The part of the configuration the service reads when it is constructed. */
  datatype AiSettings = AiSettings(aiToken: Option<string>, aiEnabled: bool, aiProvider: string)

  /** `IdeaGenerationOptions`; an omitted option is `None`. */
  datatype IdeaOptions = IdeaOptions(topic: Option<string>, useAI: Option<bool>)

  /** `parts[k]` of a Gemini candidate's content; `text` is `None` when absent. */
  datatype GeminiPart = GeminiPart(text: Option<string>)

  /** A Gemini candidate; `parts` is `None` when `content` or `parts` is absent. */
  datatype GeminiCandidate = GeminiCandidate(parts: Option<seq<GeminiPart>>)

  /** A Gemini response body; `candidates` is `None` when absent. */
  datatype GeminiJson = GeminiJson(candidates: Option<seq<GeminiCandidate>>)

  /** An element of the HuggingFace response array. */
  datatype HfItem = HfItem(generatedText: Option<string>)

  /** A HuggingFace response body; `items` is `None` when it is not an array. */
  datatype HfJson = HfJson(items: Option<seq<HfItem>>)

  /** How the i-th call to each provider's endpoint settles. */
  datatype Network = Network(
    gemini: nat -> Timed<Response<GeminiJson>>,
    huggingFace: nat -> Timed<Response<HfJson>>)

  const AI_MAX_ATTEMPTS: nat := 2
  const AiTimeout := "AI request timeout"
  const GeminiErrorPrefix := "Gemini API error: "
  const GeminiInvalidFormat := "Invalid Gemini response format"
  const HfErrorPrefix := "HuggingFace API error: "
  const HfInvalidFormat := "Invalid AI response format"

  /** `data.candidates?.[0]?.content?.parts?.[0]?.text`. */
  function GeminiText(data: GeminiJson): (t: Option<string>)
    ensures t.Some? <==> && data.candidates.Some? && |data.candidates.value| > 0
                         && data.candidates.value[0].parts.Some? && |data.candidates.value[0].parts.value| > 0
                         && data.candidates.value[0].parts.value[0].text.Some?
    ensures t.Some? ==> t.value == data.candidates.value[0].parts.value[0].text.value
  {
    match data.candidates
    case None => None
    case Some(cs) =>
      if |cs| == 0 then None
      else match cs[0].parts
        case None => None
        case Some(ps) => if |ps| == 0 then None else ps[0].text
  }

  /** `data[0]?.generated_text`. */
  function HfText(data: HfJson): (t: Option<string>)
    ensures t.Some? <==> data.items.Some? && |data.items.value| > 0 && data.items.value[0].generatedText.Some?
    ensures t.Some? ==> t.value == data.items.value[0].generatedText.value
  {
    match data.items
    case None => None
    case Some(items) => if |items| == 0 then None else items[0].generatedText
  }

  /** The shared `catch`: an abort becomes an AI_SERVICE timeout that keeps the
      abort as its original error; everything else is rethrown. */
  function AbortToTimeout(outcome: Result<string, Failure>): (r: Result<string, Failure>)
    ensures outcome.Ok? ==> r == outcome
    ensures outcome.Err? && outcome.error.Name() == "AbortError" ==>
              r == Err(CreateError(AiTimeout, AiService, Some(outcome.error)))
    ensures outcome.Err? && outcome.error.Name() != "AbortError" ==> r == outcome
  {
    if outcome.Err? && outcome.error.Name() == "AbortError" then
      Err(CreateError(AiTimeout, AiService, Some(outcome.error)))
    else outcome
  }

  /** Checks a text field for presence and non-emptiness, then trims it. */
  function TrimmedOrFormatError(text: Option<string>, formatError: string): (r: Result<string, Failure>)
    ensures r.Ok? <==> Truthy(text)
    ensures r.Ok? ==> r.value == Trim(text.value)
    ensures r.Err? ==> r.error == CreateError(formatError, AiService, None)
  {
    if Truthy(text) then Ok(Trim(text.value)) else Err(CreateError(formatError, AiService, None))
  }

  /** Gemini's HTTP error message names the status and quotes the body. */
  lemma GeminiHttpMessage(status: int, text: string)
    ensures var m := GeminiErrorPrefix + IntToString(status) + " - " + text;
      StatusAfter(m, GeminiErrorPrefix) == Some(status) && Contains(m, text)
  {
    var head := GeminiErrorPrefix + IntToString(status);
    var m := head + " - " + text;
    assert m == head + (" - " + text);
    StatusAfterMessage(GeminiErrorPrefix, status, " - " + text);
    assert m == (head + " - ") + text + "";
    ContainsInfix(head + " - ", text, "");
  }

  /** The steps after a Gemini response arrived. */
  function GeminiResponse(response: Response<GeminiJson>): (r: Result<string, Failure>)
    ensures r.Err? ==> r.error.Name() != "AbortError"
    ensures !IsOk(response.status) ==>
              && r.Err? && r.error.BotError? && r.error.kind == AiService
              && StatusAfter(r.error.message, GeminiErrorPrefix) == Some(response.status)
              && Contains(r.error.message, response.text)
  {
    if !IsOk(response.status) then
      GeminiHttpMessage(response.status, response.text);
      Err(CreateError(GeminiErrorPrefix + IntToString(response.status) + " - " + response.text, AiService, None))
    else match ReadJson(response)
      case Err(e) => Err(e)
      case Ok(data) => TrimmedOrFormatError(GeminiText(data), GeminiInvalidFormat)
  }

  /** `callGeminiAPI(prompt)`, where `fetched` is how the POST settles. */
  function CallGemini(fetched: Timed<Response<GeminiJson>>): (r: Result<string, Failure>)
    ensures r.Ok? <==> && fetched.Resolves? && fetched.afterMs < REQUEST_TIMEOUT && IsOk(fetched.value.status)
                       && fetched.value.json.Some? && Truthy(GeminiText(fetched.value.json.value))
    ensures r.Ok? ==> r.value == Trim(GeminiText(fetched.value.json.value).value)
    ensures (fetched.Pending? || fetched.afterMs >= REQUEST_TIMEOUT) ==>
              r == Err(CreateError(AiTimeout, AiService, Some(AbortError)))
    ensures fetched.Resolves? && fetched.afterMs < REQUEST_TIMEOUT && !IsOk(fetched.value.status) ==>
              r.Err? && r.error.BotError? && StatusAfter(r.error.message, GeminiErrorPrefix) == Some(fetched.value.status)
    ensures fetched.Resolves? && fetched.afterMs < REQUEST_TIMEOUT && IsOk(fetched.value.status)
            && fetched.value.json.None? ==>
              r == Err(JsonSyntaxError)
    ensures fetched.Resolves? && fetched.afterMs < REQUEST_TIMEOUT && IsOk(fetched.value.status)
            && fetched.value.json.Some? && !Truthy(GeminiText(fetched.value.json.value)) ==>
              r == Err(CreateError(GeminiInvalidFormat, AiService, None))
  {
    AbortToTimeout(match FetchWithAbort(fetched, REQUEST_TIMEOUT)
      case Ok(response) => GeminiResponse(response)
      case Err(e) => Err(e))
  }

  /** The steps after a HuggingFace response arrived. */
  function HfResponse(response: Response<HfJson>): (r: Result<string, Failure>)
    ensures r.Err? ==> r.error.Name() != "AbortError"
    ensures !IsOk(response.status) ==>
              && r.Err? && r.error.BotError? && r.error.kind == AiService
              && StatusAfter(r.error.message, HfErrorPrefix) == Some(response.status)
  {
    if !IsOk(response.status) then
      StatusAfterMessage(HfErrorPrefix, response.status, "");
      assert HfErrorPrefix + IntToString(response.status) + "" == HfErrorPrefix + IntToString(response.status);
      Err(CreateError(HfErrorPrefix + IntToString(response.status), AiService, None))
    else match ReadJson(response)
      case Err(e) => Err(e)
      case Ok(data) => TrimmedOrFormatError(HfText(data), HfInvalidFormat)
  }

  /** `callHuggingFaceAPI(prompt)`, where `fetched` is how the POST settles. */
  function CallHuggingFace(fetched: Timed<Response<HfJson>>): (r: Result<string, Failure>)
    ensures r.Ok? <==> && fetched.Resolves? && fetched.afterMs < REQUEST_TIMEOUT && IsOk(fetched.value.status)
                       && fetched.value.json.Some? && Truthy(HfText(fetched.value.json.value))
    ensures r.Ok? ==> r.value == Trim(HfText(fetched.value.json.value).value)
    ensures (fetched.Pending? || fetched.afterMs >= REQUEST_TIMEOUT) ==>
              r == Err(CreateError(AiTimeout, AiService, Some(AbortError)))
    ensures fetched.Resolves? && fetched.afterMs < REQUEST_TIMEOUT && !IsOk(fetched.value.status) ==>
              r.Err? && r.error.BotError? && StatusAfter(r.error.message, HfErrorPrefix) == Some(fetched.value.status)
    ensures fetched.Resolves? && fetched.afterMs < REQUEST_TIMEOUT && IsOk(fetched.value.status)
            && fetched.value.json.None? ==>
              r == Err(JsonSyntaxError)
    ensures fetched.Resolves? && fetched.afterMs < REQUEST_TIMEOUT && IsOk(fetched.value.status)
            && fetched.value.json.Some? && !Truthy(HfText(fetched.value.json.value)) ==>
              r == Err(CreateError(HfInvalidFormat, AiService, None))
  {
    AbortToTimeout(match FetchWithAbort(fetched, REQUEST_TIMEOUT)
      case Ok(response) => HfResponse(response)
      case Err(e) => Err(e))
  }

  /** A whitespace-only text passes the emptiness check, which comes before
      the trim, and is returned as the empty idea. */
  lemma BlankTextAccepted(afterMs: nat, blank: string)
    requires afterMs < REQUEST_TIMEOUT && blank != "" && AllSpace(blank)
    ensures CallHuggingFace(Resolves(afterMs, Response(200, "", Some(HfJson(Some([HfItem(Some(blank))])))))) == Ok("")
  {
    TrimEmptyIffAllSpace(blank);
  }

  /** The same holds for Gemini's reply shape. */
  lemma BlankGeminiTextAccepted(afterMs: nat, blank: string)
    requires afterMs < REQUEST_TIMEOUT && blank != "" && AllSpace(blank)
    ensures CallGemini(Resolves(afterMs, Response(200, "",
              Some(GeminiJson(Some([GeminiCandidate(Some([GeminiPart(Some(blank))]))])))))) == Ok("")
  {
    TrimEmptyIffAllSpace(blank);
  }

  const Preamble := "Generate a creative business idea for a small team (2-5 people) where "
    + "Artificial Intelligence is THE CORE PRODUCT, not just a feature. "
    + "The AI should be the main value proposition and competitive advantage."
  const FocusMarker := "\n\nFocus on: "
  const PromptEnding := "\n\nBusiness idea:"

  /** `buildPrompt(topic)`. */
  function BuildPrompt(topic: Option<string>): (p: string)
    ensures StartsWith(p, Preamble)
    ensures |p| >= |PromptEnding| && p[|p| - |PromptEnding|..] == PromptEnding
    ensures Truthy(topic) ==> Contains(p, FocusMarker + topic.value)
    ensures !Truthy(topic) ==> p == Preamble + PromptEnding
  {
    if Truthy(topic) then
      ContainsInfix(Preamble, FocusMarker + topic.value, PromptEnding);
      assert Preamble + FocusMarker + topic.value + PromptEnding == Preamble + (FocusMarker + topic.value) + PromptEnding;
      Preamble + FocusMarker + topic.value + PromptEnding
    else Preamble + PromptEnding
  }

  /** Reads the topic back out of a prompt. */
  function PromptTopic(p: string): Option<string>
  {
    if |p| < |Preamble| + |PromptEnding| then None
    else
      var middle := p[|Preamble|..|p| - |PromptEnding|];
      if |middle| > |FocusMarker| && middle[..|FocusMarker|] == FocusMarker then Some(middle[|FocusMarker|..])
      else None
  }

  /** The prompt names its topic exactly when the topic is non-empty. */
  lemma PromptNamesTopic(topic: Option<string>)
    ensures PromptTopic(BuildPrompt(topic)) == (if Truthy(topic) then topic else None)
  {
    var p := BuildPrompt(topic);
    if Truthy(topic) {
      assert p[|Preamble|..|p| - |PromptEnding|] == FocusMarker + topic.value;
    } else {
      assert p[|Preamble|..|p| - |PromptEnding|] == [];
    }
  }

  /** The pool `generateLocal` draws from. */
  function LocalPool(corpus: IdeaCorpus, topic: Option<string>): (pool: seq<string>)
    ensures topic.Some? && topic.value != "" && topic.value in corpus.topics ==> pool == corpus.topics[topic.value]
    ensures topic.None? || topic.value == "" || topic.value !in corpus.topics ==> pool == corpus.general
    ensures ValidCorpus(corpus) ==> |pool| > 0
  {
    if Truthy(topic) && topic.value in corpus.topics then corpus.topics[topic.value] else corpus.general
  }

  /** `generateLocal(topic)`: a random idea from the topic's pool when the
      topic is a key of the corpus, else from the general pool. */
  function GenerateLocal(corpus: IdeaCorpus, topic: Option<string>, roll: real, now: int): (idea: GeneratedIdea)
    requires ValidCorpus(corpus) && 0.0 <= roll < 1.0
    ensures idea.generatedBy == Local && idea.topic == topic && idea.timestamp == now
    ensures Truthy(topic) && topic.value in corpus.topics ==> idea.text in corpus.topics[topic.value]
    ensures !(Truthy(topic) && topic.value in corpus.topics) ==> idea.text in corpus.general
  {
    GeneratedIdea(Pick(LocalPool(corpus, topic), roll), topic, Local, now)
  }

  /** Every idea of the pool is drawn for some roll. */
  lemma LocalReachesWholePool(corpus: IdeaCorpus, topic: Option<string>, i: nat, now: int)
    requires ValidCorpus(corpus) && i < |LocalPool(corpus, topic)|
    ensures var pool := LocalPool(corpus, topic);
      GenerateLocal(corpus, topic, i as real / |pool| as real, now).text == pool[i]
  {
    PickReachesEveryElement(LocalPool(corpus, topic), i);
  }

  /** What each provider call settles with, given the chosen provider. */
  function ProviderOutcomes(provider: string, net: Network): (calls: seq<Result<string, Failure>>)
    ensures |calls| == AI_MAX_ATTEMPTS
  {
    if provider == "gemini" then seq(AI_MAX_ATTEMPTS, i requires 0 <= i => CallGemini(net.gemini(i)))
    else seq(AI_MAX_ATTEMPTS, i requires 0 <= i => CallHuggingFace(net.huggingFace(i)))
  }

  /** Attempt i calls Gemini's endpoint for the "gemini" provider and
      HuggingFace's for every other one. */
  lemma ProviderDispatch(provider: string, net: Network, i: nat)
    requires i < AI_MAX_ATTEMPTS
    ensures provider == "gemini" ==> ProviderOutcomes(provider, net)[i] == CallGemini(net.gemini(i))
    ensures provider != "gemini" ==> ProviderOutcomes(provider, net)[i] == CallHuggingFace(net.huggingFace(i))
  {
  }

  /** `generateWithAI(topic)`: the provider call under `retry` with two
      attempts; the result is tagged "ai". */
  function GenerateWithAi(settings: AiSettings, topic: Option<string>, net: Network, now: int): (r: Retried<GeneratedIdea>)
    ensures 1 <= r.calls <= AI_MAX_ATTEMPTS
    ensures r.result.Ok? ==> r.result.value.generatedBy == Ai && r.result.value.topic == topic
    ensures r.result.Ok? ==> ProviderOutcomes(settings.aiProvider, net)[r.calls - 1] == Ok(r.result.value.text)
    ensures r.result.Err? ==> r.calls == AI_MAX_ATTEMPTS
  {
    var outcomes := ProviderOutcomes(settings.aiProvider, net);
    var retried := Retry(outcomes, AI_MAX_ATTEMPTS);
    if retried.result.Ok? then Retried(Ok(GeneratedIdea(retried.result.value, topic, Ai, now)), retried.calls)
    else Retried(Err(retried.result.error), retried.calls)
  }

  /** The idea `generateIdea` returns and how many provider calls it made. */
  datatype IdeaRun = IdeaRun(idea: GeneratedIdea, providerCalls: nat)

  /** Whether `generateIdea` tries the AI at all. */
  predicate TriesAi(settings: AiSettings, options: IdeaOptions)
    ensures TriesAi(settings, options) ==> settings.aiToken.Some? && settings.aiToken.value != ""
    ensures options.useAI == Some(false) ==> !TriesAi(settings, options)
    ensures options.useAI == Some(true) && Truthy(settings.aiToken) ==> TriesAi(settings, options)
    ensures options.useAI.None? ==> (TriesAi(settings, options) <==> settings.aiEnabled && Truthy(settings.aiToken))
  {
    (if options.useAI.Some? then options.useAI.value else settings.aiEnabled) && Truthy(settings.aiToken)
  }

  /** `generateIdea(options)`: the AI when asked for and a token exists, else,
      or when every AI attempt fails, a local idea. It never fails. */
  function GenerateIdea(settings: AiSettings, corpus: IdeaCorpus, options: IdeaOptions, net: Network,
                        roll: real, now: int): (r: IdeaRun)
    requires ValidCorpus(corpus) && 0.0 <= roll < 1.0
    ensures !TriesAi(settings, options) ==> r.providerCalls == 0 && r == IdeaRun(GenerateLocal(corpus, options.topic, roll, now), 0)
    ensures TriesAi(settings, options) ==> 1 <= r.providerCalls <= AI_MAX_ATTEMPTS
    ensures r.idea.topic == options.topic
    ensures r.idea.generatedBy == Ai ==> GenerateWithAi(settings, options.topic, net, now).result == Ok(r.idea)
    ensures r.idea.generatedBy == Local ==> r.idea == GenerateLocal(corpus, options.topic, roll, now)
  {
    if TriesAi(settings, options) then
      var ai := GenerateWithAi(settings, options.topic, net, now);
      match ai.result
      case Ok(idea) => IdeaRun(idea, ai.calls)
      case Err(_) => IdeaRun(GenerateLocal(corpus, options.topic, roll, now), ai.calls)
    else IdeaRun(GenerateLocal(corpus, options.topic, roll, now), 0)
  }

  /** When the AI is tried, the idea comes from it exactly when one of the two
      attempts succeeds; otherwise both attempts were made. */
  lemma AiIdeaIffSomeAttemptSucceeds(settings: AiSettings, corpus: IdeaCorpus, options: IdeaOptions, net: Network,
                                     roll: real, now: int)
    requires ValidCorpus(corpus) && 0.0 <= roll < 1.0 && TriesAi(settings, options)
    ensures var r := GenerateIdea(settings, corpus, options, net, roll, now);
      && (r.idea.generatedBy == Ai <==>
            exists i :: 0 <= i < AI_MAX_ATTEMPTS && ProviderOutcomes(settings.aiProvider, net)[i].Ok?)
      && (r.idea.generatedBy == Local ==> r.providerCalls == AI_MAX_ATTEMPTS)
  {
    SucceedsIffSomeAttemptSucceeds(ProviderOutcomes(settings.aiProvider, net), AI_MAX_ATTEMPTS);
  }

  /** Every provider value other than "gemini", "groq" included, goes to HuggingFace. */
  lemma NonGeminiGoesToHuggingFace(provider: string, net: Network)
    requires provider != "gemini"
    ensures ProviderOutcomes(provider, net) == [CallHuggingFace(net.huggingFace(0)), CallHuggingFace(net.huggingFace(1))]
  {
  }
}
