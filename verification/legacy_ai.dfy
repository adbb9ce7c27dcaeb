/** The first-generation idea generator (lib/ai.ts): one HuggingFace request
    with no deadline, falling back to a local idea on every failure. */
module LegacyAi {
  import opened JsCore
  import opened JsString
  import opened Errors
  import opened Config
  import opened Net
  import opened AiService

  /** The topic keys of the local table. */
  const LegacyTopics: set<string> := {"tech", "business", "social"}

  /** The local idea table: ten general ideas and three per topic key. Its
      texts are data, so they are a parameter of the model. */
  datatype LegacyPools = LegacyPools(general: seq<string>, topics: map<string, seq<string>>)

  predicate ValidPools(p: LegacyPools)
  {
    |p.general| == 10 && p.topics.Keys == LegacyTopics && forall k :: k in p.topics ==> |p.topics[k]| == 3
  }

  /** The pool `generateLocalIdea` draws from: the topic is looked up lower-cased. */
  function LegacyPool(pools: LegacyPools, topic: Option<string>): seq<string>
  {
    if Truthy(topic) && Lower(topic.value) in pools.topics then pools.topics[Lower(topic.value)] else pools.general
  }

  /** `generateLocalIdea(topic)`. */
  function GenerateLocalIdea(pools: LegacyPools, topic: Option<string>, roll: real): (idea: string)
    requires ValidPools(pools) && 0.0 <= roll < 1.0
    ensures Truthy(topic) && Lower(topic.value) in LegacyTopics ==> idea in pools.topics[Lower(topic.value)]
    ensures !(Truthy(topic) && Lower(topic.value) in LegacyTopics) ==> idea in pools.general
  {
    Pick(LegacyPool(pools, topic), roll)
  }

  /** The topic lookup ignores letter case: "Tech" and "TECH" draw from the
      same pool as "tech". */
  lemma LocalIdeaIgnoresCase(pools: LegacyPools, a: string, b: string, roll: real)
    requires ValidPools(pools) && 0.0 <= roll < 1.0
    requires Lower(a) == Lower(b) && a != [] && b != []
    ensures GenerateLocalIdea(pools, Some(a), roll) == GenerateLocalIdea(pools, Some(b), roll)
  {
  }

  /** Each of the ten general ideas is drawn for some roll when the topic is
      unknown. */
  lemma GeneralPoolReachable(pools: LegacyPools, topic: Option<string>, i: nat)
    requires ValidPools(pools) && i < 10
    requires !(Truthy(topic) && Lower(topic.value) in LegacyTopics)
    ensures GenerateLocalIdea(pools, topic, i as real / 10 as real) == pools.general[i]
  {
    PickReachesEveryElement(pools.general, i);
  }

  const TopicPromptPrefix := "Generate a creative and innovative idea related to: "
  const DefaultPrompt := "Generate a creative and innovative startup or project idea"

  /** The prompt sent to the model. */
  function LegacyPrompt(topic: Option<string>): (p: string)
    ensures Truthy(topic) ==> StartsWith(p, TopicPromptPrefix) && p[|TopicPromptPrefix|..] == topic.value
    ensures !Truthy(topic) ==> p == DefaultPrompt
  {
    if Truthy(topic) then TopicPromptPrefix + topic.value else DefaultPrompt
  }

  /** `cleanupAIResponse(text)`: the first line of the trimmed text, or the
      whole trimmed text when that line is empty. */
  function CleanupAiResponse(text: string): (r: string)
    ensures '\n' !in r
    ensures StartsWith(Trim(text), r)
    ensures |r| < |Trim(text)| ==> Trim(text)[|r|] == '\n'
    ensures r == [] <==> AllSpace(text)
  {
    var trimmed := Trim(text);
    var line := FirstSegment(trimmed, '\n');
    TrimEmptyIffAllSpace(text);
    if line != [] then line
    else trimmed
  }

  /** The `|| text.trim()` fallback never changes the outcome: a trimmed text
      cannot start with a line break, so its first line is empty only when
      the text itself is. */
  lemma CleanupIsFirstLine(text: string)
    ensures CleanupAiResponse(text) == FirstSegment(Trim(text), '\n')
  {
  }

  /** A reply that is already a single trimmed line comes back unchanged. */
  lemma CleanupKeepsSingleLine(text: string)
    requires text != [] && !IsSpace(text[0]) && !IsSpace(text[|text| - 1]) && '\n' !in text
    ensures CleanupAiResponse(text) == text
  {
    TrimOfTrimmed(text);
  }

  /** `generateIdea(topic)`, where `token` is HUGGINGFACE_TOKEN and `fetched`
      is how the POST settles. The fetch has no deadline: `None` means the call
      never returns. It never fails. */
  function LegacyGenerateIdea(pools: LegacyPools, token: Option<string>, topic: Option<string>,
                              fetched: Timed<Response<HfJson>>, roll: real): (r: Option<string>)
    requires ValidPools(pools) && 0.0 <= roll < 1.0
    ensures r.None? <==> Truthy(token) && fetched.Pending?
    ensures !Truthy(token) ==> r == Some(GenerateLocalIdea(pools, topic, roll))
    ensures r.Some? && r.value != GenerateLocalIdea(pools, topic, roll) ==>
              && fetched.Resolves? && IsOk(fetched.value.status) && fetched.value.json.Some?
              && Truthy(HfText(fetched.value.json.value))
              && r.value == CleanupAiResponse(HfText(fetched.value.json.value).value)
    ensures Truthy(token) && fetched.Resolves? && IsOk(fetched.value.status) && fetched.value.json.Some?
            && Truthy(HfText(fetched.value.json.value)) ==>
              r == Some(CleanupAiResponse(HfText(fetched.value.json.value).value))
    ensures Truthy(token) && fetched.Rejects? ==> r == Some(GenerateLocalIdea(pools, topic, roll))
    ensures Truthy(token) && fetched.Resolves?
            && !(IsOk(fetched.value.status) && fetched.value.json.Some? && Truthy(HfText(fetched.value.json.value))) ==>
              r == Some(GenerateLocalIdea(pools, topic, roll))
  {
    if !Truthy(token) then Some(GenerateLocalIdea(pools, topic, roll))
    else match fetched
      case Pending => None
      case Rejects(_, _) => Some(GenerateLocalIdea(pools, topic, roll))
      case Resolves(_, response) =>
        if !IsOk(response.status) then Some(GenerateLocalIdea(pools, topic, roll))
        else match ReadJson(response)
          case Err(_) => Some(GenerateLocalIdea(pools, topic, roll))
          case Ok(data) =>
            var text := HfText(data);
            if Truthy(text) then Some(CleanupAiResponse(text.value))
            else Some(GenerateLocalIdea(pools, topic, roll))
  }

  /** Any OK reply whose first item carries a non-empty text reaches the
      caller as that text's first trimmed line, whatever the status code or
      the other items. */
  lemma UsableReplyIsCleanedUp(pools: LegacyPools, token: string, topic: Option<string>, afterMs: nat,
                               status: int, body: string, items: seq<HfItem>, text: string, roll: real)
    requires ValidPools(pools) && 0.0 <= roll < 1.0 && token != [] && text != []
    requires IsOk(status) && |items| > 0 && items[0].generatedText == Some(text)
    ensures LegacyGenerateIdea(pools, Some(token), topic,
              Resolves(afterMs, Response(status, body, Some(HfJson(Some(items))))), roll)
            == Some(FirstSegment(Trim(text), '\n'))
  {
    CleanupIsFirstLine(text);
  }
}
