/** `callYandexGPT` (src/services/yandex-gpt.service.ts): one completion
    request to YandexGPT under an abort timer. */
module YandexGpt {
  import opened JsCore
  import opened JsString
  import opened Decimal
  import opened Errors
  import opened Config
  import opened Net

  const COMPLETION_URL := "https://llm.api.cloud.yandex.net/foundationModels/v1/completion"

  /** The call's options; an omitted option is `None` and takes its default. */
  datatype GptRequest = GptRequest(
    folderId: string,
    apiKey: string,
    prompt: string,
    maxTokens: Option<int>,
    temperature: Option<real>,
    timeout: Option<nat>)

  datatype ChatMessage = ChatMessage(role: string, text: string)

  /** The JSON body posted to the completion endpoint. */
  datatype CompletionBody = CompletionBody(
    modelUri: string,
    stream: bool,
    temperature: real,
    maxTokens: string,
    messages: seq<ChatMessage>)

  /** One entry of `result.alternatives`; `text` is `None` when the entry has
      no message or its message has no text. */
  datatype Alternative = Alternative(text: Option<string>)

  /** The parts of a response body the client reads: `result.alternatives`
      (`None` when `result` or `alternatives` is missing) and the `message`
      of an error body. */
  datatype GptJson = GptJson(alternatives: Option<seq<Alternative>>, message: Option<string>)

  const ModelUriScheme := "gpt://"

  /** The model a folder's completions run on. */
  function ModelUri(folderId: string): string
  {
    ModelUriScheme + folderId + "/" + YANDEX_MODEL
  }

  /** Reads the folder back out of a model URI of the lite model. */
  function FolderOfModelUri(uri: string): Option<string>
  {
    var suffix := "/" + YANDEX_MODEL;
    if |uri| >= |ModelUriScheme| + |suffix| && uri[..|ModelUriScheme|] == ModelUriScheme
       && uri[|uri| - |suffix|..] == suffix
    then Some(uri[|ModelUriScheme|..|uri| - |suffix|])
    else None
  }

  /** Every folder id, whatever it contains, survives the model URI. */
  lemma ModelUriNamesFolder(folderId: string)
    ensures FolderOfModelUri(ModelUri(folderId)) == Some(folderId)
  {
    var uri := ModelUri(folderId);
    var suffix := "/" + YANDEX_MODEL;
    assert uri == ModelUriScheme + folderId + suffix;
    assert uri[..|ModelUriScheme|] == ModelUriScheme;
    assert uri[|uri| - |suffix|..] == suffix;
    assert uri[|ModelUriScheme|..|uri| - |suffix|] == folderId;
  }

  function EffectiveMaxTokens(req: GptRequest): int
  {
    if req.maxTokens.Some? then req.maxTokens.value else YANDEX_MAX_TOKENS
  }

  function EffectiveTimeout(req: GptRequest): nat
  {
    if req.timeout.Some? then req.timeout.value else REQUEST_TIMEOUT
  }

  /** The request body: a single user message carrying the prompt, streaming
      off, the token budget written as a decimal string. */
  function RequestBody(req: GptRequest): (b: CompletionBody)
    ensures FolderOfModelUri(b.modelUri) == Some(req.folderId)
    ensures ParseInt(b.maxTokens) == Some(EffectiveMaxTokens(req))
    ensures req.maxTokens.None? ==> ParseInt(b.maxTokens) == Some(400)
    ensures req.temperature.Some? ==> b.temperature == req.temperature.value
    ensures req.temperature.None? ==> b.temperature == 0.8
    ensures !b.stream
    ensures b.messages == [ChatMessage("user", req.prompt)]
  {
    ModelUriNamesFolder(req.folderId);
    ParseIntToString(EffectiveMaxTokens(req));
    CompletionBody(
      ModelUri(req.folderId),
      false,
      if req.temperature.Some? then req.temperature.value else YANDEX_TEMPERATURE,
      IntToString(EffectiveMaxTokens(req)),
      [ChatMessage("user", req.prompt)])
  }

  /** The request headers: the API key and the folder. */
  function RequestHeaders(req: GptRequest): (h: map<string, string>)
    ensures h.Keys == {"Authorization", "Content-Type", "x-folder-id"}
    ensures h["Authorization"] == "Api-Key " + req.apiKey
    ensures h["x-folder-id"] == req.folderId
  {
    map["Authorization" := "Api-Key " + req.apiKey,
        "Content-Type" := "application/json",
        "x-folder-id" := req.folderId]
  }

  /** `data.result?.alternatives?.[0]?.message?.text`. */
  function ReplyText(data: GptJson): (t: Option<string>)
    ensures t.Some? <==> data.alternatives.Some? && |data.alternatives.value| > 0
                         && data.alternatives.value[0].text.Some?
    ensures t.Some? ==> t.value == data.alternatives.value[0].text.value
  {
    match data.alternatives
    case Some(alts) => if |alts| > 0 then alts[0].text else None
    case None => None
  }

  /** The details of a failed response: the `message` of a JSON error body
      when it is non-empty, else the raw body. */
  function ErrorDetails(response: Response<GptJson>): (d: string)
    ensures response.json.Some? && Truthy(response.json.value.message) ==> d == response.json.value.message.value
    ensures !(response.json.Some? && Truthy(response.json.value.message)) ==> d == response.text
  {
    match response.json
    case Some(j) => if Truthy(j.message) then j.message.value else response.text
    case None => response.text
  }

  const ApiErrorPrefix := "YandexGPT API error: "
  const InvalidFormat := "Invalid YandexGPT response format"
  const RequestTimeout := "YandexGPT request timeout"

  /** The steps after the response arrived, inside the `try`. */
  function HandleResponse(response: Response<GptJson>): (r: Result<string, Failure>)
    ensures r.Err? ==> r.error.Name() != "AbortError"
    ensures !IsOk(response.status) ==> r.Err? && StatusAfter(r.error.message, ApiErrorPrefix) == Some(response.status)
    ensures !IsOk(response.status) ==>
              r == Err(PlainError(ApiErrorPrefix + IntToString(response.status) + " - " + ErrorDetails(response)))
    ensures IsOk(response.status) && response.json.None? ==> r == Err(JsonSyntaxError)
    ensures IsOk(response.status) && response.json.Some? && !Truthy(ReplyText(response.json.value)) ==>
              r == Err(PlainError(InvalidFormat))
  {
    if !IsOk(response.status) then
      var rest := " - " + ErrorDetails(response);
      StatusAfterMessage(ApiErrorPrefix, response.status, rest);
      assert ApiErrorPrefix + IntToString(response.status) + rest
          == ApiErrorPrefix + IntToString(response.status) + " - " + ErrorDetails(response);
      Err(PlainError(ApiErrorPrefix + IntToString(response.status) + rest))
    else match ReadJson(response)
      case Err(e) => Err(e)
      case Ok(data) =>
        var text := ReplyText(data);
        if !Truthy(text) then Err(PlainError(InvalidFormat)) else Ok(Trim(text.value))
  }

  /** `callYandexGPT(request)`, where `fetched` is how the POST settles. The
      abort timer covers the fetch; an abort becomes a timeout error and any
      other error is rethrown unchanged. */
  function CallYandexGpt(req: GptRequest, fetched: Timed<Response<GptJson>>): (r: Result<string, Failure>)
    ensures r.Ok? <==> && fetched.Resolves? && fetched.afterMs < EffectiveTimeout(req)
                       && IsOk(fetched.value.status) && fetched.value.json.Some?
                       && Truthy(ReplyText(fetched.value.json.value))
    ensures r.Ok? ==> r.value == Trim(ReplyText(fetched.value.json.value).value)
    ensures (fetched.Pending? || fetched.afterMs >= EffectiveTimeout(req)) ==> r == Err(PlainError(RequestTimeout))
    ensures fetched.Resolves? && fetched.afterMs < EffectiveTimeout(req) && !IsOk(fetched.value.status) ==>
              r.Err? && StatusAfter(r.error.message, ApiErrorPrefix) == Some(fetched.value.status)
    ensures fetched.Resolves? && fetched.afterMs < EffectiveTimeout(req) && !IsOk(fetched.value.status) ==>
              r == Err(PlainError(ApiErrorPrefix + IntToString(fetched.value.status) + " - " + ErrorDetails(fetched.value)))
    ensures fetched.Resolves? && fetched.afterMs < EffectiveTimeout(req) && IsOk(fetched.value.status)
            && fetched.value.json.None? ==>
              r == Err(JsonSyntaxError)
    ensures fetched.Resolves? && fetched.afterMs < EffectiveTimeout(req) && IsOk(fetched.value.status)
            && fetched.value.json.Some? && !Truthy(ReplyText(fetched.value.json.value)) ==>
              r == Err(PlainError(InvalidFormat))
    ensures fetched.Rejects? && fetched.afterMs < EffectiveTimeout(req) ==>
              r == Err(if fetched.error.Name() == "AbortError" then PlainError(RequestTimeout) else fetched.error)
  {
    var outcome := match FetchWithAbort(fetched, EffectiveTimeout(req))
      case Ok(response) => HandleResponse(response)
      case Err(e) => Err(e);
    if outcome.Err? && outcome.error.Name() == "AbortError" then
      Err(PlainError(RequestTimeout))
    else
      outcome
  }

  /** A JSON reply whose first alternative carries `text`. */
  function Completed(text: string): Response<GptJson>
  {
    Response(200, text, Some(GptJson(Some([Alternative(Some(text))]), None)))
  }

  /** A well-formed reply arriving in time hands back its text, trimmed. */
  lemma CompletedReplyRoundTrip(req: GptRequest, text: string, afterMs: nat)
    requires text != [] && !IsSpace(text[0]) && !IsSpace(text[|text| - 1])
    requires afterMs < EffectiveTimeout(req)
    ensures CallYandexGpt(req, Resolves(afterMs, Completed(text))) == Ok(text)
  {
    TrimOfTrimmed(text);
  }

  /** A reply text made only of white space passes the format check and
      comes back empty. */
  lemma BlankReplyComesBackEmpty(req: GptRequest, afterMs: nat, blank: string)
    requires afterMs < EffectiveTimeout(req) && blank != "" && AllSpace(blank)
    ensures CallYandexGpt(req, Resolves(afterMs, Completed(blank))) == Ok("")
  {
    TrimEmptyIffAllSpace(blank);
  }
}
