/** Speech recognition through Yandex SpeechKit
    (src/services/yandex-stt.service.ts): the request URL and the reading of
    the two response shapes the service accepts. */
module YandexStt {
  import opened JsCore
  import opened JsString
  import opened Decimal
  import opened Errors
  import opened Net

  const RecognizeEndpoint := "https://stt.api.cloud.yandex.net/speech/v1/stt:recognize"
  const DefaultLanguage := "ru-RU"
  /** What the service returns when the response carries no usable text. */
  const Unrecognized := "Не удалось распознать речь"
  /** The service name every error message of this module opens with. */
  const ServiceName := "Yandex STT"
  const ApiErrorPrefix := ServiceName + " API error: "
  const StreamingApiErrorPrefix := ServiceName + " streaming API error: "
  const SttErrorPrefix := ServiceName + " error: "

  datatype SttAlternative = SttAlternative(text: Option<string>)

  /** The `result` field: a bare string (API v1), an object whose
      `alternatives` may be absent (API v2), or absent or of any other shape. */
  datatype SttResult = TextResult(text: string) | AlternativesResult(alternatives: Option<seq<SttAlternative>>) | NoResult

  /** The `error` field's object. */
  datatype SttError = SttError(message: Option<string>)

  datatype SttJson = SttJson(result: SttResult, error: Option<SttError>)

  /** The recognition options; an omitted language is `None`. */
  datatype SttRequest = SttRequest(apiKey: string, folderId: string, languageCode: Option<string>)

  function Language(req: SttRequest): string
  {
    if req.languageCode.Some? then req.languageCode.value else DefaultLanguage
  }

  /** The query string of a URL on the recognition endpoint. */
  function QueryOf(url: string): string
  {
    var base := RecognizeEndpoint + "?";
    if |url| >= |base| && url[..|base|] == base then url[|base|..] else ""
  }

  /** The request URL of `recognizeSpeech`. */
  function RecognizeUrl(req: SttRequest): string
  {
    RecognizeEndpoint + "?lang=" + Language(req) + "&folderId=" + req.folderId
  }

  /** The request URL of `recognizeSpeechStreaming`. */
  function StreamingUrl(req: SttRequest): string
  {
    RecognizeUrl(req) + "&format=oggopus"
  }

  /** The query strings of both URLs. */
  lemma UrlQueries(req: SttRequest)
    ensures QueryOf(RecognizeUrl(req)) == "lang=" + Language(req) + "&folderId=" + req.folderId
    ensures QueryOf(StreamingUrl(req)) == "lang=" + Language(req) + "&folderId=" + req.folderId + "&format=oggopus"
  {
    var base := RecognizeEndpoint + "?";
    var query := "lang=" + Language(req) + "&folderId=" + req.folderId;
    assert RecognizeUrl(req) == base + query;
    assert (base + query)[..|base|] == base;
    assert StreamingUrl(req) == base + (query + "&format=oggopus");
    assert (base + (query + "&format=oggopus"))[..|base|] == base;
  }

  /** `name=value` pairs joined by '&' split back into the pairs. */
  lemma SplitParameters(a: string, b: string)
    requires '&' !in a && '&' !in b
    ensures SplitOn(a + "&" + b, '&') == [a, b]
  {
    SplitOnJoin(a, '&', b);
    SplitOnNoSep(b, '&');
  }

  /** The URL carries the language and the folder as its two query
      parameters, provided neither holds an '&' (they are not URL-encoded). */
  lemma RecognizeUrlParameters(req: SttRequest)
    requires '&' !in Language(req) && '&' !in req.folderId
    ensures SplitOn(QueryOf(RecognizeUrl(req)), '&') == ["lang=" + Language(req), "folderId=" + req.folderId]
    ensures req.languageCode.None? ==> SplitOn(QueryOf(RecognizeUrl(req)), '&')[0] == "lang=ru-RU"
  {
    UrlQueries(req);
    var lang := "lang=" + Language(req);
    var folder := "folderId=" + req.folderId;
    assert "lang=" + Language(req) + "&folderId=" + req.folderId == lang + "&" + folder;
    assert '&' !in lang && '&' !in folder by {
      assert forall c :: c in lang ==> c in "lang=" || c in Language(req);
      assert forall c :: c in folder ==> c in "folderId=" || c in req.folderId;
    }
    SplitParameters(lang, folder);
  }

  /** Three parameters split back likewise. */
  lemma SplitThreeParameters(a: string, b: string, c: string)
    requires '&' !in a && '&' !in b && '&' !in c
    ensures SplitOn(a + "&" + b + "&" + c, '&') == [a, b, c]
  {
    assert a + "&" + b + "&" + c == a + ['&'] + (b + "&" + c);
    SplitOnJoin(a, '&', b + "&" + c);
    SplitParameters(b, c);
  }

  /** The streaming URL adds the audio format as a third parameter. */
  lemma StreamingUrlParameters(req: SttRequest)
    requires '&' !in Language(req) && '&' !in req.folderId
    ensures SplitOn(QueryOf(StreamingUrl(req)), '&')
            == ["lang=" + Language(req), "folderId=" + req.folderId, "format=oggopus"]
  {
    UrlQueries(req);
    var lang := "lang=" + Language(req);
    var folder := "folderId=" + req.folderId;
    var format := "format=oggopus";
    assert '&' !in format;
    assert "lang=" + Language(req) + "&folderId=" + req.folderId == lang + "&" + folder;
    assert "lang=" + Language(req) + "&folderId=" + req.folderId + "&format=oggopus" == lang + "&" + folder + "&" + format;
    SplitThreeParameters(lang, folder, format);
  }

  /** The text of the first alternative, when the result has one. */
  function FirstAlternativeText(result: SttResult): (t: Option<string>)
    ensures t.Some? <==> && result.AlternativesResult? && result.alternatives.Some?
                         && |result.alternatives.value| > 0 && result.alternatives.value[0].text.Some?
    ensures t.Some? ==> t.value == result.alternatives.value[0].text.value
  {
    match result
    case AlternativesResult(Some(alts)) => if |alts| > 0 then alts[0].text else None
    case _ => None
  }

  /** The text `recognizeSpeech` takes from a well-formed body. */
  function NormalizeResult(result: SttResult): (text: string)
    ensures result.TextResult? ==> text == result.text
    ensures !result.TextResult? && Truthy(FirstAlternativeText(result)) ==> text == FirstAlternativeText(result).value
    ensures !result.TextResult? && !Truthy(FirstAlternativeText(result)) ==> text == Unrecognized
  {
    if result.TextResult? then result.text else TextOrPlaceholder(FirstAlternativeText(result))
  }

  /** `text || "Не удалось распознать речь"`. */
  function TextOrPlaceholder(text: Option<string>): (r: string)
    ensures r != ""
  {
    if Truthy(text) then text.value else Unrecognized
  }

  /** `String(error.message)`, which is "undefined" when there is none. */
  function MessageText(message: Option<string>): string
  {
    if message.Some? then message.value else "undefined"
  }

  /** `recognizeSpeech(request)`, where `fetched` is how the POST settled.
      There is no deadline here; the caller races the call. */
  function RecognizeSpeech(fetched: Result<Response<SttJson>, Failure>): (r: Result<string, Failure>)
    ensures fetched.Err? ==> r == Err(fetched.error)
    ensures fetched.Ok? && !IsOk(fetched.value.status) ==>
              && r.Err? && r.error.Name() == "Error"
              && StatusAfter(r.error.message, ApiErrorPrefix) == Some(fetched.value.status)
    ensures fetched.Ok? && IsOk(fetched.value.status) && fetched.value.json.None? ==> r == Err(JsonSyntaxError)
    ensures r.Ok? ==> fetched.Ok? && IsOk(fetched.value.status) && fetched.value.json.Some?
                      && fetched.value.json.value.error.None?
                      && r.value == NormalizeResult(fetched.value.json.value.result)
    ensures fetched.Ok? && IsOk(fetched.value.status) && fetched.value.json.Some?
            && fetched.value.json.value.error.Some? ==>
              r == Err(PlainError(SttErrorPrefix + MessageText(fetched.value.json.value.error.value.message)))
    ensures fetched.Ok? && IsOk(fetched.value.status) && fetched.value.json.Some?
            && fetched.value.json.value.error.None? ==>
              r == Ok(NormalizeResult(fetched.value.json.value.result))
  {
    match fetched
    case Err(e) => Err(e)
    case Ok(response) =>
      if !IsOk(response.status) then
        StatusAfterMessage(ApiErrorPrefix, response.status, "");
        assert ApiErrorPrefix + IntToString(response.status) + "" == ApiErrorPrefix + IntToString(response.status);
        Err(PlainError(ApiErrorPrefix + IntToString(response.status)))
      else match ReadJson(response)
        case Err(e) => Err(e)
        case Ok(data) =>
          if data.error.Some? then Err(PlainError(SttErrorPrefix + MessageText(data.error.value.message)))
          else Ok(NormalizeResult(data.result))
  }

  /** An error field fails the call whatever the result holds. */
  lemma ErrorFieldWins(status: int, text: string, result: SttResult, error: SttError)
    requires IsOk(status)
    ensures RecognizeSpeech(Ok(Response(status, text, Some(SttJson(result, Some(error)))))).Err?
  {
  }

  /** A string result is returned as it is, the empty string included. */
  lemma StringResultVerbatim(status: int, body: string, text: string)
    requires IsOk(status)
    ensures RecognizeSpeech(Ok(Response(status, body, Some(SttJson(TextResult(text), None))))) == Ok(text)
    ensures RecognizeSpeech(Ok(Response(status, body, Some(SttJson(TextResult(""), None))))) == Ok("")
  {
  }

  /** `recognizeSpeechStreaming(request)`: only the alternatives shape is read
      and the `error` field is not looked at. */
  function RecognizeSpeechStreaming(fetched: Result<Response<SttJson>, Failure>): (r: Result<string, Failure>)
    ensures fetched.Err? ==> r == Err(fetched.error)
    ensures fetched.Ok? && !IsOk(fetched.value.status) ==>
              && r.Err? && r.error.Name() == "Error"
              && StatusAfter(r.error.message, StreamingApiErrorPrefix) == Some(fetched.value.status)
    ensures fetched.Ok? && IsOk(fetched.value.status) && fetched.value.json.None? ==> r == Err(JsonSyntaxError)
    ensures fetched.Ok? && IsOk(fetched.value.status) && fetched.value.json.Some? ==> r.Ok?
    ensures r.Ok? && Truthy(FirstAlternativeText(fetched.value.json.value.result)) ==>
              r.value == FirstAlternativeText(fetched.value.json.value.result).value
    ensures r.Ok? && !Truthy(FirstAlternativeText(fetched.value.json.value.result)) ==> r.value == Unrecognized
  {
    match fetched
    case Err(e) => Err(e)
    case Ok(response) =>
      if !IsOk(response.status) then
        StatusAfterMessage(StreamingApiErrorPrefix, response.status, "");
        assert StreamingApiErrorPrefix + IntToString(response.status) + ""
            == StreamingApiErrorPrefix + IntToString(response.status);
        Err(PlainError(StreamingApiErrorPrefix + IntToString(response.status)))
      else match ReadJson(response)
        case Err(e) => Err(e)
        case Ok(data) =>
          Ok(TextOrPlaceholder(FirstAlternativeText(data.result)))
  }

  /** On an error-free body that is not a bare string the two variants agree;
      on a bare string the streaming variant gives the placeholder. */
  lemma StreamingAgreesOnAlternatives(status: int, body: string, result: SttResult)
    requires IsOk(status)
    ensures !result.TextResult? ==>
              RecognizeSpeechStreaming(Ok(Response(status, body, Some(SttJson(result, None)))))
              == RecognizeSpeech(Ok(Response(status, body, Some(SttJson(result, None)))))
    ensures result.TextResult? ==>
              RecognizeSpeechStreaming(Ok(Response(status, body, Some(SttJson(result, None))))) == Ok(Unrecognized)
  {
  }
}
