/** The voice-message handler (src/handlers/voice.handler.ts): guards,
    download, speech recognition, the trigger-phrase gate, idea generation
    through Groq, and the reply chosen for each failure. */
module Voice {
  import opened JsCore
  import opened JsString
  import opened Decimal
  import opened Errors
  import opened Config
  import opened Net
  import opened YandexStt

  /** The phrase a recognised request must open with. */
  const TriggerPhrase := "придумай идею"

  /** `isAddressedToBot(text)`: lower-case, trim, then look for the phrase at the start. */
  predicate IsAddressedToBot(text: string)
    ensures IsAddressedToBot(text) ==> |text| >= |TriggerPhrase|
  {
    StartsWith(Trim(Lower(text)), TriggerPhrase)
  }

  /** Leading white space does not matter to the gate. */
  lemma GateIgnoresLeadingSpace(w: string, text: string)
    requires AllSpace(w)
    ensures IsAddressedToBot(w + text) <==> IsAddressedToBot(text)
  {
    LowerConcat(w, text);
    LowerKeepsSpace(w);
    TrimSkipsSpace(w, Lower(text));
  }

  /** Letter case does not matter to the gate. */
  lemma GateIgnoresCase(a: string, b: string)
    requires Lower(a) == Lower(b)
    ensures IsAddressedToBot(a) <==> IsAddressedToBot(b)
  {
  }

  /** Any text that opens with the phrase, in any letter case, passes. */
  lemma TriggerPhraseOpens(opening: string, rest: string)
    requires Lower(opening) == TriggerPhrase
    ensures IsAddressedToBot(opening + rest)
  {
    LowerConcat(opening, rest);
    TrimKeepsSolidPrefix(TriggerPhrase, Lower(rest));
  }

  /** The phrase itself, capitalised or not, passes; an empty text does not. */
  lemma GateExamples()
    ensures IsAddressedToBot("Придумай идею")
    ensures !IsAddressedToBot("")
  {
    assert "Придумай идею" == "Придумай идею" + "";
    TriggerPhraseOpens("Придумай идею", "");
  }

  const VoicePromptOpening := "Пользователь попросил голосом: \""
  const VoicePromptRest := "\"\n"
    + "\n"
    + "Сгенерируй AI-first бизнес-идею, учитывая его запрос.\n"
    + "\n"
    + "ТРЕБОВАНИЯ:\n"
    + "- Команда 2-5 человек\n"
    + "- Стартовый бюджет до 500к₽\n"
    + "- MVP за 1-3 месяца\n"
    + "- Рынок России\n"
    + "- AI - это ЯДРО продукта, не просто функция\n"
    + "\n"
    + "ФОРМАТ ОТВЕТА (СТРОГО):\n"
    + "🎯 ПРОБЛЕМА: [1-2 предложения] конкретная боль + цифры\n"
    + "💡 РЕШЕНИЕ: [1-2 предложения] конкретная AI-технология (GPT-4, YOLOv8, Whisper и т.д.)\n"
    + "💰 МОНЕТИЗАЦИЯ: [1 предложение] модель + чек в рублях\n"
    + "📈 ROI: [1 предложение] экономия клиента в рублях или часах\n"
    + "\n"
    + "ЗАПРЕЩЕНО:\n"
    + "❌ Общие фразы без конкретики\n"
    + "❌ \"Машинное обучение\", \"алгоритмы AI\" без указания технологии\n"
    + "❌ Доллары ($) - только рубли (₽)\n"
    + "\n"
    + "ПРИМЕР:\n"
    + "🎯 ПРОБЛЕМА: Рестораны тратят 20 часов/нед на составление меню и прогноз закупок, потери от порчи продуктов 15% выручки.\n"
    + "💡 РЕШЕНИЕ: GPT-4 анализирует продажи за год, погоду, события в городе и генерирует меню + список закупок на неделю за 5 минут.\n"
    + "💰 МОНЕТИЗАЦИЯ: SaaS 12к₽/мес за ресторан или 5к₽/мес для кафе.\n"
    + "📈 ROI: Экономия 20 часов/нед (100к₽ при ЗП шефа 200к₽) + снижение порчи на 10% (50к₽/мес) = 135к₽/мес экономии.\n"
    + "\n"
    + "Твой ответ:"

  /** `buildVoicePrompt(userRequest)`: the request is quoted verbatim inside a fixed template. */
  function BuildVoicePrompt(request: string): (p: string)
    ensures StartsWith(p, VoicePromptOpening)
    ensures |p| == |VoicePromptOpening| + |request| + |VoicePromptRest|
    ensures p[|VoicePromptOpening|..|VoicePromptOpening| + |request|] == request
    ensures p[|VoicePromptOpening| + |request|..] == VoicePromptRest
  {
    VoicePromptOpening + request + VoicePromptRest
  }

  /** Reads the request back out of a voice prompt. */
  function RequestOfPrompt(p: string): Option<string>
  {
    if |p| >= |VoicePromptOpening| + |VoicePromptRest| then
      Some(p[|VoicePromptOpening|..|p| - |VoicePromptRest|])
    else None
  }

  /** The prompt loses nothing of the request, whatever it contains. */
  lemma VoicePromptRoundTrip(request: string)
    ensures RequestOfPrompt(BuildVoicePrompt(request)) == Some(request)
  {
  }

  /** What the handler answers when generation fails in any way. */
  const Apology := "Извините, не удалось сгенерировать идею. Попробуйте сформулировать запрос по-другому или используйте команду /idea."

  /** One entry of Groq's `choices`; `content` is `None` when the message or its content is absent. */
  datatype GroqChoice = GroqChoice(content: Option<string>)

  /** A Groq response body; `choices` is `None` when absent. */
  datatype GroqJson = GroqJson(choices: Option<seq<GroqChoice>>)

  /** `data.choices?.[0]?.message?.content?.trim()`. */
  function GroqIdea(data: GroqJson): (idea: Option<string>)
    ensures idea.Some? <==> data.choices.Some? && |data.choices.value| > 0 && data.choices.value[0].content.Some?
    ensures idea.Some? ==> idea.value == Trim(data.choices.value[0].content.value)
  {
    match data.choices
    case Some(cs) => if |cs| > 0 && cs[0].content.Some? then Some(Trim(cs[0].content.value)) else None
    case None => None
  }

  /** The outcome of the Groq call once the POST settled: the trimmed idea,
      or the apology on a failed status, a body that is not JSON, an absent
      or blank idea, or a rejected fetch. */
  function VoiceIdeaOutcome(fetched: Result<Response<GroqJson>, Failure>): (idea: string)
    ensures idea != ""
    ensures idea != Apology ==> && fetched.Ok? && IsOk(fetched.value.status) && fetched.value.json.Some?
                                && Truthy(GroqIdea(fetched.value.json.value))
                                && idea == GroqIdea(fetched.value.json.value).value
  {
    match fetched
    case Err(_) => Apology
    case Ok(response) =>
      if !IsOk(response.status) then Apology
      else match ReadJson(response)
        case Err(_) => Apology
        case Ok(data) =>
          var idea := GroqIdea(data);
          if Truthy(idea) then idea.value else Apology
  }

  /** `generateIdeaFromVoice(userRequest)`, where `fetched` is how the Groq
      POST settles. It never rejects: it settles when the POST does, with an
      idea or the apology. */
  function GenerateIdeaFromVoice(fetched: Timed<Response<GroqJson>>): (r: Timed<string>)
    ensures !r.Rejects?
    ensures r.Pending? <==> fetched.Pending?
    ensures r.Resolves? ==> r.afterMs == fetched.afterMs && r.value != ""
    ensures fetched.Rejects? ==> r == Resolves(fetched.afterMs, Apology)
    ensures fetched.Resolves? ==> r == Resolves(fetched.afterMs, VoiceIdeaOutcome(Ok(fetched.value)))
  {
    match fetched
    case Pending => Pending
    case Rejects(t, e) => Resolves(t, VoiceIdeaOutcome(Err(e)))
    case Resolves(t, response) => Resolves(t, VoiceIdeaOutcome(Ok(response)))
  }

  /** A usable idea comes back trimmed. */
  lemma VoiceIdeaExamples(afterMs: nat, idea: string)
    requires idea != [] && !IsSpace(idea[0]) && !IsSpace(idea[|idea| - 1])
    ensures GenerateIdeaFromVoice(Resolves(afterMs, Response(200, "", Some(GroqJson(Some([GroqChoice(Some(" " + idea + "\n"))]))))))
            == Resolves(afterMs, idea)
  {
    assert AllSpace(" ") && AllSpace("\n");
    TrimOfPadded(" ", idea, "\n");
    var data := GroqJson(Some([GroqChoice(Some(" " + idea + "\n"))]));
    assert GroqIdea(data) == Some(idea);
  }

  /** A blank idea, empty or white space only, gives the apology. */
  lemma BlankVoiceIdeaApologises(afterMs: nat, blank: string)
    requires AllSpace(blank)
    ensures GenerateIdeaFromVoice(Resolves(afterMs, Response(200, "", Some(GroqJson(Some([GroqChoice(Some(blank))]))))))
            == Resolves(afterMs, Apology)
  {
    TrimEmptyIffAllSpace(blank);
  }

  // Replies.
  const UnavailableReply := "❌ Голосовые сообщения недоступны: не настроены Yandex API ключи.\n\n"
    + "Для работы с голосовыми сообщениями требуются:\n"
    + "• YANDEX_API_KEY\n"
    + "• YANDEX_FOLDER_ID\n\n"
    + "Текущие команды работают: /idea, /help"
  const TooLongReply := "⏱ Голосовое сообщение слишком длинное.\n\n"
    + "Пожалуйста, отправьте сообщение не длиннее 30 секунд."
  const SttFailedReply := "❌ Не удалось распознать речь.\n\n"
    + "Возможные причины:\n"
    + "• Плохое качество звука\n"
    + "• Слишком тихая запись\n"
    + "• Проблемы с Yandex SpeechKit API\n\n"
    + "Попробуйте записать сообщение еще раз."
  const DownloadFailedReply := "❌ Не удалось загрузить голосовое сообщение.\n\n"
    + "Попробуйте отправить его еще раз."
  const GenericFailureReply := "❌ Произошла ошибка при обработке голосового сообщения.\n\n"
    + "Попробуйте еще раз или используйте текстовые команды."
  const IdeaReplyPrefix := "💡 "

  /** Voice notes longer than this many seconds are refused. */
  const MaxVoiceSeconds := 30
  const DownloadDeadlineMs: nat := 10000
  const SttDeadlineMs: nat := 15000
  const IdeaDeadlineMs: nat := 20000
  const DownloadTimeout := "Audio download timeout"
  const DownloadFailedPrefix := "Failed to " + "download audio" + ": "
  const SttTimeout := "STT timeout"
  const IdeaTimeout := "Idea generation timeout"

  /** The reply for an error caught by the handler, chosen by its message. */
  function ErrorReply(message: string): (reply: string)
    ensures Contains(message, "Yandex STT") ==> reply == SttFailedReply
    ensures !Contains(message, "Yandex STT") && Contains(message, "download audio") ==> reply == DownloadFailedReply
    ensures !Contains(message, "Yandex STT") && !Contains(message, "download audio") ==> reply == GenericFailureReply
  {
    if Contains(message, "Yandex STT") then SttFailedReply
    else if Contains(message, "download audio") then DownloadFailedReply
    else GenericFailureReply
  }

  /** Every error of the recognition service gets the recognition reply. */
  lemma SttErrorsGetSttReply(status: int, message: string)
    ensures ErrorReply(YandexStt.ApiErrorPrefix + IntToString(status)) == SttFailedReply
    ensures ErrorReply(SttErrorPrefix + message) == SttFailedReply
  {
    ContainsInfix("", ServiceName, " API error: " + IntToString(status));
    assert YandexStt.ApiErrorPrefix + IntToString(status) == "" + ServiceName + (" API error: " + IntToString(status));
    ContainsInfix("", ServiceName, " error: " + message);
    assert SttErrorPrefix + message == "" + ServiceName + (" error: " + message);
  }

  /** A failed download status gets the download reply. */
  lemma DownloadStatusGetsDownloadReply(status: int)
    ensures ErrorReply(DownloadFailedPrefix + IntToString(status)) == DownloadFailedReply
  {
    var message := DownloadFailedPrefix + IntToString(status);
    ContainsInfix("Failed to ", "download audio", ": " + IntToString(status));
    assert message == "Failed to " + "download audio" + (": " + IntToString(status));
    IntToStringChars(status);
    assert 'Y' !in DownloadFailedPrefix;
    assert 'Y' !in message by {
      forall k | 0 <= k < |message| ensures message[k] != 'Y' {
        if k >= |DownloadFailedPrefix| {
          assert message[k] == IntToString(status)[k - |DownloadFailedPrefix|];
        }
      }
    }
    MissingFirstCharNotContained(message, ServiceName);
  }

  /** The download deadline's own error names neither the recognition
      service nor "download audio", so it gets the generic reply. */
  lemma DownloadTimeoutGetsGenericReply()
    ensures ErrorReply(DownloadTimeout) == GenericFailureReply
  {
    var s := DownloadTimeout;
    forall i | 0 <= i <= |s| ensures !OccursAt(s, "Yandex STT", i) {
      if OccursAt(s, "Yandex STT", i) {
        OccursAtChar(s, "Yandex STT", i, 0);
        assert false;
      }
    }
    forall i | 0 <= i <= |s| ensures !OccursAt(s, "download audio", i) {
      if OccursAt(s, "download audio", i) {
        OccursAtChar(s, "download audio", i, 0);
        OccursAtChar(s, "download audio", i, 1);
        OccursAtChar(s, "download audio", i, 9);
        assert false;
      }
    }
  }

  /** The voice credentials the handler checks. */
  datatype VoiceSettings = VoiceSettings(apiKey: Option<string>, folderId: Option<string>)

  /** The settings as the handler reads them from `config`: the configuration
      object has no `yandexApiKey`, so the key is always undefined. */
  function VoiceSettingsAsWritten(cfg: BotConfig): (s: VoiceSettings)
    ensures s.apiKey.None? && s.folderId == cfg.yandexFolderId
  {
    VoiceSettings(None, cfg.yandexFolderId)
  }

  /** The settings once `getConfig` also reads YANDEX_API_KEY, as the
      unavailable reply and the STT call evidently expect. */
  function VoiceSettingsOf(env: Env, cfg: BotConfig): (s: VoiceSettings)
    ensures s.apiKey == Var(env, "YANDEX_API_KEY") && s.folderId == cfg.yandexFolderId
  {
    VoiceSettings(Var(env, "YANDEX_API_KEY"), cfg.yandexFolderId)
  }

  /** A voice message as the handler sees it. */
  datatype VoiceNote = VoiceNote(duration: int, fileId: string)

  /** How each outside call settles: `sendChatAction`, `getFileLink`, the
      audio download, the SpeechKit POST and the Groq POST. */
  datatype VoiceWorld = VoiceWorld(
    typing: Option<Failure>,
    fileLink: Result<string, Failure>,
    download: Timed<Response<()>>,
    stt: Timed<Response<SttJson>>,
    groq: Timed<Response<GroqJson>>)

  /** What the handler did: the replies it sent, and which outside calls it made. */
  datatype VoiceTrace = VoiceTrace(replies: seq<string>, typing: bool, downloaded: bool, recognized: bool, generated: bool)

  /** Step 1: the file link, then the download raced against 10 s. */
  function DownloadStage(world: VoiceWorld): (r: Result<(), Failure>)
    ensures r.Ok? <==> && world.fileLink.Ok? && world.download.Resolves?
                       && world.download.afterMs < DownloadDeadlineMs && IsOk(world.download.value.status)
    ensures world.fileLink.Ok? && (world.download.Pending? || world.download.afterMs >= DownloadDeadlineMs) ==>
              r == Err(PlainError(DownloadTimeout))
    ensures world.fileLink.Ok? && world.download.Resolves? && world.download.afterMs < DownloadDeadlineMs
            && !IsOk(world.download.value.status) ==>
              r == Err(PlainError(DownloadFailedPrefix + IntToString(world.download.value.status)))
    ensures world.fileLink.Err? ==> r == Err(world.fileLink.error)
    ensures world.fileLink.Ok? && world.download.Rejects? && world.download.afterMs < DownloadDeadlineMs ==>
              r == Err(world.download.error)
  {
    match world.fileLink
    case Err(e) => Err(e)
    case Ok(_) =>
      match Race(world.download, DownloadDeadlineMs)
      case Expired => Err(PlainError(DownloadTimeout))
      case Failed(e) => Err(e)
      case Won(response) =>
        if IsOk(response.status) then Ok(()) else Err(PlainError(DownloadFailedPrefix + IntToString(response.status)))
  }

  /** Step 2: recognition raced against 15 s. */
  function SttStage(world: VoiceWorld): (r: Result<string, Failure>)
    ensures r.Ok? ==> world.stt.Resolves? && world.stt.afterMs < SttDeadlineMs
                      && r == RecognizeSpeech(Ok(world.stt.value))
    ensures (world.stt.Pending? || world.stt.afterMs >= SttDeadlineMs) ==> r == Err(PlainError(SttTimeout))
    ensures world.stt.Resolves? && world.stt.afterMs < SttDeadlineMs ==> r == RecognizeSpeech(Ok(world.stt.value))
    ensures world.stt.Rejects? && world.stt.afterMs < SttDeadlineMs ==> r == Err(world.stt.error)
  {
    match Race(world.stt, SttDeadlineMs)
    case Expired => Err(PlainError(SttTimeout))
    case Failed(e) => RecognizeSpeech(Err(e))
    case Won(response) => RecognizeSpeech(Ok(response))
  }

  /** Step 3: generation raced against 20 s. */
  function IdeaStage(world: VoiceWorld): (r: Result<string, Failure>)
    ensures r.Ok? <==> !world.groq.Pending? && world.groq.afterMs < IdeaDeadlineMs
    ensures r.Ok? && world.groq.Resolves? ==> r.value == VoiceIdeaOutcome(Ok(world.groq.value))
    ensures r.Ok? && world.groq.Rejects? ==> r.value == Apology
    ensures r.Err? ==> r.error == PlainError(IdeaTimeout)
  {
    match Race(GenerateIdeaFromVoice(world.groq), IdeaDeadlineMs)
    case Won(idea) => Ok(idea)
    case Failed(_) => Err(PlainError(IdeaTimeout))
    case Expired => Err(PlainError(IdeaTimeout))
  }

  /** The steps after the guards: typing, download, recognition, the gate and
      generation, with the reply each ending sends. */
  function Pipeline(world: VoiceWorld): (t: VoiceTrace)
    ensures t.typing && |t.replies| <= 1
    ensures world.typing.Some? ==> t.replies == [ErrorReply(world.typing.value.message)] && !t.downloaded
    ensures t.downloaded <==> world.typing.None? && world.fileLink.Ok?
    ensures t.recognized <==> world.typing.None? && DownloadStage(world).Ok?
    ensures world.typing.None? && DownloadStage(world).Err? ==>
              t.replies == [ErrorReply(DownloadStage(world).error.message)]
    ensures t.recognized && SttStage(world).Err? ==>
              t.replies == [ErrorReply(SttStage(world).error.message)] && !t.generated
    ensures t.generated <==> t.recognized && SttStage(world).Ok? && IsAddressedToBot(SttStage(world).value)
    ensures t.recognized && SttStage(world).Ok? && !IsAddressedToBot(SttStage(world).value) ==> t.replies == []
    ensures t.generated && IdeaStage(world).Ok? ==> t.replies == [IdeaReplyPrefix + IdeaStage(world).value]
    ensures t.generated && IdeaStage(world).Err? ==> t.replies == [ErrorReply(IdeaStage(world).error.message)]
  {
    if world.typing.Some? then VoiceTrace([ErrorReply(world.typing.value.message)], true, false, false, false)
    else match DownloadStage(world)
      case Err(e) => VoiceTrace([ErrorReply(e.message)], true, world.fileLink.Ok?, false, false)
      case Ok(_) =>
        match SttStage(world)
        case Err(e) => VoiceTrace([ErrorReply(e.message)], true, true, true, false)
        case Ok(text) =>
          if !IsAddressedToBot(text) then VoiceTrace([], true, true, true, false)
          else match IdeaStage(world)
            case Err(e) => VoiceTrace([ErrorReply(e.message)], true, true, true, true)
            case Ok(idea) => VoiceTrace([IdeaReplyPrefix + idea], true, true, true, true)
  }

  /** The guards pass: both credentials set and the note at most 30 s long. */
  predicate PassesGuards(settings: VoiceSettings, note: VoiceNote)
  {
    Truthy(settings.apiKey) && Truthy(settings.folderId) && note.duration <= MaxVoiceSeconds
  }

  /** `voiceHandler(ctx)` for an update that carries `note` (`None` for any
      other message). */
  function VoiceHandler(settings: VoiceSettings, note: Option<VoiceNote>, world: VoiceWorld): (t: VoiceTrace)
    ensures |t.replies| <= 1
    ensures note.None? ==> t == VoiceTrace([], false, false, false, false)
    ensures note.Some? && !(Truthy(settings.apiKey) && Truthy(settings.folderId)) ==>
              t == VoiceTrace([UnavailableReply], false, false, false, false)
    ensures note.Some? && Truthy(settings.apiKey) && Truthy(settings.folderId) && note.value.duration > MaxVoiceSeconds ==>
              t == VoiceTrace([TooLongReply], false, false, false, false)
    ensures t.typing <==> note.Some? && PassesGuards(settings, note.value)
    ensures note.Some? && PassesGuards(settings, note.value) ==> t == Pipeline(world)
    ensures t.downloaded ==> t.typing && world.typing.None? && world.fileLink.Ok?
    ensures t.recognized ==> t.downloaded && DownloadStage(world).Ok?
    ensures t.generated ==> t.recognized && SttStage(world).Ok? && IsAddressedToBot(SttStage(world).value)
    ensures t.recognized && SttStage(world).Ok? && !IsAddressedToBot(SttStage(world).value) ==>
              t.replies == [] && !t.generated
    ensures t.generated && IdeaStage(world).Ok? ==> t.replies == [IdeaReplyPrefix + IdeaStage(world).value]
  {
    if note.None? then VoiceTrace([], false, false, false, false)
    else if !Truthy(settings.apiKey) || !Truthy(settings.folderId) then
      VoiceTrace([UnavailableReply], false, false, false, false)
    else if note.value.duration > MaxVoiceSeconds then VoiceTrace([TooLongReply], false, false, false, false)
    else Pipeline(world)
  }

  /** The whole way through: a note that passes the guards, downloads in
      time, is recognised in time as text addressed to the bot and gets an
      idea in time is answered with that idea and nothing else. */
  lemma AddressedNoteGetsIdea(settings: VoiceSettings, note: VoiceNote, world: VoiceWorld, text: string)
    requires PassesGuards(settings, note) && world.typing.None? && world.fileLink.Ok?
    requires world.download.Resolves? && world.download.afterMs < DownloadDeadlineMs
             && IsOk(world.download.value.status)
    requires world.stt.Resolves? && world.stt.afterMs < SttDeadlineMs
             && RecognizeSpeech(Ok(world.stt.value)) == Ok(text) && IsAddressedToBot(text)
    requires world.groq.Resolves? && world.groq.afterMs < IdeaDeadlineMs
    ensures VoiceHandler(settings, Some(note), world).replies
            == [IdeaReplyPrefix + VoiceIdeaOutcome(Ok(world.groq.value))]
  {
  }

  /** A note of exactly 30 s is not refused: the handler goes on to the
      typing indicator. */
  lemma ThirtySecondsProceeds(settings: VoiceSettings, fileId: string, world: VoiceWorld)
    requires Truthy(settings.apiKey) && Truthy(settings.folderId)
    ensures VoiceHandler(settings, Some(VoiceNote(30, fileId)), world).typing
  {
  }

  /** Silence is kept exactly for non-voice updates and for recognised
      text that does not open with the phrase. */
  lemma SilentOnlyWhenNotAddressed(settings: VoiceSettings, note: VoiceNote, world: VoiceWorld)
    requires PassesGuards(settings, note)
    ensures VoiceHandler(settings, Some(note), world).replies == [] <==>
              && world.typing.None? && DownloadStage(world).Ok? && SttStage(world).Ok?
              && !IsAddressedToBot(SttStage(world).value)
  {
  }

  /** As written, no configuration lets a voice note through: the handler
      always sends the unavailable reply and calls nothing. */
  lemma VoiceAlwaysUnavailableAsWritten(env: Env, note: VoiceNote, world: VoiceWorld)
    requires GetConfig(env).Ok?
    ensures VoiceHandler(VoiceSettingsAsWritten(GetConfig(env).value), Some(note), world)
            == VoiceTrace([UnavailableReply], false, false, false, false)
  {
  }

  /** With the key read from the environment, a short note from a configured
      bot gets past the guards. */
  lemma VoicePassesGuardsWhenConfigured(env: Env, note: VoiceNote, world: VoiceWorld)
    requires GetConfig(env).Ok?
    requires Truthy(Var(env, "YANDEX_API_KEY")) && Truthy(Var(env, "YANDEX_FOLDER_ID"))
    requires note.duration <= MaxVoiceSeconds
    ensures VoiceHandler(VoiceSettingsOf(env, GetConfig(env).value), Some(note), world).typing
  {
  }
}
