# tokobot in Dafny

A model of the decision logic of tokobot, a Telegram bot that generates
business ideas. The bot can generate an idea from a typed command or from a
voice note. It collects consultation leads into a Bitrix24 CRM and keeps
in-memory analytics, error monitoring and a per-user rate limit.

Every I/O step is an explicit input:

- the clock is a `now: int` in milliseconds;
- `Math.random()` is a `roll: real` in `[0, 1)` or an index;
- each HTTP call is a `Timed` outcome: it resolves or rejects after some
  milliseconds, or it never settles;
- the process environment is a map.

The model is a set of pure functions over immutable datatypes. The stores
(analytics, monitoring, rate limit, contact conversations) are modelled as
states with transition functions.

Modules:

- JavaScript semantics the code relies on:
  - `JsCore`: truthiness, `slice(-n)`, `Math.floor(Math.random() * n)`;
  - `JsString`: `toLowerCase`, `trim`, `startsWith`, `includes`, `split`;
  - `Decimal`: `String(n)` and reading a number back;
  - `Net`: `Promise.race` against a timer, `fetch` with an abort signal,
    `response.ok`, `response.json()`;
  - `Retrying`: `retry(fn, { maxAttempts })`.
- `Errors`: `ErrorType`, `BotError` and the helpers in `src/utils/errors.ts`.
- `Config`: `src/config/index.ts`.
- Provider adapters:
  - `YandexGpt`;
  - `AiService` (Gemini and HuggingFace, retry and local fallback);
  - `LegacyAi` (`lib/ai.ts`);
  - `YandexStt`;
  - `YandexArt`.
- `Voice`: the voice-note handler.
- Stores:
  - `Stores`: the bounded buffer, filters and the top-10 ranking they share;
  - `Analytics`;
  - `Monitoring`;
  - `RateLimit`;
  - `AnalyticsMiddleware`.
- CRM:
  - `Crm`: the Bitrix24 client;
  - `Contact`: the `/contact` conversation.

## Model

| member | source | states |
|---|---|---|
| Errors.ErrorMessage | src/utils/errors.ts:13-24 | every error type has a non-empty user-facing message |
| Errors.CreateError | src/utils/errors.ts:52-58 | the result is a `BotError` carrying the given message, type and original error |
| Errors.HandleError | src/utils/errors.ts:29-47 | a `BotError` is answered with its type's message and any other error with the UNKNOWN message; a reply that fails to send is swallowed |
| Errors.HandleCreatedError | src/utils/errors.ts:36-40 | an error made by `createError` is reported with the message of the type it was created with |
| Errors.FirstFalsy | src/utils/errors.ts:63-72 | fields before the returned position are truthy in the record, and the field at it is not |
| Errors.ValidateRequired | src/utils/errors.ts:63-72 | passes iff every listed field is present and non-empty; otherwise fails with a VALIDATION error naming the first missing field |
| Config.ValidateEnv | src/config/index.ts:14-18 | passes iff BOT_TOKEN is set and non-empty |
| Config.SelectedProvider | src/config/index.ts:26-31 | AI_PROVIDER when it is set and non-empty, otherwise "groq" |
| Config.GetConfig | src/config/index.ts:23-66 | fails iff there is no bot token; otherwise the token, provider, the provider's own token variable, `aiEnabled` iff that token is truthy, the folder id and the webhook are read from the environment |
| Config.TokenVariable | src/config/index.ts:35-50 | one of the four token variables; GROQ_API_KEY, GEMINI_API_KEY and HUGGINGFACE_TOKEN exactly for their own providers, YANDEX_API_KEY for every other |
| Config.TokenSourceByProvider | src/config/index.ts:35-50 | each known provider reads its own token variable; an unknown provider reads YANDEX_API_KEY |
| Config.DefaultProviderIsGroq | src/config/index.ts:27 | without AI_PROVIDER the bot runs on groq, and AI is enabled iff GROQ_API_KEY is set |
| Config.EnvironmentDefault | src/config/index.ts:58-59 | NODE_ENV when it is set and non-empty, otherwise "development" |
| Net.Race | src/handlers/voice.handler.ts:177-186 | an operation wins the race iff it resolves strictly before the timer; a rejection before the timer passes its error through |
| Net.RaceOrReject | src/handlers/voice.handler.ts:194-205 | the race yields the value iff the operation resolves in time; when the timer fires first it yields the timeout error |
| Net.FetchWithAbort | src/services/yandex-gpt.service.ts:119-128 | a fetch that has not settled by the abort deadline fails with an `AbortError` |
| Net.ReadJson | src/services/ai.service.ts:150 | `response.json()` succeeds iff the body is JSON; otherwise it fails with a `SyntaxError` |
| Retrying.RetryFrom | src/services/ai.service.ts:86-95 | after the failed attempts so far, the result is the first success among the remaining attempts, or else the last attempt's error |
| Retrying.Retry | src/services/ai.service.ts:86-95 | makes 1 to `maxAttempts` calls; the result is the last call's outcome; every earlier call failed; a failure means every call was made |
| Retrying.FirstSuccessIsSingleCall | src/services/ai.service.ts:86-95 | a first call that succeeds is the only call |
| Retrying.AllFailuresRethrowLast | src/services/ai.service.ts:86-95 | when every call fails, all `maxAttempts` are made and the last error is thrown |
| Retrying.SucceedsIffSomeAttemptSucceeds | src/services/ai.service.ts:86-95 | the retried call succeeds iff one of the first `maxAttempts` calls does |
| YandexGpt.ModelUriNamesFolder | src/services/yandex-gpt.service.ts:63 | the folder id can be read back from `gpt://<folder>/<model>` |
| YandexGpt.RequestBody | src/services/yandex-gpt.service.ts:48-75 | the model URI names the folder; `maxTokens` is the decimal string of the requested value or 400; temperature defaults to 0.8; `stream` is false; there is a single user message carrying the prompt |
| YandexGpt.RequestHeaders | src/services/yandex-gpt.service.ts:81-85 | exactly the API-key authorization, the content type and the folder id |
| YandexGpt.ReplyText | src/services/yandex-gpt.service.ts:111-114 | present iff `result.alternatives[0].message.text` exists, and then it is that text |
| YandexGpt.ErrorDetails | src/services/yandex-gpt.service.ts:96-105 | the JSON body's `message` when there is one, else the raw body text |
| YandexGpt.HandleResponse | src/services/yandex-gpt.service.ts:93-118 | a non-OK status fails with "YandexGPT API error: " + status + " - " + the details (the JSON `message`, else the raw body); an OK body that is not JSON fails with the parse error; a JSON body without a non-empty reply text fails with "Invalid YandexGPT response format"; no response error is an abort |
| YandexGpt.CallYandexGpt | src/services/yandex-gpt.service.ts:41-129 | succeeds iff the call resolves in time with an OK status and a non-empty text, and then returns the trimmed text; too slow gives "YandexGPT request timeout"; a response in time fails with the status-and-details message, the parse error or the format error exactly as the response step does; a rejection in time is rethrown unchanged unless it is an abort |
| YandexGpt.CompletedReplyRoundTrip | src/services/yandex-gpt.service.ts:116-118 | an already trimmed reply comes back unchanged |
| YandexGpt.BlankReplyComesBackEmpty | src/services/yandex-gpt.service.ts:111-118 | a whitespace-only reply passes the format check and comes back as "" |
| AiService.GeminiText | src/services/ai.service.ts:152-156 | present iff `candidates[0].content.parts[0].text` exists, and then it is that text |
| AiService.HfText | src/services/ai.service.ts:210-214 | present iff the body is a non-empty array whose first item has `generated_text`, and then it is that text |
| AiService.AbortToTimeout | src/services/ai.service.ts:161-163 | an `AbortError` becomes the AI_SERVICE error "AI request timeout"; any other outcome is passed on |
| AiService.TrimmedOrFormatError | src/services/ai.service.ts:152-159 | succeeds iff the text is present and non-empty, with the trimmed text; otherwise fails with the format error |
| AiService.GeminiHttpMessage | src/services/ai.service.ts:142-148 | the Gemini HTTP error message carries the status after its prefix and contains the body text |
| AiService.GeminiResponse | src/services/ai.service.ts:142-159 | a non-OK status fails with the status and the body text in the message; no response error is an abort |
| AiService.CallGemini | src/services/ai.service.ts:108-168 | succeeds iff the response comes in time with an OK status and usable text, which comes back trimmed; too slow becomes the timeout error; an error status fails with it; a body that is not JSON fails with the parse error; JSON without usable text fails with "Invalid Gemini response format" |
| AiService.HfResponse | src/services/ai.service.ts:201-214 | a non-OK status fails with the status after the HuggingFace prefix; no response error is an abort |
| AiService.CallHuggingFace | src/services/ai.service.ts:173-223 | succeeds iff the response comes in time with an OK status and a usable `generated_text`, which comes back trimmed; too slow becomes the timeout error; an error status fails with it; a body that is not JSON fails with the parse error; JSON without usable text fails with "Invalid AI response format" |
| AiService.BlankTextAccepted | src/services/ai.service.ts:210-218 | a whitespace-only `generated_text` is accepted and comes back as "" |
| AiService.BlankGeminiTextAccepted | src/services/ai.service.ts:152-159 | a whitespace-only Gemini text is accepted and comes back as "" |
| AiService.BuildPrompt | src/services/ai.service.ts:253-266 | the prompt opens with the fixed preamble and closes with the fixed ending; it names a given topic; without one it is just preamble and ending |
| AiService.PromptNamesTopic | src/services/ai.service.ts:253-266 | the topic can be read back from the prompt, and a prompt without a topic yields none |
| AiService.GenerateLocal | src/services/ai.service.ts:228-248 | a local idea comes from the topic's pool when the topic has one, else from the general pool, and is tagged local with the topic and time |
| AiService.LocalPool | src/services/ai.service.ts:228-240 | the topic's own pool when the topic is non-empty and a key of the corpus, else the general pool; never empty for a valid corpus |
| AiService.LocalReachesWholePool | src/services/ai.service.ts:240 | every idea in the chosen pool is picked by some roll |
| AiService.ProviderOutcomes | src/services/ai.service.ts:86-95 | one outcome per attempt the retry may make |
| AiService.ProviderDispatch | src/services/ai.service.ts:88-90 | the provider "gemini" calls Gemini; every other provider calls HuggingFace |
| AiService.GenerateWithAi | src/services/ai.service.ts:79-103 | 1 or 2 provider calls; a success is the successful call's text tagged AI with the topic; a failure means both calls were made |
| AiService.TriesAi | src/services/ai.service.ts:58-61 | the AI is tried only with a non-empty token; never when `useAI` is false; always when it is true and a token exists; when `useAI` is omitted, exactly when AI is enabled and a token exists |
| AiService.GenerateIdea | src/services/ai.service.ts:55-74 | without AI or with `useAI` false it makes no call and generates locally; otherwise an AI idea is the retried result, and any AI failure falls back to the local idea |
| AiService.AiIdeaIffSomeAttemptSucceeds | src/services/ai.service.ts:55-74 | when AI is tried, the idea is tagged AI iff one of the two provider calls succeeded |
| AiService.NonGeminiGoesToHuggingFace | src/services/ai.service.ts:88-90 | any provider other than "gemini" makes both attempts against HuggingFace |
| LegacyAi.GenerateLocalIdea | lib/ai.ts:62-100 | a topic whose lower-case form is tech, business or social draws from that pool; anything else draws from the general pool |
| LegacyAi.LocalIdeaIgnoresCase | lib/ai.ts:94-96 | topics differing only in letter case get the same idea |
| LegacyAi.GeneralPoolReachable | lib/ai.ts:99 | each of the ten general ideas is picked by its roll |
| LegacyAi.LegacyPrompt | lib/ai.ts:14-16 | with a topic the prompt is the fixed opening followed by the topic; without one it is the default prompt |
| LegacyAi.CleanupAiResponse | lib/ai.ts:57-60 | the result has no newline, is a prefix of the trimmed text ending where its first line ends, and is empty iff the text is all whitespace |
| LegacyAi.CleanupIsFirstLine | lib/ai.ts:57-60 | the cleaned reply is the first line of the trimmed text |
| LegacyAi.CleanupKeepsSingleLine | lib/ai.ts:57-60 | a trimmed single-line reply is kept as it is |
| LegacyAi.LegacyGenerateIdea | lib/ai.ts:6-55 | no token means a local idea; with a token, an OK reply with a usable `generated_text` is returned cleaned up; a rejected fetch, a non-OK status, a body that is not JSON or one without usable text gives the local idea; a fetch that never settles gives nothing |
| LegacyAi.UsableReplyIsCleanedUp | lib/ai.ts:44-48 | for any OK status, any body text and any item list whose first item has a non-empty text, the caller gets that text's first line after trimming |
| YandexStt.UrlQueries | src/services/yandex-stt.service.ts:44-55 | the query carries `lang` (default ru-RU) and `folderId`; the streaming URL also carries `format=oggopus` |
| YandexStt.RecognizeUrlParameters | src/services/yandex-stt.service.ts:44-55 | the recognition query splits into exactly its two parameters; without a language the first one is `lang=ru-RU` |
| YandexStt.StreamingUrlParameters | src/services/yandex-stt.service.ts:129 | the streaming query splits into exactly its three parameters |
| YandexStt.FirstAlternativeText | src/services/yandex-stt.service.ts:95-101 | present iff `result.alternatives[0].text` exists, and then it is that text |
| YandexStt.NormalizeResult | src/services/yandex-stt.service.ts:91-105 | a string result is returned verbatim; otherwise a non-empty first alternative is returned; otherwise the placeholder |
| YandexStt.TextOrPlaceholder | src/services/yandex-stt.service.ts:150-151 | the streaming result is never empty |
| YandexStt.RecognizeSpeech | src/services/yandex-stt.service.ts:37-112 | a fetch error is passed on; a non-OK status fails with it after "Yandex STT API error: "; a body that is not JSON fails with the parse error; a body `error` fails before `result` is read; an OK body without `error` gives exactly the normalised result |
| YandexStt.ErrorFieldWins | src/services/yandex-stt.service.ts:80-85 | a body with an `error` field fails, whatever its `result` |
| YandexStt.StringResultVerbatim | src/services/yandex-stt.service.ts:91-94 | a string result comes back verbatim, the empty string included |
| YandexStt.RecognizeSpeechStreaming | src/services/yandex-stt.service.ts:118-159 | a non-OK status fails with it; otherwise the first alternative's text or the placeholder |
| YandexStt.StreamingAgreesOnAlternatives | src/services/yandex-stt.service.ts:150-151 | both variants agree on an alternatives result; the streaming one answers the placeholder for a string result |
| Voice.IsAddressedToBot | src/handlers/voice.handler.ts:80-91 | a text addressed to the bot is at least as long as the trigger phrase |
| Voice.GateIgnoresLeadingSpace | src/handlers/voice.handler.ts:80-91 | leading whitespace does not change whether a message is addressed to the bot |
| Voice.GateIgnoresCase | src/handlers/voice.handler.ts:80-91 | letter case does not change whether a message is addressed to the bot |
| Voice.TriggerPhraseOpens | src/handlers/voice.handler.ts:80-91 | a message opening with the trigger phrase in any letter case is addressed to the bot |
| Voice.GateExamples | src/handlers/voice.handler.ts:80-91 | "Придумай идею" passes the gate; the empty text does not |
| Voice.BuildVoicePrompt | src/handlers/voice.handler.ts:96-126 | the request sits verbatim between the fixed opening and the fixed rest |
| Voice.VoicePromptRoundTrip | src/handlers/voice.handler.ts:97 | the request can be read back out of the prompt |
| Voice.GroqIdea | src/handlers/voice.handler.ts:58-61 | present iff `choices[0].message.content` exists, and then it is that content trimmed |
| Voice.VoiceIdeaOutcome | src/handlers/voice.handler.ts:52-72 | never empty; anything but the apology is the trimmed content of an OK response |
| Voice.GenerateIdeaFromVoice | src/handlers/voice.handler.ts:17-74 | never rejects: a failure becomes the apology and a response becomes its outcome, at the same time |
| Voice.VoiceIdeaExamples | src/handlers/voice.handler.ts:61-68 | padded content comes back trimmed |
| Voice.BlankVoiceIdeaApologises | src/handlers/voice.handler.ts:61-72 | whitespace-only content gets the apology |
| Voice.ErrorReply | src/handlers/voice.handler.ts:235-256 | "Yandex STT" is checked first, then "download audio"; anything else gets the generic reply |
| Voice.SttErrorsGetSttReply | src/handlers/voice.handler.ts:235-256 | both STT error messages get the STT reply |
| Voice.DownloadStatusGetsDownloadReply | src/handlers/voice.handler.ts:177-186 | a failed download status gets the download reply |
| Voice.DownloadTimeoutGetsGenericReply | src/handlers/voice.handler.ts:177-182 | "Audio download timeout" does not contain "download audio", so it gets the generic reply |
| Voice.VoiceSettingsAsWritten | src/handlers/voice.handler.ts:149 | the handler's configuration has no API key, only the folder id |
| Voice.VoiceSettingsOf | src/handlers/voice.handler.ts:149 | the key is YANDEX_API_KEY from the environment, next to the configured folder id |
| Voice.DownloadStage | src/handlers/voice.handler.ts:175-186 | succeeds iff the file link is obtained and the download resolves OK before its deadline; a file-link error and a download rejection in time pass through unchanged; a non-OK status fails naming it; too slow is the download timeout |
| Voice.SttStage | src/handlers/voice.handler.ts:194-205 | a recognition response in time is exactly what the recognition call makes of it; a rejection in time passes its error on; too slow is the STT timeout |
| Voice.IdeaStage | src/handlers/voice.handler.ts:219-224 | succeeds iff generation settles before its deadline, with its outcome or the apology; too slow is the generation timeout |
| Voice.VoiceHandler | src/handlers/voice.handler.ts:134-258 | at most one reply; no voice means nothing; missing keys give only the unavailable reply; over 30 s gives only the too-long reply; a note that passes both guards runs exactly the stage pipeline below |
| Voice.Pipeline | src/handlers/voice.handler.ts:169-258 | the typing indicator is always sent; a failed typing call, download, or recognition replies with that error's message and stops; each stage runs only after the previous one succeeded; an unaddressed text ends silently; an addressed text runs generation, whose failure replies with its error and whose success replies "💡 " + idea |
| Voice.ThirtySecondsProceeds | src/handlers/voice.handler.ts:161-167 | a note of exactly 30 seconds passes the duration guard |
| Voice.AddressedNoteGetsIdea | src/handlers/voice.handler.ts:134-231 | a note that passes the guards, downloads in time and is recognised in time as text addressed to the bot is answered with "💡 " + the idea and nothing else |
| Voice.SilentOnlyWhenNotAddressed | src/handlers/voice.handler.ts:211-214 | past the guards, the handler sends no reply iff recognition succeeded with a text that is not addressed to the bot |
| Voice.VoiceAlwaysUnavailableAsWritten | src/handlers/voice.handler.ts:149-158 | as written, every voice note gets the unavailable reply and nothing else |
| Voice.VoicePassesGuardsWhenConfigured | src/handlers/voice.handler.ts:149-167 | with the key read from the environment, a configured bot processes a note of at most 30 s |
| YandexArt.FirstMatchIndex | src/services/yandex-art.service.ts:147-220 | the first category whose stem occurs in the text; none before it matches |
| YandexArt.ExtractSafeKeywords | src/services/yandex-art.service.ts:147-230 | the description is built from the first matching technology and sphere labels, and is empty iff neither matches |
| YandexArt.DescriptionForms | src/services/yandex-art.service.ts:221-229 | the description takes one of the four shapes: both labels, technology only, sphere only, or empty |
| YandexArt.EarlierTechWins | src/services/yandex-art.service.ts:147-220 | a text matching a technology stem is labelled with that category or an earlier one |
| YandexArt.BuildImagePrompt | src/services/yandex-art.service.ts:237-275 | the prompt opens with the chosen style and closes with the chosen ending; it contains the keywords, or the placeholder when there are none |
| YandexArt.PlaceholderIsNotKeywords | src/services/yandex-art.service.ts:257-269 | the placeholder cannot be mistaken for a keyword phrase |
| YandexArt.ImagePromptKeywordsRoundTrip | src/services/yandex-art.service.ts:257-269 | the keywords can be read back from the prompt |
| YandexArt.CheckStep | src/services/yandex-art.service.ts:108-129 | a non-OK status fails with it; a body error fails; done with an image succeeds; otherwise polling continues |
| YandexArt.ErrorBeatsDone | src/services/yandex-art.service.ts:118-129 | an error field wins over a finished image |
| YandexArt.Poll | src/services/yandex-art.service.ts:98-137 | polls at most 30 times and stops at the first decisive check, or times out |
| YandexArt.PollWaitsBeforeLast | src/services/yandex-art.service.ts:132-134 | every check before the one that stopped polling was undecided |
| YandexArt.PollTimesOut | src/services/yandex-art.service.ts:98-137 | when every remaining check is undecided, polling gives up after the 30th check with "Image generation timeout" |
| YandexArt.StartTask | src/services/yandex-art.service.ts:81-90 | the task starts iff the create call returns OK with JSON; a non-OK status fails with it after "YandexART API error: " |
| YandexArt.GenerateImage | src/services/yandex-art.service.ts:39-141 | no checks unless the task started; at most 30 checks with one sleep between consecutive ones; a success is a decisive check and every earlier check continued; 30 undecided checks fail with the timeout error |
| Stores.PushBounded | src/services/analytics.service.ts:77-80 | the new item is last; below the cap it is appended; at the cap the oldest item is dropped |
| Stores.PushKeepsNewest | src/services/monitoring.service.ts:80-83 | the buffer keeps the newest `cap` items and never exceeds the cap |
| Stores.Filter | src/services/monitoring.service.ts:134-136 | never longer than the input |
| Stores.FilterMembers | src/services/monitoring.service.ts:134-136 | an item is kept iff it is in the input and satisfies the predicate |
| Stores.FilterAppend | src/services/analytics.service.ts:275-284 | filtering distributes over concatenation |
| Stores.FilterIdempotent | src/services/monitoring.service.ts:243-249 | filtering twice is filtering once |
| Stores.IndexOf | src/services/monitoring.service.ts:86-87 | the first entry with the key, or the length when there is none |
| Stores.Increment | src/services/monitoring.service.ts:86-87 | the key's count goes up by one and every other count is unchanged; a new key is appended and an existing one keeps its place |
| Stores.SameKeysSameIndex | src/services/monitoring.service.ts:86-87 | counters with the same keys in the same order find a key at the same position |
| Stores.IndexOfAppend | src/services/monitoring.service.ts:86-87 | appending an entry does not move a key already present |
| Stores.InsertByCount | src/services/monitoring.service.ts:155 | inserting keeps the counters sorted by count, descending, and is a permutation plus the new entry |
| Stores.HeadBoundsSorted | src/services/monitoring.service.ts:155 | an entry at least as large as a sorted tail can head it |
| Stores.SortByCount | src/services/monitoring.service.ts:155 | the result is sorted by count, descending, and is a permutation of the input |
| Stores.InsertKeepsTies | src/services/monitoring.service.ts:155 | an inserted entry lands after every entry of equal count |
| Stores.SortKeepsTies | src/services/monitoring.service.ts:155 | the sort is stable: for every count, the entries with that count keep their input order |
| Stores.Top | src/services/monitoring.service.ts:153-156 | the ten largest counters, sorted, drawn from the input; nothing left out counts more than anything kept |
| Stores.PrefixIsLargest | src/services/monitoring.service.ts:156 | a prefix of a sorted list is sorted and holds its largest entries |
| Stores.TopEntriesAreCounters | src/services/analytics.service.ts:231-234 | every top entry is one of the counters |
| Analytics.UpdateUserStats | src/services/analytics.service.ts:173-199 | a new user gets a record from the event; an existing user gets `lastSeen` and the counter for the event's type advanced; other users are untouched |
| Analytics.CountCommand | src/services/analytics.service.ts:86-92 | the command's count goes up by one when the event is a command with a non-empty name; other counts are unchanged |
| Analytics.Track | src/services/analytics.service.ts:75-98 | the event enters the 1000-event buffer; the sender's record and the command count are updated |
| Analytics.TrackAll | src/services/analytics.service.ts:75-98 | tracking a run of events keeps the store valid |
| Analytics.UserKnownIffMentioned | src/services/analytics.service.ts:173-199 | after a run from an empty store, a user has a record iff some event came from them |
| Analytics.FirstEventFixesRecord | src/services/analytics.service.ts:176-186 | the record's first-seen time and username come from the user's first event |
| Analytics.LastEventSetsLastSeen | src/services/analytics.service.ts:188-189 | `lastSeen` is the time of the user's last event |
| Analytics.CountersCountEveryEvent | src/services/analytics.service.ts:190-198 | a user's counter for a type equals the number of their events of that type |
| Analytics.CountOfAbsentUser | src/services/analytics.service.ts:190-198 | a user who sent nothing has no events of any type |
| Analytics.UsernameIsNotUpdated | src/services/analytics.service.ts:176-189 | an example of the rule above: with two events from one user, the second does not replace the username the first one recorded |
| Analytics.ActiveSince | src/services/analytics.service.ts:223-229 | exactly the users seen at or after the cut-off |
| Analytics.ActiveShrinks | src/services/analytics.service.ts:223-229 | a later cut-off counts no more users, and none counts more than all users |
| Analytics.GetSystemStats | src/services/analytics.service.ts:218-263 | totals count the buffered events of each type; users are all known users; active in 7 days is at least active in 24 hours; uptime is in whole seconds; top commands are the ten largest counts |
| Analytics.CountOfAppend | src/services/analytics.service.ts:236-250 | counting distributes over concatenation |
| Analytics.TotalsFollowTheBuffer | src/services/analytics.service.ts:236-250 | a tracked event raises its type's total by one unless the buffer was full, when the dropped event is discounted |
| Analytics.GetUserStats | src/services/analytics.service.ts:204-206 | absent iff the user has no record; otherwise that record |
| Analytics.Matching | src/services/analytics.service.ts:275-284 | never longer than the buffer |
| Analytics.MatchingMembers | src/services/analytics.service.ts:275-284 | exactly the buffered events of the requested type or user |
| Analytics.MatchingAppend | src/services/analytics.service.ts:275-284 | selection distributes over concatenation |
| Analytics.MatchingCountsType | src/services/analytics.service.ts:275-277 | the events of a type number exactly the count of that type |
| Analytics.GetRecentEvents | src/services/analytics.service.ts:268-270 | the last `limit` events, or all of them for 0 |
| Analytics.GetEventsByType | src/services/analytics.service.ts:275-277 | exactly the last `min(limit, count)` events of the type, in buffer order; all of them for 0 |
| Analytics.GetEventsByUser | src/services/analytics.service.ts:282-284 | exactly the user's last `min(limit, count)` events, in buffer order; all of them for 0 |
| Analytics.NewestEventComesLast | src/services/analytics.service.ts:75-98 | a just-tracked event comes last in its sender's query |
| Analytics.ClearOldEvents | src/services/analytics.service.ts:289-296 | keeps the last 1000 events and leaves users and counters alone |
| Analytics.ClearingAValidStoreIsANoOp | src/services/analytics.service.ts:289-296 | since the buffer never exceeds 1000, clearing changes nothing |
| Monitoring.ErrorKeyNamesError | src/services/monitoring.service.ts:86 | the counter key `name:message` gives back the error's name and message |
| Monitoring.TrackError | src/services/monitoring.service.ts:61-104 | the entry enters the 1000-entry buffer; its key's count goes up by one and no other changes; analytics hears of it iff there is a truthy user id |
| Monitoring.ForwardedOnlyWithUser | src/services/monitoring.service.ts:96-98 | without a user, or with id 0, analytics is untouched; with any other id it records the error |
| Monitoring.GetRecentErrors | src/services/monitoring.service.ts:127-129 | the last `limit` errors, or all of them for 0 |
| Monitoring.GetErrorsBySeverity | src/services/monitoring.service.ts:134-136 | exactly the buffered errors of the severity, as many as the severity count of the statistics |
| Monitoring.SeverityQueryKeepsOrder | src/services/monitoring.service.ts:134-136 | the query keeps buffer order: empty for an empty buffer, and an error appended to the buffer is appended to the query iff it has the severity |
| Monitoring.NewestErrorComesLastBySeverity | src/services/monitoring.service.ts:61-136 | a just-tracked error comes last among the errors of its severity |
| Monitoring.SeverityCountsSum | src/services/monitoring.service.ts:163-172 | the four severity counts add up to the total |
| Monitoring.NewerCountShrinks | src/services/monitoring.service.ts:146-151 | a later cut-off counts no more errors |
| Monitoring.GetErrorStats | src/services/monitoring.service.ts:141-174 | the counts of errors in the last hour and the last day; each of the four severity counts; they sum to the total; errors in the last hour ≤ last day ≤ total; the top errors are the ten largest counts |
| Monitoring.MemoryStatus | src/services/monitoring.service.ts:187-194 | above 90 % of 512 MB is unhealthy; above 70 % is degraded; anything less is healthy |
| Monitoring.MemoryThresholds | src/services/monitoring.service.ts:187-194 | the exact byte counts where the verdict changes |
| Monitoring.UptimeStatus | src/services/monitoring.service.ts:197 | healthy iff up more than 60 seconds, else degraded, never unhealthy |
| Monitoring.ErrorStatus | src/services/monitoring.service.ts:200-208 | unhealthy iff a recent error is critical; degraded iff none is and there are more than ten |
| Monitoring.Worst | src/services/monitoring.service.ts:211-216 | the overall verdict is one of the three and at least as bad as each |
| Monitoring.RoundToMegabytes | src/services/monitoring.service.ts:224 | rounds bytes to the nearest whole megabyte, halves up |
| Monitoring.HealthCheck | src/services/monitoring.service.ts:179-238 | overall is the worst check; memory status from the heap and usage in rounded megabytes; uptime is whole seconds since start; the error check is unhealthy iff a critical error came in the last five minutes, else degraded iff more than ten errors did; the limit is 512 MB |
| Monitoring.FirstMinuteIsNeverHealthy | src/services/monitoring.service.ts:197 | within its first minute the service is never reported healthy |
| Monitoring.ClearOldErrors | src/services/monitoring.service.ts:243-249 | exactly the errors from the last day remain; the counters stay |
| Monitoring.ClearingKeepsOrder | src/services/monitoring.service.ts:243-249 | clearing keeps exactly the recent entries in buffer order: nothing from an empty buffer, and an entry appended to the buffer is kept at the end iff it is newer than a day |
| Monitoring.ClearingIsIdempotent | src/services/monitoring.service.ts:243-249 | clearing twice at the same moment clears once |
| RateLimit.Expired | middleware/rate-limit.ts:41 | a window has ended once its end lies strictly before the current time |
| RateLimit.RateLimitStep | middleware/rate-limit.ts:30-61 | an update without a user passes; a new or ended window restarts at 1; within a window the update passes iff fewer than the maximum went before, the count then rising by one; a refusal replies and changes nothing |
| RateLimit.Run | middleware/rate-limit.ts:30-61 | no more updates pass than were sent |
| RateLimit.AtMostMaxPerWindow | middleware/rate-limit.ts:41-60 | of n requests inside one window exactly `min(n, max)` pass, and the window keeps its end |
| RateLimit.OneTooManyIsRejected | middleware/rate-limit.ts:51-57 | with the maximum reached, the next request is refused with the reply and the store unchanged |
| RateLimit.Sweep | middleware/rate-limit.ts:18-25 | drops exactly the ended windows |
| RateLimit.SweepIsInvisible | middleware/rate-limit.ts:18-25 | the sweep never changes a later decision |
| AnalyticsMiddleware.CommandOf | middleware/analytics.ts:32 | the command is the first space-separated word without its slash |
| AnalyticsMiddleware.CommandIgnoresArguments | middleware/analytics.ts:32 | arguments after the command do not change it |
| AnalyticsMiddleware.CommandExamples | middleware/analytics.ts:32 | "/idea sales" is the command "idea" and "/" is the empty command |
| AnalyticsMiddleware.IsCommand | middleware/analytics.ts:28-31 | a command is a present text whose first character is '/' |
| AnalyticsMiddleware.AnalyticsStep | middleware/analytics.ts:16-59 | `next` runs once; without a user nothing is recorded; a command is recorded; a first contact that is not a command records a registration |
| AnalyticsMiddleware.FirstCommandRecordsNoRegistration | middleware/analytics.ts:46-56 | a first message that is a command records the command and no registration |
| AnalyticsMiddleware.PlainFirstMessageRegistersOnce | middleware/analytics.ts:46-56 | a plain first message registers the user once; the next records nothing |
| Crm.Enabled | services/crm.service.ts:26-29 | the CRM is enabled iff the webhook URL is set and non-empty |
| Crm.FormatLeadData | services/crm.service.ts:80-102 | title, name, source (default TELEGRAM), opened and assignee always; phone, email and comment iff given and non-empty |
| Crm.FieldsKeepTheLead | services/crm.service.ts:80-102 | the lead can be read back from its fields |
| Crm.ApiUrlNamesMethod | services/crm.service.ts:108 | the method can be read back from its endpoint |
| Crm.CallBitrix24Api | services/crm.service.ts:107-142 | succeeds iff the call returns OK with JSON and no `error`, with the `result`; a non-OK status or an `error` fails as a CRM error carrying it |
| Crm.LeadAttempts | services/crm.service.ts:51-54 | one API outcome per attempt |
| Crm.CreateLead | services/crm.service.ts:41-58 | a disabled CRM fails with no call; a missing name fails validation with no call; otherwise 1 or 2 calls, and it succeeds iff one of them does |
| Crm.FailedFirstAttemptIsRetried | services/crm.service.ts:51-54 | a failed first attempt is retried once and the second outcome decides |
| Crm.CommentFields | services/crm.service.ts:66-72 | exactly the lead id, the entity type and the comment |
| Crm.AddLeadComment | services/crm.service.ts:63-75 | a disabled CRM does nothing; otherwise one call whose outcome is passed on |
| Contact.ContactCommand | handlers/contact.handler.ts:15-40 | no user gets the identification error; a disabled CRM gets the unavailable reply; otherwise the flow starts at the name step with one question |
| Contact.Optional | handlers/contact.handler.ts:68-81 | a skip answer in any letter case is no value; any other answer is kept as typed |
| Contact.Skips | handlers/contact.handler.ts:68-81 | an answer that skips a step is as long as the skip word |
| Contact.SkipIgnoresCase | handlers/contact.handler.ts:68-81 | "пропустить" is recognised in any letter case |
| Contact.LeadComment | handlers/contact.handler.ts:86-92 | the user id can be read back from the comment |
| Contact.LeadOf | handlers/contact.handler.ts:86-92 | the lead carries the name, the phone and email unless skipped, the bot as source and the user id in its comment |
| Contact.HandleContactFlow | handlers/contact.handler.ts:45-110 | ignored without a user, a text or a conversation; a name answer moves to the phone step; a phone answer moves to the email step, keeping the phone unless skipped; an email answer submits the lead built from the answers; an accepted lead ends the conversation with thanks; a refused lead or a failed chat call ends it with the error reply; other users' conversations are never touched |
| Contact.Failed | handlers/contact.handler.ts:106-109 | the user's conversation is forgotten and the error reply is the last one |
| Contact.ConversationSubmitsLead | handlers/contact.handler.ts:57-104 | for any CRM that accepts the lead, name, phone and email in turn submit the lead built from them, end the conversation and thank the user |
| Contact.RejectedLeadEndsFlow | handlers/contact.handler.ts:86-109 | a lead the CRM refuses ends the conversation and reports the CRM's error |

## Left out

- I/O is not modelled. The clock, `Math.random()`, every HTTP call, the file download and the chat calls are inputs. Logging, `console.log` and the typing indicator's payload are left out.
- `getConfig`'s console line and the config's `aiToken` when AI is disabled are not modelled beyond what `Config.GetConfig` states.
- Request envelopes are not modelled: the Gemini and HuggingFace request bodies and headers, the Groq request of the voice handler, the YandexART create request (its random seed and aspect ratio), and the legacy HuggingFace request. Only the parts the code branches on are modelled.
- The YandexART task id and the status-check URL are not modelled: polling takes the checks as a function of the attempt. Base64 decoding of the image is left out; the image is an opaque string.
- The 2-second poll interval is not modelled. `YandexArt.GenerateImage` counts the sleeps instead of their length.
- `retry` (src/utils/helpers.ts) is not part of this model. `Retrying.Retry` models the attempts and the rethrow of the last error, but not the backoff delay.
- JSON parsing is not modelled. A body is its parsed shape, or the absence of one when it is not JSON.
- `exportStats`, `exportData`, `getAllUserStats`, `getAvailableTopics` and the `trackX` wrappers of the analytics service are left out. The wrappers only build events for `track`; `Monitoring.TrackError` builds the one it forwards.
- `alertCriticalError` only logs, so it is left out.
- The monitoring entry's random id and stack trace are left out.
- The hourly cleanup timers are left out; `Analytics.ClearOldEvents` and `Monitoring.ClearOldErrors` take the time as an argument.
- `AnalyticsMiddleware.AnalyticsStep` takes one `now` for both `new Date()` calls of the middleware.
- `Contact.HandleContactFlow` uses one flag, `chatUp`, for whether every chat call of the message goes through. A reply that fails after another succeeded in the same message is not told apart.
- Replies sent outside the contact flow and `handleError` are assumed to go through.
- `Contact.HandleContactFlow` does not model a CRM call that never settles.
- `JsString.Lower` lower-cases ASCII and Cyrillic letters only; other scripts are left as they are.
- Object keys such as `__proto__` are not modelled. Topic lookups in the idea pools compare plain keys only.
- The integer width of JavaScript numbers is not modelled: counts, times and sizes are unbounded integers, and `heapUsed` is a natural number of bytes.
- `ideas.js` and the idea pools' exact texts are not part of this model. The pools are inputs, constrained only by being non-empty.
- The dashboard, webhook and test API routes, the start and help handlers and the logging middleware are outside this model.
- `src/lib/bitrix24.ts` is not part of this model; the CRM is modelled through `services/crm.service.ts`.

## Findings

| source | as written | input that shows it | evidently intended | confidence | as-written member | corrected member |
|---|---|---|---|---|---|---|
| src/handlers/voice.handler.ts:149 | the guard reads `config.yandexApiKey`, which `getConfig` (src/config/index.ts:56-65) never sets, so the guard always fails | any voice note with YANDEX_API_KEY and YANDEX_FOLDER_ID both set | the key is YANDEX_API_KEY, so a configured bot processes voice notes | not executed | Voice.VoiceAlwaysUnavailableAsWritten | Voice.VoicePassesGuardsWhenConfigured |
