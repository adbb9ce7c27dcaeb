/** Image generation through YandexART (src/services/yandex-art.service.ts):
    safe keywords from an idea, the image prompt, and the bounded polling of
    the asynchronous generation task. */
module YandexArt {
  import opened JsCore
  import opened JsString
  import opened Decimal
  import opened Errors
  import opened Net

  /** A category: the word stems that select it and the label it contributes. */
  datatype Category = Category(stems: seq<string>, title: string)

  /** AI technologies, in the order they are tested. */
  const TechCategories: seq<Category> := [
    Category(["зрени", "распознав", "детекц"], "компьютерное зрение"),
    Category(["языков", "текст", "gpt"], "обработка языка"),
    Category(["голос", "речь", "аудио"], "голосовые технологии"),
    Category(["данны", "аналитик", "прогноз"], "анализ данных")]

  /** Business spheres, in the order they are tested. */
  const SphereCategories: seq<Category> := [
    Category(["образован", "обучен", "школ", "студент"], "образование"),
    Category(["торгов", "магазин", "продаж"], "розничная сфера"),
    Category(["производств", "завод", "фабрик"], "производство"),
    Category(["логистик", "доставк", "склад"], "логистика"),
    Category(["здоровь", "медицин", "клиник"], "здравоохранение")]

  /** The text includes one of the category's stems. */
  predicate Matches(text: string, c: Category)
  {
    exists k | 0 <= k < |c.stems| :: Contains(text, c.stems[k])
  }

  /** The position of the first matching category, or `|cs|` when none matches. */
  function FirstMatchIndex(text: string, cs: seq<Category>): (i: nat)
    ensures i <= |cs|
    ensures forall j :: 0 <= j < i ==> !Matches(text, cs[j])
    ensures i < |cs| ==> Matches(text, cs[i])
  {
    if cs == [] then 0
    else if Matches(text, cs[0]) then 0
    else 1 + FirstMatchIndex(text, cs[1..])
  }

  /** `list[0]` of the labels of every matching category: the first match's label. */
  function FirstLabel(text: string, cs: seq<Category>): Option<string>
  {
    var i := FirstMatchIndex(text, cs);
    if i < |cs| then Some(cs[i].title) else None
  }

  /** Joins the chosen labels into the description. */
  function Describe(tech: Option<string>, sphere: Option<string>): string
  {
    var description := if tech.Some? then tech.value else "";
    if sphere.Some? then description + (if description != "" then " для сферы " else "") + sphere.value
    else description
  }

  /** Every label is non-empty. */
  lemma LabelsNonEmpty()
    ensures forall i :: 0 <= i < |TechCategories| ==> TechCategories[i].title != ""
    ensures forall i :: 0 <= i < |SphereCategories| ==> SphereCategories[i].title != ""
  {
  }

  /** The labels the description can be built from. */
  function Labels(cs: seq<Category>): set<Option<string>>
  {
    {None} + set i | 0 <= i < |cs| :: Some(cs[i].title)
  }

  /** `extractSafeKeywords(idea)`: the first matching technology and the first
      matching sphere of the lower-cased idea, joined. */
  function ExtractSafeKeywords(idea: string): (description: string)
    ensures exists tech, sphere :: tech in Labels(TechCategories) && sphere in Labels(SphereCategories)
              && description == Describe(tech, sphere)
    ensures description == "" <==>
              (forall i :: 0 <= i < |TechCategories| ==> !Matches(Lower(idea), TechCategories[i]))
              && (forall i :: 0 <= i < |SphereCategories| ==> !Matches(Lower(idea), SphereCategories[i]))
  {
    var lower := Lower(idea);
    var tech := FirstLabel(lower, TechCategories);
    var sphere := FirstLabel(lower, SphereCategories);
    LabelsNonEmpty();
    assert tech in Labels(TechCategories);
    assert sphere in Labels(SphereCategories);
    Describe(tech, sphere)
  }

  /** The description takes one of four forms, from the first matching
      technology `t` and sphere `s`: "t для сферы s", "t", "s" or "". */
  lemma DescriptionForms(idea: string)
    ensures var lower := Lower(idea);
      var i := FirstMatchIndex(lower, TechCategories);
      var j := FirstMatchIndex(lower, SphereCategories);
      var d := ExtractSafeKeywords(idea);
      && (i < |TechCategories| && j < |SphereCategories| ==>
            d == TechCategories[i].title + " для сферы " + SphereCategories[j].title)
      && (i < |TechCategories| && j == |SphereCategories| ==> d == TechCategories[i].title)
      && (i == |TechCategories| && j < |SphereCategories| ==> d == SphereCategories[j].title)
      && (i == |TechCategories| && j == |SphereCategories| ==> d == "")
  {
    LabelsNonEmpty();
  }

  /** An idea that mentions a stem of an earlier technology gets that
      technology whatever later ones it mentions: the order decides. */
  lemma EarlierTechWins(idea: string, i: nat, k: nat)
    requires i < |TechCategories| && k < |TechCategories[i].stems|
    requires Contains(Lower(idea), TechCategories[i].stems[k])
    ensures FirstMatchIndex(Lower(idea), TechCategories) <= i
  {
    assert Matches(Lower(idea), TechCategories[i]);
  }

  const Styles: seq<string> := [
    "Современная минималистичная бизнес-иллюстрация",
    "Футуристическая концепция стартапа",
    "Концептуальная технологическая иллюстрация",
    "Абстрактная digital-визуализация"]

  const Endings: seq<string> := [
    "профессиональный дизайн, светлые тона",
    "корпоративный стиль, чистые формы",
    "минимализм, технологичный вид",
    "деловая графика, современный стиль"]

  const KeywordsOpening := " с элементами "
  const NoKeywords := " с AI элементами,"

  /** The part of the prompt between the style and the ending. */
  function PromptMiddle(keywords: string): string
  {
    if keywords != "" then KeywordsOpening + keywords + "," else NoKeywords
  }

  /** A string framed by `a` and `b` gives back its three parts. */
  lemma Framed(a: string, m: string, b: string)
    ensures StartsWith(a + m + b, a)
    ensures (a + m + b)[|a|..|a + m + b| - |b|] == m
    ensures (a + m + b)[|a + m + b| - |b|..] == b
  {
    assert (a + m + b)[..|a|] == a;
  }

  /** The keywords are found inside whatever frames their middle. */
  lemma FramedContains(a: string, opening: string, k: string, close: string, b: string)
    ensures Contains(a + (opening + k + close) + b, k)
  {
    assert a + (opening + k + close) + b == (a + opening) + k + (close + b);
    ContainsInfix(a + opening, k, close + b);
  }

  /** `buildImagePrompt(idea)` with the two random indices as inputs
      (`Math.floor(Math.random() * 4)` is always below 4). */
  function BuildImagePrompt(idea: string, styleIndex: nat, endingIndex: nat): (p: string)
    requires styleIndex < |Styles| && endingIndex < |Endings|
    ensures StartsWith(p, Styles[styleIndex])
    ensures var tail := " " + Endings[endingIndex];
      |p| >= |Styles[styleIndex]| + |tail| && p[|p| - |tail|..] == tail
    ensures ExtractSafeKeywords(idea) != "" ==> Contains(p, ExtractSafeKeywords(idea))
    ensures ExtractSafeKeywords(idea) == "" ==> Contains(p, NoKeywords)
  {
    var style := Styles[styleIndex];
    var tail := " " + Endings[endingIndex];
    var keywords := ExtractSafeKeywords(idea);
    var middle := PromptMiddle(keywords);
    Framed(style, middle, tail);
    if keywords != "" then
      FramedContains(style, KeywordsOpening, keywords, ",", tail);
      style + middle + tail
    else
      ContainsInfix(style, NoKeywords, tail);
      style + middle + tail
  }

  /** Reads the keywords back out of an image prompt built with the given indices. */
  function KeywordsOfPrompt(p: string, styleIndex: nat, endingIndex: nat): Option<string>
    requires styleIndex < |Styles| && endingIndex < |Endings|
  {
    var head := |Styles[styleIndex]|;
    var tail := 1 + |Endings[endingIndex]|;
    if |p| < head + tail then None
    else
      var middle := p[head..|p| - tail];
      if StartsWith(middle, KeywordsOpening) && |middle| > |KeywordsOpening| && middle[|middle| - 1] == ',' then
        Some(middle[|KeywordsOpening|..|middle| - 1])
      else if middle == NoKeywords then Some("")
      else None
  }

  /** The placeholder middle does not open like a keywords middle. */
  lemma PlaceholderIsNotKeywords()
    ensures !StartsWith(NoKeywords, KeywordsOpening)
  {
    assert NoKeywords[3] != KeywordsOpening[3];
  }

  /** The prompt carries exactly the extracted keywords. */
  lemma ImagePromptKeywordsRoundTrip(idea: string, styleIndex: nat, endingIndex: nat)
    requires styleIndex < |Styles| && endingIndex < |Endings|
    ensures KeywordsOfPrompt(BuildImagePrompt(idea, styleIndex, endingIndex), styleIndex, endingIndex)
            == Some(ExtractSafeKeywords(idea))
  {
    var keywords := ExtractSafeKeywords(idea);
    var middle := PromptMiddle(keywords);
    var tail := " " + Endings[endingIndex];
    Framed(Styles[styleIndex], middle, tail);
    if keywords != "" {
      Framed(KeywordsOpening, keywords, ",");
    } else {
      PlaceholderIsNotKeywords();
    }
  }

  /** The body of the create call's response. */
  datatype ArtTask = ArtTask(id: Option<string>)

  /** The `error` object of a status response. */
  datatype ArtError = ArtError(message: Option<string>)

  /** A status response: `done`, the base64 image of `response` (`None` when
      `response` or `image` is absent) and the `error` object. */
  datatype ArtStatus = ArtStatus(done: bool, image: Option<string>, error: Option<ArtError>)

  /** At most this many status checks are made. */
  const MaxChecks: nat := 30
  const ArtApiErrorPrefix := "YandexART API error: "
  const StatusCheckFailedPrefix := "Status check failed: "
  const GenerationFailedPrefix := "Generation failed: "
  const ArtTimeout := "Image generation timeout - took too long"

  /** What one status check decides. */
  datatype Step = Continue | Stop(outcome: Result<string, Failure>)

  /** `String(error.message)`. */
  function ArtMessageText(message: Option<string>): string
  {
    if message.Some? then message.value else "undefined"
  }

  /** One status check: a failed status or an `error` field stops with an
      error, `done` with an image stops with the image, anything else waits. */
  function CheckStep(check: Result<Response<ArtStatus>, Failure>): (s: Step)
    ensures check.Err? ==> s == Stop(Err(check.error))
    ensures check.Ok? && !IsOk(check.value.status) ==>
              s.Stop? && s.outcome.Err? && StatusAfter(s.outcome.error.message, StatusCheckFailedPrefix) == Some(check.value.status)
    ensures s.Stop? && s.outcome.Ok? ==> && check.Ok? && IsOk(check.value.status) && check.value.json.Some?
                                         && check.value.json.value.error.None? && check.value.json.value.done
                                         && Truthy(check.value.json.value.image)
                                         && s.outcome.value == check.value.json.value.image.value
    ensures s.Continue? <==> && check.Ok? && IsOk(check.value.status) && check.value.json.Some?
                             && check.value.json.value.error.None?
                             && !(check.value.json.value.done && Truthy(check.value.json.value.image))
  {
    match check
    case Err(e) => Stop(Err(e))
    case Ok(response) =>
      if !IsOk(response.status) then
        StatusAfterMessage(StatusCheckFailedPrefix, response.status, "");
        assert StatusCheckFailedPrefix + IntToString(response.status) + "" == StatusCheckFailedPrefix + IntToString(response.status);
        Stop(Err(PlainError(StatusCheckFailedPrefix + IntToString(response.status))))
      else match ReadJson(response)
        case Err(e) => Stop(Err(e))
        case Ok(status) =>
          if status.error.Some? then Stop(Err(PlainError(GenerationFailedPrefix + ArtMessageText(status.error.value.message))))
          else if status.done && Truthy(status.image) then Stop(Ok(status.image.value))
          else Continue
  }

  /** An `error` field fails the task even when `done` is set with an image. */
  lemma ErrorBeatsDone(image: string, error: ArtError)
    ensures CheckStep(Ok(Response(200, "", Some(ArtStatus(true, Some(image), Some(error))))))
            == Stop(Err(PlainError(GenerationFailedPrefix + ArtMessageText(error.message))))
  {
  }

  /** The outcome of a polling run and how many checks it made. */
  datatype Polled = Polled(outcome: Result<string, Failure>, checks: nat)

  /** Reference definition of the polling: checks from attempt `attempt` on
      (counting from 1), where `check(k)` is how the (k+1)-th check settles. */
  function Poll(check: nat -> Result<Response<ArtStatus>, Failure>, attempt: nat): (r: Polled)
    requires 1 <= attempt <= MaxChecks + 1
    decreases MaxChecks + 1 - attempt
    ensures attempt - 1 <= r.checks <= MaxChecks && r.checks >= 1
    ensures r.outcome == Err(PlainError(ArtTimeout)) || CheckStep(check(r.checks - 1)) == Stop(r.outcome)
  {
    if attempt > MaxChecks then Polled(Err(PlainError(ArtTimeout)), MaxChecks)
    else match CheckStep(check(attempt - 1))
      case Stop(outcome) => Polled(outcome, attempt)
      case Continue => Poll(check, attempt + 1)
  }

  /** Every check before the last one of a run said to wait; a run that
      gives up made all 30 checks and each said to wait. */
  lemma {:induction false} PollWaitsBeforeLast(check: nat -> Result<Response<ArtStatus>, Failure>, attempt: nat)
    requires 1 <= attempt <= MaxChecks + 1
    decreases MaxChecks + 1 - attempt
    ensures var r := Poll(check, attempt);
      && (forall k :: attempt - 1 <= k < r.checks - 1 ==> CheckStep(check(k)).Continue?)
      && (r.outcome == Err(PlainError(ArtTimeout)) && r.checks == MaxChecks && attempt <= MaxChecks
            && CheckStep(check(MaxChecks - 1)).Continue? ==>
            forall k :: attempt - 1 <= k < MaxChecks ==> CheckStep(check(k)).Continue?)
  {
    if attempt <= MaxChecks && CheckStep(check(attempt - 1)).Continue? {
      PollWaitsBeforeLast(check, attempt + 1);
    }
  }

  /** A run in which every remaining check says to wait gives up after the
      30th check with the timeout error. */
  lemma {:induction false} PollTimesOut(check: nat -> Result<Response<ArtStatus>, Failure>, attempt: nat)
    requires 1 <= attempt <= MaxChecks + 1
    decreases MaxChecks + 1 - attempt
    ensures (forall k :: attempt - 1 <= k < MaxChecks ==> CheckStep(check(k)).Continue?) ==>
              Poll(check, attempt) == Polled(Err(PlainError(ArtTimeout)), MaxChecks)
  {
    if attempt <= MaxChecks && forall k :: attempt - 1 <= k < MaxChecks ==> CheckStep(check(k)).Continue? {
      PollTimesOut(check, attempt + 1);
    }
  }

  /** The create call: a failed status or a body that is not JSON fails
      the generation before any status check. */
  function StartTask(create: Result<Response<ArtTask>, Failure>): (r: Result<ArtTask, Failure>)
    ensures r.Ok? <==> create.Ok? && IsOk(create.value.status) && create.value.json.Some?
    ensures r.Ok? ==> r.value == create.value.json.value
    ensures create.Err? ==> r == Err(create.error)
    ensures create.Ok? && !IsOk(create.value.status) ==>
              r.Err? && StatusAfter(r.error.message, ArtApiErrorPrefix) == Some(create.value.status)
  {
    match create
    case Err(e) => Err(e)
    case Ok(response) =>
      if !IsOk(response.status) then
        StatusAfterMessage(ArtApiErrorPrefix, response.status, "");
        assert ArtApiErrorPrefix + IntToString(response.status) + "" == ArtApiErrorPrefix + IntToString(response.status);
        Err(PlainError(ArtApiErrorPrefix + IntToString(response.status)))
      else ReadJson(response)
  }

  /** `generateImage(request)`: create the task, then check its status up to
      30 times, sleeping 2 s between checks. `create` is how the create call
      settled and `check(k)` how the (k+1)-th status check settles. Returns
      the base64 image (its decoding is not modelled), the number of checks
      and the number of sleeps. */
  method GenerateImage(create: Result<Response<ArtTask>, Failure>, check: nat -> Result<Response<ArtStatus>, Failure>)
    returns (result: Result<string, Failure>, checks: nat, sleeps: nat)
    ensures checks <= MaxChecks
    ensures sleeps == if checks == 0 then 0 else checks - 1
    ensures !(create.Ok? && IsOk(create.value.status) && create.value.json.Some?) ==> checks == 0 && result.Err?
    ensures create.Ok? && !IsOk(create.value.status) ==>
              result.Err? && StatusAfter(result.error.message, ArtApiErrorPrefix) == Some(create.value.status)
    ensures create.Ok? && IsOk(create.value.status) && create.value.json.Some? ==>
              Polled(result, checks) == Poll(check, 1)
    ensures result.Ok? ==> checks >= 1 && CheckStep(check(checks - 1)) == Stop(result)
    ensures forall k :: 0 <= k < checks - 1 ==> CheckStep(check(k)).Continue?
    ensures create.Ok? && IsOk(create.value.status) && create.value.json.Some?
            && (forall k :: 0 <= k < MaxChecks ==> CheckStep(check(k)).Continue?) ==>
              result == Err(PlainError(ArtTimeout)) && checks == MaxChecks
  {
    sleeps := 0;
    checks := 0;
    var task := StartTask(create);
    if task.Err? {
      return Err(task.error), 0, 0;
    }
    PollWaitsBeforeLast(check, 1);
    PollTimesOut(check, 1);
    var attempt := 1;
    while attempt <= MaxChecks
      invariant 1 <= attempt <= MaxChecks + 1
      invariant checks == attempt - 1
      invariant sleeps == if attempt <= MaxChecks then attempt - 1 else MaxChecks - 1
      invariant Poll(check, attempt) == Poll(check, 1)
      invariant forall k :: 0 <= k < attempt - 1 ==> CheckStep(check(k)).Continue?
      decreases MaxChecks + 1 - attempt
    {
      checks := checks + 1;
      match CheckStep(check(attempt - 1))
      case Stop(outcome) =>
        return outcome, checks, sleeps;
      case Continue =>
        if attempt < MaxChecks {
          sleeps := sleeps + 1;
        }
        attempt := attempt + 1;
    }
    result := Err(PlainError(ArtTimeout));
  }
}
