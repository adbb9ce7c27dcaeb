/** The `/contact` conversation (handlers/contact.handler.ts): a per-user
    state machine that asks for a name, a phone and an email, then submits
    the lead to the CRM. */
module Contact {
  import opened JsCore
  import opened JsString
  import opened Decimal
  import opened Errors
  import Crm

  /** Where a user's conversation stands, with what it has gathered so far. */
  datatype FlowState =
    | AwaitingName
    | AwaitingPhone(name: string)
    | AwaitingEmail(name: string, phone: Option<string>)

  /** The conversations in progress, by user id. */
  type Flows = map<int, FlowState>

  const Unidentified := "Ошибка: не удалось идентифицировать пользователя."
  const CrmUnavailable := "💼 К сожалению, функция сбора заявок временно недоступна.\n\nВы можете связаться с нами напрямую или попробовать позже."
  const AskName := "📝 Давайте оставим заявку на консультацию!\n\nКак вас зовут?"
  const GreetingOpening := "Приятно познакомиться, "
  const AskPhone := "!\n\nТеперь укажите ваш телефон (или напишите 'пропустить'):"
  const AskEmail := "Отлично! Последний шаг - укажите email (или напишите 'пропустить'):"
  const Thanks := "✅ Спасибо! Ваша заявка принята.\n\nМы свяжемся с вами в ближайшее время!\n\n💡 А пока можете попробовать /idea для новых AI-бизнес идей."
  /** The answer that skips an optional step, compared lower-cased. */
  const Skip := "пропустить"
  const LeadSource := "TELEGRAM_BOT"
  const CommentPrefix := "Telegram ID: "

  /** The flows and the replies sent. */
  datatype Turn = Turn(flows: Flows, replies: seq<string>)

  /** `contactHandler`: the `/contact` command from `userId`, with the CRM
      enabled or not. */
  function ContactCommand(flows: Flows, userId: Option<int>, crmEnabled: bool): (r: Turn)
    ensures |r.replies| == 1
    ensures !TruthyId(userId) ==> r == Turn(flows, [Unidentified])
    ensures TruthyId(userId) && !crmEnabled ==> r == Turn(flows, [CrmUnavailable])
    ensures TruthyId(userId) && crmEnabled ==>
              r.flows == flows[userId.value := AwaitingName] && r.replies == [AskName]
  {
    if !TruthyId(userId) then Turn(flows, [Unidentified])
    else if !crmEnabled then Turn(flows, [CrmUnavailable])
    else Turn(flows[userId.value := AwaitingName], [AskName])
  }

  /** An answer is a request to skip iff it lower-cases to "пропустить". */
  predicate Skips(text: string)
    ensures Skips(text) ==> |text| == |Skip|
  {
    Lower(text) == Skip
  }

  /** The answer a step keeps: nothing for a skip, else the text as typed. */
  function Optional(text: string): (r: Option<string>)
    ensures r.None? <==> Skips(text)
    ensures r.Some? ==> r.value == text
  {
    if Skips(text) then None else Some(text)
  }

  /** The skip word is recognised in any letter case. */
  lemma SkipIgnoresCase()
    ensures Skips("пропустить") && Skips("Пропустить") && Skips("ПРОПУСТИТЬ")
  {
    assert Lower("Пропустить") == "пропустить";
    assert Lower("ПРОПУСТИТЬ") == "пропустить";
  }

  /** `comment: \`Telegram ID: ${userId}\``. */
  function LeadComment(userId: int): (c: string)
    ensures StatusAfter(c, CommentPrefix) == Some(userId)
  {
    StatusAfterMessage(CommentPrefix, userId, "");
    assert CommentPrefix + IntToString(userId) + "" == CommentPrefix + IntToString(userId);
    CommentPrefix + IntToString(userId)
  }

  /** The lead the last step submits. */
  function LeadOf(userId: int, name: string, phone: Option<string>, emailAnswer: string): (lead: Crm.LeadData)
    ensures lead.name == name && lead.phone == phone
    ensures lead.email == Optional(emailAnswer)
    ensures lead.source == Some(LeadSource)
    ensures lead.comment.Some? && StatusAfter(lead.comment.value, CommentPrefix) == Some(userId)
  {
    Crm.LeadData(name, phone, Optional(emailAnswer), Some(LeadComment(userId)), Some(LeadSource))
  }

  /** What handling one message did: the flows afterwards, the replies
      attempted, the lead submission (if one was made) and the error passed
      to `handleError` (if any). */
  datatype FlowTurn = FlowTurn(flows: Flows, replies: seq<string>, submitted: Option<Crm.LeadRun>, handled: Option<Failure>)

  /** The message belongs to a conversation in progress: it has a sender
      with an open flow, and text. */
  predicate InFlow(flows: Flows, userId: Option<int>, text: string)
  {
    TruthyId(userId) && text != "" && userId.value in flows
  }

  /** `handleContactFlow` on a message from `userId` whose text is `text`
      ("" when the message has no text). `chatUp` is whether the chat calls
      (`reply`, `sendChatAction`) go through; `crm` is how the CRM answers. */
  function HandleContactFlow(flows: Flows, userId: Option<int>, text: string, chatUp: bool, crm: Crm.CrmClient): (r: FlowTurn)
    ensures !InFlow(flows, userId, text) ==> r == FlowTurn(flows, [], None, None)
    ensures InFlow(flows, userId, text) && chatUp && flows[userId.value].AwaitingName? ==>
              && r.flows == flows[userId.value := AwaitingPhone(text)]
              && r.replies == [GreetingOpening + text + AskPhone] && r.submitted.None? && r.handled.None?
    ensures InFlow(flows, userId, text) && chatUp && flows[userId.value].AwaitingPhone? ==>
              && r.flows == flows[userId.value := AwaitingEmail(flows[userId.value].name, Optional(text))]
              && r.replies == [AskEmail] && r.submitted.None? && r.handled.None?
    ensures InFlow(flows, userId, text) && chatUp && flows[userId.value].AwaitingEmail? ==>
              r.submitted == Some(Crm.CreateLead(crm, LeadOf(userId.value, flows[userId.value].name,
                                                             flows[userId.value].phone, text)))
    ensures r.submitted.Some? && r.submitted.value.result.Ok? ==>
              r.flows == flows - {userId.value} && r.replies == [Thanks] && r.handled.None?
    ensures r.submitted.Some? && r.submitted.value.result.Err? ==>
              r.handled == Some(r.submitted.value.result.error)
    ensures InFlow(flows, userId, text) && !chatUp ==>
              && r.handled == Some(ChatDown) && r.flows == flows - {userId.value} && r.submitted.None?
    ensures r.handled.Some? ==> TruthyId(userId) && userId.value !in r.flows
    ensures r.handled.Some? ==> |r.replies| >= 1 && r.replies[|r.replies| - 1] == HandleError(r.handled.value, chatUp).reply
    ensures forall u :: u in flows && !(TruthyId(userId) && u == userId.value) ==> u in r.flows && r.flows[u] == flows[u]
    ensures r.flows.Keys <= flows.Keys
  {
    if !InFlow(flows, userId, text) then FlowTurn(flows, [], None, None)
    else
      var u := userId.value;
      match flows[u]
      case AwaitingName =>
        var reply := GreetingOpening + text + AskPhone;
        if chatUp then FlowTurn(flows[u := AwaitingPhone(text)], [reply], None, None)
        else Failed(flows, u, [reply], None, ChatDown, chatUp)
      case AwaitingPhone(name) =>
        if chatUp then FlowTurn(flows[u := AwaitingEmail(name, Optional(text))], [AskEmail], None, None)
        else Failed(flows, u, [AskEmail], None, ChatDown, chatUp)
      case AwaitingEmail(name, phone) =>
        if !chatUp then Failed(flows, u, [], None, ChatDown, chatUp)
        else
          var run := Crm.CreateLead(crm, LeadOf(u, name, phone, text));
          match run.result
          case Err(e) => Failed(flows, u, [], Some(run), e, chatUp)
          case Ok(_) => FlowTurn(flows - {u}, [Thanks], Some(run), None)
  }

  /** What a failed chat call throws. */
  const ChatDown := JsError("TelegramError", "chat request failed")

  /** The `catch` of `handleContactFlow`: forget the user's flow, then report. */
  function Failed(flows: Flows, u: int, sent: seq<string>, submitted: Option<Crm.LeadRun>, e: Failure, chatUp: bool): (r: FlowTurn)
    ensures u !in r.flows && r.flows == flows - {u}
    ensures r.handled == Some(e)
    ensures r.replies == sent + [HandleError(e, chatUp).reply]
  {
    FlowTurn(flows - {u}, sent + [HandleError(e, chatUp).reply], submitted, Some(e))
  }

  /** A whole conversation, with the chat up and the CRM accepting the lead:
      the lead carries the name as typed, the phone and email unless skipped,
      the bot as its source and the user id in its comment, and the flow is
      over. */
  lemma ConversationSubmitsLead(flows: Flows, u: int, name: string, phone: string, email: string, crm: Crm.CrmClient)
    requires u != 0 && name != "" && phone != "" && email != ""
    requires Crm.CreateLead(crm, LeadOf(u, name, Optional(phone), email)).result.Ok?
    ensures var started := ContactCommand(flows, Some(u), true).flows;
      var named := HandleContactFlow(started, Some(u), name, true, crm).flows;
      var phoned := HandleContactFlow(named, Some(u), phone, true, crm).flows;
      var done := HandleContactFlow(phoned, Some(u), email, true, crm);
      && named[u] == AwaitingPhone(name)
      && phoned[u] == AwaitingEmail(name, Optional(phone))
      && done.submitted == Some(Crm.CreateLead(crm, LeadOf(u, name, Optional(phone), email)))
      && done.submitted.value.result.Ok?
      && u !in done.flows
      && done.replies == [Thanks]
  {
  }

  /** A lead the CRM refuses ends the conversation as well: the flow is
      forgotten and the error reported. */
  lemma RejectedLeadEndsFlow(flows: Flows, u: int, name: string, phone: Option<string>, email: string, crm: Crm.CrmClient)
    requires u != 0 && email != "" && u in flows && flows[u] == AwaitingEmail(name, phone)
    requires Crm.CreateLead(crm, LeadOf(u, name, phone, email)).result.Err?
    ensures var r := HandleContactFlow(flows, Some(u), email, true, crm);
      && u !in r.flows
      && r.handled == Some(Crm.CreateLead(crm, LeadOf(u, name, phone, email)).result.error)
  {
  }
}
