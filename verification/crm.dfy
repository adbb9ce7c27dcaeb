/** The Bitrix24 CRM client (services/crm.service.ts): lead field mapping,
    validation, the REST call's result classification and lead creation
    with retries. The webhook is `config.bitrix24Webhook`. */
module Crm {
  import opened JsCore
  import opened JsString
  import opened Decimal
  import opened Errors
  import opened Net
  import opened Retrying

  /** `LeadData`: only the name is required by its type. */
  datatype LeadData = LeadData(name: string, phone: Option<string>, email: Option<string>,
                               comment: Option<string>, source: Option<string>)

  /** A value of the `fields` object posted to Bitrix24. */
  datatype FieldValue =
    | Text(text: string)
    | Number(number: int)
    /** `[{ VALUE: value, VALUE_TYPE: "WORK" }]`. */
    | WorkContact(value: string)

  /** The parts of a Bitrix24 reply the client reads; `result` is the id
      `crm.lead.add` returns. */
  datatype BitrixJson = BitrixJson(result: Option<int>, error: Option<string>, errorDescription: Option<string>)

  /** `!!this.webhookUrl`. */
  predicate Enabled(webhook: Option<string>)
    ensures Enabled(webhook) <==> webhook.Some? && |webhook.value| > 0
  {
    Truthy(webhook)
  }

  const TitlePrefix := "Заявка от "
  const DefaultSource := "TELEGRAM"

  /** `formatLeadData(data)`. */
  function FormatLeadData(data: LeadData): (fields: map<string, FieldValue>)
    ensures {"TITLE", "NAME", "SOURCE_ID", "OPENED", "ASSIGNED_BY_ID"} <= fields.Keys
    ensures fields["TITLE"] == Text(TitlePrefix + data.name)
    ensures fields["NAME"] == Text(data.name)
    ensures fields["SOURCE_ID"] == Text(if Truthy(data.source) then data.source.value else DefaultSource)
    ensures fields["OPENED"] == Text("Y") && fields["ASSIGNED_BY_ID"] == Number(1)
    ensures "PHONE" in fields <==> Truthy(data.phone)
    ensures "PHONE" in fields ==> fields["PHONE"] == WorkContact(data.phone.value)
    ensures "EMAIL" in fields <==> Truthy(data.email)
    ensures "EMAIL" in fields ==> fields["EMAIL"] == WorkContact(data.email.value)
    ensures "COMMENTS" in fields <==> Truthy(data.comment)
    ensures "COMMENTS" in fields ==> fields["COMMENTS"] == Text(data.comment.value)
    ensures |fields.Keys| == 5 + (if Truthy(data.phone) then 1 else 0) + (if Truthy(data.email) then 1 else 0)
                              + (if Truthy(data.comment) then 1 else 0)
  {
    var base := map[
      "TITLE" := Text(TitlePrefix + data.name),
      "NAME" := Text(data.name),
      "SOURCE_ID" := Text(if Truthy(data.source) then data.source.value else DefaultSource),
      "OPENED" := Text("Y"),
      "ASSIGNED_BY_ID" := Number(1)];
    var withPhone := if Truthy(data.phone) then base["PHONE" := WorkContact(data.phone.value)] else base;
    var withEmail := if Truthy(data.email) then withPhone["EMAIL" := WorkContact(data.email.value)] else withPhone;
    if Truthy(data.comment) then withEmail["COMMENTS" := Text(data.comment.value)] else withEmail
  }

  /** Reads the lead back out of its fields: the name from TITLE, the
      optional parts from their keys. */
  function LeadOfFields(fields: map<string, FieldValue>): Option<LeadData>
  {
    if "TITLE" in fields && fields["TITLE"].Text? && StartsWith(fields["TITLE"].text, TitlePrefix)
       && "SOURCE_ID" in fields && fields["SOURCE_ID"].Text?
    then
      var contact := (key: string) =>
        if key in fields && fields[key].WorkContact? then Some(fields[key].value) else None;
      Some(LeadData(
        fields["TITLE"].text[|TitlePrefix|..],
        contact("PHONE"),
        contact("EMAIL"),
        if "COMMENTS" in fields && fields["COMMENTS"].Text? then Some(fields["COMMENTS"].text) else None,
        Some(fields["SOURCE_ID"].text)))
    else None
  }

  /** Nothing of a lead is lost in the fields, once its empty optional parts
      are read as absent and an absent source as "TELEGRAM". */
  lemma FieldsKeepTheLead(data: LeadData)
    requires data.phone != Some("") && data.email != Some("") && data.comment != Some("") && data.source != Some("")
    ensures LeadOfFields(FormatLeadData(data))
            == Some(data.(source := Some(if data.source.Some? then data.source.value else DefaultSource)))
  {
    var title := TitlePrefix + data.name;
    assert title[..|TitlePrefix|] == TitlePrefix;
    assert title[|TitlePrefix|..] == data.name;
  }

  /** The REST endpoint of a method. */
  function ApiUrl(webhook: string, apiMethod: string): string
  {
    webhook + apiMethod + ".json"
  }

  /** Reads the method back out of an endpoint of the given webhook. */
  function MethodOfUrl(webhook: string, url: string): Option<string>
  {
    if |url| >= |webhook| + 5 && url[..|webhook|] == webhook && url[|url| - 5..] == ".json"
    then Some(url[|webhook|..|url| - 5])
    else None
  }

  /** Every method is recovered from its endpoint. */
  lemma ApiUrlNamesMethod(webhook: string, apiMethod: string)
    ensures MethodOfUrl(webhook, ApiUrl(webhook, apiMethod)) == Some(apiMethod)
  {
    var url := ApiUrl(webhook, apiMethod);
    assert url[..|webhook|] == webhook;
    assert url[|url| - 5..] == ".json";
    assert url[|webhook|..|url| - 5] == apiMethod;
  }

  const HttpErrorPrefix := "Bitrix24 API HTTP error: "
  const ApiErrorPrefix := "Bitrix24 API error: "

  /** `String(x)` of an optional string. */
  function StringOf(x: Option<string>): string
  {
    if x.Some? then x.value else "undefined"
  }

  /** `callBitrix24API(method, params)`, where `fetched` is how the POST
      settled: its result, or the error it throws. */
  function CallBitrix24Api(fetched: Result<Response<BitrixJson>, Failure>): (r: Result<Option<int>, Failure>)
    ensures fetched.Err? ==> r == Err(fetched.error)
    ensures fetched.Ok? && !IsOk(fetched.value.status) ==>
              && r.Err? && r.error.BotError? && r.error.kind == CrmService
              && StatusAfter(r.error.message, HttpErrorPrefix) == Some(fetched.value.status)
    ensures fetched.Ok? && IsOk(fetched.value.status) && fetched.value.json.None? ==> r == Err(JsonSyntaxError)
    ensures r.Ok? <==> fetched.Ok? && IsOk(fetched.value.status) && fetched.value.json.Some?
                       && !Truthy(fetched.value.json.value.error)
    ensures r.Ok? ==> r.value == fetched.value.json.value.result
    ensures fetched.Ok? && IsOk(fetched.value.status) && fetched.value.json.Some? && Truthy(fetched.value.json.value.error) ==>
              r == Err(CreateError(ApiErrorPrefix + fetched.value.json.value.error.value + " - "
                                   + StringOf(fetched.value.json.value.errorDescription), CrmService, None))
  {
    match fetched
    case Err(e) => Err(e)
    case Ok(response) =>
      if !IsOk(response.status) then
        StatusAfterMessage(HttpErrorPrefix, response.status, "");
        assert HttpErrorPrefix + IntToString(response.status) + "" == HttpErrorPrefix + IntToString(response.status);
        Err(CreateError(HttpErrorPrefix + IntToString(response.status), CrmService, None))
      else match ReadJson(response)
        case Err(e) => Err(e)
        case Ok(body) =>
          if Truthy(body.error) then
            Err(CreateError(ApiErrorPrefix + body.error.value + " - " + StringOf(body.errorDescription), CrmService, None))
          else Ok(body.result)
  }

  /** The client's configuration and how each call to Bitrix24 settles:
      `attempt(i)` is the (i+1)-th POST of `crm.lead.add`. */
  datatype CrmClient = CrmClient(webhook: Option<string>, attempt: nat -> Result<Response<BitrixJson>, Failure>)

  const LeadAddMethod := "crm.lead.add"
  const CommentAddMethod := "crm.timeline.comment.add"
  const NotConfigured := "CRM is not configured"
  /** `createLead` calls Bitrix24 at most this many times. */
  const CRM_MAX_ATTEMPTS: nat := 2

  /** The lead id `createLead` resolves with, or its error, and how many
      calls to Bitrix24 it made. */
  datatype LeadRun = LeadRun(result: Result<Option<int>, Failure>, calls: nat)

  /** The record `validateRequired` sees. */
  function LeadRecord(data: LeadData): map<string, string>
  {
    map["name" := data.name]
  }

  /** The outcomes of the attempts `retry` may make. */
  function LeadAttempts(client: CrmClient): (outcomes: seq<Result<Option<int>, Failure>>)
    ensures |outcomes| == CRM_MAX_ATTEMPTS
    ensures forall i :: 0 <= i < CRM_MAX_ATTEMPTS ==> outcomes[i] == CallBitrix24Api(client.attempt(i))
  {
    seq(CRM_MAX_ATTEMPTS, i requires 0 <= i => CallBitrix24Api(client.attempt(i)))
  }

  /** `createLead(data)`. */
  function CreateLead(client: CrmClient, data: LeadData): (r: LeadRun)
    ensures !Enabled(client.webhook) ==> r == LeadRun(Err(CreateError(NotConfigured, CrmService, None)), 0)
    ensures Enabled(client.webhook) && data.name == "" ==>
              && r.calls == 0 && r.result.Err? && r.result.error.BotError?
              && r.result.error.kind == Validation && r.result.error.message == "Missing required field: name"
    ensures Enabled(client.webhook) && data.name != "" ==> 1 <= r.calls <= CRM_MAX_ATTEMPTS
    ensures r.calls > 0 ==> r.result == LeadAttempts(client)[r.calls - 1]
    ensures r.result.Ok? <==> Enabled(client.webhook) && data.name != ""
                              && exists i :: 0 <= i < CRM_MAX_ATTEMPTS && LeadAttempts(client)[i].Ok?
  {
    if !Enabled(client.webhook) then LeadRun(Err(CreateError(NotConfigured, CrmService, None)), 0)
    else
      var invalid := ValidateRequired(LeadRecord(data), ["name"]);
      assert FieldTruthy(LeadRecord(data), "name") <==> data.name != "";
      if invalid.Some? then
        assert invalid.value.message == "Missing required field: " + "name";
        LeadRun(Err(invalid.value), 0)
      else
        var retried := Retry(LeadAttempts(client), CRM_MAX_ATTEMPTS);
        SucceedsIffSomeAttemptSucceeds(LeadAttempts(client), CRM_MAX_ATTEMPTS);
        LeadRun(retried.result, retried.calls)
  }

  /** A first attempt that fails is retried once, and the second outcome
      decides. */
  lemma FailedFirstAttemptIsRetried(client: CrmClient, data: LeadData)
    requires Enabled(client.webhook) && data.name != "" && LeadAttempts(client)[0].Err?
    ensures CreateLead(client, data) == LeadRun(LeadAttempts(client)[1], 2)
  {
  }

  /** `addLeadComment(leadId, comment)`: the outcome and whether a call was made. */
  datatype CommentRun = CommentRun(result: Result<(), Failure>, called: bool)

  /** The `fields` of the comment request. */
  function CommentFields(leadId: int, comment: string): (fields: map<string, FieldValue>)
    ensures fields.Keys == {"ENTITY_ID", "ENTITY_TYPE", "COMMENT"}
    ensures fields["ENTITY_ID"] == Number(leadId) && fields["COMMENT"] == Text(comment)
  {
    map["ENTITY_ID" := Number(leadId), "ENTITY_TYPE" := Text("lead"), "COMMENT" := Text(comment)]
  }

  /** `addLeadComment(leadId, comment)`, where `fetched` is how its POST settles. */
  function AddLeadComment(webhook: Option<string>, fetched: Result<Response<BitrixJson>, Failure>): (r: CommentRun)
    ensures !Enabled(webhook) ==> r == CommentRun(Ok(()), false)
    ensures Enabled(webhook) ==> r.called && (r.result.Ok? <==> CallBitrix24Api(fetched).Ok?)
    ensures Enabled(webhook) && r.result.Err? ==> r.result.error == CallBitrix24Api(fetched).error
  {
    if !Enabled(webhook) then CommentRun(Ok(()), false)
    else match CallBitrix24Api(fetched)
      case Ok(_) => CommentRun(Ok(()), true)
      case Err(e) => CommentRun(Err(e), true)
  }
}
