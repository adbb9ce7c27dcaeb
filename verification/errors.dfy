/** The bot's error vocabulary (`ErrorType`, `BotError`) and the helpers that
    create, validate and report errors to the user. */
module Errors {
  import opened JsCore

  datatype ErrorType = Validation | AiService | CrmService | TelegramApi | Unknown

  /** A thrown error: a built-in `Error` (told apart by its `name`, such as
      "AbortError" or "SyntaxError") or the bot's own `BotError`. */
  datatype Failure =
    | JsError(name: string, message: string)
    | BotError(message: string, kind: ErrorType, original: Option<Failure>)
  {
    /** The `name` property: `BotError` sets its own. */
    function Name(): string
    {
      if BotError? then "BotError" else name
    }
  }

  /** `new Error(message)`. */
  function PlainError(message: string): (e: Failure)
    ensures e.Name() == "Error" && e.message == message
  {
    JsError("Error", message)
  }

  /** What `fetch` rejects with once its abort signal fires. */
  const AbortError := JsError("AbortError", "This operation was aborted")

  /** What `response.json()` rejects with on a body that is not JSON. */
  const JsonSyntaxError := JsError("SyntaxError", "Unexpected token in JSON")

  /** The user-facing text for each error type. */
  function ErrorMessage(t: ErrorType): (m: string)
    ensures m != ""
  {
    match t
    case Validation => "❌ Неверный формат данных. Пожалуйста, проверьте и попробуйте снова."
    case AiService => "🤖 Извините, AI сервис временно недоступен. Попробуйте позже или используйте /idea без параметров."
    case CrmService => "💼 Не удалось создать заявку в CRM. Пожалуйста, свяжитесь с нами напрямую."
    case TelegramApi => "📱 Ошибка Telegram API. Пожалуйста, попробуйте еще раз."
    case Unknown => "😕 Произошла непредвиденная ошибка. Пожалуйста, попробуйте позже."
  }

  /** `createError(message, type, originalError)`. */
  function CreateError(message: string, kind: ErrorType, original: Option<Failure>): (e: Failure)
    ensures e.Name() == "BotError"
    ensures e.BotError? && e.message == message && e.kind == kind && e.original == original
  {
    BotError(message, kind, original)
  }

  /** The outcome of `handleError`: the reply it attempted and whether it got through. */
  datatype Handled = Handled(reply: string, delivered: bool)

  /** `handleError(ctx, error)`: picks the reply for the error and sends it;
      `replyGoesThrough` is whether `ctx.reply` succeeds. A failed reply is
      swallowed, so the call itself never fails. */
  function HandleError(error: Failure, replyGoesThrough: bool): (h: Handled)
    ensures h.delivered == replyGoesThrough
    ensures h.reply != ""
    ensures error.BotError? ==> h.reply == ErrorMessage(error.kind)
    ensures !error.BotError? ==> h.reply == ErrorMessage(Unknown)
  {
    var message := if error.BotError? then ErrorMessage(error.kind) else ErrorMessage(Unknown);
    Handled(message, replyGoesThrough)
  }

  /** An error made by `createError` is reported with its type's message. */
  lemma HandleCreatedError(message: string, kind: ErrorType, original: Option<Failure>, ok: bool)
    ensures HandleError(CreateError(message, kind, original), ok).reply == ErrorMessage(kind)
  {
  }

  /** A record's field is truthy when it is present and not the empty string. */
  predicate FieldTruthy(record: map<string, string>, field: string)
  {
    field in record && record[field] != ""
  }

  /** The position of the first falsy field, or `|fields|` when all are truthy. */
  function FirstFalsy(record: map<string, string>, fields: seq<string>): (i: nat)
    ensures i <= |fields|
    ensures forall j :: 0 <= j < i ==> FieldTruthy(record, fields[j])
    ensures i < |fields| ==> !FieldTruthy(record, fields[i])
  {
    if fields == [] then 0
    else if !FieldTruthy(record, fields[0]) then 0
    else 1 + FirstFalsy(record, fields[1..])
  }

  /** `validateRequired(data, fields)`: fails with a VALIDATION error naming
      the first falsy field in list order. */
  function ValidateRequired(record: map<string, string>, fields: seq<string>): (r: Option<Failure>)
    ensures r.None? <==> forall j :: 0 <= j < |fields| ==> FieldTruthy(record, fields[j])
    ensures r.Some? ==> r.value.BotError? && r.value.kind == Validation
    ensures r.Some? ==>
              (exists i :: 0 <= i < |fields| && !FieldTruthy(record, fields[i])
                && r.value.message == "Missing required field: " + fields[i]
                && (forall j :: 0 <= j < i ==> FieldTruthy(record, fields[j])))
  {
    var i := FirstFalsy(record, fields);
    if i == |fields| then None
    else Some(CreateError("Missing required field: " + fields[i], Validation, None))
  }
}
