/** Process-wide configuration read once from the environment, and the
    application constants (src/config/index.ts). */
module Config {
  import opened JsCore
  import opened Errors

  /** The process environment; an unset variable is an absent key. */
  type Env = map<string, string>

  function Var(env: Env, name: string): Option<string>
  {
    if name in env then Some(env[name]) else None
  }

  // Application constants.
  const TOPICS: seq<string> := ["sales", "marketing", "hr", "product", "support", "finance"]
  const AI_MODEL := "mistralai/Mistral-7B-Instruct-v0.2"
  const AI_MAX_TOKENS := 200
  const AI_TEMPERATURE: real := 0.8
  const GEMINI_MODEL := "gemini-2.0-flash-exp"
  const GEMINI_MAX_TOKENS := 500
  const GEMINI_TEMPERATURE: real := 0.9
  const GROQ_MODEL := "llama-3.3-70b-versatile"
  const GROQ_MAX_TOKENS := 400
  const GROQ_TEMPERATURE: real := 0.8
  const YANDEX_MODEL := "yandexgpt-lite"
  const YANDEX_MAX_TOKENS := 400
  const YANDEX_TEMPERATURE: real := 0.8
  /** Per-call deadline of a provider request, in ms. */
  const REQUEST_TIMEOUT: nat := 15000
  /** Length of one rate-limit window, in ms. */
  const RATE_LIMIT_WINDOW: nat := 60000
  /** Requests a user may make per rate-limit window. */
  const RATE_LIMIT_MAX_REQUESTS: nat := 10

  /** The configuration object `getConfig` returns. It has no `yandexApiKey`. */
  datatype BotConfig = BotConfig(
    token: string,
    environment: string,
    aiEnabled: bool,
    aiToken: Option<string>,
    aiProvider: string,
    yandexFolderId: Option<string>,
    bitrix24Webhook: Option<string>)

  const MissingBotToken := "BOT_TOKEN must be provided in environment variables!"

  /** `validateEnv`: the bot token must be set and non-empty. */
  function ValidateEnv(env: Env): (r: Option<Failure>)
    ensures r.None? <==> Truthy(Var(env, "BOT_TOKEN"))
    ensures r.Some? ==> r.value == PlainError(MissingBotToken)
  {
    if Truthy(Var(env, "BOT_TOKEN")) then None else Some(PlainError(MissingBotToken))
  }

  /** `process.env.AI_PROVIDER || "groq"`. */
  function SelectedProvider(env: Env): (p: string)
    ensures p != ""
    ensures Truthy(Var(env, "AI_PROVIDER")) ==> p == env["AI_PROVIDER"]
    ensures !Truthy(Var(env, "AI_PROVIDER")) ==> p == "groq"
  {
    if Truthy(Var(env, "AI_PROVIDER")) then env["AI_PROVIDER"] else "groq"
  }

  /** The environment variable that holds the token of each provider. */
  function TokenVariable(provider: string): (v: string)
    ensures v in {"YANDEX_API_KEY", "GROQ_API_KEY", "GEMINI_API_KEY", "HUGGINGFACE_TOKEN"}
    ensures v == "GROQ_API_KEY" <==> provider == "groq"
    ensures v == "GEMINI_API_KEY" <==> provider == "gemini"
    ensures v == "HUGGINGFACE_TOKEN" <==> provider == "huggingface"
  {
    match provider
    case "yandexgpt" => "YANDEX_API_KEY"
    case "groq" => "GROQ_API_KEY"
    case "gemini" => "GEMINI_API_KEY"
    case "huggingface" => "HUGGINGFACE_TOKEN"
    case _ => "YANDEX_API_KEY"
  }

  /** `getConfig()`: fails without a bot token; otherwise reads the provider,
      its token and the optional integrations. */
  function GetConfig(env: Env): (r: Result<BotConfig, Failure>)
    ensures r.Err? <==> !Truthy(Var(env, "BOT_TOKEN"))
    ensures r.Err? ==> r.error.message == MissingBotToken
    ensures r.Ok? ==> r.value.token == env["BOT_TOKEN"] && r.value.token != ""
    ensures r.Ok? ==> r.value.aiProvider == SelectedProvider(env)
    ensures r.Ok? ==> r.value.aiToken == Var(env, TokenVariable(r.value.aiProvider))
    ensures r.Ok? ==> (r.value.aiEnabled <==> Truthy(r.value.aiToken))
    ensures r.Ok? ==> r.value.environment != ""
    ensures r.Ok? ==> r.value.yandexFolderId == Var(env, "YANDEX_FOLDER_ID")
    ensures r.Ok? ==> r.value.bitrix24Webhook == Var(env, "BITRIX24_WEBHOOK")
  {
    match ValidateEnv(env)
    case Some(e) => Err(e)
    case None =>
      var provider := SelectedProvider(env);
      var token := Var(env, TokenVariable(provider));
      var environment := if Truthy(Var(env, "NODE_ENV")) then env["NODE_ENV"] else "development";
      Ok(BotConfig(env["BOT_TOKEN"], environment, Truthy(token), token, provider,
                   Var(env, "YANDEX_FOLDER_ID"), Var(env, "BITRIX24_WEBHOOK")))
  }

  /** Which variable supplies the AI token: each known provider reads its own
      variable and any other provider value falls back to YANDEX_API_KEY. */
  lemma TokenSourceByProvider(env: Env)
    requires Truthy(Var(env, "BOT_TOKEN"))
    ensures var p := SelectedProvider(env);
      var c := GetConfig(env).value;
      && (p == "yandexgpt" ==> c.aiToken == Var(env, "YANDEX_API_KEY"))
      && (p == "groq" ==> c.aiToken == Var(env, "GROQ_API_KEY"))
      && (p == "gemini" ==> c.aiToken == Var(env, "GEMINI_API_KEY"))
      && (p == "huggingface" ==> c.aiToken == Var(env, "HUGGINGFACE_TOKEN"))
      && (p !in {"yandexgpt", "groq", "gemini", "huggingface"} ==> c.aiToken == Var(env, "YANDEX_API_KEY"))
  {
  }

  /** With AI_PROVIDER unset or empty the bot runs on groq, and AI is enabled
      exactly when GROQ_API_KEY is non-empty. */
  lemma DefaultProviderIsGroq(env: Env)
    requires Truthy(Var(env, "BOT_TOKEN")) && !Truthy(Var(env, "AI_PROVIDER"))
    ensures GetConfig(env).value.aiProvider == "groq"
    ensures GetConfig(env).value.aiEnabled <==> Truthy(Var(env, "GROQ_API_KEY"))
  {
  }

  /** NODE_ENV is taken as it is when set and non-empty, else "development". */
  lemma EnvironmentDefault(env: Env)
    requires Truthy(Var(env, "BOT_TOKEN"))
    ensures Truthy(Var(env, "NODE_ENV")) ==> GetConfig(env).value.environment == env["NODE_ENV"]
    ensures !Truthy(Var(env, "NODE_ENV")) ==> GetConfig(env).value.environment == "development"
  {
  }
}
