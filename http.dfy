/**
 * What the three PHP entry points read and write, made explicit: the
 * process environment and the request become inputs, and each script's
 * `http_response_code`/`echo`/`exit` becomes a returned `Reply`.
 */
module Http {
  import opened Common

  /**
   * Whether `../vendor/autoload.php` exists, and what `getenv` gives for
   * `INFOBIP_API_KEY` and `INFOBIP_BASE_URL` (`None` when unset).
   */
  datatype Environment = Environment(depsInstalled: bool, apiKey: Option<string>, baseUrl: Option<string>)

  /** The parsed `$_GET` parameters of the delivery-report listing. */
  datatype Query = Query(bulkId: Option<string>, messageId: Option<string>, limit: Option<int>)

  /**
   * `$_SERVER['REQUEST_METHOD']`, the request body after `json_decode`
   * (`None` when it is not a JSON object; a member whose value is JSON
   * `null` maps to `None`), and the query parameters.
   */
  datatype Request = Request(verb: string, body: Option<map<string, Option<string>>>, query: Query)

  /** What is echoed: nothing, `{error}` alone, or a `{success, ...}` envelope. */
  datatype Body<+D> = NoBody | ErrorOnly(error: string) | EnvelopeBody(env: Envelope<D>)

  /** The arguments `new SmsService($apiKey, $baseUrl)` is constructed with. */
  datatype Config = Config(apiKey: string, baseUrl: string)

  /** The service call an entry point made, with its arguments. */
  datatype ServiceCall =
    | SendSmsCall(config: Config, to: string, message: string, from: string)
    | PreviewSmsCall(config: Config, message: string)
    | GetDeliveryReportsCall(config: Config, bulkId: Option<string>, messageId: Option<string>, limit: int)

  /** The response code, the body, and the service call made if any. */
  datatype Reply<+D> = Reply(status: int, body: Body<D>, call: Option<ServiceCall>)

  const DefaultBaseUrl := "https://api.infobip.com"

  /** The strings PHP treats as false: `""` and `"0"`. */
  predicate PhpFalsy(s: string) {
    s == "" || s == "0"
  }

  /** `getenv($name) ?: $default`: an unset or falsy value gives the default. */
  function EnvOr(v: Option<string>, default: string): string {
    if v.Some? && !PhpFalsy(v.value) then v.value else default
  }

  /** `!empty(getenv('INFOBIP_API_KEY') ?: '')` */
  predicate KeyConfigured(env: Environment) {
    !PhpFalsy(EnvOr(env.apiKey, ""))
  }

  /** The key counts as configured exactly when it is set, non-empty and not "0". */
  lemma KeyConfiguredIff(env: Environment)
    ensures KeyConfigured(env) <==> env.apiKey.Some? && env.apiKey.value != "" && env.apiKey.value != "0"
  {
  }

  function ConfigOf(env: Environment): Config {
    Config(EnvOr(env.apiKey, ""), EnvOr(env.baseUrl, DefaultBaseUrl))
  }

  /**
   * A body member as `isset($input[$key])` and `$input[$key] ?? ...` see
   * it: present only when the body is an object holding a non-null value.
   */
  function Field(body: Option<map<string, Option<string>>>, key: string): Option<string> {
    if body.Some? && key in body.value then body.value[key] else None
  }

  /** `handleApiError($error, $code)`: that code and `{success: false, error}`. */
  function HandleApiError<D>(error: string, code: int): Reply<D> {
    Reply(code, EnvelopeBody(Failed(error)), None)
  }

  /** The answer to a preflight `OPTIONS` request. */
  function Preflight<D>(): Reply<D> {
    Reply(200, NoBody, None)
  }

  const UnexpectedPrefix := "Unexpected error: "

  /**
   * The tail every entry point shares once it has called the service: the
   * envelope is echoed unchanged with 200 when `success` holds and 500
   * otherwise; an exception that escaped the service becomes a 500 with
   * `{success: false, error: "Unexpected error: ..."}`.
   */
  predicate Answers<D(==)>(reply: Reply<D>, result: ServiceResult<D>) {
    match result
    case Completed(env) =>
      reply.status == (if env.success then 200 else 500) && reply.body == EnvelopeBody(env)
    case Escaped(m) =>
      reply.status == 500 && reply.body == EnvelopeBody(Failed(UnexpectedPrefix + m))
  }

  /** The answer to a completed call is 200 exactly when the envelope says `success`. */
  lemma AnswerStatus<D>(reply: Reply<D>, result: ServiceResult<D>)
    requires Answers(reply, result)
    ensures reply.status in {200, 500}
    ensures reply.status == 200 <==> result.Completed? && result.env.success
  {
  }
}
