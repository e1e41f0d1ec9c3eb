/**
 * `api/send_sms.php`: a straight-line script of guards, each of which may
 * answer and exit, followed by one call to `SmsService::sendSms`.
 */
module SendEndpoint {
  import opened Common
  import opened Http
  import PhoneFormat
  import SmsService

  const DefaultSender := "InfoSMS"

  /** Every guard before the service call lets the request through. */
  predicate GuardsPass(env: Environment, req: Request) {
    && env.depsInstalled
    && req.verb == "POST"
    && KeyConfigured(env)
    && Field(req.body, "to").Some?
    && Field(req.body, "message").Some?
    && PhoneFormat.PhoneMatches(Field(req.body, "to").value)
  }

  method HandleSendSms(env: Environment, req: Request, api: SmsService.SmsApi)
    returns (reply: Reply<SmsService.SendData>)
    // the guards, in the order in which they win
    ensures !env.depsInstalled ==> reply == HandleApiError("Dependencies not installed", 500)
    ensures env.depsInstalled && req.verb == "OPTIONS" ==> reply == Preflight()
    ensures env.depsInstalled && req.verb != "OPTIONS" && req.verb != "POST" ==>
      reply == Reply(405, ErrorOnly("Method not allowed"), None)
    ensures env.depsInstalled && req.verb == "POST" && !KeyConfigured(env) ==>
      reply == Reply(500, ErrorOnly("API key not configured"), None)
    ensures env.depsInstalled && req.verb == "POST" && KeyConfigured(env) &&
            (Field(req.body, "to").None? || Field(req.body, "message").None?) ==>
      reply == Reply(400, ErrorOnly("Missing required fields: to, message"), None)
    ensures env.depsInstalled && req.verb == "POST" && KeyConfigured(env) &&
            Field(req.body, "to").Some? && Field(req.body, "message").Some? &&
            !PhoneFormat.PhoneMatches(Field(req.body, "to").value) ==>
      reply == Reply(400, ErrorOnly("Invalid phone number format"), None)
    // the service is called exactly when every guard passes, with the sender defaulted
    ensures reply.call.Some? <==> GuardsPass(env, req)
    ensures GuardsPass(env, req) ==>
      var to, message := Field(req.body, "to").value, Field(req.body, "message").value;
      var from := Field(req.body, "from").GetOr(DefaultSender);
      && reply.call == Some(SendSmsCall(ConfigOf(env), to, message, from))
      && Answers(reply, SmsService.SendSms(api, to, message, from))
    // what a client can rely on whatever the inputs
    ensures reply.status in {200, 400, 405, 500}
    ensures reply.status == 400 ==> reply.call.None?
    ensures reply.call.Some? ==> PhoneFormat.PhoneMatches(reply.call.value.to)
  {
    if !env.depsInstalled {
      return HandleApiError("Dependencies not installed", 500);
    }
    if req.verb == "OPTIONS" {
      return Preflight();
    }
    if req.verb != "POST" {
      return Reply(405, ErrorOnly("Method not allowed"), None);
    }
    var config := ConfigOf(env);
    if PhpFalsy(config.apiKey) {
      return Reply(500, ErrorOnly("API key not configured"), None);
    }
    var input := req.body;
    if Field(input, "to").None? || Field(input, "message").None? {
      return Reply(400, ErrorOnly("Missing required fields: to, message"), None);
    }
    var to := Field(input, "to").value;
    var message := Field(input, "message").value;
    var from := Field(input, "from").GetOr(DefaultSender);
    var valid := PhoneFormat.CheckPhone(to);
    if !valid {
      return Reply(400, ErrorOnly("Invalid phone number format"), None);
    }
    var call := SendSmsCall(config, to, message, from);
    var result := SmsService.SendSms(api, to, message, from);
    match result
    case Completed(envelope) =>
      if envelope.success {
        reply := Reply(200, EnvelopeBody(envelope), Some(call));
      } else {
        reply := Reply(500, EnvelopeBody(envelope), Some(call));
      }
    case Escaped(m) =>
      reply := Reply(500, EnvelopeBody(Failed(UnexpectedPrefix + m)), Some(call));
  }
}
