/**
 * `api/preview_sms.php`: the same guard-and-exit script as the send
 * endpoint, with one required field and no format check, followed by one
 * call to `SmsService::previewSms`.
 */
module PreviewEndpoint {
  import opened Common
  import opened Http
  import SmsService

  /** Every guard before the service call lets the request through. */
  predicate GuardsPass(env: Environment, req: Request) {
    && env.depsInstalled
    && req.verb == "POST"
    && KeyConfigured(env)
    && Field(req.body, "message").Some?
  }

  method HandlePreviewSms(env: Environment, req: Request, api: SmsService.SmsApi)
    returns (reply: Reply<seq<SmsService.PreviewEntry>>)
    // the guards, in the order in which they win
    ensures !env.depsInstalled ==> reply == HandleApiError("Dependencies not installed", 500)
    ensures env.depsInstalled && req.verb == "OPTIONS" ==> reply == Preflight()
    ensures env.depsInstalled && req.verb != "OPTIONS" && req.verb != "POST" ==>
      reply == Reply(405, ErrorOnly("Method not allowed"), None)
    ensures env.depsInstalled && req.verb == "POST" && !KeyConfigured(env) ==>
      reply == Reply(500, ErrorOnly("API key not configured"), None)
    ensures env.depsInstalled && req.verb == "POST" && KeyConfigured(env) &&
            Field(req.body, "message").None? ==>
      reply == Reply(400, ErrorOnly("Missing required field: message"), None)
    // any present message is forwarded as it is
    ensures reply.call.Some? <==> GuardsPass(env, req)
    ensures GuardsPass(env, req) ==>
      var message := Field(req.body, "message").value;
      && reply.call == Some(PreviewSmsCall(ConfigOf(env), message))
      && Answers(reply, SmsService.PreviewResult(api.previewSmsMessage(SmsService.SmsPreviewRequest(message))))
    ensures reply.status in {200, 400, 405, 500}
    ensures reply.status == 400 ==> reply.call.None?
  {
    if !env.depsInstalled {
      return HandleApiError("Dependencies not installed", 500);
    }
    if req.verb == "OPTIONS" {
      return Preflight();
    }
    if req.verb != "POST" {
      return Reply(405, ErrorOnly("Method not allowed"), None);
    }
    var config := ConfigOf(env);
    if PhpFalsy(config.apiKey) {
      return Reply(500, ErrorOnly("API key not configured"), None);
    }
    var input := req.body;
    if Field(input, "message").None? {
      return Reply(400, ErrorOnly("Missing required field: message"), None);
    }
    var message := Field(input, "message").value;
    var call := PreviewSmsCall(config, message);
    var result := SmsService.PreviewSms(api, message);
    match result
    case Completed(envelope) =>
      if envelope.success {
        reply := Reply(200, EnvelopeBody(envelope), Some(call));
      } else {
        reply := Reply(500, EnvelopeBody(envelope), Some(call));
      }
    case Escaped(m) =>
      reply := Reply(500, EnvelopeBody(Failed(UnexpectedPrefix + m)), Some(call));
  }
}
