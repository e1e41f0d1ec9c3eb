/**
 * `api/delivery_reports.php`: dependency check, preflight and API-key
 * check, then one call to `SmsService::getDeliveryReports` with the query
 * parameters defaulted. It has no method check: every method other than
 * `OPTIONS` reaches the service.
 */
module DeliveryReportsEndpoint {
  import opened Common
  import opened Http
  import SmsService

  const DefaultLimit := 10

  /** Every guard before the service call lets the request through. */
  predicate GuardsPass(env: Environment, req: Request) {
    && env.depsInstalled
    && req.verb != "OPTIONS"
    && KeyConfigured(env)
  }

  method HandleDeliveryReports(env: Environment, req: Request, api: SmsService.SmsApi)
    returns (reply: Reply<seq<SmsService.DeliveryRecord>>)
    // the guards, in the order in which they win
    ensures !env.depsInstalled ==> reply == HandleApiError("Dependencies not installed", 500)
    ensures env.depsInstalled && req.verb == "OPTIONS" ==> reply == Preflight()
    ensures env.depsInstalled && req.verb != "OPTIONS" && !KeyConfigured(env) ==>
      reply == Reply(500, ErrorOnly("API key not configured"), None)
    // absent filters are passed as null, an absent limit as 10
    ensures reply.call.Some? <==> GuardsPass(env, req)
    ensures GuardsPass(env, req) ==>
      var q := req.query;
      var limit := q.limit.GetOr(DefaultLimit);
      && reply.call == Some(GetDeliveryReportsCall(ConfigOf(env), q.bulkId, q.messageId, limit))
      && Answers(reply, SmsService.ReportsResult(api.getOutboundSmsMessageDeliveryReports(
                          SmsService.ReportFilter(q.bulkId, q.messageId, limit))))
    // this endpoint never rejects a request as malformed or as the wrong method
    ensures reply.status in {200, 500}
  {
    if !env.depsInstalled {
      return HandleApiError("Dependencies not installed", 500);
    }
    if req.verb == "OPTIONS" {
      return Preflight();
    }
    var config := ConfigOf(env);
    if PhpFalsy(config.apiKey) {
      return Reply(500, ErrorOnly("API key not configured"), None);
    }
    var bulkId := req.query.bulkId;
    var messageId := req.query.messageId;
    var limit := req.query.limit.GetOr(DefaultLimit);
    var call := GetDeliveryReportsCall(config, bulkId, messageId, limit);
    var result := SmsService.GetDeliveryReports(api, bulkId, messageId, limit);
    match result
    case Completed(envelope) =>
      if envelope.success {
        reply := Reply(200, EnvelopeBody(envelope), Some(call));
      } else {
        reply := Reply(500, EnvelopeBody(envelope), Some(call));
      }
    case Escaped(m) =>
      reply := Reply(500, EnvelopeBody(Failed(UnexpectedPrefix + m)), Some(call));
  }
}
