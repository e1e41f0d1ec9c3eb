/**
 * Requests worked through the entry points with a stand-in vendor, as a
 * client of their contracts sees them: each reply below follows from the
 * entry point's postconditions alone.
 */
module Scenarios {
  import opened Common
  import opened Http
  import opened SmsService
  import PhoneFormat
  import SendEndpoint
  import DeliveryReportsEndpoint

  const Configured := Environment(true, Some("key"), None)

  function NoQuery(): Query {
    Query(None, None, None)
  }

  /** A vendor whose send call accepts with bulk id "123" and one message. */
  function AcceptingApi(sent: Payload): SmsApi {
    SmsApi(
      (r: SmsRequest) => Returned(SmsResponse(Some("123"), Some([sent]))),
      (r: SmsPreviewRequest) => ThrewOther("unused"),
      (f: ReportFilter) => Returned(SmsDeliveryResult(Some([]))))
  }

  /** `POST send {"to":"+1234567890","message":"hi"}` with an accepting vendor. */
  method SendAccepted(sent: Payload) returns (reply: Reply<SendData>)
    ensures reply.status == 200
    ensures reply.body == EnvelopeBody(Envelope(true, Some("SMS sent successfully"),
                                                Some(SendData(Some("123"), 1, [sent])), None, None))
    ensures reply.call == Some(SendSmsCall(Config("key", DefaultBaseUrl), "+1234567890", "hi", "InfoSMS"))
  {
    PhoneFormat.PatternAccepts();
    PhoneFormat.PatternRejects();
    var body := map["to" := Some("+1234567890"), "message" := Some("hi")];
    reply := SendEndpoint.HandleSendSms(Configured, Request("POST", Some(body), NoQuery()), AcceptingApi(sent));
  }

  /** `POST send {"to":"not-a-number","message":"hi"}` is refused before the vendor is asked. */
  method SendRejected(sent: Payload) returns (reply: Reply<SendData>)
    ensures reply == Reply(400, ErrorOnly("Invalid phone number format"), None)
  {
    PhoneFormat.PatternAccepts();
    PhoneFormat.PatternRejects();
    var body := map["to" := Some("not-a-number"), "message" := Some("hi")];
    reply := SendEndpoint.HandleSendSms(Configured, Request("POST", Some(body), NoQuery()), AcceptingApi(sent));
  }

  /** `GET deliveryReports?limit=5` with a vendor that has no results. */
  method ReportsEmpty(sent: Payload) returns (reply: Reply<seq<DeliveryRecord>>)
    ensures reply.status == 200
    ensures reply.body == EnvelopeBody(Envelope(true, None, Some([]), None, None))
    ensures reply.call == Some(GetDeliveryReportsCall(Config("key", DefaultBaseUrl), None, None, 5))
  {
    reply := DeliveryReportsEndpoint.HandleDeliveryReports(
      Configured, Request("GET", None, Query(None, None, Some(5))), AcceptingApi(sent));
  }
}
