/**
 * `App\SmsService`: the translation layer between the HTTP entry points
 * and the Infobip SDK. Each operation asks the vendor client (or its
 * deserialiser) once and reshapes what comes back into an envelope.
 *
 * The vendor client and the deserialiser are foreign code. They appear
 * here as records of total functions from the request the service builds
 * to the outcome of the call, so the model fixes what is asked and how the
 * answer is reshaped, and nothing about what the vendor answers.
 */
module SmsService {
  import opened Common
  import Utf8

  // ---------------------------------------------------------------- vendor side

  datatype SmsDestination = SmsDestination(to: string)
  datatype SmsTextContent = SmsTextContent(text: string)
  datatype SmsMessage = SmsMessage(destinations: seq<SmsDestination>, content: SmsTextContent, sender: string)
  datatype SmsRequest = SmsRequest(messages: seq<SmsMessage>)
  datatype SmsResponse = SmsResponse(bulkId: Option<string>, messages: Option<seq<Payload>>)

  datatype SmsPreviewRequest = SmsPreviewRequest(text: string)
  datatype SmsPreview = SmsPreview(charactersRemaining: int, textPreview: string, messageCount: int)
  datatype SmsPreviewResponse = SmsPreviewResponse(previews: Option<seq<SmsPreview>>)

  /** The named arguments of `getOutboundSmsMessageDeliveryReports`. */
  datatype ReportFilter = ReportFilter(bulkId: Option<string>, messageId: Option<string>, limit: int)
  datatype SmsStatus = SmsStatus(name: Option<string>, description: Option<string>)
  datatype SmsDeliveryReport = SmsDeliveryReport(
    messageId: Option<string>,
    bulkId: Option<string>,
    to: Option<string>,
    status: SmsStatus,
    doneAt: Payload,
    sentAt: Payload,
    price: Payload,
    error: Payload)
  datatype SmsDeliveryResult = SmsDeliveryResult(results: Option<seq<SmsDeliveryReport>>)

  datatype SmsInboundMessage = SmsInboundMessage(
    messageId: Option<string>,
    from: Option<string>,
    to: Option<string>,
    text: Option<string>,
    cleanText: Option<string>,
    keyword: Option<string>,
    receivedAt: Payload,
    smsCount: Option<int>,
    price: Payload)
  datatype SmsInboundMessageResult = SmsInboundMessageResult(results: Option<seq<SmsInboundMessage>>)

  /** The three calls of `Infobip\Api\SmsApi` the service uses. */
  datatype SmsApi = SmsApi(
    sendSmsMessages: SmsRequest -> Outcome<SmsResponse>,
    previewSmsMessage: SmsPreviewRequest -> Outcome<SmsPreviewResponse>,
    getOutboundSmsMessageDeliveryReports: ReportFilter -> Outcome<SmsDeliveryResult>)

  /** `ObjectSerializer::deserialize` at the two webhook payload classes. */
  datatype ObjectSerializer = ObjectSerializer(
    inboundMessages: string -> Outcome<SmsInboundMessageResult>,
    deliveryResults: string -> Outcome<SmsDeliveryResult>)

  // ---------------------------------------------------------------- service side

  datatype SendData = SendData(bulkId: Option<string>, messageCount: int, messages: seq<Payload>)

  datatype PreviewEntry = PreviewEntry(
    charactersRemaining: int,
    textPreview: string,
    characterCount: int,
    messageCount: int)

  datatype DeliveryRecord = DeliveryRecord(
    messageId: Option<string>,
    bulkId: Option<string>,
    to: Option<string>,
    status: Option<string>,
    statusDescription: Option<string>,
    doneAt: Payload,
    sentAt: Payload,
    price: Payload,
    error: Payload)

  datatype InboundRecord = InboundRecord(
    messageId: Option<string>,
    from: Option<string>,
    to: Option<string>,
    text: Option<string>,
    cleanText: Option<string>,
    keyword: Option<string>,
    receivedAt: Payload,
    smsCount: Option<int>,
    price: Payload)

  const SendFailurePrefix := "Failed to send SMS: "
  const PreviewFailurePrefix := "Failed to preview SMS: "
  const ReportsFailurePrefix := "Failed to get delivery reports: "
  const InboundFailurePrefix := "Failed to process incoming SMS: "
  const DeliveryFailurePrefix := "Failed to process delivery report: "

  // ---------------------------------------------------------------- sendSms

  /** One message, to one destination, with text content and the sender. */
  function SendRequestFor(to: string, message: string, from: string): SmsRequest {
    SmsRequest([SmsMessage([SmsDestination(to)], SmsTextContent(message), from)])
  }

  /** `sendSms`: only an `ApiException` is caught; any other exception escapes. */
  function SendSms(api: SmsApi, to: string, message: string, from: string): (r: ServiceResult<SendData>)
    ensures var o := api.sendSmsMessages(SendRequestFor(to, message, from));
      && (r.Completed? ==> WellFormed(r.env))
      && ((r.Completed? && r.env.success) <==> o.Returned?)
      && (o.Returned? ==>
            && r.env.message == Some("SMS sent successfully")
            && r.env.data.value.bulkId == o.value.bulkId
            && r.env.data.value.messages == OrEmpty(o.value.messages)
            && r.env.data.value.messageCount == |r.env.data.value.messages|
            && r.env.details.None?)
      && (o.ThrewApi? ==>
            && r.Completed?
            && r.env.error == Some(SendFailurePrefix + o.exception.message)
            && r.env.details == Some(ErrorDetails(o.exception.code, o.exception.responseBody, o.exception.responseHeaders))
            && r.env.message.None?)
      && (o.ThrewOther? ==> r == Escaped(o.message))
  {
    match api.sendSmsMessages(SendRequestFor(to, message, from))
    case Returned(response) =>
      var messages := OrEmpty(response.messages);
      Completed(Envelope(true, Some("SMS sent successfully"),
                         Some(SendData(response.bulkId, |messages|, messages)), None, None))
    case ThrewApi(e) =>
      Completed(Envelope(false, None, None, Some(SendFailurePrefix + e.message),
                         Some(ErrorDetails(e.code, e.responseBody, e.responseHeaders))))
    case ThrewOther(m) =>
      Escaped(m)
  }

  // ---------------------------------------------------------------- previewSms

  /** How one vendor preview becomes one entry of `data`. */
  predicate PreviewOf(p: SmsPreview, e: PreviewEntry) {
    && e.charactersRemaining == p.charactersRemaining
    && e.textPreview == p.textPreview
    && e.messageCount == p.messageCount
    && e.characterCount == p.charactersRemaining + Utf8.ByteLength(p.textPreview)
  }

  function PreviewEntryOf(p: SmsPreview): PreviewEntry {
    PreviewEntry(p.charactersRemaining, p.textPreview,
                 p.charactersRemaining + Utf8.ByteLength(p.textPreview), p.messageCount)
  }

  function PreviewEntries(ps: seq<SmsPreview>): seq<PreviewEntry> {
    seq(|ps|, i requires 0 <= i < |ps| => PreviewEntryOf(ps[i]))
  }

  /** What `previewSms` returns for a given vendor outcome. */
  function PreviewResult(o: Outcome<SmsPreviewResponse>): (r: ServiceResult<seq<PreviewEntry>>)
    ensures r.Completed? ==> WellFormed(r.env) && r.env.message.None? && r.env.details.None?
    ensures o.Returned? ==>
      && r.Completed? && r.env.success
      && var ps := OrEmpty(o.value.previews);
      && |r.env.data.value| == |ps|
      && forall i :: 0 <= i < |ps| ==> PreviewOf(ps[i], r.env.data.value[i])
    ensures o.ThrewApi? ==> r.Completed? && r.env.error == Some(PreviewFailurePrefix + o.exception.message)
    ensures o.ThrewOther? ==> r == Escaped(o.message)
  {
    match o
    case Returned(response) => Completed(Succeeded(PreviewEntries(OrEmpty(response.previews))))
    case ThrewApi(e) => Completed(Failed(PreviewFailurePrefix + e.message))
    case ThrewOther(m) => Escaped(m)
  }

  /** `previewSms`, building `$previews` one entry at a time. */
  method PreviewSms(api: SmsApi, message: string) returns (r: ServiceResult<seq<PreviewEntry>>)
    ensures r == PreviewResult(api.previewSmsMessage(SmsPreviewRequest(message)))
  {
    var outcome := api.previewSmsMessage(SmsPreviewRequest(message));
    match outcome
    case ThrewApi(e) =>
      return Completed(Failed(PreviewFailurePrefix + e.message));
    case ThrewOther(m) =>
      return Escaped(m);
    case Returned(response) =>
      var source := OrEmpty(response.previews);
      var previews: seq<PreviewEntry> := [];
      for i := 0 to |source|
        invariant |previews| == i
        invariant forall k :: 0 <= k < i ==> previews[k] == PreviewEntryOf(source[k])
      {
        var p := source[i];
        previews := previews + [PreviewEntry(p.charactersRemaining, p.textPreview,
                                             p.charactersRemaining + Utf8.ByteLength(p.textPreview),
                                             p.messageCount)];
      }
      assert previews == PreviewEntries(source);
      return Completed(Succeeded(previews));
  }

  /**
   * `characterCount` exceeds `charactersRemaining` by the byte length of
   * the preview text: at least its number of characters, at most four
   * times that, and exactly that when the text is ASCII.
   */
  lemma CharacterCountBounds(p: SmsPreview, e: PreviewEntry)
    requires PreviewOf(p, e)
    ensures |e.textPreview| <= e.characterCount - e.charactersRemaining <= 4 * |e.textPreview|
    ensures (forall i :: 0 <= i < |e.textPreview| ==> Utf8.IsAscii(e.textPreview[i]))
            <==> e.characterCount == e.charactersRemaining + |e.textPreview|
  {
    Utf8.ByteLengthBounds(e.textPreview);
    Utf8.ByteLengthAscii(e.textPreview);
  }

  // ---------------------------------------------------------------- delivery reports

  /** How one vendor report becomes one record: the status is flattened, the rest is copied. */
  predicate RecordOf(report: SmsDeliveryReport, record: DeliveryRecord) {
    && record.messageId == report.messageId
    && record.bulkId == report.bulkId
    && record.to == report.to
    && record.status == report.status.name
    && record.statusDescription == report.status.description
    && record.doneAt == report.doneAt
    && record.sentAt == report.sentAt
    && record.price == report.price
    && record.error == report.error
  }

  function DeliveryRecordOf(report: SmsDeliveryReport): DeliveryRecord {
    DeliveryRecord(report.messageId, report.bulkId, report.to,
                   report.status.name, report.status.description,
                   report.doneAt, report.sentAt, report.price, report.error)
  }

  function DeliveryRecords(reports: seq<SmsDeliveryReport>): seq<DeliveryRecord> {
    seq(|reports|, i requires 0 <= i < |reports| => DeliveryRecordOf(reports[i]))
  }

  /** What `getDeliveryReports` returns for a given vendor outcome. */
  function ReportsResult(o: Outcome<SmsDeliveryResult>): (r: ServiceResult<seq<DeliveryRecord>>)
    ensures r.Completed? ==> WellFormed(r.env) && r.env.message.None? && r.env.details.None?
    ensures o.Returned? ==>
      && r.Completed? && r.env.success
      && var rs := OrEmpty(o.value.results);
      && |r.env.data.value| == |rs|
      && forall i :: 0 <= i < |rs| ==> RecordOf(rs[i], r.env.data.value[i])
    ensures o.ThrewApi? ==> r.Completed? && r.env.error == Some(ReportsFailurePrefix + o.exception.message)
    ensures o.ThrewOther? ==> r == Escaped(o.message)
  {
    match o
    case Returned(result) => Completed(Succeeded(DeliveryRecords(OrEmpty(result.results))))
    case ThrewApi(e) => Completed(Failed(ReportsFailurePrefix + e.message))
    case ThrewOther(m) => Escaped(m)
  }

  /** `getDeliveryReports`, building `$results` one record at a time. */
  method GetDeliveryReports(api: SmsApi, bulkId: Option<string>, messageId: Option<string>, limit: int)
    returns (r: ServiceResult<seq<DeliveryRecord>>)
    ensures r == ReportsResult(api.getOutboundSmsMessageDeliveryReports(ReportFilter(bulkId, messageId, limit)))
  {
    var outcome := api.getOutboundSmsMessageDeliveryReports(ReportFilter(bulkId, messageId, limit));
    match outcome
    case ThrewApi(e) =>
      return Completed(Failed(ReportsFailurePrefix + e.message));
    case ThrewOther(m) =>
      return Escaped(m);
    case Returned(reports) =>
      var source := OrEmpty(reports.results);
      var results: seq<DeliveryRecord> := [];
      for i := 0 to |source|
        invariant |results| == i
        invariant forall k :: 0 <= k < i ==> results[k] == DeliveryRecordOf(source[k])
      {
        results := results + [DeliveryRecordOf(source[i])];
      }
      assert results == DeliveryRecords(source);
      return Completed(Succeeded(results));
  }

  /**
   * What `processDeliveryReport` returns for a given deserialiser outcome.
   * It catches every `Exception`, so it always completes.
   */
  function DeliveryReportResult(o: Outcome<SmsDeliveryResult>): (r: ServiceResult<seq<DeliveryRecord>>)
    ensures r.Completed? && WellFormed(r.env) && r.env.message.None? && r.env.details.None?
    ensures r.env.success <==> o.Returned?
    ensures o.Returned? ==>
      && var rs := OrEmpty(o.value.results);
      && |r.env.data.value| == |rs|
      && forall i :: 0 <= i < |rs| ==> RecordOf(rs[i], r.env.data.value[i])
    ensures !o.Returned? ==> r.env.error == Some(DeliveryFailurePrefix + o.Message())
  {
    match o
    case Returned(result) => Completed(Succeeded(DeliveryRecords(OrEmpty(result.results))))
    case _ => Completed(Failed(DeliveryFailurePrefix + o.Message()))
  }

  /** `processDeliveryReport`, building `$results` one record at a time. */
  method ProcessDeliveryReport(serializer: ObjectSerializer, rawData: string)
    returns (r: ServiceResult<seq<DeliveryRecord>>)
    ensures r == DeliveryReportResult(serializer.deliveryResults(rawData))
  {
    var outcome := serializer.deliveryResults(rawData);
    if !outcome.Returned? {
      return Completed(Failed(DeliveryFailurePrefix + outcome.Message()));
    }
    var source := OrEmpty(outcome.value.results);
    var results: seq<DeliveryRecord> := [];
    for i := 0 to |source|
      invariant |results| == i
      invariant forall k :: 0 <= k < i ==> results[k] == DeliveryRecordOf(source[k])
    {
      results := results + [DeliveryRecordOf(source[i])];
    }
    assert results == DeliveryRecords(source);
    return Completed(Succeeded(results));
  }

  /** The webhook and the report listing reshape the same vendor results identically. */
  lemma SameReportMapping(result: SmsDeliveryResult)
    ensures DeliveryReportResult(Returned(result)) == ReportsResult(Returned(result))
  {
  }

  // ---------------------------------------------------------------- incoming SMS

  /** How one inbound message becomes one record: every field is copied. */
  predicate InboundOf(m: SmsInboundMessage, record: InboundRecord) {
    && record.messageId == m.messageId
    && record.from == m.from
    && record.to == m.to
    && record.text == m.text
    && record.cleanText == m.cleanText
    && record.keyword == m.keyword
    && record.receivedAt == m.receivedAt
    && record.smsCount == m.smsCount
    && record.price == m.price
  }

  function InboundRecordOf(m: SmsInboundMessage): InboundRecord {
    InboundRecord(m.messageId, m.from, m.to, m.text, m.cleanText, m.keyword,
                  m.receivedAt, m.smsCount, m.price)
  }

  function InboundRecords(ms: seq<SmsInboundMessage>): seq<InboundRecord> {
    seq(|ms|, i requires 0 <= i < |ms| => InboundRecordOf(ms[i]))
  }

  /**
   * What `processIncomingSms` returns for a given deserialiser outcome.
   * It catches every `Exception`, so it always completes.
   */
  function InboundResult(o: Outcome<SmsInboundMessageResult>): (r: ServiceResult<seq<InboundRecord>>)
    ensures r.Completed? && WellFormed(r.env) && r.env.message.None? && r.env.details.None?
    ensures r.env.success <==> o.Returned?
    ensures o.Returned? ==>
      && var ms := OrEmpty(o.value.results);
      && |r.env.data.value| == |ms|
      && forall i :: 0 <= i < |ms| ==> InboundOf(ms[i], r.env.data.value[i])
    ensures !o.Returned? ==> r.env.error == Some(InboundFailurePrefix + o.Message())
  {
    match o
    case Returned(result) => Completed(Succeeded(InboundRecords(OrEmpty(result.results))))
    case _ => Completed(Failed(InboundFailurePrefix + o.Message()))
  }

  /** `processIncomingSms`, building `$results` one record at a time. */
  method ProcessIncomingSms(serializer: ObjectSerializer, rawData: string)
    returns (r: ServiceResult<seq<InboundRecord>>)
    ensures r == InboundResult(serializer.inboundMessages(rawData))
  {
    var outcome := serializer.inboundMessages(rawData);
    if !outcome.Returned? {
      return Completed(Failed(InboundFailurePrefix + outcome.Message()));
    }
    var source := OrEmpty(outcome.value.results);
    var results: seq<InboundRecord> := [];
    for i := 0 to |source|
      invariant |results| == i
      invariant forall k :: 0 <= k < i ==> results[k] == InboundRecordOf(source[k])
    {
      var m := source[i];
      results := results + [InboundRecord(m.messageId, m.from, m.to, m.text, m.cleanText,
                                          m.keyword, m.receivedAt, m.smsCount, m.price)];
    }
    assert results == InboundRecords(source);
    return Completed(Succeeded(results));
  }
}
