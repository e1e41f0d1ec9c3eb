# SMS façade over the Infobip SDK, modelled in Dafny

The repository is a thin HTTP façade over the Infobip SMS API. Three PHP
entry points (`api/send_sms.php`, `api/preview_sms.php`,
`api/delivery_reports.php`) run a fixed ladder of guards and then call one
method of `App\SmsService` (`src/SmsService.php`), which asks the vendor SDK
once and reshapes the answer into a uniform envelope
`{success, message?, data?, error?, details?}`. The service also has two
webhook processors, `processIncomingSms` and `processDeliveryReport`, that
no entry point calls.

The model has one module per concern:

- `Common` (`common.dfy`): `Option`, the envelope, `WellFormed` (exactly one
  of `data`/`error`, chosen by `success`), the `Outcome` of a foreign call
  (returned / threw `ApiException` / threw another `Exception`), and
  `ServiceResult` (an envelope, or an exception the service let escape).
- `Utf8` (`utf8.dfy`): PHP `strlen` as the byte length of the UTF-8
  encoding, used by the preview's `characterCount`.
- `PhoneFormat` (`phone.dfy`): the destination pattern `^\+?[1-9]\d{1,14}$`
  as a character-level predicate (`PhoneMatches`), as a one-pass loop
  (`CheckPhone`), and as the concatenation its three parts describe
  (`InPatternLanguage`), with all three proved equal.
- `SmsService` (`sms_service.dfy`): the vendor's request and response
  shapes as datatypes, the SDK client and the deserialiser as records of
  total functions from request to `Outcome`, `sendSms` as a function, and
  the four `foreach` operations as methods with loops, each proved equal to
  a specification function whose contract states the reshaping.
- `Http` (`http.dfy`): the environment, the request and the reply
  `(status, body, service call)`, PHP's `?:` and `empty()` on strings,
  `handleApiError`'s envelope, and `Answers`, the status decision every
  entry point ends with.
- `SendEndpoint`, `PreviewEndpoint`, `DeliveryReportsEndpoint`: each script
  as a method with one early `return` per guard, in the script's order.
  Its postconditions state which guard wins for which input, exactly when
  the service is called and with which arguments, and how the reply follows
  from the service's result.
- `Scenarios` (`scenarios.dfy`): three requests worked through the entry
  points with a stand-in vendor.

Decisions about the source's behaviour:

- A trailing newline. PCRE's `$` without the `D` modifier also matches just
  before a final `"\n"`, so `preg_match` accepts `"+1234567890\n"`, and that
  string, newline included, is what `sendSms` receives. The model accepts
  exactly one optional trailing newline (`PatternAccepts`).
- `\d` without the `u` modifier is an ASCII digit only.
- API key. The scripts read `getenv('INFOBIP_API_KEY') ?: ''` and then test
  `empty($apiKey)`. PHP treats `"0"` as false, so a key of `"0"` is
  "not configured", like an unset or empty key (`Http.KeyConfiguredIff`).
  The base URL falls back to `https://api.infobip.com` under the same rule.
- Request body. `isset($input[k])` and `$input[k] ?? d` both treat a missing
  member, a JSON `null`, and a body that is not a JSON object as absent.
  The model's `Field` expresses this, so the `from` default and the
  required-field checks read the body the same way.
- Exceptions. `sendSms`, `previewSms` and `getDeliveryReports` catch only
  `ApiException`. Any other exception escapes to the script, which answers
  500 with `"Unexpected error: " + message`. The two webhook processors
  catch every `Exception`, so they always return an envelope.
- A `ServiceCall` in the reply records that the script constructed
  `SmsService` and called it, with those arguments. If the constructor
  itself throws, that is folded into the service's outcome.

## Model

| member | source | states |
|---|---|---|
| `SendEndpoint.HandleSendSms` | api/send_sms.php:6-83 | Guard order: missing dependencies give 500 `{success:false, error:"Dependencies not installed"}` before anything else, including OPTIONS. Then OPTIONS gives 200 with no body. Then any method but POST gives 405. Then an unset, empty or "0" key gives 500 "API key not configured", whatever the body. Then a missing or null `to`/`message` gives 400. Then a destination failing the pattern gives 400 "Invalid phone number format". The service is called exactly when every guard passes, with `from` defaulted to "InfoSMS". Its envelope is echoed with 200 iff `success`, else 500. Status is always one of 200/400/405/500, and a 400 never calls the service. |
| `PreviewEndpoint.HandlePreviewSms` | api/preview_sms.php:6-74 | Same guard order as send, with the single required field `message` giving 400 "Missing required field: message". Any present message is forwarded unvalidated. The envelope is echoed with 200 iff `success`, else 500. An escaped exception gives 500 "Unexpected error: ...". |
| `DeliveryReportsEndpoint.HandleDeliveryReports` | api/delivery_reports.php:6-60 | Dependency check, then OPTIONS, then the API key. There is no method check: every other method reaches the service. Absent `bulkId`/`messageId` pass as null and an absent `limit` as 10. The status is 200 iff `success`, else 500. The status is only ever 200 or 500. |
| `Http.KeyConfiguredIff` | api/send_sms.php:33-41 | The key counts as configured iff it is set, non-empty and not "0" (`?:` followed by `empty`). |
| `Http.AnswerStatus` | api/send_sms.php:71-83 | Once the service has been called, the status is 200 exactly when an envelope came back with `success`, otherwise 500. |
| `PhoneFormat.CheckPhone` | api/send_sms.php:58 | A one-pass scan over the characters returns true exactly when the character-level predicate `PhoneMatches` holds. |
| `PhoneFormat.PhoneMatchesIffPattern` | api/send_sms.php:58 | `PhoneMatches(s)` holds iff `s` is an optional "+", then 2 to 15 ASCII digits with a non-zero first digit, then an optional single "\n". |
| `PhoneFormat.PhoneBodyEndsInDigit` | api/send_sms.php:58 | Anything the pattern matches before `$` ends in a digit, so at most one trailing newline is tolerated. |
| `PhoneFormat.PatternAccepts` | api/send_sms.php:58 | Accepted: "+1234567890", "1234567890", "+12", 15 digits, and "+1234567890\n". |
| `PhoneFormat.PatternRejects` | api/send_sms.php:58 | Rejected: "not-a-number", "+1", "0123", 16 digits, "++12", "", two trailing newlines and a leading newline. |
| `SmsService.SendSms` | src/SmsService.php:34-68 | On a vendor response: `success`, "SMS sent successfully", the response's `bulkId`, `messages` = the messages or [] when null, `messageCount` = its length. On an `ApiException`: failure, error "Failed to send SMS: " + message, and details carrying code, body and headers unchanged. Any other exception escapes. The envelope is always well formed. |
| `SmsService.PreviewResult` | src/SmsService.php:73-99 | On a response: one entry per vendor preview, in order ([] for null). Each entry copies `charactersRemaining`, `textPreview`, `messageCount`, with `characterCount = charactersRemaining + strlen(textPreview)`. On an `ApiException`: "Failed to preview SMS: " + message, with no data. The envelope is well formed. |
| `SmsService.PreviewSms` | src/SmsService.php:80-87 | The `foreach` that appends one entry per preview returns exactly `PreviewResult` of the vendor's outcome for a preview request with that text. |
| `SmsService.CharacterCountBounds` | src/SmsService.php:84 | `characterCount - charactersRemaining` is between the text's character count and four times it, and equals the character count iff the text is ASCII. |
| `SmsService.ReportsResult` | src/SmsService.php:104-138 | On a response: one record per vendor result, in order ([] for null). `status`/`statusDescription` are the nested status's name and description; other fields are copied. On an `ApiException`: "Failed to get delivery reports: " + message, with no data. Other exceptions escape. |
| `SmsService.GetDeliveryReports` | src/SmsService.php:114-126 | The `foreach` returns exactly `ReportsResult` of the vendor's outcome for the filter (bulkId, messageId, limit). |
| `SmsService.DeliveryReportResult` | src/SmsService.php:179-210 | Always completes, since every exception is caught. Success iff the deserialiser returned. Records as in `ReportsResult`. A failure has error "Failed to process delivery report: " + message and no data. |
| `SmsService.ProcessDeliveryReport` | src/SmsService.php:186-198 | The `foreach` returns exactly `DeliveryReportResult` of the deserialiser's outcome on the raw payload. |
| `SmsService.SameReportMapping` | src/SmsService.php:186-198 | For the same vendor results, the webhook processor and the report listing produce the same envelope. |
| `SmsService.InboundResult` | src/SmsService.php:143-174 | Always completes. Success iff the deserialiser returned. One record per inbound message, in order ([] for null), with all nine fields copied. A failure has error "Failed to process incoming SMS: " + message and no data. |
| `SmsService.ProcessIncomingSms` | src/SmsService.php:150-162 | The `foreach` returns exactly `InboundResult` of the deserialiser's outcome on the raw payload. |
| `Utf8.ByteLengthBounds` | src/SmsService.php:84 | `strlen` of a UTF-8 text is between its number of characters and four times that. |
| `Utf8.ByteLengthAscii` | src/SmsService.php:84 | `strlen` equals the number of characters iff every character is ASCII. |
| `Scenarios.SendAccepted` | api/send_sms.php:47-76 | `POST {"to":"+1234567890","message":"hi"}` against a vendor answering bulk id "123" with one message gives 200, the success envelope with `messageCount` 1, and a call with sender "InfoSMS" and the default base URL. |
| `Scenarios.SendRejected` | api/send_sms.php:58-62 | `POST {"to":"not-a-number","message":"hi"}` gives 400 "Invalid phone number format" and no service call. |
| `Scenarios.ReportsEmpty` | api/delivery_reports.php:41-52 | `GET ?limit=5` against a vendor with no results gives 200 `{success:true, data:[]}` and a call with limit 5. |

## Left out

- The vendor SDK (`SmsApi`, `Configuration`, `ObjectSerializer::deserialize`) is foreign code. Each call is an input function from the request the service builds to an `Outcome`.
- The `SmsService` constructor only wires SDK objects. It appears only as the `Config` recorded in the reply's service call.
- I/O and process plumbing (`getenv`, `file_exists`, `header(...)` and CORS, `php://input`, `json_decode`/`json_encode`, `echo`, `exit`) are replaced by the `Environment` and `Request` inputs and the returned `Reply`. `api/error_handler.php` is modelled only by the `(code, {success:false, error})` reply of `handleApiError`. Its `error_reporting`/`ini_set` block is runtime configuration.
- PHP loose typing is left out. This covers the `(int)` cast of `limit`, non-string JSON values for `to`/`message`/`from`, and the `TypeError` an array value raises. That error is not an `Exception`, so no `catch` in the source handles it. Body members are strings or null, and `limit` is an optional integer.
- A null `getStatus()` in a delivery report would make `getName()` fail. The model assumes every report has a status, but its name and description may still be null.
- Nullable scalars in a preview (`charactersRemaining`, `textPreview`, `messageCount`) are modelled as present.
- Payload values (`price`, timestamps, message objects, raw response bodies and headers) are carried as an uninterpreted type with no arithmetic on them.
- Character data: the model works on Unicode scalar values and computes `strlen` as UTF-8 byte length. It does not model strings that are not valid UTF-8.
