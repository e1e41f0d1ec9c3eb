/**
 * Shared values of the SMS façade: optional values, the vendor's opaque
 * payloads, the outcome of a call into foreign code, and the uniform
 * result envelope `{success, message?, data?, error?, details?}` that every
 * service operation returns.
 */
module Common {

  datatype Option<+T> = None | Some(value: T) {
    /** The value, or `default` when absent (PHP's `?? default`). */
    function GetOr(default: T): T {
      match this
      case Some(v) => v
      case None => default
    }
  }

  /**
   * A value the model carries but never inspects: timestamps, prices,
   * message objects, raw response bodies and headers.
   */
  type Payload(==)

  /** A nullable vendor list read with `?? []`. */
  function OrEmpty<T>(xs: Option<seq<T>>): seq<T> {
    xs.GetOr([])
  }

  /** The vendor's typed `ApiException`. */
  datatype ApiException = ApiException(
    message: string,
    code: int,
    responseBody: Payload,
    responseHeaders: Payload)

  /**
   * What a call into the vendor SDK (or its deserialiser) does: return a
   * value, throw the typed `ApiException`, or throw any other `Exception`.
   */
  datatype Outcome<+T> =
    | Returned(value: T)
    | ThrewApi(exception: ApiException)
    | ThrewOther(message: string)
  {
    /** `$e->getMessage()` of whichever exception was thrown. */
    function Message(): string
      requires !Returned?
    {
      if ThrewApi? then exception.message else message
    }
  }

  /** The `details` member of the send-failure envelope. */
  datatype ErrorDetails = ErrorDetails(code: int, responseBody: Payload, responseHeaders: Payload)

  /** The service's result array; an absent key is `None`. */
  datatype Envelope<+D> = Envelope(
    success: bool,
    message: Option<string>,
    data: Option<D>,
    error: Option<string>,
    details: Option<ErrorDetails>)

  /** Exactly one of `data` and `error` is present, chosen by `success`. */
  predicate WellFormed<D>(e: Envelope<D>) {
    && e.data.Some? == e.success
    && e.error.Some? == !e.success
  }

  /** `['success' => true, 'data' => $data]` */
  function Succeeded<D>(data: D): Envelope<D> {
    Envelope(true, None, Some(data), None, None)
  }

  /** `['success' => false, 'error' => $error]` */
  function Failed<D>(error: string): Envelope<D> {
    Envelope(false, None, None, Some(error), None)
  }

  /**
   * What a service method gives back to its caller: an envelope, or an
   * exception it did not catch, which propagates with its message.
   */
  datatype ServiceResult<+D> = Completed(env: Envelope<D>) | Escaped(message: string)
}
