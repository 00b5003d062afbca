/**
 The result reporter (`send` in helper.js): merges the event's correlation
 identifiers and the defaults `Data = {}` and `Reason = ''` with a partial
 result, PUTs the envelope to the event's `ResponseURL`, and classifies the
 response. A `ResponseURL` that is not a string makes `send` throw before any
 request is made. The HTTP exchange itself is abstracted into a `SendOutcome`.
 */
module Reporter {
  import opened JsValue

  /** Identifiers copied from the event into every envelope. */
  const CorrelationKeys: set<string> := {"StackId", "RequestId", "LogicalResourceId"}

  /** The fields a result record sets. */
  const ResultKeys: set<string> := {"Status", "Data", "Reason"}

  const SuccessStatus: Value := Str("SUCCESS")
  const FailedStatus: Value := Str("FAILED")

  /** The object `send` starts from before the result is assigned over it. */
  function Defaults(event: Object): Object
  {
    map[
      "StackId" := Get(event, "StackId"),
      "RequestId" := Get(event, "RequestId"),
      "LogicalResourceId" := Get(event, "LogicalResourceId"),
      "Data" := EmptyObject,
      "Reason" := Str("")
    ]
  }

  /** The body of the PUT: the defaults, overridden by the result's own fields. */
  function Envelope(event: Object, result: Object): (body: Object)
    ensures body.Keys == CorrelationKeys + {"Data", "Reason"} + result.Keys
    ensures forall k :: k in result ==> body[k] == result[k]
    ensures forall k :: k in CorrelationKeys && k !in result ==> body[k] == Get(event, k)
    ensures "Data" !in result ==> body["Data"] == EmptyObject
    ensures "Reason" !in result ==> body["Reason"] == Str("")
  {
    Assign(Defaults(event), result)
  }

  /** The correlation identifiers as read from an object. */
  function Correlation(o: Object): Object
  {
    map k | k in CorrelationKeys :: Get(o, k)
  }

  /** For a result record, the envelope has exactly the six documented fields,
      whatever else the event carries. */
  lemma EnvelopeShape(event: Object, result: Object)
    requires result.Keys <= ResultKeys
    requires "Status" in result
    ensures Envelope(event, result).Keys == CorrelationKeys + ResultKeys
    ensures forall k :: k in event && k !in CorrelationKeys + ResultKeys ==> k !in Envelope(event, result)
  {
  }

  /** The envelope gives back both of its sources: the event's correlation
      identifiers and, field for field, the result it was built from. */
  lemma EnvelopeRoundTrip(event: Object, result: Object)
    requires result.Keys <= ResultKeys
    ensures Correlation(Envelope(event, result)) == Correlation(event)
    ensures Restrict(Envelope(event, result), result.Keys) == result
  {
  }

  /** One HTTP PUT as issued: the target URL, taken verbatim from the event, and the body. */
  datatype Put = Put(url: string, body: Object)

  /** `url.parse` accepts only a string: for a missing or non-string
      `ResponseURL` it throws a `TypeError`, before any request exists. */
  predicate UrlParses(event: Object) {
    Get(event, "ResponseURL").Str?
  }

  /** What calling `send` does at once: it issues the PUT, or it throws
      synchronously out of `url.parse`. */
  datatype SendCall = Issued(put: Put) | Threw(error: DeliveryError)

  function Send(event: Object, result: Object): (c: SendCall)
    ensures c.Issued? <==> UrlParses(event)
    ensures c.Issued? ==> Str(c.put.url) == Get(event, "ResponseURL") && c.put.body == Envelope(event, result)
    ensures c.Threw? ==> c.error == UrlTypeError(Get(event, "ResponseURL"))
  {
    match Get(event, "ResponseURL")
    case Str(url) => Issued(Put(url, Envelope(event, result)))
    case other => Threw(UrlTypeError(other))
  }

  /** What the network did with a PUT: a response with a status code, or a
      request-level error (DNS failure, refused connection, unmatched URL, ...). */
  datatype SendOutcome = Response(statusCode: int) | TransportError(error: Error)

  /** Why a delivery fails: the promise rejects with the response itself or
      with the request error, or `send` throws the `TypeError` of `url.parse`
      for the given non-string URL. */
  datatype DeliveryError = BadStatus(statusCode: int) | Transport(error: Error) | UrlTypeError(url: Value)

  /** How the promise returned by `send` settles. */
  datatype Settlement = Resolved(statusCode: int) | Rejected(reason: DeliveryError)

  function Settle(o: SendOutcome): (r: Settlement)
    ensures r.Resolved? <==> o.Response? && o.statusCode < 300
    ensures r.Resolved? ==> r.statusCode == o.statusCode
    ensures o.Response? && r.Rejected? ==> r.reason == BadStatus(o.statusCode) && o.statusCode >= 300
    ensures o.TransportError? ==> r == Rejected(Transport(o.error))
  {
    match o
    case Response(code) => if code < 300 then Resolved(code) else Rejected(BadStatus(code))
    case TransportError(e) => Rejected(Transport(e))
  }
}
