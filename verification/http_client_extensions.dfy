/** `HttpClientExtensions.SendAndTrackDependencyAsync`: sends a request with the correlation
    headers of the current operation and logs the call as an HTTP dependency whose id is the
    Request-Id header it sent. */
module HttpClientExtensions {
  import opened Wrappers
  import opened Strings
  import opened Telemetry
  import opened LoggerExtensions

  const RequestIdHeader: string := "Request-Id"
  const TransactionIdHeader: string := "X-Transaction-ID"

  /** The hierarchical request id "|operationId.dependencyId". A null correlation or a null
      operation id interpolates as "". */
  function RequestIdValue(correlation: Option<CorrelationInfo>, newDependencyId: GuidText): (v: string)
    ensures |v| == 2 + |OperationIdText(correlation)| + |newDependencyId|
    ensures v[0] == '|' && v[|v| - |newDependencyId| - 1] == '.'
    ensures v[1..|v| - |newDependencyId| - 1] == OperationIdText(correlation)
    ensures v[|v| - |newDependencyId|..] == newDependencyId
  {
    "|" + OperationIdText(correlation) + "." + newDependencyId
  }

  /** `correlationInfo?.OperationId` as interpolated text. */
  function OperationIdText(correlation: Option<CorrelationInfo>): (t: string)
    ensures correlation.Some? && correlation.value.operationId.Some? ==> t == correlation.value.operationId.value
    ensures correlation.None? || correlation.value.operationId.None? ==> t == ""
  {
    match correlation
    case None => ""
    case Some(c) => c.operationId.GetOr("")
  }

  /** `correlationInfo?.TransactionId` as a header value; a null value is added as "". */
  function TransactionIdText(correlation: Option<CorrelationInfo>): (t: string)
    ensures correlation.Some? && correlation.value.transactionId.Some? ==> t == correlation.value.transactionId.value
    ensures correlation.None? || correlation.value.transactionId.None? ==> t == ""
  {
    match correlation
    case None => ""
    case Some(c) => c.transactionId.GetOr("")
  }

  /** The values a header holds; none when it is absent. */
  function HeaderValues(headers: map<string, seq<string>>, name: string): seq<string>
  {
    if name in headers then headers[name] else []
  }

  /** `HttpHeaders.Add(name, value)`: appends a value to the header's list. */
  function AddHeader(headers: map<string, seq<string>>, name: string, value: string): (r: map<string, seq<string>>)
    ensures r.Keys == headers.Keys + {name}
    ensures name in headers ==> r[name] == headers[name] + [value]
    ensures name !in headers ==> r[name] == [value]
    ensures forall k :: k in headers && k != name ==> r[k] == headers[k]
  {
    if name in headers then headers[name := headers[name] + [value]] else headers[name := [value]]
  }

  /** The request with the Request-Id and X-Transaction-ID values appended to its headers;
      nothing else about it changes. */
  function WithCorrelationHeaders(
    request: HttpRequestMessage, correlation: Option<CorrelationInfo>, newDependencyId: GuidText): (sent: HttpRequestMessage)
    ensures sent.httpMethod == request.httpMethod && sent.requestUri == request.requestUri
    ensures sent.headers.Keys == request.headers.Keys + {RequestIdHeader, TransactionIdHeader}
    ensures sent.headers[RequestIdHeader] == HeaderValues(request.headers, RequestIdHeader) + [RequestIdValue(correlation, newDependencyId)]
    ensures sent.headers[TransactionIdHeader] == HeaderValues(request.headers, TransactionIdHeader) + [TransactionIdText(correlation)]
    ensures forall k :: k in request.headers && k != RequestIdHeader && k != TransactionIdHeader ==>
      sent.headers[k] == request.headers[k]
  {
    var withRequestId := AddHeader(request.headers, RequestIdHeader, RequestIdValue(correlation, newDependencyId));
    request.(headers := AddHeader(withRequestId, TransactionIdHeader, TransactionIdText(correlation)))
  }

  /** What `HttpClient.SendAsync` did with a request: the request as it left the client,
      its `RequestUri` resolved against the client's `BaseAddress`, and the response; or
      the exception it threw (also when there is no URI to resolve). */
  datatype Delivery = Delivery(request: HttpRequestMessage, response: HttpResponseMessage)

  /** What one tracked call did: the request handed to the transport, what the caller gets
      (the response, or the exception that sending or logging threw) and the dependency
      entry logged, if logging was reached and succeeded. */
  datatype TrackedCall = TrackedCall(
    sent: HttpRequestMessage,
    outcome: Result<HttpResponseMessage, Failure>,
    logged: Option<DependencyLogEntry>)

  /** `SendAndTrackDependencyAsync`. The transport, the clock and the id generator are
      parameters: `send` is `SendAsync`, `measurement` is how long the call took, and
      `newDependencyId` and `freshId` are the texts of new `Guid`s. Nothing guards the send,
      so an exception from it propagates and nothing is logged; the logger reads the request
      as the transport left it. */
  function SendAndTrackDependency(
    names: ContextNames,
    request: HttpRequestMessage,
    correlation: Option<CorrelationInfo>,
    send: HttpRequestMessage -> Result<Delivery, Failure>,
    measurement: Measurement,
    newDependencyId: GuidText,
    freshId: GuidText): (r: TrackedCall)
    ensures r.sent == WithCorrelationHeaders(request, correlation, newDependencyId)
    ensures send(r.sent).Failure? ==> r.outcome == Failure(send(r.sent).error) && r.logged.None?
    ensures r.logged.Some? <==> r.outcome.Success?
    ensures send(r.sent).Success? ==>
      var d := send(r.sent).value;
      && (r.outcome.Success? <==> AcceptsHttpDependency(d.request, d.response.statusCode, measurement.elapsed))
      && (r.outcome.Success? ==> r.outcome.value == d.response)
    ensures send(r.sent).Success? && r.outcome.Failure? ==>
      var d := send(r.sent).value;
      r.outcome == Failure(LogExtendedHttpDependency(
        names, d.request, d.response.statusCode, measurement, None, Some(RequestIdValue(correlation, newDependencyId)), freshId).error)
    ensures r.logged.Some? ==>
      var d := send(r.sent).value;
      && send(r.sent).Success?
      && r.logged.value.dependencyId == RequestIdValue(correlation, newDependencyId)
      && r.logged.value.resultCode == Some(d.response.statusCode)
      && r.logged.value.dependencyName == Some(d.request.httpMethod + " " + d.request.requestUri.value.absolutePath)
      && r.logged.value.dependencyType == HttpDependencyType
      && r.logged.value.targetName == Some(d.request.requestUri.value.host)
      && (r.logged.value.isSuccessful <==> IsSuccessStatusCode(d.response.statusCode))
      && r.logged.value.startTime == measurement.startTime
      && r.logged.value.duration == measurement.elapsed
  {
    var requestId := RequestIdValue(correlation, newDependencyId);
    var sent := WithCorrelationHeaders(request, correlation, newDependencyId);
    match send(sent)
    case Failure(e) => TrackedCall(sent, Failure(e), None)
    case Success(d) =>
      assert !IsWhiteSpace(requestId[0]);
      match LogExtendedHttpDependency(names, d.request, d.response.statusCode, measurement, None, Some(requestId), freshId)
      case Failure(e) => TrackedCall(sent, Failure(e), None)
      case Success(entry) => TrackedCall(sent, Success(d.response), Some(entry))
  }

  /** The request id can be read back: the operation id and the dependency id are recovered
      from it, so two calls with different ids never share a request id. */
  lemma {:induction false} RequestIdInjective(
    c1: Option<CorrelationInfo>, id1: GuidText, c2: Option<CorrelationInfo>, id2: GuidText)
    requires RequestIdValue(c1, id1) == RequestIdValue(c2, id2)
    ensures id1 == id2 && OperationIdText(c1) == OperationIdText(c2)
  {
    var v := RequestIdValue(c1, id1);
    assert |id1| == 36 == |id2|;
    assert id1 == v[|v| - 36..] == id2;
    assert OperationIdText(c1) == v[1..|v| - 37] == OperationIdText(c2);
  }

  /** Without a correlation the request id is "|." followed by the dependency id. */
  lemma RequestIdWithoutCorrelation(newDependencyId: GuidText)
    ensures RequestIdValue(None, newDependencyId) == "|." + newDependencyId
  {
  }

  /** A header the request already held keeps its values and gets the new one at the end. */
  lemma ExistingHeaderValuesKept(headers: map<string, seq<string>>, name: string, value: string)
    requires name in headers
    ensures AddHeader(headers, name, value)[name][..|headers[name]|] == headers[name]
    ensures |AddHeader(headers, name, value)[name]| == |headers[name]| + 1
  {
  }
}
