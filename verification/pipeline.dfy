/** The path of a request entry from the logger extensions to the sink: the entry is logged,
    Serilog captures it as a structure of raw strings, and the request converter rebuilds an
    Application Insights request from that structure. */
module Pipeline {
  import opened Wrappers
  import opened Decimal
  import opened Telemetry
  import opened LoggerExtensions
  import opened RequestTelemetryConverter

  /** The context as the sink reads it back: every value turned into its raw string by
      `renderValue`, a parameter because Serilog's scalar formatting is not modelled. */
  function RenderContext(context: Context, renderValue: ContextValue -> string): (m: map<string, string>)
    ensures m.Keys == context.Keys
    ensures forall k :: k in context ==> m[k] == renderValue(context[k])
  {
    map k | k in context :: renderValue(context[k])
  }

  /** The structure the sink reads for a request entry: the status code written by
      `int.ToString()`, the other fields as they were logged. */
  function RenderRequestEntry(entry: RequestLogEntry, renderValue: ContextValue -> string): (record: RequestRecord)
    ensures record.responseStatusCode == IntToString(entry.responseStatusCode)
    ensures record.context.Keys == entry.context.Keys
    ensures record.requestHost == entry.requestHost && record.requestUri == entry.requestUri
    ensures record.sourceSystem == entry.sourceSystem && record.sourceName == entry.sourceName
    ensures record.requestTime == entry.requestTime && record.requestDuration == entry.requestDuration
  {
    RequestRecord(
      entry.requestHost, entry.requestUri, IntToString(entry.responseStatusCode), entry.requestDuration,
      entry.requestTime, RenderContext(entry.context, renderValue), entry.sourceSystem, entry.sourceName)
  }

  /** An HTTP request the logger accepts always converts: the request succeeds exactly when
      its status code is 2xx, its URL is "scheme://host" followed by the path, and it has no
      source. */
  lemma {:induction false} HttpRequestConverts(
    names: ContextNames, request: HttpRequestMessage, statusCode: int, duration: Duration,
    context: Option<Context>, now: Timestamp, requestId: GuidText, renderValue: ContextValue -> string)
    requires AcceptsHttpRequest(request, statusCode, duration)
    ensures var entry := LogHttpRequestWithStatus(names, request, statusCode, duration, context, now);
      var t := CreateTelemetryEntry(RenderRequestEntry(entry.value, renderValue), requestId);
      && t.Success?
      && (t.value.success <==> IsSuccessStatusCode(statusCode))
      && t.value.responseCode == IntToString(statusCode)
      && t.value.url == Some(request.requestUri.value.scheme + "://" + request.requestUri.value.host + request.requestUri.value.absolutePath)
      && t.value.source.None?
      && t.value.name == request.httpMethod + request.requestUri.value.absolutePath
      && t.value.duration == duration
  {
    var entry := LogHttpRequestWithStatus(names, request, statusCode, duration, context, now).value;
    var record := RenderRequestEntry(entry, renderValue);
    assert IsInt32(statusCode);
    ParseIntToString(statusCode);
    assert ParseInt32(record.responseStatusCode) == Some(statusCode);
    assert Convertible(record);
  }

  /** A Service Bus request the logger accepts always converts, even with a null entity name
      or endpoint, since the logger writes both context entries: the request succeeds
      exactly when the processing did, its source names the entity and the endpoint, and it
      has no URL. */
  lemma {:induction false} ServiceBusRequestConverts(
    namespaceEndpoint: Option<string>, entityName: Option<string>, isSuccessful: bool,
    duration: Duration, startTime: Timestamp, context: Option<Context>, operationName: Option<string>,
    now: Timestamp, requestId: GuidText, renderValue: ContextValue -> string)
    requires 0 <= duration
    ensures var entry := LogServiceBusQueueRequest(namespaceEndpoint, entityName, isSuccessful, duration, startTime, context, operationName, now);
      var t := CreateTelemetryEntry(RenderRequestEntry(entry.value, renderValue), requestId);
      && t.Success?
      && (t.value.success <==> isSuccessful)
      && t.value.url.None?
      && t.value.source == Some(ServiceBusSource(renderValue(FromNullable(entityName)), renderValue(FromNullable(namespaceEndpoint))))
      && t.value.timestamp == startTime
  {
    var entry := LogServiceBusQueueRequest(namespaceEndpoint, entityName, isSuccessful, duration, startTime, context, operationName, now).value;
    var record := RenderRequestEntry(entry, renderValue);
    assert record.context[ServiceBusEntityKey] == renderValue(FromNullable(entityName));
    assert record.context[ServiceBusEndpointKey] == renderValue(FromNullable(namespaceEndpoint));
    ServiceBusRecordConverts(record, requestId, entry.responseStatusCode);
  }

  /** A Service Bus record whose status is written decimal text and whose context holds both
      entries converts, with the source naming them and no URL. */
  lemma ServiceBusRecordConverts(record: RequestRecord, requestId: GuidText, statusCode: int)
    requires IsInt32(statusCode) && record.responseStatusCode == IntToString(statusCode)
    requires record.sourceSystem == ServiceBusSourceSystem
    requires ServiceBusEntityKey in record.context && ServiceBusEndpointKey in record.context
    ensures var t := CreateTelemetryEntry(record, requestId);
      && t.Success?
      && (t.value.success <==> IsSuccessStatusCode(statusCode))
      && t.value.url.None?
      && t.value.source == Some(ServiceBusSource(record.context[ServiceBusEntityKey], record.context[ServiceBusEndpointKey]))
      && t.value.timestamp == record.requestTime
  {
    ParseIntToString(statusCode);
    assert Convertible(record);
  }
}
