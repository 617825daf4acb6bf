/** `RequestTelemetryConverter`: rebuilds an Application Insights request entry from the
    request log entry a Serilog event carries. */
module RequestTelemetryConverter {
  import opened Wrappers
  import opened Strings
  import opened Decimal
  import opened Telemetry

  /** The request log entry as the sink reads it back from the event: the status code as its
      raw text and the context as a string dictionary. */
  datatype RequestRecord = RequestRecord(
    requestHost: string,
    requestUri: string,
    responseStatusCode: string,
    requestDuration: Duration,
    requestTime: Timestamp,
    context: map<string, string>,
    sourceSystem: string,
    sourceName: string)

  /** An Application Insights `RequestTelemetry`. */
  datatype RequestTelemetry = RequestTelemetry(
    id: string,
    name: string,
    timestamp: Timestamp,
    duration: Duration,
    responseCode: string,
    success: bool,
    url: Option<string>,
    source: Option<string>,
    properties: map<string, string>)

  /** `DetermineRequestOutcome`: parse the raw status code and test for 2xx. Text that is not
      a decimal 32-bit integer, with optional white space around it, makes `int.Parse` throw. */
  function DetermineRequestOutcome(rawStatusCode: string): (r: Result<bool, Failure>)
    ensures r.Success? <==> ParseInt32(rawStatusCode).Some?
    ensures r.Failure? ==> r.error == UnparsableStatusCode
    ensures r.Success? ==> 1 <= |NumberText(rawStatusCode)| && AllDigits(NumberText(rawStatusCode)[1..])
    ensures r.Success? ==> (r.value <==> IsSuccessStatusCode(ParseInt32(rawStatusCode).value))
  {
    match ParseInt32(rawStatusCode)
    case None => Failure(UnparsableStatusCode)
    case Some(statusCode) => Success(statusCode >= 200 && statusCode < 300)
  }

  /** The outcome of a status code written by `int.ToString()` is whether it is 2xx. */
  lemma OutcomeOfWrittenStatusCode(statusCode: int)
    requires Decimal.IsInt32(statusCode)
    ensures DetermineRequestOutcome(IntToString(statusCode)) == Success(IsSuccessStatusCode(statusCode))
  {
    ParseIntToString(statusCode);
  }

  /** `DetermineUrl`: only HTTP requests have a URL, the host followed by the URI. Building
      the `System.Uri` is not modelled; the URL is its text. */
  function DetermineUrl(sourceSystem: string, requestHost: string, requestUri: string): (r: Option<string>)
    ensures r.Some? <==> sourceSystem == HttpSourceSystem
    ensures r.Some? ==> StartsWith(r.value, requestHost) && r.value[|requestHost|..] == requestUri
  {
    if sourceSystem != HttpSourceSystem then None else Some(requestHost + requestUri)
  }

  /** The source text of a Service Bus request. */
  function ServiceBusSource(entityName: string, namespaceEndpoint: string): string
  {
    "type:Azure Service Bus | name:" + entityName + " | endpoint:sb://" + namespaceEndpoint + ".servicebus.windows.net/"
  }

  /** `DetermineRequestSource`: only Service Bus requests have a source, built from the
      entity and endpoint entries of the context; a missing entry makes the lookup throw. */
  function DetermineRequestSource(sourceSystem: string, sourceName: string, context: map<string, string>): (r: Result<Option<string>, Failure>)
    ensures sourceSystem != ServiceBusSourceSystem ==> r == Success(None)
    ensures sourceSystem == ServiceBusSourceSystem ==>
      && (ServiceBusEntityKey !in context ==> r == Failure(MissingKey(ServiceBusEntityKey)))
      && (ServiceBusEntityKey in context && ServiceBusEndpointKey !in context ==> r == Failure(MissingKey(ServiceBusEndpointKey)))
      && (ServiceBusEntityKey in context && ServiceBusEndpointKey in context ==>
            r == Success(Some(ServiceBusSource(context[ServiceBusEntityKey], context[ServiceBusEndpointKey]))))
  {
    if sourceSystem != ServiceBusSourceSystem then Success(None)
    else if ServiceBusEntityKey !in context then Failure(MissingKey(ServiceBusEntityKey))
    else if ServiceBusEndpointKey !in context then Failure(MissingKey(ServiceBusEndpointKey))
    else Success(Some(ServiceBusSource(context[ServiceBusEntityKey], context[ServiceBusEndpointKey])))
  }

  /** The record can be converted: its status code parses and, for Service Bus, both entries
      the source needs are present. */
  predicate Convertible(record: RequestRecord)
  {
    && ParseInt32(record.responseStatusCode).Some?
    && (record.sourceSystem == ServiceBusSourceSystem ==>
          ServiceBusEntityKey in record.context && ServiceBusEndpointKey in record.context)
  }

  /** `CreateTelemetryEntry`. `requestId` is the text of the fresh `Guid` the entry is given. */
  function CreateTelemetryEntry(record: RequestRecord, requestId: GuidText): (r: Result<RequestTelemetry, Failure>)
    ensures r.Success? <==> Convertible(record)
    ensures ParseInt32(record.responseStatusCode).None? ==> r == Failure(UnparsableStatusCode)
    ensures r.Success? ==>
      && r.value.id == requestId
      && r.value.name == record.sourceName
      && r.value.timestamp == record.requestTime
      && r.value.duration == record.requestDuration
      && r.value.responseCode == record.responseStatusCode
    ensures r.Success? ==> (r.value.success <==> IsSuccessStatusCode(ParseInt32(record.responseStatusCode).value))
    ensures r.Success? ==> (r.value.url.Some? <==> record.sourceSystem == HttpSourceSystem)
    ensures r.Success? ==> (r.value.source.Some? <==> record.sourceSystem == ServiceBusSourceSystem)
    ensures r.Success? ==> !(r.value.url.Some? && r.value.source.Some?)
    ensures r.Success? ==>
      && r.value.properties.Keys == record.context.Keys
      && forall k :: k in record.context ==> r.value.properties[k] == record.context[k]
  {
    var success :- DetermineRequestOutcome(record.responseStatusCode);
    var url := DetermineUrl(record.sourceSystem, record.requestHost, record.requestUri);
    var source :- DetermineRequestSource(record.sourceSystem, record.sourceName, record.context);
    Success(RequestTelemetry(
      requestId, record.sourceName, record.requestTime, record.requestDuration, record.responseStatusCode,
      success, url, source, record.context))
  }
}
