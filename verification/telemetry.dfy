/** Types shared by the producers (the logger extensions, the carriers) and the sink side
    (the converters): context maps, property names, failures, fresh ids, Application Insights
    entries. */
module Telemetry {
  import opened Wrappers
  import opened Strings

  /** The source system of HTTP request entries. */
  const HttpSourceSystem: string := "HTTP"
  /** The source system of Service Bus request entries. */
  const ServiceBusSourceSystem: string := "Azure Service Bus"
  /** The context keys a Service Bus request entry carries its entity and namespace in. */
  const ServiceBusEntityKey: string := "ServiceBus-Entity"
  const ServiceBusEndpointKey: string := "ServiceBus-Endpoint"

  /** `HttpResponseMessage.IsSuccessStatusCode`: the 2xx range. */
  predicate IsSuccessStatusCode(code: int)
  {
    200 <= code <= 299
  }

  /** A `DateTimeOffset`. Its invariant text form is not modelled. */
  type Timestamp = int

  /** A `TimeSpan`, counted in ticks. */
  type Duration = int

  /** The tag each entry constructor writes under the telemetry-type key of its context. */
  datatype TelemetryType = RequestTelemetryType | DependencyTelemetryType

  /** `ServiceBusEntityType`; `Unknown` is the default of the optional parameter. */
  datatype ServiceBusEntityType = Unknown | Queue | Topic

  /** A value of a `Dictionary<string, object>` context: a string, a null, or one of the
      two enumerations the extensions store. */
  datatype ContextValue =
    | TextValue(text: string)
    | NullValue
    | TelemetryTypeValue(telemetryType: TelemetryType)
    | EntityTypeValue(entityType: ServiceBusEntityType)

  type Context = map<string, ContextValue>

  /** A nullable string stored as a context value. */
  function FromNullable(s: Option<string>): ContextValue
  {
    match s
    case Some(t) => TextValue(t)
    case None => NullValue
  }

  /** The `ContextProperties` names. They belong to a library outside this model, so every
      operation that writes or reads one takes them as a parameter. */
  datatype ContextNames = ContextNames(
    telemetryType: string,       // ContextProperties.General.TelemetryType
    serviceBusEntityType: string, // ContextProperties.DependencyTracking.ServiceBus.EntityType
    operationId: string,         // ContextProperties.Correlation.OperationId
    transactionId: string,       // ContextProperties.Correlation.TransactionId
    operationParentId: string)   // ContextProperties.Correlation.OperationParentId

  /** `after` is `before` with `key` set to `value` and every other entry kept. */
  predicate Overwrites<V(==)>(before: map<string, V>, after: map<string, V>, key: string, value: V)
  {
    && after.Keys == before.Keys + {key}
    && after[key] == value
    && forall k :: k in before && k != key ==> after[k] == before[k]
  }

  /** The exceptions the guards throw, one constructor per guarded condition. */
  datatype Failure =
    | NegativeDuration      // ArgumentOutOfRangeException: the duration is below TimeSpan.Zero
    | MissingRequestUri     // the request has no RequestUri
    | UndefinedStatusCode   // ArgumentException: not a member of HttpStatusCode
    | StatusCodeOutOfRange  // ArgumentOutOfRangeException: outside 0-999 or 100-599
    | SchemeContainsSpace   // ArgumentException
    | HostContainsSpace     // ArgumentException
    | BlankEntityName       // ArgumentException: Service Bus queue or entity name is blank
    | BlankDependencyId     // ArgumentException from the dependency entry constructor
    | BlankDependencyType   // ArgumentException from the dependency entry constructor
    | MissingKey(key: string) // KeyNotFoundException from a dictionary lookup
    | DuplicateKey(key: string) // ArgumentException from Dictionary.Add
    | UnparsableStatusCode  // FormatException or OverflowException from int.Parse
    | NullMessageBody       // ArgumentNullException
    | SendFailed            // an exception thrown by HttpClient.SendAsync

  predicate IsLowerHexDigit(c: char)
  {
    '0' <= c <= '9' || 'a' <= c <= 'f'
  }

  /** The "D" format of `Guid.ToString()`: 32 lower-case hex digits in groups 8-4-4-4-12. */
  predicate IsGuidFormat(s: string)
  {
    && |s| == 36
    && forall i :: 0 <= i < |s| ==>
         if i == 8 || i == 13 || i == 18 || i == 23 then s[i] == '-' else IsLowerHexDigit(s[i])
  }

  /** The text of a fresh `Guid.NewGuid()`; the generator itself is a parameter wherever it is used. */
  type GuidText = s: string | IsGuidFormat(s) witness "00000000-0000-0000-0000-000000000000"

  /** A fresh id is never blank, so a guard against blank ids never rejects one. */
  lemma GuidNotBlank(g: GuidText)
    ensures !IsBlank(Some(g))
  {
    assert IsLowerHexDigit(g[0]);
  }

  /** The parts of a `System.Uri` the extensions read. */
  datatype Uri = Uri(scheme: string, host: string, absolutePath: string)

  /** An `HttpRequestMessage`: its method text, its optional URI and its headers. A header
      name maps to its values in the order they were added. */
  datatype HttpRequestMessage = HttpRequestMessage(
    httpMethod: string,
    requestUri: Option<Uri>,
    headers: map<string, seq<string>>)

  /** An `HttpResponseMessage`, reduced to its status code (`(int)StatusCode`). */
  datatype HttpResponseMessage = HttpResponseMessage(statusCode: int)

  /** A `DependencyMeasurement` / `DurationMeasurement`: when it started and how long it ran. */
  datatype Measurement = Measurement(startTime: Timestamp, elapsed: Duration)

  /** `CorrelationInfo` of the current HTTP request. */
  datatype CorrelationInfo = CorrelationInfo(operationId: Option<string>, transactionId: Option<string>)

  /** `MessageCorrelationInfo` of the message being processed. */
  datatype MessageCorrelationInfo = MessageCorrelationInfo(
    operationId: Option<string>,
    transactionId: Option<string>,
    operationParentId: Option<string>,
    cycleId: Option<string>)

  /** The Application Insights entry kinds (`ITelemetry` implementations). */
  datatype TelemetryKind =
    | RequestKind | DependencyKind | EventKind | AvailabilityKind | MetricKind
    | TraceKind | ExceptionKind | PageViewKind

  /** `Context.Operation` of an Application Insights entry. */
  datatype OperationContext = OperationContext(id: Option<string>, parentId: Option<string>, name: Option<string>)

  /** An Application Insights entry as the operation-context converters see it: its kind, its
      `Name` (for the kinds that have one), its `Properties` and its operation context, which
      is `None` when the entry, its context or its operation is null. */
  datatype TelemetryItem = TelemetryItem(
    kind: TelemetryKind,
    name: Option<string>,
    properties: map<string, string>,
    operation: Option<OperationContext>)
}
