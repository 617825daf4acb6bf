/** The logger extensions that build dependency and request entries, and the two entry
    constructors (`ExtendedDependencyLogEntry`, `ExtendedRequestLogEntry`) whose guards they
    end in. Writing the entry to the logger is the caller's business: each operation returns
    the entry it would log, or the exception its guards throw. */
module LoggerExtensions {
  import opened Wrappers
  import opened Strings
  import opened Telemetry

  const HttpDependencyType: string := "Http"
  const ServiceBusDependencyType: string := "Azure Service Bus"
  const DefaultServiceBusOperationName: string := "Process"
  /** The key the boolean request constructor writes by its literal name. */
  const TelemetryTypeKey: string := "TelemetryType"

  /** `Enum.IsDefined(typeof(HttpStatusCode), code)`: the members of `System.Net.HttpStatusCode`
      (.NET Core 3.0 and later). */
  predicate IsDefinedStatusCode(code: int)
  {
    || 100 <= code <= 103
    || 200 <= code <= 208 || code == 226
    || 300 <= code <= 308
    || 400 <= code <= 417 || 421 <= code <= 424 || code == 426 || code == 428 || code == 429
    || code == 431 || code == 451
    || 500 <= code <= 508 || code == 510 || code == 511
  }

  /** Every defined status code lies in the 100-599 range the request entry accepts. */
  lemma DefinedStatusCodeInRange(code: int)
    requires IsDefinedStatusCode(code)
    ensures 100 <= code <= 599
  {
  }

  /** `ExtendedDependencyLogEntry`. The start time is kept as a point in time; its text form
      is not modelled. */
  datatype DependencyLogEntry = DependencyLogEntry(
    dependencyType: string,
    dependencyId: string,
    dependencyName: Option<string>,
    dependencyData: Option<string>,
    targetName: Option<string>,
    resultCode: Option<int>,
    isSuccessful: bool,
    startTime: Timestamp,
    duration: Duration,
    context: Context)

  /** What every constructed dependency entry satisfies: a non-blank type and id, a
      non-negative duration, and the Dependency tag under the telemetry-type key. */
  predicate IsValidDependencyEntry(names: ContextNames, e: DependencyLogEntry)
  {
    && !IsBlank(Some(e.dependencyType))
    && !IsBlank(Some(e.dependencyId))
    && 0 <= e.duration
    && names.telemetryType in e.context
    && e.context[names.telemetryType] == TelemetryTypeValue(DependencyTelemetryType)
  }

  /** The `ExtendedDependencyLogEntry` constructor: guards on the id, the type and the
      duration (in that order), then overwrites the telemetry-type entry of the context. */
  function NewDependencyLogEntry(
    names: ContextNames,
    dependencyType: Option<string>,
    dependencyId: Option<string>,
    dependencyName: Option<string>,
    dependencyData: Option<string>,
    targetName: Option<string>,
    duration: Duration,
    startTime: Timestamp,
    resultCode: Option<int>,
    isSuccessful: bool,
    context: Context): (r: Result<DependencyLogEntry, Failure>)
    ensures r.Success? <==> !IsBlank(dependencyId) && !IsBlank(dependencyType) && 0 <= duration
    ensures IsBlank(dependencyId) ==> r == Failure(BlankDependencyId)
    ensures !IsBlank(dependencyId) && IsBlank(dependencyType) ==> r == Failure(BlankDependencyType)
    ensures !IsBlank(dependencyId) && !IsBlank(dependencyType) && duration < 0 ==> r == Failure(NegativeDuration)
    ensures r.Success? ==> IsValidDependencyEntry(names, r.value)
    ensures r.Success? ==>
      && Some(r.value.dependencyId) == dependencyId
      && Some(r.value.dependencyType) == dependencyType
      && r.value.dependencyName == dependencyName
      && r.value.dependencyData == dependencyData
      && r.value.targetName == targetName
      && r.value.resultCode == resultCode
      && r.value.isSuccessful == isSuccessful
      && r.value.startTime == startTime
      && r.value.duration == duration
    ensures r.Success? ==>
      Overwrites(context, r.value.context, names.telemetryType, TelemetryTypeValue(DependencyTelemetryType))
  {
    if IsBlank(dependencyId) then Failure(BlankDependencyId)
    else if IsBlank(dependencyType) then Failure(BlankDependencyType)
    else if duration < 0 then Failure(NegativeDuration)
    else
      Success(DependencyLogEntry(
        dependencyType.value, dependencyId.value, dependencyName, dependencyData, targetName,
        resultCode, isSuccessful, startTime, duration,
        context[names.telemetryType := TelemetryTypeValue(DependencyTelemetryType)]))
  }

  /** The guards of `LogExtendedHttpDependency` with an explicit start time and duration. */
  predicate AcceptsHttpDependency(request: HttpRequestMessage, statusCode: int, duration: Duration)
  {
    0 <= duration && request.requestUri.Some? && IsDefinedStatusCode(statusCode)
  }

  /** `LogExtendedHttpDependency` with an explicit start time and duration. A blank
      `dependencyId` is replaced by `freshId`, the text of a new `Guid`. */
  function LogExtendedHttpDependencyAt(
    names: ContextNames,
    request: HttpRequestMessage,
    statusCode: int,
    startTime: Timestamp,
    duration: Duration,
    context: Option<Context>,
    dependencyId: Option<string>,
    freshId: GuidText): (r: Result<DependencyLogEntry, Failure>)
    ensures r.Success? <==> AcceptsHttpDependency(request, statusCode, duration)
    ensures duration < 0 ==> r == Failure(NegativeDuration)
    ensures 0 <= duration && request.requestUri.None? ==> r == Failure(MissingRequestUri)
    ensures 0 <= duration && request.requestUri.Some? && !IsDefinedStatusCode(statusCode) ==>
      r == Failure(UndefinedStatusCode)
    ensures r.Success? ==> IsValidDependencyEntry(names, r.value)
    ensures r.Success? ==>
      && r.value.dependencyType == HttpDependencyType
      && r.value.dependencyName == Some(request.httpMethod + " " + request.requestUri.value.absolutePath)
      && r.value.targetName == Some(request.requestUri.value.host)
      && r.value.resultCode == Some(statusCode)
      && r.value.dependencyData.None?
      && r.value.startTime == startTime
      && r.value.duration == duration
    ensures r.Success? ==> (r.value.isSuccessful <==> IsSuccessStatusCode(statusCode))
    ensures r.Success? ==> 100 <= statusCode <= 599
    ensures r.Success? && IsBlank(dependencyId) ==> r.value.dependencyId == freshId
    ensures r.Success? && !IsBlank(dependencyId) ==> r.value.dependencyId == dependencyId.value
    ensures r.Success? ==>
      Overwrites(context.GetOr(map[]), r.value.context, names.telemetryType, TelemetryTypeValue(DependencyTelemetryType))
  {
    if duration < 0 then Failure(NegativeDuration)
    else if request.requestUri.None? then Failure(MissingRequestUri)
    else if !IsDefinedStatusCode(statusCode) then Failure(UndefinedStatusCode)
    else
      var uri := request.requestUri.value;
      GuidNotBlank(freshId);
      assert !IsWhiteSpace(HttpDependencyType[0]);
      var id := if IsBlank(dependencyId) then freshId else dependencyId.value;
      NewDependencyLogEntry(
        names, Some(HttpDependencyType), Some(id), Some(request.httpMethod + " " + uri.absolutePath), None,
        Some(uri.host), duration, startTime, Some(statusCode), 200 <= statusCode && statusCode < 300,
        context.GetOr(map[]))
  }

  /** `LogExtendedHttpDependency` with a measurement: it checks the status code first, then
      hands the measurement's start and elapsed time to the overload above. */
  function LogExtendedHttpDependency(
    names: ContextNames,
    request: HttpRequestMessage,
    statusCode: int,
    measurement: Measurement,
    context: Option<Context>,
    dependencyId: Option<string>,
    freshId: GuidText): (r: Result<DependencyLogEntry, Failure>)
    ensures r.Success? <==> AcceptsHttpDependency(request, statusCode, measurement.elapsed)
    ensures !IsDefinedStatusCode(statusCode) ==> r == Failure(UndefinedStatusCode)
    ensures IsDefinedStatusCode(statusCode) ==>
      r == LogExtendedHttpDependencyAt(names, request, statusCode, measurement.startTime, measurement.elapsed, context, dependencyId, freshId)
  {
    if !IsDefinedStatusCode(statusCode) then Failure(UndefinedStatusCode)
    else LogExtendedHttpDependencyAt(names, request, statusCode, measurement.startTime, measurement.elapsed, context, dependencyId, freshId)
  }

  /** The two HTTP dependency overloads build the same entry and reject the same inputs; they
      differ only in which exception a call failing two guards at once reports. */
  lemma HttpDependencyOverloadsAgree(
    names: ContextNames, request: HttpRequestMessage, statusCode: int, measurement: Measurement,
    context: Option<Context>, dependencyId: Option<string>, freshId: GuidText)
    ensures var viaMeasurement := LogExtendedHttpDependency(names, request, statusCode, measurement, context, dependencyId, freshId);
            var viaTimes := LogExtendedHttpDependencyAt(names, request, statusCode, measurement.startTime, measurement.elapsed, context, dependencyId, freshId);
            && (viaMeasurement.Success? <==> viaTimes.Success?)
            && (viaMeasurement.Success? ==> viaMeasurement == viaTimes)
  {
  }

  /** `LogExtendedServiceBusDependency`: guards on the entity name and the duration, records
      the entity type in the context, and builds an entry with no result code. The dependency
      id is passed on as given, so a blank one is rejected by the entry constructor. */
  function LogExtendedServiceBusDependency(
    names: ContextNames,
    entityName: Option<string>,
    dependencyId: Option<string>,
    isSuccessful: bool,
    startTime: Timestamp,
    duration: Duration,
    entityType: ServiceBusEntityType,
    context: Option<Context>): (r: Result<DependencyLogEntry, Failure>)
    ensures r.Success? <==> !IsBlank(entityName) && 0 <= duration && !IsBlank(dependencyId)
    ensures IsBlank(entityName) ==> r == Failure(BlankEntityName)
    ensures !IsBlank(entityName) && duration < 0 ==> r == Failure(NegativeDuration)
    ensures !IsBlank(entityName) && 0 <= duration && IsBlank(dependencyId) ==> r == Failure(BlankDependencyId)
    ensures r.Success? ==> IsValidDependencyEntry(names, r.value)
    ensures r.Success? ==>
      && r.value.dependencyType == ServiceBusDependencyType
      && r.value.resultCode.None?
      && r.value.dependencyName.None?
      && r.value.dependencyData.None?
      && r.value.targetName == entityName
      && r.value.dependencyId == dependencyId.value
      && r.value.isSuccessful == isSuccessful
      && r.value.startTime == startTime
      && r.value.duration == duration
    ensures r.Success? ==>
      r.value.context.Keys == context.GetOr(map[]).Keys + {names.serviceBusEntityType, names.telemetryType}
    ensures r.Success? && names.serviceBusEntityType != names.telemetryType ==>
      r.value.context[names.serviceBusEntityType] == EntityTypeValue(entityType)
    ensures r.Success? ==> forall k :: k in context.GetOr(map[]) && k != names.serviceBusEntityType && k != names.telemetryType ==>
      r.value.context[k] == context.GetOr(map[])[k]
  {
    if IsBlank(entityName) then Failure(BlankEntityName)
    else if duration < 0 then Failure(NegativeDuration)
    else
      assert !IsWhiteSpace(ServiceBusDependencyType[0]);
      var withEntityType := context.GetOr(map[])[names.serviceBusEntityType := EntityTypeValue(entityType)];
      NewDependencyLogEntry(
        names, Some(ServiceBusDependencyType), dependencyId, None, None, entityName, duration, startTime,
        None, isSuccessful, withEntityType)
  }

  /** `LogExtendedServiceBusQueueDependency` with a measurement: it forwards without naming an
      entity type, so the entry records the default `Unknown`. */
  function LogExtendedServiceBusQueueDependencyMeasured(
    names: ContextNames,
    queueName: Option<string>,
    isSuccessful: bool,
    measurement: Measurement,
    context: Option<Context>,
    dependencyId: Option<string>): (r: Result<DependencyLogEntry, Failure>)
    ensures r.Success? <==> !IsBlank(queueName) && 0 <= measurement.elapsed && !IsBlank(dependencyId)
    ensures r.Success? ==> names.serviceBusEntityType in r.value.context
    ensures r.Success? && names.serviceBusEntityType != names.telemetryType ==>
      r.value.context[names.serviceBusEntityType] == EntityTypeValue(Unknown)
    ensures r.Success? ==> r.value.targetName == queueName && r.value.dependencyType == ServiceBusDependencyType
    ensures r.Success? ==>
      && r.value.resultCode.None?
      && r.value.dependencyId == dependencyId.value
      && r.value.isSuccessful == isSuccessful
      && r.value.startTime == measurement.startTime
      && r.value.duration == measurement.elapsed
  {
    LogExtendedServiceBusDependency(
      names, queueName, dependencyId, isSuccessful, measurement.startTime, measurement.elapsed, Unknown, context)
  }

  /** `LogExtendedServiceBusQueueDependency` with an explicit start time and duration: its own
      guards, then the general operation with the `Queue` entity type. */
  function LogExtendedServiceBusQueueDependency(
    names: ContextNames,
    queueName: Option<string>,
    isSuccessful: bool,
    startTime: Timestamp,
    duration: Duration,
    context: Option<Context>,
    dependencyId: Option<string>): (r: Result<DependencyLogEntry, Failure>)
    ensures r.Success? <==> !IsBlank(queueName) && 0 <= duration && !IsBlank(dependencyId)
    ensures IsBlank(queueName) ==> r == Failure(BlankEntityName)
    ensures !IsBlank(queueName) && duration < 0 ==> r == Failure(NegativeDuration)
    ensures r.Success? ==> names.serviceBusEntityType in r.value.context
    ensures r.Success? && names.serviceBusEntityType != names.telemetryType ==>
      r.value.context[names.serviceBusEntityType] == EntityTypeValue(Queue)
    ensures r.Success? ==> r.value.targetName == queueName && r.value.dependencyType == ServiceBusDependencyType
    ensures r.Success? ==>
      && r.value.resultCode.None?
      && r.value.dependencyId == dependencyId.value
      && r.value.isSuccessful == isSuccessful
      && r.value.startTime == startTime
      && r.value.duration == duration
    ensures !IsBlank(queueName) && 0 <= duration && IsBlank(dependencyId) ==> r == Failure(BlankDependencyId)
  {
    if IsBlank(queueName) then Failure(BlankEntityName)
    else if duration < 0 then Failure(NegativeDuration)
    else LogExtendedServiceBusDependency(names, queueName, dependencyId, isSuccessful, startTime, duration, Queue, context)
  }

  /** The two queue overloads accept the same inputs and build the same entry, except that
      the measured one records the entity type `Unknown` where the other records `Queue`. */
  lemma QueueOverloadsDifferOnlyInEntityType(
    names: ContextNames, queueName: Option<string>, isSuccessful: bool, measurement: Measurement,
    context: Option<Context>, dependencyId: Option<string>)
    requires names.serviceBusEntityType != names.telemetryType
    ensures var measured := LogExtendedServiceBusQueueDependencyMeasured(names, queueName, isSuccessful, measurement, context, dependencyId);
            var explicit := LogExtendedServiceBusQueueDependency(names, queueName, isSuccessful, measurement.startTime, measurement.elapsed, context, dependencyId);
            && (measured.Success? <==> explicit.Success?)
            && (measured.Success? ==>
                  explicit.value == measured.value.(context := measured.value.context[names.serviceBusEntityType := EntityTypeValue(Queue)]))
  {
    var measured := LogExtendedServiceBusQueueDependencyMeasured(names, queueName, isSuccessful, measurement, context, dependencyId);
    var explicit := LogExtendedServiceBusQueueDependency(names, queueName, isSuccessful, measurement.startTime, measurement.elapsed, context, dependencyId);
    if measured.Success? {
      var c := context.GetOr(map[]);
      assert measured.value.context == c[names.serviceBusEntityType := EntityTypeValue(Unknown)][names.telemetryType := TelemetryTypeValue(DependencyTelemetryType)];
      assert explicit.value.context == c[names.serviceBusEntityType := EntityTypeValue(Queue)][names.telemetryType := TelemetryTypeValue(DependencyTelemetryType)];
      assert explicit.value.context == measured.value.context[names.serviceBusEntityType := EntityTypeValue(Queue)];
    }
  }

  /** `ExtendedRequestLogEntry`. */
  datatype RequestLogEntry = RequestLogEntry(
    requestMethod: string,
    requestHost: string,
    requestUri: string,
    responseStatusCode: int,
    requestDuration: Duration,
    requestTime: Timestamp,
    sourceSystem: string,
    sourceName: string,
    context: Context)

  /** The boolean `ExtendedRequestLogEntry` constructor. It has no guards; it records 200 for
      success and 500 for failure, placeholder method, host and URI, the given request time or
      else `now`, and writes the Request tag under the literal key "TelemetryType". */
  function NewRequestLogEntry(
    isSuccessful: bool,
    duration: Duration,
    sourceSystem: string,
    sourceName: string,
    context: Context,
    requestTime: Option<Timestamp>,
    now: Timestamp): (r: RequestLogEntry)
    ensures isSuccessful ==> r.responseStatusCode == 200
    ensures !isSuccessful ==> r.responseStatusCode == 500
    ensures IsSuccessStatusCode(r.responseStatusCode) <==> isSuccessful
    ensures r.requestMethod == "method" && r.requestHost == "host" && r.requestUri == "uri"
    ensures requestTime.Some? ==> r.requestTime == requestTime.value
    ensures requestTime.None? ==> r.requestTime == now
    ensures r.sourceSystem == sourceSystem && r.sourceName == sourceName && r.requestDuration == duration
    ensures Overwrites(context, r.context, TelemetryTypeKey, TelemetryTypeValue(RequestTelemetryType))
  {
    RequestLogEntry(
      "method", "host", "uri", if isSuccessful then 200 else 500, duration, requestTime.GetOr(now),
      sourceSystem, sourceName, context[TelemetryTypeKey := TelemetryTypeValue(RequestTelemetryType)])
  }

  /** The guards of the HTTP `ExtendedRequestLogEntry` constructor. */
  predicate AcceptsHttpRequestEntry(host: string, statusCode: int, duration: Duration)
  {
    !Contains(host, " ") && 100 <= statusCode <= 599 && 0 <= duration
  }

  /** The HTTP `ExtendedRequestLogEntry` constructor: guards on the host, the status code
      (100-599) and the duration, stamps the entry with `now`, names the source system "HTTP"
      and the source `method + uri`. */
  function NewHttpRequestLogEntry(
    names: ContextNames,
    httpMethod: string,
    host: string,
    uri: string,
    statusCode: int,
    duration: Duration,
    context: Context,
    now: Timestamp): (r: Result<RequestLogEntry, Failure>)
    ensures r.Success? <==> AcceptsHttpRequestEntry(host, statusCode, duration)
    ensures Contains(host, " ") ==> r == Failure(HostContainsSpace)
    ensures !Contains(host, " ") && !(100 <= statusCode <= 599) ==> r == Failure(StatusCodeOutOfRange)
    ensures !Contains(host, " ") && 100 <= statusCode <= 599 && duration < 0 ==> r == Failure(NegativeDuration)
    ensures r.Success? ==>
      && r.value.requestMethod == httpMethod
      && r.value.requestHost == host
      && r.value.requestUri == uri
      && r.value.responseStatusCode == statusCode
      && r.value.requestDuration == duration
      && r.value.requestTime == now
      && r.value.sourceSystem == HttpSourceSystem
      && r.value.sourceName == httpMethod + uri
    ensures r.Success? ==>
      Overwrites(context, r.value.context, names.telemetryType, TelemetryTypeValue(RequestTelemetryType))
  {
    if Contains(host, " ") then Failure(HostContainsSpace)
    else if statusCode < 100 || 599 < statusCode then Failure(StatusCodeOutOfRange)
    else if duration < 0 then Failure(NegativeDuration)
    else
      Success(RequestLogEntry(
        httpMethod, host, uri, statusCode, duration, now, HttpSourceSystem, httpMethod + uri,
        context[names.telemetryType := TelemetryTypeValue(RequestTelemetryType)]))
  }

  /** What `LogHttpRequest` accepts once its own 0-999 guard has been narrowed by the entry
      constructor's 100-599 guard. */
  predicate AcceptsHttpRequest(request: HttpRequestMessage, statusCode: int, duration: Duration)
  {
    && request.requestUri.Some?
    && !Contains(request.requestUri.value.scheme, " ")
    && !Contains(request.requestUri.value.host, " ")
    && 100 <= statusCode <= 599
    && 0 <= duration
  }

  /** `LogHttpRequest` for an `HttpRequestMessage` and a status code. The host it records is
      `scheme + "://" + host` and the URI is the absolute path. */
  function LogHttpRequestWithStatus(
    names: ContextNames,
    request: HttpRequestMessage,
    statusCode: int,
    duration: Duration,
    context: Option<Context>,
    now: Timestamp): (r: Result<RequestLogEntry, Failure>)
    ensures r.Success? <==> AcceptsHttpRequest(request, statusCode, duration)
    ensures request.requestUri.None? ==> r == Failure(MissingRequestUri)
    ensures request.requestUri.Some? && Contains(request.requestUri.value.scheme, " ") ==> r == Failure(SchemeContainsSpace)
    ensures request.requestUri.Some? && Contains(request.requestUri.value.host, " ") && !Contains(request.requestUri.value.scheme, " ") ==>
      r == Failure(HostContainsSpace)
    ensures request.requestUri.Some? && !Contains(request.requestUri.value.scheme, " ") && !Contains(request.requestUri.value.host, " ") ==>
      && (!(0 <= statusCode <= 999) ==> r == Failure(StatusCodeOutOfRange))
      && (0 <= statusCode <= 999 && duration < 0 ==> r == Failure(NegativeDuration))
      && (0 <= duration && !(100 <= statusCode <= 599) ==> r == Failure(StatusCodeOutOfRange))
    ensures r.Success? ==>
      && r.value.requestHost == request.requestUri.value.scheme + "://" + request.requestUri.value.host
      && r.value.requestUri == request.requestUri.value.absolutePath
      && r.value.requestMethod == request.httpMethod
      && r.value.responseStatusCode == statusCode
      && r.value.requestDuration == duration
      && r.value.sourceSystem == HttpSourceSystem
      && r.value.sourceName == request.httpMethod + request.requestUri.value.absolutePath
      && r.value.requestTime == now
    ensures r.Success? ==>
      Overwrites(context.GetOr(map[]), r.value.context, names.telemetryType, TelemetryTypeValue(RequestTelemetryType))
  {
    if request.requestUri.None? then Failure(MissingRequestUri)
    else
      var uri := request.requestUri.value;
      if Contains(uri.scheme, " ") then Failure(SchemeContainsSpace)
      else if Contains(uri.host, " ") then Failure(HostContainsSpace)
      else if statusCode < 0 || 999 < statusCode then Failure(StatusCodeOutOfRange)
      else if duration < 0 then Failure(NegativeDuration)
      else
        HostWithoutSpace(uri.scheme, uri.host);
        NewHttpRequestLogEntry(
          names, request.httpMethod, uri.scheme + "://" + uri.host, uri.absolutePath, statusCode, duration,
          context.GetOr(map[]), now)
  }

  /** `scheme + "://" + host` has a space only if the scheme or the host has one. */
  lemma HostWithoutSpace(scheme: string, host: string)
    ensures Contains(scheme + "://" + host, " ") <==> Contains(scheme, " ") || Contains(host, " ")
  {
    ContainsCharIff(scheme, ' ');
    ContainsCharIff(host, ' ');
    ContainsCharIff(scheme + "://" + host, ' ');
    assert ' ' !in "://";
    assert (' ' in scheme + "://" + host) <==> (' ' in scheme || ' ' in "://" || ' ' in host);
  }

  /** `LogHttpRequest` for an `HttpRequestMessage` and an `HttpResponseMessage`: its guards
      repeat those of the status-code overload, so it behaves exactly like that overload. */
  function LogHttpRequestWithResponse(
    names: ContextNames,
    request: HttpRequestMessage,
    response: HttpResponseMessage,
    duration: Duration,
    context: Option<Context>,
    now: Timestamp): (r: Result<RequestLogEntry, Failure>)
    ensures r == LogHttpRequestWithStatus(names, request, response.statusCode, duration, context, now)
  {
    if request.requestUri.None? then Failure(MissingRequestUri)
    else
      var uri := request.requestUri.value;
      if Contains(uri.scheme, " ") then Failure(SchemeContainsSpace)
      else if Contains(uri.host, " ") then Failure(HostContainsSpace)
      else if response.statusCode < 0 || 999 < response.statusCode then Failure(StatusCodeOutOfRange)
      else if duration < 0 then Failure(NegativeDuration)
      else LogHttpRequestWithStatus(names, request, response.statusCode, duration, context, now)
  }

  /** `LogServiceBusQueueRequest`: guards on the duration, defaults a blank operation name to
      "Process", records the entity and the namespace endpoint in the context and builds the
      entry with the boolean constructor, stamped with the given start time. */
  function LogServiceBusQueueRequest(
    namespaceEndpoint: Option<string>,
    entityName: Option<string>,
    isSuccessful: bool,
    duration: Duration,
    startTime: Timestamp,
    context: Option<Context>,
    operationName: Option<string>,
    now: Timestamp): (r: Result<RequestLogEntry, Failure>)
    ensures r.Success? <==> 0 <= duration
    ensures duration < 0 ==> r == Failure(NegativeDuration)
    ensures r.Success? ==>
      && r.value.sourceSystem == ServiceBusSourceSystem
      && r.value.requestTime == startTime
      && r.value.requestDuration == duration
      && (IsSuccessStatusCode(r.value.responseStatusCode) <==> isSuccessful)
    ensures r.Success? && IsBlank(operationName) ==> r.value.sourceName == DefaultServiceBusOperationName
    ensures r.Success? && !IsBlank(operationName) ==> r.value.sourceName == operationName.value
    ensures r.Success? ==>
      && r.value.context.Keys == context.GetOr(map[]).Keys + {ServiceBusEntityKey, ServiceBusEndpointKey, TelemetryTypeKey}
      && r.value.context[ServiceBusEntityKey] == FromNullable(entityName)
      && r.value.context[ServiceBusEndpointKey] == FromNullable(namespaceEndpoint)
      && r.value.context[TelemetryTypeKey] == TelemetryTypeValue(RequestTelemetryType)
    ensures r.Success? ==> forall k :: k in context.GetOr(map[]) && k !in {ServiceBusEntityKey, ServiceBusEndpointKey, TelemetryTypeKey} ==>
      r.value.context[k] == context.GetOr(map[])[k]
  {
    if duration < 0 then Failure(NegativeDuration)
    else
      var name := if IsBlank(operationName) then DefaultServiceBusOperationName else operationName.value;
      var withEntity := context.GetOr(map[])[ServiceBusEntityKey := FromNullable(entityName)][ServiceBusEndpointKey := FromNullable(namespaceEndpoint)];
      Success(NewRequestLogEntry(isSuccessful, duration, ServiceBusSourceSystem, name, withEntity, Some(startTime), now))
  }
}
