# Correlation and telemetry entries of the Arcus service-to-service samples

This project models the correlation-id and telemetry-entry logic that the Arcus
service-to-service samples share. It is written in Dafny and the properties are proved.

- **Logger extensions** (`LoggerExtensions`). These build HTTP and Service Bus dependency
  entries and request entries, through the guards of the `ExtendedDependencyLogEntry` and
  `ExtendedRequestLogEntry` constructors. Each operation returns the entry it would log, or
  the exception its guards throw, as a `Result`. The error is the one from the first guard
  that fails, in the source's order.
- **Sink side.**
  - `TelemetryConverter` is the first-match dispatch of a Serilog event to one converter,
    plus the converter factory.
  - `RequestTelemetryConverter` computes a request's outcome, URL and source.
  - `OperationContextConverter` copies operation and parent ids verbatim.
  - `SuperCustomOperationContextConverter` splits a legacy `"id//parentId"` value.
- **Correlation carriers.**
  - `HttpClientExtensions` composes the outbound `Request-Id` header
    `"|" + operationId + "." + dependencyId`, which also becomes the logged dependency id.
  - `ServiceBusMessages` builds the application properties of a queue message.
  - `MessageCorrelationInfoEnricher` adds correlation properties to a log event only where
    they are absent.
- **Pipeline.** `Pipeline` connects the logger to the sink. Every request entry the logger
  accepts converts without error.

Supporting modules:
- `Strings` holds the .NET string operations the code relies on: `IsNullOrWhiteSpace`,
  ordinal `StartsWith`, `Contains`, `IndexOf` and `Split`.
- `Decimal` holds `int.Parse` and `int.ToString` on 32-bit values.
- `Telemetry` holds the shared records.
- `Wrappers` holds `Option` and `Result`.

Everything the code obtains from its surroundings is a parameter:
- fresh `Guid` texts (the `GuidText` subset type, format "D");
- the current time;
- the HTTP transport;
- JSON serialization and `Encoding.GetBytes`;
- Serilog's rendering of context values;
- the `ContextProperties` names (`ContextNames`);
- the `MessagePrefixes` constants.

A dictionary is a `map` and a null is `None`. Exceptions are `Failure` values. `HttpHeaders` is
a map from header name to the list of its values.

The `"//"` round trip holds only when the operation id does not end in '/'. When it does, the
first "//" starts one character early: "x/" + "//" + "y" is read back as ("x", "/y"). Both
facts are proved: `SplitRoundTrip` proves the round trip under that condition, and
`TrailingSlashBreaksRoundTrip` gives the counterexample. Requiring only that neither id
contains "//" is not enough.

## Model

| member | source | states |
|---|---|---|
| Strings.IndexOf | src/Arcus.Shared/Observability/Sinks/Converters/SuperCustomOperationContextConverter.cs:31 | ordinal search: the result is an occurrence of the needle at or after the start, and no earlier position holds one; `None` means no position at all holds one |
| Strings.Split | src/Arcus.Shared/Observability/Sinks/Converters/SuperCustomOperationContextConverter.cs:33-34 | `string.Split` always returns at least one piece |
| Strings.ContainsIffIndexOf | src/Arcus.Shared/Observability/Sinks/Converters/SuperCustomOperationContextConverter.cs:31 | `Contains` holds exactly when the ordinal search finds an occurrence |
| Strings.SplitCutsIffContains | src/Arcus.Shared/Observability/Sinks/Converters/SuperCustomOperationContextConverter.cs:31-34 | a split has two or more pieces exactly when the text contains the separator, so indexing piece [1] after the `Contains` test cannot fail |
| Strings.SplitPiecesHaveNoSeparator | src/Arcus.Shared/Observability/Sinks/Converters/SuperCustomOperationContextConverter.cs:33-34 | no piece of a split contains the separator |
| Strings.SplitFirstPiece | src/Arcus.Shared/Observability/Sinks/Converters/SuperCustomOperationContextConverter.cs:33 | piece [0] is the text before the first separator, or the whole text when there is none, and is always a prefix of the text |
| Strings.SplitAfterFirst | src/Arcus.Shared/Observability/Sinks/Converters/SuperCustomOperationContextConverter.cs:34 | the pieces after the first are the split of the text following the first separator |
| Strings.PrefixBeforeFirstHasNoSeparator | src/Arcus.Shared/Observability/Sinks/Converters/SuperCustomOperationContextConverter.cs:33 | the text before the first occurrence of a separator does not contain it |
| Strings.JoinSplit | src/Arcus.Shared/Observability/Sinks/Converters/SuperCustomOperationContextConverter.cs:33-34 | joining the pieces with the separator gives back the original text: splitting loses nothing |
| Strings.StartsWithTransitive | src/Arcus.Shared/Observability/Sinks/Converters/CustomApplicationInsightsTelemetryConverter.cs:61-74 | a template that starts with a longer prefix also starts with every prefix of that prefix |
| Strings.ContainsCharIff | src/Arcus.POC.Observability.Telemetry.Serilog.Sinks.ApplicationInsights/Extensions/ILoggerExtensions.cs:207-208 | `Contains(" ")` holds exactly when a space character occurs in the text |
| Decimal.NatToDigits | src/Arcus.POC.Observability.Telemetry.Serilog.Sinks.ApplicationInsights/Converters/RequestTelemetryConverter.cs:30 | the decimal text of a status code is non-empty, all digits, with no leading zero |
| Decimal.ParseInt32 | src/Arcus.POC.Observability.Telemetry.Serilog.Sinks.ApplicationInsights/Converters/RequestTelemetryConverter.cs:80 | a text parses only if, once the white space around it is removed, it is an optional sign followed by digits; the value is then a 32-bit integer. The culture-specific signs `int.Parse` also accepts are left out |
| Decimal.TrimStart | src/Arcus.POC.Observability.Telemetry.Serilog.Sinks.ApplicationInsights/Converters/RequestTelemetryConverter.cs:80 | the result is the suffix of the text left after every leading U+0009-U+000D or space character is removed, and it starts with none |
| Decimal.TrimEnd | src/Arcus.POC.Observability.Telemetry.Serilog.Sinks.ApplicationInsights/Converters/RequestTelemetryConverter.cs:80 | the result is the prefix of the text left after every trailing U+0009-U+000D or space character is removed, and it ends with none |
| Decimal.ParseSignedDigits | src/Arcus.POC.Observability.Telemetry.Serilog.Sinks.ApplicationInsights/Converters/RequestTelemetryConverter.cs:80 | a value is found only for a sign or digit followed by digits, and it lies in the 32-bit range |
| Decimal.LeadingWhiteSpaceIgnored | src/Arcus.POC.Observability.Telemetry.Serilog.Sinks.ApplicationInsights/Converters/RequestTelemetryConverter.cs:80 | white space before the number does not change what `int.Parse` returns |
| Decimal.TrailingWhiteSpaceIgnored | src/Arcus.POC.Observability.Telemetry.Serilog.Sinks.ApplicationInsights/Converters/RequestTelemetryConverter.cs:80 | white space after the number does not change what `int.Parse` returns |
| Decimal.DigitsValueOfNatToDigits | src/Arcus.POC.Observability.Telemetry.Serilog.Sinks.ApplicationInsights/Converters/RequestTelemetryConverter.cs:30 | the digits written for a number read back as that number |
| Decimal.ParseIntToString | src/Arcus.POC.Observability.Telemetry.Serilog.Sinks.ApplicationInsights/Converters/RequestTelemetryConverter.cs:78-83 | parsing the text `int.ToString()` writes for a 32-bit value gives back that value |
| Decimal.ParseSignedDigitsOfIntToString | src/Arcus.POC.Observability.Telemetry.Serilog.Sinks.ApplicationInsights/Converters/RequestTelemetryConverter.cs:78-83 | the sign and digits `int.ToString()` writes read back as the number |
| Telemetry.GuidNotBlank | src/Arcus.POC.Observability.Telemetry.Serilog.Sinks.ApplicationInsights/Extensions/ILoggerExtensions.cs:89 | a fresh Guid text is never blank, so the replacement id always passes the id guard |
| LoggerExtensions.DefinedStatusCodeInRange | src/Arcus.POC.Observability.Telemetry.Serilog.Sinks.ApplicationInsights/Extensions/ILoggerExtensions.cs:40-41 | every `HttpStatusCode` member lies in 100-599 |
| LoggerExtensions.NewDependencyLogEntry | src/Arcus.POC.Observability.Telemetry.Serilog.Sinks.ApplicationInsights/Extensions/ILoggerExtensions.cs:372-400 | succeeds exactly when id and type are non-blank and the duration is not negative; errors come in guard order (id, type, duration); fields are stored as given; the context gains the Dependency tag and keeps every other entry |
| LoggerExtensions.LogExtendedHttpDependencyAt | src/Arcus.POC.Observability.Telemetry.Serilog.Sinks.ApplicationInsights/Extensions/ILoggerExtensions.cs:67-104 | succeeds exactly when duration >= 0, a URI is present and the status is a defined code, with errors in guard order; type "Http", name = method + " " + path, target = host, result code = status; successful exactly for 2xx; a blank id is replaced by the fresh Guid, a non-blank one kept verbatim |
| LoggerExtensions.LogExtendedHttpDependency | src/Arcus.POC.Observability.Telemetry.Serilog.Sinks.ApplicationInsights/Extensions/ILoggerExtensions.cs:29-44 | rejects an undefined status code first, otherwise behaves as the explicit-time overload on the measurement's start and elapsed time |
| LoggerExtensions.HttpDependencyOverloadsAgree | src/Arcus.POC.Observability.Telemetry.Serilog.Sinks.ApplicationInsights/Extensions/ILoggerExtensions.cs:29-104 | the measurement overload and the explicit-time overload accept the same inputs and, on success, build the same entry |
| LoggerExtensions.LogExtendedServiceBusDependency | src/Arcus.POC.Observability.Telemetry.Serilog.Sinks.ApplicationInsights/Extensions/ILoggerExtensions.cs:148-176 | succeeds exactly when the entity name is non-blank, duration >= 0 and the dependency id non-blank (the last checked only by the entry constructor); type "Azure Service Bus", no result code, target = entity name; the entity type is written into the context and other entries are kept |
| LoggerExtensions.LogExtendedServiceBusQueueDependencyMeasured | src/Arcus.POC.Observability.Telemetry.Serilog.Sinks.ApplicationInsights/Extensions/ILoggerExtensions.cs:106-118 | the measurement overload forwards with the default entity type, so the entry records `Unknown`; the start time, duration, id and outcome are the measurement's and the caller's, and there is no result code |
| LoggerExtensions.LogExtendedServiceBusQueueDependency | src/Arcus.POC.Observability.Telemetry.Serilog.Sinks.ApplicationInsights/Extensions/ILoggerExtensions.cs:132-146 | the explicit overload guards the queue name and duration itself and records the entity type `Queue`; the start time, duration, id and outcome are stored as given, and there is no result code |
| LoggerExtensions.QueueOverloadsDifferOnlyInEntityType | src/Arcus.POC.Observability.Telemetry.Serilog.Sinks.ApplicationInsights/Extensions/ILoggerExtensions.cs:106-146 | the two queue overloads accept the same inputs and their entries differ only in the recorded entity type |
| LoggerExtensions.NewRequestLogEntry | src/Arcus.POC.Observability.Telemetry.Serilog.Sinks.ApplicationInsights/Extensions/ILoggerExtensions.cs:484-503 | the boolean constructor records 200 for success and 500 for failure (so the status is 2xx exactly when the request succeeded), placeholder method/host/uri, the given time or else now, and the Request tag under "TelemetryType" |
| LoggerExtensions.NewHttpRequestLogEntry | src/Arcus.POC.Observability.Telemetry.Serilog.Sinks.ApplicationInsights/Extensions/ILoggerExtensions.cs:504-527 | succeeds exactly when the host has no space, the status is in 100-599 and duration >= 0, with errors in guard order; source system "HTTP", source name = method + uri, Request tag written into the context |
| LoggerExtensions.LogHttpRequestWithStatus | src/Arcus.POC.Observability.Telemetry.Serilog.Sinks.ApplicationInsights/Extensions/ILoggerExtensions.cs:234-257 | succeeds exactly when a URI is present, neither scheme nor host has a space, the status is in 100-599 (the 0-999 guard narrowed by the constructor) and duration >= 0; errors follow the guard order of both layers; host recorded as scheme + "://" + host and uri as the absolute path; the request time is the current time |
| LoggerExtensions.HostWithoutSpace | src/Arcus.POC.Observability.Telemetry.Serilog.Sinks.ApplicationInsights/Extensions/ILoggerExtensions.cs:254 | "scheme://host" contains a space exactly when the scheme or the host does |
| LoggerExtensions.LogHttpRequestWithResponse | src/Arcus.POC.Observability.Telemetry.Serilog.Sinks.ApplicationInsights/Extensions/ILoggerExtensions.cs:196-214 | the response overload behaves exactly like the status-code overload on the response's status code, since its guards repeat the same checks |
| LoggerExtensions.LogServiceBusQueueRequest | src/Arcus.POC.Observability.Telemetry.Serilog.Sinks.ApplicationInsights/Extensions/ILoggerExtensions.cs:335-350 | succeeds exactly when duration >= 0; a blank operation name becomes "Process"; the entity and endpoint are written to the context, even when null; the entry is successful-as-2xx exactly when the processing was, with source system "Azure Service Bus" and the given start time |
| TelemetryConverter.Route | src/Arcus.Shared/Observability/Sinks/Converters/CustomApplicationInsightsTelemetryConverter.cs:49-87 | an event goes to the exception converter exactly when it carries an exception, and to the trace converter exactly when it has none and its template matches none of the six prefixes |
| TelemetryConverter.FirstMatch | src/Arcus.Shared/Observability/Sinks/Converters/CustomApplicationInsightsTelemetryConverter.cs:56-86 | the first-match lookup returns the trace converter or the converter of one of the rules |
| TelemetryConverter.FirstMatchPicksEarliest | src/Arcus.Shared/Observability/Sinks/Converters/CustomApplicationInsightsTelemetryConverter.cs:56-84 | the rule that matches with no earlier rule matching is the one chosen |
| TelemetryConverter.FirstMatchDefault | src/Arcus.Shared/Observability/Sinks/Converters/CustomApplicationInsightsTelemetryConverter.cs:86 | with no matching rule the trace converter is chosen |
| TelemetryConverter.RouteIsFirstMatch | src/Arcus.Shared/Observability/Sinks/Converters/CustomApplicationInsightsTelemetryConverter.cs:49-87 | without an exception the if-chain equals a first-match lookup in the ordered table RequestViaHttp, Dependency, DependencyViaHttp, DependencyViaSql, Event, Metric |
| TelemetryConverter.EarliestMatch | src/Arcus.Shared/Observability/Sinks/Converters/CustomApplicationInsightsTelemetryConverter.cs:56-84 | when some rule matches there is an earliest one |
| TelemetryConverter.RouteToRule | src/Arcus.Shared/Observability/Sinks/Converters/CustomApplicationInsightsTelemetryConverter.cs:56-84 | an event reaches the k-th prefix converter exactly when it has no exception, its template starts with the k-th prefix and with no earlier one |
| TelemetryConverter.HttpDependencyShadowed | src/Arcus.Shared/Observability/Sinks/Converters/CustomApplicationInsightsTelemetryConverter.cs:61-69 | if the Dependency prefix is a prefix of the DependencyViaHttp prefix, no event reaches the HTTP dependency converter |
| TelemetryConverter.SqlDependencyShadowed | src/Arcus.Shared/Observability/Sinks/Converters/CustomApplicationInsightsTelemetryConverter.cs:61-74 | if the Dependency prefix is a prefix of the DependencyViaSql prefix, no event reaches the SQL dependency converter |
| TelemetryConverter.Create | src/Arcus.Shared/Observability/Sinks/Converters/CustomApplicationInsightsTelemetryConverter.cs:101-104 | the converter keeps the exception options of the given options, or of the defaults when none are given |
| TelemetryConverter.CreateDefault | src/Arcus.Shared/Observability/Sinks/Converters/CustomApplicationInsightsTelemetryConverter.cs:92-95 | the parameterless factory keeps the default exception options |
| TelemetryConverter.CreateNullIsDefault | src/Arcus.Shared/Observability/Sinks/Converters/CustomApplicationInsightsTelemetryConverter.cs:92-104 | `Create(null)`, `Create(defaults)` and `Create()` build the same converter |
| RequestTelemetryConverter.DetermineRequestOutcome | src/Arcus.POC.Observability.Telemetry.Serilog.Sinks.ApplicationInsights/Converters/RequestTelemetryConverter.cs:78-83 | fails exactly when the status text, without the white space around it, is not a 32-bit decimal integer; otherwise the outcome is success exactly for 2xx |
| RequestTelemetryConverter.OutcomeOfWrittenStatusCode | src/Arcus.POC.Observability.Telemetry.Serilog.Sinks.ApplicationInsights/Converters/RequestTelemetryConverter.cs:78-83 | the outcome of a status code written as decimal text is whether the code is 2xx |
| RequestTelemetryConverter.DetermineUrl | src/Arcus.POC.Observability.Telemetry.Serilog.Sinks.ApplicationInsights/Converters/RequestTelemetryConverter.cs:68-76 | a URL exists exactly when the source system is "HTTP", and it is the host followed by the uri |
| RequestTelemetryConverter.DetermineRequestSource | src/Arcus.POC.Observability.Telemetry.Serilog.Sinks.ApplicationInsights/Converters/RequestTelemetryConverter.cs:56-66 | a source exists only for source system "Azure Service Bus"; it names the entity and the endpoint; a missing ServiceBus-Entity or ServiceBus-Endpoint entry is an error, the entity checked first |
| RequestTelemetryConverter.CreateTelemetryEntry | src/Arcus.POC.Observability.Telemetry.Serilog.Sinks.ApplicationInsights/Converters/RequestTelemetryConverter.cs:22-54 | conversion succeeds exactly when the status parses and a Service Bus record has both source entries; id = the fresh Guid; name, time, duration and response code carried over; success exactly for 2xx; URL only for HTTP, source only for Service Bus, never both; properties = the context |
| OperationContextConverter.EnrichWithCorrelationInfo | src/Arcus.POC.Observability.Telemetry.Serilog.Sinks.ApplicationInsights/Converters/OperationContextConverter.cs:17-60 | an entry without operation context is unchanged; the OperationId and OperationParentId properties, where present, become id and parent id verbatim, otherwise these are kept; request, dependency, event, availability and metric entries get their name as operation name, other kinds keep it; properties are untouched |
| OperationContextConverter.EnrichIdempotent | src/Arcus.POC.Observability.Telemetry.Serilog.Sinks.ApplicationInsights/Converters/OperationContextConverter.cs:24-59 | enriching twice equals enriching once |
| OperationContextConverter.EnrichReadsOnlyProperties | src/Arcus.POC.Observability.Telemetry.Serilog.Sinks.ApplicationInsights/Converters/OperationContextConverter.cs:24-32 | with both properties present, the resulting ids depend only on the properties and not on the previous operation context |
| SuperCustomOperationContextConverter.SplitOperationId | src/Arcus.Shared/Observability/Sinks/Converters/SuperCustomOperationContextConverter.cs:26-35 | a value without "//" gives (value, ""). With "//", the id is the text before the first "//" and the parent id is the first `Split` piece of the text after it. Neither id holds "//", and the value starts with id + "//" + parent |
| SuperCustomOperationContextConverter.PackedPrefix | src/Arcus.Shared/Observability/Sinks/Converters/SuperCustomOperationContextConverter.cs:33-34 | pieces [0] and [1] joined by "//" begin the value |
| SuperCustomOperationContextConverter.EnrichWithCorrelationInfo | src/Arcus.Shared/Observability/Sinks/Converters/SuperCustomOperationContextConverter.cs:17-40 | an entry without operation context or OperationId property is unchanged; otherwise id and parent id are both overwritten from the split value, the parent with "" when there is no "//"; properties and name untouched |
| SuperCustomOperationContextConverter.FirstSeparatorAfter | src/Arcus.Shared/Observability/Sinks/Converters/SuperCustomOperationContextConverter.cs:33 | in a + "//" + ..., with a free of "//" and not ending in '/', the first "//" is right after a |
| SuperCustomOperationContextConverter.PackedSplit | src/Arcus.Shared/Observability/Sinks/Converters/SuperCustomOperationContextConverter.cs:31-38 | splitting a + "//" + rest gives a and the first piece of rest |
| SuperCustomOperationContextConverter.SecondPieceBeforeNextSeparator | src/Arcus.Shared/Observability/Sinks/Converters/SuperCustomOperationContextConverter.cs:34 | the first piece of b + "//" + c is b when b is free of "//" and does not end in '/' |
| SuperCustomOperationContextConverter.SplitRoundTrip | src/Arcus.Shared/Observability/Sinks/Converters/SuperCustomOperationContextConverter.cs:31-38 | round trip: a + "//" + b splits back to (a, b) when neither holds "//" and a does not end in '/' |
| SuperCustomOperationContextConverter.LaterSegmentsDropped | src/Arcus.Shared/Observability/Sinks/Converters/SuperCustomOperationContextConverter.cs:31-35 | segments after the second "//" are dropped |
| SuperCustomOperationContextConverter.TrailingSlashBreaksRoundTrip | src/Arcus.Shared/Observability/Sinks/Converters/SuperCustomOperationContextConverter.cs:31-38 | the trailing-'/' condition is needed: "x/" + "//" + "y" splits as ("x", "/y") |
| SuperCustomOperationContextConverter.ParentPropertyIgnored | src/Arcus.Shared/Observability/Sinks/Converters/SuperCustomOperationContextConverter.cs:24-38 | once OperationId is present, an OperationParentId property has no effect on the result |
| SuperCustomOperationContextConverter.EnrichIdempotent | src/Arcus.Shared/Observability/Sinks/Converters/SuperCustomOperationContextConverter.cs:17-40 | enriching twice equals enriching once |
| ServiceBusMessages.AddProperty | src/Arcus.API.Market/Extensions/ObjectExtensions.cs:43 | `Dictionary.Add` fails exactly on a key already present; otherwise it adds the key and keeps every other entry |
| ServiceBusMessages.AddPropertyIfNotBlank | src/Arcus.API.Market/Extensions/ObjectExtensions.cs:41-50 | an optional id is added only when it is not null or white space |
| ServiceBusMessages.MessagePropertyKeys | src/Arcus.API.Market/Extensions/ObjectExtensions.cs:56-62 | the four property names are distinct |
| ServiceBusMessages.AsServiceBusMessage | src/Arcus.API.Market/Extensions/ObjectExtensions.cs:22-53 | fails exactly for a null body; body = bytes of the serialized body in the given encoding or UTF-8; correlation id = operation id verbatim; Content-Type and Message-Encoding always set; Transaction-Id and Operation-Parent-Id present exactly when non-blank, with their values verbatim |
| ServiceBusMessages.PropertyKeys | src/Arcus.API.Market/Extensions/ObjectExtensions.cs:33-50 | the key set is exactly the two fixed keys plus one per non-blank id, so no add collides |
| ServiceBusMessages.BodyIgnoresCorrelation | src/Arcus.API.Market/Extensions/ObjectExtensions.cs:26-31 | the body does not depend on the ids |
| ServiceBusMessages.IdsReadBack | src/Arcus.API.Market/Extensions/ObjectExtensions.cs:38-50 | given non-blank ids, a reader recovers all three ids from the message |
| HttpClientExtensions.RequestIdValue | src/Arcus.Shared/Extensions/HttpClientExtensions.cs:18-20 | the request id is "|", then the operation id, then ".", then the dependency id; each part can be read back by position |
| HttpClientExtensions.OperationIdText | src/Arcus.Shared/Extensions/HttpClientExtensions.cs:19-20 | a null correlation or null operation id interpolates as "" |
| HttpClientExtensions.TransactionIdText | src/Arcus.Shared/Extensions/HttpClientExtensions.cs:23 | the transaction header carries the correlation's transaction id, "" when there is none |
| HttpClientExtensions.AddHeader | src/Arcus.Shared/Extensions/HttpClientExtensions.cs:22-23 | adding a header value appends it to that header's values and leaves other headers alone |
| HttpClientExtensions.WithCorrelationHeaders | src/Arcus.Shared/Extensions/HttpClientExtensions.cs:18-23 | the Request-Id and X-Transaction-ID values are appended to the request's headers; other headers, the method and the URI are unchanged |
| HttpClientExtensions.SendAndTrackDependency | src/Arcus.Shared/Extensions/HttpClientExtensions.cs:14-31 | the request is sent with the correlation headers. An exception from the send reaches the caller and nothing is logged. Otherwise logging succeeds exactly when the logger's guards pass on the request as the transport left it, with its URI resolved. The caller then gets the transport's response, and the entry records the Request-Id value as the dependency id, the response status as result code, the resolved path in the name, the resolved host as target, success exactly for a 2xx status, and the measurement's times. When logging throws, the caller gets the logger's exception instead of the response |
| HttpClientExtensions.RequestIdInjective | src/Arcus.Shared/Extensions/HttpClientExtensions.cs:18-20 | equal request ids come from the same operation id and the same dependency id, so distinct fresh ids give distinct headers |
| HttpClientExtensions.RequestIdWithoutCorrelation | src/Arcus.Shared/Extensions/HttpClientExtensions.cs:19-20 | without correlation the request id is "|." followed by the dependency id |
| HttpClientExtensions.ExistingHeaderValuesKept | src/Arcus.Shared/Extensions/HttpClientExtensions.cs:22-23 | a header already present keeps its values and gets one more at the end |
| MessageCorrelationInfoEnricher.AddPropertyIfAbsent | src/Arcus.Workers.Orders/MessageCorrelationInfoEnricher.cs:37-45 | a property is added only when none of that name exists, even with a null value; existing ones are never overwritten |
| MessageCorrelationInfoEnricher.Enrich | src/Arcus.Workers.Orders/MessageCorrelationInfoEnricher.cs:28-35 | the four names are present afterwards; properties already on the event are unchanged; each newly added name holds its correlation field, the first of colliding names winning |
| MessageCorrelationInfoEnricher.CorrelationProperties | src/Arcus.Workers.Orders/MessageCorrelationInfoEnricher.cs:31-34 | with distinct names the enricher contributes exactly four properties |
| MessageCorrelationInfoEnricher.EnrichIsUnionFavouringEvent | src/Arcus.Workers.Orders/MessageCorrelationInfoEnricher.cs:28-45 | reference definition: the enriched properties are the correlation properties overridden by the event's own |
| MessageCorrelationInfoEnricher.EnrichedValue | src/Arcus.Workers.Orders/MessageCorrelationInfoEnricher.cs:31-34 | each enriched property is the event's own value, else the message's |
| MessageCorrelationInfoEnricher.UnionKeys | src/Arcus.Workers.Orders/MessageCorrelationInfoEnricher.cs:31-34 | the union's keys are the event's plus the four correlation names |
| MessageCorrelationInfoEnricher.UnionValue | src/Arcus.Workers.Orders/MessageCorrelationInfoEnricher.cs:31-34 | each entry of the union is the event's own value, else the message's field of that name |
| MessageCorrelationInfoEnricher.EnrichIdempotent | src/Arcus.Workers.Orders/MessageCorrelationInfoEnricher.cs:28-45 | enriching twice equals enriching once |
| MessageCorrelationInfoEnricher.AlreadyCorrelatedUnchanged | src/Arcus.Workers.Orders/MessageCorrelationInfoEnricher.cs:43-44 | an event already carrying all four properties is left unchanged whatever the ids |
| Pipeline.RenderContext | src/Arcus.POC.Observability.Telemetry.Serilog.Sinks.ApplicationInsights/Converters/RequestTelemetryConverter.cs:33 | the context read back has the same keys, each value rendered |
| Pipeline.RenderRequestEntry | src/Arcus.POC.Observability.Telemetry.Serilog.Sinks.ApplicationInsights/Converters/RequestTelemetryConverter.cs:27-35 | the record read back carries the logged fields, with the status code as its decimal text |
| Pipeline.HttpRequestConverts | src/Arcus.POC.Observability.Telemetry.Serilog.Sinks.ApplicationInsights/Converters/RequestTelemetryConverter.cs:22-54 | every HTTP request entry the logger accepts converts: success exactly for 2xx, URL = scheme + "://" + host + path, no source |
| Pipeline.ServiceBusRequestConverts | src/Arcus.POC.Observability.Telemetry.Serilog.Sinks.ApplicationInsights/Converters/RequestTelemetryConverter.cs:56-66 | every Service Bus request entry the logger accepts converts, even with null entity or endpoint: success exactly when processing succeeded, source names entity and endpoint, no URL |
| Pipeline.ServiceBusRecordConverts | src/Arcus.POC.Observability.Telemetry.Serilog.Sinks.ApplicationInsights/Converters/RequestTelemetryConverter.cs:22-66 | a Service Bus record with a decimal status text and both context entries converts: success exactly for 2xx, the source built from the two entries, no URL |

## Left out

- Null guards on the logger, request, response and measurement objects are not modelled. Every value passed in is present, and nullable strings and contexts are `Option`s.
- `request.Method is null` is not modelled. `HttpRequestMessage.Method` is never null.
- The ASP.NET `HttpRequest` overloads of `LogHttpRequest` are not modelled (ILoggerExtensions.cs lines 271-320).
- The format constants and the `logger.LogWarning` calls are not modelled. Each operation returns the entry it would log.
- Timestamps are kept as plain integers. `FormatSpecifiers.InvariantTimestampFormat` and `TimeSpan` ticks are not modelled.
- The constructors write into the caller's context dictionary rather than a copy. This aliasing is not modelled: each operation returns a new map.
- RequestTelemetryConverter.DetermineUrl, RequestTelemetryConverter.CreateTelemetryEntry, Pipeline.HttpRequestConverts: `Uri` construction and validation are not modelled. The URL is its concatenated text, so the `UriFormatException` that `new Uri` can throw (RequestTelemetryConverter.cs line 75) is not a failure of the model. "Succeeds exactly when" and "always converts" hold only for texts that constructor accepts. A request URI is a record of scheme, host and path, so it is always absolute. The exception thrown by reading `Host` of a relative URI (ILoggerExtensions.cs lines 244-251) is not modelled either.
- The converters the dispatch hands events to are not modelled. Only the choice of converter is. Their code belongs to libraries outside this model.
- TelemetryConverter.Route, TelemetryConverter.RouteIsFirstMatch, TelemetryConverter.RouteToRule, TelemetryConverter.HttpDependencyShadowed, TelemetryConverter.SqlDependencyShadowed: prefixes are compared ordinally. The source's `StartsWith(string)` is culture-sensitive. It ignores characters such as U+00AD and U+200B in the template, so it also matches templates that the ordinal comparison rejects, whatever the prefixes are.
- Decimal.ParseInt32, RequestTelemetryConverter.DetermineRequestOutcome: `int.Parse` is modelled with the invariant culture's "-" and "+" signs and the white space `NumberStyles.Integer` allows around the number. Other cultures' sign symbols are not modelled, and neither are the trailing U+0000 characters .NET also ignores.
- A null OperationId property value is not modelled in the "//" converter. The property map holds strings, so the `Contains` call there cannot see a null.
- Serialization and `Encoding.GetBytes` are not modelled: they are parameters. The message body is only the result of applying them.
- Header-name case-insensitivity and header-value validation in `HttpHeaders.Add` are not modelled. The model also assumes that a null `X-Transaction-ID` value is stored as "".
- `SendAsync` is not modelled as async or cancellable, and the `using` disposal of the measurement is not modelled. The call is one function of the transport's answer.
- `HttpClient.SendAsync` is a parameter. Its exceptions, and its resolving of the request URI against `BaseAddress`, are whatever that parameter says. The model does not describe the client's own rules for them.
- The `Console.WriteLine` in the message enricher is not modelled.
- Pipeline.RenderRequestEntry: the sink's reading of the logged entry is abstracted. The status code is assumed to be written as its decimal text, and each context value is rendered by a parameter.
- No inbound parser of the `"|op.dep"` header exists in this code base, so none is modelled. `RequestIdInjective` shows the value can be read back by position.
