/** `CustomMessageCorrelationInfoEnricher`: adds the ids of the message being processed to
    every log event, never replacing a property the event already has. */
module MessageCorrelationInfoEnricher {
  import opened Wrappers
  import opened Telemetry
  import opened TelemetryConverter

  const CycleIdProperty: string := "CycleId"

  /** Serilog's `LogEvent.AddPropertyIfAbsent`: add the property only when no property of
      that name exists. A null value is stored as a null scalar. */
  function AddPropertyIfAbsent(e: LogEvent, name: string, value: Option<string>): (r: LogEvent)
    ensures r.exception == e.exception && r.messageTemplate == e.messageTemplate
    ensures r.properties.Keys == e.properties.Keys + {name}
    ensures name in e.properties ==> r.properties[name] == e.properties[name]
    ensures name !in e.properties ==> r.properties[name] == value
    ensures forall k :: k in e.properties ==> r.properties[k] == e.properties[k]
  {
    if name in e.properties then e else e.(properties := e.properties[name := value])
  }

  /** `Enrich`: the operation id, transaction id, parent id and cycle id, in that order, each
      added if absent. Writing them to the console is not modelled. */
  function Enrich(names: ContextNames, info: MessageCorrelationInfo, e: LogEvent): (r: LogEvent)
    ensures r.exception == e.exception && r.messageTemplate == e.messageTemplate
    ensures r.properties.Keys ==
      e.properties.Keys + {names.operationId, names.transactionId, names.operationParentId, CycleIdProperty}
    ensures forall k :: k in e.properties ==> r.properties[k] == e.properties[k]
    ensures names.operationId !in e.properties ==> r.properties[names.operationId] == info.operationId
    ensures names.transactionId !in e.properties && names.transactionId != names.operationId ==>
      r.properties[names.transactionId] == info.transactionId
    ensures && names.operationParentId !in e.properties
            && names.operationParentId != names.operationId && names.operationParentId != names.transactionId ==>
      r.properties[names.operationParentId] == info.operationParentId
    ensures && CycleIdProperty !in e.properties
            && CycleIdProperty != names.operationId && CycleIdProperty != names.transactionId
            && CycleIdProperty != names.operationParentId ==>
      r.properties[CycleIdProperty] == info.cycleId
  {
    var withOperation := AddPropertyIfAbsent(e, names.operationId, info.operationId);
    var withTransaction := AddPropertyIfAbsent(withOperation, names.transactionId, info.transactionId);
    var withParent := AddPropertyIfAbsent(withTransaction, names.operationParentId, info.operationParentId);
    assert withParent.properties.Keys == e.properties.Keys + {names.operationId, names.transactionId, names.operationParentId};
    AddPropertyIfAbsent(withParent, CycleIdProperty, info.cycleId)
  }

  /** The four names are distinct, as the `ContextProperties` constants and "CycleId" are. */
  predicate DistinctNames(names: ContextNames)
  {
    && names.operationId != names.transactionId
    && names.operationId != names.operationParentId
    && names.operationId != CycleIdProperty
    && names.transactionId != names.operationParentId
    && names.transactionId != CycleIdProperty
    && names.operationParentId != CycleIdProperty
  }

  /** The properties the enricher contributes when the event has none of its own. */
  function CorrelationProperties(names: ContextNames, info: MessageCorrelationInfo): (m: map<string, Option<string>>)
    requires DistinctNames(names)
    ensures |m| == 4
  {
    map[names.operationId := info.operationId,
        names.transactionId := info.transactionId,
        names.operationParentId := info.operationParentId,
        CycleIdProperty := info.cycleId]
  }

  /** Reference definition: enriching is taking the correlation properties and letting every
      property the event already had take precedence. */
  lemma {:induction false} EnrichIsUnionFavouringEvent(names: ContextNames, info: MessageCorrelationInfo, e: LogEvent)
    requires DistinctNames(names)
    ensures Enrich(names, info, e).properties == CorrelationProperties(names, info) + e.properties
  {
    var r := Enrich(names, info, e).properties;
    var u := CorrelationProperties(names, info) + e.properties;
    UnionKeys(names, info, e);
    assert r.Keys == u.Keys;
    forall k | k in u
      ensures r[k] == u[k]
    {
      EnrichedValue(names, info, e, k);
      UnionValue(names, info, e, k);
    }
  }

  /** The keys of the union are the event's plus the four correlation names. */
  lemma UnionKeys(names: ContextNames, info: MessageCorrelationInfo, e: LogEvent)
    requires DistinctNames(names)
    ensures (CorrelationProperties(names, info) + e.properties).Keys ==
      e.properties.Keys + {names.operationId, names.transactionId, names.operationParentId, CycleIdProperty}
  {
    var c := CorrelationProperties(names, info);
    assert c.Keys == {names.operationId, names.transactionId, names.operationParentId, CycleIdProperty};
  }

  /** The value a key ends up with: the event's own, else the message's field of that name. */
  function ExpectedValue(names: ContextNames, info: MessageCorrelationInfo, e: LogEvent, k: string): Option<string>
  {
    if k in e.properties then e.properties[k]
    else if k == names.operationId then info.operationId
    else if k == names.transactionId then info.transactionId
    else if k == names.operationParentId then info.operationParentId
    else info.cycleId
  }

  /** Each property of the enriched event is the event's own value, else the message's. */
  lemma EnrichedValue(names: ContextNames, info: MessageCorrelationInfo, e: LogEvent, k: string)
    requires DistinctNames(names)
    requires k in e.properties || k in {names.operationId, names.transactionId, names.operationParentId, CycleIdProperty}
    ensures k in Enrich(names, info, e).properties
    ensures Enrich(names, info, e).properties[k] == ExpectedValue(names, info, e, k)
  {
  }

  /** Each entry of the union is the event's own value, else the message's. */
  lemma UnionValue(names: ContextNames, info: MessageCorrelationInfo, e: LogEvent, k: string)
    requires DistinctNames(names)
    requires k in CorrelationProperties(names, info) + e.properties
    ensures k in e.properties || k in {names.operationId, names.transactionId, names.operationParentId, CycleIdProperty}
    ensures (CorrelationProperties(names, info) + e.properties)[k] == ExpectedValue(names, info, e, k)
  {
  }

  /** Enriching twice with the same ids is enriching once. */
  lemma EnrichIdempotent(names: ContextNames, info: MessageCorrelationInfo, e: LogEvent)
    ensures Enrich(names, info, Enrich(names, info, e)) == Enrich(names, info, e)
  {
  }

  /** An event that already carries all four properties is left unchanged, whatever the
      message's ids. */
  lemma AlreadyCorrelatedUnchanged(names: ContextNames, info: MessageCorrelationInfo, e: LogEvent)
    requires names.operationId in e.properties && names.transactionId in e.properties
    requires names.operationParentId in e.properties && CycleIdProperty in e.properties
    ensures Enrich(names, info, e) == e
  {
  }
}
