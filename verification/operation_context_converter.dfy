/** `OperationContextConverter`: copies the correlation properties of an Application
    Insights entry verbatim into its operation context and names the operation after the
    entry. */
module OperationContextConverter {
  import opened Wrappers
  import opened Telemetry

  /** The kinds whose operation is named after the entry: request, dependency, event,
      availability and metric entries. */
  predicate NamesOperation(kind: TelemetryKind)
  {
    kind.RequestKind? || kind.DependencyKind? || kind.EventKind? || kind.AvailabilityKind? || kind.MetricKind?
  }

  /** The value a property gives an operation field: the property if present, else the
      field as it was. */
  function PropertyOr(properties: map<string, string>, key: string, current: Option<string>): Option<string>
  {
    if key in properties then Some(properties[key]) else current
  }

  /** `EnrichWithCorrelationInfo`. An entry without an operation context is returned as is;
      otherwise the OperationId and OperationParentId properties, where present, become the
      operation's id and parent id, and the named kinds get the entry's name as operation name. */
  function EnrichWithCorrelationInfo(names: ContextNames, t: TelemetryItem): (r: TelemetryItem)
    ensures t.operation.None? ==> r == t
    ensures r.kind == t.kind && r.name == t.name && r.properties == t.properties
    ensures r.operation.Some? <==> t.operation.Some?
    ensures t.operation.Some? ==>
      && (names.operationId in t.properties ==> r.operation.value.id == Some(t.properties[names.operationId]))
      && (names.operationId !in t.properties ==> r.operation.value.id == t.operation.value.id)
      && (names.operationParentId in t.properties ==> r.operation.value.parentId == Some(t.properties[names.operationParentId]))
      && (names.operationParentId !in t.properties ==> r.operation.value.parentId == t.operation.value.parentId)
      && (NamesOperation(t.kind) ==> r.operation.value.name == t.name)
      && (!NamesOperation(t.kind) ==> r.operation.value.name == t.operation.value.name)
  {
    match t.operation
    case None => t
    case Some(op) =>
      var name := if NamesOperation(t.kind) then t.name else op.name;
      t.(operation := Some(OperationContext(
        PropertyOr(t.properties, names.operationId, op.id),
        PropertyOr(t.properties, names.operationParentId, op.parentId),
        name)))
  }

  /** Enriching an enriched entry changes nothing more. */
  lemma EnrichIdempotent(names: ContextNames, t: TelemetryItem)
    ensures EnrichWithCorrelationInfo(names, EnrichWithCorrelationInfo(names, t)) == EnrichWithCorrelationInfo(names, t)
  {
  }

  /** Enrichment reads only the properties: two entries that agree on kind, name and
      properties, and carry both correlation properties, get the same operation id and
      parent id whatever their operation contexts held before. */
  lemma EnrichReadsOnlyProperties(names: ContextNames, t: TelemetryItem, u: TelemetryItem)
    requires t.operation.Some? && u.operation.Some?
    requires t.kind == u.kind && t.name == u.name && t.properties == u.properties
    requires names.operationId in t.properties && names.operationParentId in t.properties
    ensures EnrichWithCorrelationInfo(names, t).operation.value.id == EnrichWithCorrelationInfo(names, u).operation.value.id
    ensures EnrichWithCorrelationInfo(names, t).operation.value.parentId == EnrichWithCorrelationInfo(names, u).operation.value.parentId
  {
  }
}
