/** `CustomApplicationInsightsTelemetryConverter`: which converter a Serilog event is handed
    to, and how the converter is created from optional sink options. The converters' own
    output belongs to libraries outside this model. */
module TelemetryConverter {
  import opened Wrappers
  import opened Strings

  /** A Serilog `LogEvent` as the sink sees it: the exception it carries, if any, its message
      template text, and its properties (`None` is a scalar null). */
  datatype LogEvent = LogEvent(
    exception: Option<string>,
    messageTemplate: string,
    properties: map<string, Option<string>>)

  /** The `MessagePrefixes` constants. They belong to a library outside this model. */
  datatype MessagePrefixes = MessagePrefixes(
    requestViaHttp: string,
    dependency: string,
    dependencyViaHttp: string,
    dependencyViaSql: string,
    event: string,
    metric: string)

  /** The converter an event is handed to. */
  datatype Converter =
    | ExceptionConverter
    | RequestConverter
    | CustomDependencyConverter
    | HttpDependencyConverter
    | SqlDependencyConverter
    | EventConverter
    | MetricConverter
    | TraceConverter

  /** `Convert`'s first-match dispatch: an exception wins, then the message prefixes in
      declaration order, then the trace converter. */
  function Route(prefixes: MessagePrefixes, e: LogEvent): (c: Converter)
    ensures c == ExceptionConverter <==> e.exception.Some?
    ensures c == TraceConverter <==>
      && e.exception.None?
      && !StartsWith(e.messageTemplate, prefixes.requestViaHttp)
      && !StartsWith(e.messageTemplate, prefixes.dependency)
      && !StartsWith(e.messageTemplate, prefixes.dependencyViaHttp)
      && !StartsWith(e.messageTemplate, prefixes.dependencyViaSql)
      && !StartsWith(e.messageTemplate, prefixes.event)
      && !StartsWith(e.messageTemplate, prefixes.metric)
  {
    var text := e.messageTemplate;
    if e.exception.Some? then ExceptionConverter
    else if StartsWith(text, prefixes.requestViaHttp) then RequestConverter
    else if StartsWith(text, prefixes.dependency) then CustomDependencyConverter
    else if StartsWith(text, prefixes.dependencyViaHttp) then HttpDependencyConverter
    else if StartsWith(text, prefixes.dependencyViaSql) then SqlDependencyConverter
    else if StartsWith(text, prefixes.event) then EventConverter
    else if StartsWith(text, prefixes.metric) then MetricConverter
    else TraceConverter
  }

  /** The prefix rules as an ordered table, the reference the dispatch is checked against. */
  function Rules(prefixes: MessagePrefixes): seq<(string, Converter)>
  {
    [ (prefixes.requestViaHttp, RequestConverter),
      (prefixes.dependency, CustomDependencyConverter),
      (prefixes.dependencyViaHttp, HttpDependencyConverter),
      (prefixes.dependencyViaSql, SqlDependencyConverter),
      (prefixes.event, EventConverter),
      (prefixes.metric, MetricConverter) ]
  }

  /** The converter of the first rule whose prefix starts `text`, or the trace converter. */
  function FirstMatch(rules: seq<(string, Converter)>, text: string): (c: Converter)
    ensures c == TraceConverter || exists k :: 0 <= k < |rules| && rules[k].1 == c
    decreases |rules|
  {
    if |rules| == 0 then TraceConverter
    else if StartsWith(text, rules[0].0) then rules[0].1
    else FirstMatch(rules[1..], text)
  }

  /** `FirstMatch` picks rule `k` exactly when rule `k` matches and no earlier rule does. */
  lemma {:induction false} FirstMatchPicksEarliest(rules: seq<(string, Converter)>, text: string, k: nat)
    requires k < |rules|
    requires StartsWith(text, rules[k].0)
    requires forall j :: 0 <= j < k ==> !StartsWith(text, rules[j].0)
    ensures FirstMatch(rules, text) == rules[k].1
    decreases k
  {
    if k > 0 {
      assert !StartsWith(text, rules[0].0);
      FirstMatchPicksEarliest(rules[1..], text, k - 1);
    }
  }

  /** With no matching rule, `FirstMatch` falls through to the trace converter. */
  lemma {:induction false} FirstMatchDefault(rules: seq<(string, Converter)>, text: string)
    requires forall j :: 0 <= j < |rules| ==> !StartsWith(text, rules[j].0)
    ensures FirstMatch(rules, text) == TraceConverter
    decreases |rules|
  {
    if |rules| > 0 {
      FirstMatchDefault(rules[1..], text);
    }
  }

  /** The if-chain of `Convert` is the exception check followed by a first-match lookup in
      the ordered rule table. */
  lemma RouteIsFirstMatch(prefixes: MessagePrefixes, e: LogEvent)
    ensures e.exception.None? ==> Route(prefixes, e) == FirstMatch(Rules(prefixes), e.messageTemplate)
  {
    var rules := Rules(prefixes);
    var text := e.messageTemplate;
    assert rules[0] == (prefixes.requestViaHttp, RequestConverter);
    assert rules[1] == (prefixes.dependency, CustomDependencyConverter);
    assert rules[2] == (prefixes.dependencyViaHttp, HttpDependencyConverter);
    assert rules[3] == (prefixes.dependencyViaSql, SqlDependencyConverter);
    assert rules[4] == (prefixes.event, EventConverter);
    assert rules[5] == (prefixes.metric, MetricConverter);
    if e.exception.None? {
      if exists k :: 0 <= k < |rules| && StartsWith(text, rules[k].0) {
        var k := EarliestMatch(rules, text);
        FirstMatchPicksEarliest(rules, text, k);
      } else {
        FirstMatchDefault(rules, text);
      }
    }
  }

  /** The index of the first rule that matches, when one does. */
  lemma EarliestMatch(rules: seq<(string, Converter)>, text: string) returns (k: nat)
    requires exists k :: 0 <= k < |rules| && StartsWith(text, rules[k].0)
    ensures k < |rules| && StartsWith(text, rules[k].0)
    ensures forall j :: 0 <= j < k ==> !StartsWith(text, rules[j].0)
  {
    k := 0;
    while !StartsWith(text, rules[k].0)
      invariant k < |rules|
      invariant forall j :: 0 <= j < k ==> !StartsWith(text, rules[j].0)
      decreases |rules| - k
    {
      k := k + 1;
    }
  }

  /** An event reaches a given prefix converter exactly when it carries no exception, its
      template starts with that converter's prefix, and no earlier prefix matches. */
  lemma RouteToRule(prefixes: MessagePrefixes, e: LogEvent, k: nat)
    requires k < |Rules(prefixes)|
    ensures Route(prefixes, e) == Rules(prefixes)[k].1 <==>
      && e.exception.None?
      && StartsWith(e.messageTemplate, Rules(prefixes)[k].0)
      && forall j :: 0 <= j < k ==> !StartsWith(e.messageTemplate, Rules(prefixes)[j].0)
  {
    var rules := Rules(prefixes);
    var text := e.messageTemplate;
    RouteIsFirstMatch(prefixes, e);
    if e.exception.None? {
      if StartsWith(text, rules[k].0) && forall j :: 0 <= j < k ==> !StartsWith(text, rules[j].0) {
        FirstMatchPicksEarliest(rules, text, k);
      } else if exists i :: 0 <= i < |rules| && StartsWith(text, rules[i].0) {
        var i := EarliestMatch(rules, text);
        FirstMatchPicksEarliest(rules, text, i);
        assert i != k;
      } else {
        FirstMatchDefault(rules, text);
      }
    }
  }

  /** If the Dependency prefix is itself a prefix of the DependencyViaHttp prefix, no event
      ever reaches the HTTP dependency converter. */
  lemma HttpDependencyShadowed(prefixes: MessagePrefixes, e: LogEvent)
    requires StartsWith(prefixes.dependencyViaHttp, prefixes.dependency)
    ensures Route(prefixes, e) != HttpDependencyConverter
  {
    if StartsWith(e.messageTemplate, prefixes.dependencyViaHttp) {
      StartsWithTransitive(e.messageTemplate, prefixes.dependencyViaHttp, prefixes.dependency);
    }
  }

  /** Likewise for the DependencyViaSql prefix. */
  lemma SqlDependencyShadowed(prefixes: MessagePrefixes, e: LogEvent)
    requires StartsWith(prefixes.dependencyViaSql, prefixes.dependency)
    ensures Route(prefixes, e) != SqlDependencyConverter
  {
    if StartsWith(e.messageTemplate, prefixes.dependencyViaSql) {
      StartsWithTransitive(e.messageTemplate, prefixes.dependencyViaSql, prefixes.dependency);
    }
  }

  /** The options of the exception converter; their contents belong to a library outside
      this model and only their identity matters here. */
  datatype ExceptionOptions = ExceptionOptions(includeProperties: bool, propertyFormat: string)

  /** `ApplicationInsightsSinkOptions`, reduced to the part the converter keeps. */
  datatype SinkOptions = SinkOptions(exception: ExceptionOptions)

  /** A created converter: the only state it takes from its options is the exception part. */
  datatype ApplicationInsightsConverter = ApplicationInsightsConverter(exceptionOptions: ExceptionOptions)

  /** `Create(options)`: a null options object is replaced by `defaults`, the value of
      `new ApplicationInsightsSinkOptions()`. */
  function Create(options: Option<SinkOptions>, defaults: SinkOptions): (c: ApplicationInsightsConverter)
    ensures options.Some? ==> c.exceptionOptions == options.value.exception
    ensures options.None? ==> c.exceptionOptions == defaults.exception
  {
    ApplicationInsightsConverter(options.GetOr(defaults).exception)
  }

  /** The parameterless `Create()`, which passes fresh default options. */
  function CreateDefault(defaults: SinkOptions): (c: ApplicationInsightsConverter)
    ensures c.exceptionOptions == defaults.exception
  {
    Create(Some(defaults), defaults)
  }

  /** `Create(null)`, `Create()` and `Create(new ApplicationInsightsSinkOptions())` build the
      same converter. */
  lemma CreateNullIsDefault(defaults: SinkOptions)
    ensures Create(None, defaults) == Create(Some(defaults), defaults) == CreateDefault(defaults)
  {
  }
}
