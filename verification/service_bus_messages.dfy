/** `ObjectExtensions.AsServiceBusMessage`: wraps a message body in a Service Bus message
    whose application properties carry the content type, the encoding and, when given, the
    transaction and parent operation ids. */
module ServiceBusMessages {
  import opened Wrappers
  import opened Strings
  import opened Telemetry

  /** The `PropertyNames` constants. */
  const OperationParentIdProperty: string := "Operation-Parent-Id"
  const TransactionIdProperty: string := "Transaction-Id"
  const EncodingProperty: string := "Message-Encoding"
  const ContentTypeProperty: string := "Content-Type"

  const JsonContentType: string := "application/json"

  /** A `System.Text.Encoding`, known by its web name. */
  datatype Encoding = Encoding(webName: string)

  const Utf8: Encoding := Encoding("utf-8")

  type Byte = bv8

  /** A `ServiceBusMessage`: its body, its correlation id (null when none was given) and its
      application properties. Every property this code writes is a string. */
  datatype ServiceBusMessage = ServiceBusMessage(
    body: seq<Byte>,
    correlationId: Option<string>,
    applicationProperties: map<string, string>)

  /** `Dictionary.Add`: adds a new key and throws when the key is already present. */
  function AddProperty(properties: map<string, string>, key: string, value: string): (r: Result<map<string, string>, Failure>)
    ensures r.Failure? <==> key in properties
    ensures r.Failure? ==> r.error == DuplicateKey(key)
    ensures r.Success? ==> Overwrites(properties, r.value, key, value)
  {
    if key in properties then Failure(DuplicateKey(key)) else Success(properties[key := value])
  }

  /** Add a property when its value is not null or white space, as the two optional ids are. */
  function AddPropertyIfNotBlank(properties: map<string, string>, key: string, value: Option<string>): (r: Result<map<string, string>, Failure>)
    ensures IsBlank(value) ==> r == Success(properties)
    ensures !IsBlank(value) ==> r == AddProperty(properties, key, value.value)
  {
    if IsBlank(value) then Success(properties) else AddProperty(properties, key, value.value)
  }

  /** The property keys a message may carry. */
  function MessagePropertyKeys(): (keys: set<string>)
    ensures |keys| == 4
  {
    {ContentTypeProperty, EncodingProperty, TransactionIdProperty, OperationParentIdProperty}
  }

  /** `AsServiceBusMessage`. A null body throws; the encoding defaults to UTF-8. JSON
      serialization and `Encoding.GetBytes` are parameters. The operation id becomes the
      correlation id as given; the transaction and parent ids are added only when they are
      not null or white space. */
  function AsServiceBusMessage<T>(
    messageBody: Option<T>,
    serialize: T -> string,
    getBytes: (Encoding, string) -> seq<Byte>,
    operationId: Option<string>,
    transactionId: Option<string>,
    operationParentId: Option<string>,
    encoding: Option<Encoding>): (r: Result<ServiceBusMessage, Failure>)
    ensures r.Success? <==> messageBody.Some?
    ensures messageBody.None? ==> r == Failure(NullMessageBody)
    ensures r.Success? ==>
      && r.value.body == getBytes(encoding.GetOr(Utf8), serialize(messageBody.value))
      && r.value.correlationId == operationId
    ensures r.Success? ==>
      var properties := r.value.applicationProperties;
      && properties.Keys <= MessagePropertyKeys()
      && ContentTypeProperty in properties && properties[ContentTypeProperty] == JsonContentType
      && EncodingProperty in properties && properties[EncodingProperty] == encoding.GetOr(Utf8).webName
      && (TransactionIdProperty in properties <==> !IsBlank(transactionId))
      && (TransactionIdProperty in properties ==> properties[TransactionIdProperty] == transactionId.value)
      && (OperationParentIdProperty in properties <==> !IsBlank(operationParentId))
      && (OperationParentIdProperty in properties ==> properties[OperationParentIdProperty] == operationParentId.value)
  {
    if messageBody.None? then Failure(NullMessageBody)
    else
      var enc := encoding.GetOr(Utf8);
      var rawMessage := getBytes(enc, serialize(messageBody.value));
      match AddProperty(map[ContentTypeProperty := JsonContentType], EncodingProperty, enc.webName)
      case Failure(e) => Failure(e)
      case Success(initial) =>
        match AddPropertyIfNotBlank(initial, TransactionIdProperty, transactionId)
        case Failure(e) => Failure(e)
        case Success(withTransaction) =>
          match AddPropertyIfNotBlank(withTransaction, OperationParentIdProperty, operationParentId)
          case Failure(e) => Failure(e)
          case Success(properties) => Success(ServiceBusMessage(rawMessage, operationId, properties))
  }

  /** The property keys are exactly the two fixed ones plus one for each id that is given,
      so none of the `Add` calls can collide. */
  lemma PropertyKeys<T>(
    messageBody: T, serialize: T -> string, getBytes: (Encoding, string) -> seq<Byte>,
    operationId: Option<string>, transactionId: Option<string>, operationParentId: Option<string>,
    encoding: Option<Encoding>)
    ensures var r := AsServiceBusMessage(Some(messageBody), serialize, getBytes, operationId, transactionId, operationParentId, encoding);
      r.value.applicationProperties.Keys ==
        {ContentTypeProperty, EncodingProperty}
        + (if IsBlank(transactionId) then {} else {TransactionIdProperty})
        + (if IsBlank(operationParentId) then {} else {OperationParentIdProperty})
  {
  }

  /** The body depends only on the message body and the encoding, never on the ids. */
  lemma BodyIgnoresCorrelation<T>(
    messageBody: T, serialize: T -> string, getBytes: (Encoding, string) -> seq<Byte>,
    operationId: Option<string>, transactionId: Option<string>, operationParentId: Option<string>,
    otherOperationId: Option<string>, otherTransactionId: Option<string>, otherParentId: Option<string>,
    encoding: Option<Encoding>)
    ensures
      AsServiceBusMessage(Some(messageBody), serialize, getBytes, operationId, transactionId, operationParentId, encoding).value.body
      == AsServiceBusMessage(Some(messageBody), serialize, getBytes, otherOperationId, otherTransactionId, otherParentId, encoding).value.body
  {
  }

  /** A reader of the message gets back every id that was not blank: the operation id from
      the correlation id and the other two from their properties. */
  lemma IdsReadBack<T>(
    messageBody: T, serialize: T -> string, getBytes: (Encoding, string) -> seq<Byte>,
    operationId: string, transactionId: string, operationParentId: string, encoding: Option<Encoding>)
    requires !IsBlank(Some(transactionId)) && !IsBlank(Some(operationParentId))
    ensures var m := AsServiceBusMessage(Some(messageBody), serialize, getBytes, Some(operationId), Some(transactionId), Some(operationParentId), encoding).value;
      && m.correlationId == Some(operationId)
      && m.applicationProperties.Keys == MessagePropertyKeys()
      && m.applicationProperties[TransactionIdProperty] == transactionId
      && m.applicationProperties[OperationParentIdProperty] == operationParentId
  {
  }
}
