/** The outbound decorator around the standard remoting client: on request/response it copies
  * the current context into the message headers, everything else passes straight through. */
module Client {
  import opened Wrappers
  import opened Guids
  import opened RequestDatas
  import opened Remoting
  import opened MessageExtensions
  import opened ServiceRequestContexts

  /** The headers after `SetRequestData` and then `SetColerationId`, or the exception the first raises. */
  function InjectContext(headers: Headers, correlationId: Guid, requestData: Option<RequestData>, codec: Codec)
    : (r: Result<Headers>)
    ensures r.Failure? <==> requestData.None?
    ensures r.Failure? ==> r.error == NullReference
    ensures r.Success? ==> r.value == WithCorrelationId(WithRequestData(headers, requestData, codec).value, correlationId)
  {
    match WithRequestData(headers, requestData, codec)
    case Failure(e) => Failure(e)
    case Success(withData) => Success(WithCorrelationId(withData, correlationId))
  }

  /** The injected headers read back as the context they came from, and no other header changes. */
  lemma InjectedContextReadsBack(headers: Headers, correlationId: Guid, requestData: RequestData, codec: Codec)
    requires codec.RoundTrips()
    ensures InjectContext(headers, correlationId, Some(requestData), codec).Success?
    ensures var out := InjectContext(headers, correlationId, Some(requestData), codec).value;
            && GetCorrelationId(out) == Success(correlationId)
            && GetRequestData(out, codec) == Success(Some(requestData))
            && forall k :: k != RequestDataHeaderKey && k != CorrelationIdHeaderKey ==>
                 (k in out <==> k in headers) && (k in headers ==> out[k] == headers[k])
  {
    var withData := WithRequestData(headers, Some(requestData), codec).value;
    RequestDataRoundTrip(headers, requestData, codec);
    SettersAreIndependent(withData, requestData, correlationId, codec);
    CorrelationIdRoundTrip(withData, correlationId);
  }

  class ExtendedClient {
    const inner: InnerClient
    const context: CallContext
    const codec: Codec

    constructor(inner: InnerClient, context: CallContext, codec: Codec)
      ensures this.inner == inner && this.context == context && this.codec == codec
    {
      this.inner := inner;
      this.context := context;
      this.codec := codec;
    }

    /** The constructor's null check: a null inner client raises ArgumentNullException. */
    static method Create(inner: InnerClient?, context: CallContext, codec: Codec) returns (r: Result<ExtendedClient>)
      ensures inner == null ==> r == Failure(ArgumentNull)
      ensures inner != null ==> r.Success? && fresh(r.value) && r.value.BaseClient() == inner
                                && r.value.context == context && r.value.codec == codec
    {
      if inner == null {
        return Failure(ArgumentNull);
      }
      var c := new ExtendedClient(inner, context, codec);
      r := Success(c);
    }

    /** `BaseClient`: the wrapped client. */
    function BaseClient(): (c: InnerClient)
      ensures c == inner
    {
      inner
    }

    /** Handed to the inner client as it is, with no headers added. */
    method SendOneWay(message: RequestMessage)
      modifies inner
      ensures inner.oneWaySent == old(inner.oneWaySent) + [Delivery(message, message.headers)]
      ensures inner.requestsSent == old(inner.requestsSent)
      ensures inner.resolvedServicePartition == old(inner.resolvedServicePartition)
      ensures inner.listenerName == old(inner.listenerName) && inner.endpoint == old(inner.endpoint)
    {
      inner.SendOneWay(message);
    }

    /** With a context installed, writes the request-data header and then the correlation header
      * from it, then delegates; a null request data raises before the inner client is called.
      * With no context installed, delegates with the headers untouched. */
    method RequestResponse(message: RequestMessage) returns (r: Result<Response>)
      modifies message, inner
      ensures context.Current() == null ==>
                && message.headers == old(message.headers)
                && inner.requestsSent == old(inner.requestsSent) + [Delivery(message, message.headers)]
                && r == inner.reply
      ensures context.Current() != null ==>
                var injected := InjectContext(old(message.headers), context.Current().correlationId,
                                              context.Current().requestData, codec);
                && (injected.Failure? ==>
                      && r == Failure(injected.error)
                      && message.headers == old(message.headers)
                      && inner.requestsSent == old(inner.requestsSent))
                && (injected.Success? ==>
                      && message.headers == injected.value
                      && inner.requestsSent == old(inner.requestsSent) + [Delivery(message, injected.value)]
                      && r == inner.reply)
      ensures inner.oneWaySent == old(inner.oneWaySent)
      ensures inner.resolvedServicePartition == old(inner.resolvedServicePartition)
      ensures inner.listenerName == old(inner.listenerName) && inner.endpoint == old(inner.endpoint)
    {
      var current := context.Current();
      if current != null {
        var written := SetRequestData(message, current.requestData, codec);
        if written.Fail? {
          return Failure(written.error);
        }
        SetCorrelationId(message, current.correlationId);
      }
      r := inner.RequestResponse(message);
    }

    function ResolvedServicePartition(): (p: Partition)
      reads inner
      ensures p == inner.resolvedServicePartition
    {
      inner.resolvedServicePartition
    }

    method SetResolvedServicePartition(value: Partition)
      modifies inner
      ensures inner.resolvedServicePartition == value && ResolvedServicePartition() == value
      ensures inner.listenerName == old(inner.listenerName) && inner.endpoint == old(inner.endpoint)
      ensures inner.oneWaySent == old(inner.oneWaySent) && inner.requestsSent == old(inner.requestsSent)
    {
      inner.resolvedServicePartition := value;
    }

    function ListenerName(): (name: Option<string>)
      reads inner
      ensures name == inner.listenerName
    {
      inner.listenerName
    }

    method SetListenerName(value: Option<string>)
      modifies inner
      ensures inner.listenerName == value && ListenerName() == value
      ensures inner.resolvedServicePartition == old(inner.resolvedServicePartition)
      ensures inner.endpoint == old(inner.endpoint)
      ensures inner.oneWaySent == old(inner.oneWaySent) && inner.requestsSent == old(inner.requestsSent)
    {
      inner.listenerName := value;
    }

    function Endpoint(): (e: Remoting.Endpoint)
      reads inner
      ensures e == inner.endpoint
    {
      inner.endpoint
    }

    method SetEndpoint(value: Remoting.Endpoint)
      modifies inner
      ensures inner.endpoint == value && Endpoint() == value
      ensures inner.resolvedServicePartition == old(inner.resolvedServicePartition)
      ensures inner.listenerName == old(inner.listenerName)
      ensures inner.oneWaySent == old(inner.oneWaySent) && inner.requestsSent == old(inner.requestsSent)
    {
      inner.endpoint := value;
    }
  }
}
