/** What the decorators do together across a chain of calls: a service's dispatcher installs the
  * context it reads from the incoming headers, and the outbound decorator copies that context
  * onto the next request the service makes. */
module Propagation {
  import opened Wrappers
  import opened Guids
  import opened RequestDatas
  import opened Remoting
  import opened MessageExtensions
  import opened ServiceRequestContexts
  import opened Client
  import opened Dispatcher

  /** One hop: the headers of the next request, whose own headers are `next`, after the context
    * decoded from `inbound` has been injected into it. */
  function Forward(inbound: Headers, next: Headers, codec: Codec): (r: Result<Headers>)
    ensures RequestDataHeaderKey !in inbound && GetCorrelationId(inbound).Success? ==> r == Failure(NullReference)
  {
    match GetCorrelationId(inbound)
    case Failure(e) => Failure(e)
    case Success(correlationId) =>
      match GetRequestData(inbound, codec)
      case Failure(e) => Failure(e)
      case Success(requestData) => InjectContext(next, correlationId, requestData, codec)
  }

  /** A chain of hops, starting from the headers the first service receives. */
  function ForwardAll(inbound: Headers, nexts: seq<Headers>, codec: Codec): Result<Headers>
    decreases |nexts|
  {
    if nexts == [] then Success(inbound)
    else
      match Forward(inbound, nexts[0], codec)
      case Failure(e) => Failure(e)
      case Success(h) => ForwardAll(h, nexts[1..], codec)
  }

  /** A hop forwards exactly the context it received when both headers are present and valid. */
  lemma ForwardPreservesContext(inbound: Headers, next: Headers, codec: Codec)
    requires codec.RoundTrips()
    requires GetCorrelationId(inbound).Success?
    requires GetRequestData(inbound, codec).Success? && RequestDataHeaderKey in inbound
    ensures Forward(inbound, next, codec).Success?
    ensures GetCorrelationId(Forward(inbound, next, codec).value) == GetCorrelationId(inbound)
    ensures GetRequestData(Forward(inbound, next, codec).value, codec) == GetRequestData(inbound, codec)
  {
    var data := GetRequestData(inbound, codec).value;
    assert data.Some?;
    InjectedContextReadsBack(next, GetCorrelationId(inbound).value, data.value, codec);
  }

  /** The context that enters at the edge reaches the end of a chain of any length unchanged. */
  lemma {:induction false} ChainPreservesContext(inbound: Headers, nexts: seq<Headers>, codec: Codec)
    requires codec.RoundTrips()
    requires GetCorrelationId(inbound).Success?
    requires GetRequestData(inbound, codec).Success? && RequestDataHeaderKey in inbound
    ensures ForwardAll(inbound, nexts, codec).Success?
    ensures GetCorrelationId(ForwardAll(inbound, nexts, codec).value) == GetCorrelationId(inbound)
    ensures GetRequestData(ForwardAll(inbound, nexts, codec).value, codec) == GetRequestData(inbound, codec)
    decreases |nexts|
  {
    if nexts != [] {
      ForwardPreservesContext(inbound, nexts[0], codec);
      var h := Forward(inbound, nexts[0], codec).value;
      assert RequestDataHeaderKey in h by {
        assert GetRequestData(h, codec) != Success(None);
      }
      ChainPreservesContext(h, nexts[1..], codec);
    }
  }

  /** A request that arrives without a request-data header makes the next outbound request raise,
    * because the installed context carries a null request data. */
  lemma MissingRequestDataBreaksNextHop(inbound: Headers, nexts: seq<Headers>, codec: Codec)
    requires RequestDataHeaderKey !in inbound && GetCorrelationId(inbound).Success?
    requires nexts != []
    ensures ForwardAll(inbound, nexts, codec) == Failure(NullReference)
  {
  }

  /** 11111111-1111-1111-1111-111111111111 */
  const EdgeCorrelationId: Guid := Guid(0x1111_1111, 0x1111, 0x1111, 0x11, 0x11, 0x11, 0x11, 0x11, 0x11, 0x11, 0x11)

  function AliceData(): RequestData
  {
    NewRequestData().(uiLanguage := Some("fr"), cultureCode := Some("fr-FR"), userId := Some("alice"))
  }

  /** Service A, with the edge's context installed, calls service B through the decorated client:
    * the request leaves carrying the edge's correlation id and request data. */
  method CallFromEdge() returns (request: RequestMessage)
    ensures GetCorrelationId(request.headers) == Success(EdgeCorrelationId)
    ensures GetRequestData(request.headers, FieldCodec) == Success(Some(AliceData()))
  {
    FieldCodecRoundTrips();
    var contextA := new CallContext();
    var edge := new ServiceRequestContext(EdgeCorrelationId, Some(AliceData()));
    contextA.SetCurrent(edge);
    var transportA := new InnerClient(Partition(1), Some("V2Listener"), Endpoint("fabric:/B"), Success(Response([42])));
    var clientA := new ExtendedClient(transportA, contextA, FieldCodec);
    request := new RequestMessage(map[]);
    var _ := clientA.RequestResponse(request);
    InjectedContextReadsBack(map[], EdgeCorrelationId, AliceData(), FieldCodec);
  }

  /** Service B's dispatcher receives that request; B's handler runs under the same context. */
  method ReceiveAtServiceB(request: RequestMessage) returns (observed: ServiceRequestContext?, response: Result<Response>)
    requires GetCorrelationId(request.headers) == Success(EdgeCorrelationId)
    requires GetRequestData(request.headers, FieldCodec) == Success(Some(AliceData()))
    ensures observed != null
    ensures observed.correlationId == EdgeCorrelationId && observed.requestData == Some(AliceData())
    ensures response == Success(Response([42]))
  {
    var contextB := new CallContext();
    var handlerB := new RemotingHandler(Success(Response([42])));
    var dispatcherB := new ExtendedDispatcher(handlerB, contextB, FieldCodec);
    response := dispatcherB.HandleRequestResponse(RequestContext(7), request);
    observed := handlerB.calls[0].current;
  }

  /** The edge calls service B; B's handler then runs under the edge's correlation id and user,
    * which no method signature carried. */
  method EdgeToServiceB() returns (observed: ServiceRequestContext?, response: Result<Response>)
    ensures observed != null
    ensures observed.correlationId == EdgeCorrelationId
    ensures observed.requestData == Some(AliceData())
    ensures observed.requestData.value.userId == Some("alice")
    ensures response == Success(Response([42]))
  {
    var request := CallFromEdge();
    observed, response := ReceiveAtServiceB(request);
  }

  /** A request with no headers runs B's handler under `Guid.Empty` and null request data; an
    * outbound request made under that context then raises NullReferenceException and never
    * reaches the transport. */
  method NoHeadersThenOutbound() returns (observed: ServiceRequestContext?, outbound: Result<Response>)
    ensures observed != null && observed.correlationId == Empty && observed.requestData == None
    ensures outbound == Failure(NullReference)
  {
    var contextB := new CallContext();
    var handlerB := new RemotingHandler(Success(Response([])));
    var dispatcherB := new ExtendedDispatcher(handlerB, contextB, FieldCodec);
    var incoming := new RequestMessage(map[]);
    var _ := dispatcherB.HandleRequestResponse(RequestContext(1), incoming);
    observed := handlerB.calls[0].current;
    // B's handler code calls service C while that context is current.
    contextB.SetCurrent(observed);
    var transportB := new InnerClient(Partition(2), None, Endpoint("fabric:/C"), Success(Response([])));
    var clientB := new ExtendedClient(transportB, contextB, FieldCodec);
    var request := new RequestMessage(map[]);
    outbound := clientB.RequestResponse(request);
    assert transportB.requestsSent == [];
  }
}
