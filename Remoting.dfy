/** The Service Fabric remoting collaborators the core decorates, reduced to the state the core
  * touches: a request message with its header set, a remoting client and a client factory.
  * Partitions, endpoints, retry settings and the like are opaque values passed through. */
module Remoting {
  import opened Wrappers
  import opened Bytes

  /** The header set of a request message: header name to header bytes. */
  type Headers = map<string, seq<byte>>

  datatype Partition = Partition(id: nat)                   // ResolvedServicePartition
  datatype Endpoint = Endpoint(address: string)             // ResolvedServiceEndpoint
  datatype Response = Response(body: seq<byte>)             // IServiceRemotingResponseMessage
  datatype RequestContext = RequestContext(id: nat)         // IServiceRemotingRequestContext
  datatype ExceptionInformation = ExceptionInformation(message: string)
  datatype RetrySettings = RetrySettings(maxRetryCount: nat)
  datatype RetryDecision = RetryDecision(shouldRetry: bool, isTransient: bool)  // OperationRetryControl
  datatype BodyFactory = BodyFactory(id: nat)               // IServiceRemotingMessageBodyFactory
  datatype ReplicaSelector = Default | PrimaryReplica | RandomReplica | RandomSecondaryReplica

  /** The arguments of the two `GetClientAsync` overloads (cancellation tokens left out). */
  datatype ClientQuery =
    | ByServiceUri(serviceUri: string, partitionKey: Option<int>, selector: ReplicaSelector,
                   listenerName: Option<string>, retrySettings: RetrySettings)
    | ByPreviousPartition(previous: Partition, selector: ReplicaSelector,
                          listenerName: Option<string>, retrySettings: RetrySettings)

  /** A request message; `GetHeader()` gives its header set, which `AddHeader` changes in place. */
  class RequestMessage {
    var headers: Headers

    constructor(headers: Headers)
      ensures this.headers == headers
    {
      this.headers := headers;
    }

    /** Plain insertion: a header already present under `name` is replaced. */
    method AddHeader(name: string, value: seq<byte>)
      modifies this
      ensures headers == old(headers)[name := value]
    {
      headers := headers[name := value];
    }
  }

  /** A message as a client received it: the message and its headers at that moment. */
  datatype Delivery = Delivery(message: RequestMessage, headers: Headers)

  /** The standard remoting client: three settable properties, and a record of what it was sent. */
  class InnerClient {
    var resolvedServicePartition: Partition
    var listenerName: Option<string>
    var endpoint: Endpoint
    var oneWaySent: seq<Delivery>
    var requestsSent: seq<Delivery>
    /** What the transport answers to a request (a response or a raised exception). */
    const reply: Result<Response>

    constructor(partition: Partition, listenerName: Option<string>, endpoint: Endpoint, reply: Result<Response>)
      ensures resolvedServicePartition == partition && this.listenerName == listenerName
      ensures this.endpoint == endpoint && this.reply == reply
      ensures oneWaySent == [] && requestsSent == []
    {
      this.resolvedServicePartition := partition;
      this.listenerName := listenerName;
      this.endpoint := endpoint;
      this.reply := reply;
      this.oneWaySent := [];
      this.requestsSent := [];
    }

    method SendOneWay(message: RequestMessage)
      modifies this
      ensures oneWaySent == old(oneWaySent) + [Delivery(message, message.headers)]
      ensures requestsSent == old(requestsSent)
      ensures resolvedServicePartition == old(resolvedServicePartition)
      ensures listenerName == old(listenerName) && endpoint == old(endpoint)
    {
      oneWaySent := oneWaySent + [Delivery(message, message.headers)];
    }

    method RequestResponse(message: RequestMessage) returns (r: Result<Response>)
      modifies this
      ensures requestsSent == old(requestsSent) + [Delivery(message, message.headers)]
      ensures oneWaySent == old(oneWaySent)
      ensures resolvedServicePartition == old(resolvedServicePartition)
      ensures listenerName == old(listenerName) && endpoint == old(endpoint)
      ensures r == reply
    {
      requestsSent := requestsSent + [Delivery(message, message.headers)];
      r := reply;
    }
  }

  datatype Report = Report(client: InnerClient, info: ExceptionInformation, retrySettings: RetrySettings)

  /** The standard client factory: its two events' subscriber lists, and a record of its calls. */
  class InnerFactory {
    var connectedSubscribers: seq<object>
    var disconnectedSubscribers: seq<object>
    var queries: seq<ClientQuery>
    var issued: seq<InnerClient>
    var reports: seq<Report>
    const decision: RetryDecision
    const bodyFactory: BodyFactory
    /** What the clients this factory creates answer to requests. */
    const clientReply: Result<Response>

    constructor(decision: RetryDecision, bodyFactory: BodyFactory, clientReply: Result<Response>)
      ensures connectedSubscribers == [] && disconnectedSubscribers == []
      ensures queries == [] && issued == [] && reports == []
      ensures this.decision == decision && this.bodyFactory == bodyFactory
      ensures this.clientReply == clientReply
    {
      this.decision := decision;
      this.bodyFactory := bodyFactory;
      this.clientReply := clientReply;
      connectedSubscribers, disconnectedSubscribers := [], [];
      queries, issued, reports := [], [], [];
    }

    /** `ClientConnected += handler`, the handler being a method of `subscriber`. */
    method SubscribeConnected(subscriber: object)
      modifies this
      ensures connectedSubscribers == old(connectedSubscribers) + [subscriber]
      ensures disconnectedSubscribers == old(disconnectedSubscribers)
      ensures queries == old(queries) && issued == old(issued) && reports == old(reports)
    {
      connectedSubscribers := connectedSubscribers + [subscriber];
    }

    /** `ClientDisconnected += handler`. */
    method SubscribeDisconnected(subscriber: object)
      modifies this
      ensures disconnectedSubscribers == old(disconnectedSubscribers) + [subscriber]
      ensures connectedSubscribers == old(connectedSubscribers)
      ensures queries == old(queries) && issued == old(issued) && reports == old(reports)
    {
      disconnectedSubscribers := disconnectedSubscribers + [subscriber];
    }

    /** Either `GetClientAsync` overload, according to the query. */
    method GetClient(query: ClientQuery) returns (client: InnerClient)
      modifies this
      ensures fresh(client)
      ensures queries == old(queries) + [query] && issued == old(issued) + [client]
      ensures reports == old(reports)
      ensures connectedSubscribers == old(connectedSubscribers)
      ensures disconnectedSubscribers == old(disconnectedSubscribers)
    {
      var partition := if query.ByPreviousPartition? then query.previous else Partition(0);
      client := new InnerClient(partition, query.listenerName, Endpoint(""), clientReply);
      queries := queries + [query];
      issued := issued + [client];
    }

    method ReportOperationException(client: InnerClient, info: ExceptionInformation, retrySettings: RetrySettings)
      returns (d: RetryDecision)
      modifies this
      ensures reports == old(reports) + [Report(client, info, retrySettings)]
      ensures queries == old(queries) && issued == old(issued)
      ensures connectedSubscribers == old(connectedSubscribers)
      ensures disconnectedSubscribers == old(disconnectedSubscribers)
      ensures d == decision
    {
      reports := reports + [Report(client, info, retrySettings)];
      d := decision;
    }
  }
}
