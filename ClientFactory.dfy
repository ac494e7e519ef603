/** The decorator around the standard client factory: every client it hands out is wrapped in
  * the outbound decorator, failures are reported with the client unwrapped again, and the inner
  * factory's connect/disconnect events are raised again to this factory's own subscribers. */
module ClientFactory {
  import opened Wrappers
  import opened RequestDatas
  import opened Remoting
  import opened ServiceRequestContexts
  import opened Client

  /** One event handler invocation: which subscriber, the sender it saw, and the `Client` of its event args. */
  datatype Notification = Notification(subscriber: nat, sender: object, client: InnerClient?)

  /** A client as `ReportOperationExceptionAsync` may receive it: one this factory handed out,
    * any other remoting client, or null. */
  datatype AnyClient = Wrapped(wrapper: ExtendedClient) | Unwrapped(client: InnerClient) | NullClient

  /** Invoking a multicast event handler: every subscriber of the snapshot, once each, in order. */
  method InvokeAll(subscribers: seq<nat>, sender: object, client: InnerClient?) returns (delivered: seq<Notification>)
    ensures |delivered| == |subscribers|
    ensures forall i :: 0 <= i < |subscribers| ==> delivered[i] == Notification(subscribers[i], sender, client)
  {
    delivered := [];
    var i := 0;
    while i < |subscribers|
      invariant 0 <= i <= |subscribers|
      invariant |delivered| == i
      invariant forall j :: 0 <= j < i ==> delivered[j] == Notification(subscribers[j], sender, client)
    {
      delivered := delivered + [Notification(subscribers[i], sender, client)];
      i := i + 1;
    }
  }

  class ExtendedFactory {
    const inner: InnerFactory
    const context: CallContext
    const codec: Codec
    /** This factory's own `ClientConnected` and `ClientDisconnected` invocation lists. */
    var connectedSubscribers: seq<nat>
    var disconnectedSubscribers: seq<nat>
    /** The handler invocations these events have made so far. */
    var connectedNotifications: seq<Notification>
    var disconnectedNotifications: seq<Notification>

    /** Stores the inner factory and subscribes to both of its events. */
    constructor(inner: InnerFactory, context: CallContext, codec: Codec)
      modifies inner
      ensures this.inner == inner && this.context == context && this.codec == codec
      ensures inner.connectedSubscribers == old(inner.connectedSubscribers) + [this]
      ensures inner.disconnectedSubscribers == old(inner.disconnectedSubscribers) + [this]
      ensures inner.queries == old(inner.queries) && inner.issued == old(inner.issued)
      ensures inner.reports == old(inner.reports)
      ensures connectedSubscribers == [] && disconnectedSubscribers == []
      ensures connectedNotifications == [] && disconnectedNotifications == []
    {
      this.inner := inner;
      this.context := context;
      this.codec := codec;
      connectedSubscribers, disconnectedSubscribers := [], [];
      connectedNotifications, disconnectedNotifications := [], [];
      new;
      inner.SubscribeConnected(this);
      inner.SubscribeDisconnected(this);
    }

    /** The constructor's null check: a null inner factory raises ArgumentNullException. */
    static method Create(inner: InnerFactory?, context: CallContext, codec: Codec) returns (r: Result<ExtendedFactory>)
      modifies if inner == null then {} else {inner}
      ensures inner == null ==> r == Failure(ArgumentNull)
      ensures inner != null ==> r.Success? && fresh(r.value) && r.value.inner == inner
                                && inner.connectedSubscribers == old(inner.connectedSubscribers) + [r.value]
                                && inner.disconnectedSubscribers == old(inner.disconnectedSubscribers) + [r.value]
                                && r.value.context == context && r.value.codec == codec
                                && r.value.connectedSubscribers == [] && r.value.disconnectedSubscribers == []
                                && r.value.connectedNotifications == [] && r.value.disconnectedNotifications == []
                                && inner.queries == old(inner.queries) && inner.issued == old(inner.issued)
                                && inner.reports == old(inner.reports)
    {
      if inner == null {
        return Failure(ArgumentNull);
      }
      var f := new ExtendedFactory(inner, context, codec);
      r := Success(f);
    }

    /** `ClientConnected += subscriber`. */
    method AddClientConnected(subscriber: nat)
      modifies this
      ensures connectedSubscribers == old(connectedSubscribers) + [subscriber]
      ensures disconnectedSubscribers == old(disconnectedSubscribers)
      ensures connectedNotifications == old(connectedNotifications)
      ensures disconnectedNotifications == old(disconnectedNotifications)
    {
      connectedSubscribers := connectedSubscribers + [subscriber];
    }

    /** `ClientDisconnected += subscriber`. */
    method AddClientDisconnected(subscriber: nat)
      modifies this
      ensures disconnectedSubscribers == old(disconnectedSubscribers) + [subscriber]
      ensures connectedSubscribers == old(connectedSubscribers)
      ensures connectedNotifications == old(connectedNotifications)
      ensures disconnectedNotifications == old(disconnectedNotifications)
    {
      disconnectedSubscribers := disconnectedSubscribers + [subscriber];
    }

    /** The handler of the inner `ClientConnected`: raises this factory's `ClientConnected` with
      * this factory as sender and the same client; with no subscribers nothing happens. */
    method OnInnerClientConnected(sender: object, client: InnerClient?)
      modifies this
      ensures |connectedNotifications| == |old(connectedNotifications)| + |connectedSubscribers|
      ensures connectedNotifications[..|old(connectedNotifications)|] == old(connectedNotifications)
      ensures forall i :: 0 <= i < |connectedSubscribers| ==>
                connectedNotifications[|old(connectedNotifications)| + i]
                == Notification(connectedSubscribers[i], this, client)
      ensures connectedSubscribers == [] ==> connectedNotifications == old(connectedNotifications)
      ensures connectedSubscribers == old(connectedSubscribers)
      ensures disconnectedSubscribers == old(disconnectedSubscribers)
      ensures disconnectedNotifications == old(disconnectedNotifications)
    {
      var delivered := InvokeAll(connectedSubscribers, this, client);
      connectedNotifications := connectedNotifications + delivered;
    }

    /** The handler of the inner `ClientDisconnected`, likewise. */
    method OnInnerClientDisconnected(sender: object, client: InnerClient?)
      modifies this
      ensures |disconnectedNotifications| == |old(disconnectedNotifications)| + |disconnectedSubscribers|
      ensures disconnectedNotifications[..|old(disconnectedNotifications)|] == old(disconnectedNotifications)
      ensures forall i :: 0 <= i < |disconnectedSubscribers| ==>
                disconnectedNotifications[|old(disconnectedNotifications)| + i]
                == Notification(disconnectedSubscribers[i], this, client)
      ensures disconnectedSubscribers == [] ==> disconnectedNotifications == old(disconnectedNotifications)
      ensures connectedSubscribers == old(connectedSubscribers)
      ensures disconnectedSubscribers == old(disconnectedSubscribers)
      ensures connectedNotifications == old(connectedNotifications)
    {
      var delivered := InvokeAll(disconnectedSubscribers, this, client);
      disconnectedNotifications := disconnectedNotifications + delivered;
    }

    /** `GetClientAsync(serviceUri, partitionKey, ...)`: the inner factory's client, wrapped. */
    method GetClient(serviceUri: string, partitionKey: Option<int>, selector: ReplicaSelector,
                     listenerName: Option<string>, retrySettings: RetrySettings)
      returns (client: ExtendedClient)
      modifies inner
      ensures inner.queries == old(inner.queries)
                               + [ByServiceUri(serviceUri, partitionKey, selector, listenerName, retrySettings)]
      ensures inner.issued == old(inner.issued) + [client.BaseClient()]
      ensures fresh(client) && client.context == context && client.codec == codec
      ensures inner.reports == old(inner.reports)
      ensures inner.connectedSubscribers == old(inner.connectedSubscribers)
      ensures inner.disconnectedSubscribers == old(inner.disconnectedSubscribers)
    {
      var baseClient := inner.GetClient(ByServiceUri(serviceUri, partitionKey, selector, listenerName, retrySettings));
      client := new ExtendedClient(baseClient, context, codec);
    }

    /** `GetClientAsync(previousRsp, ...)`: the inner factory's client, wrapped. */
    method GetClientForPartition(previous: Partition, selector: ReplicaSelector,
                                 listenerName: Option<string>, retrySettings: RetrySettings)
      returns (client: ExtendedClient)
      modifies inner
      ensures inner.queries == old(inner.queries)
                               + [ByPreviousPartition(previous, selector, listenerName, retrySettings)]
      ensures inner.issued == old(inner.issued) + [client.BaseClient()]
      ensures fresh(client) && client.context == context && client.codec == codec
      ensures inner.reports == old(inner.reports)
      ensures inner.connectedSubscribers == old(inner.connectedSubscribers)
      ensures inner.disconnectedSubscribers == old(inner.disconnectedSubscribers)
    {
      var baseClient := inner.GetClient(ByPreviousPartition(previous, selector, listenerName, retrySettings));
      client := new ExtendedClient(baseClient, context, codec);
    }

    /** Reports to the inner factory with the wrapper's `BaseClient` and returns its decision.
      * `client as ExtendedClient` is null for any other client, and reading `BaseClient` of it
      * raises before the inner factory is consulted. */
    method ReportOperationException(client: AnyClient, info: ExceptionInformation, retrySettings: RetrySettings)
      returns (r: Result<RetryDecision>)
      modifies inner
      ensures client.Wrapped? ==>
                && r == Success(inner.decision)
                && inner.reports == old(inner.reports) + [Report(client.wrapper.BaseClient(), info, retrySettings)]
      ensures !client.Wrapped? ==> r == Failure(NullReference) && inner.reports == old(inner.reports)
      ensures inner.queries == old(inner.queries) && inner.issued == old(inner.issued)
      ensures inner.connectedSubscribers == old(inner.connectedSubscribers)
      ensures inner.disconnectedSubscribers == old(inner.disconnectedSubscribers)
    {
      if !client.Wrapped? {
        return Failure(NullReference);
      }
      var decision := inner.ReportOperationException(client.wrapper.BaseClient(), info, retrySettings);
      r := Success(decision);
    }

    function GetRemotingMessageBodyFactory(): (b: BodyFactory)
      ensures b == inner.bodyFactory
    {
      inner.bodyFactory
    }
  }
}
