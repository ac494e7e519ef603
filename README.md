# Request-context propagation for Service Fabric remoting, modelled in Dafny

This project models the core of `SharedProject`, which carries one request's context across Service Fabric remoting calls. The context is a correlation id plus a `RequestData` record of UI language, culture, default UI language and user id.

The pieces, following the source files:

- **`RequestData`** (`RequestData.dfy`, module `RequestDatas`). The record and its four nullable string properties. Also `new RequestData()` with its field initialiser, `RequestData.Default`, and `Serialize`/`Deserialize` as a `Codec` (a pair of functions). The model does not fix the byte format. It assumes only that `Deserialize` inverts `Serialize` (`Codec.RoundTrips`). A concrete `FieldCodec` is proved to meet that assumption, so the assumption can be satisfied.
- **Correlation id bytes** (`Guid.dfy`, `Bytes.dfy`). `System.Guid` laid out as in .NET: a 32-bit field, two 16-bit fields and eight bytes. `ToByteArray()` writes the integer fields little-endian. `new Guid(byte[])` raises `ArgumentException` unless the array is exactly 16 bytes long.
- **Header helpers** (`MessageExtensions.dfy`). The two header keys, exactly as the source spells them (`"RequestDataHeaderKey"`, `"ColerationIdHeaderKey"`).
  - `GetColerationId` falls back to `Guid.Empty` and `GetRequestData` to null when the header is absent.
  - `SetRequestData` and `SetColerationId` add a header to the message in place.
  - The getters are functions of the header set, so they do not change it.
- **Ambient context** (`ServiceRequestContext.dfy`, module `ServiceRequestContexts`).
  - `ServiceRequestContext` is a class with constant properties. Its `GetRequestDataOrDefault` always raises.
  - The static `Current` is a `CallContext` object with one `Option` slot; `None` is a freed slot.
  - `RunInRequestContext` (both overloads) installs a fresh context, runs the action once, and clears the slot on every path.
- **Outbound client decorator** (`Client.dfy`). `RequestResponseAsync` writes the request-data header, then the correlation header, from `Current` when a context is installed. Then it delegates. `SendOneWay` and the three properties pass straight through to the inner client.
- **Client factory decorator** (`ClientFactory.dfy`).
  - It subscribes to the inner factory's two events, and wraps every client it hands out.
  - Its event handlers re-raise to this factory's own subscribers, in order, with this factory as sender and the same client.
  - It unwraps the client before reporting a failure. A client that is not a wrapper raises `NullReferenceException`.
- **Inbound dispatcher** (`Dispatcher.dfy`). It decodes both headers, then runs the base handler inside `RunInRequestContextResult`.
- **Across calls** (`Propagation.dfy`).
  - A hop is the dispatcher's decoding followed by the client's injection. Lemmas show that a context entering at the edge survives any number of hops.
  - They also show what happens when a request arrives with no request-data header. The installed context then holds null request data, and the service's next outbound request raises `NullReferenceException` in `SetRequestData`.
  - Scenario methods compose the decorator methods themselves. One covers an edge call that reaches service B. The other covers the null-request-data failure.

Dafny has no mutable static state. So the static `Current` slot and the static `Serialize`/`Deserialize` pair are handed to each decorator's constructor, as a shared `CallContext` object and a `Codec` value.

The Service Fabric side is in `Remoting.dfy`: a request message whose header set is a `map<string, seq<byte>>`, the standard client, and the standard factory. These are collaborators, reduced to recorded calls and fixed answers. They model only the interface the core uses.

Some behaviours of the code a reader might not expect, all modelled as written:
- Both `RunInRequestContext` overloads set `Current` to null in their `finally` block (`SharedProject/ServiceRequestContext.cs:96`, `:124`). They do not put back an earlier value. These writes run inside the task the method starts (`:87-99`, `:115-127`), so they change that task's logical call context, not the caller's. The model has a single slot, which stands for the task's context.
- `SendOneWay` passes the message to the inner client without adding any header (`SharedProject/ExtendedFabricTransportServiceRemotingClient.cs:57-62`).
- An absent request-data header reads as null, not as `RequestData.Default` (`SharedProject/ServiceRemotingRequestMessageExtensions.cs:33`).
- `ReportOperationExceptionAsync` casts its client with `as` and then reads `BaseClient`. A client that is not a wrapper therefore raises `NullReferenceException` (`SharedProject/ExtendedFabricTransportServiceRemotingClientFactory.cs:123`).
- A re-raised event names the wrapping factory as sender. Its `Client` is the inner client that the inner factory reported, not a wrapper (`SharedProject/ExtendedFabricTransportServiceRemotingClientFactory.cs:55-58`, `:70-73`).

## Model

| member | source | states |
|---|---|---|
| `RequestDatas.NewRequestData` | SharedProject/RequestData.cs:33-46 | a new RequestData has DefaultUILanguage "en" and UILanguage, CultureCode and UserId null |
| `RequestDatas.Default` | SharedProject/RequestData.cs:28 | Default has CultureCode "en", UILanguage "en", UserId "" and, from the initialiser, DefaultUILanguage "en" |
| `RequestDatas.PlainIsNotDefault` | SharedProject/RequestData.cs:28-46 | a plainly constructed RequestData differs from Default, though both have DefaultUILanguage "en" |
| `RequestDatas.FieldCodecRoundTrips` | SharedProject/RequestData.cs:52-85 | a concrete self-describing codec satisfies the round-trip the model assumes of Serialize/Deserialize, for every record, null and empty strings included |
| `Guids.ToByteArray` | SharedProject/ServiceRemotingRequestMessageExtensions.cs:46 | the correlation header value is always 16 bytes |
| `Guids.FromByteArray` | SharedProject/ServiceRemotingRequestMessageExtensions.cs:19 | new Guid(bytes) fails with ArgumentException exactly when the array is not 16 bytes long |
| `Guids.GuidRoundTrip` | SharedProject/ServiceRemotingRequestMessageExtensions.cs:19-46 | for every Guid, new Guid(g.ToByteArray()) == g |
| `Guids.BytesRoundTrip` | SharedProject/ServiceRemotingRequestMessageExtensions.cs:19 | every 16-byte array is the ToByteArray form of the Guid built from it |
| `Guids.ToByteArrayInjective` | SharedProject/ServiceRemotingRequestMessageExtensions.cs:46 | distinct Guids write distinct correlation header values |
| `MessageExtensions.HeaderKeysDistinct` | SharedProject/ServiceRemotingRequestMessageExtensions.cs:10-11 | the request-data key "RequestDataHeaderKey" and the correlation key "ColerationIdHeaderKey" differ, so neither header overwrites the other |
| `Guids.EmptyIsZeroBytes` | SharedProject/ServiceRemotingRequestMessageExtensions.cs:22 | Guid.Empty is written as sixteen zero bytes |
| `Bytes.FromLittleEndianOfLittleEndian` | SharedProject/ServiceRemotingRequestMessageExtensions.cs:46 | reading back the little-endian bytes of a field gives the field |
| `Bytes.LittleEndianOfFromLittleEndian` | SharedProject/ServiceRemotingRequestMessageExtensions.cs:19 | writing back a field read from bytes gives the bytes |
| `MessageExtensions.GetCorrelationId` | SharedProject/ServiceRemotingRequestMessageExtensions.cs:14-23 | absent header gives Guid.Empty; present header gives the Guid whose byte form is the header, or ArgumentException when it is not 16 bytes |
| `MessageExtensions.GetRequestData` | SharedProject/ServiceRemotingRequestMessageExtensions.cs:25-34 | the result is null exactly when the header is absent; otherwise it is Deserialize of the header, or its exception |
| `MessageExtensions.WithRequestData` | SharedProject/ServiceRemotingRequestMessageExtensions.cs:37-41 | null request data raises NullReferenceException and adds nothing; otherwise the serialized data is stored under its key and no other header changes |
| `MessageExtensions.WithCorrelationId` | SharedProject/ServiceRemotingRequestMessageExtensions.cs:43-47 | a 16-byte value is stored under the correlation key and no other header changes |
| `MessageExtensions.SetRequestData` | SharedProject/ServiceRemotingRequestMessageExtensions.cs:37-41 | the message's headers change as WithRequestData says; on null they are untouched and the exception is returned |
| `MessageExtensions.SetCorrelationId` | SharedProject/ServiceRemotingRequestMessageExtensions.cs:43-47 | the message's headers change as WithCorrelationId says, and GetColerationId then reads back the same Guid |
| `MessageExtensions.CorrelationIdRoundTrip` | SharedProject/ServiceRemotingRequestMessageExtensions.cs:14-47 | SetColerationId then GetColerationId on any header set gives the Guid written |
| `MessageExtensions.RequestDataRoundTrip` | SharedProject/ServiceRemotingRequestMessageExtensions.cs:25-41 | SetRequestData then GetRequestData gives the record written, when Deserialize inverts Serialize |
| `MessageExtensions.SettersAreIndependent` | SharedProject/ServiceRemotingRequestMessageExtensions.cs:10-47 | writing one header leaves what the other getter reads unchanged |
| `ServiceRequestContexts.ServiceRequestContext.constructor` | SharedProject/ServiceRequestContext.cs:40-44 | the context stores the given correlation id and request data unchanged |
| `ServiceRequestContexts.ServiceRequestContext.GetRequestDataOrDefault` | SharedProject/ServiceRequestContext.cs:135-138 | always raises NotImplementedException |
| `ServiceRequestContexts.CallContext.Current` | SharedProject/ServiceRequestContext.cs:60-62 | a freed slot reads as null; otherwise the stored context is returned |
| `ServiceRequestContexts.CallContext.SetCurrent` | SharedProject/ServiceRequestContext.cs:63-73 | null frees the slot, any other context is stored, and Current then returns exactly the value assigned |
| `ServiceRequestContexts.CallContext.RunInRequestContext` | SharedProject/ServiceRequestContext.cs:84-101 | the action runs exactly once while Current holds a fresh context with the given id and data; afterwards the task's slot is freed on success and on failure; the action's failure is passed on |
| `ServiceRequestContexts.CallContext.RunInRequestContextResult` | SharedProject/ServiceRequestContext.cs:112-129 | as RunInRequestContext, and the action's result or exception is returned unchanged |
| `Client.InjectContext` | SharedProject/ExtendedFabricTransportServiceRemotingClient.cs:74-79 | header injection fails with NullReferenceException exactly when the current request data is null; otherwise it writes the request-data header, then the correlation header |
| `Client.InjectedContextReadsBack` | SharedProject/ExtendedFabricTransportServiceRemotingClient.cs:74-79 | injected headers decode back to the same correlation id and request data, and headers under other keys are unchanged |
| `Client.ExtendedClient.constructor` | SharedProject/ExtendedFabricTransportServiceRemotingClient.cs:41-44 | the wrapper stores the inner client it is given |
| `Client.ExtendedClient.Create` | SharedProject/ExtendedFabricTransportServiceRemotingClient.cs:41-44 | a null inner client raises ArgumentNullException; otherwise the new wrapper's BaseClient is that client |
| `Client.ExtendedClient.BaseClient` | SharedProject/ExtendedFabricTransportServiceRemotingClient.cs:35 | BaseClient is exactly the inner client |
| `Client.ExtendedClient.SendOneWay` | SharedProject/ExtendedFabricTransportServiceRemotingClient.cs:60-63 | the message reaches the inner client's one-way send with its headers untouched; nothing else of the inner client changes |
| `Client.ExtendedClient.RequestResponse` | SharedProject/ExtendedFabricTransportServiceRemotingClient.cs:71-82 | with no context, delegates with headers untouched; with a context, the inner client receives the headers InjectContext gives; if injection fails the inner client is not called; the inner response is returned unchanged |
| `Client.ExtendedClient.ResolvedServicePartition` | SharedProject/ExtendedFabricTransportServiceRemotingClient.cs:89 | reads the inner client's value |
| `Client.ExtendedClient.SetResolvedServicePartition` | SharedProject/ExtendedFabricTransportServiceRemotingClient.cs:90 | writes the inner client's value, and only that |
| `Client.ExtendedClient.ListenerName` | SharedProject/ExtendedFabricTransportServiceRemotingClient.cs:98 | reads the inner client's value |
| `Client.ExtendedClient.SetListenerName` | SharedProject/ExtendedFabricTransportServiceRemotingClient.cs:99 | writes the inner client's value, and only that |
| `Client.ExtendedClient.Endpoint` | SharedProject/ExtendedFabricTransportServiceRemotingClient.cs:107 | reads the inner client's value |
| `Client.ExtendedClient.SetEndpoint` | SharedProject/ExtendedFabricTransportServiceRemotingClient.cs:108 | writes the inner client's value, and only that |
| `ClientFactory.InvokeAll` | SharedProject/ExtendedFabricTransportServiceRemotingClientFactory.cs:53-58 | invoking an event reaches every subscriber of the snapshot once, in order, with the given sender and client |
| `ClientFactory.ExtendedFactory.constructor` | SharedProject/ExtendedFabricTransportServiceRemotingClientFactory.cs:37-44 | stores the inner factory and subscribes to both of its events, changing nothing else |
| `ClientFactory.ExtendedFactory.Create` | SharedProject/ExtendedFabricTransportServiceRemotingClientFactory.cs:40-43 | a null inner factory raises ArgumentNullException; otherwise the new factory holds the given context and codec, has empty subscriber and notification lists, is subscribed to both inner events, and the inner queries, issued clients and reports are unchanged |
| `ClientFactory.ExtendedFactory.AddClientConnected` | SharedProject/ExtendedFabricTransportServiceRemotingClientFactory.cs:79 | a subscriber joins the end of the ClientConnected list |
| `ClientFactory.ExtendedFactory.AddClientDisconnected` | SharedProject/ExtendedFabricTransportServiceRemotingClientFactory.cs:80 | a subscriber joins the end of the ClientDisconnected list |
| `ClientFactory.ExtendedFactory.OnInnerClientConnected` | SharedProject/ExtendedFabricTransportServiceRemotingClientFactory.cs:66-75 | each ClientConnected subscriber is notified once, in order, with this factory as sender and the same client; no subscribers, no effect |
| `ClientFactory.ExtendedFactory.OnInnerClientDisconnected` | SharedProject/ExtendedFabricTransportServiceRemotingClientFactory.cs:51-59 | the same for ClientDisconnected |
| `ClientFactory.ExtendedFactory.GetClient` | SharedProject/ExtendedFabricTransportServiceRemotingClientFactory.cs:92-96 | the inner factory is asked with the same arguments, and the fresh wrapper's BaseClient is exactly the client it returned; the inner reports and both inner subscriber lists are unchanged |
| `ClientFactory.ExtendedFactory.GetClientForPartition` | SharedProject/ExtendedFabricTransportServiceRemotingClientFactory.cs:107-111 | the same for the overload taking the previous partition, with the inner reports and subscriber lists unchanged |
| `ClientFactory.ExtendedFactory.ReportOperationException` | SharedProject/ExtendedFabricTransportServiceRemotingClientFactory.cs:121-124 | a wrapper is reported as its BaseClient and the inner decision is returned unchanged; any other client raises NullReferenceException before the inner factory is consulted; the inner queries, issued clients and subscriber lists are unchanged |
| `ClientFactory.ExtendedFactory.GetRemotingMessageBodyFactory` | SharedProject/ExtendedFabricTransportServiceRemotingClientFactory.cs:134-137 | returns the inner factory's body factory |
| `Dispatcher.ExtendedDispatcher.constructor` | SharedProject/ExtendedServiceRemotingDispatcher.cs:22-25 | stores the base handler |
| `Dispatcher.ExtendedDispatcher.HandleRequestResponse` | SharedProject/ExtendedServiceRemotingDispatcher.cs:34-46 | the base handler runs once with the same request context and message while Current carries the decoded id and data; without headers that is Guid.Empty and null; its response is returned unchanged and Current is null afterwards; a malformed header raises before the handler runs |
| `Propagation.Forward` | SharedProject/ExtendedServiceRemotingDispatcher.cs:38-45 | a request without a request-data header makes the next hop's injection raise NullReferenceException |
| `Propagation.ForwardPreservesContext` | SharedProject/ExtendedFabricTransportServiceRemotingClient.cs:74-79 | one hop forwards exactly the correlation id and request data it received |
| `Propagation.ChainPreservesContext` | SharedProject/ExtendedServiceRemotingDispatcher.cs:38-45 | the edge's correlation id and request data reach the end of a chain of any length unchanged |
| `Propagation.MissingRequestDataBreaksNextHop` | SharedProject/ServiceRemotingRequestMessageExtensions.cs:40 | a chain whose first request has no request-data header fails with NullReferenceException at its first hop |
| `Propagation.CallFromEdge` | SharedProject/ExtendedFabricTransportServiceRemotingClient.cs:74-81 | with the edge's context current, the request service A sends decodes to the edge's correlation id and request data |
| `Propagation.ReceiveAtServiceB` | SharedProject/ExtendedServiceRemotingDispatcher.cs:38-45 | service B's handler runs under the correlation id and request data that the received request's headers carry |
| `Propagation.EdgeToServiceB` | SharedProject/ExtendedServiceRemotingDispatcher.cs:38-45 | service B's handler runs under the edge's correlation id and user "alice" that service A's outbound decorator wrote |
| `Propagation.NoHeadersThenOutbound` | SharedProject/ServiceRemotingRequestMessageExtensions.cs:37-41 | a request with no headers runs under Guid.Empty and null request data, and an outbound request made under that context raises NullReferenceException without reaching the transport |

## Left out

- The byte format of `Serialize`/`Deserialize` (a binary formatter written through a deflate stream) is foreign library code. The codec is a parameter, and only the round-trip property is assumed of it. For the same reason the model does not capture that `GetBuffer()` returns the whole stream buffer rather than the written length.
- The logical call context (`CallContext.LogicalGetData`/`LogicalSetData`/`FreeNamedDataSlot`) and the `new Task(...)`/`Unwrap` scheduling are left out. They are .NET execution-context flow and concurrency. The slot is one field seen by one sequential call chain, so isolation between concurrent calls is not modelled.
- `ServiceRequestContexts.CallContext.RunInRequestContext`: the post-state `slot == None` is the logical call context of the task the method starts, not the caller's. Copy-on-write flow of the logical call context into and out of that task is not modelled, so the model does not show that a caller's own `Current` is unchanged by the call. The same holds for `RunInRequestContextResult` and for `Dispatcher.ExtendedDispatcher.HandleRequestResponse`, which calls it.
- `ServiceRequestContexts.CallContext.RunInRequestContext`: the action is a call of a handler with the arguments it captures (`Action`), not an arbitrary delegate. So a handler in the model cannot itself make an outbound call inside the scope. `Propagation.NoHeadersThenOutbound` re-installs the context the handler saw to stand for such a call. The handler's answer is fixed per handler, not computed from the request.
- `ServiceRequestContexts.CallContext.RunInRequestContextResult`: the same restriction on the action.
- The finalizer that disposes the inner client is left out because it runs under the garbage collector, at no fixed time.
- What Service Fabric's `AddHeader` does with a duplicate key is not part of this model. It is assumed to replace the earlier value.
- Partitions, endpoints, retry settings, exception information, body factories and replica selectors are opaque values passed through. Cancellation tokens are dropped.
- `ClientFactory.ExtendedFactory.GetClient`: a failure of the inner factory's `GetClientAsync` is not modelled. It would pass through unchanged.
- `ClientFactory.ExtendedFactory.GetClientForPartition`: likewise.
- Removing an event subscriber (`-=`) is not modelled. The source only adds.
- `RequestDatas.Default`: `RequestData` is a value here, because the core never changes one after building it. So the fact that each read of `Default` gives a fresh mutable instance holds trivially and is not shown as object identity.
- `SharedProject/ExtendedFabricTransportServiceRemotingProviderAttribute.cs` is not part of this model. It only wires the listener and the factory. `SharedProject/Services.cs` (interface declarations) and the two demo services (`ServiceOne/ServiceOne.cs`, `StatelesTwo/StatelesTwo.cs`, which only wait) are left out too.
