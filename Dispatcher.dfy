/** The inbound decorator: reads the two context headers of an incoming request and runs the
  * base handler inside a request context built from them. */
module Dispatcher {
  import opened Wrappers
  import opened Guids
  import opened RequestDatas
  import opened Remoting
  import opened MessageExtensions
  import opened ServiceRequestContexts

  class ExtendedDispatcher {
    /** The base `ServiceRemotingMessageDispatcher` behaviour that the override wraps. */
    const base: RemotingHandler
    const context: CallContext
    const codec: Codec

    constructor(base: RemotingHandler, context: CallContext, codec: Codec)
      ensures this.base == base && this.context == context && this.codec == codec
    {
      this.base := base;
      this.context := context;
      this.codec := codec;
    }

    /** `HandleRequestResponseAsync`. A malformed correlation header or request-data header raises
      * before any context is installed; absent headers are not an error. */
    method HandleRequestResponse(requestContext: RequestContext, message: RequestMessage)
      returns (r: Result<Response>)
      modifies context, base
      ensures GetCorrelationId(message.headers).Failure? ==>
                && r == Failure(GetCorrelationId(message.headers).error)
                && base.calls == old(base.calls) && context.slot == old(context.slot)
      ensures GetCorrelationId(message.headers).Success? && GetRequestData(message.headers, codec).Failure? ==>
                && r == Failure(GetRequestData(message.headers, codec).error)
                && base.calls == old(base.calls) && context.slot == old(context.slot)
      ensures GetCorrelationId(message.headers).Success? && GetRequestData(message.headers, codec).Success? ==>
                && RanOnceUnder(old(base.calls), base.calls, Action(base, requestContext, message),
                                GetCorrelationId(message.headers).value,
                                GetRequestData(message.headers, codec).value)
                && r == base.reply
                && context.slot == None
      ensures CorrelationIdHeaderKey !in message.headers && RequestDataHeaderKey !in message.headers ==>
                && RanOnceUnder(old(base.calls), base.calls, Action(base, requestContext, message), Empty, None)
                && r == base.reply
    {
      var correlationId := GetCorrelationId(message.headers);
      if correlationId.Failure? {
        return Failure(correlationId.error);
      }
      var requestData := GetRequestData(message.headers, codec);
      if requestData.Failure? {
        return Failure(requestData.error);
      }
      r := context.RunInRequestContextResult(Action(base, requestContext, message),
                                             correlationId.value, requestData.value);
    }
  }
}
