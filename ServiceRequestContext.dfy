/** The ambient request context: the context object, the process-wide "current context" slot
  * and the two `RunInRequestContext` overloads that install a context around an action. */
module ServiceRequestContexts {
  import opened Wrappers
  import opened Guids
  import opened RequestDatas
  import opened Remoting

  /** One request's context. Both properties have private setters and are set only by the
    * constructor, so they are constants. */
  class ServiceRequestContext {
    const correlationId: Guid
    const requestData: Option<RequestData>

    constructor(correlationId: Guid, requestData: Option<RequestData>)
      ensures this.correlationId == correlationId && this.requestData == requestData
    {
      this.correlationId := correlationId;
      this.requestData := requestData;
    }

    /** Present only to satisfy the interface: it always raises. */
    method GetRequestDataOrDefault() returns (r: Result<RequestData>)
      ensures r == Failure(NotImplemented)
    {
      r := Failure(NotImplemented);
    }
  }

  /** What the wrapped handler received, and what `Current` held while it ran. */
  datatype HandlerCall = HandlerCall(requestContext: RequestContext, message: RequestMessage,
                                     current: ServiceRequestContext?)

  /** The work run inside a request context: the base dispatcher's `HandleRequestResponseAsync`,
    * which reaches the service method. It records each call and answers with a fixed outcome. */
  class RemotingHandler {
    var calls: seq<HandlerCall>
    const reply: Result<Response>

    constructor(reply: Result<Response>)
      ensures calls == [] && this.reply == reply
    {
      calls := [];
      this.reply := reply;
    }

    method Handle(context: CallContext, requestContext: RequestContext, message: RequestMessage)
      returns (r: Result<Response>)
      modifies this
      ensures calls == old(calls) + [HandlerCall(requestContext, message, context.Current())]
      ensures r == reply
    {
      calls := calls + [HandlerCall(requestContext, message, context.Current())];
      r := reply;
    }
  }

  /** The action passed to `RunInRequestContext`: a call of `handler` with the arguments it captures. */
  datatype Action = Action(handler: RemotingHandler, requestContext: RequestContext, message: RequestMessage)

  /** `after` extends `before` by exactly one call of the action, made while `Current` held a
    * context carrying `correlationId` and `requestData`. */
  ghost predicate RanOnceUnder(before: seq<HandlerCall>, after: seq<HandlerCall>, action: Action,
                               correlationId: Guid, requestData: Option<RequestData>)
  {
    && |after| == |before| + 1
    && after[..|before|] == before
    && after[|before|].requestContext == action.requestContext
    && after[|before|].message == action.message
    && after[|before|].current != null
    && after[|before|].current.correlationId == correlationId
    && after[|before|].current.requestData == requestData
  }

  /** The named logical-call-context slot behind the static `ServiceRequestContext.Current`.
    * `None` is a freed slot. */
  class CallContext {
    var slot: Option<ServiceRequestContext>

    constructor()
      ensures slot == None
    {
      slot := None;
    }

    /** The getter: a freed slot reads as null. */
    function Current(): (c: ServiceRequestContext?)
      reads this
      ensures c == null <==> slot.None?
      ensures slot.Some? ==> c == slot.value
    {
      match slot
      case None => null
      case Some(x) => x
    }

    /** The setter: null frees the slot, anything else is stored. */
    method SetCurrent(value: ServiceRequestContext?)
      modifies this
      ensures value == null ==> slot == None
      ensures value != null ==> slot == Some(value)
      ensures Current() == value
    {
      if value == null {
        slot := None;
      } else {
        slot := Some(value);
      }
    }

    /** `RunInRequestContext(Func<Task>, ...)`: installs a new context, runs the action once and
      * then clears the slot, whether the action succeeded or raised. In the source both writes
      * happen inside the started task, so they change that task's copy of the logical call
      * context; the one slot here stands for that copy, not for the caller's. */
    method RunInRequestContext(action: Action, correlationId: Guid, requestData: Option<RequestData>)
      returns (r: Outcome)
      modifies this, action.handler
      ensures RanOnceUnder(old(action.handler.calls), action.handler.calls, action, correlationId, requestData)
      ensures fresh(action.handler.calls[|old(action.handler.calls)|].current)
      ensures action.handler.reply.Success? ==> r == Pass
      ensures action.handler.reply.Failure? ==> r == Fail(action.handler.reply.error)
      ensures slot == None && Current() == null
    {
      var installed := new ServiceRequestContext(correlationId, requestData);
      SetCurrent(installed);
      var outcome := action.handler.Handle(this, action.requestContext, action.message);
      SetCurrent(null);
      r := if outcome.Success? then Pass else Fail(outcome.error);
    }

    /** `RunInRequestContext<TResult>(Func<Task<TResult>>, ...)`: as above, and the action's result,
      * or the exception it raised, is passed on unchanged. */
    method RunInRequestContextResult(action: Action, correlationId: Guid, requestData: Option<RequestData>)
      returns (r: Result<Response>)
      modifies this, action.handler
      ensures RanOnceUnder(old(action.handler.calls), action.handler.calls, action, correlationId, requestData)
      ensures fresh(action.handler.calls[|old(action.handler.calls)|].current)
      ensures r == action.handler.reply
      ensures slot == None && Current() == null
    {
      var installed := new ServiceRequestContext(correlationId, requestData);
      SetCurrent(installed);
      r := action.handler.Handle(this, action.requestContext, action.message);
      SetCurrent(null);
    }
  }
}
