/**
 * NetShape.Connectors.SignalR: the connector that forwards requests from the
 * hub to the request receiver and pushes responses through an IHubContext,
 * and the RequestHub clients call.
 */
module SignalR {
  import opened Models
  import opened Collaborators
  import opened Events
  import opened Connectors

  class SignalRConnector<Q, S> {
    const logger: Logger
    const requestReceiver: RequestReceiver<Q>
    const hubContext: HubContext<S>

    constructor Init(logger: Logger, requestReceiver: RequestReceiver<Q>, hubContext: HubContext<S>)
      ensures this.logger == logger && this.requestReceiver == requestReceiver && this.hubContext == hubContext
    {
      this.logger, this.requestReceiver, this.hubContext := logger, requestReceiver, hubContext;
    }

    /** The constructor's null checks: logger, then requestReceiver, then hubContext. */
    static function ConstructorCheck(logger: bool, requestReceiver: bool, hubContext: bool): (r: Outcome)
      ensures !logger ==> r == Fail(ArgumentNull("logger"))
      ensures logger && !requestReceiver ==> r == Fail(ArgumentNull("requestReceiver"))
      ensures logger && requestReceiver && !hubContext ==> r == Fail(ArgumentNull("hubContext"))
      ensures r.Pass? <==> logger && requestReceiver && hubContext
    {
      var deps := [Dependency("logger", logger), Dependency("requestReceiver", requestReceiver),
                   Dependency("hubContext", hubContext)];
      assert deps[0].name == "logger" && deps[1].name == "requestReceiver" && deps[2].name == "hubContext";
      CheckNotNull(deps)
    }

    static method Create(logger: Logger?, requestReceiver: RequestReceiver?<Q>, hubContext: HubContext?<S>)
      returns (r: Result<SignalRConnector<Q, S>>)
      ensures var check := ConstructorCheck(logger != null, requestReceiver != null, hubContext != null);
        (r.Err? <==> check.Fail?) && (r.Err? ==> r.error == check.error)
      ensures r.Ok? ==> (fresh(r.value) && r.value.logger == logger &&
                         r.value.requestReceiver == requestReceiver && r.value.hubContext == hubContext)
    {
      var check := ConstructorCheck(logger != null, requestReceiver != null, hubContext != null);
      if check.Fail? {
        r := Err(check.error);
      } else {
        var connector := new SignalRConnector.Init(logger, requestReceiver, hubContext);
        r := Ok(connector);
      }
    }

    /**
     * SendRequestAsync: rejected before anything is forwarded when the id or
     * the payload is missing; otherwise one request carrying exactly the
     * three arguments goes to the receiver, whose exception is rethrown.
     */
    method SendRequest(requestId: Option<string>, data: Option<Q>, connectionId: Option<string>)
      returns (o: Outcome)
      modifies ListsOf(requestReceiver.onRequestReceived)
      ensures var checked := CheckRequest(requestId, data, connectionId);
        checked.Err? ==>
          o == Fail(checked.error) && unchanged(ListsOf(requestReceiver.onRequestReceived))
      ensures var checked := CheckRequest(requestId, data, connectionId);
        checked.Ok? ==>
          o == ReceiveOutcome(requestReceiver.onRequestReceived) &&
          Dispatched(requestReceiver.onRequestReceived, checked.value)
    {
      var checked := CheckRequest(requestId, data, connectionId);
      if checked.Err? {
        o := Fail(checked.error);
      } else {
        o := requestReceiver.ReceiveRequest(checked.value);
      }
    }

    /**
     * SendResponseAsync: rejects a missing connection id, then a missing
     * response, before any push; otherwise pushes the response to that one
     * connection and rethrows a transport failure.
     */
    method SendResponse(connectionId: Option<string>, response: Option<Response<S>>) returns (o: Outcome)
      modifies hubContext
      ensures o == SendOutcome(connectionId, response, hubContext.available)
      ensures hubContext.sent == old(hubContext.sent) + Pushed(connectionId, response, hubContext.available)
    {
      o := SendToClient(hubContext, connectionId, response);
    }
  }

  const EmptyIdMessage := "The request ID cannot be empty."
  const NullDataMessage := "The request data cannot be null."
  const GenericFailureMessage := "An error occurred while processing your request."

  /**
   * RequestHub.SendRequest's own checks, reported to the calling client as a
   * HubException: a missing id first, then a missing payload.
   */
  function HubCheck(requestId: Option<string>, data: Option<string>): (r: Outcome)
    ensures IsNullOrEmpty(requestId) ==> r == Fail(HubError(EmptyIdMessage))
    ensures !IsNullOrEmpty(requestId) && data.None? ==> r == Fail(HubError(NullDataMessage))
    ensures r.Pass? <==> !IsNullOrEmpty(requestId) && data.Some?
  {
    if IsNullOrEmpty(requestId) then Fail(HubError(EmptyIdMessage))
    else if data.None? then Fail(HubError(NullDataMessage))
    else Pass
  }

  /**
   * Whatever the connector throws, the client sees one fixed HubException;
   * the original exception never reaches the client.
   */
  function Masked(downstream: Outcome): (r: Outcome)
    ensures r.Pass? <==> downstream.Pass?
    ensures r.Fail? ==> r.error == HubError(GenericFailureMessage)
  {
    if downstream.Pass? then Pass else Fail(HubError(GenericFailureMessage))
  }

  /** A hub's checks always pass for what the connector then accepts. */
  lemma {:induction false} HubCheckImpliesConnectorCheck(requestId: Option<string>, data: Option<string>, connectionId: string)
    requires HubCheck(requestId, data).Pass?
    ensures CheckRequest(requestId, data, Some(connectionId)).Ok?
    ensures CheckRequest(requestId, data, Some(connectionId)).value ==
      Request(requestId.value, Some(connectionId), data.value)
  {
  }

  /**
   * The hub clients call. Its constructor checks nothing, so the logger and
   * the connector may be null. With a null logger the first log call, a
   * logging extension method, throws ArgumentNullException("logger"); a
   * null connector fails inside the forwarding try.
   */
  class RequestHub {
    const logger: Logger?
    const connector: SignalRConnector?<string, string>

    constructor (logger: Logger?, connector: SignalRConnector?<string, string>)
      ensures this.logger == logger && this.connector == connector
    {
      this.logger, this.connector := logger, connector;
    }

    /** The Redis lists a forwarded request may be enqueued on. */
    ghost function Lists(): set<object>
      reads if connector == null then {} else {connector.requestReceiver}
    {
      if connector == null then {} else ListsOf(connector.requestReceiver.onRequestReceived)
    }

    /**
     * A client's request from connection `contextConnectionId`: a missing id
     * or payload is answered with its HubException and nothing is forwarded;
     * otherwise `(requestId, data, contextConnectionId)` is forwarded once,
     * and any failure behind it becomes the generic HubException.
     */
    method SendRequest(requestId: Option<string>, data: Option<string>, contextConnectionId: string)
      returns (o: Outcome)
      modifies Lists()
      ensures logger == null ==> o == Fail(ArgumentNull("logger")) && unchanged(Lists())
      ensures logger != null && HubCheck(requestId, data).Fail? ==>
        o == HubCheck(requestId, data) && unchanged(Lists())
      ensures logger != null && HubCheck(requestId, data).Pass? && connector == null ==>
        o == Fail(HubError(GenericFailureMessage))
      ensures logger != null && HubCheck(requestId, data).Pass? && connector != null ==>
        var handlers := connector.requestReceiver.onRequestReceived;
        o == Masked(ReceiveOutcome(handlers)) &&
        Dispatched(handlers, Request(requestId.value, Some(contextConnectionId), data.value))
    {
      if logger == null {
        o := Fail(ArgumentNull("logger"));
        return;
      }
      var check := HubCheck(requestId, data);
      if check.Fail? {
        o := check;
      } else if connector == null {
        o := Fail(HubError(GenericFailureMessage));
      } else {
        var downstream := connector.SendRequest(requestId, data, Some(contextConnectionId));
        o := Masked(downstream);
      }
    }
  }
}
