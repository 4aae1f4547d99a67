/**
 * NetShape.Connectors: the RequestReceiver that raises OnRequestReceived for
 * inbound requests, the hub-based SignalRConnector, and the argument checks
 * every connector starts its calls with.
 */
module Connectors {
  import opened Models
  import opened Collaborators
  import opened Events

  const NoSubscribersMessage := "There are no subscribers to handle the request."

  /**
   * The checks before a request is built: a null or empty request id is an
   * ArgumentException, then a null payload an ArgumentNullException. The
   * connection id is not checked. A request that passes carries exactly the
   * three values it was given.
   */
  function CheckRequest<Q>(requestId: Option<string>, data: Option<Q>, connectionId: Option<string>): (r: Result<Request<Q>>)
    ensures IsNullOrEmpty(requestId) ==> r == Err(Argument("requestId"))
    ensures !IsNullOrEmpty(requestId) && data.None? ==> r == Err(ArgumentNull("data"))
    ensures r.Ok? <==> !IsNullOrEmpty(requestId) && data.Some?
    ensures r.Ok? ==>
      Some(r.value.requestId) == requestId && r.value.connectionId == connectionId && Some(r.value.data) == data
  {
    if IsNullOrEmpty(requestId) then Err(Argument("requestId"))
    else if data.None? then Err(ArgumentNull("data"))
    else Ok(Request(requestId.value, connectionId, data.value))
  }

  /**
   * The checks before a response is pushed: a null or empty connection id is
   * an ArgumentException, then a null response an ArgumentNullException.
   */
  function CheckResponse<S>(connectionId: Option<string>, response: Option<Response<S>>): (r: Outcome)
    ensures IsNullOrEmpty(connectionId) ==> r == Fail(Argument("connectionId"))
    ensures !IsNullOrEmpty(connectionId) && response.None? ==> r == Fail(ArgumentNull("response"))
    ensures r.Pass? <==> !IsNullOrEmpty(connectionId) && response.Some?
  {
    if IsNullOrEmpty(connectionId) then Fail(Argument("connectionId"))
    else if response.None? then Fail(ArgumentNull("response"))
    else Pass
  }

  /** What SendResponseAsync pushes: one delivery when the checks pass and the transport is up. */
  function Pushed<S>(connectionId: Option<string>, response: Option<Response<S>>, available: bool): seq<Delivery<S>>
  {
    if CheckResponse(connectionId, response).Pass? && available
    then [Delivery(connectionId.value, response.value)] else []
  }

  /** How SendResponseAsync completes: the check's exception, the transport's, or success. */
  function SendOutcome<S>(connectionId: Option<string>, response: Option<Response<S>>, available: bool): Outcome
  {
    var check := CheckResponse(connectionId, response);
    if check.Fail? then check
    else if available then Pass
    else Fail(TransportFailure(connectionId.value))
  }

  /**
   * SendResponseAsync, shared by the connectors: checks, then pushes the
   * response to that one connection; a transport failure is rethrown.
   */
  method SendToClient<S>(clients: HubContext<S>, connectionId: Option<string>, response: Option<Response<S>>)
    returns (o: Outcome)
    modifies clients
    ensures o == SendOutcome(connectionId, response, clients.available)
    ensures clients.sent == old(clients.sent) + Pushed(connectionId, response, clients.available)
  {
    var check := CheckResponse(connectionId, response);
    if check.Fail? {
      o := check;
    } else {
      o := clients.SendAsync(connectionId.value, response.value);
    }
  }

  /** How ReceiveRequestAsync completes with these subscribers. */
  function ReceiveOutcome<Q>(handlers: seq<RequestHandler<Q>>): Outcome
    reads StoresOf(handlers)
  {
    if handlers == [] then Fail(InvalidOperation(NoSubscribersMessage))
    else
      var last := handlers[|handlers| - 1];
      assert last.requestQueue != null ==> last.requestQueue.list.store in StoresOf(handlers);
      last.Expected()
  }

  class RequestReceiver<Q> {
    const logger: Logger
    /** The OnRequestReceived event's invocation list; empty is a null event. */
    var onRequestReceived: seq<RequestHandler<Q>>

    constructor Init(logger: Logger)
      ensures this.logger == logger && onRequestReceived == []
    {
      this.logger := logger;
      onRequestReceived := [];
    }

    /** `new RequestReceiver(logger)`: a null logger is an ArgumentNullException. */
    static method Create(logger: Logger?) returns (r: Result<RequestReceiver<Q>>)
      ensures r.Err? <==> logger == null
      ensures r.Err? ==> r.error == ArgumentNull("logger")
      ensures r.Ok? ==> fresh(r.value) && r.value.logger == logger && r.value.onRequestReceived == []
    {
      if logger == null {
        r := Err(ArgumentNull("logger"));
      } else {
        var receiver := new RequestReceiver.Init(logger);
        r := Ok(receiver);
      }
    }

    /** `OnRequestReceived += handler` */
    method Subscribe(handler: RequestHandler<Q>)
      modifies this
      ensures onRequestReceived == old(onRequestReceived) + [handler]
    {
      onRequestReceived := onRequestReceived + [handler];
    }

    /**
     * With no subscriber: an InvalidOperationException, nothing enqueued.
     * Otherwise every subscriber is handed this very request, and a handler's
     * exception is rethrown unchanged.
     */
    method ReceiveRequest(request: Request<Q>) returns (o: Outcome)
      modifies ListsOf(onRequestReceived)
      ensures o == ReceiveOutcome(onRequestReceived)
      ensures Dispatched(onRequestReceived, request)
    {
      if onRequestReceived != [] {
        o := InvokeAll(onRequestReceived, request);
      } else {
        o := Fail(InvalidOperation(NoSubscribersMessage));
      }
    }
  }

  /**
   * The SignalRConnector that is itself the hub: requests arrive on
   * SendRequest with the caller's connection id, responses leave through the
   * hub's own Clients.
   */
  class SignalRConnector<Q, S> {
    const logger: Logger
    const requestReceiver: RequestReceiver<Q>
    /** Hub.Clients, supplied by the hub framework rather than the constructor. */
    const clients: HubContext<S>

    constructor Init(logger: Logger, requestReceiver: RequestReceiver<Q>, clients: HubContext<S>)
      ensures this.logger == logger && this.requestReceiver == requestReceiver && this.clients == clients
    {
      this.logger, this.requestReceiver, this.clients := logger, requestReceiver, clients;
    }

    /** The constructor's null checks: logger, then requestReceiver. */
    static function ConstructorCheck(logger: bool, requestReceiver: bool): (r: Outcome)
      ensures !logger ==> r == Fail(ArgumentNull("logger"))
      ensures logger && !requestReceiver ==> r == Fail(ArgumentNull("requestReceiver"))
      ensures r.Pass? <==> logger && requestReceiver
    {
      var deps := [Dependency("logger", logger), Dependency("requestReceiver", requestReceiver)];
      assert deps[0].name == "logger" && deps[1].name == "requestReceiver";
      CheckNotNull(deps)
    }

    static method Create(logger: Logger?, requestReceiver: RequestReceiver?<Q>, clients: HubContext<S>)
      returns (r: Result<SignalRConnector<Q, S>>)
      ensures var check := ConstructorCheck(logger != null, requestReceiver != null);
        (r.Err? <==> check.Fail?) && (r.Err? ==> r.error == check.error)
      ensures r.Ok? ==> (fresh(r.value) && r.value.logger == logger &&
                         r.value.requestReceiver == requestReceiver && r.value.clients == clients)
    {
      var check := ConstructorCheck(logger != null, requestReceiver != null);
      if check.Fail? {
        r := Err(check.error);
      } else {
        var connector := new SignalRConnector.Init(logger, requestReceiver, clients);
        r := Ok(connector);
      }
    }

    /**
     * A client's request: rejected before anything is forwarded when the id
     * or the payload is missing; otherwise one request with the given id, the
     * caller's connection id and the payload goes to the receiver, whose
     * exception is rethrown.
     */
    method SendRequest(requestId: Option<string>, data: Option<Q>, callerConnectionId: string)
      returns (o: Outcome)
      modifies ListsOf(requestReceiver.onRequestReceived)
      ensures var checked := CheckRequest(requestId, data, Some(callerConnectionId));
        checked.Err? ==>
          o == Fail(checked.error) && unchanged(ListsOf(requestReceiver.onRequestReceived))
      ensures var checked := CheckRequest(requestId, data, Some(callerConnectionId));
        checked.Ok? ==>
          o == ReceiveOutcome(requestReceiver.onRequestReceived) &&
          Dispatched(requestReceiver.onRequestReceived, checked.value)
    {
      var checked := CheckRequest(requestId, data, Some(callerConnectionId));
      if checked.Err? {
        o := Fail(checked.error);
      } else {
        o := requestReceiver.ReceiveRequest(checked.value);
      }
    }

    /** SendResponseAsync through the hub's Clients. */
    method SendResponse(connectionId: Option<string>, response: Option<Response<S>>) returns (o: Outcome)
      modifies clients
      ensures o == SendOutcome(connectionId, response, clients.available)
      ensures clients.sent == old(clients.sent) + Pushed(connectionId, response, clients.available)
    {
      o := SendToClient(clients, connectionId, response);
    }
  }
}
