/**
 * NetShape.Core.Connectors.IConnector: a connector that raises
 * OnRequestReceived for inbound requests and sends responses back. The
 * interface fixes no behaviour; the connector here checks and pushes a
 * response the way every connector of the repository does. No connector
 * implements the raising side, so nothing here raises the event: a raised
 * request is modelled by Events.InvokeAll over onRequestReceived.
 */
module CoreConnectors {
  import opened Models
  import opened Collaborators
  import opened Events
  import Connectors

  class Connector<Q, S> {
    /** The OnRequestReceived event's invocation list. */
    var onRequestReceived: seq<RequestHandler<Q>>
    /** Where responses are pushed. */
    const clients: HubContext<S>

    constructor (clients: HubContext<S>)
      ensures this.clients == clients && onRequestReceived == []
    {
      this.clients := clients;
      onRequestReceived := [];
    }

    /** `OnRequestReceived += handler` */
    method Subscribe(handler: RequestHandler<Q>)
      modifies this
      ensures onRequestReceived == old(onRequestReceived) + [handler]
    {
      onRequestReceived := onRequestReceived + [handler];
    }

    /**
     * SendResponseAsync(connectionId, response): a missing connection id is
     * rejected before any push; otherwise the response is pushed to that one
     * connection, and a transport failure is rethrown.
     */
    method SendResponse(connectionId: Option<string>, response: Response<S>) returns (o: Outcome)
      modifies clients
      ensures o == Connectors.SendOutcome(connectionId, Some(response), clients.available)
      ensures clients.sent == old(clients.sent) + Connectors.Pushed(connectionId, Some(response), clients.available)
    {
      o := Connectors.SendToClient(clients, connectionId, Some(response));
    }
  }
}
