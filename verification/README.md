# NetShape coordination layer in Dafny

NetShape is a request/response pipeline for .NET. Clients call a SignalR hub.
The hub forwards each request through a connector to a request receiver. The
receiver raises an `OnRequestReceived` event, and the coordinators subscribed
to it enqueue the request on a queue. Background loops then drain the queues:

- `ProcessorCoordinator` runs each request through a processor and enqueues
  a correlated response.
- `ReceiverCoordinator` sends each queued response back to the connection
  it names.
- The unified `Coordinator` processes and sends in one loop.
- Two older coordinators under `Core/` do the same with fewer checks.

This project models that layer as Dafny classes and proves what each
operation does.

- **Queues.** `InMemoryQueueService` and `RedisQueueService` are queues whose
  contents are a `seq` field. Both are tied to one FIFO contract
  (`QueueContract.Apply`). A Redis list is an object of its store, looked up
  by name, so two services with the same store and name share one list.
- **Inbound path.** This covers:
  - the argument checks of the two SignalR connectors and of `RequestHub`;
  - `RequestReceiver`'s dispatch;
  - the multicast invocation of the event, in which every subscribed
    handler runs in order and the caller awaits the last handler's task.
- **Coordinators.** Each coordinator is a class with:
  - a `Create` method that performs the constructor's null checks and
    subscription;
  - `Start` and `Stop` over the nullable token-source field;
  - a `Step` method for one pass of the polling loop;
  - a `Run` method for a bounded number of passes, proved against
    specification functions (`Responses`, `Deliveries`, `AllSent`) that are
    themselves related to the requests by lemmas.
- **Environment.** The following are parameters of the model:
  - processing is a total function `Q -> Result<S>`;
  - whether the Redis store and the client transport can be reached is a
    flag;
  - pushes to clients are recorded in a ghost log.

Cancellation is a flag that the loop reads at its head. The idle delay is a
pass that changes nothing.

Where the code and its design description disagree, the model follows the
code:

- `StartAsync` has no guard against a second start. It overwrites the token
  source and the task, and the loop already running is left as it is.
- In every coordinator loop the dequeue is outside the per-item `try`, so a
  failing dequeue ends the loop and faults its task.
- The responses built by `Coordinator.cs` and `Core/Coordinator.cs` carry no
  connection id. Only the send is addressed.
- `ReceiverCoordinator` does not check `requestReceiver` for null. It
  dereferences it to subscribe.

## Model

| member | source | states |
|---|---|---|
| Models.CheckNotNull | NetShape/NetShape/ProcessorCoordinator.cs:25-28 | Passes exactly when every dependency is present; otherwise the ArgumentNull error names the first missing one in parameter order |
| QueueContract.Fifo | NetShape/NetShape/Core/Queues/InMemoryQueueService.cs:12-27 | For any run of puts and takes, what was taken followed by what remains equals the initial contents followed by everything put, so nothing is lost, duplicated or reordered |
| QueueContract.TakenInPutOrder | NetShape/NetShape/Core/Queues/InMemoryQueueService.cs:14-27 | Starting from an empty queue, the items a consumer has taken are the first items put, in put order |
| QueueContract.PutThenTake | NetShape/NetShape.Tests/Queue.Tests/QueueServiceTests.cs:15-19 | Putting X into an empty queue and then taking gives back X and leaves the queue empty |
| InMemoryQueue.InMemoryQueueService.Enqueue | NetShape/NetShape/Core/Queues/InMemoryQueueService.cs:14-18 | Appends the item at the tail with no check and no failure; this is the contract's Put |
| InMemoryQueue.InMemoryQueueService.Dequeue | NetShape/NetShape/Core/Queues/InMemoryQueueService.cs:20-27 | A non-empty queue gives its head and keeps the rest unchanged; an empty queue gives None and stays empty; this is the contract's Take |
| RedisQueue.RedisStore.ListFor | NetShape/NetShape/Queues/RedisQueueService.cs:42-44 | The same name in the same store always reaches the same list; a new name reaches a fresh empty list, and no other list changes |
| RedisQueue.RedisList.RightPush | NetShape/NetShape/Queues/RedisQueueService.cs:44 | When the store can be reached, appends at the tail and answers the new length; otherwise the list is unchanged and the call fails |
| RedisQueue.RedisList.LeftPop | NetShape/NetShape/Queues/RedisQueueService.cs:64 | When the store can be reached, removes and answers the head, or answers nothing for an empty list; otherwise the list is unchanged and the call fails |
| RedisQueue.RedisQueueService.ConstructorCheck | NetShape/NetShape/Queues/RedisQueueService.cs:20-22 | A missing redis, then queueName, then logger is reported as ArgumentNull naming that parameter; passes iff all three are present |
| RedisQueue.RedisQueueService.Create | NetShape/NetShape/Queues/RedisQueueService.cs:18-23 | Fails exactly as the checks say, leaving the store untouched; otherwise the service works on the list with that name in that store, which is shared with any earlier service for that name |
| RedisQueue.RedisQueueService.Enqueue | NetShape/NetShape/Queues/RedisQueueService.cs:32-53 | A null item is rejected with ArgumentNull("item") before the store is touched; a store failure is rethrown with the list unchanged; otherwise the item goes to the tail, the new length is answered, and the call is the contract's Put |
| RedisQueue.RedisQueueService.Dequeue | NetShape/NetShape/Queues/RedisQueueService.cs:59-81 | A store failure is rethrown with the list unchanged; an empty list answers None and stays empty; otherwise the head is answered and removed; with the store reachable the call is the contract's Take |
| Events.RequestHandler.Invoke | NetShape/NetShape/ReceiverCoordinator.cs:33-39 | OnRequestReceivedAsync enqueues the request it is handed, unchanged, exactly once. A store failure becomes the handler's exception and leaves the queue unchanged; a null queue is a NullReference |
| Events.SubscribedOnce | NetShape/NetShape/Connectors/RequestReceiver.cs:24 | A list that only one subscribed handler writes to receives exactly one copy of each raised request |
| Events.NoneSubscribed | NetShape/NetShape/Connectors/RequestReceiver.cs:24 | A list that no subscribed handler writes to receives nothing |
| Events.InvokeAll | NetShape/NetShape/Connectors/RequestReceiver.cs:24 | Raising the event runs every handler in order. Each reachable list gains one copy of the request per handler that writes to it, an unreachable list is untouched, and the outcome is the last handler's |
| Connectors.CheckRequest | NetShape/NetShape/Connectors/SignalRConnector.cs:32-55 | A null or empty request id is an ArgumentException for requestId, checked before the data; null data is ArgumentNull("data"); a request that passes carries exactly the given id, connection id and data, and the connection id is not checked |
| Connectors.CheckResponse | NetShape/NetShape/Connectors/SignalRConnector.cs:71-81 | A null or empty connection id is an ArgumentException, then a null response is an ArgumentNullException; passes iff both are present |
| Connectors.SendToClient | NetShape/NetShape/Connectors/SignalRConnector.cs:69-94 | A rejected send pushes nothing. Otherwise exactly one push of that response to that connection happens when the transport is up, and a transport failure is rethrown |
| Connectors.RequestReceiver.Create | NetShape/NetShape/Connectors/RequestReceiver.cs:13-16 | A null logger is ArgumentNull("logger"); otherwise the receiver starts with no subscriber |
| Connectors.RequestReceiver.Subscribe | NetShape/NetShape/Connectors/RequestReceiver.cs:9 | Adds the handler at the end of the event's invocation list |
| Connectors.RequestReceiver.ReceiveRequest | NetShape/NetShape/Connectors/RequestReceiver.cs:18-37 | With no subscriber it fails with InvalidOperation. Otherwise every subscriber is handed this very request, with the effect InvokeAll states, and a handler's exception is rethrown unchanged |
| Connectors.SignalRConnector.ConstructorCheck | NetShape/NetShape/Connectors/SignalRConnector.cs:21-22 | A missing logger, then requestReceiver, is ArgumentNull naming it; passes iff both are present |
| Connectors.SignalRConnector.Create | NetShape/NetShape/Connectors/SignalRConnector.cs:17-23 | Fails exactly as the checks say; otherwise it keeps the logger and receiver it was given |
| Connectors.SignalRConnector.SendRequest | NetShape/NetShape/Connectors/SignalRConnector.cs:30-62 | A rejected request forwards nothing. Otherwise one request with the given id, the caller's connection id and the data is dispatched, and the receiver's exception is rethrown |
| Connectors.SignalRConnector.SendResponse | NetShape/NetShape/Connectors/SignalRConnector.cs:69-94 | Checks the connection id, then the response, before any push; then pushes once to that connection and rethrows a transport failure |
| SignalR.SignalRConnector.ConstructorCheck | NetShape/NetShape/Connectors/SignalR/SignalRConnector.cs:22-24 | A missing logger, then requestReceiver, then hubContext is ArgumentNull naming it; passes iff all three are present |
| SignalR.SignalRConnector.Create | NetShape/NetShape/Connectors/SignalR/SignalRConnector.cs:17-25 | Fails exactly as the checks say; otherwise it keeps the three dependencies |
| SignalR.SignalRConnector.SendRequest | NetShape/NetShape/Connectors/SignalR/SignalRConnector.cs:33-65 | A rejected request forwards nothing. Otherwise one request carrying exactly the three arguments is dispatched, and the receiver's exception is rethrown |
| SignalR.SignalRConnector.SendResponse | NetShape/NetShape/Connectors/SignalR/SignalRConnector.cs:72-97 | Checks the connection id, then the response, before any push; then pushes once through the hub context and rethrows a transport failure |
| SignalR.HubCheck | NetShape/NetShape/Connectors/SignalR/RequestHub.cs:25-35 | A missing id, then missing data, is a HubException with its own fixed message; passes iff both are present |
| SignalR.Masked | NetShape/NetShape/Connectors/SignalR/RequestHub.cs:41-49 | Any downstream failure becomes the one generic HubException, so the original never reaches the client; success stays success |
| SignalR.HubCheckImpliesConnectorCheck | NetShape/NetShape/Connectors/SignalR/RequestHub.cs:25-43 | A request the hub accepts also passes the connector's checks, and it becomes the request (id, data, caller's connection) |
| SignalR.RequestHub.SendRequest | NetShape/NetShape/Connectors/SignalR/RequestHub.cs:23-50 | A null logger fails on its first use, the logging extension's ArgumentNullException for "logger". A missing id or data is answered with its HubException and nothing is forwarded. Otherwise (id, data, caller's connection) is forwarded once and any failure behind it is masked |
| CoreConnectors.Connector.Subscribe | NetShape/NetShape/Core/Connectors/IConnector.cs:7 | Adds the handler at the end of OnRequestReceived's invocation list |
| CoreConnectors.Connector.SendResponse | NetShape/NetShape/Core/Connectors/IConnector.cs:8 | Checks, then pushes the response once to the given connection, as SendToClient states |
| Collaborators.Join | NetShape/NetShape/ProcessorCoordinator.cs:49-60 | Awaiting a cancelled loop: a running loop completes; a loop that already faulted keeps its status, and its exception is reported rather than rethrown |
| ProcessorCoordination.Respond | NetShape/NetShape/ProcessorCoordinator.cs:85-92 | The response exists iff processing succeeds; it carries the request's id and connection id and the processor's output; a failure is the processor's exception |
| ProcessorCoordination.ResponsesCorrelate | NetShape/NetShape/ProcessorCoordinator.cs:85-94 | Every enqueued response is the response to one of the handled requests, and there are never more responses than requests |
| ProcessorCoordination.FailedRequestUnanswered | NetShape/NetShape/ProcessorCoordinator.cs:98-101 | With distinct request ids, no enqueued response carries the id of a request the processor failed on |
| ProcessorCoordination.AllAnswered | NetShape/NetShape.Tests/Core.Tests/ProcessorCoordinatorTests.cs:52-57 | When processing succeeds on every request, there is exactly one response per request, in request order, each correlated with its request |
| ProcessorCoordination.ProcessorCoordinator.ConstructorCheck | NetShape/NetShape/ProcessorCoordinator.cs:25-28 | A missing requestQueue, then responseQueue, processor or logger is ArgumentNull naming it; passes iff all four are present |
| ProcessorCoordination.ProcessorCoordinator.Create | NetShape/NetShape/ProcessorCoordinator.cs:19-29 | Fails exactly as the checks say; otherwise the coordinator holds its four dependencies and no token source |
| ProcessorCoordination.ProcessorCoordinator.Start | NetShape/NetShape/ProcessorCoordinator.cs:31-39 | A fresh token source linked to the caller's token, and a fresh running loop polling it, replace whatever was held |
| ProcessorCoordination.ProcessorCoordinator.Stop | NetShape/NetShape/ProcessorCoordinator.cs:41-69 | With no token source it does nothing. Otherwise it cancels, awaits the loop with its failure logged and not rethrown, then disposes and clears the source, so a second Stop does nothing |
| ProcessorCoordination.ProcessorCoordinator.Step | NetShape/NetShape/ProcessorCoordinator.cs:75-106 | Cancellation exits the loop and a failed dequeue faults it. An empty queue only idles. A request is taken from the head and its response, if processing succeeds, is enqueued; processing and enqueue failures are caught and the loop keeps running |
| ProcessorCoordination.ProcessorCoordinator.Run | NetShape/NetShape/ProcessorCoordinator.cs:71-110 | Uncancelled, with both stores reachable, n passes take the first min(n, queued) requests in FIFO order and enqueue exactly Responses of them, so failed requests are skipped and the loop keeps running; cancelled or unreachable, nothing is dequeued |
| ReceiverCoordination.Delivered | NetShape/NetShape/ReceiverCoordinator.cs:64 | Sending one response pushes at most one delivery. It pushes one iff the transport is up and the response names a connection, and that delivery carries the response to that connection |
| ReceiverCoordination.DeliveriesAddressed | NetShape/NetShape/ReceiverCoordinator.cs:56-65 | Every delivery carries one of the dequeued responses, unchanged, to the non-empty connection id that response names |
| ReceiverCoordination.AllDelivered | NetShape/NetShape.Tests/Core.Tests/ReceiverCoordinatorTests.cs:77 | With the transport up and every response addressed, each response is delivered exactly once, in queue order |
| ReceiverCoordination.NothingDeliveredWhenDown | NetShape/NetShape/ReceiverCoordinator.cs:62-71 | With the transport down every send fails and nothing reaches any client |
| ReceiverCoordination.ReceiverCoordinator.ConstructorCheck | NetShape/NetShape/ReceiverCoordinator.cs:26-29 | A missing connector, then requestQueue, responseQueue or logger is ArgumentNull naming it; passes iff all four are present |
| ReceiverCoordination.ReceiverCoordinator.Create | NetShape/NetShape/ReceiverCoordinator.cs:19-32 | Fails exactly as the checks say. A null request receiver is dereferenced, which is a NullReference. Otherwise OnRequestReceivedAsync is subscribed to the receiver's event; a rejected construction subscribes nothing |
| ReceiverCoordination.ReceiverCoordinator.Start | NetShape/NetShape/ReceiverCoordinator.cs:41-48 | A fresh linked token source and a fresh running loop replace whatever was held |
| ReceiverCoordination.ReceiverCoordinator.Stop | NetShape/NetShape/ReceiverCoordinator.cs:82-110 | With no token source it does nothing; otherwise it cancels, awaits without rethrowing, disposes and clears the source, which makes it idempotent |
| ReceiverCoordination.ReceiverCoordinator.Step | NetShape/NetShape/ReceiverCoordinator.cs:54-76 | Cancellation exits and a failed dequeue faults. An empty queue only idles. A response is taken from the head and sent once to its own connection id; a failed send is caught, the response is dropped and not requeued, and the request queue is untouched |
| ReceiverCoordination.ReceiverCoordinator.Run | NetShape/NetShape/ReceiverCoordinator.cs:50-80 | Uncancelled, with the store reachable, n passes take the first min(n, queued) responses in FIFO order and push exactly Deliveries of them, in order |
| Coordination.Reply | NetShape/NetShape/Coordinator.cs:87-94 | The reply exists iff processing succeeds; it carries the request's id and the processor's output and no connection id |
| Coordination.Sent | NetShape/NetShape/Coordinator.cs:95 | Handling a request pushes at most one delivery. It pushes one iff processing succeeds, the transport is up and the request names a connection, and that delivery is the reply to the request's own connection |
| Coordination.HandleOutcome | NetShape/NetShape/Coordinator.cs:84-101 | Handling a request succeeds exactly when something was sent for it |
| Coordination.SentCorrelate | NetShape/NetShape/Coordinator.cs:87-95 | Every delivery answers one handled request, at that request's connection, with its id and the processor's output for it |
| Coordination.FailedRequestNotSent | NetShape/NetShape/Coordinator.cs:98-101 | With distinct request ids, nothing sent carries the id of a request the processor failed on |
| Coordination.Coordinator.ConstructorCheck | NetShape/NetShape/Coordinator.cs:23-26 | A missing connector, then queue, processor or logger is ArgumentNull naming it; passes iff all four are present |
| Coordination.Coordinator.Create | NetShape/NetShape/Coordinator.cs:18-29 | Fails exactly as the checks say and subscribes nothing; otherwise OnRequestReceivedAsync is subscribed to the connector's event |
| Coordination.Coordinator.Start | NetShape/NetShape/Coordinator.cs:39-46 | A fresh linked token source and a fresh running loop replace whatever was held |
| Coordination.Coordinator.Stop | NetShape/NetShape/Coordinator.cs:48-74 | With no token source it does nothing; otherwise it cancels, awaits without rethrowing, disposes and clears the source |
| Coordination.Coordinator.Step | NetShape/NetShape/Coordinator.cs:78-106 | Cancellation exits and a failed dequeue faults. An empty queue idles. A request is taken from the head and its reply is sent to the request's connection; processing and send failures are caught and the loop keeps running |
| Coordination.Coordinator.Run | NetShape/NetShape/Coordinator.cs:76-109 | Uncancelled, with the store reachable, n passes take the first min(n, queued) requests in FIFO order and push exactly AllSent of them |
| LegacyCore.FirstFailure | NetShape/NetShape/Core/Coordinator.cs:35-52 | The number of queued requests, from the head, that are handled without an exception: every one before it succeeds, and the one at it, if any, fails |
| LegacyCore.AnsweredInOrder | NetShape/NetShape/Core/Coordinator.cs:40-46 | Requests handled without an exception are each answered exactly once, in order, at their own connection, with their id and the processor's output |
| LegacyCore.Coordinator.Create | NetShape/NetShape/Core/Coordinator.cs:12-20 | There are no checks. Only a null connector fails, because it is dereferenced to subscribe; otherwise the handler is subscribed and a null queue or processor is kept as given |
| LegacyCore.Coordinator.Start | NetShape/NetShape/Core/Coordinator.cs:27-31 | A fresh running loop that no token can stop; the coordinator keeps no reference to it |
| LegacyCore.Coordinator.Step | NetShape/NetShape/Core/Coordinator.cs:35-52 | A null queue or a failed dequeue faults the loop. An empty queue idles. A request is taken and its reply sent; a processing or send failure (a null processor included) is not caught, so it faults the loop and the request is lost |
| LegacyCore.Coordinator.Run | NetShape/NetShape/Core/Coordinator.cs:33-53 | With the store reachable it answers queued requests in FIFO order until the first failing one. That request is dropped, the loop faults with its error, and everything behind it stays queued; with no failure within n passes it keeps running |
| LegacyCore.ReceiverCoordinator.ConstructorCheck | NetShape/NetShape/Core/ReceiverCoordinator.cs:18-20 | A missing connector, then requestQueue, then logger is ArgumentNull naming it; passes iff all three are present |
| LegacyCore.ReceiverCoordinator.Create | NetShape/NetShape/Core/ReceiverCoordinator.cs:13-23 | Fails exactly as the checks say with the connector untouched; only after all checks pass is OnRequestReceivedAsync subscribed |

## Left out

- Timing and concurrency are not modelled: `Task.Run`, `Task.Delay`, and
  handlers racing the loops. Cancellation is a flag read at the loop head.
  A loop is a sequence of passes, bounded by `n` in each `Run`.
- Logging has no effect on the modelled state and is not modelled.
- The Redis client and JSON (de)serialisation are not modelled. A list is a
  `seq` and encoding is taken to round-trip, so a dequeued request equals
  the one enqueued field by field.
- SignalR's `Clients.Client(...).SendAsync`, `IHubContext` and the hub
  `Context` are not modelled. A push is recorded in a ghost log when a flag
  says the transport is up, and the caller's connection id is a parameter.
- Whether a store or the transport can be reached is fixed per object for
  the duration of a call. A store that goes down midway through a loop is
  not modelled.
- The hubs' `OnConnectedAsync` and `OnDisconnectedAsync` only log, and are
  not modelled.
- Hosting and dependency injection in the sample applications are not
  modelled. The sample processor is replaced by an arbitrary total
  function.
- The test doubles are not modelled.
- `InMemoryQueue.InMemoryQueueService.Dequeue` answers `None` for an empty
  queue. The source returns `default(T)`, which a caller cannot tell apart
  from a queued `default(T)` item. The model does not capture that
  ambiguity.
- There are two `IQueueService` interfaces that differ in their enqueue
  result. Redis is modelled with the length-returning one and the in-memory
  queue with the unit-returning one. There is no shared interface type,
  and the coordinators are wired to Redis queues.
- `ReceiverCoordinator.cs` types its connector as `NetShape.Core.IConnector`,
  whose only implementation here is the SignalR connector. It is wired to
  `SignalR.SignalRConnector`.
- `Coordinator.cs`, `Core/Coordinator.cs` and `Core/ReceiverCoordinator.cs`
  name an `IConnector` that resolves to `NetShape.Core.IConnector`, which has
  no `OnRequestReceived` event. `Coordinator.cs` does so because its
  file-scoped `namespace NetShape.Core` is searched before its `using`
  directives. All three are modelled
  with the event-raising connector of `NetShape.Core.Connectors`
  (`CoreConnectors.Connector`), whose `SendResponse` checks and pushes like
  the other connectors.
- `Core/Coordinator.cs` declares the same class name as `Coordinator.cs`.
  The two are kept apart as the modules `LegacyCore` and `Coordination`.
- `Core/ReceiverCoordinator.cs` fixes the response type to `object`. It is
  modelled as `CoreConnectors.Connector<Q, object>`, and it has no response
  path to model.
- The legacy loop never observes cancellation. `LegacyCore.Coordinator.Run`
  stops after n passes or at the first fault, and the loop's unbounded
  continuation is not modelled.
