/**
 * Coordinator: the unified coordinator. Its handler enqueues every request
 * the connector raises; its loop drains that queue, runs each request
 * through the processor and sends the result straight back through the
 * connector, with no response queue in between.
 */
module Coordination {
  import opened Models
  import opened Collaborators
  import opened RedisQueue
  import opened Events
  import Connectors
  import CoreConnectors
  import ProcessorCoordination

  /**
   * The response built for a request: the request's id and the processor's
   * output. Its connection id is never set; the request's own connection id
   * is only where it is sent.
   */
  function Reply<Q, S>(process: Q -> Result<S>, request: Request<Q>): (r: Result<Response<S>>)
    ensures r.Ok? <==> process(request.data).Ok?
    ensures r.Ok? ==>
      r.value.requestId == request.requestId && r.value.connectionId == None && Ok(r.value.data) == process(request.data)
    ensures r.Err? ==> r.error == process(request.data).error
  {
    match process(request.data)
    case Ok(data) => Ok(Response(request.requestId, None, data))
    case Err(e) => Err(e)
  }

  /** What handling one request pushes to the clients: its reply, to the request's connection. */
  function Sent<Q, S>(process: Q -> Result<S>, request: Request<Q>, available: bool): (r: seq<Delivery<S>>)
    ensures |r| <= 1
    ensures r != [] <==> process(request.data).Ok? && available && !IsNullOrEmpty(request.connectionId)
    ensures r != [] ==> r[0] == Delivery(request.connectionId.value, Reply(process, request).value)
  {
    match Reply(process, request)
    case Ok(response) => Connectors.Pushed(request.connectionId, Some(response), available)
    case Err(_) => []
  }

  /** How handling one request ends: the processor's exception, or the send's outcome. */
  function HandleOutcome<Q, S>(process: Q -> Result<S>, request: Request<Q>, available: bool): (r: Outcome)
    ensures r.Pass? <==> Sent(process, request, available) != []
  {
    match Reply(process, request)
    case Ok(response) => Connectors.SendOutcome(request.connectionId, Some(response), available)
    case Err(e) => Fail(e)
  }

  /** The deliveries made while handling these requests in order. */
  function AllSent<Q, S>(process: Q -> Result<S>, requests: seq<Request<Q>>, available: bool): seq<Delivery<S>>
    decreases |requests|
  {
    if requests == [] then []
    else AllSent(process, requests[..|requests| - 1], available) + Sent(process, requests[|requests| - 1], available)
  }

  /** Handling one more request appends its delivery, if any, to what was sent before. */
  lemma {:induction false} AllSentSnoc<Q, S>(process: Q -> Result<S>, requests: seq<Request<Q>>, available: bool, k: nat,
                                             before: seq<Delivery<S>>, sent: seq<Delivery<S>>)
    requires k < |requests| && sent == before + AllSent(process, requests[..k], available)
    ensures sent + Sent(process, requests[k], available) == before + AllSent(process, requests[..k + 1], available)
  {
    assert requests[..k + 1][..k] == requests[..k];
  }

  /**
   * Correlation: every delivery answers one of the requests handled. It
   * goes to that request's connection and carries its id and the
   * processor's output for it.
   */
  lemma {:induction false} SentCorrelate<Q, S>(process: Q -> Result<S>, requests: seq<Request<Q>>, available: bool)
    ensures |AllSent(process, requests, available)| <= |requests|
    ensures forall j :: 0 <= j < |AllSent(process, requests, available)| ==>
      var d := AllSent(process, requests, available)[j];
      exists i :: (0 <= i < |requests| &&
        requests[i].connectionId == Some(d.connectionId) && d.response.requestId == requests[i].requestId &&
        Ok(d.response.data) == process(requests[i].data))
    decreases |requests|
  {
    if requests != [] {
      var last := |requests| - 1;
      var init := requests[..last];
      SentCorrelate(process, init, available);
      var before := AllSent(process, init, available);
      var all := AllSent(process, requests, available);
      assert all == before + Sent(process, requests[last], available);
      forall j | 0 <= j < |all|
        ensures exists i :: (0 <= i < |requests| &&
          requests[i].connectionId == Some(all[j].connectionId) && all[j].response.requestId == requests[i].requestId &&
          Ok(all[j].response.data) == process(requests[i].data))
      {
        if j < |before| {
          assert all[j] == before[j];
          var i :| 0 <= i < |init| &&
            init[i].connectionId == Some(before[j].connectionId) && before[j].response.requestId == init[i].requestId &&
            Ok(before[j].response.data) == process(init[i].data);
          assert requests[i] == init[i];
        } else {
          assert all[j] == Sent(process, requests[last], available)[0];
        }
      }
    }
  }

  /** A request the processor fails on is never answered: no delivery carries its id. */
  lemma {:induction false} FailedRequestNotSent<Q, S>(process: Q -> Result<S>, requests: seq<Request<Q>>, available: bool, i: nat)
    requires ProcessorCoordination.UniqueIds(requests)
    requires i < |requests| && process(requests[i].data).Err?
    ensures forall j :: 0 <= j < |AllSent(process, requests, available)| ==>
      AllSent(process, requests, available)[j].response.requestId != requests[i].requestId
  {
    SentCorrelate(process, requests, available);
    var all := AllSent(process, requests, available);
    forall j | 0 <= j < |all|
      ensures all[j].response.requestId != requests[i].requestId
    {
      var k :| 0 <= k < |requests| &&
        requests[k].connectionId == Some(all[j].connectionId) && all[j].response.requestId == requests[k].requestId &&
        Ok(all[j].response.data) == process(requests[k].data);
      if k != i {
        assert k < i || i < k;
      }
    }
  }

  class Coordinator<Q, S> {
    const connector: CoreConnectors.Connector<Q, S>
    const requestQueue: RedisQueueService<Request<Q>>
    const processor: RequestProcessor<Q, S>
    const logger: Logger
    /** OnRequestReceivedAsync, as subscribed to the connector's event. */
    const handler: RequestHandler<Q>
    var tokenSource: CancellationTokenSource?
    var processingTask: LoopTask?

    /** A held token source always belongs to the loop that was started with it. */
    predicate Valid()
      reads this
    {
      tokenSource != null ==> processingTask != null && processingTask.token == tokenSource
    }

    constructor Init(connector: CoreConnectors.Connector<Q, S>, requestQueue: RedisQueueService<Request<Q>>,
                     processor: RequestProcessor<Q, S>, logger: Logger, handler: RequestHandler<Q>)
      ensures this.connector == connector && this.requestQueue == requestQueue
      ensures this.processor == processor && this.logger == logger && this.handler == handler
      ensures tokenSource == null && processingTask == null && Valid()
    {
      this.connector, this.requestQueue, this.processor := connector, requestQueue, processor;
      this.logger, this.handler := logger, handler;
      tokenSource, processingTask := null, null;
    }

    /** The constructor's null checks: connector, queue, processor, logger. */
    static function ConstructorCheck(connector: bool, queue: bool, processor: bool, logger: bool): (r: Outcome)
      ensures !connector ==> r == Fail(ArgumentNull("connector"))
      ensures connector && !queue ==> r == Fail(ArgumentNull("queue"))
      ensures connector && queue && !processor ==> r == Fail(ArgumentNull("processor"))
      ensures connector && queue && processor && !logger ==> r == Fail(ArgumentNull("logger"))
      ensures r.Pass? <==> connector && queue && processor && logger
    {
      var deps := [Dependency("connector", connector), Dependency("queue", queue),
                   Dependency("processor", processor), Dependency("logger", logger)];
      assert deps[0].name == "connector" && deps[1].name == "queue";
      assert deps[2].name == "processor" && deps[3].name == "logger";
      CheckNotNull(deps)
    }

    /**
     * The constructor: the four checks, then OnRequestReceivedAsync is
     * subscribed to the connector's event. A rejected construction
     * subscribes nothing.
     */
    static method Create(connector: CoreConnectors.Connector?<Q, S>, queue: RedisQueueService?<Request<Q>>,
                         processor: RequestProcessor?<Q, S>, logger: Logger?)
      returns (r: Result<Coordinator<Q, S>>)
      modifies connector
      ensures var check := ConstructorCheck(connector != null, queue != null, processor != null, logger != null);
        (r.Err? <==> check.Fail?) && (r.Err? ==> r.error == check.error)
      ensures r.Err? && connector != null ==> unchanged(connector)
      ensures r.Ok? ==> (
        var c := r.value;
        fresh(c) && fresh(c.handler) && c.handler.requestQueue == queue &&
        c.connector == connector && c.requestQueue == queue && c.processor == processor && c.logger == logger &&
        connector.onRequestReceived == old(connector.onRequestReceived) + [c.handler] &&
        c.tokenSource == null && c.processingTask == null && c.Valid())
    {
      var check := ConstructorCheck(connector != null, queue != null, processor != null, logger != null);
      if check.Fail? {
        r := Err(check.error);
      } else {
        var handler := new RequestHandler(queue);
        connector.Subscribe(handler);
        var coordinator := new Coordinator.Init(connector, queue, processor, logger, handler);
        r := Ok(coordinator);
      }
    }

    /**
     * StartAsync: a new token source linked to the caller's token, and a new
     * loop polling it. A second start drops the running loop and its source
     * without stopping them.
     */
    method Start(cancellationToken: CancellationTokenSource?)
      modifies this
      ensures tokenSource != null && fresh(tokenSource) && processingTask != null && fresh(processingTask)
      ensures tokenSource.parent == cancellationToken && !tokenSource.cancelRequested && !tokenSource.disposed
      ensures processingTask.token == tokenSource && processingTask.status == Running
      ensures Valid()
    {
      var source := new CancellationTokenSource.CreateLinked(cancellationToken);
      var task := new LoopTask(source);
      tokenSource, processingTask := source, task;
    }

    /**
     * StopAsync: nothing happens with no token source held. Otherwise the
     * source is cancelled, the loop awaited with whatever it threw logged and
     * swallowed, and the source disposed and released, so that a second stop
     * does nothing.
     */
    method Stop() returns (log: StopLog)
      requires Valid()
      modifies this, tokenSource, if tokenSource == null then null else processingTask
      ensures Valid() && tokenSource == null && processingTask == old(processingTask)
      ensures old(tokenSource) == null ==> log == NoLoop && unchanged(this)
      ensures old(tokenSource) != null ==> (
        old(tokenSource).cancelRequested && old(tokenSource).disposed &&
        processingTask.status ==
          (if old(processingTask.status).Running? then RanToCompletion else old(processingTask.status)) &&
        log == (if old(processingTask.status).Faulted? then LoopFailed(old(processingTask.status).error) else Stopped))
    {
      if tokenSource == null {
        log := NoLoop;
        return;
      }
      tokenSource.Cancel();
      log := Join(processingTask);
      tokenSource.Dispose();
      tokenSource := null;
    }

    /**
     * One pass of ProcessQueueAsync. Cancellation ends the loop and a failed
     * dequeue faults it. An empty queue only idles. A request is processed
     * and its reply sent to the request's connection; a failure of either is
     * caught, nothing is sent for that request, and the loop goes on.
     * `task` is the loop task that Start created and keeps in processingTask.
     */
    method Step(task: LoopTask) returns (it: Iteration<Request<Q>>)
      requires task.status == Running
      modifies task, requestQueue.list, connector.clients
      ensures Cancelled(task.token) ==> (
        it == Exited && task.status == RanToCompletion &&
        requestQueue.Items() == old(requestQueue.Items()) && connector.clients.sent == old(connector.clients.sent))
      ensures !Cancelled(task.token) && !requestQueue.Reachable() ==> (
        it == DequeueFailed(StoreFailure(requestQueue.list.key)) &&
        task.status == Faulted(StoreFailure(requestQueue.list.key)) &&
        requestQueue.Items() == old(requestQueue.Items()) && connector.clients.sent == old(connector.clients.sent))
      ensures !Cancelled(task.token) && requestQueue.Reachable() && old(requestQueue.Items()) == [] ==> (
        it == Idle && task.status == Running &&
        requestQueue.Items() == [] && connector.clients.sent == old(connector.clients.sent))
      ensures !Cancelled(task.token) && requestQueue.Reachable() && old(requestQueue.Items()) != [] ==> (
        var request := old(requestQueue.Items())[0];
        var available := connector.clients.available;
        it == Iteration.Handled(request, HandleOutcome(processor.process, request, available)) &&
        task.status == Running &&
        requestQueue.Items() == old(requestQueue.Items())[1..] &&
        connector.clients.sent == old(connector.clients.sent) + Sent(processor.process, request, available))
    {
      if Cancelled(task.token) {
        it := Exited;
        task.status := RanToCompletion;
        return;
      }
      var dequeued := requestQueue.Dequeue();
      if dequeued.Err? {
        it := DequeueFailed(dequeued.error);
        task.status := Faulted(dequeued.error);
        return;
      }
      match dequeued.value
      case None =>
        it := Idle;
      case Some(request) =>
        var reply := Reply(processor.process, request);
        if reply.Err? {
          it := Iteration.Handled(request, Fail(reply.error));
        } else {
          var sent := connector.SendResponse(request.connectionId, reply.value);
          it := Iteration.Handled(request, sent);
        }
    }

    /**
     * The loop for at most n passes. Uncancelled, with the store reachable,
     * it takes the first min(n, |queue|) requests in FIFO order and sends the
     * replies to the ones processed, in order, each to its own request's
     * connection; a failed request is skipped and the loop carries on.
     */
    method Run(task: LoopTask, n: nat)
      requires task.status == Running
      modifies task, requestQueue.list, connector.clients
      ensures n == 0 || Cancelled(task.token) || !requestQueue.Reachable() ==> (
        requestQueue.Items() == old(requestQueue.Items()) && connector.clients.sent == old(connector.clients.sent))
      ensures n > 0 && Cancelled(task.token) ==> task.status == RanToCompletion
      ensures n > 0 && !Cancelled(task.token) && !requestQueue.Reachable() ==>
        task.status == Faulted(StoreFailure(requestQueue.list.key))
      ensures !Cancelled(task.token) && requestQueue.Reachable() ==> (
        var pending := old(requestQueue.Items());
        var k := if n < |pending| then n else |pending|;
        task.status == Running &&
        requestQueue.Items() == pending[k..] &&
        connector.clients.sent ==
          old(connector.clients.sent) + AllSent(processor.process, pending[..k], connector.clients.available))
    {
      if n == 0 || Cancelled(task.token) || !requestQueue.Reachable() {
        // The token and the store's reachability do not change while the
        // loop runs, so the first pass is also the last.
        if n > 0 {
          var _ := Step(task);
        }
      } else {
        Drain(task, n);
      }
    }

    /** The loop's passes while it is not cancelled and the store is reachable. */
    method Drain(task: LoopTask, n: nat)
      requires task.status == Running && !Cancelled(task.token) && requestQueue.Reachable()
      modifies task, requestQueue.list, connector.clients
      ensures var pending := old(requestQueue.Items());
        var k := if n < |pending| then n else |pending|;
        task.status == Running &&
        requestQueue.Items() == pending[k..] &&
        connector.clients.sent ==
          old(connector.clients.sent) + AllSent(processor.process, pending[..k], connector.clients.available)
    {
      ghost var pending := requestQueue.Items();
      ghost var before := connector.clients.sent;
      ghost var available := connector.clients.available;
      var i := 0;
      ghost var k := 0;
      assert pending[..0] == [] && before + [] == before;
      while i < n
        invariant i <= n && k == (if i < |pending| then i else |pending|)
        invariant requestQueue.Reachable() && !Cancelled(task.token)
        invariant task.status == Running
        invariant requestQueue.Items() == pending[k..]
        invariant connector.clients.sent == before + AllSent(processor.process, pending[..k], available)
        decreases n - i
      {
        ghost var sent := connector.clients.sent;
        var it := Step(task);
        if k < |pending| {
          assert pending[k..][0] == pending[k] && pending[k..][1..] == pending[k + 1..];
          AllSentSnoc(processor.process, pending, available, k, before, sent);
          k := k + 1;
        }
        i := i + 1;
      }
    }
  }
}
