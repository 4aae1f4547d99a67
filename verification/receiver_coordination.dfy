/**
 * ReceiverCoordinator: the hosted service on the receiving side. Its handler
 * enqueues every request the request receiver raises; its loop drains the
 * response queue and sends each response to the connection it names.
 */
module ReceiverCoordination {
  import opened Models
  import opened Collaborators
  import opened RedisQueue
  import opened Events
  import Connectors
  import SignalR

  /** What sending one dequeued response pushes to the clients. */
  function Delivered<S>(response: Response<S>, available: bool): (r: seq<Delivery<S>>)
    ensures |r| <= 1
    ensures r != [] <==> available && !IsNullOrEmpty(response.connectionId)
    ensures r != [] ==> r[0] == Delivery(response.connectionId.value, response)
  {
    Connectors.Pushed(response.connectionId, Some(response), available)
  }

  /** The deliveries made while sending these responses in order. */
  function Deliveries<S>(responses: seq<Response<S>>, available: bool): seq<Delivery<S>>
    decreases |responses|
  {
    if responses == [] then []
    else Deliveries(responses[..|responses| - 1], available) + Delivered(responses[|responses| - 1], available)
  }

  lemma {:induction false} DeliveriesSnoc<S>(responses: seq<Response<S>>, available: bool, i: nat)
    requires i < |responses|
    ensures Deliveries(responses[..i + 1], available) == Deliveries(responses[..i], available) + Delivered(responses[i], available)
  {
    assert responses[..i + 1][..i] == responses[..i];
  }

  /** Sending one more response appends its delivery, if any, to what was sent before. */
  lemma {:induction false} SentSnoc<S>(responses: seq<Response<S>>, available: bool, k: nat,
                                       before: seq<Delivery<S>>, sent: seq<Delivery<S>>)
    requires k < |responses| && sent == before + Deliveries(responses[..k], available)
    ensures sent + Delivered(responses[k], available) == before + Deliveries(responses[..k + 1], available)
  {
    DeliveriesSnoc(responses, available, k);
  }

  /**
   * Every delivery goes to the connection its own response names, and
   * carries that response unchanged; there are never more deliveries than
   * responses.
   */
  lemma {:induction false} DeliveriesAddressed<S>(responses: seq<Response<S>>, available: bool)
    ensures |Deliveries(responses, available)| <= |responses|
    ensures forall j :: 0 <= j < |Deliveries(responses, available)| ==>
      var d := Deliveries(responses, available)[j];
      d.response in responses && d.response.connectionId == Some(d.connectionId) && d.connectionId != ""
    decreases |responses|
  {
    if responses != [] {
      var last := |responses| - 1;
      var init := responses[..last];
      DeliveriesAddressed(init, available);
      var before := Deliveries(init, available);
      var all := Deliveries(responses, available);
      assert all == before + Delivered(responses[last], available);
      forall j | 0 <= j < |all|
        ensures all[j].response in responses && all[j].response.connectionId == Some(all[j].connectionId)
        ensures all[j].connectionId != ""
      {
        if j < |before| {
          assert all[j] == before[j];
          assert before[j].response in init;
        } else {
          assert all[j] == Delivered(responses[last], available)[0];
        }
      }
    }
  }

  /**
   * With the transport up and every response addressed, each response is
   * delivered exactly once, in queue order.
   */
  lemma {:induction false} AllDelivered<S>(responses: seq<Response<S>>)
    requires forall i :: 0 <= i < |responses| ==> !IsNullOrEmpty(responses[i].connectionId)
    ensures |Deliveries(responses, true)| == |responses|
    ensures forall i :: 0 <= i < |responses| ==>
      Deliveries(responses, true)[i].response == responses[i] &&
      responses[i].connectionId == Some(Deliveries(responses, true)[i].connectionId)
    decreases |responses|
  {
    if responses != [] {
      var last := |responses| - 1;
      var init := responses[..last];
      assert forall i :: 0 <= i < |init| ==> init[i] == responses[i];
      AllDelivered(init);
    }
  }

  /** With the transport down nothing reaches any client: every send fails. */
  lemma {:induction false} NothingDeliveredWhenDown<S>(responses: seq<Response<S>>)
    ensures Deliveries(responses, false) == []
    decreases |responses|
  {
    if responses != [] {
      NothingDeliveredWhenDown(responses[..|responses| - 1]);
    }
  }

  class ReceiverCoordinator<Q, S> {
    const connector: SignalR.SignalRConnector<Q, S>
    const requestQueue: RedisQueueService<Request<Q>>
    const responseQueue: RedisQueueService<Response<S>>
    const logger: Logger
    const requestReceiver: Connectors.RequestReceiver<Q>
    /** OnRequestReceivedAsync, as subscribed to the receiver's event. */
    const handler: RequestHandler<Q>
    var tokenSource: CancellationTokenSource?
    var responseProcessingTask: LoopTask?

    /** A held token source always belongs to the loop that was started with it. */
    predicate Valid()
      reads this
    {
      tokenSource != null ==> responseProcessingTask != null && responseProcessingTask.token == tokenSource
    }

    constructor Init(connector: SignalR.SignalRConnector<Q, S>, requestQueue: RedisQueueService<Request<Q>>,
                     responseQueue: RedisQueueService<Response<S>>, logger: Logger,
                     requestReceiver: Connectors.RequestReceiver<Q>, handler: RequestHandler<Q>)
      ensures this.connector == connector && this.requestQueue == requestQueue
      ensures this.responseQueue == responseQueue && this.logger == logger
      ensures this.requestReceiver == requestReceiver && this.handler == handler
      ensures tokenSource == null && responseProcessingTask == null && Valid()
    {
      this.connector, this.requestQueue, this.responseQueue := connector, requestQueue, responseQueue;
      this.logger, this.requestReceiver, this.handler := logger, requestReceiver, handler;
      tokenSource, responseProcessingTask := null, null;
    }

    /** The constructor's null checks: connector, requestQueue, responseQueue, logger. */
    static function ConstructorCheck(connector: bool, requestQueue: bool, responseQueue: bool, logger: bool): (r: Outcome)
      ensures !connector ==> r == Fail(ArgumentNull("connector"))
      ensures connector && !requestQueue ==> r == Fail(ArgumentNull("requestQueue"))
      ensures connector && requestQueue && !responseQueue ==> r == Fail(ArgumentNull("responseQueue"))
      ensures connector && requestQueue && responseQueue && !logger ==> r == Fail(ArgumentNull("logger"))
      ensures r.Pass? <==> connector && requestQueue && responseQueue && logger
    {
      var deps := [Dependency("connector", connector), Dependency("requestQueue", requestQueue),
                   Dependency("responseQueue", responseQueue), Dependency("logger", logger)];
      assert deps[0].name == "connector" && deps[1].name == "requestQueue";
      assert deps[2].name == "responseQueue" && deps[3].name == "logger";
      CheckNotNull(deps)
    }

    /**
     * The constructor: the four checks, then the request receiver (which is
     * not checked) is dereferenced to subscribe OnRequestReceivedAsync. A
     * rejected construction subscribes nothing.
     */
    static method Create(connector: SignalR.SignalRConnector?<Q, S>, requestQueue: RedisQueueService?<Request<Q>>,
                         responseQueue: RedisQueueService?<Response<S>>, logger: Logger?,
                         requestReceiver: Connectors.RequestReceiver?<Q>)
      returns (r: Result<ReceiverCoordinator<Q, S>>)
      modifies requestReceiver
      ensures var check := ConstructorCheck(connector != null, requestQueue != null, responseQueue != null, logger != null);
        (check.Fail? ==> r == Err(check.error)) &&
        (check.Pass? && requestReceiver == null ==> r == Err(NullReference)) &&
        (check.Pass? && requestReceiver != null ==> r.Ok?)
      ensures r.Err? && requestReceiver != null ==> unchanged(requestReceiver)
      ensures r.Ok? ==> (
        var c := r.value;
        fresh(c) && fresh(c.handler) && c.handler.requestQueue == requestQueue &&
        c.connector == connector && c.requestQueue == requestQueue && c.responseQueue == responseQueue &&
        c.logger == logger && c.requestReceiver == requestReceiver &&
        requestReceiver.onRequestReceived == old(requestReceiver.onRequestReceived) + [c.handler] &&
        c.tokenSource == null && c.responseProcessingTask == null && c.Valid())
    {
      var check := ConstructorCheck(connector != null, requestQueue != null, responseQueue != null, logger != null);
      if check.Fail? {
        r := Err(check.error);
      } else if requestReceiver == null {
        r := Err(NullReference);
      } else {
        var handler := new RequestHandler(requestQueue);
        requestReceiver.Subscribe(handler);
        var coordinator := new ReceiverCoordinator.Init(connector, requestQueue, responseQueue, logger, requestReceiver, handler);
        r := Ok(coordinator);
      }
    }

    /**
     * StartAsync: a new token source linked to the caller's token, and a new
     * loop polling it. A second start drops the running loop and its source
     * without stopping them.
     */
    method Start(cancellationToken: CancellationTokenSource?)
      modifies this
      ensures tokenSource != null && fresh(tokenSource) && responseProcessingTask != null && fresh(responseProcessingTask)
      ensures tokenSource.parent == cancellationToken && !tokenSource.cancelRequested && !tokenSource.disposed
      ensures responseProcessingTask.token == tokenSource && responseProcessingTask.status == Running
      ensures Valid()
    {
      var source := new CancellationTokenSource.CreateLinked(cancellationToken);
      var task := new LoopTask(source);
      tokenSource, responseProcessingTask := source, task;
    }

    /**
     * StopAsync: nothing happens with no token source held. Otherwise the
     * source is cancelled, the loop awaited with whatever it threw logged and
     * swallowed, and the source disposed and released, so that a second stop
     * does nothing.
     */
    method Stop() returns (log: StopLog)
      requires Valid()
      modifies this, tokenSource, if tokenSource == null then null else responseProcessingTask
      ensures Valid() && tokenSource == null && responseProcessingTask == old(responseProcessingTask)
      ensures old(tokenSource) == null ==> log == NoLoop && unchanged(this)
      ensures old(tokenSource) != null ==> (
        old(tokenSource).cancelRequested && old(tokenSource).disposed &&
        responseProcessingTask.status ==
          (if old(responseProcessingTask.status).Running? then RanToCompletion else old(responseProcessingTask.status)) &&
        log == (if old(responseProcessingTask.status).Faulted?
                then LoopFailed(old(responseProcessingTask.status).error) else Stopped))
    {
      if tokenSource == null {
        log := NoLoop;
        return;
      }
      tokenSource.Cancel();
      log := Join(responseProcessingTask);
      tokenSource.Dispose();
      tokenSource := null;
    }

    /**
     * One pass of ProcessResponseQueueAsync. Cancellation ends the loop and a
     * failed dequeue faults it. An empty queue only idles. A response is sent
     * to its own connection id; a failed send is caught and the response is
     * dropped, neither retried nor requeued.
     * `task` is the loop task that Start created and keeps in responseProcessingTask.
     */
    method Step(task: LoopTask) returns (it: Iteration<Response<S>>)
      requires task.status == Running
      modifies task, responseQueue.list, connector.hubContext
      ensures requestQueue.Items() == old(requestQueue.Items())
      ensures Cancelled(task.token) ==> (
        it == Exited && task.status == RanToCompletion &&
        responseQueue.Items() == old(responseQueue.Items()) && connector.hubContext.sent == old(connector.hubContext.sent))
      ensures !Cancelled(task.token) && !responseQueue.Reachable() ==> (
        it == DequeueFailed(StoreFailure(responseQueue.list.key)) &&
        task.status == Faulted(StoreFailure(responseQueue.list.key)) &&
        responseQueue.Items() == old(responseQueue.Items()) && connector.hubContext.sent == old(connector.hubContext.sent))
      ensures !Cancelled(task.token) && responseQueue.Reachable() && old(responseQueue.Items()) == [] ==> (
        it == Idle && task.status == Running &&
        responseQueue.Items() == [] && connector.hubContext.sent == old(connector.hubContext.sent))
      ensures !Cancelled(task.token) && responseQueue.Reachable() && old(responseQueue.Items()) != [] ==> (
        var response := old(responseQueue.Items())[0];
        var available := connector.hubContext.available;
        it == Handled(response, Connectors.SendOutcome(response.connectionId, Some(response), available)) &&
        task.status == Running &&
        responseQueue.Items() == old(responseQueue.Items())[1..] &&
        connector.hubContext.sent == old(connector.hubContext.sent) + Delivered(response, available))
    {
      if Cancelled(task.token) {
        it := Exited;
        task.status := RanToCompletion;
        return;
      }
      var dequeued := responseQueue.Dequeue();
      if dequeued.Err? {
        it := DequeueFailed(dequeued.error);
        task.status := Faulted(dequeued.error);
        return;
      }
      match dequeued.value
      case None =>
        it := Idle;
      case Some(response) =>
        var sent := connector.SendResponse(response.connectionId, Some(response));
        it := Handled(response, sent);
    }

    /**
     * The loop for at most n passes. Uncancelled, with the response store
     * reachable, it takes the first min(n, |queue|) responses in FIFO order
     * and delivers each to its own connection, in order; a failed send drops
     * that response and the loop carries on.
     */
    method Run(task: LoopTask, n: nat)
      requires task.status == Running
      modifies task, responseQueue.list, connector.hubContext
      ensures n == 0 || Cancelled(task.token) || !responseQueue.Reachable() ==> (
        responseQueue.Items() == old(responseQueue.Items()) && connector.hubContext.sent == old(connector.hubContext.sent))
      ensures n > 0 && Cancelled(task.token) ==> task.status == RanToCompletion
      ensures n > 0 && !Cancelled(task.token) && !responseQueue.Reachable() ==>
        task.status == Faulted(StoreFailure(responseQueue.list.key))
      ensures !Cancelled(task.token) && responseQueue.Reachable() ==> (
        var pending := old(responseQueue.Items());
        var k := if n < |pending| then n else |pending|;
        task.status == Running &&
        responseQueue.Items() == pending[k..] &&
        connector.hubContext.sent ==
          old(connector.hubContext.sent) + Deliveries(pending[..k], connector.hubContext.available))
    {
      if n == 0 || Cancelled(task.token) || !responseQueue.Reachable() {
        // The token and the store's reachability do not change while the
        // loop runs, so the first pass is also the last.
        if n > 0 {
          var _ := Step(task);
        }
      } else {
        Drain(task, n);
      }
    }

    /** The loop's passes while it is not cancelled and the response store is reachable. */
    method Drain(task: LoopTask, n: nat)
      requires task.status == Running && !Cancelled(task.token) && responseQueue.Reachable()
      modifies task, responseQueue.list, connector.hubContext
      ensures var pending := old(responseQueue.Items());
        var k := if n < |pending| then n else |pending|;
        task.status == Running &&
        responseQueue.Items() == pending[k..] &&
        connector.hubContext.sent ==
          old(connector.hubContext.sent) + Deliveries(pending[..k], connector.hubContext.available)
    {
      ghost var pending := responseQueue.Items();
      ghost var before := connector.hubContext.sent;
      ghost var available := connector.hubContext.available;
      var i := 0;
      ghost var k := 0;
      assert pending[..0] == [] && before + [] == before;
      while i < n
        invariant i <= n && k == (if i < |pending| then i else |pending|)
        invariant responseQueue.Reachable() && !Cancelled(task.token)
        invariant task.status == Running
        invariant responseQueue.Items() == pending[k..]
        invariant connector.hubContext.sent == before + Deliveries(pending[..k], available)
        decreases n - i
      {
        ghost var sent := connector.hubContext.sent;
        var it := Step(task);
        if k < |pending| {
          assert pending[k..][0] == pending[k] && pending[k..][1..] == pending[k + 1..];
          SentSnoc(pending, available, k, before, sent);
          k := k + 1;
        }
        i := i + 1;
      }
    }
  }
}
