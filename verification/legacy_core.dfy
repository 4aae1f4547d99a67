/**
 * The two coordinators kept under Core/: an earlier Coordinator with no
 * checks, no cancellation and no error handling, and a ReceiverCoordinator
 * that only enqueues. Both subscribe to a connector's OnRequestReceived
 * event; the event connector stands in for the IConnector they name.
 */
module LegacyCore {
  import opened Models
  import opened Collaborators
  import opened RedisQueue
  import opened Events
  import CoreConnectors
  import Coordination

  /**
   * How many of these requests, from the head, are handled without an
   * exception: processing throws or the send throws for the one after them,
   * if there is one.
   */
  function FirstFailure<Q, S>(process: Q -> Result<S>, requests: seq<Request<Q>>, available: bool): (r: nat)
    ensures r <= |requests|
    ensures forall j :: 0 <= j < r ==> Coordination.HandleOutcome(process, requests[j], available).Pass?
    ensures r < |requests| ==> Coordination.HandleOutcome(process, requests[r], available).Fail?
    decreases |requests|
  {
    if requests == [] then 0
    else if Coordination.HandleOutcome(process, requests[0], available).Fail? then 0
    else 1 + FirstFailure(process, requests[1..], available)
  }

  /**
   * Requests handled without an exception are each answered exactly once,
   * in order, at their own connection, with their id and the processor's
   * output.
   */
  lemma {:induction false} AnsweredInOrder<Q, S>(process: Q -> Result<S>, requests: seq<Request<Q>>, available: bool)
    requires forall j :: 0 <= j < |requests| ==> Coordination.HandleOutcome(process, requests[j], available).Pass?
    ensures |Coordination.AllSent(process, requests, available)| == |requests|
    ensures forall j :: 0 <= j < |requests| ==>
      requests[j].connectionId == Some(Coordination.AllSent(process, requests, available)[j].connectionId) &&
      Ok(Coordination.AllSent(process, requests, available)[j].response) == Coordination.Reply(process, requests[j])
    decreases |requests|
  {
    if requests != [] {
      var last := |requests| - 1;
      var init := requests[..last];
      assert forall j :: 0 <= j < |init| ==> init[j] == requests[j];
      AnsweredInOrder(process, init, available);
      var before := Coordination.AllSent(process, init, available);
      var one := Coordination.Sent(process, requests[last], available);
      assert |one| == 1;
      var all := Coordination.AllSent(process, requests, available);
      assert all == before + one;
      forall j | 0 <= j < |requests|
        ensures requests[j].connectionId == Some(all[j].connectionId) &&
          Ok(all[j].response) == Coordination.Reply(process, requests[j])
      {
        if j < last {
          assert all[j] == before[j] && requests[j] == init[j];
        } else {
          assert all[j] == one[0];
        }
      }
    }
  }

  /**
   * Handling the k-th request when no earlier one failed: before the first
   * failure its delivery extends what was sent; at it, nothing is sent.
   */
  lemma {:induction false} HandledNext<Q, S>(process: Q -> Result<S>, pending: seq<Request<Q>>, available: bool, k: nat,
                                             before: seq<Delivery<S>>, sent: seq<Delivery<S>>)
    requires k < |pending| && k <= FirstFailure(process, pending, available)
    requires sent == before + Coordination.AllSent(process, pending[..k], available)
    ensures var f := FirstFailure(process, pending, available);
      var o := Coordination.HandleOutcome(process, pending[k], available);
      (k < f ==> (o.Pass? && sent + Coordination.Sent(process, pending[k], available) ==
        before + Coordination.AllSent(process, pending[..k + 1], available))) &&
      (k == f ==> o.Fail? && sent + Coordination.Sent(process, pending[k], available) == sent)
  {
    if k < FirstFailure(process, pending, available) {
      Coordination.AllSentSnoc(process, pending, available, k, before, sent);
    } else {
      assert Coordination.Sent(process, pending[k], available) == [];
    }
  }

  /**
   * The Coordinator under Core/. Its dependencies are stored unchecked, so
   * the queue and the processor may be null; only the connector is used in
   * the constructor.
   */
  class Coordinator<Q, S> {
    const connector: CoreConnectors.Connector<Q, S>
    const requestQueue: RedisQueueService?<Request<Q>>
    const processor: RequestProcessor?<Q, S>
    /** OnRequestReceivedAsync, as subscribed to the connector's event. */
    const handler: RequestHandler<Q>

    constructor Init(connector: CoreConnectors.Connector<Q, S>, requestQueue: RedisQueueService?<Request<Q>>,
                     processor: RequestProcessor?<Q, S>, handler: RequestHandler<Q>)
      ensures this.connector == connector && this.requestQueue == requestQueue
      ensures this.processor == processor && this.handler == handler
    {
      this.connector, this.requestQueue := connector, requestQueue;
      this.processor, this.handler := processor, handler;
    }

    /**
     * The constructor: no checks. Subscribing dereferences the connector, so
     * a null connector is the only argument that makes it throw.
     */
    static method Create(connector: CoreConnectors.Connector?<Q, S>, queue: RedisQueueService?<Request<Q>>,
                         processor: RequestProcessor?<Q, S>)
      returns (r: Result<Coordinator<Q, S>>)
      modifies connector
      ensures r.Err? <==> connector == null
      ensures r.Err? ==> r.error == NullReference
      ensures r.Ok? ==> (
        var c := r.value;
        fresh(c) && fresh(c.handler) && c.handler.requestQueue == queue &&
        c.connector == connector && c.requestQueue == queue && c.processor == processor &&
        connector.onRequestReceived == old(connector.onRequestReceived) + [c.handler])
    {
      if connector == null {
        r := Err(NullReference);
      } else {
        var handler := new RequestHandler(queue);
        connector.Subscribe(handler);
        var coordinator := new Coordinator.Init(connector, queue, processor, handler);
        r := Ok(coordinator);
      }
    }

    /** The processor as the loop calls it: a null processor throws on first use. */
    function Process(): Q -> Result<S>
    {
      if processor == null then (q: Q) => Result<S>.Err(NullReference) else processor.process
    }

    /**
     * StartAsync: a new loop, which no token can stop. The coordinator keeps
     * no reference to it.
     */
    method Start() returns (task: LoopTask)
      ensures fresh(task) && task.token == null && task.status == Running
    {
      task := new LoopTask(null);
    }

    /**
     * One pass of ProcessQueueAsync. An empty queue only idles. A request is
     * processed and its reply sent to the request's connection; nothing
     * catches an exception, so a failed dequeue, processing or send faults
     * the loop, and a request taken but not answered is lost.
     * `task` is the loop task that Start returned.
     */
    method Step(task: LoopTask) returns (it: Iteration<Request<Q>>)
      requires task.status == Running
      modifies task, connector.clients, if requestQueue == null then {} else {requestQueue.list}
      ensures requestQueue == null ==> (
        it == DequeueFailed(NullReference) && task.status == Faulted(NullReference) &&
        connector.clients.sent == old(connector.clients.sent))
      ensures requestQueue != null && !requestQueue.Reachable() ==> (
        it == DequeueFailed(StoreFailure(requestQueue.list.key)) &&
        task.status == Faulted(StoreFailure(requestQueue.list.key)) &&
        requestQueue.Items() == old(requestQueue.Items()) && connector.clients.sent == old(connector.clients.sent))
      ensures requestQueue != null && requestQueue.Reachable() && old(requestQueue.Items()) == [] ==> (
        it == Idle && task.status == Running &&
        requestQueue.Items() == [] && connector.clients.sent == old(connector.clients.sent))
      ensures requestQueue != null && requestQueue.Reachable() && old(requestQueue.Items()) != [] ==> (
        var request := old(requestQueue.Items())[0];
        var available := connector.clients.available;
        var o := Coordination.HandleOutcome(Process(), request, available);
        requestQueue.Items() == old(requestQueue.Items())[1..] &&
        connector.clients.sent == old(connector.clients.sent) + Coordination.Sent(Process(), request, available) &&
        (o.Pass? ==> it == Iteration.Handled(request, Pass) && task.status == Running) &&
        (o.Fail? ==> it == Escaped(request, o.error) && task.status == Faulted(o.error)))
    {
      if requestQueue == null {
        it := DequeueFailed(NullReference);
        task.status := Faulted(NullReference);
        return;
      }
      var dequeued := requestQueue.Dequeue();
      if dequeued.Err? {
        it := DequeueFailed(dequeued.error);
        task.status := Faulted(dequeued.error);
        return;
      }
      match dequeued.value
      case None =>
        it := Idle;
      case Some(request) =>
        var reply := Coordination.Reply(Process(), request);
        var o: Outcome;
        if reply.Err? {
          o := Fail(reply.error);
        } else {
          o := connector.SendResponse(request.connectionId, reply.value);
        }
        if o.Pass? {
          it := Iteration.Handled(request, Pass);
        } else {
          it := Escaped(request, o.error);
          task.status := Faulted(o.error);
        }
    }

    /**
     * The loop for at most n passes, ending early when it faults. With the
     * store reachable it answers the queued requests in FIFO order until the
     * first one whose processing or send throws; that request is dropped and
     * everything queued behind it stays in the queue with nobody taking it.
     */
    method Run(task: LoopTask, n: nat)
      requires task.status == Running
      modifies task, connector.clients, if requestQueue == null then {} else {requestQueue.list}
      ensures n == 0 ==> task.status == Running && connector.clients.sent == old(connector.clients.sent)
      ensures requestQueue == null ==> connector.clients.sent == old(connector.clients.sent)
      ensures requestQueue == null && n > 0 ==> task.status == Faulted(NullReference)
      ensures requestQueue != null && (n == 0 || !requestQueue.Reachable()) ==> (
        requestQueue.Items() == old(requestQueue.Items()) && connector.clients.sent == old(connector.clients.sent))
      ensures requestQueue != null && !requestQueue.Reachable() && n > 0 ==>
        task.status == Faulted(StoreFailure(requestQueue.list.key))
      ensures requestQueue != null && requestQueue.Reachable() ==> (
        var pending := old(requestQueue.Items());
        var available := connector.clients.available;
        var m := if n < |pending| then n else |pending|;
        var f := FirstFailure(Process(), pending, available);
        (m <= f ==>
          task.status == Running && requestQueue.Items() == pending[m..] &&
          connector.clients.sent == old(connector.clients.sent) + Coordination.AllSent(Process(), pending[..m], available)) &&
        (f < m ==>
          task.status == Faulted(Coordination.HandleOutcome(Process(), pending[f], available).error) &&
          requestQueue.Items() == pending[f + 1..] &&
          connector.clients.sent == old(connector.clients.sent) + Coordination.AllSent(Process(), pending[..f], available)))
    {
      if n == 0 {
        return;
      }
      if requestQueue == null || !requestQueue.Reachable() {
        // The first pass faults, which ends the loop.
        var _ := Step(task);
      } else {
        Drain(task, n);
      }
    }

    /** The loop's passes while the store is reachable. */
    method Drain(task: LoopTask, n: nat)
      requires task.status == Running && requestQueue != null && requestQueue.Reachable()
      modifies task, connector.clients, requestQueue.list
      ensures var pending := old(requestQueue.Items());
        var available := connector.clients.available;
        var m := if n < |pending| then n else |pending|;
        var f := FirstFailure(Process(), pending, available);
        (m <= f ==>
          task.status == Running && requestQueue.Items() == pending[m..] &&
          connector.clients.sent == old(connector.clients.sent) + Coordination.AllSent(Process(), pending[..m], available)) &&
        (f < m ==>
          task.status == Faulted(Coordination.HandleOutcome(Process(), pending[f], available).error) &&
          requestQueue.Items() == pending[f + 1..] &&
          connector.clients.sent == old(connector.clients.sent) + Coordination.AllSent(Process(), pending[..f], available))
    {
      ghost var pending := requestQueue.Items();
      ghost var before := connector.clients.sent;
      var i := 0;
      assert pending[..0] == [] && before + [] == before;
      while i < n && task.status == Running
        invariant i <= n && requestQueue.Reachable()
        invariant Passes(task, pending, before, i)
        decreases n - i
      {
        Advance(task, pending, before, i);
        i := i + 1;
      }
    }

    /**
     * The loop after i passes over `pending`, the queue as it found it, with
     * `before` already sent: while running it has answered every request it
     * took, none of which failed; once faulted, it stopped at the first
     * failure, within those i passes.
     */
    ghost predicate Passes(task: LoopTask, pending: seq<Request<Q>>, before: seq<Delivery<S>>, i: nat)
      requires requestQueue != null
      reads task, connector.clients, requestQueue.list
    {
      var available := connector.clients.available;
      var f := FirstFailure(Process(), pending, available);
      var k := if i < |pending| then i else |pending|;
      (task.status == Running ==>
        k <= f && requestQueue.Items() == pending[k..] &&
        connector.clients.sent == before + Coordination.AllSent(Process(), pending[..k], available)) &&
      (task.status != Running ==>
        f < |pending| && f < i &&
        task.status == Faulted(Coordination.HandleOutcome(Process(), pending[f], available).error) &&
        requestQueue.Items() == pending[f + 1..] &&
        connector.clients.sent == before + Coordination.AllSent(Process(), pending[..f], available))
    }

    /** One pass of the loop body, taking Passes from i passes to i + 1. */
    method Advance(task: LoopTask, ghost pending: seq<Request<Q>>, ghost before: seq<Delivery<S>>, i: nat)
      requires task.status == Running && requestQueue != null && requestQueue.Reachable()
      requires Passes(task, pending, before, i)
      modifies task, connector.clients, requestQueue.list
      ensures Passes(task, pending, before, i + 1)
    {
      ghost var k := if i < |pending| then i else |pending|;
      if k < |pending| {
        assert pending[k..][0] == pending[k] && pending[k..][1..] == pending[k + 1..];
        HandledNext(Process(), pending, connector.clients.available, k, before, connector.clients.sent);
      }
      var _ := Step(task);
    }
  }

  /**
   * The ReceiverCoordinator under Core/: it checks its dependencies and
   * subscribes a handler that enqueues each request. It has no response
   * path, and its connector's responses are untyped objects.
   */
  class ReceiverCoordinator<Q> {
    const connector: CoreConnectors.Connector<Q, object>
    const requestQueue: RedisQueueService<Request<Q>>
    const logger: Logger
    /** OnRequestReceivedAsync, as subscribed to the connector's event. */
    const handler: RequestHandler<Q>

    constructor Init(connector: CoreConnectors.Connector<Q, object>, requestQueue: RedisQueueService<Request<Q>>,
                     logger: Logger, handler: RequestHandler<Q>)
      ensures this.connector == connector && this.requestQueue == requestQueue
      ensures this.logger == logger && this.handler == handler
    {
      this.connector, this.requestQueue := connector, requestQueue;
      this.logger, this.handler := logger, handler;
    }

    /** The constructor's null checks: connector, then requestQueue, then logger. */
    static function ConstructorCheck(connector: bool, requestQueue: bool, logger: bool): (r: Outcome)
      ensures !connector ==> r == Fail(ArgumentNull("connector"))
      ensures connector && !requestQueue ==> r == Fail(ArgumentNull("requestQueue"))
      ensures connector && requestQueue && !logger ==> r == Fail(ArgumentNull("logger"))
      ensures r.Pass? <==> connector && requestQueue && logger
    {
      var deps := [Dependency("connector", connector), Dependency("requestQueue", requestQueue),
                   Dependency("logger", logger)];
      assert deps[0].name == "connector" && deps[1].name == "requestQueue" && deps[2].name == "logger";
      CheckNotNull(deps)
    }

    /**
     * The constructor: the three checks, then OnRequestReceivedAsync is
     * subscribed. A rejected construction subscribes nothing.
     */
    static method Create(connector: CoreConnectors.Connector?<Q, object>, requestQueue: RedisQueueService?<Request<Q>>,
                         logger: Logger?)
      returns (r: Result<ReceiverCoordinator<Q>>)
      modifies connector
      ensures var check := ConstructorCheck(connector != null, requestQueue != null, logger != null);
        (r.Err? <==> check.Fail?) && (r.Err? ==> r.error == check.error)
      ensures r.Err? && connector != null ==> unchanged(connector)
      ensures r.Ok? ==> (
        var c := r.value;
        fresh(c) && fresh(c.handler) && c.handler.requestQueue == requestQueue &&
        c.connector == connector && c.requestQueue == requestQueue && c.logger == logger &&
        connector.onRequestReceived == old(connector.onRequestReceived) + [c.handler])
    {
      var check := ConstructorCheck(connector != null, requestQueue != null, logger != null);
      if check.Fail? {
        r := Err(check.error);
      } else {
        var handler := new RequestHandler(requestQueue);
        connector.Subscribe(handler);
        var coordinator := new ReceiverCoordinator.Init(connector, requestQueue, logger, handler);
        r := Ok(coordinator);
      }
    }
  }
}
