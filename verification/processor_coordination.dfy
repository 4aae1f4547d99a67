/**
 * ProcessorCoordinator: the hosted service that drains the request queue,
 * runs each request through the processor and enqueues the correlated
 * response on the response queue.
 */
module ProcessorCoordination {
  import opened Models
  import opened Collaborators
  import opened RedisQueue

  /**
   * The response to one request: the processor's output under the request's
   * own id and connection id, or the processor's exception.
   */
  function Respond<Q, S>(process: Q -> Result<S>, request: Request<Q>): (r: Result<Response<S>>)
    ensures r.Ok? <==> process(request.data).Ok?
    ensures r.Ok? ==>
      r.value.requestId == request.requestId && r.value.connectionId == request.connectionId &&
      Ok(r.value.data) == process(request.data)
    ensures r.Err? ==> r.error == process(request.data).error
  {
    match process(request.data)
    case Ok(data) => Ok(Response(request.requestId, request.connectionId, data))
    case Err(e) => Err(e)
  }

  /** What handling one request puts on the response queue: its response, or nothing. */
  function Emitted<Q, S>(process: Q -> Result<S>, request: Request<Q>): seq<Response<S>>
  {
    match Respond(process, request)
    case Ok(response) => [response]
    case Err(_) => []
  }

  /** The responses enqueued while handling these requests in order. */
  function Responses<Q, S>(process: Q -> Result<S>, requests: seq<Request<Q>>): seq<Response<S>>
    decreases |requests|
  {
    if requests == [] then []
    else Responses(process, requests[..|requests| - 1]) + Emitted(process, requests[|requests| - 1])
  }

  lemma {:induction false} ResponsesSnoc<Q, S>(process: Q -> Result<S>, requests: seq<Request<Q>>, i: nat)
    requires i < |requests|
    ensures Responses(process, requests[..i + 1]) == Responses(process, requests[..i]) + Emitted(process, requests[i])
  {
    assert requests[..i + 1][..i] == requests[..i];
  }

  /** Handling one more request appends its response, if any, to what was answered before. */
  lemma {:induction false} AnsweredSnoc<Q, S>(process: Q -> Result<S>, pending: seq<Request<Q>>, k: nat,
                                              answered: seq<Response<S>>, sent: seq<Response<S>>)
    requires k < |pending| && sent == answered + Responses(process, pending[..k])
    ensures sent + Emitted(process, pending[k]) == answered + Responses(process, pending[..k + 1])
  {
    ResponsesSnoc(process, pending, k);
  }

  /**
   * Correlation: every enqueued response is the response to one of the
   * requests handled, so it carries that request's id and connection id and
   * the processor's output for it; there are never more responses than
   * requests.
   */
  lemma {:induction false} ResponsesCorrelate<Q, S>(process: Q -> Result<S>, requests: seq<Request<Q>>)
    ensures |Responses(process, requests)| <= |requests|
    ensures forall j :: 0 <= j < |Responses(process, requests)| ==>
      exists i :: 0 <= i < |requests| && Respond(process, requests[i]) == Ok(Responses(process, requests)[j])
    decreases |requests|
  {
    if requests != [] {
      var last := |requests| - 1;
      var init := requests[..last];
      ResponsesCorrelate(process, init);
      var before := Responses(process, init);
      var all := Responses(process, requests);
      assert all == before + Emitted(process, requests[last]);
      forall j | 0 <= j < |all|
        ensures exists i :: 0 <= i < |requests| && Respond(process, requests[i]) == Ok(all[j])
      {
        if j < |before| {
          var i :| 0 <= i < |init| && Respond(process, init[i]) == Ok(before[j]);
          assert requests[i] == init[i];
        } else {
          assert Respond(process, requests[last]) == Ok(all[j]);
        }
      }
    }
  }

  /** Request ids are distinct. */
  predicate UniqueIds<Q>(requests: seq<Request<Q>>)
  {
    forall a, b :: 0 <= a < b < |requests| ==> requests[a].requestId != requests[b].requestId
  }

  /**
   * A request the processor fails on gets no response: nothing on the
   * response queue carries its id.
   */
  lemma {:induction false} FailedRequestUnanswered<Q, S>(process: Q -> Result<S>, requests: seq<Request<Q>>, i: nat)
    requires UniqueIds(requests)
    requires i < |requests| && process(requests[i].data).Err?
    ensures forall j :: 0 <= j < |Responses(process, requests)| ==>
      Responses(process, requests)[j].requestId != requests[i].requestId
  {
    ResponsesCorrelate(process, requests);
    var all := Responses(process, requests);
    forall j | 0 <= j < |all|
      ensures all[j].requestId != requests[i].requestId
    {
      var k :| 0 <= k < |requests| && Respond(process, requests[k]) == Ok(all[j]);
      if k != i {
        assert k < i || i < k;
      }
    }
  }

  /**
   * When the processor succeeds on every request, there is one response per
   * request, in request order, each correlated with its request.
   */
  lemma {:induction false} AllAnswered<Q, S>(process: Q -> Result<S>, requests: seq<Request<Q>>)
    requires forall i :: 0 <= i < |requests| ==> process(requests[i].data).Ok?
    ensures |Responses(process, requests)| == |requests|
    ensures forall i :: 0 <= i < |requests| ==> Respond(process, requests[i]) == Ok(Responses(process, requests)[i])
    decreases |requests|
  {
    if requests != [] {
      var last := |requests| - 1;
      var init := requests[..last];
      assert forall i :: 0 <= i < |init| ==> init[i] == requests[i];
      AllAnswered(process, init);
      assert Emitted(process, requests[last]) == [Respond(process, requests[last]).value];
    }
  }

  class ProcessorCoordinator<Q, S> {
    const requestQueue: RedisQueueService<Request<Q>>
    const responseQueue: RedisQueueService<Response<S>>
    const processor: RequestProcessor<Q, S>
    const logger: Logger
    var tokenSource: CancellationTokenSource?
    var processingTask: LoopTask?

    /** A held token source always belongs to the loop that was started with it. */
    predicate Valid()
      reads this
    {
      tokenSource != null ==> processingTask != null && processingTask.token == tokenSource
    }

    constructor Init(requestQueue: RedisQueueService<Request<Q>>, responseQueue: RedisQueueService<Response<S>>,
                     processor: RequestProcessor<Q, S>, logger: Logger)
      ensures this.requestQueue == requestQueue && this.responseQueue == responseQueue
      ensures this.processor == processor && this.logger == logger
      ensures tokenSource == null && processingTask == null && Valid()
    {
      this.requestQueue, this.responseQueue := requestQueue, responseQueue;
      this.processor, this.logger := processor, logger;
      tokenSource, processingTask := null, null;
    }

    /** The constructor's null checks: requestQueue, responseQueue, processor, logger. */
    static function ConstructorCheck(requestQueue: bool, responseQueue: bool, processor: bool, logger: bool): (r: Outcome)
      ensures !requestQueue ==> r == Fail(ArgumentNull("requestQueue"))
      ensures requestQueue && !responseQueue ==> r == Fail(ArgumentNull("responseQueue"))
      ensures requestQueue && responseQueue && !processor ==> r == Fail(ArgumentNull("processor"))
      ensures requestQueue && responseQueue && processor && !logger ==> r == Fail(ArgumentNull("logger"))
      ensures r.Pass? <==> requestQueue && responseQueue && processor && logger
    {
      var deps := [Dependency("requestQueue", requestQueue), Dependency("responseQueue", responseQueue),
                   Dependency("processor", processor), Dependency("logger", logger)];
      assert deps[0].name == "requestQueue" && deps[1].name == "responseQueue";
      assert deps[2].name == "processor" && deps[3].name == "logger";
      CheckNotNull(deps)
    }

    static method Create(requestQueue: RedisQueueService?<Request<Q>>, responseQueue: RedisQueueService?<Response<S>>,
                         processor: RequestProcessor?<Q, S>, logger: Logger?)
      returns (r: Result<ProcessorCoordinator<Q, S>>)
      ensures var check := ConstructorCheck(requestQueue != null, responseQueue != null, processor != null, logger != null);
        (r.Err? <==> check.Fail?) && (r.Err? ==> r.error == check.error)
      ensures r.Ok? ==> (
        fresh(r.value) && r.value.requestQueue == requestQueue && r.value.responseQueue == responseQueue &&
        r.value.processor == processor && r.value.logger == logger &&
        r.value.tokenSource == null && r.value.processingTask == null && r.value.Valid())
    {
      var check := ConstructorCheck(requestQueue != null, responseQueue != null, processor != null, logger != null);
      if check.Fail? {
        r := Err(check.error);
      } else {
        var coordinator := new ProcessorCoordinator.Init(requestQueue, responseQueue, processor, logger);
        r := Ok(coordinator);
      }
    }

    /**
     * StartAsync: a new token source linked to the caller's token, and a new
     * loop polling it. Nothing guards a second start: the previous source and
     * loop are dropped, not stopped.
     */
    method Start(cancellationToken: CancellationTokenSource?)
      modifies this
      ensures tokenSource != null && fresh(tokenSource) && processingTask != null && fresh(processingTask)
      ensures tokenSource.parent == cancellationToken && !tokenSource.cancelRequested && !tokenSource.disposed
      ensures processingTask.token == tokenSource && processingTask.status == Running
      ensures Valid()
    {
      var source := new CancellationTokenSource.CreateLinked(cancellationToken);
      var task := new LoopTask(source);
      tokenSource, processingTask := source, task;
    }

    /**
     * StopAsync: with no token source held, nothing happens. Otherwise the
     * source is cancelled, the loop is awaited and whatever it threw is
     * logged and swallowed, and the source is disposed and released. Either
     * way no source is held afterwards, so a second stop does nothing.
     */
    method Stop() returns (log: StopLog)
      requires Valid()
      modifies this, tokenSource, if tokenSource == null then null else processingTask
      ensures Valid() && tokenSource == null && processingTask == old(processingTask)
      ensures old(tokenSource) == null ==> log == NoLoop && unchanged(this)
      ensures old(tokenSource) != null ==> (
        old(tokenSource).cancelRequested && old(tokenSource).disposed &&
        processingTask.status ==
          (if old(processingTask.status).Running? then RanToCompletion else old(processingTask.status)) &&
        log == (if old(processingTask.status).Faulted? then LoopFailed(old(processingTask.status).error) else Stopped))
    {
      if tokenSource == null {
        log := NoLoop;
        return;
      }
      tokenSource.Cancel();
      log := Join(processingTask);
      tokenSource.Dispose();
      tokenSource := null;
    }

    /**
     * One pass of ProcessQueueAsync. Cancellation ends the loop. A failed
     * dequeue escapes the loop and faults it. An empty queue only idles.
     * A request is processed and its response enqueued; a failure of either
     * is caught, nothing is enqueued for that request, and the loop goes on.
     * `task` is the loop task that Start created and keeps in processingTask.
     */
    method Step(task: LoopTask) returns (it: Iteration<Request<Q>>)
      requires task.status == Running
      modifies task, requestQueue.list, responseQueue.list
      ensures Cancelled(task.token) ==> (
        it == Exited && task.status == RanToCompletion &&
        requestQueue.Items() == old(requestQueue.Items()) && responseQueue.Items() == old(responseQueue.Items()))
      ensures !Cancelled(task.token) && !requestQueue.Reachable() ==> (
        it == DequeueFailed(StoreFailure(requestQueue.list.key)) &&
        task.status == Faulted(StoreFailure(requestQueue.list.key)) &&
        requestQueue.Items() == old(requestQueue.Items()) && responseQueue.Items() == old(responseQueue.Items()))
      ensures !Cancelled(task.token) && requestQueue.Reachable() && old(requestQueue.Items()) == [] ==> (
        it == Idle && task.status == Running &&
        requestQueue.Items() == [] && responseQueue.Items() == old(responseQueue.Items()))
      ensures !Cancelled(task.token) && requestQueue.Reachable() && old(requestQueue.Items()) != [] ==> (
        var request := old(requestQueue.Items())[0];
        it.Handled? && it.item == request && task.status == Running &&
        requestQueue.Items() == old(requestQueue.Items())[1..] &&
        responseQueue.Items() == old(responseQueue.Items()) +
          (if responseQueue.Reachable() then Emitted(processor.process, request) else []) &&
        (it.outcome.Pass? <==> Respond(processor.process, request).Ok? && responseQueue.Reachable()))
    {
      if Cancelled(task.token) {
        it := Exited;
        task.status := RanToCompletion;
        return;
      }
      var dequeued := requestQueue.Dequeue();
      if dequeued.Err? {
        it := DequeueFailed(dequeued.error);
        task.status := Faulted(dequeued.error);
        return;
      }
      match dequeued.value
      case None =>
        it := Idle;
      case Some(request) =>
        var responded := Respond(processor.process, request);
        if responded.Err? {
          it := Handled(request, Fail(responded.error));
        } else {
          var enqueued := responseQueue.Enqueue(Some(responded.value));
          it := Handled(request, if enqueued.Ok? then Pass else Fail(enqueued.error));
        }
    }

    /**
     * The loop for at most n passes. Uncancelled, with the request store
     * reachable, it takes the first min(n, |queue|) requests in FIFO order
     * and leaves exactly their responses, in order, on the response queue;
     * requests the processor fails on are skipped and the loop carries on.
     */
    method Run(task: LoopTask, n: nat)
      requires task.status == Running
      modifies task, requestQueue.list, responseQueue.list
      ensures n == 0 || Cancelled(task.token) || !requestQueue.Reachable() ==> (
        requestQueue.Items() == old(requestQueue.Items()) && responseQueue.Items() == old(responseQueue.Items()))
      ensures n > 0 && Cancelled(task.token) ==> task.status == RanToCompletion
      ensures n > 0 && !Cancelled(task.token) && !requestQueue.Reachable() ==>
        task.status == Faulted(StoreFailure(requestQueue.list.key))
      ensures !Cancelled(task.token) && requestQueue.Reachable() ==> (
        var pending := old(requestQueue.Items());
        var k := if n < |pending| then n else |pending|;
        task.status == Running &&
        requestQueue.Items() == pending[k..] &&
        responseQueue.Items() == old(responseQueue.Items()) +
          (if responseQueue.Reachable() then Responses(processor.process, pending[..k]) else []))
    {
      if n == 0 || Cancelled(task.token) || !requestQueue.Reachable() {
        // The token and the store's reachability do not change while the
        // loop runs, so the first pass is also the last.
        if n > 0 {
          var _ := Step(task);
        }
      } else {
        Drain(task, n);
      }
    }

    /** The loop's passes while it is not cancelled and the request store is reachable. */
    method Drain(task: LoopTask, n: nat)
      requires task.status == Running && !Cancelled(task.token) && requestQueue.Reachable()
      modifies task, requestQueue.list, responseQueue.list
      ensures var pending := old(requestQueue.Items());
        var k := if n < |pending| then n else |pending|;
        task.status == Running &&
        requestQueue.Items() == pending[k..] &&
        responseQueue.Items() == old(responseQueue.Items()) +
          (if responseQueue.Reachable() then Responses(processor.process, pending[..k]) else [])
    {
      ghost var pending := requestQueue.Items();
      ghost var answered := responseQueue.Items();
      ghost var reachable := responseQueue.Reachable();
      var i := 0;
      ghost var k := 0;
      assert pending[..0] == [] && answered + [] == answered;
      while i < n
        invariant i <= n && k == (if i < |pending| then i else |pending|)
        invariant requestQueue.Reachable() && !Cancelled(task.token)
        invariant task.status == Running
        invariant requestQueue.Items() == pending[k..]
        invariant reachable ==> responseQueue.Items() == answered + Responses(processor.process, pending[..k])
        invariant !reachable ==> responseQueue.Items() == answered
        decreases n - i
      {
        ghost var sent := responseQueue.Items();
        var it := Step(task);
        if k < |pending| {
          assert pending[k..][0] == pending[k] && pending[k..][1..] == pending[k + 1..];
          if reachable {
            AnsweredSnoc(processor.process, pending, k, answered, sent);
          }
          k := k + 1;
        }
        i := i + 1;
      }
    }
  }
}
