/**
 * The OnRequestReceived events. Every handler the core subscribes to such an
 * event is a coordinator's OnRequestReceivedAsync, which enqueues the request
 * it is handed on that coordinator's request queue. Raising the event invokes
 * every subscribed handler in subscription order; the raiser awaits the task
 * of the last one.
 */
module Events {
  import opened Models
  import opened RedisQueue

  /** A coordinator's OnRequestReceivedAsync, bound to the coordinator's request queue. */
  class RequestHandler<Q> {
    /** Null only for the legacy coordinator, which never checks its queue. */
    const requestQueue: RedisQueueService?<Request<Q>>

    constructor (requestQueue: RedisQueueService?<Request<Q>>)
      ensures this.requestQueue == requestQueue
    {
      this.requestQueue := requestQueue;
    }

    /** How the handler's task completes in the current state of its store. */
    function Expected(): Outcome
      reads if requestQueue == null then {} else {requestQueue.list.store}
    {
      if requestQueue == null then Fail(NullReference)
      else if requestQueue.Reachable() then Pass
      else Fail(StoreFailure(requestQueue.list.key))
    }

    /**
     * Enqueues the request it is handed, unchanged, exactly once; a store
     * failure is the task's exception. A null queue is dereferenced.
     */
    method Invoke(request: Request<Q>) returns (o: Outcome)
      modifies if requestQueue == null then {} else {requestQueue.list}
      ensures o == Expected()
      ensures requestQueue != null ==>
        requestQueue.list.items ==
          old(requestQueue.list.items) + (if requestQueue.list.store.available then [request] else [])
    {
      if requestQueue == null {
        o := Fail(NullReference);
      } else {
        var r := requestQueue.Enqueue(Some(request));
        o := if r.Ok? then Pass else Fail(r.error);
      }
    }
  }

  /** The Redis lists an invocation of these handlers may write to. */
  ghost function ListsOf<Q>(handlers: seq<RequestHandler<Q>>): set<RedisList<Request<Q>>>
  {
    set i | 0 <= i < |handlers| && handlers[i].requestQueue != null :: handlers[i].requestQueue.list
  }

  /** The stores holding those lists, whose availability decides each call. */
  ghost function StoresOf<Q>(handlers: seq<RequestHandler<Q>>): set<RedisStore<Request<Q>>>
  {
    set i | 0 <= i < |handlers| && handlers[i].requestQueue != null :: handlers[i].requestQueue.list.store
  }

  /** Whether the handler enqueues on list `l`. */
  predicate Targets<Q>(h: RequestHandler<Q>, l: RedisList<Request<Q>>)
  {
    h.requestQueue != null && h.requestQueue.list == l
  }

  /** How many of the first n handlers enqueue on list `l`. */
  ghost function Subscriptions<Q>(handlers: seq<RequestHandler<Q>>, n: nat, l: RedisList<Request<Q>>): nat
    requires n <= |handlers|
  {
    if n == 0 then 0
    else Subscriptions(handlers, n - 1, l) + (if Targets(handlers[n - 1], l) then 1 else 0)
  }

  /** n copies of x. */
  function Copies<T>(x: T, n: nat): (r: seq<T>)
    ensures |r| == n && forall i :: 0 <= i < n ==> r[i] == x
  {
    if n == 0 then [] else Copies(x, n - 1) + [x]
  }

  /**
   * The effect of raising the event with `request`: every list the handlers
   * use has gained one copy of the request per handler that enqueues on it,
   * provided its store is reachable; a list of an unreachable store is
   * untouched.
   */
  twostate predicate Dispatched<Q>(handlers: seq<RequestHandler<Q>>, request: Request<Q>)
    reads ListsOf(handlers), StoresOf(handlers)
  {
    forall j :: 0 <= j < |handlers| && handlers[j].requestQueue != null ==>
      var l := handlers[j].requestQueue.list;
      l.items == old(l.items) + Copies(request, if l.store.available then Subscriptions(handlers, |handlers|, l) else 0)
  }

  /**
   * A handler that is the only one among the first n enqueuing on `l` puts
   * each raised request there exactly once.
   */
  lemma {:induction false} SubscribedOnce<Q>(handlers: seq<RequestHandler<Q>>, n: nat, i: nat, l: RedisList<Request<Q>>)
    requires i < n <= |handlers| && Targets(handlers[i], l)
    requires forall j :: 0 <= j < n && j != i ==> !Targets(handlers[j], l)
    ensures Subscriptions(handlers, n, l) == 1
  {
    if i == n - 1 {
      NoneSubscribed(handlers, n - 1, l);
    } else {
      SubscribedOnce(handlers, n - 1, i, l);
    }
  }

  lemma {:induction false} NoneSubscribed<Q>(handlers: seq<RequestHandler<Q>>, n: nat, l: RedisList<Request<Q>>)
    requires n <= |handlers|
    requires forall j :: 0 <= j < n ==> !Targets(handlers[j], l)
    ensures Subscriptions(handlers, n, l) == 0
  {
    if n > 0 {
      NoneSubscribed(handlers, n - 1, l);
    }
  }

  lemma {:induction false} CopiesSnoc<T>(x: T, n: nat)
    ensures Copies(x, n) + [x] == Copies(x, n + 1)
  {
  }

  /** The contents of each handler's list, by handler (empty for a null queue). */
  ghost function Snapshot<Q>(handlers: seq<RequestHandler<Q>>): (r: seq<seq<Request<Q>>>)
    reads ListsOf(handlers)
    ensures |r| == |handlers|
    ensures forall j :: 0 <= j < |handlers| && handlers[j].requestQueue != null ==>
      r[j] == handlers[j].requestQueue.list.items
  {
    seq(|handlers|, j requires 0 <= j < |handlers| reads ListsOf(handlers) =>
      if handlers[j].requestQueue == null then [] else handlers[j].requestQueue.list.items)
  }

  /**
   * After the first n handlers have run, each list holds what it held at the
   * start plus one copy of the request per handler so far that targets it,
   * when its store is reachable.
   */
  ghost predicate Progress<Q>(handlers: seq<RequestHandler<Q>>, start: seq<seq<Request<Q>>>, request: Request<Q>, n: nat)
    requires n <= |handlers| && |start| == |handlers|
    reads ListsOf(handlers), StoresOf(handlers)
  {
    forall j :: 0 <= j < |handlers| && handlers[j].requestQueue != null ==>
      var l := handlers[j].requestQueue.list;
      l.items == start[j] + Copies(request, if l.store.available then Subscriptions(handlers, n, l) else 0)
  }

  /** Runs the i-th handler, taking the event from Progress over i handlers to i + 1. */
  method InvokeNext<Q>(handlers: seq<RequestHandler<Q>>, ghost start: seq<seq<Request<Q>>>, request: Request<Q>, i: nat)
    returns (o: Outcome)
    requires i < |handlers| && |start| == |handlers|
    requires Progress(handlers, start, request, i)
    modifies ListsOf(handlers)
    ensures o == handlers[i].Expected()
    ensures Progress(handlers, start, request, i + 1)
  {
    var h := handlers[i];
    assert h.requestQueue != null ==> h.requestQueue.list in ListsOf(handlers);
    o := h.Invoke(request);
    forall j | 0 <= j < |handlers| && handlers[j].requestQueue != null
      ensures var l := handlers[j].requestQueue.list;
        l.items == start[j] + Copies(request, if l.store.available then Subscriptions(handlers, i + 1, l) else 0)
    {
      var l := handlers[j].requestQueue.list;
      if Targets(h, l) && l.store.available {
        CopiesSnoc(request, Subscriptions(handlers, i, l));
      }
    }
  }

  /**
   * The multicast invocation of a non-empty event: every handler runs, in
   * order, and the task awaited is the last handler's.
   */
  method InvokeAll<Q>(handlers: seq<RequestHandler<Q>>, request: Request<Q>) returns (o: Outcome)
    requires handlers != []
    modifies ListsOf(handlers)
    ensures Dispatched(handlers, request)
    ensures o == handlers[|handlers| - 1].Expected()
  {
    ghost var start := Snapshot(handlers);
    var i := 0;
    o := Pass;
    while i < |handlers|
      invariant 0 <= i <= |handlers|
      invariant Progress(handlers, start, request, i)
      invariant i > 0 ==> o == handlers[i - 1].Expected()
    {
      o := InvokeNext(handlers, start, request, i);
      i := i + 1;
    }
  }
}
