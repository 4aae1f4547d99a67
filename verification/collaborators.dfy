/**
 * The collaborators the core is handed but does not implement: the logger,
 * the request processor, cancellation token sources, background tasks and
 * the push channel to client connections.
 */
module Collaborators {
  import opened Models

  /** ILogger: log calls have no effect on the state the core keeps. */
  class Logger {
    constructor () {}
  }

  /**
   * IRequestProcessor: a total function from request payload to response
   * payload, or the exception it throws.
   */
  class RequestProcessor<Q, S> {
    const process: Q -> Result<S>

    constructor (process: Q -> Result<S>)
      ensures this.process == process
    {
      this.process := process;
    }
  }

  /**
   * CancellationTokenSource. A linked source reports cancellation when it or
   * its parent (the caller's token) has been cancelled; a null parent is
   * CancellationToken.None.
   */
  class CancellationTokenSource {
    const parent: CancellationTokenSource?
    var cancelRequested: bool
    var disposed: bool

    constructor CreateLinked(parent: CancellationTokenSource?)
      ensures this.parent == parent && !cancelRequested && !disposed
    {
      this.parent := parent;
      cancelRequested, disposed := false, false;
    }

    predicate IsCancellationRequested()
      reads this, parent
    {
      cancelRequested || (parent != null && parent.cancelRequested)
    }

    method Cancel()
      modifies this
      ensures cancelRequested && disposed == old(disposed)
    {
      cancelRequested := true;
    }

    method Dispose()
      modifies this
      ensures disposed && cancelRequested == old(cancelRequested)
    {
      disposed := true;
    }
  }

  /** A token a loop polls; a null token is never cancelled. */
  predicate Cancelled(token: CancellationTokenSource?)
    reads token, if token == null then null else token.parent
  {
    token != null && token.IsCancellationRequested()
  }

  /** How a background loop has ended, if it has. */
  datatype TaskStatus = Running | RanToCompletion | Faulted(error: Error)

  /** The Task running a coordinator's polling loop, and the token it polls. */
  class LoopTask {
    const token: CancellationTokenSource?
    var status: TaskStatus

    constructor (token: CancellationTokenSource?)
      ensures this.token == token && status == Running
    {
      this.token := token;
      status := Running;
    }
  }

  /** What one pass of a polling loop did. */
  datatype Iteration<T> =
    | Exited                               // cancellation observed at the loop head
    | Idle                                 // nothing queued: the delay, and nothing else
    | DequeueFailed(error: Error)          // the dequeue threw: the loop ends, the task faults
    | Handled(item: T, outcome: Outcome)   // an item was taken; a failure was caught and logged
    | Escaped(item: T, error: Error)       // handling an item threw and nothing caught it: the task faults

  /** What StopAsync logs about the loop it stopped. */
  datatype StopLog = NoLoop | Stopped | LoopFailed(error: Error)

  /**
   * Awaiting a loop whose token has been cancelled: a running loop observes
   * the cancellation at its next check and completes; a loop that already
   * ended keeps its status, and its exception is reported, not rethrown.
   */
  method Join(task: LoopTask) returns (log: StopLog)
    requires Cancelled(task.token)
    modifies task
    ensures task.status == (if old(task.status).Running? then RanToCompletion else old(task.status))
    ensures log == (if old(task.status).Faulted? then LoopFailed(old(task.status).error) else Stopped)
  {
    if task.status.Faulted? {
      log := LoopFailed(task.status.error);
    } else {
      log := Stopped;
      task.status := RanToCompletion;
    }
  }

  /**
   * IHubContext / Clients: the push channel to client connections. Whether a
   * push succeeds is decided by the environment (`available`); `sent` records
   * every push that went out.
   */
  class HubContext<S> {
    const available: bool
    ghost var sent: seq<Delivery<S>>

    constructor (available: bool)
      ensures this.available == available && sent == []
    {
      this.available := available;
      sent := [];
    }

    method SendAsync(connectionId: string, response: Response<S>) returns (o: Outcome)
      modifies this
      ensures o == (if available then Pass else Fail(TransportFailure(connectionId)))
      ensures sent == old(sent) + (if available then [Delivery(connectionId, response)] else [])
    {
      if available {
        sent := sent + [Delivery(connectionId, response)];
        o := Pass;
      } else {
        o := Fail(TransportFailure(connectionId));
      }
    }
  }
}
