/**
 * The value records that travel through the pipeline, the exceptions the
 * core raises or passes on, and the null checks every constructor starts with.
 */
module Models {

  datatype Option<T> = None | Some(value: T)

  /** The exceptions of the core, each with what identifies it. */
  datatype Error =
    | ArgumentNull(paramName: string)       // ArgumentNullException
    | Argument(paramName: string)           // ArgumentException (a null or empty string)
    | NullReference                         // a null dependency dereferenced
    | InvalidOperation(message: string)     // InvalidOperationException
    | HubError(message: string)             // HubException, shown to the calling client
    | StoreFailure(key: string)             // the queue store could not be reached
    | TransportFailure(connectionId: string) // the push to a client connection failed
    | ProcessingFailure(reason: string)     // the request processor threw

  datatype Result<T> = Ok(value: T) | Err(error: Error)

  /** The completion of a call that returns no value: it ran, or it threw. */
  datatype Outcome = Pass | Fail(error: Error)

  /**
   * GenericRequest: the caller's correlation id, the connection the request
   * came from (a nullable string) and the payload.
   */
  datatype Request<T> = Request(requestId: string, connectionId: Option<string>, data: T)

  /**
   * GenericResponse. The variant in NetShape.Models carries the connection
   * id; the ones in NetShape.Core.Models and Core/Coordinator.cs have no such
   * property, which is a response whose connectionId is None here.
   */
  datatype Response<T> = Response(requestId: string, connectionId: Option<string>, data: T)

  /** One push of a response to one client connection. */
  datatype Delivery<T> = Delivery(connectionId: string, response: Response<T>)

  /** string.IsNullOrEmpty */
  predicate IsNullOrEmpty(s: Option<string>) {
    s.None? || s.value == ""
  }

  /** A constructor parameter: its name and whether the caller passed a non-null value. */
  datatype Dependency = Dependency(name: string, present: bool)

  /**
   * The `x ?? throw new ArgumentNullException(nameof(x))` chain at the top of
   * a constructor: the first missing dependency, in parameter order, is the
   * one reported.
   */
  function CheckNotNull(deps: seq<Dependency>): (r: Outcome)
    ensures r.Pass? <==> forall i :: 0 <= i < |deps| ==> deps[i].present
    ensures forall i :: 0 <= i < |deps| && !deps[i].present && (forall j :: 0 <= j < i ==> deps[j].present) ==>
      r == Fail(ArgumentNull(deps[i].name))
  {
    if deps == [] then Pass
    else if !deps[0].present then Fail(ArgumentNull(deps[0].name))
    else
      var rest := CheckNotNull(deps[1..]);
      assert forall i :: 1 <= i < |deps| ==> deps[i] == deps[1..][i - 1];
      rest
  }
}
