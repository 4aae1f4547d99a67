/**
 * The FIFO contract both queue services keep: enqueue appends at the tail,
 * dequeue removes the head or reports "empty" without failing.
 */
module QueueContract {
  import opened Models

  datatype Op<T> = Put(item: T) | Take

  /** One operation on the queue's contents: the new contents and what a Take returned. */
  function Apply<T>(q: seq<T>, op: Op<T>): (seq<T>, Option<T>) {
    match op
    case Put(x) => (q + [x], None)
    case Take => if q == [] then ([], None) else (q[1..], Some(q[0]))
  }

  /** A single consumer's run of operations: the final contents and each operation's result. */
  function Replay<T>(q: seq<T>, ops: seq<Op<T>>): (seq<T>, seq<Option<T>>)
    decreases |ops|
  {
    if ops == [] then (q, [])
    else
      var (q1, out) := Apply(q, ops[0]);
      var (final, outs) := Replay(q1, ops[1..]);
      (final, [out] + outs)
  }

  /** The items the operations put, in order. */
  function Puts<T>(ops: seq<Op<T>>): seq<T> {
    if ops == [] then []
    else (if ops[0].Put? then [ops[0].item] else []) + Puts(ops[1..])
  }

  /** The items the Takes returned, in order, skipping the "empty" results. */
  function Taken<T>(outs: seq<Option<T>>): seq<T> {
    if outs == [] then []
    else (if outs[0].Some? then [outs[0].value] else []) + Taken(outs[1..])
  }

  /**
   * FIFO: what was taken, followed by what is still queued, is exactly what
   * was there at the start followed by everything put, in order. So nothing
   * is lost, duplicated or reordered.
   */
  lemma {:induction false} Fifo<T>(q: seq<T>, ops: seq<Op<T>>)
    ensures Taken(Replay(q, ops).1) + Replay(q, ops).0 == q + Puts(ops)
    decreases |ops|
  {
    if ops != [] {
      var (q1, out) := Apply(q, ops[0]);
      var (final, outs) := Replay(q1, ops[1..]);
      Fifo(q1, ops[1..]);
      assert Replay(q, ops) == (final, [out] + outs);
      assert Taken([out] + outs) == (if out.Some? then [out.value] else []) + Taken(outs) by {
        assert ([out] + outs)[1..] == outs;
      }
      match ops[0]
      case Put(x) =>
        calc {
          Taken([out] + outs) + final;
          Taken(outs) + final;
          q1 + Puts(ops[1..]);
          q + ([x] + Puts(ops[1..]));
          q + Puts(ops);
        }
      case Take =>
        if q != [] {
          calc {
            Taken([out] + outs) + final;
            [q[0]] + (Taken(outs) + final);
            [q[0]] + (q[1..] + Puts(ops[1..]));
            q + Puts(ops);
          }
        }
    }
  }

  /** A consumer that has taken k items has received the first k items put into an empty queue. */
  lemma {:induction false} TakenInPutOrder<T>(ops: seq<Op<T>>)
    ensures var taken := Taken(Replay([], ops).1);
      |taken| <= |Puts(ops)| && taken == Puts(ops)[..|taken|]
  {
    var taken, final := Taken(Replay([], ops).1), Replay([], ops).0;
    Fifo([], ops);
    assert taken + final == Puts(ops);
    assert (taken + final)[..|taken|] == taken;
  }

  /** Round trip: put X into an empty queue, take, and X comes back; the queue is empty again. */
  lemma {:induction false} PutThenTake<T>(x: T)
    ensures Replay([], [Put(x), Take]) == ([], [None, Some(x)])
  {
    var empty: seq<T> := [];
    var ops := [Put(x), Take];
    var rest := ops[1..];
    assert rest == [Take] && rest[1..] == [];
    assert empty + [x] == [x];
    assert Apply(empty, ops[0]) == ([x], None);
    assert Apply([x], rest[0]) == (empty, Some(x)) by { assert [x][1..] == empty; }
    var none: seq<Option<T>> := [];
    assert Replay(empty, rest[1..]) == (empty, none);
    assert [Some(x)] + none == [Some(x)] && [None] + [Some(x)] == [None, Some(x)];
    assert Replay([x], rest) == (empty, [Some(x)]);
    assert Replay(empty, ops) == (empty, [None, Some(x)]);
  }
}
