/** InMemoryQueueService: a process-local FIFO for single-process use. */
module InMemoryQueue {
  import opened Models
  import QueueContract

  class InMemoryQueueService<T> {
    /** The ConcurrentQueue's contents, head first. */
    var items: seq<T>

    constructor ()
      ensures items == []
    {
      items := [];
    }

    /** Appends at the tail. There is no null check and no failure. */
    method Enqueue(item: T)
      modifies this
      ensures items == old(items) + [item]
      ensures (items, None) == QueueContract.Apply(old(items), QueueContract.Put(item))
    {
      items := items + [item];
    }

    /**
     * Removes and returns the head; on an empty queue returns default(T)
     * (None) immediately, leaving the queue empty.
     */
    method Dequeue() returns (r: Option<T>)
      modifies this
      ensures old(items) == [] ==> r == None && items == []
      ensures old(items) != [] ==> r == Some(old(items)[0]) && items == old(items)[1..]
      ensures (items, r) == QueueContract.Apply(old(items), QueueContract.Take)
    {
      if items == [] {
        r := None;
      } else {
        r := Some(items[0]);
        items := items[1..];
      }
    }
  }
}
