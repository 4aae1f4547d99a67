/**
 * RedisQueueService: a durable queue kept as a named list in a Redis store.
 * Items are stored as they are: the JSON encoding is taken to round-trip.
 */
module RedisQueue {
  import opened Models
  import opened Collaborators
  import QueueContract

  /**
   * The Redis database, as far as the queue uses it: whether calls reach the
   * server, and the named lists. A name no list has been made for yet reads
   * as the empty list.
   */
  class RedisStore<T> {
    var available: bool
    var lists: map<string, RedisList<T>>

    constructor ()
      ensures available && lists == map[] && Valid()
    {
      available := true;
      lists := map[];
    }

    /** Every list is filed under its own name and belongs to this store. */
    predicate Valid()
      reads this
    {
      forall k :: k in lists ==> lists[k].store == this && lists[k].key == k
    }

    /** The list under `key`: the same list every time the same name is used. */
    method ListFor(key: string) returns (list: RedisList<T>)
      requires Valid()
      modifies this
      ensures Valid() && list.store == this && list.key == key
      ensures available == old(available)
      ensures key in old(lists) ==> list == old(lists)[key] && lists == old(lists)
      ensures key !in old(lists) ==>
        fresh(list) && list.store == this && list.key == key && list.items == [] &&
        lists == old(lists)[key := list]
    {
      if key in lists {
        list := lists[key];
      } else {
        list := new RedisList(this, key);
        lists := lists[key := list];
      }
    }
  }

  /** One Redis list: its store, its name and its elements, head first. */
  class RedisList<T> {
    const store: RedisStore<T>
    const key: string
    var items: seq<T>

    constructor (store: RedisStore<T>, key: string)
      ensures this.store == store && this.key == key && items == []
    {
      this.store, this.key := store, key;
      items := [];
    }

    /** RPUSH: appends at the tail and answers the new length. */
    method RightPush(value: T) returns (r: Result<nat>)
      modifies this
      ensures store.available ==> items == old(items) + [value] && r == Ok(|items|)
      ensures !store.available ==> items == old(items) && r == Err(StoreFailure(key))
    {
      if store.available {
        items := items + [value];
        r := Ok(|items|);
      } else {
        r := Err(StoreFailure(key));
      }
    }

    /** LPOP: removes and answers the head, or nothing for an empty list. */
    method LeftPop() returns (r: Result<Option<T>>)
      modifies this
      ensures store.available && old(items) == [] ==> items == [] && r == Ok(None)
      ensures store.available && old(items) != [] ==> items == old(items)[1..] && r == Ok(Some(old(items)[0]))
      ensures !store.available ==> items == old(items) && r == Err(StoreFailure(key))
    {
      if !store.available {
        r := Err(StoreFailure(key));
      } else if items == [] {
        r := Ok(None);
      } else {
        var head := items[0];
        items := items[1..];
        r := Ok(Some(head));
      }
    }
  }

  /**
   * The service keeps the store and the queue name it was given; `list` is
   * the list under that name in that store (list.store, list.key).
   */
  class RedisQueueService<T> {
    const list: RedisList<T>
    const logger: Logger

    constructor Init(list: RedisList<T>, logger: Logger)
      ensures this.list == list && this.logger == logger
    {
      this.list, this.logger := list, logger;
    }

    /** The constructor's null checks: redis, then queueName, then logger. */
    static function ConstructorCheck(redis: bool, queueName: bool, logger: bool): (r: Outcome)
      ensures !redis ==> r == Fail(ArgumentNull("redis"))
      ensures redis && !queueName ==> r == Fail(ArgumentNull("queueName"))
      ensures redis && queueName && !logger ==> r == Fail(ArgumentNull("logger"))
      ensures r.Pass? <==> redis && queueName && logger
    {
      var deps := [Dependency("redis", redis), Dependency("queueName", queueName), Dependency("logger", logger)];
      assert deps[0].name == "redis" && deps[1].name == "queueName" && deps[2].name == "logger";
      CheckNotNull(deps)
    }

    /**
     * `new RedisQueueService(redis, queueName, logger)`: throws for the first
     * null argument; otherwise the service works on the list named queueName,
     * shared with every other service of the same store and name.
     */
    static method Create(redis: RedisStore?<T>, queueName: Option<string>, logger: Logger?)
      returns (r: Result<RedisQueueService<T>>)
      requires redis != null ==> redis.Valid()
      modifies redis
      ensures var check := ConstructorCheck(redis != null, queueName.Some?, logger != null);
        (r.Err? <==> check.Fail?) && (r.Err? ==> r.error == check.error)
      ensures r.Err? && redis != null ==> unchanged(redis)
      ensures redis != null ==> redis.Valid()
      ensures r.Ok? ==> (
        fresh(r.value) && r.value.list.store == redis && r.value.list.key == queueName.value &&
        r.value.logger == logger && redis.available == old(redis.available) &&
        (queueName.value in old(redis.lists) ==> r.value.list == old(redis.lists)[queueName.value]) &&
        (queueName.value !in old(redis.lists) ==> fresh(r.value.list) && r.value.list.items == []))
    {
      var check := ConstructorCheck(redis != null, queueName.Some?, logger != null);
      if check.Fail? {
        r := Err(check.error);
      } else {
        var list := redis.ListFor(queueName.value);
        var service := new RedisQueueService.Init(list, logger);
        r := Ok(service);
      }
    }

    /** Whether calls reach the store. */
    function Reachable(): bool
      reads list.store
    {
      list.store.available
    }

    /** The queue's contents, head first. */
    function Items(): seq<T>
      reads list
    {
      list.items
    }

    /**
     * Rejects a null item before touching the store; otherwise pushes it to
     * the tail and answers the new length. A store failure is rethrown.
     */
    method Enqueue(item: Option<T>) returns (r: Result<nat>)
      modifies list
      ensures item.None? ==> r == Err(ArgumentNull("item")) && Items() == old(Items())
      ensures item.Some? && !Reachable() ==> r == Err(StoreFailure(list.key)) && Items() == old(Items())
      ensures item.Some? && Reachable() ==>
        Items() == old(Items()) + [item.value] && r == Ok(|Items()|) &&
        (Items(), None) == QueueContract.Apply(old(Items()), QueueContract.Put(item.value))
    {
      if item.None? {
        r := Err(ArgumentNull("item"));
      } else {
        r := list.RightPush(item.value);
      }
    }

    /**
     * Pops the head; an empty list answers default (None) and is left as it
     * was. A store failure is rethrown.
     */
    method Dequeue() returns (r: Result<Option<T>>)
      modifies list
      ensures !Reachable() ==> r == Err(StoreFailure(list.key)) && Items() == old(Items())
      ensures Reachable() && old(Items()) == [] ==> r == Ok(None) && Items() == []
      ensures Reachable() && old(Items()) != [] ==>
        r == Ok(Some(old(Items())[0])) && Items() == old(Items())[1..]
      ensures Reachable() ==>
        (r.Ok? && (Items(), r.value) == QueueContract.Apply(old(Items()), QueueContract.Take))
    {
      r := list.LeftPop();
    }
  }
}
