/** The mutex-guarded queue. Its methods hold one lock throughout, so each is one atomic action;
    pop() is modelled from the moment its wait is over. */
module BoundedQueues {
  import opened QueueTypes

  class BoundedQueue<T> {
    const capacity: nat
    const policy: Policy
    var items: seq<T>
    var shuttingDown: bool

    ghost predicate Valid()
      reads this
    {
      0 < capacity && |items| <= capacity
    }

    constructor (capacity: nat, policy: Policy)
      requires 0 < capacity
      ensures Valid() && items == [] && !shuttingDown
      ensures this.capacity == capacity && this.policy == policy
    {
      this.capacity, this.policy := capacity, policy;
      items, shuttingDown := [], false;
    }

    method Push(item: T) returns (result: PushResult)
      requires Valid()
      modifies this`items
      ensures Valid()
      ensures (items, result) == PushSpec(old(items), capacity, policy, item)
    {
      if |items| < capacity {
        items := items + [item];
        return Accepted;
      }
      if policy.DropOldest? {
        items := items[1..];
        items := items + [item];
        return DroppedOldest;
      }
      return RejectedBackpressure;
    }

    /** Returns once there is an item or the queue is shutting down. */
    method Pop() returns (item: Option<T>)
      requires Valid() && (items != [] || shuttingDown)
      modifies this`items
      ensures Valid()
      ensures old(items) != [] ==> item == Some(old(items[0])) && items == old(items[1..])
      ensures old(items) == [] ==> item == None && items == []
    {
      if items == [] {
        return None;
      }
      item := Some(items[0]);
      items := items[1..];
    }

    method Shutdown()
      requires Valid()
      modifies this`shuttingDown
      ensures Valid() && shuttingDown
    {
      shuttingDown := true;
    }
  }
}
