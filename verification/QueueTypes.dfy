/** Types shared by both queues, and the reference meaning of a bounded queue. */
module QueueTypes {

  datatype Option<+T> = None | Some(value: T)

  /** What a queue does when a push arrives and the queue is full. */
  datatype Policy = Block | DropOldest | DropNewest

  datatype PushResult = Accepted | DroppedOldest | RejectedBackpressure

  /** The reference push: contents afterwards and the reported outcome. */
  function PushSpec<T>(items: seq<T>, cap: nat, policy: Policy, x: T): (r: (seq<T>, PushResult))
    requires 0 < cap
    ensures |items| <= cap ==> |r.0| <= cap
    ensures r.1.RejectedBackpressure? <==> |items| >= cap && !policy.DropOldest?
  {
    if |items| < cap then (items + [x], Accepted)
    else if policy.DropOldest? then (items[1..] + [x], DroppedOldest)
    else (items, RejectedBackpressure)
  }
}
