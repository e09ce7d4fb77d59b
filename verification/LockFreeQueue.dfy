/** The lock-free queue as an object used by one thread at a time: each operation runs without
    interference, but consumers may be stalled between their claim and their release. The
    ghost `ring` follows the arrays through the same atomic actions the concurrent machine uses. */
module LockFreeQueues {
  import opened QueueTypes
  import opened Rings
  import opened RingArithmetic
  import opened BoundedQueues

  /** An uninterrupted try_push that finds room: claim, store, publish. */
  ghost function Enqueue<T>(r: Ring<T>, item: T): Ring<T>
    requires Shaped(r) && Shaped(ClaimPush(r, 0, item))
  {
    Publish(WriteSlot(ClaimPush(r, 0, item), r.enq, item), r.enq)
  }

  lemma EnqueueKeeps<T>(r: Ring<T>, item: T)
    requires RingInv(r) && HasRoom(r)
    ensures Shaped(ClaimPush(r, 0, item)) && RingInv(Enqueue(r, item))
  {
    NextStamp(r);
    ClaimPushKeeps(r, 0, item);
    var r1 := ClaimPush(r, 0, item);
    WriteSlotKeeps(r1, r.enq);
    var r2 := WriteSlot(r1, r.enq, item);
    assert r1.log[r.enq] == item;
    PublishKeeps(r2, r.enq);
  }

  lemma EnqueueAppends<T>(r: Ring<T>, item: T)
    requires Shaped(r) && HasRoom(r) && r.writers == {} && r.written == {}
    ensures Shaped(ClaimPush(r, 0, item))
    ensures var r' := Enqueue(r, item);
            && Shaped(r') && Contents(r') == Contents(r) + [item] && r'.writers == {}
            && r'.stamps == Put(r.stamps, r.enq, r.enq + 1) && r'.store == Put(r.store, r.enq, item)
  {
  }

  /** An uninterrupted try_pop that finds an item: claim, take, release. */
  ghost function Dequeue<T>(r: Ring<T>): Ring<T>
    requires Shaped(r) && Shaped(ClaimPop(r, 0)) && r.deq < r.enq
  {
    Release(ClaimPop(r, 0), r.deq, r.log[r.deq])
  }

  lemma DequeueKeeps<T>(r: Ring<T>)
    requires RingInv(r) && Published(r, r.deq)
    ensures Shaped(ClaimPop(r, 0)) && RingInv(Dequeue(r)) && At(r.store, r.deq) == r.log[r.deq]
  {
    HeadStamp(r);
    ClaimPopKeeps(r, 0);
    ReleaseKeeps(ClaimPop(r, 0), r.deq);
  }

  lemma DequeueRemoves<T>(r: Ring<T>)
    requires Shaped(r) && r.deq < r.enq && r.deq !in r.readers
    ensures Shaped(ClaimPop(r, 0))
    ensures var r' := Dequeue(r);
            && Shaped(r') && Contents(r) == [r.log[r.deq]] + Contents(r') && r'.readers == r.readers
            && r'.stamps == Put(r.stamps, r.deq, r.deq + |r.stamps|)
  {
  }

  /** One store into the buffer. */
  method StoreAt<A>(a: array<A>, i: nat, value: A)
    requires i < a.Length
    modifies a
    ensures a[..] == old(a[..])[i := value]
  {
    a[i] := value;
  }

  lemma FreshRing<T>(r: Ring<T>)
    requires r.cap >= 2 && |r.stamps| == |r.store| == r.cap && forall i :: 0 <= i < r.cap ==> r.stamps[i] == i
    requires r == Ring(r.cap, r.stamps, r.store, 0, 0, [], [], [], {}, {}, {}, {}, map[])
    ensures RingInv(r)
  {
    assert forall p: nat :: p < r.cap ==> At(r.stamps, p) == p;
  }

  /** With nobody between claim and release, room is room between the cursors. */
  lemma RoomWhenQuiescent<T>(r: Ring<T>)
    requires Shaped(r)
    ensures |Contents(r)| <= r.cap && (HasRoom(r) ==> |Contents(r)| < r.cap)
    ensures r.readers == {} ==> (HasRoom(r) <==> |Contents(r)| < r.cap)
  {
  }

  /** The outcome of a push, when room is room between the cursors, is the reference push. */
  lemma MatchesSpec<T>(before: seq<T>, after: seq<T>, result: PushResult, cap: nat, policy: Policy, x: T, room: bool)
    requires 0 < cap && |before| <= cap && result == Outcome(room, policy, |before| == cap)
    requires after == Left(before, result, policy, x)
    ensures (room <==> |before| < cap) ==> (after, result) == PushSpec(before, cap, policy, x)
  {
  }

  ghost function Outcome(room: bool, policy: Policy, full: bool): PushResult
  {
    if room then Accepted else if policy.DropOldest? && full then DroppedOldest else RejectedBackpressure
  }

  /** What a push leaves: DropOldest discards an item even when it ends up rejected. */
  ghost function Left<T>(before: seq<T>, result: PushResult, policy: Policy, x: T): seq<T>
  {
    if result.Accepted? then before + [x]
    else if result.DroppedOldest? then (if before == [] then [] else before[1..]) + [x]
    else if policy.DropOldest? && before != [] then before[1..]
    else before
  }

  class LockFreeQueue<T> {
    const mask: nat
    const policy: Policy
    const stamps: array<int>
    const store: array<T>
    var enq: nat
    var deq: nat
    var shuttingDown: bool
    ghost const bits: nat
    ghost var ring: Ring<T>

    ghost predicate Valid()
      reads this, stamps, store
    {
      && mask + 1 == Pow2(bits) && ring.cap == mask + 1 && (stamps as object) != store
      && ring.stamps == stamps[..] && ring.store == store[..]
      && ring.enq == enq && ring.deq == deq
      && RingInv(ring) && ring.writers == {}
    }

    /** The items between the cursors, oldest first. */
    ghost function Items(): seq<T>
      requires Valid()
      reads this, stamps, store
    {
      Contents(ring)
    }

    /** No consumer is stalled inside an operation. */
    ghost predicate Quiescent()
      reads this
    {
      ring.readers == {}
    }

    /** Any capacity the source accepts, rounded up. */
    constructor (capacity: nat, policy: Policy, filler: T)
      requires 0 < capacity <= MAX_CAPACITY
      ensures Valid() && fresh(stamps) && fresh(store)
      ensures Items() == [] && Quiescent() && !shuttingDown && this.policy == policy
      ensures capacity <= mask + 1 && forall j :: capacity <= Pow2(j) && 2 <= Pow2(j) ==> mask + 1 <= Pow2(j)
    {
      var rounded, k := ValidatedCapacity(capacity);
      var size := rounded.value;
      mask, this.policy, this.bits := size - 1, policy, k;
      stamps := new int[size](i => i);
      store := new T[size](_ => filler);
      enq, deq, shuttingDown := 0, 0, false;
      new;
      ring := Ring(size, stamps[..], store[..], 0, 0, [], [], [], {}, {}, {}, {}, map[]);
      FreshRing(ring);
    }

    /** try_push after its swap succeeded: store the value, then publish the stamp. */
    method ClaimAndPublish(item: T, slot: nat)
      requires Valid() && HasRoom(ring) && slot == SlotOf(enq, mask + 1)
      modifies this`enq, this`ring, stamps, store
      ensures Valid() && ring.readers == old(ring.readers) && deq == old(deq)
      ensures Contents(ring) == Contents(old(ring)) + [item]
    {
      EnqueueKeeps(ring, item);
      EnqueueAppends(ring, item);
      ghost var published := Enqueue(ring, item);
      StoreAt(store, slot, item);
      StoreAt(stamps, slot, enq + 1);
      enq := enq + 1;
      ring := published;
    }

    method TryPush(item: T) returns (ok: bool)
      requires Valid()
      modifies this`enq, this`ring, stamps, store
      ensures Valid() && ring.readers == old(ring.readers) && deq == old(deq)
      ensures ok <==> old(HasRoom(ring))
      ensures !ok ==> ring == old(ring)
      ensures Contents(ring) == if ok then Contents(old(ring)) + [item] else Contents(old(ring))
    {
      NextStamp(ring);
      MaskIsSlot(enq, bits);
      var slot := BitAnd(enq, mask);
      var diff := stamps[slot] - enq;
      if diff < 0 {
        return false;
      }
      ClaimAndPublish(item, slot);
      return true;
    }

    /** try_pop after its swap succeeded: take the value, then release the slot for the next lap. */
    method ClaimAndRelease(slot: nat) returns (value: T)
      requires Valid() && deq < enq && slot == SlotOf(deq, mask + 1)
      modifies this`deq, this`ring, stamps
      ensures Valid() && ring.readers == old(ring.readers) && enq == old(enq) && deq == old(deq) + 1
      ensures Contents(old(ring)) == [value] + Contents(ring)
    {
      DequeueKeeps(ring);
      DequeueRemoves(ring);
      ghost var released := Dequeue(ring);
      value := store[slot];
      StoreAt(stamps, slot, deq + mask + 1);
      deq := deq + 1;
      ring := released;
    }

    method TryPop() returns (item: Option<T>)
      requires Valid()
      modifies this`deq, this`ring, stamps
      ensures Valid() && ring.readers == old(ring.readers) && enq == old(enq)
      ensures Contents(old(ring)) == [] ==> item == None && Contents(ring) == [] && deq == old(deq)
      ensures Contents(old(ring)) != [] ==>
              item == Some(Contents(old(ring))[0]) && Contents(ring) == Contents(old(ring))[1..] && deq == old(deq) + 1
    {
      HeadStamp(ring);
      MaskIsSlot(deq, bits);
      var slot := BitAnd(deq, mask);
      var diff := stamps[slot] - (deq + 1);
      if diff < 0 {
        return None;
      }
      var value := ClaimAndRelease(slot);
      return Some(value);
    }

    /** The DropOldest branch, on a ring without room. */
    method EvictAndPush(item: T) returns (result: PushResult)
      requires Valid() && !HasRoom(ring)
      modifies this`enq, this`deq, this`ring, stamps, store
      ensures Valid() && ring.readers == old(ring.readers)
      ensures result == if |Contents(old(ring))| == mask + 1 then DroppedOldest else RejectedBackpressure
      ensures Contents(ring) == if result.DroppedOldest? then Contents(old(ring))[1..] + [item]
                         else if Contents(old(ring)) != [] then Contents(old(ring))[1..] else []
    {
      var evicted := TryPop();
      if evicted.Some? {
        var ok := TryPush(item);
        if ok {
          return DroppedOldest;
        }
      }
      return RejectedBackpressure;
    }

    /** try_push, then what the policy says. */
    method PushByPolicy(item: T) returns (result: PushResult)
      requires Valid()
      modifies this`enq, this`deq, this`ring, stamps, store
      ensures Valid() && ring.readers == old(ring.readers)
      ensures result == Outcome(old(HasRoom(ring)), policy, |Contents(old(ring))| == mask + 1)
      ensures Contents(ring) == Left(Contents(old(ring)), result, policy, item)
    {
      var ok := TryPush(item);
      if ok {
        result := Accepted;
      } else if policy.DropOldest? {
        result := EvictAndPush(item);
      } else {
        result := RejectedBackpressure;
      }
    }

    /** Push under every policy, uninterrupted. DropOldest evicts the oldest item and succeeds exactly
        when the ring held N items; when it looks full only because a stalled consumer still holds
        the slot one lap back, an item is discarded and the push is rejected all the same. With
        nobody stalled it is the reference push. */
    method Push(item: T) returns (result: PushResult)
      requires Valid()
      modifies this`enq, this`deq, this`ring, stamps, store
      ensures Valid() && ring.readers == old(ring.readers)
      ensures result == Outcome(old(HasRoom(ring)), policy, |old(Items())| == mask + 1)
      ensures Items() == Left(old(Items()), result, policy, item)
      ensures old(Quiescent()) ==> (Items(), result) == PushSpec(old(Items()), mask + 1, policy, item)
    {
      ghost var before, room := Items(), HasRoom(ring);
      RoomWhenQuiescent(ring);
      result := PushByPolicy(item);
      MatchesSpec(before, Items(), result, mask + 1, policy, item, room);
    }

    /** Returns once there is an item or the queue is shutting down. */
    method Pop() returns (item: Option<T>)
      requires Valid() && (Items() != [] || shuttingDown)
      modifies this`deq, this`ring, stamps
      ensures Valid() && ring.readers == old(ring.readers)
      ensures old(Items()) != [] ==> item == Some(old(Items()[0])) && Items() == old(Items()[1..])
      ensures old(Items()) == [] ==> item == None && Items() == []
    {
      item := TryPop();
    }

    method Shutdown()
      requires Valid()
      modifies this`shuttingDown
      ensures Valid() && shuttingDown && Items() == old(Items())
    {
      shuttingDown := true;
    }

    method Size() returns (n: nat)
      requires Valid()
      ensures n == |Items()|
    {
      n := if enq > deq then enq - deq else 0;
    }
  }

  datatype Call<T> = DoPush(item: T) | DoPop | DoShutdown
  datatype Reply<T> = Pushed(result: PushResult) | Popped(item: Option<T>) | Waits | Done

  /** Both queues hold the same items, at the rounded capacity, and agree on being shut down. */
  ghost predicate Matched<T>(ring: LockFreeQueue<T>, ref: BoundedQueue<T>)
    reads ring, ring.stamps, ring.store, ref
  {
    && ring.Valid() && ref.Valid() && ring.Quiescent()
    && ref.capacity == ring.mask + 1 && ref.policy == ring.policy
    && ref.items == ring.Items() && ref.shuttingDown == ring.shuttingDown
  }

  method AgreePush<T>(ring: LockFreeQueue<T>, ref: BoundedQueue<T>, x: T)
    returns (fromRing: Reply<T>, fromRef: Reply<T>)
    requires Matched(ring, ref)
    modifies ring`enq, ring`deq, ring`ring, ring.stamps, ring.store, ref`items
    ensures Matched(ring, ref) && fromRing == fromRef
  {
    var a := ring.Push(x);
    var b := ref.Push(x);
    return Pushed(a), Pushed(b);
  }

  method AgreePop<T>(ring: LockFreeQueue<T>, ref: BoundedQueue<T>) returns (fromRing: Reply<T>, fromRef: Reply<T>)
    requires Matched(ring, ref)
    modifies ring`deq, ring`ring, ring.stamps, ref`items
    ensures Matched(ring, ref) && fromRing == fromRef
  {
    var n := ring.Size();
    if n == 0 && !ring.shuttingDown {
      return Waits, if ref.items == [] && !ref.shuttingDown then Waits else Done;
    }
    var a := ring.Pop();
    var b := ref.Pop();
    return Popped(a), Popped(b);
  }

  method AgreeShutdown<T>(ring: LockFreeQueue<T>, ref: BoundedQueue<T>) returns (fromRing: Reply<T>, fromRef: Reply<T>)
    requires Matched(ring, ref)
    modifies ring`shuttingDown, ref`shuttingDown
    ensures Matched(ring, ref) && fromRing == fromRef
  {
    ring.Shutdown();
    ref.Shutdown();
    return Done, Done;
  }

  /** One call on both queues: the replies agree and the queues stay matched. */
  method AgreeOnce<T>(ring: LockFreeQueue<T>, ref: BoundedQueue<T>, call: Call<T>)
    returns (fromRing: Reply<T>, fromRef: Reply<T>)
    requires Matched(ring, ref)
    modifies ring, ring.stamps, ring.store, ref
    ensures Matched(ring, ref) && fromRing == fromRef
  {
    match call
    case DoPush(x) => fromRing, fromRef := AgreePush(ring, ref, x);
    case DoPop => fromRing, fromRef := AgreePop(ring, ref);
    case DoShutdown => fromRing, fromRef := AgreeShutdown(ring, ref);
  }

  /** The two queues are interchangeable: every sequence of pushes, pops and shutdowns under every
      policy gives the same replies and leaves the same contents. A pop that finds nothing waits in
      both, or in both reports the end once shut down. */
  method Agree<T>(ring: LockFreeQueue<T>, ref: BoundedQueue<T>, calls: seq<Call<T>>)
    returns (fromRing: seq<Reply<T>>, fromRef: seq<Reply<T>>)
    requires Matched(ring, ref)
    modifies ring, ring.stamps, ring.store, ref
    ensures Matched(ring, ref) && fromRing == fromRef && |fromRing| == |calls|
  {
    fromRing, fromRef := [], [];
    for i := 0 to |calls|
      invariant Matched(ring, ref) && fromRing == fromRef && |fromRing| == i
    {
      var a, b := AgreeOnce(ring, ref, calls[i]);
      fromRing, fromRef := fromRing + [a], fromRef + [b];
    }
  }
}
