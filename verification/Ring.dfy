/** The shared memory of the lock-free queue: a ring of sequence-stamped slots and two cursors,
    together with auxiliary history (what was claimed at each position, who holds a claim,
    what was handed out). Every transition below is one atomic action of the source. */
module Rings {

  type Tid = nat

  datatype Ring<T> = Ring(
    cap: nat,
    stamps: seq<int>,      // slot -> sequence number
    store: seq<T>,         // slot -> storage
    enq: nat,
    deq: nat,
    // auxiliary history
    log: seq<T>,           // position -> value claimed for it
    pushedBy: seq<Tid>,    // position -> thread that won the enqueue cursor there
    poppedBy: seq<Tid>,    // position -> thread that won the dequeue cursor there
    writers: set<nat>,     // positions claimed by a producer and not yet published
    written: set<nat>,     // those of them whose value is already in the slot
    readers: set<nat>,     // positions claimed by a consumer and not yet released
    emptied: set<nat>,     // those of them whose value was already moved out
    taken: map<nat, T>)    // positions released, with the value handed out

  /** The slot of a position, by laps. RingArithmetic shows that this is the masked index. */
  function SlotOf(p: nat, cap: nat): (i: nat)
    requires cap > 0
    ensures i < cap
  {
    if p < cap then p else SlotOf(p - cap, cap)
  }

  lemma {:induction false} DistinctSlots(p: nat, q: nat, cap: nat)
    requires 0 < cap && p < q < p + cap
    ensures SlotOf(p, cap) != SlotOf(q, cap)
    decreases q
  {
    if cap <= p {
      DistinctSlots(p - cap, q - cap, cap);
    } else if cap <= q {
      assert SlotOf(q, cap) == SlotOf(q - cap, cap) == q - cap;
    }
  }

  /** The entry of a ring-indexed sequence at a position, and its update. */
  function At<A>(s: seq<A>, p: nat): A
    requires s != []
  {
    s[SlotOf(p, |s|)]
  }

  function Put<A>(s: seq<A>, p: nat, a: A): (s': seq<A>)
    requires s != []
    ensures |s'| == |s|
  {
    s[SlotOf(p, |s|) := a]
  }

  /** One slot changes; positions less than a lap away keep theirs. */
  lemma PutFrame<A>(s: seq<A>, p: nat, a: A)
    requires s != []
    ensures At(Put(s, p, a), p) == a
    ensures forall q: nat :: q != p && q < p + |s| && p < q + |s| ==> At(Put(s, p, a), q) == At(s, q)
    ensures forall q: nat :: At(Put(s, p, a), q) == At(s, q) || (At(Put(s, p, a), q) == a && At(s, q) == At(s, p))
  {
    forall q: nat | q != p && q < p + |s| && p < q + |s|
      ensures At(Put(s, p, a), q) == At(s, q)
    {
      if q < p { DistinctSlots(q, p, |s|); } else { DistinctSlots(p, q, |s|); }
    }
  }

  lemma NextLap<A>(s: seq<A>, p: nat)
    requires s != []
    ensures At(s, p + |s|) == At(s, p)
  {
  }

  ghost predicate Shaped<T>(r: Ring<T>)
  {
    && r.cap >= 2 && |r.stamps| == |r.store| == r.cap
    && r.deq <= r.enq <= r.deq + r.cap
    && |r.log| == |r.pushedBy| == r.enq && |r.poppedBy| == r.deq
  }

  /** The queue's abstract contents: the values claimed at positions [deq, enq). */
  ghost function Contents<T>(r: Ring<T>): seq<T>
    requires Shaped(r)
  {
    r.log[r.deq..]
  }

  /** Every slot of the window [deq, deq + N) is being written, available, free or being read. */
  ghost predicate StampsInv(stamps: seq<int>, enq: nat, deq: nat, writers: set<nat>, readers: set<nat>)
    requires stamps != []
  {
    && (forall p :: p in writers ==> deq <= p < enq && At(stamps, p) == p)
    && (forall p :: p in readers ==> p < deq && enq <= p + |stamps| && At(stamps, p) == p + 1)
    && (forall p :: deq <= p < enq && p !in writers ==> At(stamps, p) == p + 1)
    && (forall p :: enq <= p < deq + |stamps| && (p < |stamps| || p - |stamps| !in readers) ==> At(stamps, p) == p)
  }

  /** Stamps of passed positions: what a stale local position can still see. */
  ghost predicate StaleInv(stamps: seq<int>, enq: nat, deq: nat)
    requires stamps != []
  {
    && (forall p: nat :: p < enq ==> p <= At(stamps, p))
    && (forall p: nat :: p < deq ==> p < At(stamps, p))
  }

  /** What sits in a slot is what was claimed for its position. */
  ghost predicate StoreInv<T>(r: Ring<T>)
    requires Shaped(r)
  {
    && r.written <= r.writers && r.emptied <= r.readers
    && (forall p :: r.deq <= p < r.enq && (p !in r.writers || p in r.written) ==> At(r.store, p) == r.log[p])
    && (forall p :: p in r.readers && p !in r.emptied ==> 0 <= p < r.deq && At(r.store, p) == r.log[p])
  }

  /** Exactly the passed and released positions were handed out, each with its own value. */
  ghost predicate TakenInv<T>(r: Ring<T>)
    requires Shaped(r)
  {
    && (forall p :: p in r.taken <==> 0 <= p < r.deq && p !in r.readers)
    && (forall p :: p in r.taken ==> r.taken[p] == r.log[p])
  }

  ghost predicate RingInv<T>(r: Ring<T>)
  {
    && Shaped(r)
    && StampsInv(r.stamps, r.enq, r.deq, r.writers, r.readers)
    && StaleInv(r.stamps, r.enq, r.deq)
    && StoreInv(r)
    && TakenInv(r)
  }

  ghost predicate Published<T>(r: Ring<T>, p: nat)
  {
    r.deq <= p < r.enq && p !in r.writers
  }

  /** The enqueue cursor's slot was released by the previous lap. */
  ghost predicate HasRoom<T>(r: Ring<T>)
  {
    r.enq < r.deq + r.cap && (r.enq < r.cap || r.enq - r.cap !in r.readers)
  }

  // ---- the atomic actions on shared memory ----

  ghost function ClaimPush<T>(r: Ring<T>, t: Tid, v: T): Ring<T>
  {
    r.(enq := r.enq + 1, log := r.log + [v], pushedBy := r.pushedBy + [t], writers := r.writers + {r.enq})
  }

  ghost function WriteSlot<T>(r: Ring<T>, p: nat, v: T): Ring<T>
    requires Shaped(r)
  {
    r.(store := Put(r.store, p, v), written := r.written + {p})
  }

  ghost function Publish<T>(r: Ring<T>, p: nat): Ring<T>
    requires Shaped(r)
  {
    r.(stamps := Put(r.stamps, p, p + 1), writers := r.writers - {p}, written := r.written - {p})
  }

  ghost function ClaimPop<T>(r: Ring<T>, t: Tid): Ring<T>
  {
    r.(deq := r.deq + 1, poppedBy := r.poppedBy + [t], readers := r.readers + {r.deq})
  }

  /** Moves the value out; `left` is whatever the move leaves behind in the slot. */
  ghost function TakeSlot<T>(r: Ring<T>, p: nat, left: T): Ring<T>
    requires Shaped(r)
  {
    r.(store := Put(r.store, p, left), emptied := r.emptied + {p})
  }

  ghost function Release<T>(r: Ring<T>, p: nat, v: T): Ring<T>
    requires Shaped(r)
  {
    r.(stamps := Put(r.stamps, p, p + |r.stamps|),
       readers := r.readers - {p}, emptied := r.emptied - {p}, taken := r.taken[p := v])
  }

  // ---- every atomic action keeps the ring invariant ----

  lemma ClaimPushStamps(stamps: seq<int>, enq: nat, deq: nat, writers: set<nat>, readers: set<nat>)
    requires stamps != [] && deq <= enq < deq + |stamps|
    requires StampsInv(stamps, enq, deq, writers, readers) && StaleInv(stamps, enq, deq) && At(stamps, enq) == enq
    requires enq < |stamps| || enq - |stamps| !in readers
    ensures StampsInv(stamps, enq + 1, deq, writers + {enq}, readers)
    ensures StaleInv(stamps, enq + 1, deq)
  {
  }

  lemma ClaimPushKeeps<T>(r: Ring<T>, t: Tid, v: T)
    requires RingInv(r) && At(r.stamps, r.enq) == r.enq
    ensures HasRoom(r)
    ensures RingInv(ClaimPush(r, t, v))
  {
    NextStamp(r);
    ClaimPushStamps(r.stamps, r.enq, r.deq, r.writers, r.readers);
    ClaimPushValues(r, t, v);
  }

  lemma ClaimPushValues<T>(r: Ring<T>, t: Tid, v: T)
    requires Shaped(r) && StoreInv(r) && TakenInv(r)
    requires StampsInv(r.stamps, r.enq, r.deq, r.writers, r.readers)
    requires HasRoom(r)
    ensures var r' := ClaimPush(r, t, v); Shaped(r') && StoreInv(r') && TakenInv(r')
  {
  }

  lemma WriteSlotKeeps<T>(r: Ring<T>, p: nat)
    requires RingInv(r) && p in r.writers
    ensures RingInv(WriteSlot(r, p, r.log[p]))
  {
    PutFrame(r.store, p, r.log[p]);
  }

  lemma PublishStamps(stamps: seq<int>, enq: nat, deq: nat, writers: set<nat>, readers: set<nat>, p: nat)
    requires stamps != [] && deq <= enq <= deq + |stamps|
    requires StampsInv(stamps, enq, deq, writers, readers) && StaleInv(stamps, enq, deq) && p in writers
    ensures StampsInv(Put(stamps, p, p + 1), enq, deq, writers - {p}, readers)
    ensures StaleInv(Put(stamps, p, p + 1), enq, deq)
  {
    PutFrame(stamps, p, p + 1);
  }

  lemma PublishKeeps<T>(r: Ring<T>, p: nat)
    requires RingInv(r) && p in r.written
    ensures RingInv(Publish(r, p))
  {
    PublishStamps(r.stamps, r.enq, r.deq, r.writers, r.readers, p);
  }

  lemma ClaimPopStamps(stamps: seq<int>, enq: nat, deq: nat, writers: set<nat>, readers: set<nat>)
    requires stamps != [] && deq < enq <= deq + |stamps|
    requires StampsInv(stamps, enq, deq, writers, readers) && StaleInv(stamps, enq, deq) && deq !in writers
    ensures StampsInv(stamps, enq, deq + 1, writers, readers + {deq})
    ensures StaleInv(stamps, enq, deq + 1)
  {
  }

  lemma ClaimPopKeeps<T>(r: Ring<T>, t: Tid)
    requires RingInv(r) && At(r.stamps, r.deq) == r.deq + 1
    ensures Published(r, r.deq)
    ensures RingInv(ClaimPop(r, t))
  {
    HeadStamp(r);
    ClaimPopStamps(r.stamps, r.enq, r.deq, r.writers, r.readers);
    ClaimPopValues(r, t);
  }

  lemma ClaimPopValues<T>(r: Ring<T>, t: Tid)
    requires Shaped(r) && StoreInv(r) && TakenInv(r) && Published(r, r.deq)
    requires StampsInv(r.stamps, r.enq, r.deq, r.writers, r.readers)
    ensures var r' := ClaimPop(r, t); Shaped(r') && StoreInv(r') && TakenInv(r')
  {
  }

  lemma TakeSlotKeeps<T>(r: Ring<T>, p: nat, left: T)
    requires RingInv(r) && p in r.readers
    ensures RingInv(TakeSlot(r, p, left))
  {
    PutFrame(r.store, p, left);
  }

  lemma ReleaseStamps(stamps: seq<int>, enq: nat, deq: nat, writers: set<nat>, readers: set<nat>, p: nat)
    requires stamps != [] && deq <= enq <= deq + |stamps|
    requires StampsInv(stamps, enq, deq, writers, readers) && StaleInv(stamps, enq, deq) && p in readers
    ensures StampsInv(Put(stamps, p, p + |stamps|), enq, deq, writers, readers - {p})
    ensures StaleInv(Put(stamps, p, p + |stamps|), enq, deq)
  {
    PutFrame(stamps, p, p + |stamps|);
    NextLap(Put(stamps, p, p + |stamps|), p);
  }

  lemma ReleaseValues<T>(r: Ring<T>, p: nat)
    requires Shaped(r) && StoreInv(r) && TakenInv(r) && p in r.readers && p < r.deq
    ensures StoreInv(Release(r, p, r.log[p])) && TakenInv(Release(r, p, r.log[p]))
  {
  }

  lemma ReleaseKeeps<T>(r: Ring<T>, p: nat)
    requires RingInv(r) && p in r.readers
    ensures RingInv(Release(r, p, r.log[p]))
  {
    ReleaseStamps(r.stamps, r.enq, r.deq, r.writers, r.readers, p);
    ReleaseValues(r, p);
    assert Release(r, p, r.log[p]).stamps == Put(r.stamps, p, p + |r.stamps|);
  }

  // ---- what a load at a cursor can see ----

  /** At the enqueue cursor the difference is 0, 1 - N or -N: free; the previous lap's item
      published or held by a consumer; the previous lap's claim not yet published. */
  lemma NextStamp<T>(r: Ring<T>)
    requires RingInv(r)
    ensures var d := At(r.stamps, r.enq) - r.enq;
            && (d == 0 || d == 1 - r.cap || d == 0 - r.cap)
            && (d == 0 <==> HasRoom(r))
            && (d == 0 - r.cap <==> r.enq == r.deq + r.cap && r.deq in r.writers)
  {
    if r.enq >= r.cap {
      NextLap(r.stamps, r.enq - r.cap);
    }
  }

  /** At the dequeue cursor the difference is 0, -1 or -N: published; not yet published (or
      nothing claimed); nothing claimed and the previous lap's item still held. */
  lemma HeadStamp<T>(r: Ring<T>)
    requires RingInv(r)
    ensures var d := At(r.stamps, r.deq) - (r.deq + 1);
            && (d == 0 || d == -1 || d == 0 - r.cap)
            && (d == 0 <==> Published(r, r.deq))
            && (d == 0 - r.cap <==> r.deq == r.enq && r.deq >= r.cap && r.deq - r.cap in r.readers)
  {
    if r.deq == r.enq && r.deq >= r.cap {
      NextLap(r.stamps, r.deq - r.cap);
    }
  }

  /** Between its claim and its stamp store, a slot has exactly one owner: two claimed
      positions never share a slot. */
  lemma OneOwnerPerSlot<T>(r: Ring<T>, p: nat, q: nat)
    requires RingInv(r) && p < q
    requires p in r.writers + r.readers && q in r.writers + r.readers
    ensures SlotOf(p, r.cap) != SlotOf(q, r.cap)
  {
    DistinctSlots(p, q, r.cap);
  }
}
