/** try_push and try_pop as sequences of atomic steps: each load, compare-and-swap and store is
    one step, any number of threads interleave, and a compare-and-swap may fail spuriously. */
module RingThreads {
  import opened QueueTypes
  import opened Rings

  /** Where a thread is inside try_push or try_pop; `pos` is its local, possibly stale, position. */
  datatype Op<T> =
    | NoOp
    | PushLoad(item: T)               // about to load the enqueue cursor
    | PushAt(item: T, pos: nat)       // about to load the slot's stamp
    | PushCas(item: T, pos: nat)      // saw a free slot, about to swap the cursor
    | PushWrite(item: T, pos: nat)    // owns the position, about to store the value
    | PushPublish(pos: nat)           // about to store the stamp
    | PushDone(ok: bool)
    | PopLoad
    | PopAt(pos: nat)
    | PopCas(pos: nat)
    | PopTake(pos: nat)
    | PopRelease(pos: nat, value: T)
    | PopDone(got: Option<T>)

  ghost predicate Running<T>(op: Op<T>)
  {
    !op.NoOp? && !op.PushDone? && !op.PopDone?
  }

  /** One atomic step of thread t. `spurious` is a weak compare-and-swap failing for no reason;
      `left` is what a move leaves behind. */
  ghost function OpStep<T>(r: Ring<T>, t: Tid, op: Op<T>, spurious: bool, left: T): (Ring<T>, Op<T>)
    requires Shaped(r)
  {
    match op
    case PushLoad(v) => (r, PushAt(v, r.enq))
    case PushAt(v, p) =>
      var diff := At(r.stamps, p) - p;
      (r, if diff == 0 then PushCas(v, p) else if diff < 0 then PushDone(false) else PushLoad(v))
    case PushCas(v, p) =>
      if r.enq == p && !spurious then (ClaimPush(r, t, v), PushWrite(v, p)) else (r, PushAt(v, r.enq))
    case PushWrite(v, p) => (WriteSlot(r, p, v), PushPublish(p))
    case PushPublish(p) => (Publish(r, p), PushDone(true))
    case PopLoad => (r, PopAt(r.deq))
    case PopAt(p) =>
      var diff := At(r.stamps, p) - (p + 1);
      (r, if diff == 0 then PopCas(p) else if diff < 0 then PopDone(None) else PopLoad)
    case PopCas(p) =>
      if r.deq == p && !spurious then (ClaimPop(r, t), PopTake(p)) else (r, PopAt(r.deq))
    case PopTake(p) => (TakeSlot(r, p, left), PopRelease(p, At(r.store, p)))
    case PopRelease(p, v) => (Release(r, p, v), PopDone(Some(v)))
    case _ => (r, op)
  }

  /** What thread t may rely on at each program point, whatever the other threads do. */
  ghost predicate OpInv<T>(r: Ring<T>, t: Tid, op: Op<T>)
    requires Shaped(r)
  {
    match op
    case PushAt(_, p) => p <= r.enq
    case PushCas(_, p) => p <= r.enq && (p == r.enq ==> At(r.stamps, p) == p)
    case PushWrite(v, p) => p in r.writers && p !in r.written && p < r.enq && r.pushedBy[p] == t && r.log[p] == v
    case PushPublish(p) => p in r.written && p < r.enq && r.pushedBy[p] == t
    case PopAt(p) => p <= r.deq
    case PopCas(p) => p <= r.deq && (p == r.deq ==> At(r.stamps, p) == p + 1)
    case PopTake(p) => p in r.readers && p !in r.emptied && p < r.deq && r.poppedBy[p] == t
    case PopRelease(p, v) => p in r.emptied && p < r.deq && r.poppedBy[p] == t && r.log[p] == v
    case _ => true
  }

  ghost predicate Writes<T>(op: Op<T>, p: nat) { (op.PushWrite? || op.PushPublish?) && op.pos == p }
  ghost predicate Reads<T>(op: Op<T>, p: nat) { (op.PopTake? || op.PopRelease?) && op.pos == p }

  /** A step keeps the ring invariant and leaves its thread where it can go on. */
  lemma OpStepKeeps<T>(r: Ring<T>, t: Tid, op: Op<T>, spurious: bool, left: T)
    requires RingInv(r) && OpInv(r, t, op)
    ensures var (r', op') := OpStep(r, t, op, spurious, left);
            RingInv(r') && OpInv(r', t, op')
  {
    if op.PopCas? || op.PopTake? || op.PopRelease? {
      PopStepKeeps(r, t, op, spurious, left);
    } else {
      PushStepKeeps(r, t, op, spurious, left);
    }
  }

  lemma PushStepKeeps<T>(r: Ring<T>, t: Tid, op: Op<T>, spurious: bool, left: T)
    requires RingInv(r) && OpInv(r, t, op) && !op.PopCas? && !op.PopTake? && !op.PopRelease?
    ensures var (r', op') := OpStep(r, t, op, spurious, left);
            RingInv(r') && OpInv(r', t, op')
  {
    match op
    case PushCas(v, p) => if r.enq == p && !spurious { ClaimPushKeeps(r, t, v); }
    case PushWrite(v, p) => WriteSlotKeeps(r, p);
    case PushPublish(p) => PublishKeeps(r, p);
    case _ =>
  }

  lemma PopStepKeeps<T>(r: Ring<T>, t: Tid, op: Op<T>, spurious: bool, left: T)
    requires RingInv(r) && OpInv(r, t, op) && (op.PopCas? || op.PopTake? || op.PopRelease?)
    ensures var (r', op') := OpStep(r, t, op, spurious, left);
            RingInv(r') && OpInv(r', t, op')
  {
    match op
    case PopCas(p) => if r.deq == p && !spurious { ClaimPopKeeps(r, t); }
    case PopTake(p) => TakeSlotKeeps(r, p, left);
    case PopRelease(p, v) => ReleaseKeeps(r, p);
  }

  /** Interference freedom: no step of t disturbs what another thread relies on. */
  lemma OpStepSpares<T>(r: Ring<T>, t: Tid, op: Op<T>, spurious: bool, left: T, u: Tid, other: Op<T>)
    requires RingInv(r) && OpInv(r, t, op) && t != u && OpInv(r, u, other)
    ensures Shaped(OpStep(r, t, op, spurious, left).0)
    ensures OpInv(OpStep(r, t, op, spurious, left).0, u, other)
  {
    match op
    case PushCas(v, p) => if r.enq == p && !spurious { NextStamp(r); ClaimsSpare(r, t, v, u, other); }
    case PushWrite(v, p) => WritesSpare(r, t, p, v, u, other);
    case PushPublish(p) => PublishSpares(r, t, p, u, other);
    case PopCas(p) => if r.deq == p && !spurious { HeadStamp(r); ClaimsSpare(r, t, left, u, other); }
    case PopTake(p) => WritesSpare(r, t, p, left, u, other);
    case PopRelease(p, v) => ReleaseSpares(r, t, p, v, u, other);
    case _ =>
  }

  lemma ClaimsSpare<T>(r: Ring<T>, t: Tid, v: T, u: Tid, other: Op<T>)
    requires Shaped(r) && OpInv(r, u, other)
    ensures HasRoom(r) ==> Shaped(ClaimPush(r, t, v)) && OpInv(ClaimPush(r, t, v), u, other)
    ensures Published(r, r.deq) ==> Shaped(ClaimPop(r, t)) && OpInv(ClaimPop(r, t), u, other)
  {
  }

  lemma WritesSpare<T>(r: Ring<T>, t: Tid, p: nat, v: T, u: Tid, other: Op<T>)
    requires Shaped(r) && OpInv(r, u, other) && t != u
    ensures p < r.enq && r.pushedBy[p] == t ==> OpInv(WriteSlot(r, p, v), u, other)
    ensures p < r.deq && r.poppedBy[p] == t ==> OpInv(TakeSlot(r, p, v), u, other)
  {
  }

  lemma PublishSpares<T>(r: Ring<T>, t: Tid, p: nat, u: Tid, other: Op<T>)
    requires RingInv(r) && OpInv(r, u, other) && t != u && p in r.writers && r.pushedBy[p] == t
    ensures OpInv(Publish(r, p), u, other)
  {
    StampChange(r, p, p + 1, u, other);
  }

  lemma ReleaseSpares<T>(r: Ring<T>, t: Tid, p: nat, v: T, u: Tid, other: Op<T>)
    requires RingInv(r) && OpInv(r, u, other) && t != u && p in r.readers && r.poppedBy[p] == t
    ensures OpInv(Release(r, p, v), u, other)
  {
    StampChange(r, p, p + |r.stamps|, u, other);
  }

  /** Publishing or releasing an owned slot never touches the stamp another thread is about to
      swap on. */
  lemma StampChange<T>(r: Ring<T>, p: nat, stamp: nat, u: Tid, other: Op<T>)
    requires RingInv(r) && OpInv(r, u, other) && p in r.writers + r.readers
    ensures other.PushCas? && other.pos == r.enq ==> At(Put(r.stamps, p, stamp), other.pos) == other.pos
    ensures other.PopCas? && other.pos == r.deq ==> At(Put(r.stamps, p, stamp), other.pos) == other.pos + 1
  {
    PutFrame(r.stamps, p, stamp);
  }

  // ---- refinement of the bounded FIFO ----

  /** One step of a FIFO of at most `cap` items: an item enters at the back, the oldest leaves,
      or nothing happens. */
  ghost predicate FifoStep<T>(cap: nat, q: seq<T>, q': seq<T>)
  {
    || q' == q
    || (|q| < cap && |q'| == |q| + 1 && q'[..|q|] == q)
    || (|q| > 0 && q' == q[1..])
  }

  ghost predicate WinsPush<T>(r: Ring<T>, op: Op<T>, spurious: bool)
  {
    op.PushCas? && op.pos == r.enq && !spurious
  }

  ghost predicate WinsPop<T>(r: Ring<T>, op: Op<T>, spurious: bool)
  {
    op.PopCas? && op.pos == r.deq && !spurious
  }

  /** Linearisation at the cursor swaps: a won enqueue swap appends its item to a queue with
      room, a won dequeue swap removes the oldest item, and no other step changes the contents. */
  lemma StepRefines<T>(r: Ring<T>, t: Tid, op: Op<T>, spurious: bool, left: T)
    requires RingInv(r) && OpInv(r, t, op)
    ensures Shaped(OpStep(r, t, op, spurious, left).0)
    ensures var q, q' := Contents(r), Contents(OpStep(r, t, op, spurious, left).0);
            && FifoStep(r.cap, q, q')
            && (WinsPush(r, op, spurious) ==> |q| < r.cap && q' == q + [op.item])
            && (WinsPop(r, op, spurious) ==> q == [r.log[r.deq]] + q')
            && (!WinsPush(r, op, spurious) && !WinsPop(r, op, spurious) ==> q' == q)
  {
    if WinsPush(r, op, spurious) {
      NextStamp(r);
      ClaimAppends(r, t, op.item);
    } else if WinsPop(r, op, spurious) {
      HeadStamp(r);
      ClaimRemoves(r, t);
    }
  }

  lemma ClaimAppends<T>(r: Ring<T>, t: Tid, v: T)
    requires Shaped(r) && HasRoom(r)
    ensures Shaped(ClaimPush(r, t, v)) && Contents(ClaimPush(r, t, v)) == Contents(r) + [v]
  {
  }

  lemma ClaimRemoves<T>(r: Ring<T>, t: Tid)
    requires Shaped(r) && r.deq < r.enq
    ensures Shaped(ClaimPop(r, t)) && Contents(r) == [r.log[r.deq]] + Contents(ClaimPop(r, t))
  {
  }

  /** A position is handed out by the one thread that won it, once, with the value claimed for
      it; no other step hands anything out. */
  lemma StepDelivers<T>(r: Ring<T>, t: Tid, op: Op<T>, spurious: bool, left: T)
    requires RingInv(r) && OpInv(r, t, op)
    ensures var (r', op') := OpStep(r, t, op, spurious, left);
            match op
            case PopRelease(p, v) =>
              && p !in r.taken && p < r.deq && r.poppedBy[p] == t && v == r.log[p]
              && r'.taken == r.taken[p := r.log[p]] && op' == PopDone(Some(r.log[p]))
            case _ => r'.taken == r.taken && (op'.PopDone? && op'.got.Some? ==> op' == op)
  {
  }

  /** Cursors and claimed values only grow. */
  ghost predicate Grows<T>(r: Ring<T>, r': Ring<T>)
  {
    && r'.cap == r.cap && r.enq <= r'.enq && r.deq <= r'.deq && |r.log| <= |r'.log|
    && (forall p :: 0 <= p < |r.log| ==> r'.log[p] == r.log[p])
  }

  lemma StepGrows<T>(r: Ring<T>, t: Tid, op: Op<T>, spurious: bool, left: T)
    requires Shaped(r)
    ensures Grows(r, OpStep(r, t, op, spurious, left).0)
  {
  }

  // ---- failed operations are precise ----

  /** try_push gives up exactly when its position is the current enqueue cursor and the slot one
      lap back is unreleased: the ring holds N claimed items, or a consumer still holds that slot. */
  lemma PushFailsOnlyWhenFull<T>(r: Ring<T>, t: Tid, op: Op<T>, spurious: bool, left: T)
    requires RingInv(r) && OpInv(r, t, op) && op.PushAt?
    ensures OpStep(r, t, op, spurious, left).1 == PushDone(false) <==> op.pos == r.enq && !HasRoom(r)
    ensures r.readers == {} ==> (HasRoom(r) <==> |Contents(r)| < r.cap)
  {
    NextStamp(r);
  }

  /** try_pop gives up exactly when its position is the current dequeue cursor and that position
      is unpublished: nothing is claimed there, or its producer has not stored the stamp yet. */
  lemma PopFailsOnlyWhenEmpty<T>(r: Ring<T>, t: Tid, op: Op<T>, spurious: bool, left: T)
    requires RingInv(r) && OpInv(r, t, op) && op.PopAt?
    ensures OpStep(r, t, op, spurious, left).1 == PopDone(None) <==> op.pos == r.deq && !Published(r, r.deq)
    ensures r.writers == {} ==> (Published(r, r.deq) <==> Contents(r) != [])
  {
    HeadStamp(r);
  }

  /** A stale local position never wins a swap, and a won swap finds the slot in the state its
      earlier load reported. */
  lemma StalePositionLoses<T>(r: Ring<T>, t: Tid, op: Op<T>, spurious: bool, left: T)
    requires RingInv(r) && OpInv(r, t, op) && (op.PushCas? || op.PopCas?)
    ensures op.PushCas? && OpStep(r, t, op, spurious, left).1.PushWrite? ==>
              op.pos == r.enq && op.pos !in r.writers && HasRoom(r)
    ensures op.PopCas? && OpStep(r, t, op, spurious, left).1.PopTake? ==>
              op.pos == r.deq && op.pos !in r.readers && Published(r, op.pos)
    ensures op.PushCas? && op.pos < r.enq ==> OpStep(r, t, op, spurious, left) == (r, PushAt(op.item, r.enq))
    ensures op.PopCas? && op.pos < r.deq ==> OpStep(r, t, op, spurious, left) == (r, PopAt(r.deq))
  {
    NextStamp(r);
    HeadStamp(r);
  }
}
