/** The batcher: accumulates events and hands a batch to the sink when the size or the age
    threshold is reached. Its methods run under one mutex; the clock readings are parameters. */
module Batchers {

  class Batcher<E> {
    const maxBatchSize: nat
    const maxBatchAge: int
    var buffer: seq<E>
    var batchStartedAt: int
    var flushed: seq<seq<E>>      // what the flush callback received, in order
    ghost var added: seq<E>       // every event ever added

    /** Nothing lost, duplicated or reordered; no empty batch; no batch above the size limit, and
        what stays buffered is below it. */
    ghost predicate Valid()
      reads this
    {
      && Flatten(flushed) + buffer == added
      && (forall i :: 0 <= i < |flushed| ==> flushed[i] != [] && (maxBatchSize > 0 ==> |flushed[i]| <= maxBatchSize))
      && (buffer != [] ==> |buffer| < maxBatchSize)
    }

    constructor (maxBatchSize: nat, maxBatchAge: int, now: int)
      ensures Valid() && buffer == [] && flushed == [] && added == []
      ensures this.maxBatchSize == maxBatchSize && this.maxBatchAge == maxBatchAge
    {
      this.maxBatchSize, this.maxBatchAge := maxBatchSize, maxBatchAge;
      buffer, batchStartedAt, flushed, added := [], now, [], [];
    }

    predicate ShouldFlush(now: int)
      reads this
    {
      |buffer| >= maxBatchSize || now - batchStartedAt >= maxBatchAge
    }

    method FlushLocked()
      requires Flatten(flushed) + buffer == added && buffer != []
      requires forall i ::
               0 <= i < |flushed| ==> flushed[i] != [] && (maxBatchSize > 0 ==> |flushed[i]| <= maxBatchSize)
      requires maxBatchSize > 0 ==> |buffer| <= maxBatchSize
      modifies this`buffer, this`flushed
      ensures Valid() && buffer == [] && flushed == old(flushed) + [old(buffer)]
    {
      var batch := buffer;
      buffer := [];
      FlattenAppend(flushed, batch);
      flushed := flushed + [batch];
    }

    /** Adds an event; `started` and `now` are the clock before and after the push. The whole
        buffer goes out in one batch exactly when a threshold is crossed. */
    method AddEvent(event: E, started: int, now: int)
      requires Valid() && started <= now
      modifies this
      ensures Valid() && added == old(added) + [event]
      ensures batchStartedAt == (if old(buffer) == [] then started else old(batchStartedAt))
      ensures var whole := old(buffer) + [event];
              if |whole| >= maxBatchSize || now - batchStartedAt >= maxBatchAge
              then buffer == [] && flushed == old(flushed) + [whole]
              else buffer == whole && flushed == old(flushed)
    {
      if buffer == [] {
        batchStartedAt := started;
      }
      buffer := buffer + [event];
      added := added + [event];
      var flush := ShouldFlush(now);
      if flush {
        FlushLocked();
      }
    }

    method Flush()
      requires Valid()
      modifies this`buffer, this`flushed
      ensures Valid() && buffer == []
      ensures flushed == if old(buffer) == [] then old(flushed) else old(flushed) + [old(buffer)]
    {
      if buffer != [] {
        FlushLocked();
      }
    }
  }

  function Flatten<E>(batches: seq<seq<E>>): seq<E>
  {
    if batches == [] then [] else batches[0] + Flatten(batches[1..])
  }

  lemma {:induction false} FlattenAppend<E>(batches: seq<seq<E>>, batch: seq<E>)
    ensures Flatten(batches + [batch]) == Flatten(batches) + batch
  {
    if batches == [] {
      assert (batches + [batch])[1..] == [];
    } else {
      assert (batches + [batch])[1..] == batches[1..] + [batch];
      FlattenAppend(batches[1..], batch);
    }
  }
}
