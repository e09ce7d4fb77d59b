/** The executions behind the conditions on a DropOldest push, each from every initial machine with a
    producer and a consumer: a consumer that stalls after its claim makes the push discard an item and
    report rejection all the same; a consumer that drains the ring makes it report rejection on an empty
    queue; a consumer that is slow to release makes it evict an item although fewer than N are queued; and
    a pop() that begins and ends meanwhile makes it evict another item than the reference. */
module DropOldestRuns {
  import opened QueueTypes
  import opened Tally
  import opened Rings
  import opened RingThreads
  import opened LockFreeMachine
  import opened Executions
  import opened PushVerdict

  lemma ReachedInv<T(!new)>(m0: Machine<T>, m: Machine<T>)
    requires MachineInv(m0) && Reaches(m0, m)
    ensures MachineInv(m) && m.ring.cap == m0.ring.cap
  {
    var run :| Chain(run, m0, m);
    var inv := (m: Machine<T>) => MachineInv(m) && m.ring.cap == m0.ring.cap;
    forall k: nat | k < |run| - 1 && inv(run[k]) ensures inv(run[k + 1]) {
      assert StepAt(run, k);
      StepFacts(run[k], run[k + 1]);
    }
    Along(run, inv, 0, |run| - 1);
  }

  lemma ReachedShape<T(!new)>(m0: Machine<T>, m: Machine<T>)
    requires MachineInv(m0) && Reaches(m0, m)
    ensures Shaped(m.ring)
  {
    ReachedInv(m0, m);
  }

  lemma Onward<T(!new)>(m0: Machine<T>, m1: Machine<T>, m2: Machine<T>)
    requires Reaches(m0, m1) && Reaches(m1, m2)
    ensures Reaches(m0, m2)
  {
    var a :| Chain(a, m0, m1);
    var b :| Chain(b, m1, m2);
    var run := a + b[1..];
    forall i: nat | i + 1 < |run| ensures StepAt(run, i) {
      if i + 1 < |a| {
        assert StepAt(a, i);
      } else {
        assert StepAt(b, i + 1 - |a|);
        assert run[i] == b[i + 1 - |a|] && run[i + 1] == b[i + 2 - |a|];
      }
    }
    assert Chain(run, m0, m2);
  }

  ghost function Outside<T>(ret: Ret<T>): Local<T>
  {
    Local(Producer, Free, NoOp, ret)
  }

  /** A push that finds room and nobody waiting. */
  lemma PushesQuietly<T(!new)>(m0: Machine<T>, m: Machine<T>, p: Tid, x: T) returns (m': Machine<T>)
    requires MachineInv(m0) && Ready(m0, m, p, Producer, Free, NoOp) && HasRoom(m.ring) && m.env.waiters == 0
    ensures Reaches(m0, m') && m'.env == m.env && m'.mutex == m.mutex
    ensures m'.th == m.th[p := Outside(Pushed(Accepted))]
    ensures m'.ring.enq == m.ring.enq + 1 && m'.ring.deq == m.ring.deq && m'.ring.readers == m.ring.readers
    ensures m'.ring.writers == m.ring.writers + {m.ring.enq} - {m.ring.enq}
  {
    ReachedInv(m0, m);
    NextStamp(m.ring);
    Claim(m0, m, p, x);
    var n, r1 := m.ring.enq, ClaimPush(m.ring, p, x);
    var m1 := m.(ring := r1, th := m.th[p := m.th[p].(ctl := PushFirst(x), op := PushWrite(x, n))]);
    var s := PublishesQuietly(m0, m1, p, Here(m1, p), x, n);
    m' := With(m1, p, s);
    assert m'.th == m.th[p := Outside(Pushed(Accepted))];
  }

  /** Its second half: store, publish, see nobody waiting, return. */
  lemma PublishesQuietly<T(!new)>(m0: Machine<T>, m: Machine<T>, p: Tid, s: Solo<T>, x: T, n: nat) returns (s': Solo<T>)
    requires p < |m.th| && Shaped(s.ring) && s.env.waiters == 0 && Reaches(m0, With(m, p, s))
    requires s.l.role.Producer? && s.l.ctl == PushFirst(x) && s.l.op == PushWrite(x, n)
    ensures s' == s.(ring := Publish(WriteSlot(s.ring, n, x), n), l := Outside(Pushed(Accepted)))
    ensures Reaches(m0, With(m, p, s'))
  {
    var r := WriteSlot(s.ring, n, x);
    var s1 := Operate(m0, m, p, s, x, r, PushPublish(n));
    var s2 := Operate(m0, m, p, s1, x, Publish(r, n), PushDone(true));
    var s3 := Move(m0, m, p, s2, x, Go(s2.l, NotifyLoad(x, Accepted), NoOp));
    s' := Move(m0, m, p, s3, x, Return(s3.l, Pushed(Accepted)));
    assert s'.l == Outside(Pushed(Accepted));
  }

  /** The producer fills the ring. */
  lemma {:induction false} Fills<T(!new)>(m0: Machine<T>, m: Machine<T>, p: Tid, x: T) returns (m': Machine<T>)
    requires MachineInv(m0) && Ready(m0, m, p, Producer, Free, NoOp) && m.env.waiters == 0
    requires m.ring.cap == m0.ring.cap && m.ring.deq == 0 && m.ring.readers == {} && m.ring.writers == {}
    ensures Ready(m0, m', p, Producer, Free, NoOp) && m'.env == m.env
    ensures m'.ring.cap == m0.ring.cap && Brimful(m'.ring)
    ensures |m'.th| == |m.th| && forall u: Tid :: u < |m.th| && u != p ==> m'.th[u] == m.th[u]
    decreases m0.ring.cap - m.ring.enq
  {
    if m.ring.enq == m0.ring.cap {
      m' := m;
    } else {
      var m1 := PushesQuietly(m0, m, p, x);
      ReachedInv(m0, m1);
      assert m1.ring.writers == {};
      m' := Fills(m0, m1, p, x);
    }
  }

  /** A try_push on a full ring fails. */
  lemma TryFails<T(!new)>(m0: Machine<T>, m: Machine<T>, p: Tid, s: Solo<T>, x: T) returns (s': Solo<T>)
    requires p < |m.th| && RingInv(s.ring) && !HasRoom(s.ring) && s.l.op == PushLoad(x) && Reaches(m0, With(m, p, s))
    ensures s' == s.(l := s.l.(op := PushDone(false))) && Reaches(m0, With(m, p, s'))
  {
    NextStamp(s.ring);
    var s1 := Operate(m0, m, p, s, x, s.ring, PushAt(x, s.ring.enq));
    s' := Operate(m0, m, p, s1, x, s.ring, PushDone(false));
  }

  /** The call begins, finds the ring full and turns to evicting. */
  lemma TurnsToEvict<T(!new)>(m0: Machine<T>, m: Machine<T>, p: Tid, x: T) returns (m': Machine<T>)
    requires MachineInv(m0) && Ready(m0, m, p, Producer, Free, NoOp) && !HasRoom(m.ring) && m.env.policy.DropOldest?
    ensures Reaches(m0, m') && m'.ring == m.ring && m'.env == m.env && m'.mutex == m.mutex
    ensures m'.th == m.th[p := m.th[p].(ctl := PushEvict(x), op := PopLoad)]
  {
    ReachedInv(m0, m);
    var s := Here(m, p);
    var s1 := Move(m0, m, p, s, x, Go(s.l, PushFirst(x), PushLoad(x)));
    var s2 := TryFails(m0, m, p, s1, x);
    var s3 := Move(m0, m, p, s2, x, Go(s2.l, PushEvict(x), PopLoad));
    m' := With(m, p, s3);
    assert s3.l == m.th[p].(ctl := PushEvict(x), op := PopLoad);
  }

  /** A consumer wins the dequeue swap and stalls. */
  lemma Stalls<T(!new)>(m0: Machine<T>, m: Machine<T>, c: Tid, x: T) returns (m': Machine<T>)
    requires MachineInv(m0) && Ready(m0, m, c, Consumer, Free, NoOp) && Published(m.ring, m.ring.deq) && m.env.spins > 0
    ensures Reaches(m0, m') && m'.ring == ClaimPop(m.ring, c) && m'.env == m.env && m'.mutex == m.mutex
    ensures m'.th == m.th[c := m.th[c].(ctl := Spin(0), op := PopTake(m.ring.deq))]
  {
    ReachedInv(m0, m);
    HeadStamp(m.ring);
    var s := Here(m, c);
    var s1 := Move(m0, m, c, s, x, Go(s.l, Spin(0), PopLoad));
    var s2 := WinsHead(m0, m, c, s1, x);
    m' := With(m, c, s2);
    assert s2.l == m.th[c].(ctl := Spin(0), op := PopTake(m.ring.deq));
  }

  lemma WinsHead<T(!new)>(m0: Machine<T>, m: Machine<T>, c: Tid, s: Solo<T>, x: T) returns (s': Solo<T>)
    requires c < |m.th| && Shaped(s.ring) && At(s.ring.stamps, s.ring.deq) == s.ring.deq + 1 && s.l.op.PopLoad?
    requires Reaches(m0, With(m, c, s))
    ensures s' == s.(ring := ClaimPop(s.ring, c), l := s.l.(op := PopTake(s.ring.deq))) && Reaches(m0, With(m, c, s'))
  {
    var r := s.ring;
    var s1 := Operate(m0, m, c, s, x, r, PopAt(r.deq));
    var s2 := Operate(m0, m, c, s1, x, r, PopCas(r.deq));
    s' := Operate(m0, m, c, s2, x, ClaimPop(r, c), PopTake(r.deq));
  }

  /** The producer evicts the head, whichever item that is by now, and tries again. */
  lemma Evicts<T(!new)>(m0: Machine<T>, m: Machine<T>, p: Tid, x: T) returns (m': Machine<T>)
    requires MachineInv(m0) && Ready(m0, m, p, Producer, PushEvict(x), PopLoad) && Published(m.ring, m.ring.deq)
    ensures Reaches(m0, m') && m'.ring == HeadPopped(m.ring, p, x) && m'.env == m.env && m'.mutex == m.mutex
    ensures m'.th == m.th[p := m.th[p].(ctl := PushSecond(x), op := PushLoad(x))]
  {
    ReachedInv(m0, m);
    HeadStamp(m.ring);
    var s := Here(m, p);
    var s1 := PopsHead(m0, m, p, s, x);
    var s2 := Move(m0, m, p, s1, x, Go(s1.l, PushSecond(x), PushLoad(x)));
    m' := With(m, p, s2);
    assert s2.l == m.th[p].(ctl := PushSecond(x), op := PushLoad(x));
  }

  /** The second try_push fails too, and the call reports rejection. */
  lemma GivesUp<T(!new)>(m0: Machine<T>, m: Machine<T>, p: Tid, x: T) returns (m': Machine<T>)
    requires MachineInv(m0) && Ready(m0, m, p, Producer, PushSecond(x), PushLoad(x)) && !HasRoom(m.ring)
    ensures Reaches(m0, m') && m'.ring == m.ring
    ensures m'.th == m.th[p := Outside(Pushed(RejectedBackpressure))]
  {
    ReachedInv(m0, m);
    var s1 := TryFails(m0, m, p, Here(m, p), x);
    var s2 := Move(m0, m, p, s1, x, Return(s1.l, Pushed(RejectedBackpressure)));
    m' := With(m, p, s2);
    assert s2.l == Outside(Pushed(RejectedBackpressure));
  }

  /** Filled once from the start, and nobody inside. */
  ghost predicate Brimful<T>(r: Ring<T>)
  {
    r.enq == r.cap && r.deq == 0 && r.readers == {} && r.writers == {}
  }

  // ---- rejected, with an item discarded ----

  /** A push on a full ring during which a consumer claims the head and stalls. */
  lemma Loses<T(!new)>(full: Machine<T>, p: Tid, c: Tid, x: T) returns (lost: Machine<T>)
    requires MachineInv(full) && Ready(full, full, p, Producer, Free, NoOp) && c < |full.th| && c != p
    requires full.th[c].role.Consumer? && full.th[c].ctl.Free? && full.th[c].op.NoOp?
    requires full.env.policy.DropOldest? && full.env.spins > 0
    requires Brimful(full.ring)
    ensures Reaches(full, lost) && Shaped(lost.ring) && Contents(lost.ring) == Contents(full.ring)[2..]
    ensures |lost.th| == |full.th| && lost.th[p] == Outside(Pushed(RejectedBackpressure)) && Reads(lost.th[c].op, 0)
    ensures lost.ring.deq == 2 && 1 in lost.ring.taken && lost.ring.poppedBy == [c, p] && lost.ring.log == full.ring.log
  {
    var m := Overtaken(full, p, c, x);
    lost := ThenRejected(full, m, p, c, x);
  }

  /** The push finds the ring full, and before it evicts anything the consumer claims position 0. */
  lemma Overtaken<T(!new)>(full: Machine<T>, p: Tid, c: Tid, x: T) returns (m: Machine<T>)
    requires MachineInv(full) && Ready(full, full, p, Producer, Free, NoOp) && c < |full.th| && c != p
    requires full.th[c].role.Consumer? && full.th[c].ctl.Free? && full.th[c].op.NoOp?
    requires full.env.policy.DropOldest? && full.env.spins > 0
    requires Brimful(full.ring)
    ensures Ready(full, m, p, Producer, PushEvict(x), PopLoad) && |m.th| == |full.th|
    ensures m.ring == ClaimPop(full.ring, c) && m.th[c].op == PopTake(0)
  {
    var m1 := TurnsToEvict(full, full, p, x);
    m := Stalls(full, m1, c, x);
  }

  /** Then it evicts position 1 and finds no room all the same. */
  lemma ThenRejected<T(!new)>(full: Machine<T>, m: Machine<T>, p: Tid, c: Tid, x: T) returns (lost: Machine<T>)
    requires MachineInv(full) && Ready(full, m, p, Producer, PushEvict(x), PopLoad) && c < |m.th| && c != p
    requires m.ring == ClaimPop(full.ring, c) && m.th[c].op == PopTake(0)
    requires full.ring.enq == full.ring.cap && full.ring.deq == 0 && full.ring.writers == {}
    ensures Reaches(full, lost) && Shaped(lost.ring) && Contents(lost.ring) == Contents(full.ring)[2..]
    ensures |lost.th| == |m.th| && lost.th[p] == Outside(Pushed(RejectedBackpressure)) && Reads(lost.th[c].op, 0)
    ensures lost.ring.deq == 2 && 1 in lost.ring.taken && lost.ring.poppedBy == [c, p] && lost.ring.log == full.ring.log
  {
    var m1 := Evicts(full, m, p, x);
    ReachedInv(full, m1);
    Gone(full.ring, c, p, x);
    lost := GivesUp(full, m1, p, x);
  }

  /** The ring after the consumer claimed position 0 and the producer popped position 1. */
  lemma Gone<T>(r: Ring<T>, c: Tid, p: Tid, x: T)
    requires Shaped(r) && r.enq == r.cap && r.deq == 0
    ensures Shaped(ClaimPop(r, c)) && 1 < r.enq
    ensures var r' := HeadPopped(ClaimPop(r, c), p, x);
            && r'.enq == r.enq && r'.cap == r.cap && 0 in r'.readers && r'.deq == 2 && 1 in r'.taken
            && r'.poppedBy == [c, p] && r'.log == r.log
  {
  }

  /** From every initial DropOldest machine with a producer and a consumer, whatever its capacity and
      other threads: `full` is reachable, a full ring with nobody inside the queue; and from there
      `lost`, where the producer's push was rejected although it evicted position 1, because the
      consumer claimed position 0 after the push had begun and has not released it. */
  lemma StalledConsumerLosesAnItem<T(!new)>(m0: Machine<T>, p: Tid, c: Tid) returns (full: Machine<T>, lost: Machine<T>)
    requires Init(m0) && p < |m0.th| && c < |m0.th| && p != c && m0.th[p].role.Producer? && m0.th[c].role.Consumer?
    requires m0.env.policy.DropOldest? && m0.env.spins > 0
    ensures Reaches(m0, full) && Shaped(full.ring) && |Contents(full.ring)| == m0.ring.cap && Brimful(full.ring)
    ensures |full.th| == |m0.th| && forall u :: 0 <= u < |full.th| ==> full.th[u].ctl.Free?
    ensures Reaches(full, lost) && Reaches(m0, lost) && Shaped(lost.ring)
    ensures Contents(lost.ring) == Contents(full.ring)[2..]
    ensures |lost.th| == |m0.th| && lost.th[p] == Outside(Pushed(RejectedBackpressure)) && Reads(lost.th[c].op, 0)
    ensures lost.ring.deq == 2 && 1 in lost.ring.taken && lost.ring.poppedBy == [c, p] && lost.ring.log == full.ring.log
  {
    var x := m0.ring.store[0];
    Start(m0);
    InitEstablishes(m0);
    full := Fills(m0, m0, p, x);
    ReachedInv(m0, full);
    Start(full);
    lost := Loses(full, p, c, x);
    Onward(m0, full, lost);
  }

  // ---- rejected, with nothing queued ----

  /** A pop() call that takes the head at its first attempt. */
  lemma PopsOne<T(!new)>(m0: Machine<T>, m: Machine<T>, c: Tid, x: T) returns (m': Machine<T>)
    requires MachineInv(m0) && Ready(m0, m, c, Consumer, Free, NoOp)
    requires Published(m.ring, m.ring.deq) && m.env.spins > 0
    ensures Reaches(m0, m') && m'.ring == HeadPopped(m.ring, c, x) && m'.env == m.env && m'.mutex == m.mutex
    ensures m'.th == m.th[c := Local(Consumer, Free, NoOp, Popped(Some(At(m.ring.store, m.ring.deq))))]
  {
    ReachedInv(m0, m);
    HeadStamp(m.ring);
    var s, v := Here(m, c), At(m.ring.store, m.ring.deq);
    var s1 := Move(m0, m, c, s, x, Go(s.l, Spin(0), PopLoad));
    var s2 := PopsHead(m0, m, c, s1, x);
    var s3 := Move(m0, m, c, s2, x, Return(s2.l, Popped(Some(v))));
    m' := With(m, c, s3);
    assert s3.l == Local(Consumer, Free, NoOp, Popped(Some(v)));
  }

  /** A consumer pops everything there is, call after call. */
  lemma {:induction false} Drains<T(!new)>(m0: Machine<T>, m: Machine<T>, c: Tid, p: Tid, x: T) returns (m': Machine<T>)
    requires MachineInv(m0) && Ready(m0, m, c, Consumer, Free, NoOp) && c != p
    requires m.ring.writers == {} && m.env.spins > 0
    ensures Reaches(m0, m') && m'.env == m.env && m'.mutex == m.mutex && |m'.th| == |m.th|
    ensures m'.ring.enq == m'.ring.deq == m.ring.enq && EvictedBy(m'.ring, p) == EvictedBy(m.ring, p)
    ensures forall u: Tid :: u < |m.th| && u != c ==> m'.th[u] == m.th[u]
    decreases m.ring.enq - m.ring.deq
  {
    if m.ring.deq == m.ring.enq {
      m' := m;
    } else {
      var m1 := DrainsOne(m0, m, c, p, x);
      m' := Drains(m0, m1, c, p, x);
    }
  }

  lemma DrainsOne<T(!new)>(m0: Machine<T>, m: Machine<T>, c: Tid, p: Tid, x: T) returns (m': Machine<T>)
    requires MachineInv(m0) && Ready(m0, m, c, Consumer, Free, NoOp) && c != p
    requires m.ring.writers == {} && m.ring.deq < m.ring.enq && m.env.spins > 0
    ensures Ready(m0, m', c, Consumer, Free, NoOp) && m'.env == m.env && m'.ring.writers == {}
    ensures m'.ring.enq == m.ring.enq && m'.ring.deq == m.ring.deq + 1 && EvictedBy(m'.ring, p) == EvictedBy(m.ring, p)
    ensures |m'.th| == |m.th| && forall u: Tid :: u < |m.th| && u != c ==> m'.th[u] == m.th[u]
  {
    m' := PopsOne(m0, m, c, x);
    ReachedShape(m0, m');
    CountAppend(m.ring.poppedBy, c, Is(p));
  }

  /** The evicting try_pop finds nothing, and the call reports rejection. */
  lemma FindsNothing<T(!new)>(m0: Machine<T>, m: Machine<T>, p: Tid, x: T) returns (m': Machine<T>)
    requires MachineInv(m0) && Ready(m0, m, p, Producer, PushEvict(x), PopLoad) && m.ring.deq == m.ring.enq
    ensures Reaches(m0, m') && m'.ring == m.ring && m'.th == m.th[p := Outside(Pushed(RejectedBackpressure))]
  {
    ReachedInv(m0, m);
    HeadStamp(m.ring);
    var s1 := PopsNothing(m0, m, p, Here(m, p), x);
    var s2 := Move(m0, m, p, s1, x, Return(s1.l, Pushed(RejectedBackpressure)));
    m' := With(m, p, s2);
    assert s2.l == Outside(Pushed(RejectedBackpressure));
  }

  /** From every initial DropOldest machine with a producer and a consumer: a full ring is reachable,
      and from there a push that finds no room, after which the consumer pops all N items, so that the
      push evicts nothing and reports rejection on an empty queue. */
  lemma DrainedQueueRejects<T(!new)>(m0: Machine<T>, p: Tid, c: Tid) returns (full: Machine<T>, rejected: Machine<T>)
    requires Init(m0) && p < |m0.th| && c < |m0.th| && m0.th[p].role.Producer? && m0.th[c].role.Consumer?
    requires m0.env.policy.DropOldest? && m0.env.spins > 0
    ensures Reaches(m0, full) && Shaped(full.ring) && |Contents(full.ring)| == m0.ring.cap
    ensures |full.th| == |m0.th| && full.th[p].ctl.Free? && full.th[c].ctl.Free?
    ensures Reaches(full, rejected) && |rejected.th| == |m0.th| && Shaped(rejected.ring)
    ensures Contents(rejected.ring) == []
    ensures rejected.th[p] == Outside(Pushed(RejectedBackpressure)) && EvictedBy(rejected.ring, p) == 0
  {
    var x := m0.ring.store[0];
    Start(m0);
    InitEstablishes(m0);
    full := Fills(m0, m0, p, x);
    ReachedInv(m0, full);
    Start(full);
    rejected := DrainedThenRejected(full, p, c, x);
  }

  lemma DrainedThenRejected<T(!new)>(full: Machine<T>, p: Tid, c: Tid, x: T) returns (rejected: Machine<T>)
    requires MachineInv(full) && Ready(full, full, p, Producer, Free, NoOp) && Brimful(full.ring)
    requires Ready(full, full, c, Consumer, Free, NoOp) && full.env.policy.DropOldest? && full.env.spins > 0
    ensures Reaches(full, rejected) && |rejected.th| == |full.th| && rejected.ring.enq == rejected.ring.deq
    ensures rejected.th[p] == Outside(Pushed(RejectedBackpressure))
    ensures Shaped(rejected.ring) && EvictedBy(rejected.ring, p) == EvictedBy(full.ring, p)
  {
    var m1 := TurnsToEvict(full, full, p, x);
    var m2 := Drains(full, m1, c, p, x);
    ReachedInv(full, m2);
    rejected := FindsNothing(full, m2, p, x);
  }

  // ---- an item evicted although there was room between the cursors ----

  /** A consumer that claimed a position takes its value, releases it and returns. */
  lemma LetsGo<T(!new)>(m0: Machine<T>, m: Machine<T>, c: Tid, x: T, n: nat) returns (m': Machine<T>)
    requires MachineInv(m0) && Ready(m0, m, c, Consumer, Spin(0), PopTake(n))
    ensures Reaches(m0, m') && m'.env == m.env && m'.mutex == m.mutex
    ensures m'.ring == Release(TakeSlot(m.ring, n, x), n, At(m.ring.store, n))
    ensures m'.th == m.th[c := Local(Consumer, Free, NoOp, Popped(Some(At(m.ring.store, n))))]
  {
    var s, r, v := Here(m, c), TakeSlot(m.ring, n, x), At(m.ring.store, n);
    var s1 := Operate(m0, m, c, s, x, r, PopRelease(n, v));
    var s2 := Operate(m0, m, c, s1, x, Release(r, n, v), PopDone(Some(v)));
    var s3 := Move(m0, m, c, s2, x, Return(s2.l, Popped(Some(v))));
    m' := With(m, c, s3);
    assert s3.l == Local(Consumer, Free, NoOp, Popped(Some(v)));
  }

  /** The second try_push succeeds, and the call reports DroppedOldest. */
  lemma Replaces<T(!new)>(m0: Machine<T>, m: Machine<T>, p: Tid, x: T) returns (m': Machine<T>)
    requires MachineInv(m0) && Ready(m0, m, p, Producer, PushSecond(x), PushLoad(x))
    requires HasRoom(m.ring) && m.env.waiters == 0
    ensures Reaches(m0, m') && m'.th == m.th[p := Outside(Pushed(DroppedOldest))]
    ensures m'.ring == Publish(WriteSlot(ClaimPush(m.ring, p, x), m.ring.enq, x), m.ring.enq)
  {
    ReachedInv(m0, m);
    NextStamp(m.ring);
    var s, r, n := Here(m, p), m.ring, m.ring.enq;
    var s1 := Operate(m0, m, p, s, x, r, PushAt(x, n));
    var s2 := Operate(m0, m, p, s1, x, r, PushCas(x, n));
    var s3 := Operate(m0, m, p, s2, x, ClaimPush(r, p, x), PushWrite(x, n));
    var s4 := Stores(m0, m, p, s3, x, n);
    m' := With(m, p, s4);
  }

  lemma Stores<T(!new)>(m0: Machine<T>, m: Machine<T>, p: Tid, s: Solo<T>, x: T, n: nat) returns (s': Solo<T>)
    requires p < |m.th| && Shaped(s.ring) && s.env.waiters == 0 && Reaches(m0, With(m, p, s))
    requires s.l.role.Producer? && s.l.ctl == PushSecond(x) && s.l.op == PushWrite(x, n)
    ensures s' == s.(ring := Publish(WriteSlot(s.ring, n, x), n), l := Outside(Pushed(DroppedOldest)))
    ensures Reaches(m0, With(m, p, s'))
  {
    var r := WriteSlot(s.ring, n, x);
    var s1 := Operate(m0, m, p, s, x, r, PushPublish(n));
    var s2 := Operate(m0, m, p, s1, x, Publish(r, n), PushDone(true));
    var s3 := Move(m0, m, p, s2, x, Go(s2.l, NotifyLoad(x, DroppedOldest), NoOp));
    s' := Move(m0, m, p, s3, x, Return(s3.l, Pushed(DroppedOldest)));
    assert s'.l == Outside(Pushed(DroppedOldest));
  }

  /** A full ring of which a consumer has claimed position 0. */
  ghost predicate HeadHeld<T>(r: Ring<T>)
  {
    r.enq == r.cap && r.deq == 1 && r.readers == {0} && r.writers == {}
  }

  /** The push finds no room while the consumer holds position 0, and the consumer releases it. */
  lemma TurnsTooEarly<T(!new)>(claimed: Machine<T>, p: Tid, c: Tid, x: T) returns (m: Machine<T>)
    requires MachineInv(claimed) && Ready(claimed, claimed, p, Producer, Free, NoOp) && c != p
    requires Ready(claimed, claimed, c, Consumer, Spin(0), PopTake(0)) && HeadHeld(claimed.ring)
    requires claimed.env.policy.DropOldest?
    ensures Ready(claimed, m, p, Producer, PushEvict(x), PopLoad) && |m.th| == |claimed.th| && m.env == claimed.env
    ensures m.ring == Release(TakeSlot(claimed.ring, 0, x), 0, At(claimed.ring.store, 0))
  {
    var m1 := TurnsToEvict(claimed, claimed, p, x);
    m := LetsGo(claimed, m1, c, x, 0);
    ReachedShape(claimed, m);
  }

  /** Then it evicts position 1 and takes the free slot. */
  lemma EvictsNeedlessly<T(!new)>(claimed: Machine<T>, p: Tid, c: Tid, x: T) returns (done: Machine<T>)
    requires MachineInv(claimed) && Ready(claimed, claimed, p, Producer, Free, NoOp) && c != p
    requires Ready(claimed, claimed, c, Consumer, Spin(0), PopTake(0)) && HeadHeld(claimed.ring)
    requires claimed.env.policy.DropOldest? && claimed.env.waiters == 0
    ensures Reaches(claimed, done) && |done.th| == |claimed.th| && done.th[p] == Outside(Pushed(DroppedOldest))
    ensures Shaped(done.ring) && Contents(done.ring) == Contents(claimed.ring)[1..] + [x]
    ensures done.ring.readers == {} && EvictedBy(done.ring, p) == EvictedBy(claimed.ring, p) + 1
  {
    var m := TurnsTooEarly(claimed, p, c, x);
    Freed(claimed.ring, x);
    done := EvictsAndReplaces(claimed, m, p, x);
    CountAppend(claimed.ring.poppedBy, p, Is(p));
    assert done.ring.log[done.ring.deq..] == claimed.ring.log[1..][1..] + [x];
  }

  /** The ring after the consumer let go of position 0. */
  lemma Freed<T>(r: Ring<T>, x: T)
    requires Shaped(r) && HeadHeld(r)
    ensures var r' := Release(TakeSlot(r, 0, x), 0, At(r.store, 0));
            && r'.enq == r'.cap == r.cap && r'.deq == 1 && r'.readers == {} && r'.writers == {}
            && r'.log == r.log && r'.poppedBy == r.poppedBy && Published(r', 1)
  {
  }

  lemma EvictsAndReplaces<T(!new)>(m0: Machine<T>, m: Machine<T>, p: Tid, x: T) returns (done: Machine<T>)
    requires MachineInv(m0) && Ready(m0, m, p, Producer, PushEvict(x), PopLoad) && m.env.waiters == 0
    requires m.ring.deq < m.ring.enq && m.ring.readers == {} && m.ring.writers == {}
    ensures Reaches(m0, done) && done.th == m.th[p := Outside(Pushed(DroppedOldest))]
    ensures Shaped(done.ring) && done.ring.log == m.ring.log + [x] && done.ring.deq == m.ring.deq + 1
    ensures done.ring.readers == {} && done.ring.poppedBy == m.ring.poppedBy + [p]
  {
    var m1 := Evicts(m0, m, p, x);
    ReachedShape(m0, m1);
    assert m1.ring.readers == {};
    done := Replaces(m0, m1, p, x);
    ReachedShape(m0, done);
  }

  /** From every initial DropOldest machine with a producer and a consumer: `claimed` is reachable,
      where the consumer has claimed one item of a full ring and N - 1 are queued; and from there a
      push that reports DroppedOldest and has evicted another item, although there was room between the
      cursors for its own and nobody holds a position when it returns. */
  lemma SlowReleaseEvicts<T(!new)>(m0: Machine<T>, p: Tid, c: Tid, x: T) returns (claimed: Machine<T>, done: Machine<T>)
    requires Init(m0) && p < |m0.th| && c < |m0.th| && m0.th[p].role.Producer? && m0.th[c].role.Consumer?
    requires m0.env.policy.DropOldest? && m0.env.spins > 0
    ensures Reaches(m0, claimed) && Shaped(claimed.ring) && |Contents(claimed.ring)| == m0.ring.cap - 1
    ensures |claimed.th| == |m0.th| && claimed.th[p].ctl.Free?
    ensures Reaches(claimed, done) && |done.th| == |m0.th| && done.th[p] == Outside(Pushed(DroppedOldest))
    ensures Shaped(done.ring) && Contents(done.ring) == Contents(claimed.ring)[1..] + [x]
    ensures done.ring.readers == {} && EvictedBy(done.ring, p) == 1
  {
    ReadyAtFirst(m0, p);
    ReadyAtFirst(m0, c);
    claimed := ClaimsOne(m0, p, c, x);
    Afresh(m0, claimed, p, Producer, Free, NoOp);
    Afresh(m0, claimed, c, Consumer, Spin(0), PopTake(0));
    done := EvictsNeedlessly(claimed, p, c, x);
  }

  lemma ReadyAtFirst<T(!new)>(m0: Machine<T>, t: Tid)
    requires Init(m0) && t < |m0.th|
    ensures Ready(m0, m0, t, m0.th[t].role, Free, NoOp)
  {
    Start(m0);
  }

  /** Where one chain of steps ended, another can begin. */
  lemma Afresh<T(!new)>(m0: Machine<T>, m: Machine<T>, t: Tid, role: Role, ctl: Ctl<T>, op: Op<T>)
    requires Ready(m0, m, t, role, ctl, op)
    ensures Ready(m, m, t, role, ctl, op)
  {
    Start(m);
  }

  lemma ClaimsOne<T(!new)>(m0: Machine<T>, p: Tid, c: Tid, x: T) returns (claimed: Machine<T>)
    requires Init(m0) && Ready(m0, m0, p, Producer, Free, NoOp) && Ready(m0, m0, c, Consumer, Free, NoOp)
    requires m0.env.spins > 0
    ensures Ready(m0, claimed, p, Producer, Free, NoOp) && Ready(m0, claimed, c, Consumer, Spin(0), PopTake(0))
    ensures MachineInv(claimed) && HeadHeld(claimed.ring) && |claimed.th| == |m0.th| && claimed.env == m0.env
    ensures claimed.ring.cap == m0.ring.cap && EvictedBy(claimed.ring, p) == 0
  {
    InitEstablishes(m0);
    var full := Fills(m0, m0, p, x);
    claimed := ClaimsHead(m0, full, p, c, x);
  }

  lemma ClaimsHead<T(!new)>(m0: Machine<T>, full: Machine<T>, p: Tid, c: Tid, x: T) returns (claimed: Machine<T>)
    requires MachineInv(m0) && Ready(m0, full, p, Producer, Free, NoOp) && Ready(m0, full, c, Consumer, Free, NoOp)
    requires Brimful(full.ring) && full.env.spins > 0
    ensures Ready(m0, claimed, p, Producer, Free, NoOp) && Ready(m0, claimed, c, Consumer, Spin(0), PopTake(0))
    ensures MachineInv(claimed) && HeadHeld(claimed.ring) && |claimed.th| == |full.th| && claimed.env == full.env
    ensures claimed.ring.cap == full.ring.cap && EvictedBy(claimed.ring, p) == 0
  {
    claimed := Stalls(m0, full, c, x);
    ReachedInv(m0, claimed);
    CountAppend(full.ring.poppedBy, c, Is(p));
  }

  // ---- another item than the oldest at the time evicted ----

  /** The push finds no room, a whole pop() takes the head, and the push evicts the next item. */
  lemma EvictsAnother<T(!new)>(full: Machine<T>, p: Tid, c: Tid, x: T) returns (done: Machine<T>)
    requires MachineInv(full) && Ready(full, full, p, Producer, Free, NoOp) && Brimful(full.ring) && c != p
    requires Ready(full, full, c, Consumer, Free, NoOp) && full.env.policy.DropOldest? && full.env.spins > 0
    requires full.env.waiters == 0
    ensures Reaches(full, done) && |done.th| == |full.th| && done.th[p] == Outside(Pushed(DroppedOldest))
    ensures done.th[c] == Local(Consumer, Free, NoOp, Popped(Some(At(full.ring.store, 0))))
    ensures Shaped(done.ring) && done.ring.log == full.ring.log + [x] && done.ring.readers == {}
    ensures done.ring.deq == 2 && done.ring.poppedBy == full.ring.poppedBy + [c] + [p]
  {
    var m1 := TurnsToEvict(full, full, p, x);
    var m2 := PopsOne(full, m1, c, x);
    ReachedInv(full, m2);
    assert m2.ring.readers == {} && m2.ring.writers == {};
    done := EvictsAndReplaces(full, m2, p, x);
  }

  /** From every initial DropOldest machine with a producer and a consumer: `full` is reachable, a full
      ring with the two outside, and from there a push during which a whole pop() returns the oldest item.
      N - 1 are queued then and nobody holds a position, and still the push evicts the next item and
      reports DroppedOldest. The reference accepts if that pop came before the push, and lets it return
      the second item if it came after. */
  lemma OvertakenPushEvictsAnother<T(!new)>(m0: Machine<T>, p: Tid, c: Tid, x: T)
    returns (full: Machine<T>, done: Machine<T>)
    requires Init(m0) && p < |m0.th| && c < |m0.th| && m0.th[p].role.Producer? && m0.th[c].role.Consumer?
    requires m0.env.policy.DropOldest? && m0.env.spins > 0
    ensures Reaches(m0, full) && Shaped(full.ring) && |Contents(full.ring)| == m0.ring.cap >= 2
    ensures |full.th| == |m0.th| && full.th[p].ctl.Free? && full.th[c].ctl.Free?
    ensures Reaches(full, done) && |done.th| == |m0.th| && done.th[p] == Outside(Pushed(DroppedOldest))
    ensures done.th[c] == Local(Consumer, Free, NoOp, Popped(Some(Contents(full.ring)[0])))
    ensures Shaped(done.ring) && Contents(done.ring) == Contents(full.ring)[2..] + [x] && done.ring.readers == {}
    ensures done.ring.poppedBy == [c, p]
  {
    ReadyAtFirst(m0, p);
    InitEstablishes(m0);
    full := Fills(m0, m0, p, x);
    ReachedInv(m0, full);
    Afresh(m0, full, p, Producer, Free, NoOp);
    Afresh(m0, full, c, Consumer, Free, NoOp);
    done := EvictsAnother(full, p, c, x);
    assert done.ring.log[2..] == full.ring.log[2..] + [x];
    assert full.ring.poppedBy == [];
    assert At(full.ring.store, 0) == full.ring.log[0];
  }
}
