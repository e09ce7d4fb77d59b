/** shutdown() of the lock-free queue: after its notify_all nobody sleeps again, and if no push
    overlaps it, the consumers drain the ring before any of them is told that it is over. */
module Shutdown {
  import opened QueueTypes
  import opened Tally
  import opened Rings
  import opened RingThreads
  import opened LockFreeMachine
  import opened Parking

  // ---- nobody sleeps through shutdown ----

  ghost predicate InShutdown<T>(l: Local<T>)
  {
    l.ctl.ShutLock? || l.ctl.ShutHeld? || l.ctl.ShutUnlock?
  }

  ghost predicate AwakeInv<T>(m: Machine<T>)
  {
    && MachineInv(m) && LockInv(m.th, m.mutex, m.env.waiters)
    && AwakeThreads(m.th, m.env.flag, m.announced)
  }

  ghost predicate AwakeFacts<T>(l: Local<T>, env: Env, e: Effect<T>)
  {
    && (e.l.ctl.ToWait? ==> !env.flag || l.ctl.ToWait?)
    && (e.l.ctl.Parked? ==> l.ctl.ToWait?)
    && (InShutdown(e.l) ==> InShutdown(l) || e.raise)
    && (e.notify.NotifyAll? ==> InShutdown(l) && InShutdown(e.l))
  }

  lemma ControlAwakeFacts<T>(l: Local<T>, env: Env, item: T)
    requires Typed(l) && !Running(l.op)
    ensures AwakeFacts(l, env, Control(l, env, item))
  {
  }

  ghost predicate NoSleepers<T>(th: seq<Local<T>>)
  {
    forall u :: 0 <= u < |th| ==> !th[u].ctl.ToWait? && !th[u].ctl.Parked?
  }

  /** Nobody is inside shutdown() before the flag is up, and once announced nobody sleeps. */
  ghost predicate AwakeThreads<T>(th: seq<Local<T>>, flag: bool, announced: bool)
  {
    && (forall u :: 0 <= u < |th| && InShutdown(th[u]) ==> flag)
    && (announced ==> flag && NoSleepers(th))
  }

  lemma NotifiedAwake<T>(th: seq<Local<T>>, flag: bool, announced: bool, notify: Notify, wake: Tid, t: Tid)
    requires AwakeThreads(th, flag, announced)
    requires notify.NotifyAll? ==> t < |th| && flag && forall u :: 0 <= u < |th| && u != t ==> !th[u].ctl.ToWait?
    ensures var th' := Notified(th, notify, wake);
            && AwakeThreads(th', flag, announced)
            && (notify.NotifyAll? ==> forall u ::
                0 <= u < |th'| && u != t ==> !th'[u].ctl.ToWait? && !th'[u].ctl.Parked?)
  {
  }

  lemma PerformAwake<T>(m: Machine<T>, t: Tid, e: Effect<T>, wake: Tid)
    requires t < |m.th| && AwakeInv(m) && Fits(m.th[t], e) && AwakeFacts(m.th[t], m.env, e)
    ensures var m' := Perform(m, t, e, wake); AwakeThreads(m'.th, m'.env.flag, m'.announced)
  {
    if !Blocked(m, e, wake) {
      NotifiedAwake(m.th, m.env.flag, m.announced, e.notify, wake, t);
    }
  }

  lemma AwakeKept<T>(m: Machine<T>, t: Tid, c: Choice<T>)
    requires t < |m.th| && AwakeInv(m)
    ensures AwakeInv(Next(m, t, c)) && (m.announced ==> Next(m, t, c).announced)
  {
    NextKeeps(m, t, c);
    LockKept(m, t, c);
    if !Running(m.th[t].op) {
      ControlFits(m.th[t], m.env, c.item);
      ControlAwakeFacts(m.th[t], m.env, c.item);
      PerformAwake(m, t, Control(m.th[t], m.env, c.item), c.wake);
    }
  }

  lemma AwakeStep<T(!new)>(m: Machine<T>, m': Machine<T>)
    requires IsStep(m, m') && AwakeInv(m)
    ensures AwakeInv(m') && (m.announced ==> m'.announced)
  {
    var t, c :| 0 <= t < |m.th| && m' == Next(m, t, c);
    AwakeKept(m, t, c);
  }

  lemma AwakeReachable<T(!new)>(run: seq<Machine<T>>, i: nat)
    requires IsRun(run) && i < |run|
    ensures AwakeInv(run[i])
  {
    var inv := (m: Machine<T>) => AwakeInv(m);
    DrainInit(run[0]);
    forall k: nat | k < i && inv(run[k]) ensures inv(run[k + 1]) {
      assert StepAt(run, k);
      AwakeStep(run[k], run[k + 1]);
    }
    Along(run, inv, 0, i);
  }

  /** Once a shutdown() has performed its notify_all, no consumer is ever parked unsignalled
      again, whatever the interleaving. */
  lemma NobodySleepsAfterShutdown<T(!new)>(run: seq<Machine<T>>, i: nat, j: nat)
    requires IsRun(run) && i <= j < |run| && run[i].announced
    ensures !SomeParked(run[j].th)
  {
    var inv := (m: Machine<T>) => AwakeInv(m) && m.announced;
    AwakeReachable(run, i);
    forall k: nat | k < j && inv(run[k]) ensures inv(run[k + 1]) {
      assert StepAt(run, k);
      AwakeStep(run[k], run[k + 1]);
    }
    Along(run, inv, i, j);
  }

  // ---- shutdown drains ----

  /** No push overlaps the shutdown: once the flag is up, every producer is outside push(). */
  ghost predicate PushesDone<T>(m: Machine<T>)
  {
    m.env.flag ==> forall u :: 0 <= u < |m.th| && m.th[u].role.Producer? ==> m.th[u].ctl.Free?
  }

  /** Being told, or about to be told, that the queue is over. */
  ghost predicate Ended<T>(l: Local<T>)
  {
    || ((l.ctl.SpinLast? || l.ctl.FinalTry?) && l.op == PopDone(None))
    || l.ctl == Unlock(None)
    || l.ret == Popped(None)
  }

  /** Program points reached only after reading the flag as set. */
  ghost predicate SawFlag<T>(l: Local<T>)
  {
    l.ctl.SpinLast? || l.ctl.FinalTry? || l.ctl == Leave(None) || Ended(l)
  }

  ghost predicate EndInv<T>(th: seq<Local<T>>, flag: bool, empty: bool)
  {
    && (forall u :: 0 <= u < |th| && SawFlag(th[u]) ==> flag)
    && (forall u :: 0 <= u < |th| && Ended(th[u]) ==> empty)
  }

  ghost predicate DrainInv<T>(m: Machine<T>)
  {
    && MachineInv(m) && LockInv(m.th, m.mutex, m.env.waiters)
    && EndInv(m.th, m.env.flag, m.ring.deq == m.ring.enq)
  }

  lemma ControlDrainFacts<T>(l: Local<T>, env: Env, item: T)
    requires Typed(l) && !Running(l.op)
    ensures var e := Control(l, env, item);
            && (Ended(e.l) ==> Ended(l))
            && (SawFlag(e.l) ==> SawFlag(l) || env.flag)
  {
  }

  lemma NoWriters<T>(m: Machine<T>)
    requires MachineInv(m) && LockInv(m.th, m.mutex, m.env.waiters) && PushesDone(m) && m.env.flag
    ensures m.ring.writers == {}
    ensures forall u :: 0 <= u < |m.th| ==> !PushOp(m.th[u].op)
  {
    NobodyPushes(m.th);
    NobodyWrites(m.ring, m.th);
  }

  lemma NobodyPushes<T>(th: seq<Local<T>>)
    requires forall u :: 0 <= u < |th| ==> Typed(th[u]) && (th[u].role.Producer? ==> th[u].ctl.Free?)
    ensures forall u :: 0 <= u < |th| ==> !PushOp(th[u].op)
  {
  }

  lemma NobodyWrites<T>(r: Ring<T>, th: seq<Local<T>>)
    requires Shaped(r) && WritersOwned(r, th) && forall u :: 0 <= u < |th| ==> !PushOp(th[u].op)
    ensures r.writers == {}
  {
  }

  lemma AdvanceDrain<T>(m: Machine<T>, t: Tid, c: Choice<T>)
    requires t < |m.th| && DrainInv(m) && PushesDone(m) && Running(m.th[t].op)
    ensures var (r', op') := OpStep(m.ring, t, m.th[t].op, c.spurious, c.left);
            && (Ended(m.th[t].(op := op')) ==> m.env.flag && r'.deq == r'.enq)
            && (SawFlag(m.th[t].(op := op')) ==> m.env.flag)
            && (m.env.flag && m.ring.deq == m.ring.enq ==> r'.deq == r'.enq)
  {
    if m.env.flag { NoWriters(m); }
    HeadStamp(m.ring);
    if m.th[t].op.PopAt? { PopFailsOnlyWhenEmpty(m.ring, t, m.th[t].op, c.spurious, c.left); }
    assert OpInv(m.ring, t, m.th[t].op);
  }

  lemma PerformEnd<T>(m: Machine<T>, t: Tid, e: Effect<T>, wake: Tid, empty: bool)
    requires t < |m.th| && EndInv(m.th, m.env.flag, empty)
    requires (Ended(e.l) ==> Ended(m.th[t])) && (SawFlag(e.l) ==> SawFlag(m.th[t]) || m.env.flag)
    ensures var m' := Perform(m, t, e, wake); EndInv(m'.th, m'.env.flag, empty)
  {
    NotifiedThreads(m.th, e.notify, wake);
  }

  lemma DrainKept<T>(m: Machine<T>, t: Tid, c: Choice<T>)
    requires t < |m.th| && DrainInv(m) && PushesDone(m)
    ensures DrainInv(Next(m, t, c))
  {
    NextKeeps(m, t, c);
    LockKept(m, t, c);
    NextRing(m, t, c);
    if Running(m.th[t].op) {
      AdvanceDrain(m, t, c);
    } else {
      ControlDrainFacts(m.th[t], m.env, c.item);
      PerformEnd(m, t, Control(m.th[t], m.env, c.item), c.wake, m.ring.deq == m.ring.enq);
    }
  }

  lemma DrainStep<T(!new)>(m: Machine<T>, m': Machine<T>)
    requires IsStep(m, m') && DrainInv(m) && PushesDone(m)
    ensures DrainInv(m')
  {
    var t, c :| 0 <= t < |m.th| && m' == Next(m, t, c);
    DrainKept(m, t, c);
  }

  lemma DrainInit<T>(m: Machine<T>)
    requires Init(m)
    ensures DrainInv(m) && AwakeInv(m)
  {
    InitEstablishes(m);
    LockInit(m);
  }

  lemma DrainReachable<T(!new)>(run: seq<Machine<T>>, i: nat)
    requires IsRun(run) && i < |run| && forall k :: 0 <= k <= i ==> PushesDone(run[k])
    ensures DrainInv(run[i])
  {
    var inv := (m: Machine<T>) => DrainInv(m);
    DrainInit(run[0]);
    forall k: nat | k < i && inv(run[k]) ensures inv(run[k + 1]) {
      assert StepAt(run, k);
      DrainStep(run[k], run[k + 1]);
    }
    Along(run, inv, 0, i);
  }

  /** The values handed out at positions below n to consumers, or evicted by producers. */
  ghost function HandedOut<T>(r: Ring<T>, th: seq<Local<T>>, toConsumers: bool, n: nat): multiset<T>
  {
    if n == 0 then multiset{}
    else
      HandedOut(r, th, toConsumers, n - 1) +
      (if n - 1 in r.taken && n <= |r.poppedBy| && toConsumers == ByConsumer(r.poppedBy[n - 1], th)
       then multiset{r.taken[n - 1]} else multiset{})
  }

  ghost predicate ByConsumer<T>(u: Tid, th: seq<Local<T>>)
  {
    u < |th| && th[u].role.Consumer?
  }

  lemma OneMore<T>(a: multiset<T>, b: multiset<T>, all: multiset<T>, x: T)
    requires a + b == all
    ensures (a + multiset{x}) + b == all + multiset{x} && a + (b + multiset{x}) == all + multiset{x}
  {
  }

  lemma {:induction false} HandedOutAll<T>(r: Ring<T>, th: seq<Local<T>>, n: nat)
    requires n <= |r.poppedBy| && n <= |r.log| && forall p: nat :: p < n ==> p in r.taken && r.taken[p] == r.log[p]
    ensures HandedOut(r, th, true, n) + HandedOut(r, th, false, n) == multiset(r.log[..n])
  {
    if n > 0 {
      HandedOutAll(r, th, n - 1);
      var x := r.log[n - 1];
      assert r.log[..n] == r.log[..n - 1] + [x];
      OneMore(HandedOut(r, th, true, n - 1), HandedOut(r, th, false, n - 1), multiset(r.log[..n - 1]), x);
      if ByConsumer(r.poppedBy[n - 1], th) {
        assert HandedOut(r, th, true, n) == HandedOut(r, th, true, n - 1) + multiset{x};
        assert HandedOut(r, th, false, n) == HandedOut(r, th, false, n - 1);
      } else {
        assert HandedOut(r, th, false, n) == HandedOut(r, th, false, n - 1) + multiset{x};
        assert HandedOut(r, th, true, n) == HandedOut(r, th, true, n - 1);
      }
    }
  }

  /** If no push overlaps shutdown and one consumer was told that the queue is over, nothing is
      left in it; and once every thread is back outside the queue, what the consumers got plus
      what DropOldest evicted is, as a multiset, exactly what was pushed. */
  lemma ShutdownDrains<T(!new)>(run: seq<Machine<T>>, i: nat, u: Tid)
    requires IsRun(run) && i < |run| && forall k :: 0 <= k <= i ==> PushesDone(run[k])
    requires u < |run[i].th| && run[i].th[u].ret == Popped(None)
    ensures Shaped(run[i].ring) && Contents(run[i].ring) == []
    ensures (forall v :: 0 <= v < |run[i].th| ==> run[i].th[v].ctl.Free?) ==>
            HandedOut(run[i].ring, run[i].th, true, run[i].ring.enq)
            + HandedOut(run[i].ring, run[i].th, false, run[i].ring.enq)
            == multiset(run[i].ring.log)
  {
    DrainReachable(run, i);
    var m := run[i];
    assert Ended(m.th[u]);
    if forall v :: 0 <= v < |m.th| ==> m.th[v].ctl.Free? {
      forall v | 0 <= v < |m.th| ensures m.th[v].op.NoOp? {
        assert Typed(m.th[v]);
      }
      assert m.ring.readers == {};
      HandedOutAll(m.ring, m.th, m.ring.enq);
      assert m.ring.log[..m.ring.enq] == m.ring.log;
    }
  }
}
