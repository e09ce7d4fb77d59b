/** Building executions of the lock-free machine: chains of steps of one thread at a time, from single
    steps up to whole phases of push() and pop(), each from every state it is possible in. */
module Executions {
  import opened QueueTypes
  import opened Rings
  import opened RingThreads
  import opened LockFreeMachine

  /** Some chain of steps leads from m to m'. */
  ghost predicate Chain<T(!new)>(run: seq<Machine<T>>, m: Machine<T>, m': Machine<T>)
  {
    && run != [] && run[0] == m && run[|run| - 1] == m'
    && forall i: nat :: i + 1 < |run| ==> StepAt(run, i)
  }

  ghost predicate Reaches<T(!new)>(m: Machine<T>, m': Machine<T>)
  {
    exists run :: Chain(run, m, m')
  }

  lemma Start<T(!new)>(m: Machine<T>)
    ensures Reaches(m, m)
  {
    assert Chain([m], m, m);
  }

  lemma Extend<T(!new)>(m0: Machine<T>, m: Machine<T>, t: Tid, c: Choice<T>)
    requires Reaches(m0, m) && Shaped(m.ring) && t < |m.th|
    ensures Reaches(m0, Next(m, t, c))
  {
    var run :| Chain(run, m0, m);
    var m' := Next(m, t, c);
    var run' := run + [m'];
    forall i: nat | i + 1 < |run'| ensures StepAt(run', i) {
      if i + 1 < |run| {
        assert StepAt(run, i);
      } else {
        assert run'[i] == m && run'[i + 1] == m' && IsStep(m, m');
      }
    }
    assert Chain(run', m0, m');
  }

  // ---- one thread moving alone ----

  /** What thread t's own steps change. */
  datatype Solo<T> = Solo(ring: Ring<T>, l: Local<T>, env: Env, mutex: Option<Tid>)

  ghost function With<T>(m: Machine<T>, t: Tid, s: Solo<T>): Machine<T>
    requires t < |m.th|
  {
    m.(ring := s.ring, th := m.th[t := s.l], env := s.env, mutex := s.mutex)
  }

  /** A step of the operation the thread is in. */
  lemma Operate<T(!new)>(m0: Machine<T>, m: Machine<T>, t: Tid, s: Solo<T>, x: T, r': Ring<T>, op': Op<T>)
    returns (s': Solo<T>)
    requires t < |m.th| && Shaped(s.ring) && Running(s.l.op) && Reaches(m0, With(m, t, s))
    requires (r', op') == OpStep(s.ring, t, s.l.op, false, x)
    ensures s' == s.(ring := r', l := s.l.(op := op')) && Reaches(m0, With(m, t, s'))
  {
    var c := Choice(x, false, x, 0);
    s' := s.(ring := r', l := s.l.(op := op'));
    Extend(m0, With(m, t, s), t, c);
    assert m.th[t := s.l][t := s'.l] == m.th[t := s'.l];
    assert Next(With(m, t, s), t, c) == With(m, t, s');
  }

  ghost function After<T>(t: Tid, s: Solo<T>, e: Effect<T>): Solo<T>
  {
    Solo(s.ring, e.l, s.env.(waiters := s.env.waiters + e.count, flag := s.env.flag || e.raise),
         match e.lock case Keep => s.mutex case Take => Some(t) case Give => None)
  }

  /** A control step that wakes nobody and waits for no lock. */
  lemma Move<T(!new)>(m0: Machine<T>, m: Machine<T>, t: Tid, s: Solo<T>, x: T, e: Effect<T>) returns (s': Solo<T>)
    requires t < |m.th| && Shaped(s.ring) && !Running(s.l.op) && Reaches(m0, With(m, t, s))
    requires e == Control(s.l, s.env, x) && e.notify.Nobody? && (e.lock.Take? ==> s.mutex.None?)
    ensures s' == After(t, s, e) && Reaches(m0, With(m, t, s'))
  {
    var c := Choice(x, false, x, 0);
    s' := After(t, s, e);
    Extend(m0, With(m, t, s), t, c);
    assert m.th[t := s.l][t := s'.l] == m.th[t := s'.l];
    assert Next(With(m, t, s), t, c) == With(m, t, s');
  }

  /** The next position to pop is not published. */
  ghost predicate Headless<T>(r: Ring<T>)
  {
    Shaped(r) && At(r.stamps, r.deq) <= r.deq
  }

  /** try_pop on such a ring finds nothing. */
  lemma PopsNothing<T(!new)>(m0: Machine<T>, m: Machine<T>, t: Tid, s: Solo<T>, x: T) returns (s': Solo<T>)
    requires t < |m.th| && Headless(s.ring) && s.l.op.PopLoad? && Reaches(m0, With(m, t, s))
    ensures s' == s.(l := s.l.(op := PopDone(None))) && Reaches(m0, With(m, t, s'))
  {
    var s1 := Operate(m0, m, t, s, x, s.ring, PopAt(s.ring.deq));
    s' := Operate(m0, m, t, s1, x, s.ring, PopDone(None));
  }

  /** A consumer spins in vain and goes for the lock. */
  lemma {:induction false} SpinsInVain<T(!new)>(m0: Machine<T>, m: Machine<T>, t: Tid, s: Solo<T>, x: T, k: nat)
    requires t < |m.th| && Headless(s.ring) && !s.env.flag && k < s.env.spins
    requires s.l.role.Consumer? && s.l.ctl == Spin(k) && s.l.op.PopLoad? && Reaches(m0, With(m, t, s))
    ensures Reaches(m0, With(m, t, s.(l := s.l.(ctl := ParkLock, op := NoOp))))
    decreases s.env.spins - k
  {
    var s1 := PopsNothing(m0, m, t, s, x);
    var s2 := Move(m0, m, t, s1, x, Go(s1.l, SpinFlag(k), NoOp));
    var s3 := Move(m0, m, t, s2, x, SpinOrPark(s2.l, s.env, k + 1));
    if k + 1 < s.env.spins {
      assert s3 == s.(l := s.l.(ctl := Spin(k + 1), op := PopLoad));
      SpinsInVain(m0, m, t, s3, x, k + 1);
      assert s3.l.(ctl := ParkLock, op := NoOp) == s.l.(ctl := ParkLock, op := NoOp);
    }
  }

  /** Holding the lock, it registers, re-checks in vain and sleeps. */
  lemma FallsAsleep<T(!new)>(m0: Machine<T>, m: Machine<T>, t: Tid, s: Solo<T>, x: T, sig: bool)
    requires t < |m.th| && Headless(s.ring) && !s.env.flag
    requires s.l.role.Consumer? && s.l.ctl == Register(sig) && s.l.op.NoOp? && Reaches(m0, With(m, t, s))
    ensures Reaches(m0, With(m, t, Solo(s.ring, s.l.(ctl := Parked), s.env.(waiters := s.env.waiters + 1), None)))
  {
    var s1 := Move(m0, m, t, s, x, Go(s.l, Recheck(sig), PopLoad).(count := 1));
    var s2 := PopsNothing(m0, m, t, s1, x);
    var s3 := Move(m0, m, t, s2, x, Go(s2.l, RecheckFlag(None), NoOp));
    var s4 := Move(m0, m, t, s3, x, Go(s3.l, ToWait, NoOp));
    var s5 := Move(m0, m, t, s4, x, Go(s4.l, Parked, NoOp).(lock := Give));
    assert s5.l == s.l.(ctl := Parked);
  }

  /** A notified consumer takes the lock again and comes back to registering. */
  lemma Resumes<T(!new)>(m0: Machine<T>, m: Machine<T>, t: Tid, s: Solo<T>, x: T) returns (s': Solo<T>)
    requires t < |m.th| && Shaped(s.ring) && s.mutex.None?
    requires s.l.role.Consumer? && s.l.ctl == Woken(true) && s.l.op.NoOp? && Reaches(m0, With(m, t, s))
    ensures s' == Solo(s.ring, s.l.(ctl := Register(true)), s.env.(waiters := s.env.waiters - 1), Some(t))
    ensures Reaches(m0, With(m, t, s'))
  {
    var s1 := Move(m0, m, t, s, x, Go(s.l, Deregister(true), NoOp).(lock := Take));
    s' := Move(m0, m, t, s1, x, Go(s1.l, Register(true), NoOp).(count := -1));
  }

  // ---- whole operations of one thread, the others standing still ----

  ghost function Here<T>(m: Machine<T>, t: Tid): (s: Solo<T>)
    requires t < |m.th|
    ensures With(m, t, s) == m
  {
    assert m.th[t := m.th[t]] == m.th;
    Solo(m.ring, m.th[t], m.env, m.mutex)
  }

  ghost predicate Ready<T(!new)>(m0: Machine<T>, m: Machine<T>, t: Tid, role: Role, ctl: Ctl<T>, op: Op<T>)
  {
    && Reaches(m0, m) && t < |m.th| && Shaped(m.ring) && m.mutex.None? && !m.env.flag
    && m.th[t].role == role && m.th[t].ctl == ctl && m.th[t].op == op
  }

  lemma Park<T(!new)>(m0: Machine<T>, m: Machine<T>, t: Tid, x: T)
    requires Ready(m0, m, t, Consumer, Free, NoOp) && Headless(m.ring)
    ensures Reaches(m0, m.(th := m.th[t := m.th[t].(ctl := Parked)], env := m.env.(waiters := m.env.waiters + 1)))
  {
    var s := Here(m, t);
    SpinsFirst(m0, m, t, s, x);
    var s2 := s.(l := s.l.(ctl := ParkLock));
    var s3 := Move(m0, m, t, s2, x, Go(s2.l, Register(false), NoOp).(lock := Take));
    FallsAsleep(m0, m, t, s3, x, false);
  }

  lemma SpinsFirst<T(!new)>(m0: Machine<T>, m: Machine<T>, t: Tid, s: Solo<T>, x: T)
    requires t < |m.th| && Headless(s.ring) && !s.env.flag
    requires s.l.role.Consumer? && s.l.ctl.Free? && s.l.op.NoOp? && Reaches(m0, With(m, t, s))
    ensures Reaches(m0, With(m, t, s.(l := s.l.(ctl := ParkLock))))
  {
    var s1 := Move(m0, m, t, s, x, SpinOrPark(s.l, s.env, 0));
    if s.env.spins > 0 {
      SpinsInVain(m0, m, t, s1, x, 0);
    }
    assert s1.l.(ctl := ParkLock, op := NoOp) == s.l.(ctl := ParkLock);
  }

  lemma Repark<T(!new)>(m0: Machine<T>, m: Machine<T>, t: Tid, x: T)
    requires Ready(m0, m, t, Consumer, Woken(true), NoOp) && Headless(m.ring)
    ensures Reaches(m0, m.(th := m.th[t := m.th[t].(ctl := Parked)]))
  {
    var s := Resumes(m0, m, t, Here(m, t), x);
    FallsAsleep(m0, m, t, s, x, true);
    assert s.env.(waiters := s.env.waiters + 1) == m.env;
  }

  lemma Claim<T(!new)>(m0: Machine<T>, m: Machine<T>, t: Tid, x: T)
    requires Ready(m0, m, t, Producer, Free, NoOp) && At(m.ring.stamps, m.ring.enq) == m.ring.enq
    ensures Reaches(m0, m.(ring := ClaimPush(m.ring, t, x),
                           th := m.th[t := m.th[t].(ctl := PushFirst(x), op := PushWrite(x, m.ring.enq))]))
  {
    var s, r := Here(m, t), m.ring;
    var s1 := Move(m0, m, t, s, x, Go(s.l, PushFirst(x), PushLoad(x)));
    var s2 := Operate(m0, m, t, s1, x, r, PushAt(x, r.enq));
    var s3 := Operate(m0, m, t, s2, x, r, PushCas(x, r.enq));
    var s4 := Operate(m0, m, t, s3, x, ClaimPush(r, t, x), PushWrite(x, r.enq));
    assert s4.l == m.th[t].(ctl := PushFirst(x), op := PushWrite(x, r.enq));
  }

  /** A notify_one that finds the chosen consumer asleep. */
  lemma Notifies<T(!new)>(m0: Machine<T>, m: Machine<T>, t: Tid, s: Solo<T>, x: T, wake: Tid, res: PushResult)
    requires t < |m.th| && wake < |m.th| && wake != t && Shaped(s.ring) && m.th[wake].ctl.Parked?
    requires s.l.role.Producer? && s.l.ctl == NotifyHeld(x, res) && s.l.op.NoOp? && Reaches(m0, With(m, t, s))
    ensures Reaches(m0, With(m.(th := m.th[wake := m.th[wake].(ctl := Woken(true))]), t,
                             s.(l := s.l.(ctl := NotifyUnlock(x, res)))))
  {
    var c := Choice(x, false, x, wake);
    var before, s' := With(m, t, s), s.(l := s.l.(ctl := NotifyUnlock(x, res)));
    Extend(m0, before, t, c);
    assert before.th[wake] == m.th[wake];
    var after := With(m.(th := m.th[wake := m.th[wake].(ctl := Woken(true))]), t, s');
    assert Next(before, t, c).th == after.th;
    assert Next(before, t, c) == after;
  }

  /** A producer stores its value, publishes it and takes the lock to notify. */
  lemma Publishes<T(!new)>(m0: Machine<T>, m: Machine<T>, t: Tid, s: Solo<T>, x: T, p: nat) returns (s': Solo<T>)
    requires t < |m.th| && Shaped(s.ring) && s.mutex.None? && s.env.waiters > 0
    requires s.l.role.Producer? && s.l.ctl == PushFirst(x) && s.l.op == PushWrite(x, p) && Reaches(m0, With(m, t, s))
    ensures s' == Solo(Publish(WriteSlot(s.ring, p, x), p), s.l.(ctl := NotifyHeld(x, Accepted), op := NoOp), s.env,
                       Some(t))
    ensures Reaches(m0, With(m, t, s'))
  {
    var r := WriteSlot(s.ring, p, x);
    var s1 := Operate(m0, m, t, s, x, r, PushPublish(p));
    var s2 := Operate(m0, m, t, s1, x, Publish(r, p), PushDone(true));
    var s3 := Move(m0, m, t, s2, x, Go(s2.l, NotifyLoad(x, Accepted), NoOp));
    var s4 := Move(m0, m, t, s3, x, Go(s3.l, NotifyLock(x, Accepted), NoOp));
    s' := Move(m0, m, t, s4, x, Go(s4.l, NotifyHeld(x, Accepted), NoOp).(lock := Take));
  }

  /** Then it wakes a sleeping consumer and leaves. */
  lemma Finish<T(!new)>(m0: Machine<T>, m: Machine<T>, t: Tid, x: T, p: nat, wake: Tid)
    requires Ready(m0, m, t, Producer, PushFirst(x), PushWrite(x, p)) && m.env.waiters > 0
    requires wake < |m.th| && wake != t && m.th[wake].ctl.Parked?
    ensures Reaches(m0, m.(ring := Publish(WriteSlot(m.ring, p, x), p),
                           th := m.th[wake := m.th[wake].(ctl := Woken(true))]
                                     [t := Local(Producer, Free, NoOp, Pushed(Accepted))]))
  {
    var s := Publishes(m0, m, t, Here(m, t), x, p);
    Notifies(m0, m, t, s, x, wake, Accepted);
    var woken := m.(th := m.th[wake := m.th[wake].(ctl := Woken(true))]);
    var s1 := s.(l := s.l.(ctl := NotifyUnlock(x, Accepted)));
    var s2 := Move(m0, woken, t, s1, x, Return(s1.l, Pushed(Accepted)).(lock := Give));
    assert s2.l == Local(Producer, Free, NoOp, Pushed(Accepted));
  }

  /** The ring after thread t popped the head. */
  ghost function HeadPopped<T>(r: Ring<T>, t: Tid, x: T): Ring<T>
    requires Shaped(r) && r.deq < r.enq
  {
    Release(TakeSlot(ClaimPop(r, t), r.deq, x), r.deq, At(r.store, r.deq))
  }

  lemma PopsHead<T(!new)>(m0: Machine<T>, m: Machine<T>, t: Tid, s: Solo<T>, x: T) returns (s': Solo<T>)
    requires t < |m.th| && Shaped(s.ring) && s.ring.deq < s.ring.enq && At(s.ring.stamps, s.ring.deq) == s.ring.deq + 1
    requires s.l.op.PopLoad? && Reaches(m0, With(m, t, s))
    ensures s' == s.(ring := HeadPopped(s.ring, t, x), l := s.l.(op := PopDone(Some(At(s.ring.store, s.ring.deq)))))
    ensures Shaped(s'.ring) && Reaches(m0, With(m, t, s'))
  {
    var r, p, v := s.ring, s.ring.deq, At(s.ring.store, s.ring.deq);
    var s1 := Operate(m0, m, t, s, x, r, PopAt(p));
    var s2 := Operate(m0, m, t, s1, x, r, PopCas(p));
    var s3 := Operate(m0, m, t, s2, x, ClaimPop(r, t), PopTake(p));
    var s4 := Operate(m0, m, t, s3, x, TakeSlot(ClaimPop(r, t), p, x), PopRelease(p, v));
    s' := Operate(m0, m, t, s4, x, HeadPopped(r, t, x), PopDone(Some(v)));
  }

  /** A re-check that got an item ends pop(). */
  lemma Leaves<T(!new)>(m0: Machine<T>, m: Machine<T>, t: Tid, s: Solo<T>, x: T, v: T)
    requires t < |m.th| && Shaped(s.ring)
    requires s.l.role.Consumer? && s.l.ctl == Recheck(true) && s.l.op == PopDone(Some(v)) && Reaches(m0, With(m, t, s))
    ensures Reaches(m0, With(m, t, Solo(s.ring, Local(Consumer, Free, NoOp, Popped(Some(v))),
                                        s.env.(waiters := s.env.waiters - 1), None)))
  {
    var s1 := Move(m0, m, t, s, x, Go(s.l, RecheckFlag(Some(v)), NoOp));
    var s2 := Move(m0, m, t, s1, x, Go(s1.l, Leave(Some(v)), NoOp));
    assert s2 == s.(l := s.l.(ctl := Leave(Some(v)), op := NoOp));
    Unlocks(m0, m, t, s2, x, v);
  }

  lemma Unlocks<T(!new)>(m0: Machine<T>, m: Machine<T>, t: Tid, s: Solo<T>, x: T, v: T)
    requires t < |m.th| && Shaped(s.ring)
    requires s.l.role.Consumer? && s.l.ctl == Leave(Some(v)) && s.l.op.NoOp? && Reaches(m0, With(m, t, s))
    ensures Reaches(m0, With(m, t, Solo(s.ring, Local(Consumer, Free, NoOp, Popped(Some(v))),
                                        s.env.(waiters := s.env.waiters - 1), None)))
  {
    var s1 := Move(m0, m, t, s, x, Go(s.l, Unlock(Some(v)), NoOp).(count := -1));
    var s2 := Move(m0, m, t, s1, x, Return(s1.l, Popped(Some(v))).(lock := Give));
    assert s2.l == Local(Consumer, Free, NoOp, Popped(Some(v)));
  }

  /** A woken consumer pops the published head and leaves. */
  lemma Taken<T(!new)>(m0: Machine<T>, m: Machine<T>, t: Tid, x: T)
    requires Ready(m0, m, t, Consumer, Woken(true), NoOp)
    requires m.ring.deq < m.ring.enq && At(m.ring.stamps, m.ring.deq) == m.ring.deq + 1
    ensures Reaches(m0, m.(ring := HeadPopped(m.ring, t, x),
                           th := m.th[t := Local(Consumer, Free, NoOp, Popped(Some(At(m.ring.store, m.ring.deq))))],
                           env := m.env.(waiters := m.env.waiters - 1)))
  {
    var s1 := Resumes(m0, m, t, Here(m, t), x);
    var s2 := Move(m0, m, t, s1, x, Go(s1.l, Recheck(true), PopLoad).(count := 1));
    var s3 := PopsHead(m0, m, t, s2, x);
    Leaves(m0, m, t, s3, x, At(m.ring.store, m.ring.deq));
  }
}
