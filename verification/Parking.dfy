/** The parking protocol of pop(): waiter registration, the wait mutex, the condition variable
    and shutdown. No wakeup is lost, nobody sleeps through shutdown, and shutdown drains. */
module Parking {
  import opened QueueTypes
  import opened Tally
  import opened Rings
  import opened RingThreads
  import opened LockFreeMachine

  // ---- program points ----

  ghost predicate PushOp<T>(op: Op<T>)
  {
    op.PushLoad? || op.PushAt? || op.PushCas? || op.PushWrite? || op.PushPublish? || op.PushDone?
  }

  ghost predicate PopOp<T>(op: Op<T>)
  {
    op.PopLoad? || op.PopAt? || op.PopCas? || op.PopTake? || op.PopRelease? || op.PopDone?
  }

  /** Roles, control points and operations fit together. */
  ghost predicate Typed<T>(l: Local<T>)
  {
    match l.ctl
    case Free => l.op.NoOp?
    case PushFirst(_) => l.role.Producer? && PushOp(l.op)
    case PushEvict(_) => l.role.Producer? && PopOp(l.op)
    case PushSecond(_) => l.role.Producer? && PushOp(l.op)
    case NotifyLoad(_, _) => l.role.Producer? && l.op.NoOp?
    case NotifyLock(_, _) => l.role.Producer? && l.op.NoOp?
    case NotifyHeld(_, _) => l.role.Producer? && l.op.NoOp?
    case NotifyUnlock(_, _) => l.role.Producer? && l.op.NoOp?
    case ShutLock => l.role.Controller? && l.op.NoOp?
    case ShutHeld => l.role.Controller? && l.op.NoOp?
    case ShutUnlock => l.role.Controller? && l.op.NoOp?
    case _ => l.role.Consumer? && (if l.ctl.Spin? || l.ctl.SpinLast? || l.ctl.Recheck? || l.ctl.FinalTry?
                                   then PopOp(l.op) else l.op.NoOp?)
  }

  ghost predicate HoldsLock<T>(l: Local<T>)
  {
    || l.ctl.NotifyHeld? || l.ctl.NotifyUnlock? || l.ctl.ShutHeld? || l.ctl.ShutUnlock?
    || l.ctl.Register? || l.ctl.Recheck? || l.ctl.RecheckFlag? || l.ctl.ToWait?
    || l.ctl.Deregister? || l.ctl.Leave? || l.ctl.FinalTry? || l.ctl.Unlock?
  }

  /** Counted in waiters_. */
  ghost predicate Registered<T>(l: Local<T>)
  {
    || l.ctl.Recheck? || l.ctl.RecheckFlag? || l.ctl.ToWait? || l.ctl.Parked?
    || l.ctl.Woken? || l.ctl.Deregister? || l.ctl.Leave?
  }

  /** The re-check failed and the thread is about to wait; it has held the mutex since. */
  ghost predicate GivenUp<T>(l: Local<T>)
  {
    (l.ctl.Recheck? && l.op == PopDone(None)) || l.ctl == RecheckFlag(None) || l.ctl.ToWait?
  }

  /** Published, and still on its way to its notify. */
  ghost predicate NotifyPending<T>(l: Local<T>)
  {
    || l.ctl.NotifyLoad? || l.ctl.NotifyLock? || l.ctl.NotifyHeld?
    || ((l.ctl.PushFirst? || l.ctl.PushSecond?) && l.op == PushDone(true))
  }

  /** Woken by a notification and not yet through the re-check that follows. */
  ghost predicate Rechecking<T>(l: Local<T>)
  {
    || l.ctl == Woken(true) || l.ctl == Deregister(true) || l.ctl == Register(true)
    || (l.ctl == Recheck(true) && (l.op.PopLoad? || l.op.PopAt? || l.op.PopCas?))
  }

  // ---- the lock and the waiter count ----

  ghost predicate LockInv<T>(th: seq<Local<T>>, mutex: Option<Tid>, waiters: int)
  {
    && (forall t :: 0 <= t < |th| ==> Typed(th[t]))
    && (forall t :: 0 <= t < |th| ==> (HoldsLock(th[t]) <==> mutex == Some(t)))
    && waiters == Count(th, Registered)
  }

  lemma LockInit<T>(m: Machine<T>)
    requires Init(m)
    ensures LockInv(m.th, m.mutex, m.env.waiters)
  {
    CountZero(m.th, Registered);
  }

  /** An effect on mutex and waiter count that matches the thread's own change of state. */
  ghost predicate Fits<T>(l: Local<T>, e: Effect<T>)
  {
    && Typed(e.l) && e.l.role == l.role
    && (e.lock.Keep? ==> HoldsLock(e.l) == HoldsLock(l))
    && (e.lock.Take? ==> !HoldsLock(l) && HoldsLock(e.l))
    && (e.lock.Give? ==> HoldsLock(l) && !HoldsLock(e.l))
    && (!e.notify.Nobody? ==> HoldsLock(l) && !l.ctl.Parked?)
    && e.count == One(Registered(e.l)) - One(Registered(l))
  }

  lemma PushControlFits<T>(l: Local<T>, env: Env)
    requires Typed(l) && !Running(l.op) && l.role.Producer?
    ensures Fits(l, PushControl(l, env))
  {
  }

  lemma PopControlFits<T>(l: Local<T>, env: Env)
    requires Typed(l) && !Running(l.op) && l.role.Consumer?
    ensures Fits(l, PopControl(l, env))
  {
  }

  lemma ControlFits<T>(l: Local<T>, env: Env, item: T)
    requires Typed(l) && !Running(l.op)
    ensures Fits(l, Control(l, env, item))
  {
    match l.role
    case Producer => PushControlFits(l, env);
    case Consumer => PopControlFits(l, env);
    case Controller =>
  }

  lemma NotifiedThreads<T>(th: seq<Local<T>>, notify: Notify, wake: Tid)
    ensures forall u :: 0 <= u < |th| ==>
              Notified(th, notify, wake)[u] == th[u]
              || (th[u].ctl.Parked? && Notified(th, notify, wake)[u] == Wake(th[u]))
    ensures notify.Nobody? ==> Notified(th, notify, wake) == th
  {
  }

  /** Waking threads changes neither the count nor who holds the mutex. */
  lemma NotifiedLock<T>(th: seq<Local<T>>, mutex: Option<Tid>, waiters: int, notify: Notify, wake: Tid)
    requires LockInv(th, mutex, waiters)
    ensures LockInv(Notified(th, notify, wake), mutex, waiters)
  {
    var th' := Notified(th, notify, wake);
    forall u | 0 <= u < |th|
      ensures Typed(th'[u]) && HoldsLock(th'[u]) == HoldsLock(th[u]) && Registered(th'[u]) == Registered(th[u])
    {
      WakeFits(th[u]);
    }
    CountPointwise(th, th', Registered);
  }

  lemma WakeFits<T>(l: Local<T>)
    requires Typed(l)
    ensures Typed(Wake(l)) && HoldsLock(Wake(l)) == HoldsLock(l) && Registered(Wake(l)) == Registered(l)
  {
  }

  lemma EffectLock<T>(th: seq<Local<T>>, mutex: Option<Tid>, waiters: int, t: Tid, e: Effect<T>)
    requires t < |th| && LockInv(th, mutex, waiters) && Fits(th[t], e)
    requires e.lock.Take? ==> mutex.None?
    ensures LockInv(th[t := e.l], match e.lock case Keep => mutex case Take => Some(t) case Give => None,
                    waiters + e.count)
  {
    CountUpdate(th, t, e.l, Registered);
  }

  lemma PerformLock<T>(m: Machine<T>, t: Tid, e: Effect<T>, wake: Tid)
    requires t < |m.th| && LockInv(m.th, m.mutex, m.env.waiters) && Fits(m.th[t], e)
    ensures var m' := Perform(m, t, e, wake); LockInv(m'.th, m'.mutex, m'.env.waiters)
  {
    if !Blocked(m, e, wake) {
      NotifiedLock(m.th, m.mutex, m.env.waiters, e.notify, wake);
      NotifiedThreads(m.th, e.notify, wake);
      EffectLock(Notified(m.th, e.notify, wake), m.mutex, m.env.waiters, t, e);
    }
  }

  lemma OpKind<T>(r: Ring<T>, t: Tid, op: Op<T>, spurious: bool, left: T)
    requires Shaped(r) && Running(op)
    ensures var op' := OpStep(r, t, op, spurious, left).1;
            (PushOp(op) ==> PushOp(op')) && (PopOp(op) ==> PopOp(op'))
  {
  }

  lemma AdvanceLock<T>(th: seq<Local<T>>, mutex: Option<Tid>, waiters: int, t: Tid, op: Op<T>)
    requires t < |th| && LockInv(th, mutex, waiters) && Running(th[t].op)
    requires (PushOp(th[t].op) ==> PushOp(op)) && (PopOp(th[t].op) ==> PopOp(op))
    ensures LockInv(th[t := th[t].(op := op)], mutex, waiters)
  {
    CountUpdate(th, t, th[t].(op := op), Registered);
  }

  lemma LockKept<T>(m: Machine<T>, t: Tid, c: Choice<T>)
    requires t < |m.th| && Shaped(m.ring) && LockInv(m.th, m.mutex, m.env.waiters)
    ensures var m' := Next(m, t, c); LockInv(m'.th, m'.mutex, m'.env.waiters)
  {
    if Running(m.th[t].op) {
      OpKind(m.ring, t, m.th[t].op, c.spurious, c.left);
      AdvanceLock(m.th, m.mutex, m.env.waiters, t, OpStep(m.ring, t, m.th[t].op, c.spurious, c.left).1);
    } else {
      ControlFits(m.th[t], m.env, c.item);
      PerformLock(m, t, Control(m.th[t], m.env, c.item), c.wake);
    }
  }

  // ---- what every run keeps ----

  lemma RolesKept<T>(m: Machine<T>, t: Tid, c: Choice<T>)
    requires t < |m.th| && Shaped(m.ring)
    ensures |Next(m, t, c).th| == |m.th|
    ensures forall u :: 0 <= u < |m.th| ==> Next(m, t, c).th[u].role == m.th[u].role
  {
    NotifiedThreads(m.th, Control(m.th[t], m.env, c.item).notify, c.wake);
    assert Control(m.th[t], m.env, c.item).l.role == m.th[t].role;
  }

  ghost predicate BaseInv<T>(m: Machine<T>)
  {
    MachineInv(m) && LockInv(m.th, m.mutex, m.env.waiters)
  }

  ghost predicate SameRoles<T>(th: seq<Local<T>>, th': seq<Local<T>>)
  {
    |th| == |th'| && forall u :: 0 <= u < |th| ==> th'[u].role == th[u].role
  }

  lemma BaseStep<T(!new)>(m: Machine<T>, m': Machine<T>)
    requires IsStep(m, m') && BaseInv(m)
    ensures BaseInv(m') && SameRoles(m.th, m'.th)
  {
    var t, c :| 0 <= t < |m.th| && m' == Next(m, t, c);
    NextKeeps(m, t, c);
    LockKept(m, t, c);
    RolesKept(m, t, c);
  }

  lemma BaseReachable<T(!new)>(run: seq<Machine<T>>, i: nat)
    requires IsRun(run) && i < |run|
    ensures BaseInv(run[i]) && SameRoles(run[0].th, run[i].th)
  {
    var inv := (m: Machine<T>) => BaseInv(m) && SameRoles(run[0].th, m.th);
    InitEstablishes(run[0]);
    LockInit(run[0]);
    forall k: nat | k < i && inv(run[k]) ensures inv(run[k + 1]) {
      assert StepAt(run, k);
      BaseStep(run[k], run[k + 1]);
    }
    Along(run, inv, 0, i);
  }

  // ---- what a control step can change about waking ----

  /** A thread loses its pending notify only by reading no waiters or by notifying, gives up or
      parks only after a failed re-check, and keeps a re-check it owes. */
  ghost predicate WakeFacts<T>(l: Local<T>, env: Env, e: Effect<T>)
  {
    && (NotifyPending(l) && !NotifyPending(e.l) ==> (l.ctl.NotifyLoad? && env.waiters == 0) || e.notify.NotifyOne?)
    && (NotifyPending(e.l) ==> NotifyPending(l))
    && (GivenUp(e.l) ==> GivenUp(l))
    && (e.l.ctl.Parked? ==> l.ctl.ToWait?)
    && (Rechecking(l) ==> Rechecking(e.l))
    && (e.notify.NotifyOne? ==> NotifyPending(l) && l.role.Producer?)
    && (e.notify.NotifyAll? ==> l.ctl.ShutHeld? && e.l.ctl.ShutUnlock?)
  }

  lemma ControlWakeFacts<T>(l: Local<T>, env: Env, item: T)
    requires Typed(l) && !Running(l.op)
    ensures WakeFacts(l, env, Control(l, env, item))
  {
  }

  /** Whoever is counted or holds the mutex rules the other cases out. */
  lemma RegisteredSeen<T>(th: seq<Local<T>>, mutex: Option<Tid>, waiters: int, u: Tid)
    requires u < |th| && LockInv(th, mutex, waiters)
    ensures Registered(th[u]) ==> waiters >= 1
    ensures GivenUp(th[u]) ==> Registered(th[u]) && mutex == Some(u)
  {
    if Registered(th[u]) { CountPositive(th, u, Registered); }
  }

  // ---- no lost wakeup with one producer: the counting form ----

  ghost predicate OneProducer<T>(th: seq<Local<T>>, producer: Tid)
  {
    producer < |th| && forall t :: 0 <= t < |th| ==> (th[t].role.Producer? <==> t == producer)
  }

  /** Items published and not yet claimed. */
  ghost function Available<T>(r: Ring<T>): int
  {
    r.enq - r.deq - |r.writers|
  }

  ghost predicate SomeGivenUp<T>(th: seq<Local<T>>)
  {
    exists u :: 0 <= u < |th| && GivenUp(th[u])
  }

  ghost predicate WakeInv<T>(avail: int, th: seq<Local<T>>, pending: bool)
  {
    && (SomeGivenUp(th) ==> avail <= One(pending))
    && (SomeParked(th) ==> avail <= Count(th, Rechecking) + One(pending))
  }

  /** Only the newest claim can be unpublished. */
  ghost predicate NewestOnly<T>(r: Ring<T>)
  {
    forall p :: p in r.writers ==> p == r.enq - 1
  }

  lemma NothingAvailable<T>(r: Ring<T>)
    requires RingInv(r) && NewestOnly(r) && !Published(r, r.deq)
    ensures Available(r) == 0
  {
    if r.deq < r.enq {
      assert r.writers == {r.deq};
    } else {
      assert r.writers == {};
    }
  }

  /** How an operation step changes the number of available items. */
  lemma AvailableStep<T>(r: Ring<T>, t: Tid, op: Op<T>, spurious: bool, left: T)
    requires RingInv(r) && OpInv(r, t, op)
    ensures Available(OpStep(r, t, op, spurious, left).0) ==
            Available(r) + One(op.PushPublish?) - One(WinsPop(r, op, spurious))
  {
  }

  lemma NewestStep<T>(r: Ring<T>, th: seq<Local<T>>, t: Tid, producer: Tid, spurious: bool, left: T)
    requires t < |th| && Shaped(r) && WritersOwned(r, th) && OneProducer(th, producer) && NewestOnly(r)
    requires forall u :: 0 <= u < |th| ==> Typed(th[u])
    ensures NewestOnly(OpStep(r, t, th[t].op, spurious, left).0)
  {
    if th[t].op.PushCas? {
      forall p | p in r.writers ensures r.pushedBy[p] == t {
        assert Typed(th[r.pushedBy[p]]) && Typed(th[t]);
      }
    }
  }

  /** What an operation step can do to the wakeup bound: a publication is covered by its own
      pending notify, a claim uses up at most the re-check that made it, and a re-check fails
      only when nothing is available. */
  ghost predicate BoundFacts<T>(l: Local<T>, l': Local<T>, avail: int, avail': int)
  {
    && l'.role == l.role && l'.ctl == l.ctl && !l.ctl.Parked? && !NotifyPending(l)
    && (NotifyPending(l') ==> l.role.Producer?)
    && (GivenUp(l') ==> avail' <= 0)
    && avail' <= avail + One(NotifyPending(l'))
    && (Rechecking(l) && !Rechecking(l') ==> avail' <= 0 || avail' < avail)
  }

  lemma OpBoundFacts<T>(r: Ring<T>, t: Tid, l: Local<T>, spurious: bool, left: T)
    requires RingInv(r) && NewestOnly(r) && OpInv(r, t, l.op) && Typed(l) && Running(l.op)
    ensures var (r', op') := OpStep(r, t, l.op, spurious, left);
            BoundFacts(l, l.(op := op'), Available(r), Available(r'))
  {
    AvailableStep(r, t, l.op, spurious, left);
    if l.op.PopAt? {
      PopFailsOnlyWhenEmpty(r, t, l.op, spurious, left);
      if !Published(r, r.deq) { NothingAvailable(r); }
    }
  }

  lemma BoundKept<T>(th: seq<Local<T>>, t: Tid, producer: Tid, l': Local<T>, avail: int, avail': int)
    requires t < |th| && OneProducer(th, producer)
    requires WakeInv(avail, th, NotifyPending(th[producer])) && BoundFacts(th[t], l', avail, avail')
    ensures WakeInv(avail', th[t := l'], NotifyPending(th[t := l'][producer]))
  {
    CountUpdate(th, t, l', Rechecking);
    SleepersBefore(th, t, l');
  }

  lemma SleepersBefore<T>(th: seq<Local<T>>, t: Tid, l': Local<T>)
    requires t < |th|
    ensures SomeParked(th[t := l']) ==> SomeParked(th) || l'.ctl.Parked?
    ensures SomeGivenUp(th[t := l']) ==> SomeGivenUp(th) || GivenUp(l')
  {
  }

  /** Waking keeps the bound, and a notify_one that finds someone parked adds a re-check. */
  lemma NotifiedWake<T>(th: seq<Local<T>>, notify: Notify, wake: Tid)
    requires !notify.NotifyAll?
    ensures var th' := Notified(th, notify, wake);
            && (SomeParked(th') ==> SomeParked(th)) && (SomeGivenUp(th') ==> SomeGivenUp(th))
            && Count(th', Rechecking) ==
               Count(th, Rechecking) + One(notify.NotifyOne? && wake < |th| && th[wake].ctl.Parked?)
  {
    if notify.NotifyOne? && wake < |th| { WokenOne(th, wake); }
  }

  lemma WokenOne<T>(th: seq<Local<T>>, wake: Tid)
    requires wake < |th|
    ensures var th' := th[wake := Wake(th[wake])];
            && (SomeParked(th') ==> SomeParked(th)) && (SomeGivenUp(th') ==> SomeGivenUp(th))
            && Count(th', Rechecking) == Count(th, Rechecking) + One(th[wake].ctl.Parked?)
  {
    var l := Wake(th[wake]);
    CountUpdate(th, wake, l, Rechecking);
    SleepersBefore(th, wake, l);
    assert th[wake].ctl.Parked? || l == th[wake];
  }

  /** A control step keeps the bound. */
  lemma EffectWake<T>(th: seq<Local<T>>, mutex: Option<Tid>, env: Env, t: Tid, producer: Tid, e: Effect<T>, wake: Tid,
                      avail: int)
    requires t < |th| && LockInv(th, mutex, env.waiters) && OneProducer(th, producer)
    requires Fits(th[t], e) && WakeFacts(th[t], env, e) && !e.notify.NotifyAll?
    requires e.notify.NotifyOne? && SomeParked(th) ==> wake < |th| && th[wake].ctl.Parked?
    requires WakeInv(avail, th, NotifyPending(th[producer]))
    ensures var th' := Notified(th, e.notify, wake)[t := e.l];
            WakeInv(avail, th', NotifyPending(th'[producer]))
  {
    var th1 := Notified(th, e.notify, wake);
    NotifiedThreads(th, e.notify, wake);
    if NotifyPending(th[t]) && !NotifyPending(e.l) { LostPending(th, mutex, env, t, e); }
    SleepersBefore(th1, t, e.l);
    CountUpdate(th1, t, e.l, Rechecking);
    NotifiedWake(th, e.notify, wake);
  }

  lemma PerformWake<T>(m: Machine<T>, t: Tid, producer: Tid, e: Effect<T>, wake: Tid, avail: int)
    requires t < |m.th| && LockInv(m.th, m.mutex, m.env.waiters) && OneProducer(m.th, producer)
    requires Fits(m.th[t], e) && WakeFacts(m.th[t], m.env, e)
    requires WakeInv(avail, m.th, NotifyPending(m.th[producer]))
    ensures var m' := Perform(m, t, e, wake);
            WakeInv(avail, m'.th, NotifyPending(m'.th[producer]))
  {
    if e.notify.NotifyAll? {
      NotifiedThreads(m.th, e.notify, wake);
      SleepersBefore(Notified(m.th, e.notify, wake), t, e.l);
    } else if !Blocked(m, e, wake) {
      EffectWake(m.th, m.mutex, m.env, t, producer, e, wake, avail);
    }
  }

  /** While somebody has given up or sleeps, a pending notify is lost only by notifying, and
      then nobody has given up. */
  lemma LostPending<T>(th: seq<Local<T>>, mutex: Option<Tid>, env: Env, t: Tid, e: Effect<T>)
    requires t < |th| && LockInv(th, mutex, env.waiters) && Fits(th[t], e) && WakeFacts(th[t], env, e)
    requires NotifyPending(th[t]) && !NotifyPending(e.l)
    ensures SomeGivenUp(th) || SomeParked(th) ==> e.notify.NotifyOne?
    ensures e.notify.NotifyOne? ==> !SomeGivenUp(th)
  {
    forall u | 0 <= u < |th|
      ensures Registered(th[u]) ==> env.waiters >= 1
      ensures GivenUp(th[u]) ==> mutex == Some(u) && env.waiters >= 1
    {
      RegisteredSeen(th, mutex, env.waiters, u);
    }
  }

  ghost predicate ParkInv<T>(m: Machine<T>, producer: Tid)
  {
    && MachineInv(m) && LockInv(m.th, m.mutex, m.env.waiters)
    && OneProducer(m.th, producer) && NewestOnly(m.ring)
    && WakeInv(Available(m.ring), m.th, NotifyPending(m.th[producer]))
  }

  lemma ParkKept<T>(m: Machine<T>, t: Tid, c: Choice<T>, producer: Tid)
    requires t < |m.th| && ParkInv(m, producer)
    ensures ParkInv(Next(m, t, c), producer)
  {
    NextKeeps(m, t, c);
    LockKept(m, t, c);
    RolesKept(m, t, c);
    if Running(m.th[t].op) { ParkOp(m, t, c, producer); } else { ParkControl(m, t, c, producer); }
  }

  lemma ParkOp<T>(m: Machine<T>, t: Tid, c: Choice<T>, producer: Tid)
    requires t < |m.th| && ParkInv(m, producer) && Running(m.th[t].op)
    ensures var m' := Next(m, t, c);
            |m'.th| == |m.th| && NewestOnly(m'.ring)
            && WakeInv(Available(m'.ring), m'.th, NotifyPending(m'.th[producer]))
  {
    var m' := Next(m, t, c);
    assert OpInv(m.ring, t, m.th[t].op) && Typed(m.th[t]);
    NewestStep(m.ring, m.th, t, producer, c.spurious, c.left);
    OpBoundFacts(m.ring, t, m.th[t], c.spurious, c.left);
    BoundKept(m.th, t, producer, m'.th[t], Available(m.ring), Available(m'.ring));
  }

  lemma ParkControl<T>(m: Machine<T>, t: Tid, c: Choice<T>, producer: Tid)
    requires t < |m.th| && ParkInv(m, producer) && !Running(m.th[t].op)
    ensures var m' := Next(m, t, c);
            m'.ring == m.ring && |m'.th| == |m.th| && WakeInv(Available(m'.ring), m'.th, NotifyPending(m'.th[producer]))
  {
    NextRing(m, t, c);
    ControlFits(m.th[t], m.env, c.item);
    ControlWakeFacts(m.th[t], m.env, c.item);
    PerformWake(m, t, producer, Control(m.th[t], m.env, c.item), c.wake, Available(m.ring));
  }

  lemma ParkStep<T(!new)>(m: Machine<T>, m': Machine<T>, producer: Tid)
    requires IsStep(m, m') && ParkInv(m, producer)
    ensures ParkInv(m', producer)
  {
    var t, c :| 0 <= t < |m.th| && m' == Next(m, t, c);
    ParkKept(m, t, c, producer);
  }

  lemma ParkInit<T>(m: Machine<T>, producer: Tid)
    requires Init(m) && OneProducer(m.th, producer)
    ensures ParkInv(m, producer)
  {
    InitEstablishes(m);
    LockInit(m);
  }

  lemma ParkReachable<T(!new)>(run: seq<Machine<T>>, i: nat, producer: Tid)
    requires IsRun(run) && i < |run| && OneProducer(run[0].th, producer)
    ensures ParkInv(run[i], producer)
  {
    var inv := (m: Machine<T>) => ParkInv(m, producer);
    ParkInit(run[0], producer);
    forall k: nat | k < i && inv(run[k]) ensures inv(run[k + 1]) {
      assert StepAt(run, k);
      ParkStep(run[k], run[k + 1], producer);
    }
    Along(run, inv, 0, i);
  }

  // ---- no producer at all ----

  ghost predicate NoProducer<T>(th: seq<Local<T>>)
  {
    forall t :: 0 <= t < |th| ==> !th[t].role.Producer?
  }

  /** Without a producer nothing is ever claimed. */
  lemma NobodyClaims<T(!new)>(m: Machine<T>, m': Machine<T>)
    requires IsStep(m, m') && BaseInv(m) && NoProducer(m.th)
    ensures m'.ring.enq == m.ring.enq
  {
    var t, c :| 0 <= t < |m.th| && m' == Next(m, t, c);
    NextRing(m, t, c);
    assert Typed(m.th[t]);
    OnlySwapsClaim(m.ring, t, m.th[t].op, c.spurious, c.left);
  }

  lemma OnlySwapsClaim<T>(r: Ring<T>, t: Tid, op: Op<T>, spurious: bool, left: T)
    requires Shaped(r) && !op.PushCas?
    ensures OpStep(r, t, op, spurious, left).0.enq == r.enq
  {
  }

  lemma NeverClaimed<T(!new)>(run: seq<Machine<T>>, i: nat)
    requires IsRun(run) && i < |run| && NoProducer(run[0].th)
    ensures run[i].ring.enq == 0
  {
    var inv := (m: Machine<T>) => m.ring.enq == 0;
    forall k: nat | k < i && inv(run[k]) ensures inv(run[k + 1]) {
      BaseReachable(run, k);
      assert StepAt(run, k);
      NobodyClaims(run[k], run[k + 1]);
    }
    Along(run, inv, 0, i);
  }

  // ---- the bound ----

  /** Two threads may push. */
  ghost predicate TwoPush<T>(th: seq<Local<T>>)
  {
    exists p, q :: 0 <= p < q < |th| && th[p].role.Producer? && th[q].role.Producer?
  }

  /** While a consumer sleeps unsignalled, every published unclaimed item is matched by a distinct
      consumer that was notified and has not re-checked yet, or by a notify still on its way. */
  ghost predicate WakeupsCovered<T>(m: Machine<T>)
  {
    SomeParked(m.th) ==> Available(m.ring) <= Count(m.th, Rechecking) + Count(m.th, NotifyPending)
  }

  /** No lost wakeup, any number of consumers, at most one producer. */
  lemma NoLostWakeup<T(!new)>(run: seq<Machine<T>>, i: nat)
    requires IsRun(run) && i < |run| && !TwoPush(run[0].th)
    ensures WakeupsCovered(run[i])
  {
    if NoProducer(run[0].th) {
      NeverClaimed(run, i);
      BaseReachable(run, i);
    } else {
      var producer: Tid :| producer < |run[0].th| && run[0].th[producer].role.Producer?;
      assert OneProducer(run[0].th, producer);
      ParkReachable(run, i, producer);
      if NotifyPending(run[i].th[producer]) { CountPositive(run[i].th, producer, NotifyPending); }
    }
  }

  ghost function Span(lo: nat, hi: nat): (s: set<nat>)
    ensures forall p :: p in s <==> lo <= p < hi
    ensures lo <= hi ==> |s| == hi - lo
  {
    if lo >= hi then {} else Span(lo, hi - 1) + {hi - 1}
  }

  /** Available counts exactly the published positions. */
  lemma AvailableCountsPublished<T>(r: Ring<T>)
    requires RingInv(r)
    ensures Available(r) == |set p: nat | p < r.enq && Published(r, p)|
  {
    assert (set p: nat | p < r.enq && Published(r, p)) == Span(r.deq, r.enq) - r.writers;
    assert r.writers <= Span(r.deq, r.enq);
  }

  // ---- no sleeping queue with any number of producers ----

  /** Somebody who will look at the queue again, or wake somebody who will. */
  ghost predicate Alert<T>(l: Local<T>)
  {
    NotifyPending(l) || (l.role.Consumer? && !GivenUp(l) && !l.ctl.Parked?)
  }

  ghost predicate SomeAlert<T>(th: seq<Local<T>>)
  {
    exists u :: 0 <= u < |th| && Alert(th[u])
  }

  ghost predicate SomeConsumer<T>(th: seq<Local<T>>)
  {
    exists u :: 0 <= u < |th| && th[u].role.Consumer?
  }

  ghost predicate AlertInv<T>(m: Machine<T>)
  {
    && MachineInv(m) && LockInv(m.th, m.mutex, m.env.waiters) && SomeConsumer(m.th)
    && (Published(m.ring, m.ring.deq) ==> SomeAlert(m.th))
  }

  lemma AdvanceAlert<T>(r: Ring<T>, th: seq<Local<T>>, t: Tid, spurious: bool, left: T)
    requires t < |th| && RingInv(r) && OpInv(r, t, th[t].op) && Typed(th[t]) && Running(th[t].op)
    requires Published(r, r.deq) ==> SomeAlert(th)
    ensures var (r', op') := OpStep(r, t, th[t].op, spurious, left);
            Published(r', r'.deq) ==> SomeAlert(th[t := th[t].(op := op')])
  {
    var op := th[t].op;
    var (r', op') := OpStep(r, t, op, spurious, left);
    var th' := th[t := th[t].(op := op')];
    if op.PopAt? { PopFailsOnlyWhenEmpty(r, t, op, spurious, left); }
    if Published(r', r'.deq) {
      if op.PushPublish? {
        assert Alert(th'[t]);
      } else {
        if op.PopCas? { HeadStamp(r); }
        assert Published(r, r.deq);
        var u :| 0 <= u < |th| && Alert(th[u]);
        assert Alert(th'[u]);
      }
    }
  }

  lemma EffectAlert<T>(th: seq<Local<T>>, mutex: Option<Tid>, env: Env, t: Tid, e: Effect<T>, wake: Tid)
    requires t < |th| && LockInv(th, mutex, env.waiters) && SomeConsumer(th) && SomeAlert(th)
    requires Fits(th[t], e) && WakeFacts(th[t], env, e)
    requires e.notify.NotifyOne? && SomeParked(th) ==> wake < |th| && th[wake].ctl.Parked?
    ensures SomeAlert(Notified(th, e.notify, wake)[t := e.l])
  {
    var th' := Notified(th, e.notify, wake)[t := e.l];
    NotifiedThreads(th, e.notify, wake);
    var u :| 0 <= u < |th| && Alert(th[u]);
    if u != t || Alert(e.l) {
      assert Alert(th'[u]);
    } else if e.notify.NotifyOne? && SomeParked(th) {
      assert Typed(th[wake]) && Alert(th'[wake]);
    } else {
      LostPending(th, mutex, env, t, e);
      var v := AlertConsumer(th, mutex, env.waiters, t, e);
      assert Alert(th'[v]);
    }
  }

  /** With nobody given up and nobody parked, every consumer but the one moving is alert. */
  lemma AlertConsumer<T>(th: seq<Local<T>>, mutex: Option<Tid>, waiters: int, t: Tid, e: Effect<T>) returns (v: Tid)
    requires t < |th| && LockInv(th, mutex, waiters) && SomeConsumer(th) && !SomeGivenUp(th) && !SomeParked(th)
    requires Alert(th[t]) && !Alert(e.l) && e.l.role == th[t].role && (GivenUp(e.l) ==> GivenUp(th[t]))
             && (e.l.ctl.Parked? ==> th[t].ctl.ToWait?)
    ensures v < |th| && v != t && Alert(th[v])
  {
    v :| v < |th| && th[v].role.Consumer?;
    assert Typed(th[t]);
    assert !GivenUp(th[v]) && !GivenUp(th[t]);
  }

  lemma PerformAlert<T>(m: Machine<T>, t: Tid, e: Effect<T>, wake: Tid)
    requires t < |m.th| && LockInv(m.th, m.mutex, m.env.waiters) && SomeConsumer(m.th) && SomeAlert(m.th)
    requires Fits(m.th[t], e) && WakeFacts(m.th[t], m.env, e)
    ensures SomeAlert(Perform(m, t, e, wake).th)
  {
    if !Blocked(m, e, wake) { EffectAlert(m.th, m.mutex, m.env, t, e, wake); }
  }

  lemma AlertKept<T>(m: Machine<T>, t: Tid, c: Choice<T>)
    requires t < |m.th| && AlertInv(m)
    ensures AlertInv(Next(m, t, c))
  {
    NextKeeps(m, t, c);
    LockKept(m, t, c);
    RolesKept(m, t, c);
    NextRing(m, t, c);
    if Running(m.th[t].op) {
      AdvanceAlert(m.ring, m.th, t, c.spurious, c.left);
    } else if Published(m.ring, m.ring.deq) {
      ControlFits(m.th[t], m.env, c.item);
      ControlWakeFacts(m.th[t], m.env, c.item);
      PerformAlert(m, t, Control(m.th[t], m.env, c.item), c.wake);
    }
    var v :| 0 <= v < |m.th| && m.th[v].role.Consumer?;
    assert Next(m, t, c).th[v].role.Consumer?;
  }

  lemma AlertStep<T(!new)>(m: Machine<T>, m': Machine<T>)
    requires IsStep(m, m') && AlertInv(m)
    ensures AlertInv(m')
  {
    var t, c :| 0 <= t < |m.th| && m' == Next(m, t, c);
    AlertKept(m, t, c);
  }

  lemma AlertInit<T>(m: Machine<T>)
    requires Init(m) && SomeConsumer(m.th)
    ensures AlertInv(m)
  {
    InitEstablishes(m);
    LockInit(m);
  }

  lemma AlertReachable<T(!new)>(run: seq<Machine<T>>, i: nat)
    requires IsRun(run) && i < |run| && SomeConsumer(run[0].th)
    ensures AlertInv(run[i])
  {
    var inv := (m: Machine<T>) => AlertInv(m);
    AlertInit(run[0]);
    forall k: nat | k < i && inv(run[k]) ensures inv(run[k + 1]) {
      assert StepAt(run, k);
      AlertStep(run[k], run[k + 1]);
    }
    Along(run, inv, 0, i);
  }

  /** With any number of producers and consumers the queue never sleeps on an item: once every
      producer is outside push() and every consumer sleeps unsignalled, the ring is empty. */
  lemma NobodySleepsOnAnItem<T(!new)>(run: seq<Machine<T>>, i: nat)
    requires IsRun(run) && i < |run| && SomeConsumer(run[0].th)
    requires forall t :: 0 <= t < |run[i].th| ==>
               (run[i].th[t].role.Producer? ==> run[i].th[t].ctl.Free?)
               && (run[i].th[t].role.Consumer? ==> run[i].th[t].ctl.Parked?)
    ensures Shaped(run[i].ring) && Contents(run[i].ring) == []
  {
    AlertReachable(run, i);
    var m := run[i];
    forall u | 0 <= u < |m.th| ensures !Alert(m.th[u]) && !PushOp(m.th[u].op) {
      assert Typed(m.th[u]);
    }
  }
}
