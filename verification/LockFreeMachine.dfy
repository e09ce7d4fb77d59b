/** The lock-free queue as a concurrent machine: any number of threads run push(), pop() and
    shutdown() over one ring, one atomic step at a time, in any order. Besides the ring the
    shared state is the waiter count, the wait mutex, the condition variable (the threads whose
    control point is Parked) and the shutdown flag. A step that is not enabled changes nothing. */
module LockFreeMachine {
  import opened QueueTypes
  import opened Rings
  import opened RingThreads
  import opened Tally

  datatype Role = Producer | Consumer | Controller

  /** Where a thread is in push(), pop() or shutdown(), outside try_push and try_pop. In pop(),
      `sig` tells whether the thread was woken by a notification rather than spuriously. */
  datatype Ctl<T> =
    | Free
    // push()
    | PushFirst(item: T)
    | PushEvict(item: T)
    | PushSecond(item: T)
    | NotifyLoad(item: T, res: PushResult)
    | NotifyLock(item: T, res: PushResult)
    | NotifyHeld(item: T, res: PushResult)
    | NotifyUnlock(item: T, res: PushResult)
    // pop()
    | Spin(attempt: nat)
    | SpinFlag(attempt: nat)
    | SpinLast
    | ParkLock
    | Register(sig: bool)
    | Recheck(sig: bool)
    | RecheckFlag(got: Option<T>)
    | ToWait
    | Parked
    | Woken(sig: bool)
    | Deregister(sig: bool)
    | Leave(got: Option<T>)
    | FinalTry
    | Unlock(got: Option<T>)
    // shutdown()
    | ShutLock
    | ShutHeld
    | ShutUnlock

  datatype Ret<T> = NoRet | Pushed(res: PushResult) | Popped(got: Option<T>)

  datatype Local<T> = Local(role: Role, ctl: Ctl<T>, op: Op<T>, ret: Ret<T>)

  datatype Machine<T> = Machine(
    ring: Ring<T>,
    th: seq<Local<T>>,
    env: Env,
    mutex: Option<Tid>,
    announced: bool)         // auxiliary: some shutdown() has performed its notify_all

  /** What a thread can read outside the ring. */
  datatype Env = Env(
    policy: Policy,
    spins: nat,              // kSpinAttempts
    waiters: int,            // waiters_
    flag: bool)              // shutting_down_

  /** What the environment decides in a step: the item pushed, a spurious failure, what a move
      leaves behind, and which parked thread a notify_one wakes. */
  datatype Choice<T> = Choice(item: T, spurious: bool, left: T, wake: Tid)

  datatype LockMove = Keep | Take | Give
  datatype Notify = Nobody | NotifyOne | NotifyAll

  /** What a control step does: the thread's next state, and its effect on the mutex, on
      waiters_, on the condition variable and on the shutdown flag. */
  datatype Effect<T> = Effect(l: Local<T>, lock: LockMove, count: int, notify: Notify, raise: bool)

  ghost function Go<T>(l: Local<T>, ctl: Ctl<T>, op: Op<T>): Effect<T>
  {
    Effect(l.(ctl := ctl, op := op), Keep, 0, Nobody, false)
  }

  ghost function Return<T>(l: Local<T>, ret: Ret<T>): Effect<T>
  {
    Effect(l.(ctl := Free, op := NoOp, ret := ret), Keep, 0, Nobody, false)
  }

  ghost function PushControl<T>(l: Local<T>, env: Env): Effect<T>
  {
    match l.ctl
    case PushFirst(v) =>
      if l.op == PushDone(true) then Go(l, NotifyLoad(v, Accepted), NoOp)
      else if env.policy.DropOldest? then Go(l, PushEvict(v), PopLoad)
      else Return(l, Pushed(RejectedBackpressure))
    case PushEvict(v) =>
      if l.op.PopDone? && l.op.got.Some? then Go(l, PushSecond(v), PushLoad(v))
      else Return(l, Pushed(RejectedBackpressure))
    case PushSecond(v) =>
      if l.op == PushDone(true) then Go(l, NotifyLoad(v, DroppedOldest), NoOp)
      else Return(l, Pushed(RejectedBackpressure))
    case NotifyLoad(v, res) => if env.waiters == 0 then Return(l, Pushed(res)) else Go(l, NotifyLock(v, res), NoOp)
    case NotifyLock(v, res) => Go(l, NotifyHeld(v, res), NoOp).(lock := Take)
    case NotifyHeld(v, res) => Go(l, NotifyUnlock(v, res), NoOp).(notify := NotifyOne)
    case NotifyUnlock(v, res) => Return(l, Pushed(res)).(lock := Give)
    case _ => Go(l, l.ctl, l.op)
  }

  /** A spin attempt, or the parking path once the attempts are used up. */
  ghost function SpinOrPark<T>(l: Local<T>, env: Env, attempt: nat): Effect<T>
  {
    if attempt < env.spins then Go(l, Spin(attempt), PopLoad) else Go(l, ParkLock, NoOp)
  }

  ghost function PopControl<T>(l: Local<T>, env: Env): Effect<T>
  {
    var got := if l.op.PopDone? then l.op.got else None;
    match l.ctl
    case Spin(k) => if got.Some? then Return(l, Popped(got)) else Go(l, SpinFlag(k), NoOp)
    case SpinFlag(k) => if env.flag then Go(l, SpinLast, PopLoad) else SpinOrPark(l, env, k + 1)
    case SpinLast => Return(l, Popped(got))
    case ParkLock => Go(l, Register(false), NoOp).(lock := Take)
    case Register(sig) => Go(l, Recheck(sig), PopLoad).(count := 1)
    case Recheck(sig) => Go(l, RecheckFlag(got), NoOp)
    case RecheckFlag(item) => if item.None? && !env.flag then Go(l, ToWait, NoOp) else Go(l, Leave(item), NoOp)
    case ToWait => Go(l, Parked, NoOp).(lock := Give)
    case Parked => Go(l, Woken(false), NoOp)
    case Woken(sig) => Go(l, Deregister(sig), NoOp).(lock := Take)
    case Deregister(sig) => Go(l, Register(sig), NoOp).(count := -1)
    case Leave(item) => (if item.Some? then Go(l, Unlock(item), NoOp) else Go(l, FinalTry, PopLoad)).(count := -1)
    case FinalTry => Go(l, Unlock(got), NoOp)
    case Unlock(item) => Return(l, Popped(item)).(lock := Give)
    case _ => Go(l, l.ctl, l.op)
  }

  ghost function ShutControl<T>(l: Local<T>): Effect<T>
  {
    match l.ctl
    case ShutLock => Go(l, ShutHeld, NoOp).(lock := Take)
    case ShutHeld => Go(l, ShutUnlock, NoOp).(notify := NotifyAll)
    case ShutUnlock => Return(l, NoRet).(lock := Give)
    case _ => Go(l, l.ctl, l.op)
  }

  /** A free thread starts the operation its role performs. */
  ghost function Begin<T>(l: Local<T>, env: Env, item: T): Effect<T>
  {
    match l.role
    case Producer => Go(l, PushFirst(item), PushLoad(item))
    case Consumer => SpinOrPark(l, env, 0)
    case Controller => Go(l, ShutLock, NoOp).(raise := true)
  }

  ghost function Control<T>(l: Local<T>, env: Env, item: T): Effect<T>
  {
    if l.ctl.Free? then Begin(l, env, item)
    else match l.role
      case Producer => PushControl(l, env)
      case Consumer => PopControl(l, env)
      case Controller => ShutControl(l)
  }

  ghost predicate SomeParked<T>(th: seq<Local<T>>)
  {
    exists u :: 0 <= u < |th| && th[u].ctl.Parked?
  }

  ghost function Wake<T>(l: Local<T>): Local<T>
  {
    if l.ctl.Parked? then l.(ctl := Woken(true)) else l
  }

  /** The condition variable: notify_one wakes the chosen parked thread, notify_all every one. */
  ghost function Notified<T>(th: seq<Local<T>>, notify: Notify, wake: Tid): (th': seq<Local<T>>)
    ensures |th'| == |th|
  {
    match notify
    case Nobody => th
    case NotifyOne => if wake < |th| then th[wake := Wake(th[wake])] else th
    case NotifyAll => seq(|th|, i requires 0 <= i < |th| => Wake(th[i]))
  }

  /** A step is blocked while it needs the mutex and another thread holds it; a notify_one that
      finds parked threads must wake one of them. */
  ghost predicate Blocked<T>(m: Machine<T>, e: Effect<T>, wake: Tid)
  {
    || (e.lock.Take? && m.mutex.Some?)
    || (e.notify.NotifyOne? && SomeParked(m.th) && !(wake < |m.th| && m.th[wake].ctl.Parked?))
  }

  ghost function Perform<T>(m: Machine<T>, t: Tid, e: Effect<T>, wake: Tid): Machine<T>
    requires t < |m.th|
  {
    if Blocked(m, e, wake) then m
    else
      m.(th := Notified(m.th, e.notify, wake)[t := e.l],
         env := m.env.(waiters := m.env.waiters + e.count, flag := m.env.flag || e.raise),
         mutex := match e.lock case Keep => m.mutex case Take => Some(t) case Give => None,
         announced := m.announced || e.notify.NotifyAll?)
  }

  ghost function Advance<T>(m: Machine<T>, t: Tid, r: Ring<T>, op: Op<T>): Machine<T>
    requires t < |m.th|
  {
    m.(ring := r, th := m.th[t := m.th[t].(op := op)])
  }

  /** The step of thread t under the environment's choice c. */
  ghost function Next<T>(m: Machine<T>, t: Tid, c: Choice<T>): Machine<T>
    requires t < |m.th| && Shaped(m.ring)
  {
    var l := m.th[t];
    if Running(l.op) then
      var (r', op') := OpStep(m.ring, t, l.op, c.spurious, c.left);
      Advance(m, t, r', op')
    else Perform(m, t, Control(l, m.env, c.item), c.wake)
  }

  ghost predicate Init<T>(m: Machine<T>)
  {
    && m.ring.cap >= 2 && |m.ring.stamps| == |m.ring.store| == m.ring.cap
    && (forall i :: 0 <= i < m.ring.cap ==> m.ring.stamps[i] == i)
    && m.ring == Ring(m.ring.cap, m.ring.stamps, m.ring.store, 0, 0, [], [], [], {}, {}, {}, {}, map[])
    && (forall t :: 0 <= t < |m.th| ==> m.th[t] == Local(m.th[t].role, Free, NoOp, NoRet))
    && m.env.waiters == 0 && !m.env.flag && m.mutex == None && !m.announced
  }

  ghost predicate IsStep<T(!new)>(m: Machine<T>, m': Machine<T>)
  {
    Shaped(m.ring) && exists t, c :: 0 <= t < |m.th| && m' == Next(m, t, c)
  }

  ghost predicate StepAt<T(!new)>(run: seq<Machine<T>>, i: nat)
  {
    i + 1 < |run| && IsStep(run[i], run[i + 1])
  }

  ghost predicate IsRun<T(!new)>(run: seq<Machine<T>>)
  {
    && run != [] && Init(run[0])
    && forall i: nat :: i + 1 < |run| ==> StepAt(run, i)
  }

  // ---- the ring invariant over the machine ----

  /** Every claim on a position belongs to the one thread whose program point says so. */
  ghost predicate WritersOwned<T>(r: Ring<T>, th: seq<Local<T>>)
    requires Shaped(r)
  {
    forall p :: p in r.writers ==> 0 <= p < r.enq && r.pushedBy[p] < |th| && Writes(th[r.pushedBy[p]].op, p)
  }

  ghost predicate ReadersOwned<T>(r: Ring<T>, th: seq<Local<T>>)
    requires Shaped(r)
  {
    forall p :: p in r.readers ==> 0 <= p < r.deq && r.poppedBy[p] < |th| && Reads(th[r.poppedBy[p]].op, p)
  }

  ghost predicate MachineInv<T>(m: Machine<T>)
  {
    && RingInv(m.ring)
    && (forall t :: 0 <= t < |m.th| ==> OpInv(m.ring, t, m.th[t].op))
    && WritersOwned(m.ring, m.th) && ReadersOwned(m.ring, m.th)
  }

  lemma InitEstablishes<T>(m: Machine<T>)
    requires Init(m)
    ensures MachineInv(m)
  {
    forall p: nat | p < m.ring.cap ensures At(m.ring.stamps, p) == p { }
  }

  /** The ring is untouched, and at most thread t starts or ends an operation. */
  ghost predicate OpsKept<T>(m: Machine<T>, m': Machine<T>, t: Tid)
    requires t < |m.th|
  {
    m'.ring == m.ring && SameOps(m.th, m'.th, t)
  }

  ghost predicate SameOps<T>(th: seq<Local<T>>, th': seq<Local<T>>, t: Tid)
    requires t < |th|
  {
    && |th'| == |th|
    && (forall u :: 0 <= u < |th| && u != t ==> th'[u].op == th[u].op)
    && (th'[t].op == th[t].op || th'[t].op.NoOp? || th'[t].op.PushLoad? || th'[t].op.PopLoad?)
  }

  lemma ControlOp<T>(l: Local<T>, env: Env, item: T)
    ensures var op' := Control(l, env, item).l.op;
            op' == l.op || op'.NoOp? || op'.PushLoad? || op'.PopLoad?
  {
  }

  lemma ControlOps<T>(m: Machine<T>, t: Tid, c: Choice<T>)
    requires t < |m.th|
    ensures OpsKept(m, Perform(m, t, Control(m.th[t], m.env, c.item), c.wake), t)
  {
    ControlOp(m.th[t], m.env, c.item);
  }

  lemma AdvanceKeeps<T>(m: Machine<T>, t: Tid, c: Choice<T>)
    requires t < |m.th| && MachineInv(m)
    ensures var (r', op') := OpStep(m.ring, t, m.th[t].op, c.spurious, c.left);
            MachineInv(Advance(m, t, r', op'))
  {
    var op := m.th[t].op;
    var (r', op') := OpStep(m.ring, t, op, c.spurious, c.left);
    OpStepKeeps(m.ring, t, op, c.spurious, c.left);
    forall u | 0 <= u < |m.th| && u != t ensures OpInv(r', u, m.th[u].op) {
      OpStepSpares(m.ring, t, op, c.spurious, c.left, u, m.th[u].op);
    }
    WritersKept(m.ring, m.th, t, c);
    ReadersKept(m.ring, m.th, t, c);
  }

  lemma OpsKeptKeeps<T>(m: Machine<T>, m': Machine<T>, t: Tid)
    requires t < |m.th| && MachineInv(m) && !Running(m.th[t].op) && OpsKept(m, m', t)
    ensures MachineInv(m')
  {
    WritersStay(m.ring, m.th, m'.th, t);
    ReadersStay(m.ring, m.th, m'.th, t);
    forall u | 0 <= u < |m'.th| ensures OpInv(m'.ring, u, m'.th[u].op) {
      assert OpInv(m.ring, u, m.th[u].op);
    }
  }

  lemma WritersStay<T>(r: Ring<T>, th: seq<Local<T>>, th': seq<Local<T>>, t: Tid)
    requires t < |th| && Shaped(r) && WritersOwned(r, th) && !Running(th[t].op) && SameOps(th, th', t)
    ensures WritersOwned(r, th')
  {
  }

  lemma ReadersStay<T>(r: Ring<T>, th: seq<Local<T>>, th': seq<Local<T>>, t: Tid)
    requires t < |th| && Shaped(r) && ReadersOwned(r, th) && !Running(th[t].op) && SameOps(th, th', t)
    ensures ReadersOwned(r, th')
  {
  }

  lemma NextKeeps<T>(m: Machine<T>, t: Tid, c: Choice<T>)
    requires t < |m.th| && MachineInv(m)
    ensures MachineInv(Next(m, t, c))
  {
    if Running(m.th[t].op) {
      AdvanceKeeps(m, t, c);
    } else {
      ControlOps(m, t, c);
      OpsKeptKeeps(m, Next(m, t, c), t);
    }
  }

  lemma WritersKept<T>(r: Ring<T>, th: seq<Local<T>>, t: Tid, c: Choice<T>)
    requires t < |th| && Shaped(r) && WritersOwned(r, th) && OpInv(r, t, th[t].op)
    ensures var (r', op') := OpStep(r, t, th[t].op, c.spurious, c.left);
            Shaped(r') ==> WritersOwned(r', th[t := th[t].(op := op')])
  {
    match th[t].op
    case PushCas(v, p) =>
    case PushPublish(p) =>
    case _ =>
  }

  lemma ReadersKept<T>(r: Ring<T>, th: seq<Local<T>>, t: Tid, c: Choice<T>)
    requires t < |th| && Shaped(r) && ReadersOwned(r, th) && OpInv(r, t, th[t].op)
    ensures var (r', op') := OpStep(r, t, th[t].op, c.spurious, c.left);
            Shaped(r') ==> ReadersOwned(r', th[t := th[t].(op := op')])
  {
    match th[t].op
    case PopCas(p) =>
    case PopRelease(p, v) =>
    case _ =>
  }

  /** What one step does to the ring is the operation step of the thread that moved. */
  lemma NextRing<T>(m: Machine<T>, t: Tid, c: Choice<T>)
    requires t < |m.th| && Shaped(m.ring)
    ensures |Next(m, t, c).th| == |m.th|
    ensures Next(m, t, c).ring ==
            if Running(m.th[t].op) then OpStep(m.ring, t, m.th[t].op, c.spurious, c.left).0 else m.ring
  {
    ControlOps(m, t, c);
  }

  /** One machine step, as seen from outside: the invariant holds on, histories grow, and the
      contents make a FIFO step. */
  lemma StepFacts<T(!new)>(m: Machine<T>, m': Machine<T>)
    requires IsStep(m, m') && MachineInv(m)
    ensures MachineInv(m') && |m'.th| == |m.th| && Grows(m.ring, m'.ring)
    ensures FifoStep(m.ring.cap, Contents(m.ring), Contents(m'.ring))
  {
    var t, c :| 0 <= t < |m.th| && m' == Next(m, t, c);
    NextKeeps(m, t, c);
    NextRing(m, t, c);
    StepGrows(m.ring, t, m.th[t].op, c.spurious, c.left);
    StepRefines(m.ring, t, m.th[t].op, c.spurious, c.left);
  }

  /** Every state of every run satisfies the invariant. */
  lemma Reachable<T(!new)>(run: seq<Machine<T>>, i: nat)
    requires IsRun(run) && i < |run|
    ensures MachineInv(run[i]) && run[i].ring.cap == run[0].ring.cap && |run[i].th| == |run[0].th|
  {
    var inv := (m: Machine<T>) => MachineInv(m) && m.ring.cap == run[0].ring.cap && |m.th| == |run[0].th|;
    InitEstablishes(run[0]);
    forall k: nat | k < i && inv(run[k]) ensures inv(run[k + 1]) {
      assert StepAt(run, k);
      StepFacts(run[k], run[k + 1]);
    }
    Along(run, inv, 0, i);
  }

  lemma HistoryGrows<T(!new)>(run: seq<Machine<T>>, i: nat, j: nat)
    requires IsRun(run) && i <= j < |run|
    ensures Grows(run[i].ring, run[j].ring)
  {
    var inv := (m: Machine<T>) => Grows(run[i].ring, m.ring);
    forall k: nat | i <= k < j && inv(run[k]) ensures inv(run[k + 1]) {
      Reachable(run, k);
      assert StepAt(run, k);
      StepFacts(run[k], run[k + 1]);
    }
    Along(run, inv, i, j);
  }

  /** The refinement over whole runs: at every point the contents are the values at positions
      [deq, enq) of one global order, at most N of them, and each step is a FIFO step. */
  lemma RunRefinesFifo<T(!new)>(run: seq<Machine<T>>, i: nat)
    requires IsRun(run) && i < |run|
    ensures Shaped(run[i].ring) && |Contents(run[i].ring)| <= run[0].ring.cap
    ensures i + 1 < |run| ==> Shaped(run[i + 1].ring)
                              && FifoStep(run[0].ring.cap, Contents(run[i].ring), Contents(run[i + 1].ring))
  {
    Reachable(run, i);
    if i + 1 < |run| { assert StepAt(run, i); StepFacts(run[i], run[i + 1]); }
  }

  /** Exactly once, in order, over whole runs: a position handed out by step i carries the value
      the global order has for it at every later step j, and a position passed by the dequeue
      cursor is either handed out or still held by the one thread that won it. */
  lemma RunDeliversInOrder<T(!new)>(run: seq<Machine<T>>, i: nat, j: nat, p: nat)
    requires IsRun(run) && i <= j < |run| && p < run[i].ring.deq
    ensures Shaped(run[i].ring) && Shaped(run[j].ring)
    ensures p in run[i].ring.taken ==> p < run[j].ring.deq && run[i].ring.taken[p] == run[j].ring.log[p]
    ensures p !in run[i].ring.taken <==>
            run[i].ring.poppedBy[p] < |run[i].th| && Reads(run[i].th[run[i].ring.poppedBy[p]].op, p)
  {
    Reachable(run, i);
    Reachable(run, j);
    HistoryGrows(run, i, j);
    var u := run[i].ring.poppedBy[p];
    assert u < |run[i].th| ==> OpInv(run[i].ring, u, run[i].th[u].op);
  }

  /** size(): the enqueue cursor is read at step i, the dequeue cursor at a later step j. */
  function SizeOf(enqueued: nat, dequeued: nat): nat
  {
    if enqueued > dequeued then enqueued - dequeued else 0
  }

  lemma SizeNeverOverstates<T(!new)>(run: seq<Machine<T>>, i: nat, j: nat)
    requires IsRun(run) && i <= j < |run|
    ensures Shaped(run[i].ring) && Shaped(run[j].ring)
    ensures var size := SizeOf(run[i].ring.enq, run[j].ring.deq);
            && size <= run[0].ring.cap
            && size <= |Contents(run[i].ring)| && size <= |Contents(run[j].ring)|
            && (run[i].ring.deq == run[j].ring.deq ==> size == |Contents(run[i].ring)|)
  {
    Reachable(run, i);
    Reachable(run, j);
    HistoryGrows(run, i, j);
  }
}
