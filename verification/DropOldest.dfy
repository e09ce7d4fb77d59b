/** push() with one producer and any number of concurrent consumers: what the producer's stamp loads can
    see, and that an undisturbed push is the reference push. */
module DropOldestPush {
  import opened QueueTypes
  import opened Tally
  import opened Rings
  import opened RingThreads
  import opened LockFreeMachine
  import opened Parking
  import opened Deliveries

  // ---- what the one producer can rely on ----

  /** It has evicted an item and not yet claimed a position for its own. */
  ghost predicate Evicted<T>(l: Local<T>)
  {
    || (l.ctl.PushEvict? && (l.op.PopTake? || l.op.PopRelease? || (l.op.PopDone? && l.op.got.Some?)))
    || (l.ctl.PushSecond? && (l.op.PushLoad? || l.op.PushAt? || l.op.PushCas?))
  }

  /** Its local position is never stale, and what it evicted made room between the cursors. */
  ghost predicate Alone<T>(r: Ring<T>, l: Local<T>)
  {
    && (l.op.PushAt? || l.op.PushCas? ==> l.op.pos == r.enq)
    && (Evicted(l) ==> r.enq < r.deq + r.cap)
  }

  ghost predicate AloneInv<T>(m: Machine<T>, producer: Tid)
  {
    BaseInv(m) && OneProducer(m.th, producer) && Alone(m.ring, m.th[producer])
  }

  lemma AloneOp<T>(r: Ring<T>, t: Tid, l: Local<T>, spurious: bool, left: T)
    requires RingInv(r) && OpInv(r, t, l.op) && Typed(l) && Running(l.op) && Alone(r, l)
    ensures var (r', op') := OpStep(r, t, l.op, spurious, left); Alone(r', l.(op := op'))
  {
  }

  lemma AloneControl<T>(r: Ring<T>, l: Local<T>, env: Env, item: T)
    requires Typed(l) && !Running(l.op) && l.role.Producer? && Alone(r, l)
    ensures Alone(r, Control(l, env, item).l)
  {
  }

  /** Others do not move the enqueue cursor. */
  lemma OthersDoNotPush<T>(r: Ring<T>, t: Tid, op: Op<T>, spurious: bool, left: T)
    requires Shaped(r) && !PushOp(op)
    ensures var r' := OpStep(r, t, op, spurious, left).0;
            r'.enq == r.enq && r'.cap == r.cap && r'.deq >= r.deq && r'.log == r.log
  {
  }

  lemma ProducerMoves<T>(m: Machine<T>, t: Tid, c: Choice<T>)
    requires t < |m.th| && AloneInv(m, t)
    ensures Alone(Next(m, t, c).ring, Next(m, t, c).th[t])
  {
    var l := m.th[t];
    assert Typed(l) && OpInv(m.ring, t, l.op);
    if Running(l.op) {
      AloneOp(m.ring, t, l, c.spurious, c.left);
    } else {
      AloneControl(m.ring, l, m.env, c.item);
      NextRing(m, t, c);
    }
  }

  lemma OtherMoves<T>(m: Machine<T>, t: Tid, c: Choice<T>, producer: Tid)
    requires t < |m.th| && t != producer && AloneInv(m, producer)
    ensures var m' := Next(m, t, c);
            && |m'.th| == |m.th| && m'.th[producer] == m.th[producer]
            && m'.ring.enq == m.ring.enq && m'.ring.cap == m.ring.cap && m'.ring.deq >= m.ring.deq
            && m'.ring.log == m.ring.log
  {
    OtherThread(m.th, m.mutex, m.env.waiters, t, producer);
    OthersRest(m, t, c);
    NextRing(m, t, c);
    OthersDoNotPush(m.ring, t, m.th[t].op, c.spurious, c.left);
  }

  lemma OtherThread<T>(th: seq<Local<T>>, mutex: Option<Tid>, waiters: int, t: Tid, producer: Tid)
    requires LockInv(th, mutex, waiters) && OneProducer(th, producer) && t < |th| && t != producer
    ensures !PushOp(th[t].op) && !th[producer].ctl.Parked?
  {
    assert Typed(th[t]) && Typed(th[producer]);
  }

  lemma AloneStep<T(!new)>(m: Machine<T>, m': Machine<T>, producer: Tid)
    requires IsStep(m, m') && AloneInv(m, producer)
    ensures AloneInv(m', producer)
  {
    var t, c :| 0 <= t < |m.th| && m' == Next(m, t, c);
    BaseStep(m, m');
    AloneNext(m, t, c, producer);
  }

  lemma AloneNext<T>(m: Machine<T>, t: Tid, c: Choice<T>, producer: Tid)
    requires t < |m.th| && AloneInv(m, producer)
    ensures var m' := Next(m, t, c); |m'.th| == |m.th| && Alone(m'.ring, m'.th[producer])
  {
    NextRing(m, t, c);
    if t == producer { ProducerMoves(m, t, c); } else { OtherMoves(m, t, c, producer); }
  }

  lemma AloneReachable<T(!new)>(run: seq<Machine<T>>, i: nat, producer: Tid)
    requires IsRun(run) && i < |run| && OneProducer(run[0].th, producer)
    ensures AloneInv(run[i], producer)
  {
    var inv := (m: Machine<T>) => AloneInv(m, producer);
    BaseReachable(run, 0);
    forall k: nat | k < i && inv(run[k]) ensures inv(run[k + 1]) {
      assert StepAt(run, k);
      AloneStep(run[k], run[k + 1], producer);
    }
    Along(run, inv, 0, i);
  }

  // ---- the second stamp load decides ----

  /** Some consumer is between its claim and its release of the position one lap behind the enqueue
      cursor. */
  ghost predicate LapHeld<T>(m: Machine<T>)
  {
    HeldBy(m.ring, m.th)
  }

  ghost predicate HeldBy<T>(r: Ring<T>, th: seq<Local<T>>)
  {
    r.enq >= r.cap && exists u :: 0 <= u < |th| && th[u].role.Consumer? && Reads(th[u].op, r.enq - r.cap)
  }

  lemma ReaderIsConsumer<T>(r: Ring<T>, th: seq<Local<T>>, mutex: Option<Tid>, waiters: int, producer: Tid, p: nat)
    requires Shaped(r) && ReadersOwned(r, th) && p in r.readers && LockInv(th, mutex, waiters)
    requires OneProducer(th, producer) && PushOp(th[producer].op)
    ensures exists u :: 0 <= u < |th| && th[u].role.Consumer? && Reads(th[u].op, p)
  {
    var u := r.poppedBy[p];
    assert Reads(th[u].op, p) && Typed(th[u]);
  }

  /** Whoever is about to take or release a position has claimed it. */
  ghost predicate ReadsClaimed<T>(r: Ring<T>, th: seq<Local<T>>)
  {
    forall u, p: nat :: 0 <= u < |th| && Reads(th[u].op, p) ==> p in r.readers
  }

  lemma ConsumerReads<T>(m: Machine<T>)
    requires MachineInv(m)
    ensures ReadsClaimed(m.ring, m.th)
  {
    forall u, p: nat | 0 <= u < |m.th| && Reads(m.th[u].op, p) ensures p in m.ring.readers {
      assert OpInv(m.ring, u, m.th[u].op);
    }
  }

  /** Room is missing exactly when N items are queued or a consumer holds that position. */
  lemma RoomUnlessHeld<T>(r: Ring<T>, th: seq<Local<T>>, mutex: Option<Tid>, waiters: int, producer: Tid)
    requires Shaped(r) && ReadersOwned(r, th) && ReadsClaimed(r, th) && LockInv(th, mutex, waiters)
    requires OneProducer(th, producer) && PushOp(th[producer].op)
    ensures HasRoom(r) <==> |Contents(r)| < r.cap && !HeldBy(r, th)
  {
    if r.enq >= r.cap && r.enq - r.cap in r.readers {
      ReaderIsConsumer(r, th, mutex, waiters, producer, r.enq - r.cap);
    }
  }

  /** In every run with one producer, the stamp load of an evicting push's second try_push fails if
      and only if at that moment a consumer holds the position one lap back. */
  lemma SecondLoadFailsIff<T(!new)>(run: seq<Machine<T>>, k: nat, producer: Tid, c: Choice<T>)
    requires IsRun(run) && k + 1 < |run| && OneProducer(run[0].th, producer) && producer < |run[k].th|
    requires Shaped(run[k].ring)
    requires run[k].th[producer].ctl.PushSecond? && run[k].th[producer].op.PushAt?
    requires run[k + 1] == Next(run[k], producer, c)
    ensures run[k + 1].th[producer] == run[k].th[producer].(op :=
              if LapHeld(run[k]) then PushDone(false) else PushCas(run[k].th[producer].op.item, run[k].ring.enq))
  {
    AloneReachable(run, k, producer);
    LoadSees(run[k], producer);
  }

  lemma LoadSees<T>(m: Machine<T>, producer: Tid)
    requires AloneInv(m, producer) && m.th[producer].ctl.PushSecond? && m.th[producer].op.PushAt?
    ensures var d := At(m.ring.stamps, m.ring.enq) - m.ring.enq;
            m.th[producer].op.pos == m.ring.enq && d <= 0 && (d == 0 <==> !LapHeld(m))
  {
    ConsumerReads(m);
    RoomUnlessHeld(m.ring, m.th, m.mutex, m.env.waiters, producer);
    NextStamp(m.ring);
  }

  // ---- an undisturbed push is the reference push ----

  /** No consumer is between its claim and its release. */
  ghost predicate NoClaims<T>(th: seq<Local<T>>)
  {
    forall u :: 0 <= u < |th| && th[u].role.Consumer? ==> !th[u].op.PopTake? && !th[u].op.PopRelease?
  }

  /** How far a push(v) that found contents q has come, and what it made of them. */
  ghost predicate Underway<T>(r: Ring<T>, l: Local<T>, q: seq<T>, v: T, policy: Policy)
    requires Shaped(r)
  {
    match l.ctl
    case PushFirst(w) =>
      w == v && (match l.op
                 case PushLoad(y) => y == v && Contents(r) == q
                 case PushAt(y, _) => y == v && Contents(r) == q
                 case PushCas(y, _) => y == v && Contents(r) == q
                 case PushDone(ok) =>
                   if ok then |q| < r.cap && Contents(r) == q + [v] else |q| >= r.cap && Contents(r) == q
                 case _ => |q| < r.cap && Contents(r) == q + [v])
    case PushEvict(w) =>
      && w == v && policy.DropOldest? && |q| >= r.cap
      && (match l.op
          case PopLoad => Contents(r) == q
          case PopAt(pos) => pos == r.deq && Contents(r) == q
          case PopCas(pos) => pos == r.deq && Contents(r) == q
          case PopDone(got) => got.Some? && Contents(r) == q[1..]
          case _ => Contents(r) == q[1..])
    case PushSecond(w) =>
      && w == v && policy.DropOldest? && |q| >= r.cap
      && (match l.op
          case PushLoad(y) => y == v && Contents(r) == q[1..]
          case PushAt(y, _) => y == v && Contents(r) == q[1..]
          case PushCas(y, _) => y == v && Contents(r) == q[1..]
          case PushDone(ok) => ok && Contents(r) == q[1..] + [v]
          case _ => Contents(r) == q[1..] + [v])
    case Free => l.ret.Pushed? && (Contents(r), l.ret.res) == PushSpec(q, r.cap, policy, v)
    case _ => Notifying(l) && (Contents(r), l.ctl.res) == PushSpec(q, r.cap, policy, v)
  }

  /** With no consumer in between, nothing is claimed but what the producer claims itself. */
  lemma NothingHeld<T>(m: Machine<T>, producer: Tid)
    requires AloneInv(m, producer) && NoClaims(m.th)
    ensures !m.th[producer].op.PopTake? && !m.th[producer].op.PopRelease? ==> m.ring.readers == {}
    ensures !m.th[producer].op.PushWrite? && !m.th[producer].op.PushPublish? ==> m.ring.writers == {}
  {
    forall u | 0 <= u < |m.th| && u != producer
      ensures !m.th[u].op.PopTake? && !m.th[u].op.PopRelease? && !m.th[u].op.PushWrite? && !m.th[u].op.PushPublish?
    {
      assert Typed(m.th[u]);
    }
  }

  lemma UnderwayPush<T>(r: Ring<T>, t: Tid, l: Local<T>, spurious: bool, left: T, q: seq<T>, v: T, policy: Policy)
    requires RingInv(r) && OpInv(r, t, l.op) && Typed(l) && Running(l.op) && Alone(r, l) && Underway(r, l, q, v, policy)
    requires (l.op.PushAt? ==> r.readers == {}) && |q| <= r.cap && PushOp(l.op)
    ensures var (r', op') := OpStep(r, t, l.op, spurious, left);
            Shaped(r') && Underway(r', l.(op := op'), q, v, policy)
  {
    StepRefines(r, t, l.op, spurious, left);
    if l.op.PushAt? { PushFailsOnlyWhenFull(r, t, l.op, spurious, left); NextStamp(r); }
  }

  lemma UnderwayPop<T>(r: Ring<T>, t: Tid, l: Local<T>, spurious: bool, left: T, q: seq<T>, v: T, policy: Policy)
    requires RingInv(r) && OpInv(r, t, l.op) && Typed(l) && Running(l.op) && Underway(r, l, q, v, policy)
    requires (l.op.PopAt? ==> r.writers == {}) && PopOp(l.op) && l.ctl.PushEvict?
    ensures var (r', op') := OpStep(r, t, l.op, spurious, left);
            Shaped(r') && Underway(r', l.(op := op'), q, v, policy)
  {
    StepRefines(r, t, l.op, spurious, left);
    if l.op.PopAt? { PopFailsOnlyWhenEmpty(r, t, l.op, spurious, left); HeadStamp(r); }
  }

  lemma UnderwayControl<T>(r: Ring<T>, l: Local<T>, env: Env, item: T, q: seq<T>, v: T)
    requires Shaped(r) && Typed(l) && !Running(l.op) && l.role.Producer? && !l.ctl.Free?
    requires Underway(r, l, q, v, env.policy)
    ensures Underway(r, Control(l, env, item).l, q, v, env.policy)
  {
  }

  lemma ProducerOperates<T>(m: Machine<T>, t: Tid, c: Choice<T>, q: seq<T>, v: T)
    requires t < |m.th| && AloneInv(m, t) && NoClaims(m.th) && Running(m.th[t].op) && |q| <= m.ring.cap
    requires Underway(m.ring, m.th[t], q, v, m.env.policy)
    ensures var (r', op') := OpStep(m.ring, t, m.th[t].op, c.spurious, c.left);
            Shaped(r') && Underway(r', m.th[t].(op := op'), q, v, m.env.policy)
  {
    var l := m.th[t];
    assert Typed(l) && OpInv(m.ring, t, l.op);
    NothingHeld(m, t);
    if PushOp(l.op) {
      UnderwayPush(m.ring, t, l, c.spurious, c.left, q, v, m.env.policy);
    } else {
      UnderwayPop(m.ring, t, l, c.spurious, c.left, q, v, m.env.policy);
    }
  }

  lemma ProducerUnderway<T>(m: Machine<T>, t: Tid, c: Choice<T>, q: seq<T>, v: T)
    requires t < |m.th| && AloneInv(m, t) && NoClaims(m.th) && !m.th[t].ctl.Free? && |q| <= m.ring.cap
    requires Underway(m.ring, m.th[t], q, v, m.env.policy)
    ensures var m' := Next(m, t, c);
            Shaped(m'.ring) && |m'.th| == |m.th| && Underway(m'.ring, m'.th[t], q, v, m.env.policy)
  {
    var l := m.th[t];
    if Running(l.op) {
      ProducerOperates(m, t, c, q, v);
    } else {
      assert Typed(l);
      NextRing(m, t, c);
      UnderwayControl(m.ring, l, m.env, c.item, q, v);
    }
  }

  /** Another thread's step that leaves it without a claim has not touched the contents. */
  lemma OtherUnderway<T>(m: Machine<T>, t: Tid, c: Choice<T>, producer: Tid)
    requires t < |m.th| && t != producer && AloneInv(m, producer) && NoClaims(m.th) && NoClaims(Next(m, t, c).th)
    ensures var m' := Next(m, t, c);
            && Shaped(m'.ring) && |m'.th| == |m.th| && m'.th[producer] == m.th[producer]
            && Contents(m'.ring) == Contents(m.ring) && m'.ring.deq == m.ring.deq && m'.ring.cap == m.ring.cap
  {
    OtherMoves(m, t, c, producer);
    NextKeeps(m, t, c);
    NextRing(m, t, c);
    RolesKept(m, t, c);
    assert Typed(m.th[t]);
    if Running(m.th[t].op) {
      assert m.th[t].role.Consumer?;
      assert Next(m, t, c).th[t].op == OpStep(m.ring, t, m.th[t].op, c.spurious, c.left).1;
    }
  }

  lemma PolicyKept<T>(m: Machine<T>, t: Tid, c: Choice<T>)
    requires t < |m.th| && Shaped(m.ring)
    ensures Next(m, t, c).env.policy == m.env.policy && Next(m, t, c).ring.cap == m.ring.cap
  {
    NextRing(m, t, c);
  }

  lemma UnderwayStep<T(!new)>(m: Machine<T>, m': Machine<T>, producer: Tid, q: seq<T>, v: T)
    requires IsStep(m, m') && AloneInv(m, producer) && NoClaims(m.th) && NoClaims(m'.th)
    requires !m.th[producer].ctl.Free? && |q| <= m.ring.cap && Underway(m.ring, m.th[producer], q, v, m.env.policy)
    ensures AloneInv(m', producer) && m'.env.policy == m.env.policy && m'.ring.cap == m.ring.cap
    ensures Underway(m'.ring, m'.th[producer], q, v, m'.env.policy)
  {
    AloneStep(m, m', producer);
    var t, c :| 0 <= t < |m.th| && m' == Next(m, t, c);
    PolicyKept(m, t, c);
    if t == producer {
      ProducerUnderway(m, t, c, q, v);
    } else {
      OtherUnderway(m, t, c, producer);
    }
  }

  /** A push() call begins. */
  lemma Begins<T(!new)>(m: Machine<T>, m': Machine<T>, producer: Tid, v: T)
    requires IsStep(m, m') && AloneInv(m, producer) && producer < |m'.th|
    requires m.th[producer].ctl.Free? && m'.th[producer].ctl == PushFirst(v)
    ensures m'.env.policy == m.env.policy && m'.ring == m.ring && m'.th[producer].op == PushLoad(v)
  {
    var t, c :| 0 <= t < |m.th| && m' == Next(m, t, c);
    PolicyKept(m, t, c);
    if t != producer { OtherMoves(m, t, c, producer); }
    BeginsPush(m, t, c);
  }

  lemma BeginsUnderway<T(!new)>(m: Machine<T>, m': Machine<T>, producer: Tid, v: T)
    requires IsStep(m, m') && AloneInv(m, producer) && producer < |m'.th|
    requires m.th[producer].ctl.Free? && m'.th[producer].ctl == PushFirst(v)
    ensures AloneInv(m', producer) && m'.env.policy == m.env.policy && m'.ring == m.ring
    ensures Underway(m'.ring, m'.th[producer], Contents(m.ring), v, m'.env.policy)
  {
    AloneStep(m, m', producer);
    Begins(m, m', producer, v);
  }

  lemma BeginsPush<T>(m: Machine<T>, t: Tid, c: Choice<T>)
    requires t < |m.th| && BaseInv(m) && m.th[t].role.Producer? && m.th[t].ctl.Free?
    ensures var m' := Next(m, t, c);
            m'.ring == m.ring && m'.th[t].ctl == PushFirst(c.item) && m'.th[t].op == PushLoad(c.item)
  {
    assert Typed(m.th[t]);
  }

  /** If from its call (step i) to its return (step j) no consumer is between claim and release, the
      one producer's push does exactly what the reference queue does, under every policy: on a full
      ring DropOldest evicts exactly the oldest item and succeeds. */
  lemma UndisturbedPushIsReference<T(!new)>(run: seq<Machine<T>>, i: nat, j: nat, producer: Tid, v: T)
    requires IsRun(run) && i + 1 < j < |run| && OneProducer(run[0].th, producer)
    requires forall n :: i <= n <= j ==> producer < |run[n].th| && NoClaims(run[n].th)
    requires run[i].th[producer].ctl.Free? && run[i + 1].th[producer].ctl == PushFirst(v)
    requires forall n :: i < n < j ==> !run[n].th[producer].ctl.Free?
    requires run[j].th[producer].ctl.Free?
    ensures Shaped(run[i].ring) && Shaped(run[j].ring) && run[j].th[producer].ret.Pushed?
    ensures (Contents(run[j].ring), run[j].th[producer].ret.res)
            == PushSpec(Contents(run[i].ring), run[i].ring.cap, run[i].env.policy, v)
  {
    AloneReachable(run, i, producer);
    assert StepAt(run, i);
    BeginsUnderway(run[i], run[i + 1], producer, v);
    var q, cap, policy := Contents(run[i].ring), run[i].ring.cap, run[i].env.policy;
    var inv := (m: Machine<T>) =>
      AloneInv(m, producer) && m.ring.cap == cap && m.env.policy == policy
      && Underway(m.ring, m.th[producer], q, v, policy);
    forall n: nat | i + 1 <= n < j && inv(run[n]) ensures inv(run[n + 1]) {
      assert StepAt(run, n);
      UnderwayStep(run[n], run[n + 1], producer, q, v);
    }
    Along(run, inv, i + 1, j);
  }
}
