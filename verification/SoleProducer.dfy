/** push() with one producer, as the gateway has, and any number of concurrent consumers: exactly when a
    whole call agrees with the mutex queue, in its result and in the item it evicts. */
module SoleProducer {
  import opened QueueTypes
  import opened Tally
  import opened Rings
  import opened RingThreads
  import opened LockFreeMachine
  import opened Parking
  import opened Deliveries
  import opened CallOrder
  import opened DropOldestPush
  import opened PushVerdict

  // ---- what goes into the queue ----

  /** The global order grows by the call's value, once, if and only if the call wins a position. */
  ghost predicate Logged<T>(r: Ring<T>, l: Local<T>, log: seq<T>, v: T)
  {
    && (!l.ctl.Free? ==> Given(l) == Some(v))
    && r.log == if (if l.ctl.Free? then Succeeded(l.ret) else Won(l)) then log + [v] else log
  }

  lemma LoggedOp<T>(r: Ring<T>, t: Tid, l: Local<T>, spurious: bool, left: T, log: seq<T>, v: T)
    requires Shaped(r) && Typed(l) && Running(l.op) && Honest(l) && Logged(r, l, log, v)
    ensures var (r', op') := OpStep(r, t, l.op, spurious, left); Logged(r', l.(op := op'), log, v)
  {
    OweOpLocal(r, t, l, spurious, left);
  }

  lemma LoggedControl<T>(r: Ring<T>, l: Local<T>, env: Env, item: T, log: seq<T>, v: T)
    requires Typed(l) && !Running(l.op) && Honest(l) && l.role.Producer? && !l.ctl.Free? && Logged(r, l, log, v)
    ensures Logged(r, Control(l, env, item).l, log, v)
  {
    OweControl(l, env, item);
  }

  lemma LoggedMoves<T>(m: Machine<T>, t: Tid, c: Choice<T>, log: seq<T>, v: T)
    requires t < |m.th| && PushInv(m) && m.th[t].role.Producer? && !m.th[t].ctl.Free? && Logged(m.ring, m.th[t], log, v)
    ensures var m' := Next(m, t, c); |m'.th| == |m.th| && Logged(m'.ring, m'.th[t], log, v)
  {
    var l := m.th[t];
    assert Typed(l) && Honest(l);
    NextThread(m, t, c);
    NextRing(m, t, c);
    if Running(l.op) {
      LoggedOp(m.ring, t, l, c.spurious, c.left, log, v);
    } else {
      LoggedControl(m.ring, l, m.env, c.item, log, v);
    }
  }

  lemma LoggedStep<T(!new)>(m: Machine<T>, m': Machine<T>, producer: Tid, log: seq<T>, v: T)
    requires IsStep(m, m') && PushInv(m) && AloneInv(m, producer) && !m.th[producer].ctl.Free?
    requires Logged(m.ring, m.th[producer], log, v)
    ensures |m'.th| == |m.th| && Logged(m'.ring, m'.th[producer], log, v)
  {
    var t, c :| 0 <= t < |m.th| && m' == Next(m, t, c);
    if t == producer { LoggedMoves(m, t, c, log, v); } else { OtherMoves(m, t, c, producer); }
  }

  lemma LoggedBegins<T(!new)>(run: seq<Machine<T>>, producer: Tid, v: T, i: nat)
    requires IsRun(run) && producer < |run[0].th| && i + 1 < |run|
    requires producer < |run[i].th| && run[i].th[producer].ctl.Free?
    requires producer < |run[i + 1].th| && run[i + 1].th[producer].ctl == PushFirst(v)
    ensures run[i + 1].ring == run[i].ring && Logged(run[i].ring, run[i + 1].th[producer], run[i].ring.log, v)
  {
    BaseReachable(run, i);
    assert StepAt(run, i);
    CallBegins(run[i], run[i + 1], producer, v);
  }

  /** While the one producer's call lasts nothing else enters the queue. */
  lemma LoggedHolds<T(!new)>(run: seq<Machine<T>>, producer: Tid, v: T, i: nat, j: nat, n: nat)
    requires IsRun(run) && OneProducer(run[0].th, producer) && PushCall(run, producer, v, i, j) && i < n <= j
    ensures Logged(run[n].ring, run[n].th[producer], run[i].ring.log, v)
  {
    var log := run[i].ring.log;
    var inv := (m: Machine<T>) => producer < |m.th| && Logged(m.ring, m.th[producer], log, v);
    LoggedBegins(run, producer, v, i);
    forall k: nat | i + 1 <= k < n && inv(run[k]) ensures inv(run[k + 1]) {
      LoggedAt(run, producer, v, k, log);
    }
    Along(run, inv, i + 1, n);
  }

  lemma LoggedAt<T(!new)>(run: seq<Machine<T>>, producer: Tid, v: T, k: nat, log: seq<T>)
    requires IsRun(run) && OneProducer(run[0].th, producer) && k + 1 < |run| && producer < |run[k].th|
    requires !run[k].th[producer].ctl.Free? && Logged(run[k].ring, run[k].th[producer], log, v)
    ensures producer < |run[k + 1].th| && Logged(run[k + 1].ring, run[k + 1].th[producer], log, v)
  {
    AloneReachable(run, k, producer);
    PushReachable(run, k, v);
    assert StepAt(run, k);
    LoggedStep(run[k], run[k + 1], producer, log, v);
  }

  // ---- what the producer's loads mean ----

  /** What the last stamp load of each part of the call met, in terms of the queue and its consumers. */
  datatype Seen<T> = Seen(
    items: seq<T>,       // first try_push: the contents at that load
    head: nat,           // first try_push: the dequeue cursor at that load
    blocked: bool,       // first try_push: a consumer held the position one lap back
    drained: bool,       // evicting try_pop: its position was the dequeue and the enqueue cursor
    blockedAgain: bool)  // second try_push: a consumer held the position one lap back

  /** What a load adds; `held` says whether a consumer holds the position one lap back. */
  ghost function See<T>(r: Ring<T>, l: Local<T>, held: bool, s: Seen<T>): Seen<T>
    requires Shaped(r)
  {
    if l.ctl.PushFirst? && l.op.PushAt? then s.(items := Contents(r), head := r.deq, blocked := held)
    else if l.ctl.PushEvict? && l.op.PopAt? then s.(drained := l.op.pos == r.deq == r.enq)
    else if l.ctl.PushSecond? && l.op.PushAt? then s.(blockedAgain := held)
    else s
  }

  ghost function SeenBy<T(!new)>(run: seq<Machine<T>>, producer: Tid, i: nat, n: nat): Seen<T>
    requires IsRun(run) && i <= n < |run| && producer < |run[0].th|
  {
    if i == n then Seen([], |run[i].ring.log|, false, false, false)
    else
      InShape(run, n - 1, producer);
      See(run[n - 1].ring, run[n - 1].th[producer], LapHeld(run[n - 1]), SeenBy(run, producer, i, n - 1))
  }

  /** The two accounts of the same loads agree; `log` is the global order when the call began. */
  ghost predicate Means<T>(s: Seen<T>, l: Loads, cap: nat, log: seq<T>)
  {
    && (l.full <==> |s.items| >= cap || s.blocked)
    && (l.nothing <==> s.drained)
    && (l.fullAgain <==> s.blockedAgain)
    && s.head <= |log| && s.items == log[s.head..]
    && (s.drained ==> l.evictAt == |log|)
  }

  /** A load of a try_push by the one producer. */
  lemma PushLoads<T>(m: Machine<T>, producer: Tid, c: Choice<T>)
    requires AloneInv(m, producer) && m.th[producer].op.PushAt?
    ensures m.th[producer].op.pos == m.ring.enq && (HasRoom(m.ring) <==> |Contents(m.ring)| < m.ring.cap && !LapHeld(m))
    ensures OpStep(m.ring, producer, m.th[producer].op, c.spurious, c.left)
            == (m.ring, if HasRoom(m.ring) then PushCas(m.th[producer].op.item, m.ring.enq) else PushDone(false))
    ensures m.th[producer].ctl.PushSecond? ==> |Contents(m.ring)| < m.ring.cap
  {
    ConsumerReads(m);
    RoomUnlessHeld(m.ring, m.th, m.mutex, m.env.waiters, producer);
    assert Alone(m.ring, m.th[producer]);
    NextStamp(m.ring);
  }

  /** While the producer pops, nobody is writing. */
  lemma NobodyWrites<T>(r: Ring<T>, th: seq<Local<T>>, mutex: Option<Tid>, waiters: int, producer: Tid)
    requires Shaped(r) && WritersOwned(r, th) && LockInv(th, mutex, waiters)
    requires OneProducer(th, producer) && PopOp(th[producer].op)
    ensures r.writers == {}
  {
    forall u | 0 <= u < |th| ensures !th[u].op.PushWrite? && !th[u].op.PushPublish? {
      assert Typed(th[u]);
    }
  }

  /** A load of the evicting try_pop: the head is unpublished exactly when nothing is queued, so it gives up
      exactly when its position is both cursors. */
  lemma PopLoads<T>(m: Machine<T>, producer: Tid, c: Choice<T>)
    requires AloneInv(m, producer) && m.th[producer].op.PopAt?
    ensures Published(m.ring, m.ring.deq) <==> m.ring.deq < m.ring.enq
    ensures OpStep(m.ring, producer, m.th[producer].op, c.spurious, c.left).1 == PopDone(None) <==>
            m.th[producer].op.pos == m.ring.deq == m.ring.enq
  {
    NobodyWrites(m.ring, m.th, m.mutex, m.env.waiters, producer);
    assert OpInv(m.ring, producer, m.th[producer].op);
    PopFailsOnlyWhenEmpty(m.ring, producer, m.th[producer].op, c.spurious, c.left);
  }

  lemma MeansLook<T>(r: Ring<T>, l: Local<T>, held: bool, s: Seen<T>, ld: Loads, log: seq<T>, v: T)
    requires Shaped(r) && !l.ctl.Free? && Logged(r, l, log, v) && Means(s, ld, r.cap, log)
    requires l.op.PushAt? ==> l.op.pos == r.enq && (HasRoom(r) <==> |Contents(r)| < r.cap && !held)
    requires l.op.PushAt? && l.ctl.PushSecond? ==> |Contents(r)| < r.cap
    requires l.op.PopAt? ==> (Published(r, r.deq) <==> r.deq < r.enq)
    ensures Means(See(r, l, held, s), Look(r, l, ld), r.cap, log)
  {
  }

  lemma MeansStep<T>(m: Machine<T>, producer: Tid, c: Choice<T>, s: Seen<T>, l: Loads, log: seq<T>, v: T)
    requires AloneInv(m, producer) && !m.th[producer].ctl.Free? && Logged(m.ring, m.th[producer], log, v)
    requires Means(s, l, m.ring.cap, log)
    ensures Means(See(m.ring, m.th[producer], LapHeld(m), s), Look(m.ring, m.th[producer], l), m.ring.cap, log)
  {
    var th := m.th[producer];
    if th.op.PushAt? { PushLoads(m, producer, c); }
    if th.op.PopAt? { PopLoads(m, producer, c); }
    MeansLook(m.ring, th, LapHeld(m), s, l, log, v);
  }

  lemma MeansAt<T(!new)>(run: seq<Machine<T>>, producer: Tid, v: T, i: nat, j: nat, n: nat)
    requires IsRun(run) && OneProducer(run[0].th, producer) && PushCall(run, producer, v, i, j) && i < n < j
    requires Means(SeenBy(run, producer, i + 1, n), LoadsBy(run, producer, i + 1, n), run[i].ring.cap, run[i].ring.log)
    ensures Means(SeenBy(run, producer, i + 1, n + 1), LoadsBy(run, producer, i + 1, n + 1), run[i].ring.cap,
                  run[i].ring.log)
  {
    AloneReachable(run, n, producer);
    LoggedHolds(run, producer, v, i, j, n);
    HistoryGrows(run, i, n);
    MeansStep(run[n], producer, Choice(v, false, v, 0), SeenBy(run, producer, i + 1, n),
              LoadsBy(run, producer, i + 1, n), run[i].ring.log, v);
  }

  lemma {:induction false} MeansHolds<T(!new)>(run: seq<Machine<T>>, producer: Tid, v: T, i: nat, j: nat, n: nat)
    requires IsRun(run) && OneProducer(run[0].th, producer) && PushCall(run, producer, v, i, j) && i < n <= j
    ensures Means(SeenBy(run, producer, i + 1, n), LoadsBy(run, producer, i + 1, n), run[i].ring.cap, run[i].ring.log)
    decreases n
  {
    if n == i + 1 {
      LoggedBegins(run, producer, v, i);
      Reachable(run, i);
    } else {
      MeansHolds(run, producer, v, i, j, n - 1);
      MeansAt(run, producer, v, i, j, n - 1);
    }
  }

  // ---- the whole call ----

  /** The verdict of CallVerdictIff in the queue's own terms. Accepted: the first try_push found room, that
      is fewer than N items and nobody holding the position one lap back. Rejected: it found none, and the
      policy does not evict, or the evicting try_pop met an empty queue, or the second try_push met a held
      position. DroppedOldest: the rest. An item is evicted exactly when the policy says so, there was no
      room and the queue was not found empty, whatever is reported in the end. */
  lemma PushVerdictIff<T(!new)>(run: seq<Machine<T>>, producer: Tid, v: T, i: nat, j: nat)
    requires IsRun(run) && OneProducer(run[0].th, producer) && PushCall(run, producer, v, i, j)
    ensures run[j].th[producer].ret.Pushed?
    ensures var s, cap, policy := SeenBy(run, producer, i + 1, j), run[i].ring.cap, run[i].env.policy;
            var res := run[j].th[producer].ret.res;
            && (res.Accepted? <==> |s.items| < cap && !s.blocked)
            && (res.RejectedBackpressure? <==>
                  (|s.items| >= cap || s.blocked) && (policy.DropOldest? ==> s.drained || s.blockedAgain))
            && (res.DroppedOldest? <==>
                  policy.DropOldest? && (|s.items| >= cap || s.blocked) && !s.drained && !s.blockedAgain)
            && EvictedBy(run[j].ring, producer) - EvictedBy(run[i].ring, producer)
               == One(policy.DropOldest? && (|s.items| >= cap || s.blocked) && !s.drained)
  {
    MeansHolds(run, producer, v, i, j, j);
    CallVerdictIff(run, producer, v, i, j);
  }

  /** The call did what the reference does with the contents its first try_push met last: it reports that
      result, it has evicted the item at the head of those contents and no other, or none, as the
      reference does, and what entered the queue behind them is what enters the reference. */
  ghost predicate Agrees<T>(before: Ring<T>, after: Ring<T>, producer: Tid, s: Seen<T>, res: PushResult,
                            policy: Policy, v: T)
    requires before.cap > 0
  {
    var spec := PushSpec(s.items, before.cap, policy, v);
    && res == spec.1
    && (if spec.1.DroppedOldest? then OnlyClaim(after.poppedBy, producer, before.deq, s.head)
        else NoClaim(after.poppedBy, producer, before.deq))
    && s.head + One(spec.1.DroppedOldest?) <= |after.log|
    && after.log[s.head + One(spec.1.DroppedOldest?)..] == spec.0
  }

  /** Exactly when the one producer's call matches the mutex queue, in result, evicted item and contents:
      with fewer than N items at the first try_push's last load, if nobody held the position one lap back;
      with N items, if under DropOldest the evicting try_pop's last load was still at the head of that
      load, so that no consumer has won a position in between, and nobody held the position one lap back
      at the second try_push's. */
  lemma AgreesWithReferenceIff<T(!new)>(run: seq<Machine<T>>, producer: Tid, v: T, i: nat, j: nat)
    requires IsRun(run) && OneProducer(run[0].th, producer) && PushCall(run, producer, v, i, j)
    ensures run[i].ring.cap > 0 && run[j].th[producer].ret.Pushed?
    ensures var s, cap, policy := SeenBy(run, producer, i + 1, j), run[i].ring.cap, run[i].env.policy;
            Agrees(run[i].ring, run[j].ring, producer, s, run[j].th[producer].ret.res, policy, v) <==>
            if |s.items| < cap then !s.blocked
            else policy.DropOldest? ==> LoadsBy(run, producer, i + 1, j).evictAt == s.head && !s.blockedAgain
  {
    var s, l := SeenBy(run, producer, i + 1, j), LoadsBy(run, producer, i + 1, j);
    Reachable(run, i);
    MeansHolds(run, producer, v, i, j, j);
    CallVerdictIff(run, producer, v, i, j);
    LoggedHolds(run, producer, v, i, j, j);
    Concludes(run[i].ring, run[j].ring, producer, s, l, run[j].th[producer].ret.res, run[i].env.policy, v);
  }

  lemma Concludes<T>(before: Ring<T>, after: Ring<T>, producer: Tid, s: Seen<T>, l: Loads, res: PushResult,
                     policy: Policy, v: T)
    requires before.cap > 0 && Means(s, l, before.cap, before.log) && res == Outcome(l, policy)
    requires Took(after.poppedBy, producer, before.deq, l.evictAt, One(Evicting(l, policy)))
    requires after.log == if res.RejectedBackpressure? then before.log else before.log + [v]
    ensures Agrees(before, after, producer, s, res, policy, v) <==>
            if |s.items| < before.cap then !s.blocked
            else policy.DropOldest? ==> l.evictAt == s.head && !s.blockedAgain
  {
    assert (before.log + [v])[s.head..] == s.items + [v];
    if |s.items| > 0 {
      assert s.items[1..] == before.log[s.head + 1..];
      assert (before.log + [v])[s.head + 1..] == s.items[1..] + [v];
    }
  }

  /** When a call evicts an item although fewer than N are queued: the policy evicts, a consumer held the
      position one lap back at the first try_push's last load, and the queue was not empty by the evicting
      try_pop's. */
  lemma EvictsWithRoomIff<T(!new)>(run: seq<Machine<T>>, producer: Tid, v: T, i: nat, j: nat)
    requires IsRun(run) && OneProducer(run[0].th, producer) && PushCall(run, producer, v, i, j)
    ensures var s, cap := SeenBy(run, producer, i + 1, j), run[i].ring.cap;
            |s.items| < cap && EvictedBy(run[j].ring, producer) > EvictedBy(run[i].ring, producer) <==>
            run[i].env.policy.DropOldest? && |s.items| < cap && s.blocked && !s.drained
  {
    PushVerdictIff(run, producer, v, i, j);
  }
}
