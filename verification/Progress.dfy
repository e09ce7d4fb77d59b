/** Lock-freedom of the ring: a thread goes round the loop of try_push or try_pop again only because
    another thread's swap succeeded since it loaded the cursor (or its own swap failed spuriously).
    So the time one thread loses in the loop is bounded by what the others complete. */
module Progress {
  import opened Tally
  import opened Rings
  import opened RingThreads
  import opened LockFreeMachine
  import opened Parking
  import opened Deliveries

  ghost predicate TryingPush<T>(op: Op<T>)
  {
    op.PushLoad? || op.PushAt? || op.PushCas?
  }

  ghost predicate TryingPop<T>(op: Op<T>)
  {
    op.PopLoad? || op.PopAt? || op.PopCas?
  }

  /** The thread goes round the loop again, other than by a spurious failure: the slot was ahead of
      its position, or the cursor had moved when it swapped. */
  ghost predicate GoesRound<T>(r: Ring<T>, op: Op<T>, op': Op<T>)
  {
    || (op.PushAt? && op'.PushLoad?) || (op.PushCas? && op'.PushAt? && op.pos != r.enq)
    || (op.PopAt? && op'.PopLoad?) || (op.PopCas? && op'.PopAt? && op.pos != r.deq)
  }

  /** How often thread t goes round between steps i and j. */
  ghost function Rounds<T>(run: seq<Machine<T>>, t: Tid, i: nat, j: nat): nat
    requires i <= j < |run| && forall n :: i <= n <= j ==> t < |run[n].th|
    decreases j
  {
    if i == j then 0
    else Rounds(run, t, i, j - 1) + One(GoesRound(run[j - 1].ring, run[j - 1].th[t].op, run[j].th[t].op))
  }

  /** The cursor value the thread's next decision rests on. */
  ghost function PushView<T>(r: Ring<T>, op: Op<T>): nat
  {
    if op.PushAt? || op.PushCas? then op.pos else r.enq
  }

  ghost function PopView<T>(r: Ring<T>, op: Op<T>): nat
  {
    if op.PopAt? || op.PopCas? then op.pos else r.deq
  }

  /** Going round means that the cursor is ahead of what the thread had loaded. */
  lemma OwnPushStep<T>(r: Ring<T>, t: Tid, op: Op<T>, spurious: bool, left: T)
    requires RingInv(r) && OpInv(r, t, op) && TryingPush(op)
    ensures var (r', op') := OpStep(r, t, op, spurious, left);
            TryingPush(op') ==> r' == r && PushView(r, op) + One(GoesRound(r, op, op')) <= PushView(r, op') <= r.enq
  {
    if op.PushAt? { NextStamp(r); }
  }

  lemma OwnPopStep<T>(r: Ring<T>, t: Tid, op: Op<T>, spurious: bool, left: T)
    requires RingInv(r) && OpInv(r, t, op) && TryingPop(op)
    ensures var (r', op') := OpStep(r, t, op, spurious, left);
            TryingPop(op') ==> r' == r && PopView(r, op) + One(GoesRound(r, op, op')) <= PopView(r, op') <= r.deq
  {
    if op.PopAt? { HeadStamp(r); }
  }

  /** One step seen by thread t inside the loop of try_push: the view it works with moves up at least
      when it goes round, and the positions claimed meanwhile are others'. */
  ghost predicate PushGoesOn<T>(r: Ring<T>, op: Op<T>, r': Ring<T>, op': Op<T>, t: Tid)
  {
    && PushView(r, op) + One(GoesRound(r, op, op')) <= PushView(r', op') <= r'.enq
    && r.enq == |r.pushedBy| <= r'.enq == |r'.pushedBy|
    && (forall q :: 0 <= q < r.enq ==> r'.pushedBy[q] == r.pushedBy[q])
    && (forall q :: r.enq <= q < r'.enq ==> r'.pushedBy[q] != t)
  }

  ghost predicate PopGoesOn<T>(r: Ring<T>, op: Op<T>, r': Ring<T>, op': Op<T>, t: Tid)
  {
    && PopView(r, op) + One(GoesRound(r, op, op')) <= PopView(r', op') <= r'.deq
    && r.deq == |r.poppedBy| <= r'.deq == |r'.poppedBy|
    && (forall q :: 0 <= q < r.deq ==> r'.poppedBy[q] == r.poppedBy[q])
    && (forall q :: r.deq <= q < r'.deq ==> r'.poppedBy[q] != t)
  }

  /** Its own step. */
  lemma OwnGoesOn<T>(r: Ring<T>, t: Tid, op: Op<T>, spurious: bool, left: T)
    requires RingInv(r) && OpInv(r, t, op)
    ensures var (r', op') := OpStep(r, t, op, spurious, left);
            && (TryingPush(op) && TryingPush(op') ==> PushGoesOn(r, op, r', op', t))
            && (TryingPop(op) && TryingPop(op') ==> PopGoesOn(r, op, r', op', t))
  {
    if TryingPush(op) { OwnPushStep(r, t, op, spurious, left); }
    if TryingPop(op) { OwnPopStep(r, t, op, spurious, left); }
  }

  /** Another thread's step. */
  lemma OtherGoesOn<T>(r: Ring<T>, u: Tid, other: Op<T>, spurious: bool, left: T, t: Tid, op: Op<T>)
    requires Shaped(r) && OpInv(r, t, op) && u != t
    ensures var r' := OpStep(r, u, other, spurious, left).0;
            && (TryingPush(op) ==> PushGoesOn(r, op, r', op, t))
            && (TryingPop(op) ==> PopGoesOn(r, op, r', op, t))
  {
  }

  lemma Unmoved<T>(r: Ring<T>, t: Tid, op: Op<T>)
    requires Shaped(r) && OpInv(r, t, op)
    ensures TryingPush(op) ==> PushGoesOn(r, op, r, op, t)
    ensures TryingPop(op) ==> PopGoesOn(r, op, r, op, t)
  {
  }

  /** One step of the machine, as thread t sees it while it is inside the loop. */
  lemma LoopStep<T(!new)>(m: Machine<T>, m': Machine<T>, t: Tid)
    requires IsStep(m, m') && BaseInv(m) && t < |m.th| && t < |m'.th|
    ensures var op, op' := m.th[t].op, m'.th[t].op;
            && (TryingPush(op) && TryingPush(op') ==> PushGoesOn(m.ring, op, m'.ring, op', t))
            && (TryingPop(op) && TryingPop(op') ==> PopGoesOn(m.ring, op, m'.ring, op', t))
  {
    var u, c :| 0 <= u < |m.th| && m' == Next(m, u, c);
    if u == t { LoopOwn(m, t, c); } else { LoopOther(m, u, c, t); }
  }

  lemma LoopOwn<T>(m: Machine<T>, t: Tid, c: Choice<T>)
    requires BaseInv(m) && t < |m.th|
    ensures var op, m' := m.th[t].op, Next(m, t, c);
            && |m'.th| == |m.th|
            && (TryingPush(op) && TryingPush(m'.th[t].op) ==> PushGoesOn(m.ring, op, m'.ring, m'.th[t].op, t))
            && (TryingPop(op) && TryingPop(m'.th[t].op) ==> PopGoesOn(m.ring, op, m'.ring, m'.th[t].op, t))
  {
    assert OpInv(m.ring, t, m.th[t].op);
    if Running(m.th[t].op) {
      OwnGoesOn(m.ring, t, m.th[t].op, c.spurious, c.left);
    } else {
      NextRing(m, t, c);
    }
  }

  lemma LoopOther<T>(m: Machine<T>, u: Tid, c: Choice<T>, t: Tid)
    requires BaseInv(m) && u < |m.th| && t < |m.th| && u != t
    ensures var op, m' := m.th[t].op, Next(m, u, c);
            && |m'.th| == |m.th| && m'.th[t].op == op
            && (TryingPush(op) ==> PushGoesOn(m.ring, op, m'.ring, op, t))
            && (TryingPop(op) ==> PopGoesOn(m.ring, op, m'.ring, op, t))
  {
    NextRing(m, u, c);
    OthersRest(m, u, c);
    assert OpInv(m.ring, t, m.th[t].op);
    OtherGoesOn(m.ring, u, m.th[u].op, c.spurious, c.left, t, m.th[t].op);
    Unmoved(m.ring, t, m.th[t].op);
  }

  lemma LoopAt<T(!new)>(run: seq<Machine<T>>, i: nat, t: Tid)
    requires IsRun(run) && i + 1 < |run| && t < |run[i].th| && t < |run[i + 1].th|
    ensures var r, r', op, op' := run[i].ring, run[i + 1].ring, run[i].th[t].op, run[i + 1].th[t].op;
            && (TryingPush(op) && TryingPush(op') ==> PushGoesOn(r, op, r', op', t))
            && (TryingPop(op) && TryingPop(op') ==> PopGoesOn(r, op, r', op', t))
  {
    BaseReachable(run, i);
    assert StepAt(run, i);
    LoopStep(run[i], run[i + 1], t);
  }

  lemma LoopStart<T(!new)>(run: seq<Machine<T>>, i: nat, t: Tid)
    requires IsRun(run) && i < |run| && t < |run[i].th|
    ensures var r, op := run[i].ring, run[i].th[t].op;
            && |r.pushedBy| == r.enq && |r.poppedBy| == r.deq
            && (TryingPush(op) ==> PushView(r, op) <= r.enq) && (TryingPop(op) ==> PopView(r, op) <= r.deq)
  {
    BaseReachable(run, i);
    assert OpInv(run[i].ring, t, run[i].th[t].op);
  }

  /** Lock-freedom of try_push: while thread t stays in its loop, having loaded a position, it goes
      round at most once for every position claimed since, and all of those were claimed by others. */
  lemma {:induction false} PushRoundsBounded<T(!new)>(run: seq<Machine<T>>, t: Tid, i: nat, j: nat)
    requires IsRun(run) && i <= j < |run| && forall n :: i <= n <= j ==> t < |run[n].th| && TryingPush(run[n].th[t].op)
    ensures run[i].ring.enq <= run[j].ring.enq == |run[j].ring.pushedBy|
    ensures PushView(run[i].ring, run[i].th[t].op) + Rounds(run, t, i, j) <= PushView(run[j].ring, run[j].th[t].op)
            <= run[j].ring.enq
    ensures forall q :: run[i].ring.enq <= q < run[j].ring.enq ==> run[j].ring.pushedBy[q] != t
    decreases j
  {
    if i < j {
      PushRoundsBounded(run, t, i, j - 1);
      LoopAt(run, j - 1, t);
    } else {
      LoopStart(run, i, t);
    }
  }

  /** The same for try_pop. */
  lemma {:induction false} PopRoundsBounded<T(!new)>(run: seq<Machine<T>>, t: Tid, i: nat, j: nat)
    requires IsRun(run) && i <= j < |run| && forall n :: i <= n <= j ==> t < |run[n].th| && TryingPop(run[n].th[t].op)
    ensures run[i].ring.deq <= run[j].ring.deq == |run[j].ring.poppedBy|
    ensures PopView(run[i].ring, run[i].th[t].op) + Rounds(run, t, i, j) <= PopView(run[j].ring, run[j].th[t].op)
            <= run[j].ring.deq
    ensures forall q :: run[i].ring.deq <= q < run[j].ring.deq ==> run[j].ring.poppedBy[q] != t
    decreases j
  {
    if i < j {
      PopRoundsBounded(run, t, i, j - 1);
      LoopAt(run, j - 1, t);
    } else {
      LoopStart(run, i, t);
    }
  }
}
