/** The verdict of a whole push() call, for any number of producers and consumers and every policy: which
    result it reports, whether it evicts an item and which position it evicts, decided by what its stamp
    loads met. */
module PushVerdict {
  import opened QueueTypes
  import opened Tally
  import opened Rings
  import opened RingThreads
  import opened LockFreeMachine
  import opened Parking
  import opened Deliveries
  import opened CallOrder

  /** What the last stamp load of each part of a push() call met. */
  datatype Loads = Loads(
    full: bool,       // first try_push: its position was the enqueue cursor and there was no room
    evictAt: nat,     // evicting try_pop: its position
    nothing: bool,    // evicting try_pop: that was the dequeue cursor and nothing was published there
    fullAgain: bool)  // second try_push: its position was the enqueue cursor and there was no room

  /** What a thread that is about to load a stamp will meet. A later load of the same part of the call
      overwrites an earlier one, so what stays is what the last one met. */
  ghost function Look<T>(r: Ring<T>, l: Local<T>, s: Loads): Loads
  {
    if l.ctl.PushFirst? && l.op.PushAt? then s.(full := l.op.pos == r.enq && !HasRoom(r))
    else if l.ctl.PushEvict? && l.op.PopAt? then
      s.(evictAt := l.op.pos, nothing := l.op.pos == r.deq && !Published(r, r.deq))
    else if l.ctl.PushSecond? && l.op.PushAt? then s.(fullAgain := l.op.pos == r.enq && !HasRoom(r))
    else s
  }

  lemma InShape<T(!new)>(run: seq<Machine<T>>, n: nat, t: Tid)
    requires IsRun(run) && n < |run| && t < |run[0].th|
    ensures t < |run[n].th| && Shaped(run[n].ring)
  {
    Reachable(run, n);
  }

  /** What the loads of a call that began after state i have met by state n. */
  ghost function LoadsBy<T(!new)>(run: seq<Machine<T>>, t: Tid, i: nat, n: nat): Loads
    requires IsRun(run) && i <= n < |run| && t < |run[0].th|
  {
    if i == n then Loads(false, 0, false, false)
    else InShape(run, n - 1, t); Look(run[n - 1].ring, run[n - 1].th[t], LoadsBy(run, t, i, n - 1))
  }

  /** How many items the producer has evicted. */
  ghost function EvictedBy<T>(r: Ring<T>, producer: Tid): nat
  {
    Count(r.poppedBy, Is(producer))
  }

  /** What its program point tells about the loads so far and the number e of items it evicted. */
  ghost predicate Course<T>(l: Local<T>, s: Loads, policy: Policy, e: int)
  {
    match l.ctl
    case PushFirst(_) =>
      && e == 0
      && (l.op.PushCas? || l.op.PushWrite? || l.op.PushPublish? || l.op == PushDone(true) ==> !s.full)
      && (l.op == PushDone(false) ==> s.full)
    case PushEvict(_) =>
      && policy.DropOldest? && s.full
      && (l.op.PopLoad? || l.op.PopAt? ==> e == 0)
      && (l.op.PopCas? ==> e == 0 && !s.nothing && l.op.pos == s.evictAt)
      && (l.op.PopTake? || l.op.PopRelease? ==> e == 1 && !s.nothing)
      && (l.op.PopDone? ==> s.nothing == l.op.got.None? && e == One(!s.nothing))
    case PushSecond(_) =>
      && policy.DropOldest? && s.full && !s.nothing && e == 1
      && (l.op.PushCas? || l.op.PushWrite? || l.op.PushPublish? || l.op == PushDone(true) ==> !s.fullAgain)
      && (l.op == PushDone(false) ==> s.fullAgain)
    case Free => l.ret == Pushed(Outcome(s, policy)) && e == One(Evicting(s, policy))
    case _ => Notifying(l) && l.ctl.res == Outcome(s, policy) && e == One(Evicting(s, policy))
              && !l.ctl.res.RejectedBackpressure?
  }

  /** The call takes an item out: no room at first, and the evicting try_pop met an item. */
  ghost predicate Evicting(s: Loads, policy: Policy)
  {
    policy.DropOldest? && s.full && !s.nothing
  }

  ghost function Outcome(s: Loads, policy: Policy): PushResult
  {
    if !s.full then Accepted
    else if Evicting(s, policy) && !s.fullAgain then DroppedOldest
    else RejectedBackpressure
  }

  /** Of the positions passed since the call began it won none, or exactly the one its evicting try_pop
      loaded last. */
  ghost predicate Took(winners: seq<Tid>, t: Tid, from: nat, evictAt: nat, e: int)
  {
    (e == 0 && NoClaim(winners, t, from)) || (e == 1 && OnlyClaim(winners, t, from, evictAt))
  }

  // ---- one step ----

  lemma CourseControl<T>(l: Local<T>, env: Env, item: T, s: Loads, e: int)
    requires Typed(l) && !Running(l.op) && l.role.Producer? && !l.ctl.Free? && Course(l, s, env.policy, e)
    ensures Course(Control(l, env, item).l, s, env.policy, e)
  {
  }

  /** The load of a try_push. */
  lemma CourseLoads<T>(l: Local<T>, s: Loads, policy: Policy, e: int, op': Op<T>)
    requires Typed(l) && l.op.PushAt? && Course(l, s, policy, e)
    requires op'.PushCas? || op'.PushLoad? || op' == PushDone(false)
    ensures var full := op' == PushDone(false);
            var s' := if l.ctl.PushFirst? then s.(full := full) else s.(fullAgain := full);
            Course(l.(op := op'), s', policy, e)
  {
  }

  /** The load of the evicting try_pop. */
  lemma CourseEvicts<T>(l: Local<T>, s: Loads, policy: Policy, e: int, op': Op<T>)
    requires Typed(l) && l.op.PopAt? && l.role.Producer? && Course(l, s, policy, e)
    requires op'.PopLoad? || op' == PopCas(l.op.pos) || op' == PopDone(None)
    ensures e == 0 && Course(l.(op := op'), s.(evictAt := l.op.pos, nothing := op' == PopDone(None)), policy, e)
  {
  }

  /** Every other step of an operation. */
  lemma CourseMoves<T>(r: Ring<T>, t: Tid, l: Local<T>, spurious: bool, left: T, s: Loads, policy: Policy, e: int)
    requires Shaped(r) && Typed(l) && Running(l.op) && !l.op.PushAt? && !l.op.PopAt? && l.role.Producer?
    requires Course(l, s, policy, e)
    ensures var (r', op') := OpStep(r, t, l.op, spurious, left);
            Course(l.(op := op'), s, policy, e + EvictedBy(r', t) - EvictedBy(r, t))
  {
    CountAppend(r.poppedBy, t, Is(t));
  }

  lemma TookMoves<T>(r: Ring<T>, t: Tid, l: Local<T>, spurious: bool, left: T, s: Loads, policy: Policy,
                     from: nat, e: int)
    requires Shaped(r) && Typed(l) && Running(l.op) && l.role.Producer?
    requires Course(l, s, policy, e) && Took(r.poppedBy, t, from, s.evictAt, e)
    ensures var (r', op') := OpStep(r, t, l.op, spurious, left);
            Took(r'.poppedBy, t, from, s.evictAt, e + EvictedBy(r', t) - EvictedBy(r, t))
  {
    if WinsPop(r, l.op, spurious) {
      CountAppend(r.poppedBy, t, Is(t));
      ClaimsNext(r.poppedBy, r.log, t, from);
    }
  }

  /** Where a step leaves the thread that makes it. */
  lemma NextThread<T>(m: Machine<T>, t: Tid, c: Choice<T>)
    requires t < |m.th| && Shaped(m.ring)
    ensures var l, m' := m.th[t], Next(m, t, c);
            && |m'.th| == |m.th|
            && if Running(l.op) then m'.th[t] == l.(op := OpStep(m.ring, t, l.op, c.spurious, c.left).1)
               else m'.ring == m.ring && (m'.th[t] == l || m'.th[t] == Control(l, m.env, c.item).l)
  {
    NextRing(m, t, c);
  }

  /** What a call has come to: what its point tells, and which position it won. */
  ghost predicate Stands<T>(r: Ring<T>, l: Local<T>, t: Tid, s: Loads, policy: Policy, from: nat, before: int)
  {
    && Course(l, s, policy, EvictedBy(r, t) - before)
    && Took(r.poppedBy, t, from, s.evictAt, EvictedBy(r, t) - before)
  }

  lemma LoadsPush<T>(r: Ring<T>, t: Tid, l: Local<T>, c: Choice<T>, s: Loads, policy: Policy, e: int)
    requires RingInv(r) && OpInv(r, t, l.op) && Typed(l) && l.op.PushAt? && Course(l, s, policy, e)
    ensures var (r', op') := OpStep(r, t, l.op, c.spurious, c.left);
            var full := l.op.pos == r.enq && !HasRoom(r);
            var s' := if l.ctl.PushFirst? then s.(full := full) else s.(fullAgain := full);
            r' == r && Course(l.(op := op'), s', policy, e)
  {
    PushFailsOnlyWhenFull(r, t, l.op, c.spurious, c.left);
    CourseLoads(l, s, policy, e, OpStep(r, t, l.op, c.spurious, c.left).1);
  }

  lemma LoadsPop<T>(r: Ring<T>, t: Tid, l: Local<T>, c: Choice<T>, s: Loads, policy: Policy, e: int)
    requires RingInv(r) && OpInv(r, t, l.op) && Typed(l) && l.op.PopAt? && l.role.Producer? && Course(l, s, policy, e)
    ensures var (r', op') := OpStep(r, t, l.op, c.spurious, c.left);
            var s' := s.(evictAt := l.op.pos, nothing := l.op.pos == r.deq && !Published(r, r.deq));
            e == 0 && r' == r && Course(l.(op := op'), s', policy, e)
  {
    PopFailsOnlyWhenEmpty(r, t, l.op, c.spurious, c.left);
    CourseEvicts(l, s, policy, e, OpStep(r, t, l.op, c.spurious, c.left).1);
  }

  lemma OperatesOn<T>(r: Ring<T>, t: Tid, l: Local<T>, c: Choice<T>, s: Loads, policy: Policy, from: nat, before: int)
    requires RingInv(r) && OpInv(r, t, l.op) && Typed(l) && Running(l.op) && l.role.Producer?
    requires Stands(r, l, t, s, policy, from, before)
    ensures var (r', op') := OpStep(r, t, l.op, c.spurious, c.left);
            Stands(r', l.(op := op'), t, Look(r, l, s), policy, from, before)
  {
    var e := EvictedBy(r, t) - before;
    if l.op.PushAt? {
      LoadsPush(r, t, l, c, s, policy, e);
    } else if l.op.PopAt? {
      LoadsPop(r, t, l, c, s, policy, e);
    } else {
      MovesOn(r, t, l, c, s, policy, from, before);
    }
  }

  lemma MovesOn<T>(r: Ring<T>, t: Tid, l: Local<T>, c: Choice<T>, s: Loads, policy: Policy, from: nat, before: int)
    requires Shaped(r) && Typed(l) && Running(l.op) && !l.op.PushAt? && !l.op.PopAt? && l.role.Producer?
    requires Stands(r, l, t, s, policy, from, before)
    ensures var (r', op') := OpStep(r, t, l.op, c.spurious, c.left);
            Look(r, l, s) == s && Stands(r', l.(op := op'), t, s, policy, from, before)
  {
    var e := EvictedBy(r, t) - before;
    CourseMoves(r, t, l, c.spurious, c.left, s, policy, e);
    TookMoves(r, t, l, c.spurious, c.left, s, policy, from, e);
  }

  lemma DecidesOn<T>(r: Ring<T>, t: Tid, l: Local<T>, env: Env, item: T, s: Loads, from: nat, before: int)
    requires Typed(l) && !Running(l.op) && l.role.Producer? && !l.ctl.Free?
    requires Stands(r, l, t, s, env.policy, from, before)
    ensures Look(r, l, s) == s && Stands(r, Control(l, env, item).l, t, s, env.policy, from, before)
  {
    CourseControl(l, env, item, s, EvictedBy(r, t) - before);
  }

  lemma CallerMoves<T>(m: Machine<T>, t: Tid, c: Choice<T>, s: Loads, from: nat, before: int)
    requires t < |m.th| && BaseInv(m) && m.th[t].role.Producer? && !m.th[t].ctl.Free?
    requires Stands(m.ring, m.th[t], t, s, m.env.policy, from, before)
    ensures var m' := Next(m, t, c);
            && |m'.th| == |m.th| && m'.env.policy == m.env.policy
            && Stands(m'.ring, m'.th[t], t, Look(m.ring, m.th[t], s), m.env.policy, from, before)
  {
    var l := m.th[t];
    assert Typed(l) && OpInv(m.ring, t, l.op);
    NextThread(m, t, c);
    NextRing(m, t, c);
    if Running(l.op) {
      OperatesOn(m.ring, t, l, c, s, m.env.policy, from, before);
    } else {
      DecidesOn(m.ring, t, l, m.env, c.item, s, from, before);
    }
  }

  /** A load that is still to come will say what it met. */
  lemma CourseWaits<T>(l: Local<T>, s: Loads, s': Loads, policy: Policy, e: int)
    requires Course(l, s, policy, e)
    requires s' == s
             || (l.ctl.PushFirst? && l.op.PushAt? && s' == s.(full := s'.full))
             || (l.ctl.PushEvict? && l.op.PopAt? && s' == s.(evictAt := s'.evictAt, nothing := s'.nothing))
             || (l.ctl.PushSecond? && l.op.PushAt? && s' == s.(fullAgain := s'.fullAgain))
    ensures Course(l, s', policy, e) && (s'.evictAt != s.evictAt ==> e == 0)
  {
  }

  /** What others win is no concern of the call. */
  lemma TookWaits<T>(r: Ring<T>, u: Tid, op: Op<T>, spurious: bool, left: T, t: Tid, from: nat, evictAt: nat, e: int)
    requires Shaped(r) && u != t && Took(r.poppedBy, t, from, evictAt, e)
    ensures var r' := OpStep(r, u, op, spurious, left).0;
            EvictedBy(r', t) == EvictedBy(r, t) && Took(r'.poppedBy, t, from, evictAt, e)
  {
    var r' := OpStep(r, u, op, spurious, left).0;
    CountAppend(r.poppedBy, u, Is(t));
    OpClaims(r, u, op, spurious, left);
    OthersClaim(r.poppedBy, r'.poppedBy, r.log, r'.log, t, u, from);
  }

  lemma StandsBy<T>(r: Ring<T>, l: Local<T>, u: Tid, op: Op<T>, c: Choice<T>, t: Tid, s: Loads, policy: Policy,
                    from: nat, before: int)
    requires Shaped(r) && u != t && Stands(r, l, t, s, policy, from, before)
    ensures Stands(r, l, t, Look(r, l, s), policy, from, before)
    ensures Stands(OpStep(r, u, op, c.spurious, c.left).0, l, t, Look(r, l, s), policy, from, before)
  {
    Waits(r, l, t, s, policy, from, before);
    TookWaits(r, u, op, c.spurious, c.left, t, from, Look(r, l, s).evictAt, EvictedBy(r, t) - before);
  }

  lemma Waits<T>(r: Ring<T>, l: Local<T>, t: Tid, s: Loads, policy: Policy, from: nat, before: int)
    requires Stands(r, l, t, s, policy, from, before)
    ensures Stands(r, l, t, Look(r, l, s), policy, from, before)
  {
    CourseWaits(l, s, Look(r, l, s), policy, EvictedBy(r, t) - before);
  }

  lemma OthersMove<T>(m: Machine<T>, u: Tid, c: Choice<T>, t: Tid, s: Loads, from: nat, before: int)
    requires u < |m.th| && t < |m.th| && u != t && BaseInv(m) && m.th[t].role.Producer?
    requires Stands(m.ring, m.th[t], t, s, m.env.policy, from, before)
    ensures var m' := Next(m, u, c);
            && |m'.th| == |m.th| && m'.env.policy == m.env.policy
            && Stands(m'.ring, m'.th[t], t, Look(m.ring, m.th[t], s), m.env.policy, from, before)
  {
    assert Typed(m.th[t]);
    OthersRest(m, u, c);
    NextRing(m, u, c);
    StandsBy(m.ring, m.th[t], u, m.th[u].op, c, t, s, m.env.policy, from, before);
  }

  lemma StandsStep<T(!new)>(m: Machine<T>, m': Machine<T>, t: Tid, s: Loads, from: nat, before: int)
    requires IsStep(m, m') && t < |m.th| && BaseInv(m) && m.th[t].role.Producer? && !m.th[t].ctl.Free?
    requires Stands(m.ring, m.th[t], t, s, m.env.policy, from, before)
    ensures |m'.th| == |m.th| && m'.th[t].role.Producer? && m'.env.policy == m.env.policy
    ensures Stands(m'.ring, m'.th[t], t, Look(m.ring, m.th[t], s), m.env.policy, from, before)
  {
    var u, c :| 0 <= u < |m.th| && m' == Next(m, u, c);
    RolesKept(m, u, c);
    if u == t { CallerMoves(m, t, c, s, from, before); } else { OthersMove(m, u, c, t, s, from, before); }
  }

  // ---- the whole call ----

  /** Where the call that began after state i stands in state n. */
  ghost predicate OnCourse<T(!new)>(run: seq<Machine<T>>, t: Tid, i: nat, n: nat)
    requires IsRun(run) && i < n < |run| && t < |run[0].th|
  {
    && t < |run[n].th| && run[n].th[t].role.Producer? && run[n].env.policy == run[i].env.policy
    && Stands(run[n].ring, run[n].th[t], t, LoadsBy(run, t, i + 1, n), run[i].env.policy, run[i].ring.deq,
              EvictedBy(run[i].ring, t))
  }

  lemma CourseBegins<T(!new)>(run: seq<Machine<T>>, t: Tid, v: T, i: nat)
    requires IsRun(run) && i + 1 < |run| && t < |run[0].th|
    requires t < |run[i].th| && run[i].th[t].ctl.Free?
    requires t < |run[i + 1].th| && run[i + 1].th[t].ctl == PushFirst(v)
    ensures OnCourse(run, t, i, i + 1) && run[i + 1].ring == run[i].ring
  {
    BaseReachable(run, i);
    assert StepAt(run, i);
    CallBegins(run[i], run[i + 1], t, v);
  }

  lemma CallBegins<T(!new)>(m: Machine<T>, m': Machine<T>, t: Tid, v: T)
    requires IsStep(m, m') && BaseInv(m) && t < |m.th| && t < |m'.th|
    requires m.th[t].ctl.Free? && m'.th[t].ctl == PushFirst(v)
    ensures m'.ring == m.ring && m'.env.policy == m.env.policy
    ensures m'.th[t].role.Producer? && m'.th[t].op == PushLoad(v)
  {
    var u, c :| 0 <= u < |m.th| && m' == Next(m, u, c);
    OnlyItself(m, u, c, t);
    StartsPush(m.th[t], m.env, c.item, v);
    NextRing(m, t, c);
  }

  lemma CourseGoesOn<T(!new)>(run: seq<Machine<T>>, t: Tid, i: nat, n: nat)
    requires IsRun(run) && i < n && n + 1 < |run| && t < |run[0].th|
    requires OnCourse(run, t, i, n) && !run[n].th[t].ctl.Free?
    ensures OnCourse(run, t, i, n + 1)
  {
    BaseReachable(run, n);
    assert StepAt(run, n);
    var s := LoadsBy(run, t, i + 1, n);
    StandsStep(run[n], run[n + 1], t, s, run[i].ring.deq, EvictedBy(run[i].ring, t));
    assert LoadsBy(run, t, i + 1, n + 1) == Look(run[n].ring, run[n].th[t], s);
  }

  lemma {:induction false} CourseHolds<T(!new)>(run: seq<Machine<T>>, t: Tid, v: T, i: nat, j: nat, n: nat)
    requires IsRun(run) && t < |run[0].th| && PushCall(run, t, v, i, j) && i < n <= j
    ensures OnCourse(run, t, i, n)
    decreases n
  {
    if n == i + 1 {
      CourseBegins(run, t, v, i);
    } else {
      CourseHolds(run, t, v, i, j, n - 1);
      CourseGoesOn(run, t, i, n - 1);
    }
  }

  /** The exact verdict, for every push() call of every run, any number of producers, every policy.
      Accepted: the last load of the first try_push did not meet a full ring, that is its own position at
      the enqueue cursor and no room there. Rejected: it did, and the policy does not evict, or the evicting
      try_pop met an unpublished head, or the second try_push a full ring again. DroppedOldest: the rest.
      While the call lasts it wins one position to evict, the one its evicting try_pop loaded last,
      exactly when the policy evicts, the ring was full and the head was published; whatever it reports
      in the end. */
  lemma CallVerdictIff<T(!new)>(run: seq<Machine<T>>, t: Tid, v: T, i: nat, j: nat)
    requires IsRun(run) && t < |run[0].th| && PushCall(run, t, v, i, j)
    ensures run[j].th[t].ret.Pushed?
    ensures var s, policy, res := LoadsBy(run, t, i + 1, j), run[i].env.policy, run[j].th[t].ret.res;
            && (res.Accepted? <==> !s.full)
            && (res.RejectedBackpressure? <==> s.full && (policy.DropOldest? ==> s.nothing || s.fullAgain))
            && (res.DroppedOldest? <==> policy.DropOldest? && s.full && !s.nothing && !s.fullAgain)
            && (if policy.DropOldest? && s.full && !s.nothing
                then OnlyClaim(run[j].ring.poppedBy, t, run[i].ring.deq, s.evictAt)
                     && EvictedBy(run[j].ring, t) == EvictedBy(run[i].ring, t) + 1
                else NoClaim(run[j].ring.poppedBy, t, run[i].ring.deq)
                     && EvictedBy(run[j].ring, t) == EvictedBy(run[i].ring, t))
  {
    CourseHolds(run, t, v, i, j, j);
  }
}
