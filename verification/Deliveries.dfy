/** From the ring to the callers, value by value and call by call: what pop() returns is what the
    ring handed out, and what the ring was given is what the push() calls that reported success
    were called with. */
module Deliveries {
  import opened QueueTypes
  import opened Tally
  import opened Rings
  import opened RingThreads
  import opened LockFreeMachine
  import opened Parking
  import opened Shutdown

  // ---- calls ----

  /** The item a consumer carries from its try_pop towards its return. */
  ghost function Got<T>(l: Local<T>): Option<T>
  {
    if !l.role.Consumer? then None
    else if l.op.PopDone? then l.op.got
    else match l.ctl
      case RecheckFlag(got) => got
      case Leave(got) => got
      case Unlock(got) => got
      case _ => None
  }

  ghost function Carries<T>(x: T): Local<T> -> bool
  {
    (l: Local<T>) => Got(l) == Some(x)
  }

  /** A call ends between the two states of a thread. */
  ghost predicate Ends<T>(l: Local<T>, l': Local<T>)
  {
    !l.ctl.Free? && l'.ctl.Free?
  }

  /** Thread t begins a call after state i and returns from it in state j. */
  ghost predicate CallSpans<T>(run: seq<Machine<T>>, t: Tid, i: nat, j: nat)
  {
    && i + 1 < j < |run| && (forall n :: i <= n <= j ==> t < |run[n].th|)
    && run[i].th[t].ctl.Free? && (forall n :: i < n < j ==> !run[n].th[t].ctl.Free?) && run[j].th[t].ctl.Free?
  }

  /** A push(v) call. */
  ghost predicate PushCall<T>(run: seq<Machine<T>>, t: Tid, v: T, i: nat, j: nat)
  {
    CallSpans(run, t, i, j) && run[i + 1].th[t].ctl == PushFirst(v)
  }

  /** A pop() call. */
  ghost predicate PopCall<T>(run: seq<Machine<T>>, t: Tid, i: nat, j: nat)
  {
    CallSpans(run, t, i, j) && run[i].th[t].role.Consumer?
  }

  ghost predicate PopReturns<T>(th: seq<Local<T>>, th': seq<Local<T>>, x: T)
  {
    exists u ::
      0 <= u < |th| && u < |th'| && th[u].role.Consumer? && Ends(th[u], th'[u]) && th'[u].ret == Popped(Some(x))
  }

  /** How many pop() calls returned x in the first i steps. One step moves one thread. */
  ghost function Returned<T>(run: seq<Machine<T>>, i: nat, x: T): nat
    requires i < |run|
  {
    Acc(run, PopReturnsStep(x), i)
  }

  ghost function PopReturnsStep<T>(x: T): (Machine<T>, Machine<T>) -> nat
  {
    (m: Machine<T>, m': Machine<T>) => One(PopReturns(m.th, m'.th, x))
  }

  /** How many of the first n positions were handed to consumers with value x. */
  ghost function TakenBy<T>(taken: map<nat, T>, poppedBy: seq<Tid>, th: seq<Local<T>>, x: T, n: nat): nat
  {
    if n == 0 then 0
    else TakenBy(taken, poppedBy, th, x, n - 1)
         + One(n - 1 in taken && n <= |poppedBy| && ByConsumer(poppedBy[n - 1], th) && taken[n - 1] == x)
  }

  lemma {:induction false} TakenFrame<T>(taken: map<nat, T>, poppedBy: seq<Tid>, poppedBy': seq<Tid>,
                                         th: seq<Local<T>>, th': seq<Local<T>>, x: T, n: nat)
    requires SameRoles(th, th') && n <= |poppedBy| <= |poppedBy'|
    requires forall p :: 0 <= p < |poppedBy| ==> poppedBy'[p] == poppedBy[p]
    ensures TakenBy(taken, poppedBy', th', x, n) == TakenBy(taken, poppedBy, th, x, n)
  {
    if n > 0 {
      TakenFrame(taken, poppedBy, poppedBy', th, th', x, n - 1);
    }
  }

  lemma {:induction false} TakenOneMore<T>(taken: map<nat, T>, poppedBy: seq<Tid>, th: seq<Local<T>>, x: T, n: nat,
                                           p: nat, v: T)
    requires p !in taken && p < |poppedBy| && n <= |poppedBy|
    ensures TakenBy(taken[p := v], poppedBy, th, x, n)
            == TakenBy(taken, poppedBy, th, x, n) + One(p < n && ByConsumer(poppedBy[p], th) && v == x)
  {
    if n > 0 {
      TakenOneMore(taken, poppedBy, th, x, n - 1, p, v);
    }
  }

  /** An operation step hands something to a consumer only when it releases. */
  lemma TakenStep<T>(r: Ring<T>, th: seq<Local<T>>, t: Tid, op: Op<T>, spurious: bool, left: T, x: T)
    requires RingInv(r) && OpInv(r, t, op)
    ensures var (r', op') := OpStep(r, t, op, spurious, left);
            TakenBy(r'.taken, r'.poppedBy, th, x, r'.deq)
            == TakenBy(r.taken, r.poppedBy, th, x, r.deq) + One(op.PopRelease? && ByConsumer(t, th) && op.value == x)
  {
    var (r', op') := OpStep(r, t, op, spurious, left);
    match op
    case PopCas(p) =>
      if r'.deq != r.deq {
        TakenFrame(r.taken, r.poppedBy, r.poppedBy + [t], th, th, x, r.deq);
        assert r.deq !in r.taken;
      }
    case PopRelease(p, v) => TakenOneMore(r.taken, r.poppedBy, th, x, r.deq, p, v);
    case _ =>
  }

  /** A consumer's control step keeps what it carries, or returns it. */
  lemma CarryFacts<T>(l: Local<T>, env: Env, item: T)
    requires Typed(l) && !Running(l.op) && l.role.Consumer?
    ensures var e := Control(l, env, item);
            if Ends(l, e.l) then Got(e.l) == None && e.l.ret == Popped(Got(l)) else Got(e.l) == Got(l)
  {
  }

  lemma CarryFactsAll<T>(l: Local<T>, env: Env, item: T, x: T)
    requires Typed(l) && !Running(l.op)
    ensures var e := Control(l, env, item);
            One(Carries(x)(e.l)) + One(l.role.Consumer? && Ends(l, e.l) && e.l.ret == Popped(Some(x)))
            == One(Carries(x)(l))
    ensures Control(l, env, item).l.role == l.role
  {
    if l.role.Consumer? { CarryFacts(l, env, item); }
  }

  /** A step leaves every thread but t where it was, or wakes it from its sleep. */
  lemma OthersRest<T>(m: Machine<T>, t: Tid, c: Choice<T>)
    requires t < |m.th| && Shaped(m.ring)
    ensures var th' := Next(m, t, c).th;
            && SameRoles(m.th, th')
            && forall u :: 0 <= u < |m.th| && u != t ==>
               th'[u] == m.th[u] || (m.th[u].ctl.Parked? && th'[u] == m.th[u].(ctl := Woken(true)))
  {
    RolesKept(m, t, c);
    NotifiedThreads(m.th, Control(m.th[t], m.env, c.item).notify, c.wake);
  }

  /** Counting a property that waking does not touch follows the moving thread alone. */
  lemma CountFollows<T>(th: seq<Local<T>>, th': seq<Local<T>>, t: Tid, p: Local<T> -> bool)
    requires t < |th| == |th'| && forall u :: 0 <= u < |th| && u != t ==> p(th'[u]) == p(th[u])
    ensures Count(th', p) + One(p(th[t])) == Count(th, p) + One(p(th'[t]))
  {
    CountUpdate(th, t, th'[t], p);
    CountPointwise(th[t := th'[t]], th', p);
  }

  /** What thread t's own step does to what it carries. */
  lemma MoverCarries<T>(m: Machine<T>, t: Tid, c: Choice<T>, x: T)
    requires t < |m.th| && BaseInv(m)
    ensures var l, l', op := m.th[t], Next(m, t, c).th[t], m.th[t].op;
            One(Carries(x)(l')) + One(l.role.Consumer? && Ends(l, l') && l'.ret == Popped(Some(x)))
            == One(Carries(x)(l)) + One(op.PopRelease? && l.role.Consumer? && op.value == x)
  {
    var l := m.th[t];
    assert Typed(l);
    if !Running(l.op) {
      CarryFactsAll(l, m.env, c.item, x);
      NotifiedThreads(m.th, Control(l, m.env, c.item).notify, c.wake);
    }
  }

  lemma RestCarry<T>(m: Machine<T>, t: Tid, c: Choice<T>, x: T)
    requires t < |m.th| && BaseInv(m)
    ensures var th' := Next(m, t, c).th;
            && SameRoles(m.th, th')
            && (forall u :: 0 <= u < |m.th| && u != t ==>
                Carries(x)(th'[u]) == Carries(x)(m.th[u]) && !Ends(m.th[u], th'[u]))
  {
    OthersRest(m, t, c);
    forall u | 0 <= u < |m.th| && u != t
      ensures var l' := Next(m, t, c).th[u]; Carries(x)(l') == Carries(x)(m.th[u]) && !Ends(m.th[u], l')
    {
      assert Typed(m.th[u]);
    }
  }

  lemma RingTakes<T>(m: Machine<T>, t: Tid, c: Choice<T>, x: T)
    requires t < |m.th| && BaseInv(m)
    ensures var r', op := Next(m, t, c).ring, m.th[t].op;
            TakenBy(r'.taken, r'.poppedBy, m.th, x, r'.deq)
            == TakenBy(m.ring.taken, m.ring.poppedBy, m.th, x, m.ring.deq)
            + One(op.PopRelease? && m.th[t].role.Consumer? && op.value == x)
  {
    NextRing(m, t, c);
    assert OpInv(m.ring, t, m.th[t].op);
    TakenStep(m.ring, m.th, t, m.th[t].op, c.spurious, c.left, x);
  }

  lemma OneReturner<T>(th: seq<Local<T>>, th': seq<Local<T>>, t: Tid, x: T, before: nat, after: nat)
    requires t < |th| == |th'|
    requires forall u :: 0 <= u < |th| && u != t ==> Carries(x)(th'[u]) == Carries(x)(th[u]) && !Ends(th[u], th'[u])
    requires One(Carries(x)(th'[t])) + One(th[t].role.Consumer? && Ends(th[t], th'[t]) && th'[t].ret == Popped(Some(x)))
             + before
             == One(Carries(x)(th[t])) + after
    ensures One(PopReturns(th, th', x)) + Count(th', Carries(x)) + before == Count(th, Carries(x)) + after
  {
    CountFollows(th, th', t, Carries(x));
  }

  /** One step of the ledger: returned plus carried grows exactly by what was handed out. */
  lemma LedgerStep<T(!new)>(m: Machine<T>, m': Machine<T>, x: T)
    requires IsStep(m, m') && BaseInv(m)
    ensures SameRoles(m.th, m'.th)
    ensures One(PopReturns(m.th, m'.th, x)) + Count(m'.th, Carries(x))
            + TakenBy(m.ring.taken, m.ring.poppedBy, m.th, x, m.ring.deq)
            == Count(m.th, Carries(x)) + TakenBy(m'.ring.taken, m'.ring.poppedBy, m'.th, x, m'.ring.deq)
  {
    var t, c :| 0 <= t < |m.th| && m' == Next(m, t, c);
    RestCarry(m, t, c, x);
    MoverCarries(m, t, c, x);
    RingTakes(m, t, c, x);
    NextKeeps(m, t, c);
    TakenFrame(m'.ring.taken, m'.ring.poppedBy, m'.ring.poppedBy, m.th, m'.th, x, m'.ring.deq);
    OneReturner(m.th, m'.th, t, x, TakenBy(m.ring.taken, m.ring.poppedBy, m.th, x, m.ring.deq),
                TakenBy(m'.ring.taken, m'.ring.poppedBy, m'.th, x, m'.ring.deq));
  }

  lemma LedgerStart<T>(m: Machine<T>, x: T)
    requires Init(m)
    ensures Count(m.th, Carries(x)) == 0 && m.ring.deq == 0
  {
    CountZero(m.th, Carries(x));
  }

  /** Handed to consumers with value x and not on its way to a return. */
  ghost function Settled<T>(x: T): Machine<T> -> int
  {
    (m: Machine<T>) => TakenBy(m.ring.taken, m.ring.poppedBy, m.th, x, m.ring.deq) - Count(m.th, Carries(x))
  }

  lemma LedgerAt<T(!new)>(run: seq<Machine<T>>, i: nat, x: T)
    requires IsRun(run) && i + 1 < |run|
    ensures PopReturnsStep(x)(run[i], run[i + 1]) + Settled(x)(run[i]) == Settled(x)(run[i + 1])
  {
    BaseReachable(run, i);
    assert StepAt(run, i);
    LedgerStep(run[i], run[i + 1], x);
  }

  /** In every run and for every value: the pop() calls that returned it, plus the consumers on
      their way to return it, are exactly the positions handed to consumers with it. */
  lemma PopsReturnWhatWasTaken<T(!new)>(run: seq<Machine<T>>, i: nat, x: T)
    requires IsRun(run) && i < |run|
    ensures Returned(run, i, x) + Count(run[i].th, Carries(x))
            == TakenBy(run[i].ring.taken, run[i].ring.poppedBy, run[i].th, x, run[i].ring.deq)
  {
    LedgerStart(run[0], x);
    forall k: nat | k < i ensures PopReturnsStep(x)(run[k], run[k + 1]) + Settled(x)(run[k]) == Settled(x)(run[k + 1]) {
      LedgerAt(run, k, x);
    }
    AccMatches(run, PopReturnsStep(x), Settled(x), i);
  }

  lemma {:induction false} TakenIsHandedOut<T>(r: Ring<T>, th: seq<Local<T>>, x: T, n: nat)
    ensures HandedOut(r, th, true, n)[x] == TakenBy(r.taken, r.poppedBy, th, x, n)
  {
    if n > 0 {
      TakenIsHandedOut(r, th, x, n - 1);
    }
  }

  // ---- push ----

  /** The item a push() call was given. */
  ghost function Given<T>(l: Local<T>): Option<T>
  {
    match l.ctl
    case PushFirst(v) => Some(v)
    case PushEvict(v) => Some(v)
    case PushSecond(v) => Some(v)
    case NotifyLoad(v, _) => Some(v)
    case NotifyLock(v, _) => Some(v)
    case NotifyHeld(v, _) => Some(v)
    case NotifyUnlock(v, _) => Some(v)
    case _ => None
  }

  ghost predicate Notifying<T>(l: Local<T>)
  {
    l.ctl.NotifyLoad? || l.ctl.NotifyLock? || l.ctl.NotifyHeld? || l.ctl.NotifyUnlock?
  }

  /** A producer that won a position for its item and has not returned. */
  ghost predicate Won<T>(l: Local<T>)
  {
    Notifying(l) || l.op.PushWrite? || l.op.PushPublish? || l.op == PushDone(true)
  }

  ghost function Owes<T>(x: T): Local<T> -> bool
  {
    (l: Local<T>) => Won(l) && Given(l) == Some(x)
  }

  ghost predicate Succeeded<T>(ret: Ret<T>)
  {
    ret.Pushed? && !ret.res.RejectedBackpressure?
  }

  /** Only an accepted item goes on to notify, and try_push works on the item of its call. */
  ghost predicate Honest<T>(l: Local<T>)
  {
    && (Notifying(l) ==> !l.ctl.res.RejectedBackpressure?)
    && (l.op.PushLoad? || l.op.PushAt? || l.op.PushCas? || l.op.PushWrite? ==> Given(l) == Some(l.op.item))
  }

  ghost predicate PushSucceeds<T>(th: seq<Local<T>>, th': seq<Local<T>>, x: T)
  {
    exists u :: 0 <= u < |th| && u < |th'| && Given(th[u]) == Some(x) && Ends(th[u], th'[u]) && Succeeded(th'[u].ret)
  }

  /** How many push() calls given x reported Accepted or DroppedOldest in the first i steps. */
  ghost function Successes<T>(run: seq<Machine<T>>, i: nat, x: T): nat
    requires i < |run|
  {
    Acc(run, PushSucceedsStep(x), i)
  }

  ghost function PushSucceedsStep<T>(x: T): (Machine<T>, Machine<T>) -> nat
  {
    (m: Machine<T>, m': Machine<T>) => One(PushSucceeds(m.th, m'.th, x))
  }

  lemma OweControl<T>(l: Local<T>, env: Env, item: T)
    requires Typed(l) && !Running(l.op) && Honest(l) && l.role.Producer?
    ensures var l' := Control(l, env, item).l;
            && Honest(l')
            && (l.ctl.Free? || l'.ctl.Free? || Given(l') == Given(l))
            && (Won(l') ==> Won(l) && !l.ctl.Free?)
            && (l'.ctl.Free? ==> !Won(l') && (Succeeded(l'.ret) <==> Won(l)))
            && (Won(l) && !l'.ctl.Free? ==> Won(l'))
  {
  }

  lemma OweFacts<T>(l: Local<T>, env: Env, item: T, x: T)
    requires Typed(l) && !Running(l.op) && Honest(l)
    ensures var l' := Control(l, env, item).l;
            && Honest(l')
            && One(Owes(x)(l')) + One(Given(l) == Some(x) && Ends(l, l') && Succeeded(l'.ret)) == One(Owes(x)(l))
  {
    if l.role.Producer? { OweControl(l, env, item); }
  }

  lemma OweOp<T>(r: Ring<T>, t: Tid, l: Local<T>, spurious: bool, left: T, x: T)
    requires RingInv(r) && OpInv(r, t, l.op) && Typed(l) && Running(l.op) && Honest(l)
    ensures var (r', op') := OpStep(r, t, l.op, spurious, left);
            && Honest(l.(op := op'))
            && One(Owes(x)(l.(op := op'))) + Count(r.log, Is(x)) == One(Owes(x)(l)) + Count(r'.log, Is(x))
  {
    OweOpLog(r, t, l.op, spurious, left, x);
    OweOpLocal(r, t, l, spurious, left);
  }

  /** Only a won enqueue swap adds to the global order, and what it adds is the operation's item. */
  lemma OweOpLog<T>(r: Ring<T>, t: Tid, op: Op<T>, spurious: bool, left: T, x: T)
    requires Shaped(r)
    ensures var (r', op') := OpStep(r, t, op, spurious, left);
            Count(r'.log, Is(x)) == Count(r.log, Is(x)) + One(op.PushCas? && op'.PushWrite? && op.item == x)
  {
    if op.PushCas? { CountAppend(r.log, op.item, Is(x)); }
  }

  lemma OweOpLocal<T>(r: Ring<T>, t: Tid, l: Local<T>, spurious: bool, left: T)
    requires Shaped(r) && Typed(l) && Running(l.op) && Honest(l)
    ensures var op' := OpStep(r, t, l.op, spurious, left).1;
            && Honest(l.(op := op'))
            && (Won(l.(op := op')) <==> Won(l) || (l.op.PushCas? && op'.PushWrite?))
            && (l.op.PushCas? ==> !Won(l) && Given(l) == Some(l.op.item))
  {
  }

  ghost predicate PushInv<T>(m: Machine<T>)
  {
    BaseInv(m) && forall u :: 0 <= u < |m.th| ==> Honest(m.th[u])
  }

  lemma MoverOwes<T>(m: Machine<T>, t: Tid, c: Choice<T>, x: T)
    requires t < |m.th| && PushInv(m)
    ensures var l, m' := m.th[t], Next(m, t, c);
            && |m'.th| == |m.th| && Honest(m'.th[t])
            && One(Owes(x)(m'.th[t])) + One(Given(l) == Some(x) && Ends(l, m'.th[t]) && Succeeded(m'.th[t].ret))
               + Count(m.ring.log, Is(x))
               == One(Owes(x)(l)) + Count(m'.ring.log, Is(x))
  {
    var l := m.th[t];
    assert Typed(l) && OpInv(m.ring, t, l.op);
    if Running(l.op) {
      OweOp(m.ring, t, l, c.spurious, c.left, x);
    } else {
      OweFacts(l, m.env, c.item, x);
      NextRing(m, t, c);
    }
  }

  lemma RestOwe<T>(m: Machine<T>, t: Tid, c: Choice<T>, x: T)
    requires t < |m.th| && PushInv(m)
    ensures var th' := Next(m, t, c).th;
            && |th'| == |m.th|
            && (forall u :: 0 <= u < |m.th| && u != t ==>
                Owes(x)(th'[u]) == Owes(x)(m.th[u]) && Honest(th'[u]) && !Ends(m.th[u], th'[u]))
  {
    OthersRest(m, t, c);
    forall u | 0 <= u < |m.th| && u != t
      ensures var l' := Next(m, t, c).th[u]; Owes(x)(l') == Owes(x)(m.th[u]) && Honest(l') && !Ends(m.th[u], l')
    {
      assert Typed(m.th[u]);
    }
  }

  lemma PushStep<T(!new)>(m: Machine<T>, m': Machine<T>, x: T)
    requires IsStep(m, m') && PushInv(m)
    ensures PushInv(m') && |m'.th| == |m.th|
    ensures One(PushSucceeds(m.th, m'.th, x)) + Count(m'.th, Owes(x)) + Count(m.ring.log, Is(x))
            == Count(m.th, Owes(x)) + Count(m'.ring.log, Is(x))
  {
    var t, c :| 0 <= t < |m.th| && m' == Next(m, t, c);
    BaseStep(m, m');
    PushNext(m, t, c, x);
  }

  lemma PushNext<T>(m: Machine<T>, t: Tid, c: Choice<T>, x: T)
    requires t < |m.th| && PushInv(m)
    ensures var m' := Next(m, t, c);
            && |m'.th| == |m.th| && (forall u :: 0 <= u < |m'.th| ==> Honest(m'.th[u]))
            && One(PushSucceeds(m.th, m'.th, x)) + Count(m'.th, Owes(x)) + Count(m.ring.log, Is(x))
               == Count(m.th, Owes(x)) + Count(m'.ring.log, Is(x))
  {
    var m' := Next(m, t, c);
    MoverOwes(m, t, c, x);
    RestOwe(m, t, c, x);
    OneMover(m.th, m'.th, t, x, Count(m.ring.log, Is(x)), Count(m'.ring.log, Is(x)));
  }

  lemma OneMover<T>(th: seq<Local<T>>, th': seq<Local<T>>, t: Tid, x: T, before: nat, after: nat)
    requires t < |th| == |th'|
    requires forall u :: 0 <= u < |th| && u != t ==> Owes(x)(th'[u]) == Owes(x)(th[u]) && !Ends(th[u], th'[u])
    requires One(Owes(x)(th'[t])) + One(Given(th[t]) == Some(x) && Ends(th[t], th'[t]) && Succeeded(th'[t].ret))
             + before
             == One(Owes(x)(th[t])) + after
    ensures One(PushSucceeds(th, th', x)) + Count(th', Owes(x)) + before == Count(th, Owes(x)) + after
  {
    CountFollows(th, th', t, Owes(x));
  }

  lemma PushStart<T>(m: Machine<T>, x: T)
    requires Init(m)
    ensures PushInv(m) && Count(m.th, Owes(x)) == 0 && m.ring.log == []
  {
    InitEstablishes(m);
    LockInit(m);
    CountZero(m.th, Owes(x));
  }

  lemma PushReachable<T(!new)>(run: seq<Machine<T>>, i: nat, x: T)
    requires IsRun(run) && i < |run|
    ensures PushInv(run[i])
  {
    var inv := (m: Machine<T>) => PushInv(m);
    PushStart(run[0], x);
    forall k: nat | k < i && inv(run[k]) ensures inv(run[k + 1]) {
      assert StepAt(run, k);
      PushStep(run[k], run[k + 1], x);
    }
    Along(run, inv, 0, i);
  }

  /** Claimed with value x by a push() that has returned. */
  ghost function Delivered<T>(x: T): Machine<T> -> int
  {
    (m: Machine<T>) => Count(m.ring.log, Is(x)) - Count(m.th, Owes(x))
  }

  lemma PushAt<T(!new)>(run: seq<Machine<T>>, i: nat, x: T)
    requires IsRun(run) && i + 1 < |run|
    ensures PushSucceedsStep(x)(run[i], run[i + 1]) + Delivered(x)(run[i]) == Delivered(x)(run[i + 1])
  {
    PushReachable(run, i, x);
    assert StepAt(run, i);
    PushStep(run[i], run[i + 1], x);
  }

  /** In every run and for every value: the positions claimed with it are exactly the push() calls
      given it that reported success, plus the producers that won one for it and have not returned
      yet; a rejected push has claimed nothing. */
  lemma PushesAreCounted<T(!new)>(run: seq<Machine<T>>, i: nat, x: T)
    requires IsRun(run) && i < |run|
    ensures Successes(run, i, x) + Count(run[i].th, Owes(x)) == Count(run[i].ring.log, Is(x))
  {
    PushStart(run[0], x);
    forall k: nat | k < i
      ensures PushSucceedsStep(x)(run[k], run[k + 1]) + Delivered(x)(run[k]) == Delivered(x)(run[k + 1])
    {
      PushAt(run, k, x);
    }
    AccMatches(run, PushSucceedsStep(x), Delivered(x), i);
  }

  // ---- shutdown ----

  lemma NobodyInside<T>(th: seq<Local<T>>, x: T)
    requires forall v :: 0 <= v < |th| ==> Typed(th[v]) && th[v].ctl.Free?
    ensures Count(th, Carries(x)) == 0 && Count(th, Owes(x)) == 0
  {
    CountZero(th, Carries(x));
    CountZero(th, Owes(x));
  }

  /** Shutdown, as the callers see it: if no push overlaps it, one consumer was told the queue is
      over and every thread is back outside, then every value was returned by pop() or evicted by
      DropOldest exactly as often as push() calls given it reported success. */
  lemma ShutdownReturnsEverything<T(!new)>(run: seq<Machine<T>>, i: nat, u: Tid, x: T)
    requires IsRun(run) && i < |run| && forall k :: 0 <= k <= i ==> PushesDone(run[k])
    requires u < |run[i].th| && run[i].th[u].ret == Popped(None)
    requires forall v :: 0 <= v < |run[i].th| ==> run[i].th[v].ctl.Free?
    ensures Returned(run, i, x) + HandedOut(run[i].ring, run[i].th, false, run[i].ring.enq)[x] == Successes(run, i, x)
  {
    var m := run[i];
    ShutdownDrains(run, i, u);
    PopsReturnWhatWasTaken(run, i, x);
    PushesAreCounted(run, i, x);
    BaseReachable(run, i);
    NobodyInside(m.th, x);
    assert m.ring.deq == m.ring.enq by { assert |Contents(m.ring)| == 0; }
    TakenIsHandedOut(m.ring, m.th, x, m.ring.enq);
    CountIsMultiplicity(m.ring.log, x);
    assert (HandedOut(m.ring, m.th, true, m.ring.enq) + HandedOut(m.ring, m.th, false, m.ring.enq))[x]
           == multiset(m.ring.log)[x];
  }
}
