/** The gateway built with the lock-free queue: the reactor, one thread, runs push_event and retry_push of
    all connections and is the queue's one producer; the workers are its consumers. Every atomic step of
    the queue interleaves freely with the reactor's callbacks. */
module LockFreeGateways {
  import opened QueueTypes
  import opened Tally
  import opened Rings
  import opened RingThreads
  import opened LockFreeMachine
  import opened Parking
  import opened Deliveries
  import opened DropOldestPush
  import opened PushVerdict
  import opened SoleProducer
  import G = Gateways

  datatype Gate<E> = Gate(
    m: Machine<E>,                  // the queue, the reactor and the workers
    reactor: Tid,
    conns: seq<G.Connection<E>>,
    busy: Option<nat>,              // the connection whose push() the reactor is in
    counters: G.Counters,
    // auxiliary
    lines: seq<E>,                  // well-formed lines read
    refused: seq<E>,                // dropped at the door
    abandoned: seq<E>,              // their retry timer was cancelled
    lost: nat,                      // pushes that evicted an item and were rejected all the same
    held: nat)                      // second try_pushes whose stamp load met a position a worker held

  datatype Move<E> =
    | Accept
    | Line(c: nat, parsed: Option<E>)
    | Timer(c: nat, error: bool)
    | Hangup(c: nat)
    | Turn(t: Tid, choice: Choice<E>)   // the next atomic step of a thread inside the queue

  /** A callback runs when no other does; the reactor moves inside the queue only in a callback. */
  ghost predicate Enabled<E>(g: Gate<E>, m: Move<E>)
  {
    && Shaped(g.m.ring) && g.reactor < |g.m.th|
    && match m
       case Accept => g.busy.None?
       case Line(c, _) => g.busy.None? && c < |g.conns| && g.conns[c].Reading?
       case Timer(c, _) => g.busy.None? && c < |g.conns| && g.conns[c].Retrying?
       case Hangup(c) => g.busy.None? && c < |g.conns| && g.conns[c].Reading?
       case Turn(t, _) => t < |g.m.th| && (t == g.reactor ==> g.busy.Some? && g.busy.value < |g.conns|)
  }

  /** The reactor calls push(e) for connection c. */
  ghost function Push<E>(g: Gate<E>, c: nat, e: E): Gate<E>
    requires Shaped(g.m.ring) && g.reactor < |g.m.th|
  {
    g.(m := Next(g.m, g.reactor, Choice(e, false, e, 0)), busy := Some(c))
  }

  /** What push_event and retry_push do with the result for event e of connection c. */
  ghost function Settle<E>(g: Gate<E>, c: nat, e: E, res: PushResult, evicted: bool): Gate<E>
    requires c < |g.conns|
  {
    var k := g.counters;
    match res
    case Accepted => g.(busy := None, conns := g.conns[c := G.Reading], counters := k.(accepted := k.accepted + 1))
    case DroppedOldest =>
      g.(busy := None, conns := g.conns[c := G.Reading], counters := k.(droppedOldest := k.droppedOldest + 1))
    case RejectedBackpressure =>
      var g' := g.(busy := None, lost := g.lost + One(evicted));
      if g.m.env.policy.DropNewest? && g.conns[c].Reading? then
        g'.(refused := g.refused + [e], counters := k.(droppedNewest := k.droppedNewest + 1))
      else g'.(conns := g.conns[c := G.Retrying(e)])
  }

  /** The reactor is about to load the stamp for its second try_push, and will find no room. */
  ghost predicate MeetsHeld<E>(m: Machine<E>, reactor: Tid)
    requires reactor < |m.th|
  {
    m.th[reactor].ctl.PushSecond? && m.th[reactor].op.PushAt? && LapHeld(m)
  }

  /** One atomic step of a thread inside the queue; when it ends the reactor's call, its result is used. */
  ghost function TakeTurn<E>(g: Gate<E>, t: Tid, choice: Choice<E>): Gate<E>
    requires Enabled(g, Turn(t, choice))
  {
    var l, m' := g.m.th[t], Next(g.m, t, choice);
    var g' := g.(m := m', held := g.held + One(t == g.reactor && MeetsHeld(g.m, t)));
    if t == g.reactor && t < |m'.th| && m'.th[t].ctl.Free? && m'.th[t].ret.Pushed? && Given(l).Some? then
      Settle(g', g.busy.value, Given(l).value, m'.th[t].ret.res, l.ctl.PushSecond?)
    else g'
  }

  ghost function Step<E>(g: Gate<E>, m: Move<E>): Gate<E>
    requires Enabled(g, m)
  {
    match m
    case Accept => g.(conns := g.conns + [G.Reading])
    case Line(c, parsed) =>
      if parsed.None? then g.(counters := g.counters.(malformed := g.counters.malformed + 1))
      else Push(g.(lines := g.lines + [parsed.value]), c, parsed.value)
    case Timer(c, error) =>
      if error then g.(conns := g.conns[c := G.Closed], abandoned := g.abandoned + [g.conns[c].e])
      else Push(g, c, g.conns[c].e)
    case Hangup(c) => g.(conns := g.conns[c := G.Closed])
    case Turn(t, choice) => TakeTurn(g, t, choice)
  }

  ghost predicate Start<E>(g: Gate<E>)
  {
    && Init(g.m) && OneProducer(g.m.th, g.reactor)
    && g == Gate(g.m, g.reactor, [], None, G.Counters(0, 0, 0, 0), [], [], [], 0, 0)
  }

  ghost predicate Steps<E(!new)>(g: Gate<E>, g': Gate<E>)
  {
    exists m :: Enabled(g, m) && g' == Step(g, m)
  }

  ghost predicate StepsAt<E(!new)>(run: seq<Gate<E>>, i: nat)
  {
    i + 1 < |run| && Steps(run[i], run[i + 1])
  }

  ghost predicate IsGateRun<E(!new)>(run: seq<Gate<E>>)
  {
    run != [] && Start(run[0]) && forall i: nat :: i + 1 < |run| ==> StepsAt(run, i)
  }

  // ---- the counters and the ring ----

  /** The call under way has evicted an item. */
  ghost predicate HasEvicted<E>(l: Local<E>)
  {
    || (l.ctl.PushEvict? && (l.op.PopTake? || l.op.PopRelease? || (l.op.PopDone? && l.op.got.Some?)))
    || l.ctl.PushSecond?
    || (Notifying(l) && l.ctl.res.DroppedOldest?)
  }

  /** Every position claimed is a push counted as accepted or as having dropped the oldest, every eviction
      one of the latter or a loss, and every loss a second try_push that met a held position; apart from
      the call under way. */
  ghost predicate Tallied<E>(r: Ring<E>, l: Local<E>, t: Tid, k: G.Counters, lost: nat, held: nat)
  {
    && r.enq == k.accepted + k.droppedOldest + One(Won(l))
    && EvictedBy(r, t) == k.droppedOldest + lost + One(HasEvicted(l))
    && held == lost + One(l.ctl.PushSecond? && l.op == PushDone(false))
  }

  lemma TalliedOp<E>(r: Ring<E>, t: Tid, l: Local<E>, spurious: bool, left: E, k: G.Counters, lost: nat, held: nat)
    requires Shaped(r) && Typed(l) && Running(l.op) && l.role.Producer? && Honest(l) && Tallied(r, l, t, k, lost, held)
    ensures var (r', op') := OpStep(r, t, l.op, spurious, left);
            Tallied(r', l.(op := op'), t, k, lost, held + One(l.ctl.PushSecond? && op' == PushDone(false)))
  {
    OweOpLocal(r, t, l, spurious, left);
    CountAppend(r.poppedBy, t, Is(t));
  }

  /** The counters after a call returned. */
  ghost function Counted(k: G.Counters, res: PushResult): G.Counters
  {
    k.(accepted := k.accepted + One(res.Accepted?), droppedOldest := k.droppedOldest + One(res.DroppedOldest?))
  }

  lemma TalliedControl<E>(r: Ring<E>, t: Tid, l: Local<E>, env: Env, item: E, k: G.Counters, lost: nat, held: nat)
    requires Typed(l) && !Running(l.op) && l.role.Producer? && !l.ctl.Free? && Honest(l)
    requires Tallied(r, l, t, k, lost, held)
    ensures var l' := Control(l, env, item).l;
            if l'.ctl.Free? then
              l'.ret.Pushed? && Tallied(r, l', t, Counted(k, l'.ret.res),
                                        lost + One(l.ctl.PushSecond? && l'.ret.res.RejectedBackpressure?), held)
            else Tallied(r, l', t, k, lost, held)
  {
    OweControl(l, env, item);
  }

  lemma TalliedOther<E>(r: Ring<E>, u: Tid, op: Op<E>, spurious: bool, left: E, l: Local<E>, t: Tid,
                        k: G.Counters, lost: nat, held: nat)
    requires Shaped(r) && u != t && !PushOp(op) && Tallied(r, l, t, k, lost, held)
    ensures Tallied(OpStep(r, u, op, spurious, left).0, l, t, k, lost, held)
  {
    OthersDoNotPush(r, u, op, spurious, left);
    CountAppend(r.poppedBy, u, Is(t));
  }

  /** A second try_push's load fails exactly when it meets a held position. */
  lemma MeetsHeldFails<E>(m: Machine<E>, t: Tid, choice: Choice<E>)
    requires AloneInv(m, t) && Running(m.th[t].op)
    ensures var op' := OpStep(m.ring, t, m.th[t].op, choice.spurious, choice.left).1;
            MeetsHeld(m, t) <==> m.th[t].ctl.PushSecond? && op' == PushDone(false)
  {
    var l := m.th[t];
    assert Typed(l);
    if l.op.PushAt? { PushLoads(m, t, choice); }
  }

  /** What the reactor's own step does to the tally. */
  ghost predicate TurnTallied<E>(r': Ring<E>, l: Local<E>, l': Local<E>, t: Tid, k: G.Counters, lost: nat, held: nat)
  {
    if l'.ctl.Free? then
      && l'.ret.Pushed? && (Succeeded(l'.ret) <==> Won(l))
      && Tallied(r', l', t, Counted(k, l'.ret.res), lost + One(l.ctl.PushSecond? && l'.ret.res.RejectedBackpressure?),
                 held)
    else Given(l') == Given(l) && Tallied(r', l', t, k, lost, held)
  }

  lemma TurnOperates<E>(m: Machine<E>, t: Tid, choice: Choice<E>, k: G.Counters, lost: nat, held: nat)
    requires AloneInv(m, t) && PushInv(m) && Running(m.th[t].op) && Tallied(m.ring, m.th[t], t, k, lost, held)
    ensures var m' := Next(m, t, choice);
            |m'.th| == |m.th| && TurnTallied(m'.ring, m.th[t], m'.th[t], t, k, lost, held + One(MeetsHeld(m, t)))
  {
    var l := m.th[t];
    assert Typed(l) && Honest(l) && l.role.Producer?;
    NextThread(m, t, choice);
    NextRing(m, t, choice);
    MeetsHeldFails(m, t, choice);
    TalliedOp(m.ring, t, l, choice.spurious, choice.left, k, lost, held);
  }

  lemma TurnDecides<E>(m: Machine<E>, t: Tid, choice: Choice<E>, k: G.Counters, lost: nat, held: nat)
    requires AloneInv(m, t) && PushInv(m) && !Running(m.th[t].op) && !m.th[t].ctl.Free?
    requires Tallied(m.ring, m.th[t], t, k, lost, held)
    ensures var m' := Next(m, t, choice);
            && |m'.th| == |m.th| && m'.ring == m.ring && !MeetsHeld(m, t)
            && TurnTallied(m'.ring, m.th[t], m'.th[t], t, k, lost, held)
  {
    var l := m.th[t];
    assert Typed(l) && Honest(l) && l.role.Producer?;
    NextThread(m, t, choice);
    OweControl(l, m.env, choice.item);
    TalliedControl(m.ring, t, l, m.env, choice.item, k, lost, held);
  }

  // ---- the lines ----

  /** The connection being served stands for the event its push() was given. */
  ghost predicate Serves<E>(conns: seq<G.Connection<E>>, busy: Option<nat>, l: Local<E>)
  {
    && (busy.None? <==> l.ctl.Free?)
    && (busy.Some? ==>
          && busy.value < |conns| && Given(l).Some?
          && (conns[busy.value].Reading? || conns[busy.value] == G.Retrying(Given(l).value)))
  }

  /** The reactor is pushing a line just read. */
  ghost predicate JustRead<E>(conns: seq<G.Connection<E>>, busy: Option<nat>)
  {
    busy.Some? && busy.value < |conns| && conns[busy.value].Reading?
  }

  /** Every well-formed line is counted, refused, abandoned, waiting for its retry or being pushed. */
  ghost predicate LinesCounted<E>(lines: seq<E>, refused: seq<E>, abandoned: seq<E>, conns: seq<G.Connection<E>>,
                                  busy: Option<nat>, k: G.Counters)
  {
    && |lines| == k.accepted + k.droppedOldest + |refused| + |abandoned| + Count(conns, G.IsRetrying)
                  + One(JustRead(conns, busy))
    && |refused| == k.droppedNewest
  }

  /** The same value by value: each is claimed at one position of the queue's global order or in one of
      those places; `won` says whether the push under way has won its position. */
  ghost predicate LinesPlaced<E>(lines: seq<E>, refused: seq<E>, abandoned: seq<E>, conns: seq<G.Connection<E>>,
                                 busy: Option<nat>, given: Option<E>, won: bool, log: seq<E>, x: E)
  {
    Count(lines, Is(x)) + One(busy.Some? && !JustRead(conns, busy) && given == Some(x) && won)
    == Count(log, Is(x)) + Count(refused, Is(x)) + Count(abandoned, Is(x)) + Count(conns, G.PendingIs(x))
       + One(JustRead(conns, busy) && given == Some(x) && !won)
  }

  /** The queue, the counters and the connection being served. */
  ghost predicate QueueInv<E>(g: Gate<E>)
  {
    && AloneInv(g.m, g.reactor) && PushInv(g.m)
    && Tallied(g.m.ring, g.m.th[g.reactor], g.reactor, g.counters, g.lost, g.held)
    && Serves(g.conns, g.busy, g.m.th[g.reactor])
  }

  ghost predicate CountInv<E>(g: Gate<E>)
  {
    LinesCounted(g.lines, g.refused, g.abandoned, g.conns, g.busy, g.counters)
  }

  ghost predicate LinesOf<E>(g: Gate<E>, x: E)
    requires g.reactor < |g.m.th|
  {
    var l := g.m.th[g.reactor];
    LinesPlaced(g.lines, g.refused, g.abandoned, g.conns, g.busy, Given(l), Won(l), g.m.ring.log, x)
  }

  ghost predicate GateInv<E>(g: Gate<E>, x: E)
  {
    QueueInv(g) && CountInv(g) && LinesOf(g, x)
  }

  // ---- a result is used ----

  lemma SettleCounts<E>(g: Gate<E>, c: nat, e: E, res: PushResult, evicted: bool)
    requires c < |g.conns| && g.busy == Some(c) && (g.conns[c].Reading? || g.conns[c] == G.Retrying(e)) && CountInv(g)
    ensures CountInv(Settle(g, c, e, res, evicted))
  {
    CountUpdate(g.conns, c, G.Reading, G.IsRetrying);
    CountUpdate(g.conns, c, G.Retrying(e), G.IsRetrying);
  }

  /** A push that won its position: the connection reads on. */
  lemma PlacedInQueue<E>(lines: seq<E>, refused: seq<E>, abandoned: seq<E>, conns: seq<G.Connection<E>>, c: nat,
                         e: E, log: seq<E>, given: Option<E>, won: bool, x: E)
    requires c < |conns| && (conns[c].Reading? || conns[c] == G.Retrying(e))
    requires LinesPlaced(lines, refused, abandoned, conns, Some(c), Some(e), true, log, x)
    ensures LinesPlaced(lines, refused, abandoned, conns[c := G.Reading], None, given, won, log, x)
  {
    CountUpdate(conns, c, G.Reading, G.PendingIs(x));
  }

  /** A rejected push: the event is dropped at the door or waits for its retry. */
  lemma PlacedOutside<E>(lines: seq<E>, refused: seq<E>, abandoned: seq<E>, conns: seq<G.Connection<E>>, c: nat,
                         e: E, log: seq<E>, given: Option<E>, won: bool, x: E)
    requires c < |conns| && (conns[c].Reading? || conns[c] == G.Retrying(e))
    requires LinesPlaced(lines, refused, abandoned, conns, Some(c), Some(e), false, log, x)
    ensures conns[c].Reading? ==> LinesPlaced(lines, refused + [e], abandoned, conns, None, given, won, log, x)
    ensures LinesPlaced(lines, refused, abandoned, conns[c := G.Retrying(e)], None, given, won, log, x)
  {
    CountUpdate(conns, c, G.Retrying(e), G.PendingIs(x));
    CountAppend(refused, e, Is(x));
  }

  lemma SettlePlaces<E>(g: Gate<E>, c: nat, e: E, res: PushResult, evicted: bool, given: Option<E>, won: bool, x: E)
    requires c < |g.conns| && g.busy == Some(c) && (g.conns[c].Reading? || g.conns[c] == G.Retrying(e))
    requires LinesPlaced(g.lines, g.refused, g.abandoned, g.conns, Some(c), Some(e), !res.RejectedBackpressure?,
                         g.m.ring.log, x)
    ensures var g' := Settle(g, c, e, res, evicted);
            LinesPlaced(g'.lines, g'.refused, g'.abandoned, g'.conns, g'.busy, given, won, g'.m.ring.log, x)
  {
    if res.RejectedBackpressure? {
      PlacedOutside(g.lines, g.refused, g.abandoned, g.conns, c, e, g.m.ring.log, given, won, x);
    } else {
      PlacedInQueue(g.lines, g.refused, g.abandoned, g.conns, c, e, g.m.ring.log, given, won, x);
    }
  }

  // ---- the reactor's callbacks ----

  /** push() begins. */
  lemma PushBegins<E>(m: Machine<E>, t: Tid, e: E, k: G.Counters, lost: nat, held: nat)
    requires AloneInv(m, t) && PushInv(m) && m.th[t].ctl.Free? && Tallied(m.ring, m.th[t], t, k, lost, held)
    ensures var m' := Next(m, t, Choice(e, false, e, 0));
            && |m'.th| == |m.th| && m'.ring == m.ring && m'.th[t].ctl == PushFirst(e) && !Won(m'.th[t])
            && Tallied(m'.ring, m'.th[t], t, k, lost, held)
  {
    var c := Choice(e, false, e, 0);
    NextThread(m, t, c);
    BeginsPush(m, t, c);
    TalliedBegins(m.ring, m.th[t], Next(m, t, c).th[t], t, e, k, lost, held);
  }

  lemma TalliedBegins<E>(r: Ring<E>, l: Local<E>, l': Local<E>, t: Tid, e: E, k: G.Counters, lost: nat, held: nat)
    requires Tallied(r, l, t, k, lost, held) && l.ctl.Free? && Typed(l)
    requires l'.ctl == PushFirst(e) && l'.op == PushLoad(e)
    ensures !Won(l') && Tallied(r, l', t, k, lost, held)
  {
  }

  /** Steps keep what the queue itself keeps. */
  lemma MachineKept<E(!new)>(m: Machine<E>, reactor: Tid, t: Tid, c: Choice<E>)
    requires t < |m.th| && AloneInv(m, reactor) && PushInv(m)
    ensures AloneInv(Next(m, t, c), reactor) && PushInv(Next(m, t, c))
  {
    var m' := Next(m, t, c);
    assert IsStep(m, m');
    AloneStep(m, m', reactor);
    PushStep(m, m', c.item);
  }

  lemma PushKeeps<E(!new)>(g: Gate<E>, c: nat, e: E)
    requires QueueInv(g) && g.busy.None? && c < |g.conns| && (g.conns[c].Reading? || g.conns[c] == G.Retrying(e))
    ensures QueueInv(Push(g, c, e))
    ensures var g' := Push(g, c, e);
            g'.m.ring == g.m.ring && Given(g'.m.th[g.reactor]) == Some(e) && !Won(g'.m.th[g.reactor])
  {
    MachineKept(g.m, g.reactor, g.reactor, Choice(e, false, e, 0));
    PushBegins(g.m, g.reactor, e, g.counters, g.lost, g.held);
  }

  lemma LineKeeps<E(!new)>(g: Gate<E>, c: nat, e: E, x: E)
    requires GateInv(g, x) && Enabled(g, Line(c, Some(e)))
    ensures GateInv(Step(g, Line(c, Some(e))), x)
  {
    var g1 := g.(lines := g.lines + [e]);
    PushKeeps(g1, c, e);
    CountAppend(g.lines, e, Is(x));
  }

  lemma RetryKeeps<E(!new)>(g: Gate<E>, c: nat, x: E)
    requires GateInv(g, x) && Enabled(g, Timer(c, false))
    ensures GateInv(Step(g, Timer(c, false)), x)
  {
    PushKeeps(g, c, g.conns[c].e);
  }

  lemma AbandonKeeps<E>(g: Gate<E>, c: nat, x: E)
    requires GateInv(g, x) && Enabled(g, Timer(c, true))
    ensures GateInv(Step(g, Timer(c, true)), x)
  {
    CountUpdate(g.conns, c, G.Closed, G.IsRetrying);
    CountUpdate(g.conns, c, G.Closed, G.PendingIs(x));
    CountAppend(g.abandoned, g.conns[c].e, Is(x));
  }

  lemma DoorKeeps<E>(g: Gate<E>, m: Move<E>, x: E)
    requires GateInv(g, x) && Enabled(g, m) && (m.Accept? || m.Hangup? || (m.Line? && m.parsed.None?))
    ensures GateInv(Step(g, m), x)
  {
    CountAppend(g.conns, G.Reading, G.IsRetrying);
    CountAppend(g.conns, G.Reading, G.PendingIs(x));
    if m.Hangup? {
      CountUpdate(g.conns, m.c, G.Closed, G.IsRetrying);
      CountUpdate(g.conns, m.c, G.Closed, G.PendingIs(x));
    }
  }

  // ---- turns ----

  lemma WorkerTurn<E(!new)>(g: Gate<E>, t: Tid, choice: Choice<E>, x: E)
    requires GateInv(g, x) && Enabled(g, Turn(t, choice)) && t != g.reactor
    ensures GateInv(Step(g, Turn(t, choice)), x)
  {
    var m := g.m;
    MachineKept(m, g.reactor, t, choice);
    OtherMoves(m, t, choice, g.reactor);
    OtherThread(m.th, m.mutex, m.env.waiters, t, g.reactor);
    NextRing(m, t, choice);
    TalliedOther(m.ring, t, m.th[t].op, choice.spurious, choice.left, m.th[g.reactor], g.reactor, g.counters, g.lost,
                 g.held);
  }

  /** The reactor's step claims a position exactly when it wins one for its event. */
  lemma ReactorClaims<E>(m: Machine<E>, t: Tid, choice: Choice<E>, x: E)
    requires AloneInv(m, t) && PushInv(m) && !m.th[t].ctl.Free?
    ensures var m', l := Next(m, t, choice), m.th[t];
            && |m'.th| == |m.th|
            && Count(m'.ring.log, Is(x)) + One(Given(l) == Some(x) && Won(l))
               == Count(m.ring.log, Is(x))
               + One(Given(l) == Some(x) && (if m'.th[t].ctl.Free? then Won(l) else Won(m'.th[t])))
  {
    var l := m.th[t];
    assert Typed(l) && Honest(l) && l.role.Producer?;
    NextThread(m, t, choice);
    NextRing(m, t, choice);
    if Running(l.op) {
      OweOpLog(m.ring, t, l.op, choice.spurious, choice.left, x);
      OweOpLocal(m.ring, t, l, choice.spurious, choice.left);
    } else {
      OweControl(l, m.env, choice.item);
    }
  }

  lemma ReactorTally<E>(m: Machine<E>, t: Tid, choice: Choice<E>, k: G.Counters, lost: nat, held: nat)
    requires AloneInv(m, t) && PushInv(m) && !m.th[t].ctl.Free? && Tallied(m.ring, m.th[t], t, k, lost, held)
    ensures var m' := Next(m, t, choice);
            && |m'.th| == |m.th| && m'.env.policy == m.env.policy
            && TurnTallied(m'.ring, m.th[t], m'.th[t], t, k, lost, held + One(MeetsHeld(m, t)))
  {
    PolicyKept(m, t, choice);
    if Running(m.th[t].op) {
      TurnOperates(m, t, choice, k, lost, held);
    } else {
      TurnDecides(m, t, choice, k, lost, held);
    }
  }

  /** The state of the queue right after the reactor's step, before its result is used. */
  ghost function Moved<E>(g: Gate<E>, choice: Choice<E>): Gate<E>
    requires Enabled(g, Turn(g.reactor, choice))
  {
    g.(m := Next(g.m, g.reactor, choice), held := g.held + One(MeetsHeld(g.m, g.reactor)))
  }

  /** Where the reactor's event is, right after its step. */
  lemma MovedPlaces<E>(g: Gate<E>, choice: Choice<E>, x: E)
    requires GateInv(g, x) && Enabled(g, Turn(g.reactor, choice))
    ensures var g1, l := Moved(g, choice), g.m.th[g.reactor];
            && g.reactor < |g1.m.th| && var l' := g1.m.th[g.reactor];
            LinesPlaced(g.lines, g.refused, g.abandoned, g.conns, g.busy, Given(l),
                        if l'.ctl.Free? then Won(l) else Won(l'), g1.m.ring.log, x)
  {
    ReactorClaims(g.m, g.reactor, choice, x);
  }

  lemma ReactorGoesOn<E(!new)>(g: Gate<E>, choice: Choice<E>, x: E)
    requires GateInv(g, x) && Enabled(g, Turn(g.reactor, choice))
    requires var m' := Moved(g, choice).m; g.reactor < |m'.th| && !m'.th[g.reactor].ctl.Free?
    ensures GateInv(Step(g, Turn(g.reactor, choice)), x)
  {
    var t := g.reactor;
    MachineKept(g.m, t, t, choice);
    ReactorTally(g.m, t, choice, g.counters, g.lost, g.held);
    MovedPlaces(g, choice, x);
  }

  lemma SettleQueue<E>(g: Gate<E>, c: nat, e: E, res: PushResult, evicted: bool)
    requires c < |g.conns| && AloneInv(g.m, g.reactor) && PushInv(g.m) && g.m.th[g.reactor].ctl.Free?
    requires Tallied(g.m.ring, g.m.th[g.reactor], g.reactor, Counted(g.counters, res),
                     g.lost + One(evicted && res.RejectedBackpressure?), g.held)
    ensures QueueInv(Settle(g, c, e, res, evicted)) && Settle(g, c, e, res, evicted).m == g.m
  {
    SettleFields(g, c, e, res, evicted);
    TalliedAlike(g.m.ring, g.m.th[g.reactor], g.reactor, Counted(g.counters, res),
                 Settle(g, c, e, res, evicted).counters,
                 g.lost + One(evicted && res.RejectedBackpressure?), g.held);
  }

  lemma SettleFields<E>(g: Gate<E>, c: nat, e: E, res: PushResult, evicted: bool)
    requires c < |g.conns|
    ensures var g', k := Settle(g, c, e, res, evicted), Counted(g.counters, res);
            && g'.m == g.m && g'.reactor == g.reactor && g'.busy.None? && g'.held == g.held
            && g'.counters.accepted == k.accepted && g'.counters.droppedOldest == k.droppedOldest
            && g'.lost == g.lost + One(evicted && res.RejectedBackpressure?)
  {
  }

  lemma TalliedAlike<E>(r: Ring<E>, l: Local<E>, t: Tid, k: G.Counters, k': G.Counters, lost: nat, held: nat)
    requires Tallied(r, l, t, k, lost, held)
    requires k'.accepted == k.accepted && k'.droppedOldest == k.droppedOldest
    ensures Tallied(r, l, t, k', lost, held)
  {
  }

  lemma SettleKeeps<E>(g: Gate<E>, c: nat, e: E, res: PushResult, evicted: bool, x: E)
    requires c < |g.conns| && g.busy == Some(c) && (g.conns[c].Reading? || g.conns[c] == G.Retrying(e)) && CountInv(g)
    requires AloneInv(g.m, g.reactor) && PushInv(g.m) && g.m.th[g.reactor].ctl.Free?
    requires Tallied(g.m.ring, g.m.th[g.reactor], g.reactor, Counted(g.counters, res),
                     g.lost + One(evicted && res.RejectedBackpressure?), g.held)
    requires LinesPlaced(g.lines, g.refused, g.abandoned, g.conns, Some(c), Some(e), !res.RejectedBackpressure?,
                         g.m.ring.log, x)
    ensures GateInv(Settle(g, c, e, res, evicted), x)
  {
    var l := g.m.th[g.reactor];
    SettleQueue(g, c, e, res, evicted);
    SettleCounts(g, c, e, res, evicted);
    SettlePlaces(g, c, e, res, evicted, Given(l), Won(l), x);
  }

  lemma StepSettles<E>(g: Gate<E>, choice: Choice<E>)
    requires Enabled(g, Turn(g.reactor, choice)) && Given(g.m.th[g.reactor]).Some?
    requires var m' := Moved(g, choice).m;
             g.reactor < |m'.th| && m'.th[g.reactor].ctl.Free? && m'.th[g.reactor].ret.Pushed?
    ensures var g1, l := Moved(g, choice), g.m.th[g.reactor];
            Step(g, Turn(g.reactor, choice))
            == Settle(g1, g.busy.value, Given(l).value, g1.m.th[g.reactor].ret.res, l.ctl.PushSecond?)
  {
  }

  lemma ReactorReturns<E(!new)>(g: Gate<E>, choice: Choice<E>, x: E)
    requires GateInv(g, x) && Enabled(g, Turn(g.reactor, choice))
    requires var m' := Moved(g, choice).m; g.reactor < |m'.th| && m'.th[g.reactor].ctl.Free?
    ensures GateInv(Step(g, Turn(g.reactor, choice)), x)
  {
    var t, g1 := g.reactor, Moved(g, choice);
    var l, l' := g.m.th[t], g1.m.th[t];
    MachineKept(g.m, t, t, choice);
    ReactorTally(g.m, t, choice, g.counters, g.lost, g.held);
    MovedPlaces(g, choice, x);
    StepSettles(g, choice);
    SettleKeeps(g1, g.busy.value, Given(l).value, l'.ret.res, l.ctl.PushSecond?, x);
  }

  lemma ReactorTurn<E(!new)>(g: Gate<E>, choice: Choice<E>, x: E)
    requires GateInv(g, x) && Enabled(g, Turn(g.reactor, choice))
    ensures GateInv(Step(g, Turn(g.reactor, choice)), x)
  {
    NextRing(g.m, g.reactor, choice);
    if Moved(g, choice).m.th[g.reactor].ctl.Free? {
      ReactorReturns(g, choice, x);
    } else {
      ReactorGoesOn(g, choice, x);
    }
  }

  lemma StepKeeps<E(!new)>(g: Gate<E>, m: Move<E>, x: E)
    requires GateInv(g, x) && Enabled(g, m)
    ensures GateInv(Step(g, m), x)
  {
    match m
    case Line(c, parsed) => if parsed.Some? { LineKeeps(g, c, parsed.value, x); } else { DoorKeeps(g, m, x); }
    case Timer(c, error) => if error { AbandonKeeps(g, c, x); } else { RetryKeeps(g, c, x); }
    case Turn(t, choice) => if t == g.reactor { ReactorTurn(g, choice, x); } else { WorkerTurn(g, t, choice, x); }
    case _ => DoorKeeps(g, m, x);
  }

  lemma StepsKeep<E(!new)>(g: Gate<E>, g': Gate<E>, x: E)
    requires Steps(g, g') && GateInv(g, x)
    ensures GateInv(g', x)
  {
    var m :| Enabled(g, m) && g' == Step(g, m);
    StepKeeps(g, m, x);
  }

  lemma StartHolds<E(!new)>(g: Gate<E>, x: E)
    requires Start(g)
    ensures GateInv(g, x)
  {
    InitEstablishes(g.m);
    LockInit(g.m);
  }

  lemma GateHolds<E(!new)>(run: seq<Gate<E>>, i: nat, x: E)
    requires IsGateRun(run) && i < |run|
    ensures GateInv(run[i], x)
  {
    var inv := (g: Gate<E>) => GateInv(g, x);
    StartHolds(run[0], x);
    forall k: nat | k < i && inv(run[k]) ensures inv(run[k + 1]) {
      assert StepsAt(run, k);
      StepsKeep(run[k], run[k + 1], x);
    }
    Along(run, inv, 0, i);
  }

  /** What follows for the reactor and the counters. */
  ghost predicate Known<E>(g: Gate<E>)
  {
    && Shaped(g.m.ring) && g.reactor < |g.m.th| && g.m.th[g.reactor].role.Producer?
    && Tallied(g.m.ring, g.m.th[g.reactor], g.reactor, g.counters, g.lost, g.held)
    && (if g.busy.None? then g.m.th[g.reactor].ctl.Free? && g.m.th[g.reactor].op.NoOp?
        else !g.m.th[g.reactor].ctl.Free? && g.busy.value < |g.conns|)
  }

  lemma InvKnown<E>(g: Gate<E>, x: E)
    requires GateInv(g, x)
    ensures Known(g)
  {
    assert Typed(g.m.th[g.reactor]);
  }

  lemma KnownAt<E(!new)>(run: seq<Gate<E>>, i: nat, x: E)
    requires IsGateRun(run) && i < |run|
    ensures Known(run[i])
  {
    GateHolds(run, i, x);
    InvKnown(run[i], x);
  }

  // ---- what one result does ----

  /** When the reactor's call returns, in the source's terms: an accepted event and one that evicted another
      are counted and the connection reads on; a rejected one is refused if and only if the policy is
      DropNewest and the line was just read, and otherwise its connection waits for the retry with this very
      event and nothing is counted. */
  lemma ResultUsed<E>(g: Gate<E>, choice: Choice<E>)
    requires Enabled(g, Turn(g.reactor, choice)) && QueueInv(g)
    requires var m' := Next(g.m, g.reactor, choice); g.reactor < |m'.th| && m'.th[g.reactor].ctl.Free?
    ensures var g', k, c := Step(g, Turn(g.reactor, choice)), g.counters, g.busy.value;
            var ret, given := Next(g.m, g.reactor, choice).th[g.reactor].ret, Given(g.m.th[g.reactor]);
            && ret.Pushed? && given.Some? && c < |g.conns| && g'.busy.None?
            && g'.lines == g.lines && g'.abandoned == g.abandoned
            && (ret.res.Accepted? ==>
                  && g'.counters == k.(accepted := k.accepted + 1)
                  && g'.conns == g.conns[c := G.Reading] && g'.refused == g.refused)
            && (ret.res.DroppedOldest? ==>
                  && g'.counters == k.(droppedOldest := k.droppedOldest + 1)
                  && g'.conns == g.conns[c := G.Reading] && g'.refused == g.refused)
            && (ret.res.RejectedBackpressure? && g.m.env.policy.DropNewest? && g.conns[c].Reading? ==>
                  && g'.counters == k.(droppedNewest := k.droppedNewest + 1)
                  && g'.conns == g.conns && g'.refused == g.refused + [given.value])
            && (ret.res.RejectedBackpressure? && !(g.m.env.policy.DropNewest? && g.conns[c].Reading?) ==>
                  && g'.counters == k && g'.conns == g.conns[c := G.Retrying(given.value)] && g'.refused == g.refused)
  {
    var l, l' := g.m.th[g.reactor], Next(g.m, g.reactor, choice).th[g.reactor];
    ReactorTally(g.m, g.reactor, choice, g.counters, g.lost, g.held);
    StepSettles(g, choice);
    SettleDecides(Moved(g, choice), g.busy.value, Given(l).value, l'.ret.res, l.ctl.PushSecond?);
  }

  lemma SettleDecides<E>(g: Gate<E>, c: nat, e: E, res: PushResult, evicted: bool)
    requires c < |g.conns|
    ensures var g', k := Settle(g, c, e, res, evicted), g.counters;
            && g'.busy.None? && g'.lines == g.lines && g'.abandoned == g.abandoned
            && (res.Accepted? ==>
                  && g'.counters == k.(accepted := k.accepted + 1)
                  && g'.conns == g.conns[c := G.Reading] && g'.refused == g.refused)
            && (res.DroppedOldest? ==>
                  && g'.counters == k.(droppedOldest := k.droppedOldest + 1)
                  && g'.conns == g.conns[c := G.Reading] && g'.refused == g.refused)
            && (res.RejectedBackpressure? && g.m.env.policy.DropNewest? && g.conns[c].Reading? ==>
                  && g'.counters == k.(droppedNewest := k.droppedNewest + 1)
                  && g'.conns == g.conns && g'.refused == g.refused + [e])
            && (res.RejectedBackpressure? && !(g.m.env.policy.DropNewest? && g.conns[c].Reading?) ==>
                  && g'.counters == k && g'.conns == g.conns[c := G.Retrying(e)] && g'.refused == g.refused)
  {
  }

  /** The callbacks that do not wait for the queue: a well-formed line and a timer that fires begin a push()
      of that very event; a cancelled timer gives its event up; a malformed line is only counted. */
  lemma CallbackDecides<E>(g: Gate<E>, m: Move<E>)
    requires Enabled(g, m) && QueueInv(g) && !m.Turn?
    ensures var g' := Step(g, m);
            && g.reactor < |g'.m.th|
            && (m.Line? && m.parsed.Some? ==>
                  && g'.m.th[g.reactor].ctl == PushFirst(m.parsed.value) && g'.busy == Some(m.c)
                  && g'.lines == g.lines + [m.parsed.value] && g'.conns == g.conns)
            && (m.Timer? && !m.error ==>
                  && g'.m.th[g.reactor].ctl == PushFirst(g.conns[m.c].e) && g'.busy == Some(m.c)
                  && g'.lines == g.lines && g'.conns == g.conns && g'.abandoned == g.abandoned)
            && (m.Timer? && m.error ==>
                  g' == g.(conns := g.conns[m.c := G.Closed], abandoned := g.abandoned + [g.conns[m.c].e]))
            && (m.Line? && m.parsed.None? ==> g' == g.(counters := g.counters.(malformed := g.counters.malformed + 1)))
            && (m.Accept? ==> g' == g.(conns := g.conns + [G.Reading]))
            && (m.Hangup? ==> g' == g.(conns := g.conns[m.c := G.Closed]))
  {
    match m
    case Line(c, parsed) =>
      if parsed.Some? { PushBegins(g.m, g.reactor, parsed.value, g.counters, g.lost, g.held); }
    case Timer(c, error) =>
      if !error { PushBegins(g.m, g.reactor, g.conns[c].e, g.counters, g.lost, g.held); }
    case _ =>
  }

  // ---- what each policy rules out ----

  /** Only DropOldest evicts. */
  ghost predicate Plain<E>(l: Local<E>, policy: Policy)
  {
    !policy.DropOldest? ==> !l.ctl.PushEvict? && !l.ctl.PushSecond? && (Notifying(l) ==> l.ctl.res.Accepted?)
  }

  ghost predicate PolicyFits<E>(policy: Policy, refused: seq<E>, abandoned: seq<E>, conns: seq<G.Connection<E>>,
                                k: G.Counters)
  {
    match policy
    case Block => refused == [] && k.droppedOldest == 0
    case DropNewest => abandoned == [] && G.NobodyRetries(conns) && k.droppedOldest == 0
    case DropOldest => refused == []
  }

  ghost predicate PolicyInv<E>(g: Gate<E>)
    requires g.reactor < |g.m.th|
  {
    Plain(g.m.th[g.reactor], g.m.env.policy) && PolicyFits(g.m.env.policy, g.refused, g.abandoned, g.conns, g.counters)
  }

  lemma PlainControl<E>(l: Local<E>, env: Env, item: E)
    requires Typed(l) && !Running(l.op) && l.role.Producer? && !l.ctl.Free? && Honest(l) && Plain(l, env.policy)
    ensures var l' := Control(l, env, item).l;
            && Plain(l', env.policy)
            && (l'.ctl.Free? && l'.ret == Pushed(DroppedOldest) ==> env.policy.DropOldest?)
  {
  }

  lemma PlainTurn<E>(m: Machine<E>, t: Tid, choice: Choice<E>)
    requires AloneInv(m, t) && PushInv(m) && !m.th[t].ctl.Free? && Plain(m.th[t], m.env.policy)
    ensures var m' := Next(m, t, choice);
            && |m'.th| == |m.th| && m'.env.policy == m.env.policy && Plain(m'.th[t], m.env.policy)
            && (m'.th[t].ctl.Free? && m'.th[t].ret == Pushed(DroppedOldest) ==> m.env.policy.DropOldest?)
  {
    var l := m.th[t];
    assert Typed(l) && Honest(l) && l.role.Producer?;
    NextThread(m, t, choice);
    PolicyKept(m, t, choice);
    if !Running(l.op) { PlainControl(l, m.env, choice.item); }
  }

  lemma PolicyReturns<E>(g: Gate<E>, choice: Choice<E>)
    requires Enabled(g, Turn(g.reactor, choice)) && QueueInv(g) && PolicyInv(g)
    requires var m' := Next(g.m, g.reactor, choice); g.reactor < |m'.th| && m'.th[g.reactor].ctl.Free?
    ensures var g' := Step(g, Turn(g.reactor, choice));
            PolicyFits(g.m.env.policy, g'.refused, g'.abandoned, g'.conns, g'.counters)
  {
    ResultUsed(g, choice);
    PlainTurn(g.m, g.reactor, choice);
  }

  /** What a turn leaves alone unless it ends the reactor's call. */
  lemma TurnFields<E>(g: Gate<E>, t: Tid, choice: Choice<E>)
    requires Enabled(g, Turn(t, choice))
    ensures var g', m' := Step(g, Turn(t, choice)), Next(g.m, t, choice);
            && g'.m == m' && g'.reactor == g.reactor
            && ((t == g.reactor && t < |m'.th| && m'.th[t].ctl.Free?)
                || (g'.refused == g.refused && g'.abandoned == g.abandoned && g'.conns == g.conns
                    && g'.counters == g.counters))
  {
    if t == g.reactor && g.busy.Some? && Given(g.m.th[t]).Some? {
      var m' := Next(g.m, t, choice);
      if t < |m'.th| && m'.th[t].ret.Pushed? {
        SettleFields(Moved(g, choice), g.busy.value, Given(g.m.th[t]).value, m'.th[t].ret.res,
                     g.m.th[t].ctl.PushSecond?);
      }
    }
  }

  lemma PolicyWorker<E>(g: Gate<E>, t: Tid, choice: Choice<E>)
    requires Enabled(g, Turn(t, choice)) && QueueInv(g) && PolicyInv(g) && t != g.reactor
    ensures var g' := Step(g, Turn(t, choice)); g'.reactor == g.reactor < |g'.m.th| && PolicyInv(g')
  {
    TurnFields(g, t, choice);
    PolicyKept(g.m, t, choice);
    OtherMoves(g.m, t, choice, g.reactor);
  }

  lemma PolicyReactor<E>(g: Gate<E>, choice: Choice<E>)
    requires Enabled(g, Turn(g.reactor, choice)) && QueueInv(g) && PolicyInv(g)
    ensures var g' := Step(g, Turn(g.reactor, choice)); g'.reactor == g.reactor < |g'.m.th| && PolicyInv(g')
  {
    TurnFields(g, g.reactor, choice);
    PlainTurn(g.m, g.reactor, choice);
    if Next(g.m, g.reactor, choice).th[g.reactor].ctl.Free? { PolicyReturns(g, choice); }
  }

  lemma PolicyPush<E>(g: Gate<E>, c: nat, e: E)
    requires QueueInv(g) && g.busy.None?
    ensures var g' := Push(g, c, e);
            && g.reactor < |g'.m.th| && g'.m.env.policy == g.m.env.policy && Plain(g'.m.th[g.reactor], g.m.env.policy)
            && g'.refused == g.refused && g'.abandoned == g.abandoned && g'.conns == g.conns
            && g'.counters == g.counters
  {
    PolicyKept(g.m, g.reactor, Choice(e, false, e, 0));
    PushBegins(g.m, g.reactor, e, g.counters, g.lost, g.held);
  }

  lemma PolicyStep<E>(g: Gate<E>, m: Move<E>)
    requires Enabled(g, m) && QueueInv(g) && PolicyInv(g)
    ensures var g' := Step(g, m); g'.reactor == g.reactor < |g'.m.th| && PolicyInv(g')
  {
    match m
    case Line(c, parsed) =>
      if parsed.Some? { PolicyPush(g.(lines := g.lines + [parsed.value]), c, parsed.value); }
    case Timer(c, error) => if !error { PolicyPush(g, c, g.conns[c].e); }
    case Turn(t, choice) => if t == g.reactor { PolicyReactor(g, choice); } else { PolicyWorker(g, t, choice); }
    case _ =>
  }

  lemma PolicySteps<E(!new)>(g: Gate<E>, g': Gate<E>)
    requires Steps(g, g') && QueueInv(g) && PolicyInv(g)
    ensures g'.reactor < |g'.m.th| && PolicyInv(g')
  {
    var m :| Enabled(g, m) && g' == Step(g, m);
    PolicyStep(g, m);
  }

  /** What each policy promises with the lock-free queue, over every run. Block: nothing is refused and nothing
      counted as evicted. DropNewest: nothing is counted as evicted and nobody waits for a retry. DropOldest:
      nothing is refused. */
  lemma PolicyPromises<E(!new)>(run: seq<Gate<E>>, i: nat, x: E)
    requires IsGateRun(run) && i < |run|
    ensures var g := run[i];
            PolicyFits(g.m.env.policy, g.refused, g.abandoned, g.conns, g.counters)
            && |g.refused| == g.counters.droppedNewest
  {
    var inv := (g: Gate<E>) => g.reactor < |g.m.th| && PolicyInv(g);
    forall k: nat | k < i && inv(run[k]) ensures inv(run[k + 1]) {
      assert StepsAt(run, k);
      GateHolds(run, k, x);
      PolicySteps(run[k], run[k + 1]);
    }
    Along(run, inv, 0, i);
    GateHolds(run, i, x);
  }

  // ---- the results ----

  /** Items taken by workers, and items queued. */
  ghost function TakenByWorkers<E>(g: Gate<E>): int
  {
    g.m.ring.deq - EvictedBy(g.m.ring, g.reactor)
  }

  ghost function StillQueued<E>(g: Gate<E>): int
  {
    g.m.ring.enq - g.m.ring.deq
  }

  /** Event conservation with the lock-free queue, at every moment of every run and under every policy.
      Lines read = accepted + dropped_oldest + dropped_newest + abandoned + pending retry, plus one while a
      line just read is being pushed; and value by value each line is claimed at one position of the
      queue's global order or in one of those places. But popped + queued = accepted needs a further term:
      the events that push() evicted before it reported rejection. No counter has them. */
  lemma EventsConserved<E(!new)>(run: seq<Gate<E>>, i: nat, x: E)
    requires IsGateRun(run) && i < |run|
    ensures var g := run[i];
            && g.reactor < |g.m.th|
            && |g.lines| == g.counters.accepted + g.counters.droppedOldest + g.counters.droppedNewest + |g.abandoned|
                            + Count(g.conns, G.IsRetrying) + One(JustRead(g.conns, g.busy))
            && TakenByWorkers(g) + StillQueued(g) + g.lost + One(HasEvicted(g.m.th[g.reactor]))
               == g.counters.accepted + One(Won(g.m.th[g.reactor]))
            && LinesOf(g, x)
  {
    GateHolds(run, i, x);
  }

  /** Between callbacks popped + queued = accepted if and only if no second try_push has ever met a
      position one lap back that a worker held; each that did is one event missing. */
  lemma CountersBalanceIff<E(!new)>(run: seq<Gate<E>>, i: nat, x: E)
    requires IsGateRun(run) && i < |run| && run[i].busy.None?
    ensures TakenByWorkers(run[i]) + StillQueued(run[i]) + run[i].held == run[i].counters.accepted
    ensures TakenByWorkers(run[i]) + StillQueued(run[i]) == run[i].counters.accepted <==> run[i].held == 0
  {
    KnownAt(run, i, x);
  }
}
