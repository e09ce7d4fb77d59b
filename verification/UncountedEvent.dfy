/** Every run of the lock-free queue with one producer is the queue's part of a gateway run; so an event can
    be evicted that no counter has. */
module UncountedEvents {
  import opened QueueTypes
  import opened Tally
  import opened Rings
  import opened LockFreeMachine
  import opened Parking
  import opened PushVerdict
  import opened Executions
  import opened DropOldestRuns
  import opened LockFreeGateways

  lemma Grow<E(!new)>(gs: seq<Gate<E>>, mv: Move<E>) returns (gs': seq<Gate<E>>)
    requires IsGateRun(gs) && Enabled(gs[|gs| - 1], mv)
    ensures IsGateRun(gs') && gs' == gs + [Step(gs[|gs| - 1], mv)]
  {
    gs' := gs + [Step(gs[|gs| - 1], mv)];
    forall i: nat | i + 1 < |gs'| ensures StepsAt(gs', i) {
      if i + 1 < |gs| {
        assert StepsAt(gs, i);
      } else {
        assert gs'[i] == gs[|gs| - 1] && Steps(gs'[i], Step(gs'[i], mv));
      }
    }
  }

  /** The gateway g has come from g0 without forgetting what it counted as accepted, and its queue is m. */
  ghost predicate Onwards<E>(g0: Gate<E>, g: Gate<E>, m: Machine<E>)
  {
    g.m == m && g.reactor == g0.reactor && g.counters.accepted >= g0.counters.accepted
  }

  /** The reactor calls push() for a line on a fresh connection. */
  lemma Calls<E(!new)>(gs: seq<Gate<E>>, c: Choice<E>) returns (gs': seq<Gate<E>>)
    requires IsGateRun(gs) && Enabled(gs[|gs| - 1], Accept)
    requires var g := gs[|gs| - 1]; g.m.th[g.reactor].ctl.Free? && g.m.th[g.reactor].op.NoOp?
    requires var g := gs[|gs| - 1]; g.m.th[g.reactor].role.Producer?
    ensures var g := gs[|gs| - 1]; IsGateRun(gs') && gs <= gs' && Onwards(g, gs'[|gs'| - 1], Next(g.m, g.reactor, c))
  {
    var g := gs[|gs| - 1];
    var gs1 := Grow(gs, Accept);
    gs' := Grow(gs1, Line(|g.conns|, Some(c.item)));
    assert Next(g.m, g.reactor, c) == Next(g.m, g.reactor, Choice(c.item, false, c.item, 0));
  }

  lemma Turns<E(!new)>(gs: seq<Gate<E>>, t: Tid, c: Choice<E>) returns (gs': seq<Gate<E>>)
    requires IsGateRun(gs) && Enabled(gs[|gs| - 1], Turn(t, c))
    ensures IsGateRun(gs') && gs <= gs' && Onwards(gs[|gs| - 1], gs'[|gs'| - 1], Next(gs[|gs| - 1].m, t, c))
  {
    gs' := Grow(gs, Turn(t, c));
  }

  ghost predicate Made<E>(m: Machine<E>, t: Tid, c: Choice<E>, m': Machine<E>)
  {
    Shaped(m.ring) && t < |m.th| && m' == Next(m, t, c)
  }

  lemma WhoMoved<E(!new)>(m: Machine<E>, m': Machine<E>) returns (t: Tid, c: Choice<E>)
    requires IsStep(m, m')
    ensures Made(m, t, c, m')
  {
    t, c :| 0 <= t < |m.th| && m' == Next(m, t, c);
  }

  lemma FollowsNext<E(!new)>(gs: seq<Gate<E>>, t: Tid, c: Choice<E>, m': Machine<E>) returns (gs': seq<Gate<E>>)
    requires IsGateRun(gs) && Known(gs[|gs| - 1]) && Made(gs[|gs| - 1].m, t, c, m')
    ensures IsGateRun(gs') && gs <= gs' && Onwards(gs[|gs| - 1], gs'[|gs'| - 1], m')
  {
    if t == gs[|gs| - 1].reactor && gs[|gs| - 1].busy.None? {
      gs' := Calls(gs, c);
    } else {
      gs' := Turns(gs, t, c);
    }
  }

  lemma LastKnown<E(!new)>(gs: seq<Gate<E>>, x: E)
    requires IsGateRun(gs)
    ensures Known(gs[|gs| - 1])
  {
    KnownAt(gs, |gs| - 1, x);
  }

  /** Whatever the queue does next, the gateway can be what makes it do so. */
  lemma Follows<E(!new)>(gs: seq<Gate<E>>, m: Machine<E>, m': Machine<E>) returns (gs': seq<Gate<E>>)
    requires IsGateRun(gs) && m == gs[|gs| - 1].m && IsStep(m, m')
    ensures IsGateRun(gs') && gs <= gs' && Onwards(gs[|gs| - 1], gs'[|gs'| - 1], m')
  {
    var t, c := WhoMoved(m, m');
    LastKnown(gs, c.item);
    gs' := FollowsNext(gs, t, c, m');
  }

  lemma {:induction false} FollowsAll<E(!new)>(gs: seq<Gate<E>>, run: seq<Machine<E>>, n: nat)
    returns (gs': seq<Gate<E>>)
    requires IsGateRun(gs) && n < |run| && run[0] == gs[|gs| - 1].m && forall i: nat :: i + 1 < |run| ==> StepAt(run, i)
    ensures IsGateRun(gs') && gs <= gs' && Onwards(gs[|gs| - 1], gs'[|gs'| - 1], run[n])
    decreases n
  {
    if n == 0 {
      gs' := gs;
    } else {
      var gs1 := FollowsAll(gs, run, n - 1);
      assert StepAt(run, n - 1);
      gs' := Follows(gs1, run[n - 1], run[n]);
    }
  }

  lemma Opens<E(!new)>(m0: Machine<E>, reactor: Tid) returns (gs: seq<Gate<E>>)
    requires Init(m0) && OneProducer(m0.th, reactor)
    ensures IsGateRun(gs) && |gs| == 1 && gs[0].m == m0 && gs[0].reactor == reactor
  {
    gs := [Gate(m0, reactor, [], None, G.Counters(0, 0, 0, 0), [], [], [], 0, 0)];
  }

  /** Every run of the queue with one producer is the queue's part of a run of the gateway. */
  lemma QueueRunIsGateRun<E(!new)>(run: seq<Machine<E>>, reactor: Tid) returns (gs: seq<Gate<E>>)
    requires IsRun(run) && OneProducer(run[0].th, reactor)
    ensures IsGateRun(gs) && gs[0].m == run[0] && gs[|gs| - 1].m == run[|run| - 1] && gs[0].reactor == reactor
  {
    gs := Opens(run[0], reactor);
    gs := FollowsAll(gs, run, |run| - 1);
  }

  /** The gateway follows its queue from m to m'. */
  lemma FollowsChain<E(!new)>(gs: seq<Gate<E>>, m': Machine<E>) returns (gs': seq<Gate<E>>)
    requires IsGateRun(gs) && Reaches(gs[|gs| - 1].m, m')
    ensures IsGateRun(gs') && gs <= gs' && Onwards(gs[|gs| - 1], gs'[|gs'| - 1], m')
  {
    var run :| Chain(run, gs[|gs| - 1].m, m');
    gs' := FollowsAll(gs, run, |run| - 1);
  }

  /** What the counters say of a gateway between callbacks. */
  lemma AtRest<E(!new)>(gs: seq<Gate<E>>, x: E)
    requires IsGateRun(gs)
    requires var g := gs[|gs| - 1]; g.reactor < |g.m.th| && g.m.th[g.reactor].ctl.Free?
    ensures var g := gs[|gs| - 1];
            && g.busy.None? && g.m.ring.enq == g.counters.accepted + g.counters.droppedOldest
            && EvictedBy(g.m.ring, g.reactor) == g.counters.droppedOldest + g.lost && g.held == g.lost
  {
    LastKnown(gs, x);
  }

  /** From every initial DropOldest machine with one producer and a consumer, whatever its capacity and the
      other workers: a run of the gateway at whose end, between callbacks, nothing was counted as dropped
      and one event fewer is popped or queued than was accepted. */
  lemma EvictedEventUncounted<E(!new)>(m0: Machine<E>, p: Tid, c: Tid) returns (gs: seq<Gate<E>>)
    requires Init(m0) && OneProducer(m0.th, p) && c < |m0.th| && m0.th[c].role.Consumer?
    requires m0.env.policy.DropOldest? && m0.env.spins > 0
    ensures IsGateRun(gs) && gs[0].m == m0
    ensures var g := gs[|gs| - 1];
            && g.busy.None? && g.counters.droppedOldest == 0 && g.lost == g.held == 1
            && TakenByWorkers(g) + StillQueued(g) + 1 == g.counters.accepted
  {
    var x := m0.ring.store[0];
    var full, lost := StalledConsumerLosesAnItem(m0, p, c);
    var gs0 := Opens(m0, p);
    var gs1 := FollowsChain(gs0, full);
    AtRest(gs1, x);
    gs := FollowsChain(gs1, lost);
    AtRest(gs, x);
    TwoPops(full.ring, lost.ring, p, c);
  }

  lemma TwoPops<E>(full: Ring<E>, lost: Ring<E>, p: Tid, c: Tid)
    requires c != p && full.poppedBy == [] && lost.poppedBy == [c, p]
    ensures EvictedBy(full, p) == 0 && EvictedBy(lost, p) == 1
  {
    CountAppend([], c, Is(p));
    CountAppend([c], p, Is(p));
    assert [] + [c] == [c] && [c] + [p] == [c, p];
  }
}
