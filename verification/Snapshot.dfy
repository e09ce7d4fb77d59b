/** The final snapshot of the gateway: it is taken when the pool has stopped and the batcher was flushed,
    before the sink is stopped, and its batch counters need not balance. */
module Snapshots {
  import opened QueueTypes
  import B = Backends
  import S = EndToEnd
  import G = Gateways
  import P = Pipelines

  ghost predicate Leads<E(!new)>(run: seq<P.Pipeline<E>>, first: P.Pipeline<E>, last: P.Pipeline<E>)
  {
    && run != [] && run[0] == first && run[|run| - 1] == last
    && forall i: nat :: i + 1 < |run| ==> P.StepAt(run, i)
  }

  ghost predicate Reaches<E(!new)>(first: P.Pipeline<E>, last: P.Pipeline<E>)
  {
    exists run :: Leads(run, first, last)
  }

  lemma Then<E(!new)>(first: P.Pipeline<E>, p: P.Pipeline<E>, m: G.Move<E>) returns (p': P.Pipeline<E>)
    requires Reaches(first, p) && p.g.capacity > 0 && G.Enabled(p.g, m)
    ensures p' == P.Pipeline(G.Next(p.g, m), P.Fed(p.sys, P.Flushed(p.g, G.Next(p.g, m)))) && Reaches(first, p')
  {
    p' := P.Pipeline(G.Next(p.g, m), P.Fed(p.sys, P.Flushed(p.g, G.Next(p.g, m))));
    var run :| Leads(run, first, p);
    var run' := run + [p'];
    forall i: nat | i + 1 < |run'| ensures P.StepAt(run', i) {
      if i + 1 < |run| {
        assert P.StepAt(run, i);
      } else {
        assert run'[i] == p && P.GatewayStep(p, p', m);
      }
    }
    assert Leads(run', first, p');
  }

  /** Nothing is left to do for the workers but to leave. */
  ghost predicate Drained<E>(g: G.Gateway<E>)
  {
    && g.capacity > 0 && g.stopped && g.shut && g.queue == [] && g.buffer == []
    && forall w :: 0 <= w < |g.workers| ==> !g.workers[w].Holding?
  }

  /** The workers from n on leave one after the other. */
  lemma {:induction false} AllLeave<E(!new)>(first: P.Pipeline<E>, p: P.Pipeline<E>, n: nat) returns (p': P.Pipeline<E>)
    requires Reaches(first, p) && Drained(p.g) && n <= |p.g.workers|
    requires forall w :: 0 <= w < n ==> p.g.workers[w].Gone?
    ensures Reaches(first, p') && Drained(p'.g) && p'.sys == p.sys && |p'.g.workers| == |p.g.workers|
    ensures forall w :: 0 <= w < |p'.g.workers| ==> p'.g.workers[w].Gone?
    decreases |p.g.workers| - n
  {
    if n == |p.g.workers| {
      p' := p;
    } else {
      var p1 := Then(first, p, G.Work(n, false));
      p' := AllLeave(first, p1, n + 1);
    }
  }

  /** A line is read, everything stops, and a worker takes the line through the batcher. */
  lemma OneLine<E(!new)>(first: P.Pipeline<E>, x: E) returns (p: P.Pipeline<E>)
    requires G.Start(first.g) && S.Start(first.sys) && first.g.workers != []
    ensures Reaches(first, p) && Drained(p.g) && |p.g.workers| == |first.g.workers|
    ensures p.sys == S.Happen(first.sys, S.Consumes(B.Batch([x], 0)))
  {
    var p1 := ReadAndStop(first, x);
    var p2 := Then(first, p1, G.Work(0, true));
    assert p2.g.queue == [] && p2.g.workers[0] == G.Holding(x);
    p := Then(first, p2, G.Work(0, true));
    assert P.Flushed(p2.g, p.g) == [x];
  }

  lemma ReadAndStop<E(!new)>(first: P.Pipeline<E>, x: E) returns (p: P.Pipeline<E>)
    requires G.Start(first.g) && S.Start(first.sys)
    ensures Reaches(first, p) && p.sys == first.sys && p.g.capacity == first.g.capacity && p.g.stopped && p.g.shut
    ensures p.g.queue == [x] && p.g.buffer == [] && p.g.sink == [] && p.g.workers == first.g.workers
  {
    assert Leads([first], first, first);
    var p1 := Then(first, first, G.Accept);
    var p2 := Then(first, p1, G.Line(0, Some(x)));
    var p3 := Then(first, p2, G.StopReactor);
    p := Then(first, p3, G.StopPool);
  }

  /** From every initial pipeline with a worker, whatever capacities, policies and sink threads: a run
      that ends where the snapshot is taken, every worker gone and the batcher flushed, with one batch
      consumed and none sent or dropped. */
  lemma SnapshotUnbalanced<E(!new)>(first: P.Pipeline<E>, x: E) returns (run: seq<P.Pipeline<E>>)
    requires G.Start(first.g) && S.Start(first.sys) && first.g.workers != []
    ensures P.IsRun(run) && run[0] == first
    ensures var g, s := run[|run| - 1].g, run[|run| - 1].sys.s;
            && g.stopped && g.shut && g.buffer == [] && (forall w :: 0 <= w < |g.workers| ==> g.workers[w].Gone?)
            && s.stats.consumed == 1 && s.stats.sent == s.stats.droppedOutbound == s.stats.droppedExhausted == 0
  {
    var p := OneLine(first, x);
    var p1 := AllLeave(first, p, 0);
    var p2 := Then(first, p1, G.PeriodicFlush);
    run :| Leads(run, first, p2);
  }
}
