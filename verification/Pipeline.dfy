/** The whole way from a line read by the gateway to a row in the table: the gateway pipeline feeding the
    HTTP sink, the sink feeding the backend. Whenever the batcher flushes, the flushed events are what
    consume() is given; everything else interleaves freely. A row stands for the event it was made
    from. */
module Pipelines {
  import opened Tally
  import B = Backends
  import H = HttpSinks
  import S = EndToEnd
  import G = Gateways

  datatype Pipeline<E> = Pipeline(g: G.Gateway<E>, sys: S.System<E>)

  /** What a gateway step handed to the sink. */
  ghost function Flushed<E>(g: G.Gateway<E>, g': G.Gateway<E>): seq<E>
  {
    if |g.sink| <= |g'.sink| then g'.sink[|g.sink|..] else []
  }

  /** The sink's side of a gateway step: consume() of what was flushed, if anything. */
  ghost function Fed<E>(sys: S.System<E>, flushed: seq<E>): S.System<E>
  {
    var e := S.Consumes(B.Batch(flushed, 0));
    if flushed != [] && S.Possible(sys, e) then S.Happen(sys, e) else sys
  }

  ghost predicate GatewayStep<E>(p: Pipeline<E>, p': Pipeline<E>, m: G.Move<E>)
  {
    && p.g.capacity > 0 && G.Enabled(p.g, m) && p'.g == G.Next(p.g, m)
    && p'.sys == Fed(p.sys, Flushed(p.g, p'.g))
  }

  ghost predicate SystemStep<E>(p: Pipeline<E>, p': Pipeline<E>, e: S.Event<E>)
  {
    !e.Consumes? && S.Possible(p.sys, e) && p'.sys == S.Happen(p.sys, e) && p'.g == p.g
  }

  ghost predicate Steps<E(!new)>(p: Pipeline<E>, p': Pipeline<E>)
  {
    (exists m :: GatewayStep(p, p', m)) || (exists e :: SystemStep(p, p', e))
  }

  ghost predicate StepAt<E(!new)>(run: seq<Pipeline<E>>, i: nat)
  {
    i + 1 < |run| && Steps(run[i], run[i + 1])
  }

  ghost predicate IsRun<E(!new)>(run: seq<Pipeline<E>>)
  {
    run != [] && G.Start(run[0].g) && S.Start(run[0].sys) && forall i: nat :: i + 1 < |run| ==> StepAt(run, i)
  }

  // ---- batches carry what was flushed ----

  /** How often x occurs in the batch of a key. */
  ghost function Weight<E>(content: map<B.Key, B.Batch<E>>, x: E): B.Key -> nat
  {
    (k: B.Key) => if k in content then Count(content[k].valid, Is(x)) else 0
  }

  lemma {:induction false} UpToFrame(f: B.Key -> nat, f': B.Key -> nat, n: nat)
    requires forall k: B.Key :: k < n ==> f'(k) == f(k)
    ensures H.UpTo(f', n) == H.UpTo(f, n)
  {
    if n > 0 { UpToFrame(f, f', n - 1); }
  }

  /** Every copy of x at the gateway's sink is in some minted batch, and nothing else is. */
  ghost predicate FedInv<E>(p: Pipeline<E>, x: E)
  {
    Count(p.g.sink, Is(x)) == H.UpTo(Weight(p.sys.b.content, x), p.sys.s.minted)
  }

  lemma MintWeighs<E>(content: map<B.Key, B.Batch<E>>, n: nat, batch: B.Batch<E>, x: E)
    requires n !in content
    ensures H.UpTo(Weight(content[n := batch], x), n + 1) == H.UpTo(Weight(content, x), n) + Count(batch.valid, Is(x))
  {
    UpToFrame(Weight(content, x), Weight(content[n := batch], x), n);
  }

  /** A gateway step only ever appends to what the sink was handed. */
  lemma SinkGrows<E>(g: G.Gateway<E>, m: G.Move<E>)
    requires g.capacity > 0 && G.Enabled(g, m)
    ensures |g.sink| <= |G.Next(g, m).sink| && G.Next(g, m).sink == g.sink + Flushed(g, G.Next(g, m))
  {
  }

  lemma FedCount<E>(sink: seq<E>, flushed: seq<E>, content: map<B.Key, B.Batch<E>>, n: nat, x: E)
    requires n !in content && Count(sink, Is(x)) == H.UpTo(Weight(content, x), n)
    ensures Count(sink + flushed, Is(x)) ==
            if flushed == [] then H.UpTo(Weight(content, x), n)
            else H.UpTo(Weight(content[n := B.Batch(flushed, 0)], x), n + 1)
  {
    CountConcat(sink, flushed, Is(x));
    FedWeighs(content, n, flushed, x);
  }

  lemma FedByGateway<E>(g: G.Gateway<E>, sys: S.System<E>, flushed: seq<E>, x: E)
    requires S.SystemInv(sys) && FedInv(Pipeline(g, sys), x)
    ensures FedInv(Pipeline(g.(sink := g.sink + flushed), Fed(sys, flushed)), x)
  {
    FedMints(sys, flushed);
    FedCount(g.sink, flushed, sys.b.content, sys.s.minted, x);
  }

  /** consume() mints the next key for exactly what was flushed. */
  lemma FedMints<E>(sys: S.System<E>, flushed: seq<E>)
    requires S.SystemInv(sys)
    ensures sys.s.minted !in sys.b.content
    ensures Fed(sys, flushed).b.content ==
            if flushed == [] then sys.b.content else sys.b.content[sys.s.minted := B.Batch(flushed, 0)]
    ensures Fed(sys, flushed).s.minted == sys.s.minted + One(flushed != [])
  {
  }

  lemma FedWeighs<E>(content: map<B.Key, B.Batch<E>>, n: nat, flushed: seq<E>, x: E)
    requires n !in content
    ensures flushed == [] ==> Count(flushed, Is(x)) == 0
    ensures flushed != [] ==>
              H.UpTo(Weight(content[n := B.Batch(flushed, 0)], x), n + 1)
              == H.UpTo(Weight(content, x), n) + Count(flushed, Is(x))
  {
    if flushed != [] { MintWeighs(content, n, B.Batch(flushed, 0), x); }
  }

  /** Nothing but consume() mints a batch. */
  lemma ContentKept<E>(sys: S.System<E>, e: S.Event<E>)
    requires S.Possible(sys, e) && !e.Consumes?
    ensures S.Happen(sys, e).b.content == sys.b.content && S.Happen(sys, e).s.minted == sys.s.minted
  {
    if e.OfBackend? { S.StepKeepsAttempts(sys.b, e.m); }
  }

  // ---- runs ----

  ghost predicate PipelineInv<E(!new)>(p: Pipeline<E>)
  {
    G.GatewayInv(p.g) && S.SystemInv(p.sys)
  }

  lemma Start<E(!new)>(p: Pipeline<E>, f: B.Key -> nat, x: E)
    requires G.Start(p.g) && S.Start(p.sys)
    ensures PipelineInv(p) && H.LedgerInv(p.sys.s, f) && FedInv(p, x)
  {
    G.StartHolds(p.g);
    S.StartHolds(p.sys, 0);
    S.HandsEmpty(p.sys.s.threads, f);
  }

  lemma FedHappens<E(!new)>(sys: S.System<E>, flushed: seq<E>, f: B.Key -> nat)
    requires S.SystemInv(sys)
    ensures S.SystemInv(Fed(sys, flushed)) && (H.LedgerInv(sys.s, f) ==> H.LedgerInv(Fed(sys, flushed).s, f))
  {
    var e := S.Consumes(B.Batch(flushed, 0));
    if flushed != [] && S.Possible(sys, e) {
      assert S.Happens(sys, Fed(sys, flushed));
      S.HappensKeeps(sys, Fed(sys, flushed));
      if H.LedgerInv(sys.s, f) { S.LedgerHappens(sys, Fed(sys, flushed), f); }
    }
  }

  lemma StepKeeps<E(!new)>(p: Pipeline<E>, p': Pipeline<E>, f: B.Key -> nat, x: E)
    requires Steps(p, p') && PipelineInv(p)
    ensures PipelineInv(p')
    ensures H.LedgerInv(p.sys.s, f) ==> H.LedgerInv(p'.sys.s, f)
    ensures FedInv(p, x) ==> FedInv(p', x)
  {
    if m :| GatewayStep(p, p', m) {
      GatewayKeeps(p.g, p'.g, m);
      FedHappens(p.sys, Flushed(p.g, p'.g), f);
      SinkGrows(p.g, m);
      if FedInv(p, x) { FedByGateway(p.g, p.sys, Flushed(p.g, p'.g), x); }
    } else {
      var e :| SystemStep(p, p', e);
      assert S.Happens(p.sys, p'.sys);
      S.HappensKeeps(p.sys, p'.sys);
      if H.LedgerInv(p.sys.s, f) { S.LedgerHappens(p.sys, p'.sys, f); }
      ContentKept(p.sys, e);
    }
  }

  lemma GatewayKeeps<E(!new)>(g: G.Gateway<E>, g': G.Gateway<E>, m: G.Move<E>)
    requires g.capacity > 0 && G.Enabled(g, m) && g' == G.Next(g, m) && G.GatewayInv(g)
    ensures G.GatewayInv(g')
  {
    G.NextKeeps(g, m);
  }

  lemma Reachable<E(!new)>(run: seq<Pipeline<E>>, i: nat, f: B.Key -> nat, x: E)
    requires IsRun(run) && i < |run|
    ensures PipelineInv(run[i]) && H.LedgerInv(run[i].sys.s, f) && FedInv(run[i], x)
  {
    var inv := (p: Pipeline<E>) => PipelineInv(p) && H.LedgerInv(p.sys.s, f) && FedInv(p, x);
    Start(run[0], f, x);
    forall k: nat | k < i && inv(run[k]) ensures inv(run[k + 1]) {
      assert StepAt(run, k);
      StepKeeps(run[k], run[k + 1], f, x);
    }
    Along(run, inv, 0, i);
  }

  // ---- the results ----

  lemma {:induction false} GatherWeighs<E>(keys: seq<B.Key>, content: map<B.Key, B.Batch<E>>, x: E)
    ensures Gather(keys, S.RowsIn(content))[x] == Sum(keys, Weight(content, x))
  {
    if keys != [] {
      GatherWeighs(keys[1..], content, x);
      if keys[0] in content { CountIsMultiplicity(content[keys[0]].valid, x); }
      assert S.RowsIn(content)(keys[0])[x] == Weight(content, x)(keys[0]);
    }
  }

  /** What the sink counts as sent is in the table, copy by copy. */
  lemma SentCopiesStored<E(!new)>(run: seq<Pipeline<E>>, i: nat, x: E)
    requires IsRun(run) && i < |run|
    ensures var sys := run[i].sys; Sum(sys.s.sentKeys, Weight(sys.b.content, x)) <= B.Table(sys.b)[x]
  {
    var sys := run[i].sys;
    Reachable(run, i, Weight(sys.b.content, x), x);
    forall k: B.Key ensures H.InOnePlace(sys.s, k) {
      Reachable(run, i, H.Only(k), x);
      H.LedgerPerKey(sys.s, k);
    }
    S.SentRowsStored(sys);
    GatherWeighs(sys.s.sentKeys, sys.b.content, x);
  }

  /** From line to row, at every moment of every run: each well-formed line carrying x is in the
      event queue, in a worker's hands, in the batcher, in a batch that is queued, in hand, sent or
      lost, or was evicted, refused, abandoned or is waiting for a retry; exactly one of these. And
      every copy in a batch counted as sent is a row of the table. */
  lemma LinesToRows<E(!new)>(run: seq<Pipeline<E>>, i: nat, x: E)
    requires IsRun(run) && i < |run|
    ensures var g, s, f := run[i].g, run[i].sys.s, Weight(run[i].sys.b.content, x);
            && Count(g.lines, Is(x)) ==
                 Count(g.queue, Is(x)) + Count(g.workers, G.HoldingIs(x)) + Count(g.buffer, Is(x))
                 + Sum(s.queue, f) + Sum(s.threads, H.Hand(f)) + Sum(s.sentKeys, f) + Sum(s.lostKeys, f)
                 + Count(g.evicted, Is(x)) + Count(g.refused, Is(x)) + Count(g.abandoned, Is(x))
                 + Count(g.conns, G.PendingIs(x))
            && Sum(s.sentKeys, f) <= B.Table(run[i].sys.b)[x]
  {
    Reachable(run, i, Weight(run[i].sys.b.content, x), x);
    assert G.LinesAt(run[i].g, x, 0) && G.PoppedAt(run[i].g, x);
    SentCopiesStored(run, i, x);
  }

  /** After a complete stop (workers and sink threads gone, the batcher flushed, nothing consumed
      late) every line is stored unless it is accounted for as a loss: evicted, refused, abandoned or
      pending at the gateway, or part of a batch the sink counted as dropped. */
  lemma StoppedLinesStored<E(!new)>(run: seq<Pipeline<E>>, i: nat, x: E)
    requires IsRun(run) && i < |run| && run[i].g.workers != [] && run[i].g.buffer == []
    requires forall w :: 0 <= w < |run[i].g.workers| ==> run[i].g.workers[w].Gone?
    requires run[i].sys.s.threads != [] && !run[i].sys.s.consumedLate
    requires forall t :: 0 <= t < |run[i].sys.s.threads| ==> run[i].sys.s.threads[t].job.Exited?
    ensures var g, s, f := run[i].g, run[i].sys.s, Weight(run[i].sys.b.content, x);
            Count(g.lines, Is(x)) <=
              B.Table(run[i].sys.b)[x] + Sum(s.lostKeys, f)
              + Count(g.evicted, Is(x)) + Count(g.refused, Is(x)) + Count(g.abandoned, Is(x))
              + Count(g.conns, G.PendingIs(x))
  {
    var f := Weight(run[i].sys.b.content, x);
    LinesToRows(run, i, x);
    Reachable(run, i, f, x);
    GatewayEmpty(run[i].g, x);
    SinkEmpty(run[i].sys.s, f);
  }

  lemma GatewayEmpty<E(!new)>(g: G.Gateway<E>, x: E)
    requires G.DrainInv(g) && g.workers != [] && forall w :: 0 <= w < |g.workers| ==> g.workers[w].Gone?
    ensures g.queue == [] && Count(g.workers, G.HoldingIs(x)) == 0
  {
    CountZero(g.workers, G.HoldingIs(x));
    assert g.workers[0].Gone?;
  }

  lemma SinkEmpty(s: H.Sink, f: B.Key -> nat)
    requires H.SinkInv(s) && s.threads != [] && !s.consumedLate
    requires forall t :: 0 <= t < |s.threads| ==> s.threads[t].job.Exited?
    ensures s.queue == [] && Sum(s.threads, H.Hand(f)) == 0
  {
    S.HandsEmpty(s.threads, f);
    assert s.threads[0].job.Exited?;
  }
}
