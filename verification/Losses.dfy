/** Why a batch is lost: over every history, a sink thread gives a batch up only past the drain deadline,
    after a status that retrying cannot help, or after all its retries; and batches_retried counts them. */
module Losses {
  import opened QueueTypes
  import opened Tally
  import opened Backends
  import opened HttpSinks
  import opened EndToEnd

  // ---- one step ----

  /** The status a thread reads in this step, if it reads one. */
  ghost function StatusRead<Row>(sys: System<Row>, t: nat, w: Weather): Option<nat>
    requires t < |sys.s.threads|
  {
    if sys.s.threads[t].job.Exchanging? && !w.fails then ReplyFor(sys.b, sys.s.threads[t], w) else None
  }

  /** An attempt fails in a way that may pass: refused, lost, or answered 5xx or 429. */
  ghost predicate FailsForNow<Row>(sys: System<Row>, t: nat, w: Weather)
    requires t < |sys.s.threads|
  {
    var th, status := sys.s.threads[t], StatusRead(sys, t, w);
    || (w.fails && (th.job.Exchanging? || (th.job.Ready? && !th.conn.live)))
    || (status.Some? && (status.value >= 500 || status.value == 429))
  }

  /** The thread's step gives its batch up. */
  ghost predicate GivesUp<Row>(sys: System<Row>, t: nat, w: Weather)
    requires t < |sys.s.threads|
  {
    var th, status := sys.s.threads[t], StatusRead(sys, t, w);
    || (th.job.Held? && sys.s.stopping && sys.s.late)
    || (status.Some? && !(200 <= status.value < 300) && status.value < 500 && status.value != 429)
    || (FailsForNow(sys, t, w) && th.job.tries >= sys.s.maxRetries)
  }

  /** A thread's step loses its batch if and only if it gives it up, and tries again if and only if an
      attempt failed for now with tries left; the counters follow. */
  lemma StepLosesIff<Row>(sys: System<Row>, t: nat, w: Weather)
    requires Possible(sys, OfSink(t, w)) && SystemInv(sys)
    ensures var s, s', th := sys.s, Happen(sys, OfSink(t, w)).s, sys.s.threads[t];
            && |s'.threads| == |s.threads|
            && (GivesUp(sys, t, w) ==> InHand(th))
            && s'.lostKeys == (if GivesUp(sys, t, w) then s.lostKeys + [th.job.k] else s.lostKeys)
            && s'.stats.droppedExhausted == s.stats.droppedExhausted + One(GivesUp(sys, t, w))
            && s'.stats.droppedOutbound == s.stats.droppedOutbound
            && s'.stats.retried == s.stats.retried + One(FailsForNow(sys, t, w) && th.job.tries < s.maxRetries)
            && (FailsForNow(sys, t, w) && th.job.tries < s.maxRetries <==> TriesAgain(th, s'.threads[t]))
  {
    EffectFits(sys, t, w);
    ThreadDecides(sys, t, w);
  }

  /** A thread goes from one attempt to the next. */
  ghost predicate TriesAgain(th: SinkThread, th': SinkThread)
  {
    (th.job.Ready? || th.job.Exchanging?) && th'.job == Ready(th.job.k, th.job.tries + 1)
  }

  lemma ThreadDecides<Row>(sys: System<Row>, t: nat, w: Weather)
    requires Possible(sys, OfSink(t, w)) && Disciplined(sys.s.threads[t], sys.s.maxRetries)
    ensures var e, th := ThreadEffect(sys, t, w), sys.s.threads[t];
            && (GivesUp(sys, t, w) ==> InHand(th))
            && (e.tick.TickExhausted? <==> GivesUp(sys, t, w))
            && (e.tick.TickRetried? <==> FailsForNow(sys, t, w) && th.job.tries < sys.s.maxRetries)
            && (e.tick.TickRetried? <==> TriesAgain(th, e.th))
  {
  }

  // ---- over histories ----

  ghost predicate RetriesKey(s: Sink, s': Sink, k: Key)
  {
    exists t ::
      0 <= t < |s.threads| && t < |s'.threads| && Holds(k)(s.threads[t]) && TriesAgain(s.threads[t], s'.threads[t])
  }

  ghost function RetryStep<Row>(k: Key): (System<Row>, System<Row>) -> nat
  {
    (sys: System<Row>, sys': System<Row>) => One(RetriesKey(sys.s, sys'.s, k))
  }

  /** How often the batch was tried again in the first i steps. */
  ghost function Retries<Row>(run: seq<System<Row>>, k: Key, i: nat): nat
    requires i < |run|
  {
    Acc(run, RetryStep(k), i)
  }

  ghost function TriesOf(th: SinkThread): nat
  {
    if th.job.Ready? || th.job.Exchanging? then th.job.tries else 0
  }

  /** The batch was tried again n times: whoever has it in hand knows, and a queued one never was. */
  ghost predicate TriesKnown(s: Sink, k: Key, n: nat)
  {
    && (forall t :: 0 <= t < |s.threads| && Holds(k)(s.threads[t]) ==> TriesOf(s.threads[t]) == n)
    && (k in s.queue || k >= s.minted ==> n == 0)
  }

  /** Whoever has the batch in hand is the only one, and it is not queued. */
  lemma OnlyHolder(s: Sink, k: Key, t: nat)
    requires InOnePlace(s, k) && t < |s.threads| && Holds(k)(s.threads[t])
    ensures k !in s.queue && k < s.minted
    ensures forall u :: 0 <= u < |s.threads| && u != t ==> !Holds(k)(s.threads[u])
  {
    var gone := SinkThread(Idle, s.threads[t].conn);
    CountUpdate(s.threads, t, gone, Holds(k));
    CountZero(s.threads[t := gone], Holds(k));
    CountZero(s.queue, Is(k));
    forall u | 0 <= u < |s.threads| && u != t ensures !Holds(k)(s.threads[u]) {
      assert s.threads[t := gone][u] == s.threads[u];
    }
  }

  /** A thread's step counts its own retry and nobody else's. */
  lemma ThreadRetries(s: Sink, s': Sink, t: nat, k: Key, n: nat)
    requires InOnePlace(s, k) && TriesKnown(s, k, n) && t < |s.threads| == |s'.threads|
    requires forall u :: 0 <= u < |s.threads| && u != t ==> s'.threads[u] == s.threads[u]
    requires s'.minted == s.minted && (forall q :: q in s'.queue ==> q in s.queue)
    requires var th, th' := s.threads[t], s'.threads[t];
             Holds(k)(th') ==>
               || (k in s.queue && TriesOf(th') == 0)
               || (Holds(k)(th) && TriesOf(th') == TriesOf(th) + One(TriesAgain(th, th')))
    ensures TriesKnown(s', k, n + One(RetriesKey(s, s', k)))
  {
    if Holds(k)(s.threads[t]) { OnlyHolder(s, k, t); }
    assert RetriesKey(s, s', k) <==> Holds(k)(s.threads[t]) && TriesAgain(s.threads[t], s'.threads[t]);
  }

  lemma SinkRetries<Row>(sys: System<Row>, t: nat, w: Weather, k: Key, n: nat)
    requires Possible(sys, OfSink(t, w)) && SystemInv(sys) && InOnePlace(sys.s, k) && TriesKnown(sys.s, k, n)
    ensures TriesKnown(Happen(sys, OfSink(t, w)).s, k, n + One(RetriesKey(sys.s, Happen(sys, OfSink(t, w)).s, k)))
  {
    EffectFits(sys, t, w);
    ThreadMoves(sys.s, t, ThreadEffect(sys, t, w), k);
    KeepsTries(sys, t, w);
    ThreadRetries(sys.s, ApplySink(sys.s, t, ThreadEffect(sys, t, w)), t, k, n);
  }

  /** What a step does to the batch in hand. */
  lemma KeepsTries<Row>(sys: System<Row>, t: nat, w: Weather)
    requires t < |sys.s.threads|
    ensures var e, th := ThreadEffect(sys, t, w), sys.s.threads[t];
            && (e.pop ==> e.th.job.Held? && Front(sys.s) == Some(e.th.job.k))
            && (!e.pop && InHand(e.th) ==>
                  InHand(th) && e.th.job.k == th.job.k && TriesOf(e.th) == TriesOf(th) + One(TriesAgain(th, e.th)))
  {
  }

  lemma ThreadMoves(s: Sink, t: nat, e: SinkEffect, k: Key)
    requires t < |s.threads| && (e.pop ==> s.queue != [])
    ensures var s' := ApplySink(s, t, e);
            && |s'.threads| == |s.threads| && s'.threads[t] == e.th && s'.minted == s.minted
            && (forall u :: 0 <= u < |s.threads| && u != t ==> s'.threads[u] == s.threads[u])
            && (forall q :: q in s'.queue ==> q in s.queue)
  {
  }

  lemma ConsumeRetries(s: Sink, k: Key, n: nat)
    requires s.capacity > 0 && TriesKnown(s, k, n)
    ensures TriesKnown(Consume(s), k, n)
  {
    assert forall q :: q in Consume(s).queue ==> q in s.queue || q == s.minted;
  }

  lemma RetriesStep<Row(!new)>(sys: System<Row>, sys': System<Row>, k: Key, n: nat)
    requires Happens(sys, sys') && SystemInv(sys) && InOnePlace(sys.s, k) && TriesKnown(sys.s, k, n)
    ensures TriesKnown(sys'.s, k, n + RetryStep(k)(sys, sys'))
  {
    var e :| Possible(sys, e) && sys' == Happen(sys, e);
    RetriesEvent(sys, e, k, n);
  }

  /** Threads that stay where they are try nothing again. */
  lemma NoRetry(s: Sink, s': Sink, k: Key)
    requires s'.threads == s.threads
    ensures !RetriesKey(s, s', k) && !SomeRetry(s, s')
  {
  }

  lemma RetriesEvent<Row>(sys: System<Row>, e: Event<Row>, k: Key, n: nat)
    requires Possible(sys, e) && SystemInv(sys) && InOnePlace(sys.s, k) && TriesKnown(sys.s, k, n)
    ensures TriesKnown(Happen(sys, e).s, k, n + One(RetriesKey(sys.s, Happen(sys, e).s, k)))
  {
    match e
    case OfSink(t, w) => SinkRetries(sys, t, w, k, n);
    case Consumes(batch) =>
      ConsumeRetries(sys.s, k, n);
      NoRetry(sys.s, Consume(sys.s), k);
    case _ => NoRetry(sys.s, Happen(sys, e).s, k);
  }

  /** In every history: whoever has a batch in hand has tried it again exactly as often as it counts. */
  lemma {:induction false} RetriesKnown<Row(!new)>(run: seq<System<Row>>, i: nat, k: Key)
    requires IsHistory(run) && i < |run|
    ensures TriesKnown(run[i].s, k, Retries(run, k, i))
  {
    if i > 0 {
      RetriesKnown(run, i - 1, k);
      RetriesAt(run, i - 1, k, Retries(run, k, i - 1));
    }
  }

  lemma RetriesAt<Row(!new)>(run: seq<System<Row>>, i: nat, k: Key, n: nat)
    requires IsHistory(run) && i + 1 < |run| && TriesKnown(run[i].s, k, n)
    ensures TriesKnown(run[i + 1].s, k, n + RetryStep(k)(run[i], run[i + 1]))
  {
    assert HappensAt(run, i);
    HistoryHolds(run, i);
    EveryBatchInOnePlace(run, i, k);
    RetriesStep(run[i], run[i + 1], k, n);
  }

  /** The reasons for which batch k may be lost in the step from state i. */
  ghost predicate Explained<Row>(run: seq<System<Row>>, i: nat, k: Key, e: Event<Row>)
    requires i < |run|
  {
    var sys := run[i];
    // dropped by consume(), because the queue was full
    || (e.Consumes? && |sys.s.queue| >= sys.s.capacity)
    || (e.OfSink? && e.t < |sys.s.threads| && Holds(k)(sys.s.threads[e.t])
        && var status := StatusRead(sys, e.t, e.w);
           // past the drain deadline, unattempted
           || (sys.s.threads[e.t].job.Held? && sys.s.stopping && sys.s.late)
           // answered with a status that retrying cannot help
           || (status.Some? && !(200 <= status.value < 300) && status.value < 500 && status.value != 429)
           // the last of maxRetries + 1 failed attempts
           || (FailsForNow(sys, e.t, e.w) && Retries(run, k, i) == sys.s.maxRetries))
  }

  /** Over every history: the step in which a batch is lost has one of these reasons. */
  lemma LossExplained<Row(!new)>(run: seq<System<Row>>, i: nat, k: Key)
    requires IsHistory(run) && i + 1 < |run| && k !in run[i].s.lostKeys && k in run[i + 1].s.lostKeys
    ensures exists e :: Possible(run[i], e) && run[i + 1] == Happen(run[i], e) && Explained(run, i, k, e)
  {
    HistoryHolds(run, i);
    RetriesKnown(run, i, k);
    assert HappensAt(run, i);
    var e :| Possible(run[i], e) && run[i + 1] == Happen(run[i], e);
    LossHasReason(run, i, k, e);
  }

  lemma LossHasReason<Row>(run: seq<System<Row>>, i: nat, k: Key, e: Event<Row>)
    requires i + 1 < |run| && SystemInv(run[i]) && TriesKnown(run[i].s, k, Retries(run, k, i))
    requires Possible(run[i], e) && run[i + 1] == Happen(run[i], e)
    requires k !in run[i].s.lostKeys && k in run[i + 1].s.lostKeys
    ensures Explained(run, i, k, e)
  {
    match e
    case OfSink(t, w) =>
      StepLosesIff(run[i], t, w);
      assert Disciplined(run[i].s.threads[t], run[i].s.maxRetries);
    case Consumes(batch) => ConsumeNeverWaits(run[i].s);
    case _ =>
  }

  // ---- batches_retried ----

  ghost predicate SomeRetry(s: Sink, s': Sink)
  {
    exists t :: 0 <= t < |s.threads| && t < |s'.threads| && TriesAgain(s.threads[t], s'.threads[t])
  }

  ghost function SomeRetryStep<Row>(): (System<Row>, System<Row>) -> nat
  {
    (sys: System<Row>, sys': System<Row>) => One(SomeRetry(sys.s, sys'.s))
  }

  ghost function Retried<Row>(): System<Row> -> int
  {
    (sys: System<Row>) => sys.s.stats.retried
  }

  lemma RetriedStep<Row(!new)>(sys: System<Row>, sys': System<Row>)
    requires Happens(sys, sys') && SystemInv(sys)
    ensures One(SomeRetry(sys.s, sys'.s)) + sys.s.stats.retried == sys'.s.stats.retried
  {
    var e :| Possible(sys, e) && sys' == Happen(sys, e);
    RetriedEvent(sys, e);
  }

  lemma RetriedEvent<Row>(sys: System<Row>, e: Event<Row>)
    requires Possible(sys, e) && SystemInv(sys)
    ensures One(SomeRetry(sys.s, Happen(sys, e).s)) + sys.s.stats.retried == Happen(sys, e).s.stats.retried
  {
    match e
    case OfSink(t, w) =>
      StepLosesIff(sys, t, w);
      EffectFits(sys, t, w);
      ThreadMoves(sys.s, t, ThreadEffect(sys, t, w), 0);
      OneMoves(sys.s, Happen(sys, e).s, t);
    case _ => NoRetry(sys.s, Happen(sys, e).s, 0);
  }

  lemma OneMoves(s: Sink, s': Sink, t: nat)
    requires t < |s.threads| == |s'.threads|
    requires forall u :: 0 <= u < |s.threads| && u != t ==> s'.threads[u] == s.threads[u]
    ensures SomeRetry(s, s') <==> TriesAgain(s.threads[t], s'.threads[t])
  {
  }

  /** batches_retried is the number of times a thread went from one attempt of a batch to the next. */
  lemma RetriesCounted<Row(!new)>(run: seq<System<Row>>, i: nat)
    requires IsHistory(run) && i < |run|
    ensures run[i].s.stats.retried == Acc(run, SomeRetryStep(), i)
  {
    forall n: nat | n < i ensures SomeRetryStep()(run[n], run[n + 1]) + Retried()(run[n]) == Retried()(run[n + 1]) {
      HistoryHolds(run, n);
      assert HappensAt(run, n);
      RetriedStep(run[n], run[n + 1]);
    }
    AccMatches(run, SomeRetryStep(), Retried(), i);
  }
}
