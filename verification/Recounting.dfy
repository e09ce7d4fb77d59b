/** Why skipped lines are not counted once: a batch with one malformed line whose first attempt
    fails in the database is retried by the sink, and both attempts count the line. */
module Recounting {
  import opened QueueTypes
  import opened Tally
  import opened Backends
  import opened HttpSinks
  import opened EndToEnd

  ghost predicate Leads<Row(!new)>(run: seq<System<Row>>, first: System<Row>, last: System<Row>)
  {
    && run != [] && run[0] == first && run[|run| - 1] == last
    && forall i: nat :: i + 1 < |run| ==> HappensAt(run, i)
  }

  ghost predicate Reaches<Row(!new)>(first: System<Row>, last: System<Row>)
  {
    exists run :: Leads(run, first, last)
  }

  lemma Then<Row(!new)>(first: System<Row>, sys: System<Row>, e: Event<Row>, sys': System<Row>)
    requires Reaches(first, sys) && Possible(sys, e) && sys' == Happen(sys, e)
    ensures Reaches(first, sys')
  {
    var run :| Leads(run, first, sys);
    var run' := run + [sys'];
    forall i: nat | i + 1 < |run'| ensures HappensAt(run', i) {
      if i + 1 < |run| {
        assert HappensAt(run, i);
      } else {
        assert run'[i] == sys && Happens(sys, sys');
      }
    }
    assert Leads(run', first, sys');
  }

  /** The fixed surroundings: one sink thread, one batch under key 0, the database empty. */
  datatype Setting<Row> = Setting(batch: Batch<Row>, capacity: nat, policy: Policy, maxRetries: nat)

  ghost function Sys<Row>(g: Setting<Row>, redis: map<Key, Lease>, attempts: seq<Attempt<Row>>, c: Counters,
                          th: SinkThread, retried: nat): System<Row>
  {
    System(Backend(redis, [], attempts, map[0 := g.batch], c, multiset{}, multiset{}, multiset{}),
           Sink([], g.capacity, g.policy, g.maxRetries, [th], 1, false, false, SinkStats(1, 0, 0, 0, retried), [], [],
                false))
  }

  ghost function At<Row>(g: Setting<Row>, phase: Phase): Attempt<Row>
  {
    Attempt(Some(0), g.batch, phase, false)
  }

  ghost function Count7(received: nat, dbFailures: nat, skipped: nat): Counters
  {
    Counters(received, 0, 0, dbFailures, 0, 0, skipped)
  }

  const FAIR := Weather(false, true, true, None)

  /** consume(), pop and connect. */
  lemma Sends<Row(!new)>(g: Setting<Row>) returns (first: System<Row>)
    requires g.capacity > 0
    ensures Start(first) && first.s.policy == g.policy && first.s.maxRetries == g.maxRetries
    ensures Reaches(first, Sys(g, map[], [], Count7(0, 0, 0), SinkThread(Ready(0, 0), Conn(true, [])), 0))
  {
    var threads := [SinkThread(Idle, Dropped)];
    first := System(Backend(map[], [], [], map[], Count7(0, 0, 0), multiset{}, multiset{}, multiset{}),
                    Sink([], g.capacity, g.policy, g.maxRetries, threads, 0, false, false, SinkStats(0, 0, 0, 0, 0), [],
                         [], false));
    assert Leads([first], first, first);
    var s0 := Sys(g, map[], [], Count7(0, 0, 0), threads[0], 0);
    var s1 := s0.(s := s0.s.(queue := [0]));
    Then(first, first, Consumes(g.batch), s1);
    var held := Sys(g, map[], [], Count7(0, 0, 0), SinkThread(Held(0), Dropped), 0);
    assert [0][1..] == [];
    Then(first, s1, OfSink(0, FAIR), held);
    var ready := Sys(g, map[], [], Count7(0, 0, 0), SinkThread(Ready(0, 0), Dropped), 0);
    Then(first, held, OfSink(0, FAIR), ready);
    Then(first, ready, OfSink(0, FAIR), Sys(g, map[], [], Count7(0, 0, 0), SinkThread(Ready(0, 0), Conn(true, [])), 0));
  }

  /** The first attempt gets past the claim, fails in the database and gives its lease back. */
  lemma FailsOnce<Row(!new)>(first: System<Row>, g: Setting<Row>)
    requires g.batch.valid != [] && g.batch.skipped == 1
    requires Reaches(first, Sys(g, map[], [], Count7(0, 0, 0), SinkThread(Ready(0, 0), Conn(true, [])), 0))
    ensures Reaches(first, Sys(g, map[], [At(g, Answered(Failed))], Count7(1, 1, 1),
                               SinkThread(Exchanging(0, 0), Conn(true, [0])), 0))
  {
    var th := SinkThread(Exchanging(0, 0), Conn(true, [0]));
    var s0 := Sys(g, map[], [], Count7(0, 0, 0), SinkThread(Ready(0, 0), Conn(true, [])), 0);
    var s1 := Sys(g, map[], [At(g, Arrived)], Count7(1, 0, 0), th, 0);
    assert s0.s.threads[0].conn.pending + [0] == th.conn.pending && s0.s.threads[0 := th] == s1.s.threads;
    assert ThreadEffect(s0, 0, FAIR) == SinkEffect(th, NoSinkTick, false, true, false);
    Then(first, s0, OfSink(0, FAIR), s1);
    var s2 := Sys(g, map[0 := InFlight(0)], [At(g, Inserting(true))], Count7(1, 0, 1), th, 0);
    assert s1.b.attempts[0 := At(g, Inserting(true))] == s2.b.attempts;
    Then(first, s1, OfBackend(Act(0, Replied, Refused)), s2);
    var s3 := Sys(g, map[0 := InFlight(0)], [At(g, Releasing)], Count7(1, 1, 1), th, 0);
    assert s2.b.attempts[0 := At(g, Releasing)] == s3.b.attempts;
    Then(first, s2, OfBackend(Act(0, Replied, Refused)), s3);
    var s4 := Sys(g, map[], [At(g, Answered(Failed))], Count7(1, 1, 1), th, 0);
    assert s3.b.redis - {0} == s4.b.redis;
    assert s3.b.attempts[0 := At(g, Answered(Failed))] == s4.b.attempts;
    Then(first, s3, OfBackend(Act(0, Replied, Refused)), s4);
  }

  /** The sink reads the 503 and tries again; the second attempt counts the line once more. */
  lemma CountsAgain<Row(!new)>(first: System<Row>, g: Setting<Row>)
    requires g.batch.valid != [] && g.batch.skipped == 1 && g.maxRetries >= 1
    requires Reaches(first, Sys(g, map[], [At(g, Answered(Failed))], Count7(1, 1, 1),
                                SinkThread(Exchanging(0, 0), Conn(true, [0])), 0))
    ensures Reaches(first,
                    Sys(g, map[0 := InFlight(1)], [At(g, Answered(Failed)), At(g, Inserting(true))], Count7(2, 1, 2),
                               SinkThread(Exchanging(0, 1), Conn(true, [1])), 1))
  {
    var failed := At(g, Answered(Failed));
    var s0 := Sys(g, map[], [failed], Count7(1, 1, 1), SinkThread(Exchanging(0, 0), Conn(true, [0])), 0);
    var s1 := Sys(g, map[], [failed], Count7(1, 1, 1), SinkThread(Ready(0, 1), Conn(true, [])), 1);
    Then(first, s0, OfSink(0, FAIR), s1);
    var th := SinkThread(Exchanging(0, 1), Conn(true, [1]));
    var s2 := Sys(g, map[], [failed, At(g, Arrived)], Count7(2, 1, 1), th, 1);
    assert s1.s.threads[0].conn.pending + [1] == th.conn.pending && s1.s.threads[0 := th] == s2.s.threads;
    assert ThreadEffect(s1, 0, FAIR) == SinkEffect(th, NoSinkTick, false, true, false);
    assert s1.b.attempts + [At(g, Arrived)] == s2.b.attempts;
    Then(first, s1, OfSink(0, FAIR), s2);
    var s3 := Sys(g, map[0 := InFlight(1)], [failed, At(g, Inserting(true))], Count7(2, 1, 2), th, 1);
    assert s2.b.attempts[1 := At(g, Inserting(true))] == s3.b.attempts;
    Then(first, s2, OfBackend(Act(1, Replied, Refused)), s3);
  }

  /** For every batch with one skipped line, every queue and at least one retry: a history in which
      one line is counted twice as skipped, because two attempts got past the claim, the second over the
      release of the first, which was answered as failed. */
  lemma SkippedLineCountedTwice<Row(!new)>(valid: seq<Row>, capacity: nat, policy: Policy, maxRetries: nat)
    returns (run: seq<System<Row>>)
    requires valid != [] && capacity > 0 && maxRetries >= 1
    ensures IsHistory(run) && run[0].s.policy == policy && run[0].s.maxRetries == maxRetries
    ensures var b := run[|run| - 1].b;
            && b.content == map[0 := Batch(valid, 1)] && b.counters.skippedMalformed == 2
            && Count(b.attempts, PastClaimFor(0)) == 2
            && b.expired[0] == b.unavailable[0] == 0 && Count(b.attempts, FailedFor(0)) == 1
  {
    var g := Setting(Batch(valid, 1), capacity, policy, maxRetries);
    var first := Sends(g);
    FailsOnce(first, g);
    CountsAgain(first, g);
    var attempts := [At(g, Answered(Failed)), At(g, Inserting(true))];
    run :| Leads(run, first, Sys(g, map[0 := InFlight(1)], attempts, Count7(2, 1, 2),
                                 SinkThread(Exchanging(0, 1), Conn(true, [1])), 1));
    assert attempts[1..][1..] == [];
  }
}
