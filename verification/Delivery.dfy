/** The way a batch is meant to go: with nothing failing, consumed, sent once, claimed, inserted, committed,
    answered 200 and counted as sent. */
module Delivery {
  import opened QueueTypes
  import opened Tally
  import opened Backends
  import opened HttpSinks
  import opened EndToEnd
  import opened Recounting

  /** One batch under key 0, one sink thread; the backend has seen at most one attempt. */
  ghost function At1<Row>(g: Setting<Row>, redis: map<Key, Lease>, inserts: seq<Insert<Row>>, phase: Phase, seen: bool,
                          c: Counters, th: SinkThread, sent: seq<Key>): System<Row>
  {
    System(Backend(redis, inserts, [Attempt(Some(0), g.batch, phase, seen)], map[0 := g.batch], c,
                   multiset{}, multiset{}, multiset{}),
           Sink([], g.capacity, g.policy, g.maxRetries, [th], 1, false, false, SinkStats(1, |sent|, 0, 0, 0), sent, [],
                false))
  }

  ghost function Stored7(stored: nat, skipped: nat): Counters
  {
    Counters(1, 0, 0, 0, 0, stored, skipped)
  }

  const SENDING := SinkThread(Exchanging(0, 0), Conn(true, [0]))

  /** The request arrives and its claim is granted. */
  lemma Arrives<Row(!new)>(first: System<Row>, g: Setting<Row>)
    requires Reaches(first, Sys(g, map[], [], Count7(0, 0, 0), SinkThread(Ready(0, 0), Conn(true, [])), 0))
    ensures Reaches(first,
                    At1(g, map[0 := InFlight(0)], [], Inserting(true), false, Stored7(0, g.batch.skipped), SENDING, []))
  {
    var s0 := Sys(g, map[], [], Count7(0, 0, 0), SinkThread(Ready(0, 0), Conn(true, [])), 0);
    var s1 := At1(g, map[], [], Arrived, false, Stored7(0, 0), SENDING, []);
    assert s0.s.threads[0].conn.pending + [0] == SENDING.conn.pending && s0.s.threads[0 := SENDING] == s1.s.threads;
    assert ThreadEffect(s0, 0, FAIR) == SinkEffect(SENDING, NoSinkTick, false, true, false);
    Then(first, s0, OfSink(0, FAIR), s1);
    var s2 := At1(g, map[0 := InFlight(0)], [], Inserting(true), false, Stored7(0, g.batch.skipped), SENDING, []);
    assert s1.b.attempts[0 := s2.b.attempts[0]] == s2.b.attempts;
    Then(first, s1, OfBackend(Act(0, Replied, Acknowledged)), s2);
  }

  /** The rows are stored. */
  lemma Stores<Row(!new)>(first: System<Row>, g: Setting<Row>)
    requires Reaches(first, At1(g, map[0 := InFlight(0)], [], Inserting(true), false, Stored7(0, g.batch.skipped),
                                SENDING, []))
    ensures Reaches(first, At1(g, map[0 := InFlight(0)], [Insert(Some(0), g.batch.valid, true)], Committing, false,
                               Stored7(|g.batch.valid|, g.batch.skipped), SENDING, []))
  {
    var s2 := At1(g, map[0 := InFlight(0)], [], Inserting(true), false, Stored7(0, g.batch.skipped), SENDING, []);
    var s3 := At1(g, map[0 := InFlight(0)], [Insert(Some(0), g.batch.valid, true)], Committing, false,
                  Stored7(|g.batch.valid|, g.batch.skipped), SENDING, []);
    assert s2.b.attempts[0 := s3.b.attempts[0]] == s3.b.attempts && s2.b.inserts + s3.b.inserts == s3.b.inserts;
    InsertReported(s2.b, 0, Replied, Acknowledged);
    Then(first, s2, OfBackend(Act(0, Replied, Acknowledged)), s3);
  }

  /** The lease is promoted and the request answered. */
  lemma Commits<Row(!new)>(first: System<Row>, g: Setting<Row>)
    requires Reaches(first, At1(g, map[0 := InFlight(0)], [Insert(Some(0), g.batch.valid, true)], Committing, false,
                                Stored7(|g.batch.valid|, g.batch.skipped), SENDING, []))
    ensures Reaches(first, At1(g, map[0 := Committed], [Insert(Some(0), g.batch.valid, true)], Answered(Stored), false,
                               Stored7(|g.batch.valid|, g.batch.skipped), SENDING, []))
  {
    var c, inserts := Stored7(|g.batch.valid|, g.batch.skipped), [Insert(Some(0), g.batch.valid, true)];
    var s3 := At1(g, map[0 := InFlight(0)], inserts, Committing, false, c, SENDING, []);
    var s4 := At1(g, map[0 := Committed], inserts, Answered(Stored), false, c, SENDING, []);
    assert s3.b.attempts[0 := s4.b.attempts[0]] == s4.b.attempts && s3.b.redis[0 := Committed] == s4.b.redis;
    Then(first, s3, OfBackend(Act(0, Replied, Acknowledged)), s4);
  }

  /** For every batch, every queue and retry limit: a history in which the batch is sent with one attempt, is
      in the table exactly once and under its committed mark, and is counted as sent and its rows as stored. */
  lemma BatchDelivered<Row(!new)>(batch: Batch<Row>, capacity: nat, policy: Policy, maxRetries: nat)
    returns (run: seq<System<Row>>)
    requires capacity > 0
    ensures IsHistory(run) && run[0].s.policy == policy && run[0].s.maxRetries == maxRetries
    ensures var b, s := run[|run| - 1].b, run[|run| - 1].s;
            && b.content == map[0 := batch] && s.stats.sent == 1 && s.sentKeys == [0] && s.lostKeys == []
            && s.queue == []
            && |b.attempts| == 1 && Table(b) == multiset(batch.valid) && b.redis == map[0 := Committed]
            && b.counters == Counters(1, 0, 0, 0, 0, |batch.valid|, batch.skipped)
  {
    var g := Setting(batch, capacity, policy, maxRetries);
    var first := Sends(g);
    Arrives(first, g);
    Stores(first, g);
    Commits(first, g);
    run := Answers(first, g);
    OneInsert(run[|run| - 1].b, batch.valid);
  }

  /** The sink reads the 200. */
  lemma Answers<Row(!new)>(first: System<Row>, g: Setting<Row>) returns (run: seq<System<Row>>)
    requires Start(first)
    requires Reaches(first, At1(g, map[0 := Committed], [Insert(Some(0), g.batch.valid, true)], Answered(Stored),
                                                false, Stored7(|g.batch.valid|, g.batch.skipped), SENDING, []))
    ensures IsHistory(run) && run[0] == first
    ensures run[|run| - 1]
            == At1(g, map[0 := Committed], [Insert(Some(0), g.batch.valid, true)], Answered(Stored), true,
                                  Stored7(|g.batch.valid|, g.batch.skipped), SinkThread(Idle, Conn(true, [])), [0])
  {
    var c, inserts := Stored7(|g.batch.valid|, g.batch.skipped), [Insert(Some(0), g.batch.valid, true)];
    var s4 := At1(g, map[0 := Committed], inserts, Answered(Stored), false, c, SENDING, []);
    var th := SinkThread(Idle, Conn(true, []));
    var s5 := At1(g, map[0 := Committed], inserts, Answered(Stored), true, c, th, [0]);
    assert s4.b.attempts[0 := s5.b.attempts[0]] == s5.b.attempts && s4.s.threads[0 := th] == s5.s.threads;
    assert ThreadEffect(s4, 0, FAIR) == SinkEffect(th, TickSent, false, false, true);
    assert s4.s.sentKeys + [0] == [0];
    Then(first, s4, OfSink(0, FAIR), s5);
    run :| Leads(run, first, s5);
  }

  lemma OneInsert<Row>(b: Backend<Row>, rows: seq<Row>)
    requires b.inserts == [Insert(Some(0), rows, true)]
    ensures Table(b) == multiset(rows)
  {
    assert b.inserts[1..] == [];
    assert Gather(b.inserts, RowsOf) == RowsOf(b.inserts[0]) + Gather(b.inserts[1..], RowsOf);
    assert Gather<Insert<Row>, Row>([], RowsOf) == multiset{};
  }
}
