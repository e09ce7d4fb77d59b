/** Sink and backend together: a batch counted as sent is stored, however the network, Redis and
    the database misbehave, and stored copies are bounded by the mishaps that occurred. */
module EndToEnd {
  import opened QueueTypes
  import opened Tally
  import opened Backends
  import opened HttpSinks

  datatype System<Row> = System(b: Backend<Row>, s: Sink)

  datatype Event<Row> =
    | OfBackend(m: Backends.Move<Row>)   // a backend step, or a request from any other client
    | Consumes(batch: Batch<Row>)        // consume() of a non-empty batch
    | OfSink(t: nat, w: Weather)         // a sink thread's step
    | Stops                              // stop()
    | DeadlinePasses

  /** Only the backend answers 2xx; keys are minted by consume() alone. */
  ghost predicate Possible<Row>(sys: System<Row>, e: Event<Row>)
  {
    match e
    case OfBackend(m) => !m.Mint? && Enabled(sys.b, m)
    case Consumes(_) => sys.s.minted !in sys.b.content && sys.s.capacity > 0
    case OfSink(t, w) => t < |sys.s.threads| && (w.foreign.Some? ==> !(200 <= w.foreign.value < 300))
    case Stops => true
    case DeadlinePasses => sys.s.stopping
  }

  /** The status waiting for a thread, if any: the reply of its oldest pending request. */
  ghost function ReplyFor<Row>(b: Backend<Row>, th: SinkThread, w: Weather): Option<nat>
  {
    if w.foreign.Some? then w.foreign
    else if th.conn.pending != [] && th.conn.pending[0] < |b.attempts| && b.attempts[th.conn.pending[0]].phase.Answered?
    then Some(StatusOf(b.attempts[th.conn.pending[0]].phase.answer))
    else None
  }

  ghost function ThreadEffect<Row>(sys: System<Row>, t: nat, w: Weather): SinkEffect
    requires t < |sys.s.threads|
  {
    SinkReact(sys.s.threads[t], Front(sys.s), sys.s.stopping, sys.s.late, sys.s.maxRetries,
              ReplyFor(sys.b, sys.s.threads[t], w), |sys.b.attempts|, w)
  }

  /** The backend's side of a sink step: a request arrives, or its 200 was read. */
  ghost function BackendSide<Row>(b: Backend<Row>, th: SinkThread, e: SinkEffect): Backend<Row>
  {
    if e.send && th.job.Ready? && th.job.k in b.content then Step(b, Arrive(Some(th.job.k), b.content[th.job.k]))
    else if e.tick.TickSent? && th.conn.pending != [] && th.conn.pending[0] < |b.attempts| then
      b.(attempts := b.attempts[th.conn.pending[0] := b.attempts[th.conn.pending[0]].(seen := true)])
    else b
  }

  ghost function Happen<Row>(sys: System<Row>, e: Event<Row>): System<Row>
    requires Possible(sys, e)
  {
    match e
    case OfBackend(m) => sys.(b := Step(sys.b, m))
    case Consumes(batch) => System(Step(sys.b, Mint(sys.s.minted, batch)), Consume(sys.s))
    case OfSink(t, w) =>
      var eff := ThreadEffect(sys, t, w);
      if eff.pop && sys.s.queue == [] then sys
      else System(BackendSide(sys.b, sys.s.threads[t], eff), ApplySink(sys.s, t, eff))
    case Stops => sys.(s := sys.s.(stopping := true))
    case DeadlinePasses => sys.(s := sys.s.(late := true))
  }

  ghost predicate Start<Row>(sys: System<Row>)
  {
    && Fresh(sys.b)
    && sys.s.capacity > 0
    && (forall t :: 0 <= t < |sys.s.threads| ==> sys.s.threads[t] == SinkThread(Idle, Dropped))
    && sys.s == Sink([], sys.s.capacity, sys.s.policy, sys.s.maxRetries, sys.s.threads, 0, false, false,
                     SinkStats(0, 0, 0, 0, 0), [], [], false)
  }

  ghost predicate Happens<Row(!new)>(sys: System<Row>, sys': System<Row>)
  {
    exists e :: Possible(sys, e) && sys' == Happen(sys, e)
  }

  ghost predicate HappensAt<Row(!new)>(run: seq<System<Row>>, i: nat)
  {
    i + 1 < |run| && Happens(run[i], run[i + 1])
  }

  ghost predicate IsHistory<Row(!new)>(run: seq<System<Row>>)
  {
    run != [] && Start(run[0]) && forall i: nat :: i + 1 < |run| ==> HappensAt(run, i)
  }

  // ---- invariants ----

  ghost predicate KeysInv<Row>(b: Backend<Row>, s: Sink)
  {
    && (forall k: Key :: k in b.content <==> k < s.minted)
    && (forall i :: 0 <= i < |s.queue| ==> s.queue[i] < s.minted)
    && (forall t :: 0 <= t < |s.threads| && InHand(s.threads[t]) ==> s.threads[t].job.k < s.minted)
  }

  /** A pending request is the unanswered attempt of the very batch the thread is sending. */
  ghost predicate PendingInv<Row>(attempts: seq<Attempt<Row>>, threads: seq<SinkThread>)
  {
    && (forall t :: 0 <= t < |threads| && threads[t].conn.pending != [] ==>
          && threads[t].conn.pending[0] < |attempts| && threads[t].job.Exchanging?
          && attempts[threads[t].conn.pending[0]].key == Some(threads[t].job.k)
          && !attempts[threads[t].conn.pending[0]].seen)
    && (forall t, u :: 0 <= t < u < |threads| && threads[t].conn.pending != [] && threads[u].conn.pending != [] ==>
          threads[t].conn.pending[0] != threads[u].conn.pending[0])
  }

  ghost predicate Seen<Row>(at: Attempt<Row>)
  {
    at.seen
  }

  /** Every batch counted as sent was answered 200 by exactly one attempt that the sink read, and
      is stored. */
  ghost predicate SentInv<Row>(b: Backend<Row>, s: Sink)
  {
    && s.stats.sent == Count(b.attempts, Seen)
    && (forall a :: 0 <= a < |b.attempts| && b.attempts[a].seen ==> Answered200(b.attempts[a].phase))
    && (forall i :: 0 <= i < |s.sentKeys| ==> Copies(b.inserts, s.sentKeys[i]) >= 1)
  }

  ghost predicate SystemInv<Row>(sys: System<Row>)
  {
    && StoredInv(sys.b) && ContentInv(sys.b) && CountersInv(sys.b)
    && SinkInv(sys.s)
    && KeysInv(sys.b, sys.s)
    && PendingInv(sys.b.attempts, sys.s.threads)
    && SentInv(sys.b, sys.s)
  }

  // ---- backend steps ----

  /** A backend step keeps the keys, the seen marks and the final answers of all attempts. */
  lemma StepKeepsAttempts<Row>(b: Backend<Row>, m: Backends.Move<Row>)
    requires Enabled(b, m)
    ensures var b' := Step(b, m);
            && |b'.attempts| >= |b.attempts|
            && (forall a :: 0 <= a < |b.attempts| ==>
                  && b'.attempts[a].key == b.attempts[a].key && b'.attempts[a].seen == b.attempts[a].seen
                  && (b.attempts[a].phase.Answered? ==> b'.attempts[a].phase == b.attempts[a].phase))
            && (m.Arrive? ==> b'.attempts == b.attempts + [Attempt(m.key, m.batch, Arrived, false)])
            && (!m.Arrive? ==> |b'.attempts| == |b.attempts|)
            && (m.Mint? || b'.content == b.content)
  {
  }

  lemma StepCopies<Row>(b: Backend<Row>, m: Backends.Move<Row>, k: Key)
    requires Enabled(b, m)
    ensures Copies(Step(b, m).inserts, k) >= Copies(b.inserts, k)
  {
    if m.Act? { CopiesAfter(b, m.a, EffectOf(b, m.a, m.redis, m.db), k); }
  }

  lemma StepSeen<Row>(b: Backend<Row>, m: Backends.Move<Row>)
    requires Enabled(b, m)
    ensures Count(Step(b, m).attempts, Seen) == Count(b.attempts, Seen)
  {
    match m
    case Arrive(key, batch) => CountAppend(b.attempts, Attempt(key, batch, Arrived, false), Seen);
    case Act(a, redis, db) => CountUpdate(b.attempts, a, Step(b, m).attempts[a], Seen);
    case _ =>
  }

  lemma StepSent<Row>(b: Backend<Row>, s: Sink, m: Backends.Move<Row>)
    requires Enabled(b, m) && SentInv(b, s)
    ensures SentInv(Step(b, m), s)
  {
    StepKeepsAttempts(b, m);
    StepSeen(b, m);
    forall i | 0 <= i < |s.sentKeys| ensures Copies(Step(b, m).inserts, s.sentKeys[i]) >= 1 {
      StepCopies(b, m, s.sentKeys[i]);
    }
  }

  lemma StepPending<Row>(b: Backend<Row>, threads: seq<SinkThread>, m: Backends.Move<Row>)
    requires Enabled(b, m) && PendingInv(b.attempts, threads)
    ensures PendingInv(Step(b, m).attempts, threads)
  {
    StepKeepsAttempts(b, m);
  }

  lemma BackendEvent<Row>(sys: System<Row>, m: Backends.Move<Row>)
    requires Enabled(sys.b, m) && !m.Mint? && SystemInv(sys)
    ensures SystemInv(sys.(b := Step(sys.b, m)))
  {
    StoredKept(sys.b, m);
    ContentKept(sys.b, m);
    CountersKept(sys.b, m);
    StepKeepsAttempts(sys.b, m);
    StepPending(sys.b, sys.s.threads, m);
    StepSent(sys.b, sys.s, m);
  }

  // ---- sink steps ----

  lemma MarkSeen<Row>(b: Backend<Row>, a: Id)
    requires a < |b.attempts|
    requires StoredInv(b) && ContentInv(b) && CountersInv(b)
    ensures var b' := b.(attempts := b.attempts[a := b.attempts[a].(seen := true)]);
            StoredInv(b') && ContentInv(b') && CountersInv(b')
  {
    var at := b.attempts[a].(seen := true);
    CountUpdate(b.attempts, a, at, WasDuplicate);
    CountUpdate(b.attempts, a, at, WasBusy);
    CountUpdate(b.attempts, a, at, DbFailed);
  }

  lemma SideKeepsBackend<Row>(b: Backend<Row>, th: SinkThread, e: SinkEffect)
    requires StoredInv(b) && ContentInv(b) && CountersInv(b)
    ensures var b' := BackendSide(b, th, e);
            StoredInv(b') && ContentInv(b') && CountersInv(b') && b'.content == b.content && b'.inserts == b.inserts
  {
    if e.send && th.job.Ready? && th.job.k in b.content {
      var m := Arrive(Some(th.job.k), b.content[th.job.k]);
      StoredKept(b, m);
      ContentKept(b, m);
      CountersKept(b, m);
    } else if e.tick.TickSent? && th.conn.pending != [] && th.conn.pending[0] < |b.attempts| {
      MarkSeen(b, th.conn.pending[0]);
    }
  }

  lemma SidePending<Row>(b: Backend<Row>, s: Sink, t: nat, e: SinkEffect, reply: Option<nat>)
    requires t < |s.threads| && PendingInv(b.attempts, s.threads) && KeysInv(b, s)
    requires SinkFits(s.threads[t], Front(s), reply, |b.attempts|, s.stopping, s.maxRetries, e)
    ensures PendingInv(BackendSide(b, s.threads[t], e).attempts, s.threads[t := e.th])
  {
  }

  lemma SideSent<Row>(b: Backend<Row>, s: Sink, t: nat, e: SinkEffect, reply: Option<nat>)
    requires t < |s.threads| && (e.pop ==> s.queue != [])
    requires StoredInv(b) && PendingInv(b.attempts, s.threads) && SentInv(b, s)
    requires SinkFits(s.threads[t], Front(s), reply, |b.attempts|, s.stopping, s.maxRetries, e)
    requires e.tick.TickSent? ==> Answered200(b.attempts[s.threads[t].conn.pending[0]].phase)
    ensures SentInv(BackendSide(b, s.threads[t], e), ApplySink(s, t, e))
  {
    var th := s.threads[t];
    if e.send && th.job.Ready? && th.job.k in b.content {
      CountAppend(b.attempts, Attempt(Some(th.job.k), b.content[th.job.k], Arrived, false), Seen);
    } else if e.tick.TickSent? {
      SentRead(b, s, th.conn.pending[0], th.job.k);
    }
  }

  /** Reading a 200 adds one batch sent and one attempt seen, and the batch is stored. */
  lemma SentRead<Row>(b: Backend<Row>, s: Sink, a: Id, k: Key)
    requires a < |b.attempts| && b.attempts[a].key == Some(k) && !b.attempts[a].seen && Answered200(b.attempts[a].phase)
    requires StoredInv(b) && SentInv(b, s)
    ensures var b' := b.(attempts := b.attempts[a := b.attempts[a].(seen := true)]);
            && Count(b'.attempts, Seen) == s.stats.sent + 1 && Copies(b'.inserts, k) >= 1
            && (forall u :: 0 <= u < |b'.attempts| && b'.attempts[u].seen ==> Answered200(b'.attempts[u].phase))
  {
    CountUpdate(b.attempts, a, b.attempts[a].(seen := true), Seen);
  }

  lemma SideKeys<Row>(b: Backend<Row>, s: Sink, t: nat, e: SinkEffect, reply: Option<nat>, next: Id)
    requires t < |s.threads| && KeysInv(b, s)
    requires SinkFits(s.threads[t], Front(s), reply, next, s.stopping, s.maxRetries, e)
    ensures KeysInv(b, ApplySink(s, t, e))
  {
  }

  /** A sink step fits the local facts, and a batch is counted as sent only on the backend's 200. */
  lemma EffectFits<Row>(sys: System<Row>, t: nat, w: Weather)
    requires Possible(sys, OfSink(t, w)) && SinkInv(sys.s) && PendingInv(sys.b.attempts, sys.s.threads)
    ensures var e, th := ThreadEffect(sys, t, w), sys.s.threads[t];
            && SinkFits(th, Front(sys.s), ReplyFor(sys.b, th, w), |sys.b.attempts|, sys.s.stopping, sys.s.maxRetries, e)
            && (e.pop ==> sys.s.queue != [])
            && (e.tick.TickSent? ==> Answered200(sys.b.attempts[th.conn.pending[0]].phase))
  {
    var th := sys.s.threads[t];
    SinkReactFits(th, Front(sys.s), sys.s.stopping, sys.s.late, sys.s.maxRetries, ReplyFor(sys.b, th, w),
                  |sys.b.attempts|, w);
  }

  lemma SinkStep<Row>(b: Backend<Row>, s: Sink, t: nat, e: SinkEffect, reply: Option<nat>)
    requires t < |s.threads| && SystemInv(System(b, s)) && (e.pop ==> s.queue != [])
    requires SinkFits(s.threads[t], Front(s), reply, |b.attempts|, s.stopping, s.maxRetries, e)
    requires e.tick.TickSent? ==> Answered200(b.attempts[s.threads[t].conn.pending[0]].phase)
    ensures SystemInv(System(BackendSide(b, s.threads[t], e), ApplySink(s, t, e)))
  {
    SideKeys(b, s, t, e, reply, |b.attempts|);
    SideKeepsBackend(b, s.threads[t], e);
    ApplySinkKeeps(s, t, e, reply, |b.attempts|);
    SidePending(b, s, t, e, reply);
    SideSent(b, s, t, e, reply);
  }

  lemma SinkEvent<Row>(sys: System<Row>, t: nat, w: Weather)
    requires Possible(sys, OfSink(t, w)) && SystemInv(sys)
    ensures SystemInv(Happen(sys, OfSink(t, w)))
  {
    EffectFits(sys, t, w);
    SinkStep(sys.b, sys.s, t, ThreadEffect(sys, t, w), ReplyFor(sys.b, sys.s.threads[t], w));
  }

  lemma ConsumeEvent<Row>(sys: System<Row>, batch: Batch<Row>)
    requires Possible(sys, Consumes(batch)) && SystemInv(sys)
    ensures SystemInv(Happen(sys, Consumes(batch)))
  {
    var m := Mint(sys.s.minted, batch);
    StoredKept(sys.b, m);
    ContentKept(sys.b, m);
    CountersKept(sys.b, m);
    ConsumeKeeps(sys.s);
    ConsumeKeys(sys.b, sys.s, batch);
  }

  lemma ConsumeKeys<Row>(b: Backend<Row>, s: Sink, batch: Batch<Row>)
    requires KeysInv(b, s) && SinkInv(s) && Enabled(b, Mint(s.minted, batch))
    ensures KeysInv(Step(b, Mint(s.minted, batch)), Consume(s))
  {
  }

  lemma EventKeeps<Row>(sys: System<Row>, e: Event<Row>)
    requires Possible(sys, e) && SystemInv(sys)
    ensures SystemInv(Happen(sys, e))
  {
    match e
    case OfBackend(m) => BackendEvent(sys, m);
    case Consumes(batch) => ConsumeEvent(sys, batch);
    case OfSink(t, w) => SinkEvent(sys, t, w);
    case _ =>
  }

  lemma HappensKeeps<Row(!new)>(sys: System<Row>, sys': System<Row>)
    requires Happens(sys, sys') && SystemInv(sys)
    ensures SystemInv(sys')
  {
    var e :| Possible(sys, e) && sys' == Happen(sys, e);
    EventKeeps(sys, e);
  }

  lemma StartHolds<Row>(sys: System<Row>, k: Key)
    requires Start(sys)
    ensures SystemInv(sys) && BoundInv(sys.b, k)
  {
    CountZero(sys.s.threads, InHand);
  }

  lemma HistoryHolds<Row(!new)>(run: seq<System<Row>>, i: nat)
    requires IsHistory(run) && i < |run|
    ensures SystemInv(run[i])
  {
    var inv := (sys: System<Row>) => SystemInv(sys);
    StartHolds(run[0], 0);
    forall k: nat | k < i && inv(run[k]) ensures inv(run[k + 1]) {
      assert HappensAt(run, k);
      HappensKeeps(run[k], run[k + 1]);
    }
    Along(run, inv, 0, i);
  }

  // ---- the main results ----

  lemma LedgerHappens<Row(!new)>(sys: System<Row>, sys': System<Row>, f: Key -> nat)
    requires Happens(sys, sys') && SystemInv(sys) && LedgerInv(sys.s, f)
    ensures LedgerInv(sys'.s, f)
  {
    var e :| Possible(sys, e) && sys' == Happen(sys, e);
    LedgerEvent(sys, e, f);
  }

  lemma LedgerEvent<Row>(sys: System<Row>, e: Event<Row>, f: Key -> nat)
    requires Possible(sys, e) && SystemInv(sys) && LedgerInv(sys.s, f)
    ensures LedgerInv(Happen(sys, e).s, f)
  {
    match e
    case Consumes(batch) => ConsumeLedger(sys.s, f);
    case OfSink(t, w) => LedgerSink(sys, t, w, f);
    case _ =>
  }

  lemma LedgerSink<Row>(sys: System<Row>, t: nat, w: Weather, f: Key -> nat)
    requires Possible(sys, OfSink(t, w)) && SystemInv(sys) && LedgerInv(sys.s, f)
    ensures LedgerInv(Happen(sys, OfSink(t, w)).s, f)
  {
    EffectFits(sys, t, w);
    ApplySinkLedger(sys.s, t, ThreadEffect(sys, t, w), ReplyFor(sys.b, sys.s.threads[t], w), |sys.b.attempts|, f);
  }

  lemma {:induction false} HandsEmpty(threads: seq<SinkThread>, f: Key -> nat)
    requires forall t :: 0 <= t < |threads| ==> !InHand(threads[t])
    ensures Sum(threads, Hand(f)) == 0
  {
    if threads != [] {
      assert forall t :: 0 <= t < |threads| - 1 ==> threads[1..][t] == threads[t + 1];
      HandsEmpty(threads[1..], f);
    }
  }

  lemma LedgerHolds<Row(!new)>(run: seq<System<Row>>, i: nat, f: Key -> nat)
    requires IsHistory(run) && i < |run|
    ensures LedgerInv(run[i].s, f)
  {
    var inv := (sys: System<Row>) => LedgerInv(sys.s, f);
    HandsEmpty(run[0].s.threads, f);
    forall n: nat | n < i && inv(run[n]) ensures inv(run[n + 1]) {
      assert HappensAt(run, n);
      HistoryHolds(run, n);
      LedgerHappens(run[n], run[n + 1], f);
    }
    Along(run, inv, 0, i);
  }

  /** In every history every minted batch is queued, in one thread's hands, sent or lost: exactly
      one of these, exactly once. */
  lemma EveryBatchInOnePlace<Row(!new)>(run: seq<System<Row>>, i: nat, k: Key)
    requires IsHistory(run) && i < |run|
    ensures InOnePlace(run[i].s, k)
  {
    LedgerHolds(run, i, Only(k));
    LedgerPerKey(run[i].s, k);
  }

  ghost function RowsIn<Row>(content: map<Key, Batch<Row>>): Key -> multiset<Row>
  {
    (k: Key) => if k in content then multiset(content[k].valid) else multiset{}
  }

  ghost predicate Distinct(keys: seq<Key>)
  {
    forall i, j :: 0 <= i < j < |keys| ==> keys[i] != keys[j]
  }

  ghost predicate AllStored<Row>(keys: seq<Key>, inserts: seq<Insert<Row>>)
  {
    forall i :: 0 <= i < |keys| ==> Copies(inserts, keys[i]) >= 1
  }

  ghost predicate RowsMatch<Row>(inserts: seq<Insert<Row>>, content: map<Key, Batch<Row>>)
  {
    forall i :: 0 <= i < |inserts| && inserts[i].key.Some? ==>
      inserts[i].key.value in content && content[inserts[i].key.value].valid == inserts[i].rows
  }

  lemma Without(keys: seq<Key>, j: nat) returns (rest: seq<Key>)
    requires j < |keys| && Distinct(keys)
    ensures rest == keys[..j] + keys[j + 1..] && Distinct(rest)
    ensures forall i :: 0 <= i < |rest| ==> rest[i] in keys && rest[i] != keys[j]
  {
    rest := keys[..j] + keys[j + 1..];
    forall i | 0 <= i < |rest| ensures rest[i] in keys && rest[i] != keys[j] {
      assert rest[i] == keys[if i < j then i else i + 1];
    }
  }

  /** Keys other than the first insert's have their copies among the others. */
  lemma CopiesLater<Row>(keys: seq<Key>, all: seq<Key>, inserts: seq<Insert<Row>>)
    requires inserts != [] && AllStored(all, inserts)
    requires forall i :: 0 <= i < |keys| ==> keys[i] in all && inserts[0].key != Some(keys[i])
    ensures AllStored(keys, inserts[1..])
  {
  }

  /** Distinct keys with a stored copy each have their rows in the table side by side. */
  lemma {:induction false} KeysShareNothing<Row>(keys: seq<Key>, inserts: seq<Insert<Row>>,
                                                 content: map<Key, Batch<Row>>)
    requires Distinct(keys) && AllStored(keys, inserts) && RowsMatch(inserts, content)
    ensures Gather(keys, RowsIn(content)) <= Gather(inserts, RowsOf)
    decreases |inserts|
  {
    if inserts == [] {
      assert forall i :: 0 <= i < |keys| ==> Copies(inserts, keys[i]) == 0;
    } else {
      var later := inserts[1..];
      assert RowsMatch(later, content);
      if j: nat :| j < |keys| && inserts[0].key == Some(keys[j]) {
        GatherRemove(keys, j, RowsIn(content));
        var rest := Without(keys, j);
        CopiesLater(rest, keys, inserts);
        KeysShareNothing(rest, later, content);
        assert RowsIn(content)(keys[j]) == RowsOf(inserts[0]);
      } else {
        CopiesLater(keys, keys, inserts);
        KeysShareNothing(keys, later, content);
      }
    }
  }

  lemma SentOnce(s: Sink, j: nat, j': nat)
    requires j < j' < |s.sentKeys| && InOnePlace(s, s.sentKeys[j])
    ensures s.sentKeys[j] != s.sentKeys[j']
  {
    var keys := s.sentKeys;
    var k := keys[j];
    CountConcat(keys[..j'], keys[j'..], Is(k));
    assert keys[..j'] + keys[j'..] == keys;
    CountPositive(keys[..j'], j, Is(k));
  }

  ghost predicate SentStored<Row>(b: Backend<Row>, sent: seq<Key>)
  {
    && (forall j, j' :: 0 <= j < j' < |sent| ==> sent[j] != sent[j'])
    && (forall j :: 0 <= j < |sent| ==> sent[j] in b.content && multiset(b.content[sent[j]].valid) <= Table(b))
    && Gather(sent, RowsIn(b.content)) <= Table(b)
  }

  lemma SentRowsStored<Row>(sys: System<Row>)
    requires SystemInv(sys) && forall k: Key :: InOnePlace(sys.s, k)
    ensures SentStored(sys.b, sys.s.sentKeys)
  {
    var b, sent := sys.b, sys.s.sentKeys;
    forall j, j' | 0 <= j < j' < |sent| ensures sent[j] != sent[j'] {
      SentOnce(sys.s, j, j');
    }
    forall j | 0 <= j < |sent| ensures sent[j] in b.content && multiset(b.content[sent[j]].valid) <= Table(b) {
      CopyHasAllRows(b, sent[j]);
    }
    KeysShareNothing(sent, b.inserts, b.content);
  }

  /** End to end: in every history the batches counted as sent are distinct, each is one that
      consume() was given, and the table holds all their valid rows side by side, not shared. */
  lemma SentMeansStored<Row(!new)>(run: seq<System<Row>>, i: nat)
    requires IsHistory(run) && i < |run|
    ensures SentStored(run[i].b, run[i].s.sentKeys)
  {
    HistoryHolds(run, i);
    forall k: Key ensures InOnePlace(run[i].s, k) {
      EveryBatchInOnePlace(run, i, k);
    }
    SentRowsStored(run[i]);
  }

  // ---- event counters ----

  lemma SideEvents<Row>(b: Backend<Row>, th: SinkThread, e: SinkEffect)
    requires EventsInv(b)
    ensures EventsInv(BackendSide(b, th, e))
  {
    if e.send && th.job.Ready? && th.job.k in b.content {
      EventsKept(b, Arrive(Some(th.job.k), b.content[th.job.k]));
    } else if e.tick.TickSent? && th.conn.pending != [] && th.conn.pending[0] < |b.attempts| {
      var a := th.conn.pending[0];
      SumUpdate(b.attempts, a, b.attempts[a].(seen := true), SkippedBy);
    }
  }

  lemma EventsHappen<Row(!new)>(sys: System<Row>, sys': System<Row>)
    requires Happens(sys, sys') && EventsInv(sys.b)
    ensures EventsInv(sys'.b)
  {
    var e :| Possible(sys, e) && sys' == Happen(sys, e);
    match e
    case OfBackend(m) => EventsKept(sys.b, m);
    case Consumes(batch) => EventsKept(sys.b, Mint(sys.s.minted, batch));
    case OfSink(t, w) => SideEvents(sys.b, sys.s.threads[t], ThreadEffect(sys, t, w));
    case _ =>
  }

  lemma EventsHold<Row(!new)>(run: seq<System<Row>>, i: nat)
    requires IsHistory(run) && i < |run|
    ensures EventsInv(run[i].b)
  {
    var inv := (sys: System<Row>) => EventsInv(sys.b);
    forall n: nat | n < i && inv(run[n]) ensures inv(run[n + 1]) {
      assert HappensAt(run, n);
      EventsHappen(run[n], run[n + 1]);
    }
    Along(run, inv, 0, i);
  }

  lemma SidePasses<Row>(b: Backend<Row>, th: SinkThread, e: SinkEffect, k: Key)
    requires PassesInv(b, k)
    ensures PassesInv(BackendSide(b, th, e), k)
  {
    if e.send && th.job.Ready? && th.job.k in b.content {
      PassesKept(b, Arrive(Some(th.job.k), b.content[th.job.k]), k);
    } else if e.tick.TickSent? && th.conn.pending != [] && th.conn.pending[0] < |b.attempts| {
      var a := th.conn.pending[0];
      CountUpdate(b.attempts, a, b.attempts[a].(seen := true), PastClaimFor(k));
      CountUpdate(b.attempts, a, b.attempts[a].(seen := true), FailedFor(k));
    }
  }

  lemma PassesHappen<Row(!new)>(sys: System<Row>, sys': System<Row>, k: Key)
    requires Happens(sys, sys') && PassesInv(sys.b, k)
    ensures PassesInv(sys'.b, k)
  {
    var e :| Possible(sys, e) && sys' == Happen(sys, e);
    match e
    case OfBackend(m) => PassesKept(sys.b, m, k);
    case Consumes(batch) => PassesKept(sys.b, Mint(sys.s.minted, batch), k);
    case OfSink(t, w) => SidePasses(sys.b, sys.s.threads[t], ThreadEffect(sys, t, w), k);
    case _ =>
  }

  lemma PassesHold<Row(!new)>(run: seq<System<Row>>, i: nat, k: Key)
    requires IsHistory(run) && i < |run|
    ensures PassesInv(run[i].b, k)
  {
    var inv := (sys: System<Row>) => PassesInv(sys.b, k);
    forall n: nat | n < i && inv(run[n]) ensures inv(run[n + 1]) {
      assert HappensAt(run, n);
      PassesHappen(run[n], run[n + 1], k);
    }
    Along(run, inv, 0, i);
  }

  /** What the event counters count, in every history: events_stored plus the rows of inserts that
      committed but were reported as failed is the size of the table; the skipped lines of a batch are
      counted once per attempt let past the claim, and these are at most one plus the key's expiries,
      its unavailable claims and its attempts answered as failed. So without any of these each skipped
      line is counted at most once. */
  lemma EventsAccounted<Row(!new)>(run: seq<System<Row>>, i: nat, k: Key)
    requires IsHistory(run) && i < |run| && k in run[i].b.content
    ensures var b := run[i].b;
            && |Table(b)| == b.counters.eventsStored + Sum(b.inserts, UnreportedRows)
            && b.counters.skippedMalformed == Sum(b.attempts, SkippedBy)
            && Sum(b.attempts, SkippedFor(k)) == b.content[k].skipped * Count(b.attempts, PastClaimFor(k))
            && Count(b.attempts, PastClaimFor(k))
               <= 1 + b.expired[k] + b.unavailable[k] + Count(b.attempts, FailedFor(k))
            && (b.expired[k] == b.unavailable[k] == Count(b.attempts, FailedFor(k)) == 0 ==>
                  Sum(b.attempts, SkippedFor(k)) <= b.content[k].skipped)
  {
    EventsHold(run, i);
    HistoryHolds(run, i);
    PassesHold(run, i, k);
    TableSize(run[i].b);
    SkippedPerKey(run[i].b.attempts, k, run[i].b.content[k]);
    if Count(run[i].b.attempts, PastClaimFor(k)) <= 1 {
      AtMostOnce(run[i].b.content[k].skipped, Count(run[i].b.attempts, PastClaimFor(k)));
    }
  }

  lemma BoundHappens<Row(!new)>(sys: System<Row>, sys': System<Row>, k: Key)
    requires Happens(sys, sys') && BoundInv(sys.b, k)
    ensures BoundInv(sys'.b, k)
  {
    var e :| Possible(sys, e) && sys' == Happen(sys, e);
    match e
    case OfBackend(m) => BoundKept(sys.b, m, k);
    case Consumes(batch) => BoundKept(sys.b, Mint(sys.s.minted, batch), k);
    case OfSink(t, w) => SideBound(sys.b, sys.s.threads[t], ThreadEffect(sys, t, w), k);
    case _ =>
  }

  lemma SideBound<Row>(b: Backend<Row>, th: SinkThread, e: SinkEffect, k: Key)
    requires BoundInv(b, k)
    ensures BoundInv(BackendSide(b, th, e), k)
  {
    if e.send && th.job.Ready? && th.job.k in b.content {
      BoundKept(b, Arrive(Some(th.job.k), b.content[th.job.k]), k);
    } else if e.tick.TickSent? && th.conn.pending != [] && th.conn.pending[0] < |b.attempts| {
      var a := th.conn.pending[0];
      CountUpdate(b.attempts, a, b.attempts[a].(seen := true), OwesFor(k));
    }
  }

  /** Duplication bound: in every history and for every key, the stored copies are at most one
      plus the key's expiries, its unavailable claims and its inserts that committed but were
      reported as failed; a batch counted as sent without any of these is stored exactly once. */
  lemma CopiesBounded<Row(!new)>(run: seq<System<Row>>, i: nat, k: Key)
    requires IsHistory(run) && i < |run|
    ensures var b := run[i].b;
            && Copies(b.inserts, k) <= 1 + b.expired[k] + b.unavailable[k] + b.misreported[k]
            && (k in run[i].s.sentKeys && b.expired[k] == b.unavailable[k] == b.misreported[k] == 0 ==>
                Copies(b.inserts, k) == 1)
  {
    var inv := (sys: System<Row>) => BoundInv(sys.b, k);
    StartHolds(run[0], k);
    forall n: nat | n < i && inv(run[n]) ensures inv(run[n + 1]) {
      assert HappensAt(run, n);
      BoundHappens(run[n], run[n + 1], k);
    }
    Along(run, inv, 0, i);
    HistoryHolds(run, i);
  }

  /** Answered 200, but the sink never read it. */
  ghost predicate Unread200<Row>(at: Attempt<Row>)
  {
    Answered200(at.phase) && !at.seen
  }

  lemma {:induction false} SettledPartition<Row>(ats: seq<Attempt<Row>>)
    requires forall a :: 0 <= a < |ats| ==> ats[a].phase.Answered? && (ats[a].seen ==> Answered200(ats[a].phase))
    ensures |ats| == Count(ats, Seen) + Count(ats, Unread200) + Count(ats, WasBusy) + Count(ats, DbFailed)
  {
    if ats != [] {
      assert forall a :: 0 <= a < |ats| - 1 ==> ats[1..][a] == ats[a + 1];
      SettledPartition(ats[1..]);
      var at := ats[0];
      assert at.phase.answer.Stored? || at.phase.answer.Duplicate? || at.phase.answer.Busy? || at.phase.answer.Failed?;
      assert One(Seen(at)) + One(Unread200(at)) + One(WasBusy(at)) + One(DbFailed(at)) == 1;
    }
  }

  /** Arrival identity: at every moment received = successful inserts + duplicates + in-flight
      rejections + database failures + in progress; and once every attempt is answered,
      received = sent + database failures + in-flight rejections + 200s the sink never read. */
  lemma ArrivalsReconcile<Row(!new)>(run: seq<System<Row>>, i: nat)
    requires IsHistory(run) && i < |run|
    ensures var b := run[i].b;
            && b.counters.received == Count(b.attempts, InsertOk) + b.counters.duplicates + b.counters.busy
                                      + b.counters.dbFailures + Count(b.attempts, InProgress)
            && ((forall a :: 0 <= a < |b.attempts| ==> b.attempts[a].phase.Answered?) ==>
                  b.counters.received == run[i].s.stats.sent + b.counters.dbFailures + b.counters.busy
                  + Count(b.attempts, Unread200))
  {
    HistoryHolds(run, i);
    ArrivalIdentity(run[i].b);
    if forall a :: 0 <= a < |run[i].b.attempts| ==> run[i].b.attempts[a].phase.Answered? {
      SettledPartition(run[i].b.attempts);
    }
  }

  /** Sink batch conservation at every moment, and its settled form after stop(). */
  lemma BatchesConserved<Row(!new)>(run: seq<System<Row>>, i: nat)
    requires IsHistory(run) && i < |run|
    ensures var s := run[i].s;
            && s.stats.consumed == s.stats.sent + s.stats.droppedOutbound + s.stats.droppedExhausted + |s.queue|
               + Count(s.threads, InHand)
            && (s.threads != [] && !s.consumedLate
                && (forall t :: 0 <= t < |s.threads| ==> s.threads[t].job.Exited?) ==>
                  s.stats.consumed == s.stats.sent + s.stats.droppedOutbound + s.stats.droppedExhausted)
  {
    HistoryHolds(run, i);
    var s := run[i].s;
    if s.threads != [] && !s.consumedLate && forall t :: 0 <= t < |s.threads| ==> s.threads[t].job.Exited? {
      StoppedMeansSettled(s);
    }
  }

  /** The counters balance without in-flight terms if and only if nothing is queued and nobody has a
      batch in hand. */
  lemma BalancedIff<Row(!new)>(run: seq<System<Row>>, i: nat)
    requires IsHistory(run) && i < |run|
    ensures var s := run[i].s;
            s.stats.consumed == s.stats.sent + s.stats.droppedOutbound + s.stats.droppedExhausted <==>
            s.queue == [] && forall t :: 0 <= t < |s.threads| ==> !InHand(s.threads[t])
  {
    BatchesConserved(run, i);
    CountZero(run[i].s.threads, InHand);
  }
}
