/** Ingestion in the backend: any number of concurrent attempts, each walking through claim,
    insert and commit or release against one Redis key store and one database. Every Redis
    command and every insert is one step; commands may be refused, fail with or without having
    been applied, and leases may expire at any time. A crashed attempt simply takes no further
    step. Attempt identifiers double as lease tokens, which the source draws fresh per claim. */
module Backends {
  import opened QueueTypes
  import opened Tally

  type Key = nat
  type Id = nat

  /** What a key holds: an in-flight lease with its holder's token, or the committed mark. */
  datatype Lease = InFlight(token: Id) | Committed

  /** The four ways a request is answered: the first two with status 200, the others with 503. */
  datatype Answer = Stored | Duplicate | Busy | Failed

  datatype Phase =
    | Arrived                     // counted, about to claim
    | Inserting(leased: bool)     // inside the insert; leased: it was told "claimed"
    | Committing                  // insert reported success, about to promote its lease
    | Releasing                   // insert reported failure, about to give its lease back
    | Answered(answer: Answer)

  datatype Batch<Row> = Batch(valid: seq<Row>, skipped: nat)
  datatype Attempt<Row> = Attempt(key: Option<Key>, batch: Batch<Row>, phase: Phase, seen: bool)
  datatype Insert<Row> = Insert(key: Option<Key>, rows: seq<Row>, reported: bool)   // reported: as a success

  datatype Backend<Row> = Backend(
    redis: map<Key, Lease>,
    inserts: seq<Insert<Row>>,        // committed inserts, in commit order
    attempts: seq<Attempt<Row>>,
    content: map<Key, Batch<Row>>,    // the one batch each minted key stands for
    counters: Counters,
    // auxiliary: the events the duplication bound charges, per key
    expired: multiset<Key>,
    unavailable: multiset<Key>,
    misreported: multiset<Key>)

  datatype Counters = Counters(
    received: nat,                    // batches_received
    duplicates: nat,                  // batches_duplicate_suppressed
    busy: nat,                        // batches_in_flight_rejected
    dbFailures: nat,                  // db_failures
    redisErrors: nat,                 // redis_unavailable
    eventsStored: nat,                // events_stored
    skippedMalformed: nat)            // events_skipped_malformed

  /** A Redis command: refused because the client is not ready, failed (applied or not), or
      answered. */
  datatype RedisOutcome = NotReady | Errored(applied: bool) | Replied

  /** An insert: committed and acknowledged, refused, or committed with the reply lost. */
  datatype DbOutcome = Acknowledged | Refused | ReplyLost

  datatype Move<Row> =
    | Mint(k: Key, batch: Batch<Row>)                        // a batch gets its key
    | Arrive(key: Option<Key>, batch: Batch<Row>)            // a request arrives
    | Act(a: Id, redis: RedisOutcome, db: DbOutcome)         // an attempt takes its next step
    | Expire(k: Key)

  ghost predicate Applied(o: RedisOutcome)
  {
    o.Replied? || (o.Errored? && o.applied)
  }

  // ---- one step of one attempt ----

  /** What the key store holds under the attempt's key, as seen with its own token. */
  datatype View = NoLease | Mine | Others | Done

  datatype LeaseMove = Leave | Take | Promote | Drop
  datatype Tick = NoTick | TickDuplicate | TickBusy | TickDbFailure

  /** What a step does: the attempt's next phase, its effect on its key, whether a copy of the
      batch is committed, which counter it bumps, and what the duplication bound charges. */
  datatype Effect = Effect(
    phase: Phase, lease: LeaseMove, insert: bool, tick: Tick, redisError: bool,
    unavailable: bool, misreported: bool)

  ghost function Go(phase: Phase): Effect
  {
    Effect(phase, Leave, false, NoTick, false, false, false)
  }

  /** claim(): one SET NX GET, and what ingest() does with its answer. */
  ghost function Claim(keyed: bool, view: View, o: RedisOutcome): Effect
  {
    if !keyed then Go(Inserting(false))
    else if !o.Replied? then
      Go(Inserting(false)).(
        lease := if Applied(o) && view.NoLease? then Take else Leave, redisError := true, unavailable := true)
    else match view
      case NoLease => Go(Inserting(true)).(lease := Take)
      case Done => Go(Answered(Duplicate)).(tick := TickDuplicate)
      case _ => Go(Answered(Busy)).(tick := TickBusy)
  }

  /** The insert and its two continuations. */
  ghost function Insertion(keyed: bool, leased: bool, o: DbOutcome): Effect
  {
    if o.Acknowledged? then Go(if leased then Committing else Answered(Stored)).(insert := true)
    else Go(if leased then Releasing else Answered(Failed)).(
           insert := o.ReplyLost?, tick := TickDbFailure, misreported := o.ReplyLost? && keyed)
  }

  /** markCommitted(): COMMIT_IF_OWNER compares the token before promoting. */
  ghost function MarkCommitted(view: View, o: RedisOutcome): Effect
  {
    Go(Answered(Stored)).(lease := if Applied(o) && view.Mine? then Promote else Leave, redisError := !o.Replied?)
  }

  /** release(): RELEASE_IF_OWNER compares the token before deleting. */
  ghost function GiveBack(view: View, o: RedisOutcome): Effect
  {
    Go(Answered(Failed)).(lease := if Applied(o) && view.Mine? then Drop else Leave)
  }

  ghost function React(keyed: bool, phase: Phase, view: View, redis: RedisOutcome, db: DbOutcome): Effect
  {
    match phase
    case Arrived => Claim(keyed, view, redis)
    case Inserting(leased) => Insertion(keyed, leased, db)
    case Committing => MarkCommitted(view, redis)
    case Releasing => GiveBack(view, redis)
    case Answered(_) => Go(phase)
  }

  // ---- the backend ----

  ghost function ViewOf<Row>(b: Backend<Row>, a: Id): View
    requires a < |b.attempts|
  {
    if b.attempts[a].key.None? || b.attempts[a].key.value !in b.redis then NoLease
    else match b.redis[b.attempts[a].key.value]
      case Committed => Done
      case InFlight(token) => if token == a then Mine else Others
  }

  ghost function Charge(s: multiset<Key>, key: Option<Key>, hit: bool): multiset<Key>
  {
    if hit && key.Some? then s + multiset{key.value} else s
  }

  ghost function Apply<Row>(b: Backend<Row>, a: Id, e: Effect): Backend<Row>
    requires a < |b.attempts|
  {
    var at := b.attempts[a];
    b.(attempts := b.attempts[a := at.(phase := e.phase)],
       redis := if at.key.None? then b.redis
                else match e.lease
                  case Leave => b.redis
                  case Take => b.redis[at.key.value := InFlight(a)]
                  case Promote => b.redis[at.key.value := Committed]
                  case Drop => b.redis - {at.key.value},
       inserts := if e.insert then b.inserts + [Insert(at.key, at.batch.valid, !e.tick.TickDbFailure?)] else b.inserts,
       unavailable := Charge(b.unavailable, at.key, e.unavailable),
       misreported := Charge(b.misreported, at.key, e.misreported),
       counters := b.counters.(
         duplicates := b.counters.duplicates + One(e.tick.TickDuplicate?),
         busy := b.counters.busy + One(e.tick.TickBusy?),
         dbFailures := b.counters.dbFailures + One(e.tick.TickDbFailure?),
         redisErrors := b.counters.redisErrors + One(e.redisError),
         eventsStored := b.counters.eventsStored + (if e.insert && !e.tick.TickDbFailure? then |at.batch.valid| else 0),
         skippedMalformed := b.counters.skippedMalformed
                             + (if at.phase.Arrived? && e.phase.Inserting? then at.batch.skipped else 0)))
  }

  /** Which moves can happen. A request with a key carries the batch that key was minted for; an
      empty row list is stored without touching the database, so it cannot fail. */
  ghost predicate Enabled<Row>(b: Backend<Row>, m: Move<Row>)
  {
    match m
    case Mint(k, _) => k !in b.content
    case Arrive(key, batch) => key.Some? ==> key.value in b.content && b.content[key.value] == batch
    case Act(a, _, db) => a < |b.attempts| && (b.attempts[a].batch.valid == [] ==> db.Acknowledged?)
    case Expire(k) => k in b.redis
  }

  ghost function EffectOf<Row>(b: Backend<Row>, a: Id, redis: RedisOutcome, db: DbOutcome): Effect
    requires a < |b.attempts|
  {
    React(b.attempts[a].key.Some?, b.attempts[a].phase, ViewOf(b, a), redis, db)
  }

  ghost function Step<Row>(b: Backend<Row>, m: Move<Row>): Backend<Row>
    requires Enabled(b, m)
  {
    match m
    case Mint(k, batch) => b.(content := b.content[k := batch])
    case Arrive(key, batch) =>
      b.(attempts := b.attempts + [Attempt(key, batch, Arrived, false)],
         counters := b.counters.(received := b.counters.received + 1))
    case Act(a, redis, db) => Apply(b, a, EffectOf(b, a, redis, db))
    case Expire(k) => b.(redis := b.redis - {k}, expired := b.expired + multiset{k})
  }

  ghost predicate Fresh<Row>(b: Backend<Row>)
  {
    b == Backend(map[], [], [], map[], Counters(0, 0, 0, 0, 0, 0, 0), multiset{}, multiset{}, multiset{})
  }

  // ---- lease safety, step by step ----

  /** A live lease changes hands only through its own holder or by expiring; the committed mark
      only expires; and a lease is only ever taken on a free key, by the attempt told "claimed"
      or by one whose reply was lost. Fail-open and stale attempts change nobody's lease. */
  lemma LeaseOnlyMovedByHolder<Row>(b: Backend<Row>, m: Move<Row>, k: Key)
    requires Enabled(b, m)
    ensures var b' := Step(b, m);
            && (k in b.redis && b.redis[k].InFlight? ==>
                  || (k in b'.redis && b'.redis[k] == b.redis[k])
                  || (m == Expire(k) && k !in b'.redis)
                  || (m.Act? && m.a == b.redis[k].token && b.attempts[m.a].phase.Committing? && k in b'.redis
                      && b'.redis[k].Committed?)
                  || (m.Act? && m.a == b.redis[k].token && b.attempts[m.a].phase.Releasing? && k !in b'.redis))
            && (k in b.redis && b.redis[k].Committed? ==>
                  (k in b'.redis && b'.redis[k].Committed?) || (m == Expire(k) && k !in b'.redis))
            && (k !in b.redis && k in b'.redis ==>
                  m.Act? && b'.redis[k] == InFlight(m.a) && b.attempts[m.a].key == Some(k)
                  && b.attempts[m.a].phase.Arrived?)
  {
    if m.Act? {
      var at := b.attempts[m.a];
      ReactLease(at.key.Some?, at.phase, ViewOf(b, m.a), m.redis, m.db);
      ApplyLease(b, m.a, EffectOf(b, m.a, m.redis, m.db), k);
    }
  }

  /** A step takes a key only on arrival and only if it is free, and promotes or deletes only a lease
      that carries its own token. */
  lemma ReactLease(keyed: bool, phase: Phase, view: View, redis: RedisOutcome, db: DbOutcome)
    ensures var e := React(keyed, phase, view, redis, db);
            && (e.lease.Take? ==> phase.Arrived? && view.NoLease?)
            && (e.lease.Promote? ==> phase.Committing? && view.Mine?)
            && (e.lease.Drop? ==> phase.Releasing? && view.Mine?)
  {
  }

  /** What that does to one key. */
  lemma ApplyLease<Row>(b: Backend<Row>, a: Id, e: Effect, k: Key)
    requires a < |b.attempts|
    ensures var at, redis' := b.attempts[a], Apply(b, a, e).redis;
            if at.key != Some(k) || e.lease.Leave?
              then (k in redis' <==> k in b.redis) && (k in b.redis ==> redis'[k] == b.redis[k])
            else if e.lease.Take? then k in redis' && redis'[k] == InFlight(a)
            else if e.lease.Promote? then k in redis' && redis'[k].Committed?
            else k !in redis'
  {
  }

  /** Nobody is told "claimed" while a lease or the committed mark is live, and "duplicate" is
      only ever answered on the committed mark. */
  lemma ClaimedOnlyWhenFree<Row>(b: Backend<Row>, a: Id, redis: RedisOutcome, db: DbOutcome)
    requires Enabled(b, Act(a, redis, db)) && b.attempts[a].key.Some? && b.attempts[a].phase.Arrived?
    ensures var k := b.attempts[a].key.value;
            var b' := Step(b, Act(a, redis, db));
            && (b'.attempts[a].phase == Inserting(true) <==> redis.Replied? && k !in b.redis)
            && (b'.attempts[a].phase == Inserting(true) ==> k in b'.redis && b'.redis[k] == InFlight(a))
            && (b'.attempts[a].phase == Answered(Duplicate) <==>
                redis.Replied? && k in b.redis && b.redis[k].Committed?)
  {
    var at := b.attempts[a];
    ReactClaim(ViewOf(b, a), redis, db);
    ApplyLease(b, a, EffectOf(b, a, redis, db), at.key.value);
  }

  lemma ReactClaim(view: View, redis: RedisOutcome, db: DbOutcome)
    ensures var e := React(true, Arrived, view, redis, db);
            && (e.phase == Inserting(true) <==> redis.Replied? && view.NoLease?)
            && (e.phase == Inserting(true) ==> e.lease.Take?)
            && (e.phase == Answered(Duplicate) <==> redis.Replied? && view.Done?)
  {
  }

  // ---- what an attempt reports ----

  /** An insert is reported for what it was. Acknowledged: the rows are in the table and counted as stored,
      and the attempt goes on to promote its lease or, without one, answers 200. Otherwise: one database
      failure is counted, and it goes on to give its lease back or answers 503; the rows are in the table
      exactly if only the reply was lost. Nothing else changes. */
  lemma InsertReported<Row>(b: Backend<Row>, a: Id, redis: RedisOutcome, db: DbOutcome)
    requires Enabled(b, Act(a, redis, db)) && b.attempts[a].phase.Inserting?
    ensures var at, b' := b.attempts[a], Step(b, Act(a, redis, db));
            && |b'.attempts| == |b.attempts|
            && (db.Acknowledged? <==>
                  b'.attempts[a].phase == if at.phase.leased then Committing else Answered(Stored))
            && (!db.Acknowledged? <==>
                  b'.attempts[a].phase == if at.phase.leased then Releasing else Answered(Failed))
            && b'.inserts == (if db.Refused? then b.inserts
                              else b.inserts + [Insert(at.key, at.batch.valid, db.Acknowledged?)])
            && b'.redis == b.redis
            && b'.counters == b.counters.(
                 eventsStored := b.counters.eventsStored + (if db.Acknowledged? then |at.batch.valid| else 0),
                 dbFailures := b.counters.dbFailures + One(!db.Acknowledged?))
  {
  }

  /** After an acknowledged insert the answer is 200 and after a failed one 503, whatever Redis does; and
      the lease is promoted or deleted if and only if the command took effect and found it its own. */
  lemma FinishReported<Row>(b: Backend<Row>, a: Id, redis: RedisOutcome, db: DbOutcome)
    requires Enabled(b, Act(a, redis, db)) && b.attempts[a].key.Some?
    requires b.attempts[a].phase.Committing? || b.attempts[a].phase.Releasing?
    ensures var b', k, ok := Step(b, Act(a, redis, db)), b.attempts[a].key.value, b.attempts[a].phase.Committing?;
            && |b'.attempts| == |b.attempts| && b'.attempts[a].phase == Answered(if ok then Stored else Failed)
            && b'.inserts == b.inserts
            && b'.redis == (if !Applied(redis) || k !in b.redis || b.redis[k] != InFlight(a) then b.redis
                            else if ok then b.redis[k := Committed] else b.redis - {k})
            && b'.counters == b.counters.(redisErrors := b.counters.redisErrors + One(ok && !redis.Replied?))
  {
  }

  // ---- committed implies stored ----

  ghost function HasKey<Row>(k: Key): Insert<Row> -> bool
  {
    (i: Insert<Row>) => i.key == Some(k)
  }

  /** How many copies of the batch are stored. */
  ghost function Copies<Row>(inserts: seq<Insert<Row>>, k: Key): nat
  {
    Count(inserts, HasKey(k))
  }

  ghost predicate Answered200(p: Phase)
  {
    p == Answered(Stored) || p == Answered(Duplicate)
  }

  /** Phases that vouch for a stored copy. */
  ghost predicate Vouches(p: Phase)
  {
    p.Committing? || Answered200(p)
  }

  ghost predicate NeedsKey(p: Phase)
  {
    p.Committing? || p.Releasing? || p == Inserting(true)
  }

  /** The committed mark and every answer 200 for a keyed request stand for a stored copy. */
  ghost predicate StoredInv<Row>(b: Backend<Row>)
  {
    && (forall k :: k in b.redis && b.redis[k].Committed? ==> Copies(b.inserts, k) >= 1)
    && (forall a :: 0 <= a < |b.attempts| && b.attempts[a].key.Some? && Vouches(b.attempts[a].phase) ==>
          Copies(b.inserts, b.attempts[a].key.value) >= 1)
    && (forall a :: 0 <= a < |b.attempts| && NeedsKey(b.attempts[a].phase) ==> b.attempts[a].key.Some?)
  }

  /** The local facts the global arguments rest on. */
  ghost predicate Fits(keyed: bool, phase: Phase, view: View, e: Effect)
  {
    // vouching needs an insert of its own, the committed mark, or an earlier vouching phase
    && (Vouches(e.phase) ==> Vouches(phase) || e.insert || view.Done?)
    && (keyed && view.Done? ==> e.lease.Leave?)
    && (NeedsKey(e.phase) ==> keyed || NeedsKey(phase))
    && (e.lease.Promote? ==> phase.Committing?)
    // what the duplication bound charges
    && One(e.insert) + One(Owing(e.phase)) + One(e.lease.Drop? || (view.NoLease? && !e.lease.Take?))
       <= One(Owing(phase)) + One(view.NoLease?) + One(e.unavailable) + One(e.misreported)
  }

  /** May still add a copy, or still owes the key's release. */
  ghost predicate Owing(p: Phase)
  {
    p.Inserting? || p.Releasing?
  }

  lemma ReactFits(phase: Phase, view: View, redis: RedisOutcome, db: DbOutcome)
    ensures Fits(true, phase, view, React(true, phase, view, redis, db))
  {
  }

  lemma ReactFitsUnkeyed(phase: Phase, redis: RedisOutcome, db: DbOutcome)
    requires !NeedsKey(phase)
    ensures var e := React(false, phase, NoLease, redis, db);
            !NeedsKey(e.phase) && !e.unavailable && !e.misreported
  {
  }

  lemma CopiesAfter<Row>(b: Backend<Row>, a: Id, e: Effect, k: Key)
    requires a < |b.attempts|
    ensures Copies(Apply(b, a, e).inserts, k) == Copies(b.inserts, k) + One(e.insert && b.attempts[a].key == Some(k))
  {
    CountAppend(b.inserts, Insert(b.attempts[a].key, b.attempts[a].batch.valid, !e.tick.TickDbFailure?), HasKey(k));
  }

  lemma ApplyStored<Row>(b: Backend<Row>, a: Id, e: Effect)
    requires a < |b.attempts| && StoredInv(b)
    requires b.attempts[a].key.Some? ==> Fits(true, b.attempts[a].phase, ViewOf(b, a), e)
    requires b.attempts[a].key.None? ==> !NeedsKey(e.phase)
    ensures StoredInv(Apply(b, a, e))
  {
    forall k: Key
      ensures Copies(Apply(b, a, e).inserts, k) == Copies(b.inserts, k) + One(e.insert && b.attempts[a].key == Some(k))
    {
      CopiesAfter(b, a, e, k);
    }
  }

  lemma StoredKept<Row>(b: Backend<Row>, m: Move<Row>)
    requires Enabled(b, m) && StoredInv(b)
    ensures StoredInv(Step(b, m))
  {
    if m.Act? {
      var at := b.attempts[m.a];
      if at.key.Some? {
        ReactFits(at.phase, ViewOf(b, m.a), m.redis, m.db);
      } else {
        ReactFitsUnkeyed(at.phase, m.redis, m.db);
      }
      ApplyStored(b, m.a, EffectOf(b, m.a, m.redis, m.db));
    }
  }

  /** A keyed request and a keyed insert carry the batch their key was minted for. */
  ghost predicate ContentInv<Row>(b: Backend<Row>)
  {
    && (forall a :: 0 <= a < |b.attempts| && b.attempts[a].key.Some? ==>
          b.attempts[a].key.value in b.content && b.content[b.attempts[a].key.value] == b.attempts[a].batch)
    && (forall i :: 0 <= i < |b.inserts| && b.inserts[i].key.Some? ==>
          b.inserts[i].key.value in b.content && b.content[b.inserts[i].key.value].valid == b.inserts[i].rows)
  }

  lemma ApplyContent<Row>(b: Backend<Row>, a: Id, e: Effect)
    requires a < |b.attempts| && ContentInv(b)
    ensures ContentInv(Apply(b, a, e))
  {
  }

  lemma ContentKept<Row>(b: Backend<Row>, m: Move<Row>)
    requires Enabled(b, m) && ContentInv(b)
    ensures ContentInv(Step(b, m))
  {
    if m.Act? { ApplyContent(b, m.a, EffectOf(b, m.a, m.redis, m.db)); }
  }

  // ---- the duplication bound ----

  ghost function OwesFor<Row>(k: Key): Attempt<Row> -> bool
  {
    (at: Attempt<Row>) => at.key == Some(k) && Owing(at.phase)
  }

  ghost predicate BoundInv<Row>(b: Backend<Row>, k: Key)
  {
    Copies(b.inserts, k) + Count(b.attempts, OwesFor(k)) + One(k !in b.redis)
      <= 1 + b.expired[k] + b.unavailable[k] + b.misreported[k]
  }

  lemma ApplyBound<Row>(b: Backend<Row>, a: Id, e: Effect, k: Key)
    requires a < |b.attempts| && BoundInv(b, k)
    requires b.attempts[a].key == Some(k) ==> Fits(true, b.attempts[a].phase, ViewOf(b, a), e)
    ensures BoundInv(Apply(b, a, e), k)
  {
    CopiesAfter(b, a, e, k);
    CountUpdate(b.attempts, a, b.attempts[a].(phase := e.phase), OwesFor(k));
  }

  lemma BoundKept<Row>(b: Backend<Row>, m: Move<Row>, k: Key)
    requires Enabled(b, m) && BoundInv(b, k)
    ensures BoundInv(Step(b, m), k)
  {
    match m
    case Arrive(key, batch) => CountAppend(b.attempts, Attempt(key, batch, Arrived, false), OwesFor(k));
    case Act(a, redis, db) =>
      ReactFits(b.attempts[a].phase, ViewOf(b, a), redis, db);
      ApplyBound(b, a, EffectOf(b, a, redis, db), k);
    case _ =>
  }

  // ---- the arrival identity ----

  ghost predicate InProgress<Row>(at: Attempt<Row>) { at.phase.Arrived? || at.phase.Inserting? }
  ghost predicate InsertOk<Row>(at: Attempt<Row>) { at.phase.Committing? || at.phase == Answered(Stored) }
  ghost predicate WasDuplicate<Row>(at: Attempt<Row>) { at.phase == Answered(Duplicate) }
  ghost predicate WasBusy<Row>(at: Attempt<Row>) { at.phase == Answered(Busy) }
  ghost predicate DbFailed<Row>(at: Attempt<Row>) { at.phase.Releasing? || at.phase == Answered(Failed) }

  /** Each counter counts the attempts that took its exit. */
  ghost predicate CountersInv<Row>(b: Backend<Row>)
  {
    && b.counters.received == |b.attempts|
    && b.counters.duplicates == Count(b.attempts, WasDuplicate)
    && b.counters.busy == Count(b.attempts, WasBusy)
    && b.counters.dbFailures == Count(b.attempts, DbFailed)
  }

  lemma ReactTicks(keyed: bool, phase: Phase, view: View, redis: RedisOutcome, db: DbOutcome)
    ensures var e := React(keyed, phase, view, redis, db);
            && One(e.tick.TickDuplicate?) + One(phase == Answered(Duplicate)) == One(e.phase == Answered(Duplicate))
            && One(e.tick.TickBusy?) + One(phase == Answered(Busy)) == One(e.phase == Answered(Busy))
            && One(e.tick.TickDbFailure?) + One(phase.Releasing? || phase == Answered(Failed))
               == One(e.phase.Releasing? || e.phase == Answered(Failed))
  {
  }

  lemma CountersKept<Row>(b: Backend<Row>, m: Move<Row>)
    requires Enabled(b, m) && CountersInv(b)
    ensures CountersInv(Step(b, m))
  {
    match m
    case Arrive(key, batch) =>
      var at := Attempt(key, batch, Arrived, false);
      CountAppend(b.attempts, at, WasDuplicate);
      CountAppend(b.attempts, at, WasBusy);
      CountAppend(b.attempts, at, DbFailed);
    case Act(a, redis, db) =>
      ReactTicks(b.attempts[a].key.Some?, b.attempts[a].phase, ViewOf(b, a), redis, db);
      var at := b.attempts[a].(phase := EffectOf(b, a, redis, db).phase);
      CountUpdate(b.attempts, a, at, WasDuplicate);
      CountUpdate(b.attempts, a, at, WasBusy);
      CountUpdate(b.attempts, a, at, DbFailed);
    case _ =>
  }

  /** Every attempt is in exactly one of five places. */
  lemma {:induction false} AttemptsPartition<Row>(ats: seq<Attempt<Row>>)
    ensures |ats| == Count(ats, InProgress) + Count(ats, InsertOk) + Count(ats, WasDuplicate) + Count(ats, WasBusy)
            + Count(ats, DbFailed)
  {
    if ats != [] {
      AttemptsPartition(ats[1..]);
      var at := ats[0];
      assert at.phase.Answered? ==>
             at.phase.answer.Stored? || at.phase.answer.Duplicate? || at.phase.answer.Busy? || at.phase.answer.Failed?;
      assert One(InProgress(at)) + One(InsertOk(at)) + One(WasDuplicate(at)) + One(WasBusy(at)) + One(DbFailed(at))
             == 1;
    }
  }

  /** received = successful inserts + duplicates + in-flight rejections + database failures + in
      progress. */
  lemma ArrivalIdentity<Row>(b: Backend<Row>)
    requires CountersInv(b)
    ensures b.counters.received ==
            Count(b.attempts, InsertOk) + b.counters.duplicates + b.counters.busy + b.counters.dbFailures
            + Count(b.attempts, InProgress)
  {
    AttemptsPartition(b.attempts);
  }

  // ---- the event counters ----

  /** The attempt was let past the claim. */
  ghost predicate PastClaim<Row>(at: Attempt<Row>)
  {
    at.phase.Inserting? || at.phase.Committing? || at.phase.Releasing? || at.phase == Answered(Stored)
    || at.phase == Answered(Failed)
  }

  ghost function SkippedBy<Row>(at: Attempt<Row>): nat
  {
    if PastClaim(at) then at.batch.skipped else 0
  }

  ghost function RowCount<Row>(i: Insert<Row>): nat { |i.rows| }
  ghost function ReportedRows<Row>(i: Insert<Row>): nat { if i.reported then |i.rows| else 0 }
  ghost function UnreportedRows<Row>(i: Insert<Row>): nat { if i.reported then 0 else |i.rows| }

  /** events_skipped_malformed counts the skipped lines once per attempt let past the claim, and
      events_stored the rows of the inserts that reported success. */
  ghost predicate EventsInv<Row>(b: Backend<Row>)
  {
    && b.counters.skippedMalformed == Sum(b.attempts, SkippedBy)
    && b.counters.eventsStored == Sum(b.inserts, ReportedRows)
  }

  lemma ReactPasses<Row>(at: Attempt<Row>, view: View, redis: RedisOutcome, db: DbOutcome)
    ensures var e := React(at.key.Some?, at.phase, view, redis, db);
            && (PastClaim(at.(phase := e.phase)) <==> PastClaim(at) || (at.phase.Arrived? && e.phase.Inserting?))
            && (at.phase.Arrived? ==> !PastClaim(at))
  {
  }

  lemma EventsKept<Row>(b: Backend<Row>, m: Move<Row>)
    requires Enabled(b, m) && EventsInv(b)
    ensures EventsInv(Step(b, m))
  {
    match m
    case Arrive(key, batch) => SumAppend(b.attempts, Attempt(key, batch, Arrived, false), SkippedBy);
    case Act(a, redis, db) =>
      var at, e := b.attempts[a], EffectOf(b, a, redis, db);
      ReactPasses(at, ViewOf(b, a), redis, db);
      SumUpdate(b.attempts, a, at.(phase := e.phase), SkippedBy);
      SumAppend(b.inserts, Insert(at.key, at.batch.valid, !e.tick.TickDbFailure?), ReportedRows);
    case _ =>
  }

  // ---- per key ----

  ghost function PastClaimFor<Row>(k: Key): Attempt<Row> -> bool
  {
    (at: Attempt<Row>) => at.key == Some(k) && PastClaim(at)
  }

  ghost function SkippedFor<Row>(k: Key): Attempt<Row> -> nat
  {
    (at: Attempt<Row>) => if at.key == Some(k) then SkippedBy(at) else 0
  }

  /** What the skipped-line counter holds for a batch: its skipped lines times the attempts let past the
      claim. */
  lemma {:induction false} SkippedPerKey<Row>(ats: seq<Attempt<Row>>, k: Key, batch: Batch<Row>)
    requires forall a :: 0 <= a < |ats| && ats[a].key == Some(k) ==> ats[a].batch == batch
    ensures Sum(ats, SkippedFor(k)) == batch.skipped * Count(ats, PastClaimFor(k))
  {
    if ats != [] {
      assert forall a :: 0 <= a < |ats| - 1 ==> ats[1..][a] == ats[a + 1];
      SkippedPerKey(ats[1..], k, batch);
      Distributes(batch.skipped, One(PastClaimFor(k)(ats[0])), Count(ats[1..], PastClaimFor(k)));
    }
  }

  lemma Distributes(s: nat, x: nat, n: nat)
    ensures s * (x + n) == s * x + s * n
  {
  }

  lemma AtMostOnce(s: nat, n: nat)
    requires n <= 1
    ensures s * n <= s
  {
  }

  /** What lets an attempt count its skipped lines: it arrives with no key, or Redis does not reply, or
      its key is free. No other step counts any. */
  lemma LinesCountedIff<Row>(b: Backend<Row>, m: Move<Row>)
    requires Enabled(b, m)
    ensures Step(b, m).counters.skippedMalformed - b.counters.skippedMalformed ==
            if m.Act? && b.attempts[m.a].phase.Arrived?
               && (b.attempts[m.a].key.None? || !m.redis.Replied? || b.attempts[m.a].key.value !in b.redis)
            then b.attempts[m.a].batch.skipped else 0
  {
    if m.Act? { ReactPassesIff(b.attempts[m.a].key.Some?, b.attempts[m.a].phase, ViewOf(b, m.a), m.redis, m.db); }
  }

  lemma ReactPassesIff(keyed: bool, phase: Phase, view: View, redis: RedisOutcome, db: DbOutcome)
    ensures phase.Arrived? ==>
              (React(keyed, phase, view, redis, db).phase.Inserting? <==> !keyed || !redis.Replied? || view.NoLease?)
  {
  }

  /** Answered as failed after getting past the claim. */
  ghost function FailedFor<Row>(k: Key): Attempt<Row> -> bool
  {
    (at: Attempt<Row>) => at.key == Some(k) && at.phase == Answered(Failed)
  }

  /** Each attempt let past the claim used up the free key, an expiry, an unavailable claim or the
      release of an attempt that failed. */
  ghost predicate PassesInv<Row>(b: Backend<Row>, k: Key)
  {
    Count(b.attempts, PastClaimFor(k)) + One(k !in b.redis)
      <= 1 + b.expired[k] + b.unavailable[k] + Count(b.attempts, FailedFor(k))
  }

  lemma ReactCharges(phase: Phase, view: View, redis: RedisOutcome, db: DbOutcome)
    ensures var e := React(true, phase, view, redis, db);
            && One(phase.Arrived? && e.phase.Inserting?) + One(e.lease.Drop? || (view.NoLease? && !e.lease.Take?))
               + One(phase == Answered(Failed))
               <= One(view.NoLease?) + One(e.unavailable) + One(e.phase == Answered(Failed))
            && (e.lease.Promote? ==> view.Mine?)
  {
  }

  lemma ApplyPasses<Row>(b: Backend<Row>, a: Id, redis: RedisOutcome, db: DbOutcome, k: Key)
    requires a < |b.attempts| && PassesInv(b, k)
    ensures PassesInv(Apply(b, a, EffectOf(b, a, redis, db)), k)
  {
    var at, e := b.attempts[a], EffectOf(b, a, redis, db);
    CountUpdate(b.attempts, a, at.(phase := e.phase), PastClaimFor(k));
    CountUpdate(b.attempts, a, at.(phase := e.phase), FailedFor(k));
    if at.key == Some(k) {
      ReactCharges(at.phase, ViewOf(b, a), redis, db);
      ReactPasses(at, ViewOf(b, a), redis, db);
    }
  }

  lemma PassesKept<Row>(b: Backend<Row>, m: Move<Row>, k: Key)
    requires Enabled(b, m) && PassesInv(b, k)
    ensures PassesInv(Step(b, m), k)
  {
    match m
    case Arrive(key, batch) =>
      CountAppend(b.attempts, Attempt(key, batch, Arrived, false), PastClaimFor(k));
      CountAppend(b.attempts, Attempt(key, batch, Arrived, false), FailedFor(k));
    case Act(a, redis, db) => ApplyPasses(b, a, redis, db, k);
    case _ =>
  }

  // ---- rows in the table ----

  ghost function RowsOf<Row>(i: Insert<Row>): multiset<Row>
  {
    multiset(i.rows)
  }

  /** The events table. */
  ghost function Table<Row>(b: Backend<Row>): multiset<Row>
  {
    Gather(b.inserts, RowsOf)
  }

  /** The table has a row for every event counted as stored, and one for every row of an insert that
      committed but was reported as failed. */
  lemma TableSize<Row>(b: Backend<Row>)
    requires EventsInv(b)
    ensures |Table(b)| == b.counters.eventsStored + Sum(b.inserts, UnreportedRows)
  {
    GatherSize(b.inserts);
    SumSplit(b.inserts, RowCount, ReportedRows, UnreportedRows);
  }

  lemma {:induction false} GatherSize<Row>(inserts: seq<Insert<Row>>)
    ensures |Gather(inserts, RowsOf)| == Sum(inserts, RowCount)
  {
    if inserts != [] {
      GatherSize(inserts[1..]);
    }
  }

  /** A stored copy means that every valid row of the key's batch is in the table. */
  lemma CopyHasAllRows<Row>(b: Backend<Row>, k: Key)
    requires ContentInv(b) && Copies(b.inserts, k) >= 1
    ensures k in b.content && multiset(b.content[k].valid) <= Table(b)
  {
    CountZero(b.inserts, HasKey(k));
    var i :| 0 <= i < |b.inserts| && HasKey(k)(b.inserts[i]);
    GatherMember(b.inserts, i, RowsOf);
  }
}
