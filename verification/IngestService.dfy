/** The ingest and idempotency services as the objects they are. Each of the three things an attempt
    does (claim, insert, finish) is shown to change key store, table and counters exactly as the one
    step the Backends protocol gives it, from any state other attempts may have left behind: with
    the lease still its own, expired, or taken over. */
module IngestServices {
  import opened QueueTypes
  import opened Tally
  import opened Backends
  import R = Repository

  datatype ClaimResult = Claimed(token: Id) | AlreadyCommitted | InFlightElsewhere | Unavailable

  class IdempotencyService {
    var store: map<Key, Lease>
    var redisUnavailable: nat

    constructor ()
      ensures store == map[] && redisUnavailable == 0
    {
      store, redisUnavailable := map[], 0;
    }

    /** SET NX GET: takes the key only if it is free, and reads what is there otherwise. */
    method Claim(key: Key, token: Id, o: RedisOutcome) returns (r: ClaimResult)
      modifies this
      ensures r == if !o.Replied? then Unavailable
                   else if key !in old(store) then Claimed(token)
                   else if old(store)[key].Committed? then AlreadyCommitted else InFlightElsewhere
      ensures store == if Applied(o) && key !in old(store) then old(store)[key := InFlight(token)] else old(store)
      ensures redisUnavailable == old(redisUnavailable) + One(!o.Replied?)
    {
      if o.NotReady? {
        redisUnavailable := redisUnavailable + 1;
        return Unavailable;
      }
      var previous := if key in store then Some(store[key]) else None;
      if o.Replied? || o.applied {
        if previous.None? { store := store[key := InFlight(token)]; }
      }
      if o.Errored? {
        redisUnavailable := redisUnavailable + 1;
        return Unavailable;
      }
      if previous.None? { return Claimed(token); }
      if previous.value.Committed? { return AlreadyCommitted; }
      r := InFlightElsewhere;
    }

    /** COMMIT_IF_OWNER. */
    method MarkCommitted(key: Key, token: Id, o: RedisOutcome)
      modifies this
      ensures store == if Applied(o) && key in old(store) && old(store)[key] == InFlight(token)
                       then old(store)[key := Committed] else old(store)
      ensures redisUnavailable == old(redisUnavailable) + One(!o.Replied?)
    {
      if !o.NotReady? && (o.Replied? || o.applied) {
        if key in store && store[key] == InFlight(token) { store := store[key := Committed]; }
      }
      if !o.Replied? { redisUnavailable := redisUnavailable + 1; }
    }

    /** RELEASE_IF_OWNER; never reports anything. */
    method Release(key: Key, token: Id, o: RedisOutcome)
      modifies this
      ensures store == if Applied(o) && key in old(store) && old(store)[key] == InFlight(token)
                       then old(store) - {key} else old(store)
      ensures redisUnavailable == old(redisUnavailable)
    {
      if !o.NotReady? && (o.Replied? || o.applied) {
        if key in store && store[key] == InFlight(token) { store := store - {key}; }
      }
    }
  }

  // ---- the three steps ----

  /** What all attempts share. */
  datatype Shared = Shared(store: map<Key, Lease>, table: seq<R.EventRow>, counters: Counters)

  /** Claiming: the shared state afterwards and where the attempt stands. */
  ghost function AfterClaim(s: Shared, key: Option<Key>, skipped: nat, token: Id, o: RedisOutcome): (Shared, Phase)
  {
    var c := s.counters;
    if key.Some? && o.Replied? && key.value in s.store then
      var committed := s.store[key.value].Committed?;
      (s.(counters := c.(duplicates := c.duplicates + One(committed), busy := c.busy + One(!committed))),
       Answered(if committed then Duplicate else Busy))
    else
      (s.(store := if key.Some? && Applied(o) && key.value !in s.store then s.store[key.value := InFlight(token)]
                   else s.store,
          counters := c.(redisErrors := c.redisErrors + One(key.Some? && !o.Replied?),
                         skippedMalformed := c.skippedMalformed + skipped)),
       Inserting(key.Some? && o.Replied?))
  }

  /** Inserting. */
  ghost function AfterInsert(s: Shared, rows: seq<R.EventRow>, claimed: bool, db: DbOutcome): (Shared, Phase)
  {
    var c := s.counters;
    (s.(table := if db.Refused? then s.table else s.table + rows,
        counters := if db.Acknowledged? then c.(eventsStored := c.eventsStored + |rows|)
                    else c.(dbFailures := c.dbFailures + 1)),
     if db.Acknowledged? then (if claimed then Committing else Answered(Stored))
     else (if claimed then Releasing else Answered(Failed)))
  }

  /** Finishing a claim: only a lease that is still the attempt's own is promoted or deleted. */
  ghost function AfterFinish(s: Shared, key: Key, token: Id, ok: bool, o: RedisOutcome): (Shared, Phase)
  {
    var own := Applied(o) && key in s.store && s.store[key] == InFlight(token);
    (s.(store := if !own then s.store else if ok then s.store[key := Committed] else s.store - {key},
        counters := s.counters.(redisErrors := s.counters.redisErrors + One(ok && !o.Replied?))),
     Answered(if ok then Stored else Failed))
  }

  // ---- each is the protocol's step, from every state ----

  ghost function Rows(inserts: seq<Insert<R.EventRow>>): seq<R.EventRow>
  {
    if inserts == [] then [] else Rows(inserts[..|inserts| - 1]) + inserts[|inserts| - 1].rows
  }

  ghost function SharedOf(b: Backend<R.EventRow>): Shared
  {
    Shared(b.redis, Rows(b.inserts), b.counters)
  }

  /** One step of attempt a in the protocol: the shared state and the attempt's phase afterwards. */
  ghost function Acts(b: Backend<R.EventRow>, a: Id, redis: RedisOutcome, db: DbOutcome): (Shared, Phase)
    requires a < |b.attempts|
  {
    var b' := Apply(b, a, EffectOf(b, a, redis, db));
    (SharedOf(b'), b'.attempts[a].phase)
  }

  lemma RowsAppend(inserts: seq<Insert<R.EventRow>>, insert: Insert<R.EventRow>)
    ensures Rows(inserts + [insert]) == Rows(inserts) + insert.rows
  {
    assert (inserts + [insert])[..|inserts|] == inserts;
  }

  /** Claiming is the protocol's step of an arrived attempt. */
  lemma ClaimIsStep(b: Backend<R.EventRow>, a: Id, o: RedisOutcome, db: DbOutcome)
    requires a < |b.attempts| && b.attempts[a].phase.Arrived?
    ensures Acts(b, a, o, db) == AfterClaim(SharedOf(b), b.attempts[a].key, b.attempts[a].batch.skipped, a, o)
  {
  }

  /** Inserting is the protocol's step of an attempt past its claim. */
  lemma InsertIsStep(b: Backend<R.EventRow>, a: Id, o: RedisOutcome, db: DbOutcome)
    requires a < |b.attempts| && b.attempts[a].phase.Inserting?
    ensures Acts(b, a, o, db) == AfterInsert(SharedOf(b), b.attempts[a].batch.valid, b.attempts[a].phase.leased, db)
  {
    var e, at := EffectOf(b, a, o, db), b.attempts[a];
    assert e == Insertion(at.key.Some?, at.phase.leased, db);
    InsertApplies(b, a, e);
  }

  lemma InsertApplies(b: Backend<R.EventRow>, a: Id, e: Effect)
    requires a < |b.attempts| && e.lease.Leave? && !b.attempts[a].phase.Arrived?
    ensures var b', at := Apply(b, a, e), b.attempts[a];
            && b'.redis == b.redis && b'.attempts[a].phase == e.phase
            && Rows(b'.inserts) == if e.insert then Rows(b.inserts) + at.batch.valid else Rows(b.inserts)
  {
    var at := b.attempts[a];
    RowsAppend(b.inserts, Insert(at.key, at.batch.valid, !e.tick.TickDbFailure?));
  }

  /** Finishing is the protocol's step of an attempt that held a claim, whatever became of its lease
      in the meantime: still its own, expired, taken over by another attempt, or committed. */
  lemma FinishIsStep(b: Backend<R.EventRow>, a: Id, o: RedisOutcome, db: DbOutcome)
    requires a < |b.attempts| && (b.attempts[a].phase.Committing? || b.attempts[a].phase.Releasing?)
             && b.attempts[a].key.Some?
    ensures Acts(b, a, o, db)
            == AfterFinish(SharedOf(b), b.attempts[a].key.value, a, b.attempts[a].phase.Committing?, o)
  {
  }

  // ---- the service ----

  class IngestService {
    const idempotency: IdempotencyService
    var table: seq<R.EventRow>
    var batchesReceived: nat
    var duplicateSuppressed: nat
    var inFlightRejected: nat
    var dbFailures: nat
    var eventsStored: nat
    var skippedMalformed: nat

    constructor ()
      ensures fresh(idempotency) && Now() == Shared(map[], [], Counters(0, 0, 0, 0, 0, 0, 0))
    {
      idempotency := new IdempotencyService();
      table, batchesReceived, duplicateSuppressed, inFlightRejected, dbFailures := [], 0, 0, 0, 0;
      eventsStored, skippedMalformed := 0, 0;
    }

    function Now(): Shared
      reads this, idempotency
    {
      Shared(idempotency.store, table,
             Counters(batchesReceived, duplicateSuppressed, inFlightRejected, dbFailures, idempotency.redisUnavailable,
                      eventsStored, skippedMalformed))
    }

    /** Whatever other attempts made of the shared state while this one was waiting. */
    method Resume(s: Shared)
      modifies this, idempotency
      ensures Now() == s
    {
      idempotency.store, idempotency.redisUnavailable, table := s.store, s.counters.redisErrors, s.table;
      var c := s.counters;
      batchesReceived, duplicateSuppressed, inFlightRejected := c.received, c.duplicates, c.busy;
      dbFailures, eventsStored, skippedMalformed := c.dbFailures, c.eventsStored, c.skippedMalformed;
    }

    /** From the claim to the call of the insert; `claimed` is set only when this request took the
        lease. */
    method Enter(key: Option<Key>, skipped: nat, token: Id, o: RedisOutcome) returns (phase: Phase)
      modifies this, idempotency
      ensures (Now(), phase) == AfterClaim(old(Now()), key, skipped, token, o)
    {
      var claimed := false;
      if key.Some? {
        var r := idempotency.Claim(key.value, token, o);
        if r.AlreadyCommitted? {
          duplicateSuppressed := duplicateSuppressed + 1;
          return Answered(Duplicate);
        }
        if r.InFlightElsewhere? {
          inFlightRejected := inFlightRejected + 1;
          return Answered(Busy);
        }
        claimed := r.Claimed?;
      }
      skippedMalformed := skippedMalformed + skipped;
      phase := Inserting(claimed);
    }

    /** The insert on a connection of its own, and how its outcome looks to the protocol. */
    method InsertRows(rows: seq<R.EventRow>, claimed: bool, connects: bool, env: nat -> R.Outcome)
      returns (phase: Phase, ghost db: DbOutcome)
      modifies this
      ensures (Now(), phase) == AfterInsert(old(Now()), rows, claimed, db)
      ensures db.Acknowledged? <==> rows == [] || (connects && R.AllApplied(env, R.Deciding(|rows|) + 1))
      ensures phase == if db.Acknowledged? then (if claimed then Committing else Answered(Stored))
                       else if claimed then Releasing else Answered(Failed)
      ensures eventsStored == old(eventsStored) + (if db.Acknowledged? then |rows| else 0)
      ensures dbFailures == old(dbFailures) + One(!db.Acknowledged?)
    {
      var client := new R.Client(table);
      var result, _ := R.InsertEvents(client, rows, connects, env);
      db := if result.Stored? then Acknowledged else if client.durable != table then ReplyLost else Refused;
      table := client.durable;
      assert rows == [] ==> old(table) + rows == old(table);
      if result.Stored? {
        eventsStored := eventsStored + result.count;
        phase := if claimed then Committing else Answered(Stored);
      } else {
        dbFailures := dbFailures + 1;
        phase := if claimed then Releasing else Answered(Failed);
      }
    }

    /** What follows the insert for the holder of a claim. */
    method Finish(key: Key, token: Id, ok: bool, o: RedisOutcome) returns (phase: Phase)
      modifies idempotency
      ensures (Now(), phase) == AfterFinish(old(Now()), key, token, ok, o)
    {
      if ok { idempotency.MarkCommitted(key, token, o); } else { idempotency.Release(key, token, o); }
      phase := Answered(if ok then Stored else Failed);
    }

    /** Serves one request while others are being served: `atClaim`, `atInsert` and `atFinish` are
        the shared states its three steps meet, whatever other attempts made of them; `entered`,
        `claimed` and `inserted` the states it leaves behind on the way. Each step is the protocol's
        (ClaimIsStep, InsertIsStep, FinishIsStep) and they come in the protocol's order: insert only
        past the claim, finish only with a claim, answer with the phase the last step led to. The answer
        itself: Duplicate or Busy if and only if Redis replied and the key was taken, by the committed mark
        or a live lease; otherwise Stored if and only if the repository stored the batch, else Failed. */
    method Ingest(key: Option<Key>, batch: Batch<R.EventRow>, token: Id, claim: RedisOutcome, finish: RedisOutcome,
                  connects: bool, env: nat -> R.Outcome, atClaim: Shared, atInsert: Shared, atFinish: Shared)
      returns (answer: Answer, entered: Shared, claimed: (Shared, Phase), inserted: (Shared, Phase),
               ghost db: DbOutcome)
      modifies this, idempotency
      ensures entered == old(Now()).(counters := old(Now()).counters.(received := old(Now()).counters.received + 1))
      ensures claimed == AfterClaim(atClaim, key, batch.skipped, token, claim)
      ensures claimed.1.Answered? ==> (Now(), Answered(answer)) == claimed
      ensures claimed.1.Inserting? ==> inserted == AfterInsert(atInsert, batch.valid, claimed.1.leased, db)
      ensures claimed.1.Inserting? && inserted.1.Answered? ==> (Now(), Answered(answer)) == inserted
      ensures claimed.1.Inserting? && !inserted.1.Answered? ==>
                key.Some? && (Now(), Answered(answer))
                == AfterFinish(atFinish, key.value, token, inserted.1.Committing?, finish)
      ensures var taken := key.Some? && claim.Replied? && key.value in atClaim.store;
              var stored := batch.valid == [] || (connects && R.AllApplied(env, R.Deciding(|batch.valid|) + 1));
              && (answer.Duplicate? <==> taken && atClaim.store[key.value].Committed?)
              && (answer.Busy? <==> taken && atClaim.store[key.value].InFlight?)
              && (answer.Stored? <==> !taken && stored)
              && (answer.Failed? <==> !taken && !stored)
              && (!taken ==>
                    && inserted.0.counters.eventsStored
                       == atInsert.counters.eventsStored + (if stored then |batch.valid| else 0)
                    && inserted.0.counters.dbFailures == atInsert.counters.dbFailures + One(!stored))
    {
      db := Refused;
      batchesReceived := batchesReceived + 1;
      entered := Now();
      Resume(atClaim);
      var phase := Enter(key, batch.skipped, token, claim);
      claimed, inserted := (Now(), phase), (Now(), phase);
      if phase.Answered? { return phase.answer, entered, claimed, inserted, db; }
      Resume(atInsert);
      phase, db := InsertRows(batch.valid, phase.leased, connects, env);
      inserted := (Now(), phase);
      if phase.Answered? { return phase.answer, entered, claimed, inserted, db; }
      Resume(atFinish);
      phase := Finish(key.value, token, phase.Committing?, finish);
      answer := phase.answer;
    }
  }
}
