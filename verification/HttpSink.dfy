/** The HTTP sink: an outbound queue drained by sink threads, each owning one persistent
    connection, each sending a batch with retries. Timeouts, refused connections, lost requests,
    lost replies and answers from intermediaries are the environment's choices. */
module HttpSinks {
  import opened QueueTypes
  import opened Tally
  import opened Backends

  datatype Outcome = Success | RetryableFailure | PermanentFailure

  /** What a response status tells the sink to do next. */
  function Classify(status: nat): Outcome
  {
    if 200 <= status < 300 then Success
    else if status >= 500 || status == 429 then RetryableFailure
    else PermanentFailure
  }

  /** The status the controller answers with: 503 for every error, never a 4xx. */
  function StatusOf(a: Answer): (status: nat)
    ensures Classify(status).Success? <==> a.Stored? || a.Duplicate?
    ensures !Classify(status).PermanentFailure?
  {
    if a.Stored? || a.Duplicate? then 200 else 503
  }

  /** A persistent connection; `pending` are the requests written on it whose reply was not read
      yet, in order. */
  datatype Conn = Conn(live: bool, pending: seq<Id>)

  datatype Job =
    | Idle                            // about to pop
    | Held(k: Key)                    // popped, about to check the drain deadline
    | Ready(k: Key, tries: nat)       // about to send attempt number `tries`
    | Exchanging(k: Key, tries: nat)  // request written, waiting for the reply
    | Exited

  datatype SinkThread = SinkThread(job: Job, conn: Conn)

  datatype SinkStats = SinkStats(consumed: nat, sent: nat, droppedOutbound: nat, droppedExhausted: nat, retried: nat)

  datatype Sink = Sink(
    queue: seq<Key>,
    capacity: nat,
    policy: Policy,
    maxRetries: nat,
    threads: seq<SinkThread>,
    minted: nat,                      // key_counter_
    stopping: bool,                   // draining_ set and outbound queue shut down
    late: bool,                       // the drain deadline has passed
    stats: SinkStats,
    sentKeys: seq<Key>,               // auxiliary: the batches counted as sent
    lostKeys: seq<Key>,               // auxiliary: the batches counted as dropped
    consumedLate: bool)               // auxiliary: some consume() came after stop()

  /** The environment's part in a sink step: whether it fails, whether a request reaches the
      backend, whether the connection stays open, and a status answered by somebody else. */
  datatype Weather = Weather(fails: bool, reaches: bool, keepAlive: bool, foreign: Option<nat>)

  datatype SinkTick = NoSinkTick | TickSent | TickExhausted | TickRetried

  /** What a sink step does: the thread's next state, its counter, and whether it popped a batch,
      wrote a request that reached the backend, or read a reply from the backend. */
  datatype SinkEffect = SinkEffect(th: SinkThread, tick: SinkTick, pop: bool, send: bool, read: bool)

  ghost function Move(th: SinkThread, job: Job): SinkEffect
  {
    SinkEffect(th.(job := job), NoSinkTick, false, false, false)
  }

  /** The retry loop after one round trip. */
  ghost function Settle(k: Key, tries: nat, maxRetries: nat, conn: Conn, o: Outcome): SinkEffect
  {
    if o.Success? then SinkEffect(SinkThread(Idle, conn), TickSent, false, false, false)
    else if o.PermanentFailure? || tries >= maxRetries then
      SinkEffect(SinkThread(Idle, conn), TickExhausted, false, false, false)
    else SinkEffect(SinkThread(Ready(k, tries + 1), conn), TickRetried, false, false, false)
  }

  const Dropped := Conn(false, [])

  /** One step of a sink thread. `front` is the head of the outbound queue, `reply` the status of
      the oldest pending request once there is one, `next` the backend's next attempt. */
  ghost function SinkReact(th: SinkThread, front: Option<Key>, stopping: bool, late: bool, maxRetries: nat,
                           reply: Option<nat>, next: Id, w: Weather): SinkEffect
  {
    match th.job
    case Idle =>
      if front.Some? then Move(th, Held(front.value)).(pop := true)
      else if stopping then Move(th, Exited)
      else Move(th, Idle)
    case Held(k) => if stopping && late then Move(th, Idle).(tick := TickExhausted) else Move(th, Ready(k, 0))
    case Ready(k, n) =>
      if !th.conn.live then
        if w.fails then Settle(k, n, maxRetries, Dropped, RetryableFailure)
        else Move(th.(conn := Conn(true, [])), th.job)
      else if w.reaches then
        Move(th.(conn := th.conn.(pending := th.conn.pending + [next])), Exchanging(k, n)).(send := true)
      else Move(th, Exchanging(k, n))
    case Exchanging(k, n) =>
      if w.fails then Settle(k, n, maxRetries, Dropped, RetryableFailure)
      else if reply.None? then Move(th, th.job)
      else
        var conn := if w.keepAlive then th.conn.(pending := []) else Dropped;
        Settle(k, n, maxRetries, conn, Classify(reply.value)).(read := th.conn.pending != [])
    case Exited => Move(th, Exited)
  }

  ghost predicate InHand(th: SinkThread)
  {
    th.job.Held? || th.job.Ready? || th.job.Exchanging?
  }

  /** The connection discipline: outside an exchange nothing is pending, inside at most the one
      request just written; a dropped connection has forgotten everything. */
  ghost predicate Disciplined(th: SinkThread, maxRetries: nat)
  {
    && |th.conn.pending| <= 1
    && (!th.job.Exchanging? || !th.conn.live ==> th.conn.pending == [])
    && (th.job.Ready? || th.job.Exchanging? ==> th.job.tries <= maxRetries)
  }

  ghost predicate SinkFits(th: SinkThread, front: Option<Key>, reply: Option<nat>, next: Id, stopping: bool,
                           maxRetries: nat, e: SinkEffect)
  {
    && Disciplined(e.th, maxRetries)
    // a batch leaves a thread's hands only by being counted
    && One(InHand(e.th)) + One(e.tick.TickSent? || e.tick.TickExhausted?) == One(InHand(th)) + One(e.pop)
    && (e.pop ==> front.Some? && !InHand(th) && InHand(e.th) && e.th.job.k == front.value)
    && (InHand(th) && InHand(e.th) ==> e.th.job.k == th.job.k)
    && (e.th.job.Exited? && !th.job.Exited? ==> stopping && front.None?)
    // a reply read answers the request just written, and "sent" needs a 2xx among them
    && (e.send ==> th.job.Ready? && e.th.job.Exchanging? && e.th.job.k == th.job.k && e.th.conn.pending == [next])
    && (e.tick.TickSent? ==>
        th.job.Exchanging? && |th.conn.pending| == 1 && reply.Some? && 200 <= reply.value < 300 && e.read)
    && (e.read ==> th.job.Exchanging? && |th.conn.pending| == 1 && reply.Some? && e.th.conn.pending == [])
    && (e.read && 200 <= reply.value < 300 ==> e.tick.TickSent?)
    // what is pending stays tied to its batch
    && (!e.send && e.th.conn.pending != [] ==>
        th.job.Exchanging? && e.th.job == th.job && e.th.conn.pending == th.conn.pending && !e.read)
  }

  lemma SinkReactFits(th: SinkThread, front: Option<Key>, stopping: bool, late: bool, maxRetries: nat,
                      reply: Option<nat>, next: Id, w: Weather)
    requires Disciplined(th, maxRetries)
    requires th.conn.pending == [] && reply.Some? ==> !(200 <= reply.value < 300)
    ensures SinkFits(th, front, reply, next, stopping, maxRetries,
                     SinkReact(th, front, stopping, late, maxRetries, reply, next, w))
  {
    match th.job
    case Ready(k, n) => ReadyFits(th, front, stopping, late, maxRetries, reply, next, w);
    case Exchanging(k, n) => ExchangingFits(th, front, stopping, late, maxRetries, reply, next, w);
    case _ =>
  }

  lemma ReadyFits(th: SinkThread, front: Option<Key>, stopping: bool, late: bool, maxRetries: nat,
                  reply: Option<nat>, next: Id, w: Weather)
    requires Disciplined(th, maxRetries) && th.job.Ready?
    ensures SinkFits(th, front, reply, next, stopping, maxRetries,
                     SinkReact(th, front, stopping, late, maxRetries, reply, next, w))
  {
  }

  lemma ExchangingFits(th: SinkThread, front: Option<Key>, stopping: bool, late: bool, maxRetries: nat,
                       reply: Option<nat>, next: Id, w: Weather)
    requires Disciplined(th, maxRetries) && th.job.Exchanging?
    requires th.conn.pending == [] && reply.Some? ==> !(200 <= reply.value < 300)
    ensures SinkFits(th, front, reply, next, stopping, maxRetries,
                     SinkReact(th, front, stopping, late, maxRetries, reply, next, w))
  {
  }

  // ---- batch conservation ----

  ghost function TickStats(s: SinkStats, tick: SinkTick): SinkStats
  {
    match tick
    case NoSinkTick => s
    case TickSent => s.(sent := s.sent + 1)
    case TickExhausted => s.(droppedExhausted := s.droppedExhausted + 1)
    case TickRetried => s.(retried := s.retried + 1)
  }

  ghost function ApplySink(s: Sink, t: nat, e: SinkEffect): Sink
    requires t < |s.threads| && (e.pop ==> s.queue != [])
  {
    s.(threads := s.threads[t := e.th],
       queue := if e.pop then s.queue[1..] else s.queue,
       stats := TickStats(s.stats, e.tick),
       sentKeys := if e.tick.TickSent? && s.threads[t].job.Exchanging? then s.sentKeys + [s.threads[t].job.k]
                   else s.sentKeys,
       lostKeys := if e.tick.TickExhausted? && InHand(s.threads[t]) then s.lostKeys + [s.threads[t].job.k]
                   else s.lostKeys)
  }

  /** consume(): mints the key, pushes, and counts what the push dropped. */
  ghost function Consume(s: Sink): Sink
    requires s.capacity > 0
  {
    var (queue, result) := PushSpec(s.queue, s.capacity, s.policy, s.minted);
    s.(queue := queue, minted := s.minted + 1, consumedLate := s.consumedLate || s.stopping,
       lostKeys := match result
                   case Accepted => s.lostKeys
                   case DroppedOldest => s.lostKeys + [s.queue[0]]
                   case RejectedBackpressure => s.lostKeys + [s.minted],
       stats := s.stats.(consumed := s.stats.consumed + 1,
                         droppedOutbound := s.stats.droppedOutbound + One(!result.Accepted?)))
  }

  ghost predicate SinkInv(s: Sink)
  {
    && s.capacity > 0 && |s.queue| <= s.capacity
    && (forall t :: 0 <= t < |s.threads| ==> Disciplined(s.threads[t], s.maxRetries))
    && s.stats.consumed == s.stats.sent + s.stats.droppedOutbound + s.stats.droppedExhausted + |s.queue|
       + Count(s.threads, InHand)
    && (forall t :: 0 <= t < |s.threads| && s.threads[t].job.Exited? ==>
        s.stopping && (s.consumedLate || s.queue == []))
    && |s.sentKeys| == s.stats.sent && |s.lostKeys| == s.stats.droppedOutbound + s.stats.droppedExhausted
  }

  ghost function Front(s: Sink): Option<Key>
  {
    if s.queue == [] then None else Some(s.queue[0])
  }

  lemma ApplySinkKeeps(s: Sink, t: nat, e: SinkEffect, reply: Option<nat>, next: Id)
    requires t < |s.threads| && SinkInv(s)
    requires SinkFits(s.threads[t], Front(s), reply, next, s.stopping, s.maxRetries, e)
    ensures SinkInv(ApplySink(s, t, e))
  {
    CountUpdate(s.threads, t, e.th, InHand);
  }

  lemma ConsumeKeeps(s: Sink)
    requires SinkInv(s)
    ensures SinkInv(Consume(s))
  {
  }

  /** consume() never waits, whatever the policy: it drops and counts a batch exactly when the
      queue is full, and under Block and DropNewest it is the new batch that goes. */
  lemma ConsumeNeverWaits(s: Sink)
    requires s.capacity > 0
    ensures var s' := Consume(s);
            && s'.stats.consumed == s.stats.consumed + 1
            && s'.stats.droppedOutbound == s.stats.droppedOutbound + One(|s.queue| >= s.capacity)
            && (|s.queue| < s.capacity ==> s'.queue == s.queue + [s.minted] && s'.lostKeys == s.lostKeys)
            && (|s.queue| >= s.capacity && !s.policy.DropOldest? ==>
                s'.queue == s.queue && s'.lostKeys == s.lostKeys + [s.minted])
            && (|s.queue| >= s.capacity && s.policy.DropOldest? ==>
                  s'.queue == s.queue[1..] + [s.minted] && s'.lostKeys == s.lostKeys + [s.queue[0]])
  {
  }

  /** What a status does to a batch, end to end through the retry loop: a 2xx is counted as sent, a
      5xx or 429 is tried again while tries remain, everything else gives the batch up; and no
      status costs the connection, only a transport failure or the server closing it does. */
  lemma StatusDecides(th: SinkThread, front: Option<Key>, stopping: bool, late: bool, maxRetries: nat,
                      status: nat, next: Id, w: Weather)
    requires th.job.Exchanging? && th.conn.live && !w.fails
    ensures var e := SinkReact(th, front, stopping, late, maxRetries, Some(status), next, w);
            && (e.tick.TickSent? <==> 200 <= status < 300)
            && (e.tick.TickRetried? <==> (status >= 500 || status == 429) && th.job.tries < maxRetries)
            && (e.tick.TickExhausted? <==> !e.tick.TickSent? && !e.tick.TickRetried?)
            && (e.tick.TickRetried? ==> e.th.job == Ready(th.job.k, th.job.tries + 1))
            && e.th.conn.live == w.keepAlive
  {
  }

  /** What a transport failure does, a refused connect as well as a lost exchange: the connection is dropped
      with all that was pending on it, the batch is tried again if and only if tries remain and given up
      otherwise, and it is never counted as sent. */
  lemma FailureDecides(th: SinkThread, front: Option<Key>, stopping: bool, late: bool, maxRetries: nat,
                       reply: Option<nat>, next: Id, w: Weather)
    requires w.fails && (th.job.Exchanging? || (th.job.Ready? && !th.conn.live))
    ensures var e := SinkReact(th, front, stopping, late, maxRetries, reply, next, w);
            && e.th.conn == Conn(false, []) && !e.pop && !e.send && !e.read
            && (th.job.tries < maxRetries <==> e.tick.TickRetried?)
            && (th.job.tries < maxRetries <==> e.th.job == Ready(th.job.k, th.job.tries + 1))
            && (th.job.tries >= maxRetries <==> e.tick.TickExhausted?)
            && (th.job.tries >= maxRetries ==> e.th.job.Idle?)
  {
  }

  /** A batch just popped is dropped unattempted if and only if the sink is stopping and the drain deadline
      has passed; otherwise its first attempt comes next. */
  lemma HeldDecides(th: SinkThread, front: Option<Key>, stopping: bool, late: bool, maxRetries: nat,
                    reply: Option<nat>, next: Id, w: Weather)
    requires th.job.Held?
    ensures var e := SinkReact(th, front, stopping, late, maxRetries, reply, next, w);
            && e.th.conn == th.conn && !e.pop && !e.send && !e.read
            && (e.tick.TickExhausted? <==> stopping && late) && (e.th.job.Idle? <==> stopping && late)
            && (!(stopping && late) <==> e.th.job == Ready(th.job.k, 0))
            && (!(stopping && late) ==> e.tick.NoSinkTick?)
  {
  }

  /** The steps in which nothing fails and nothing is decided yet: an idle thread takes the front of the
      queue, or leaves if and only if the queue is empty and the sink stopping; a ready one connects or
      writes its request, which the backend sees exactly if it reaches it; one that waits goes on waiting. */
  lemma ThreadGoesOn(th: SinkThread, front: Option<Key>, stopping: bool, late: bool, maxRetries: nat,
                     reply: Option<nat>, next: Id, w: Weather)
    ensures var e := SinkReact(th, front, stopping, late, maxRetries, reply, next, w);
            && (th.job.Idle? ==>
                  && e.tick.NoSinkTick? && e.th.conn == th.conn && (e.pop <==> front.Some?)
                  && e.th.job == if front.Some? then Held(front.value) else if stopping then Exited else Idle)
            && (th.job.Ready? && !th.conn.live && !w.fails ==>
                  e.th == SinkThread(th.job, Conn(true, [])) && e.tick.NoSinkTick? && !e.send)
            && (th.job.Ready? && th.conn.live ==>
                  && e.th.job == Exchanging(th.job.k, th.job.tries) && e.tick.NoSinkTick? && (e.send <==> w.reaches)
                  && e.th.conn == Conn(true, th.conn.pending + if w.reaches then [next] else []))
            && (th.job.Exchanging? && !w.fails && reply.None? ==> e.th == th && e.tick.NoSinkTick?)
            && (th.job.Exited? ==> e.th == th && e.tick.NoSinkTick? && !e.pop)
  {
  }

  // ---- every batch is in one place ----

  /** What a thread has in hand, by a weight on keys. */
  ghost function HandWeight(f: Key -> nat, th: SinkThread): nat
  {
    if InHand(th) then f(th.job.k) else 0
  }

  ghost function Hand(f: Key -> nat): SinkThread -> nat
  {
    (th: SinkThread) => HandWeight(f, th)
  }

  ghost function UpTo(f: Key -> nat, n: nat): nat
  {
    if n == 0 then 0 else UpTo(f, n - 1) + f(n - 1)
  }

  /** However batches are weighed, those queued, in hand, sent and lost weigh what was minted. */
  ghost predicate LedgerInv(s: Sink, f: Key -> nat)
  {
    Sum(s.queue, f) + Sum(s.threads, Hand(f)) + Sum(s.sentKeys, f) + Sum(s.lostKeys, f) == UpTo(f, s.minted)
  }

  lemma SumHead(q: seq<Key>, f: Key -> nat)
    requires q != []
    ensures Sum(q, f) == f(q[0]) + Sum(q[1..], f)
  {
  }

  lemma ApplySinkLedger(s: Sink, t: nat, e: SinkEffect, reply: Option<nat>, next: Id, f: Key -> nat)
    requires t < |s.threads| && LedgerInv(s, f)
    requires SinkFits(s.threads[t], Front(s), reply, next, s.stopping, s.maxRetries, e)
    ensures LedgerInv(ApplySink(s, t, e), f)
  {
    var th := s.threads[t];
    SumUpdate(s.threads, t, e.th, Hand(f));
    if e.pop { SumHead(s.queue, f); }
    if InHand(th) {
      SumAppend(s.sentKeys, th.job.k, f);
      SumAppend(s.lostKeys, th.job.k, f);
    }
  }

  lemma ConsumeLedger(s: Sink, f: Key -> nat)
    requires s.capacity > 0 && LedgerInv(s, f)
    ensures LedgerInv(Consume(s), f)
  {
    if |s.queue| < s.capacity {
      SumAppend(s.queue, s.minted, f);
    } else if s.policy.DropOldest? {
      SumHead(s.queue, f);
      SumAppend(s.queue[1..], s.minted, f);
      SumAppend(s.lostKeys, s.queue[0], f);
    } else {
      SumAppend(s.lostKeys, s.minted, f);
    }
  }

  // ---- key by key ----

  ghost function Only(k: Key): Key -> nat
  {
    (j: Key) => One(j == k)
  }

  ghost function Holds(k: Key): SinkThread -> bool
  {
    (th: SinkThread) => InHand(th) && th.job.k == k
  }

  /** A minted batch is queued, in one thread's hands, sent or lost: one of these, once. */
  ghost predicate InOnePlace(s: Sink, k: Key)
  {
    Count(s.queue, Is(k)) + Count(s.threads, Holds(k)) + Count(s.sentKeys, Is(k)) + Count(s.lostKeys, Is(k))
      == One(k < s.minted)
  }

  lemma {:induction false} OnlyCounts(keys: seq<Key>, k: Key)
    ensures Sum(keys, Only(k)) == Count(keys, Is(k))
  {
    if keys != [] { OnlyCounts(keys[1..], k); }
  }

  lemma {:induction false} OnlyHands(threads: seq<SinkThread>, k: Key)
    ensures Sum(threads, Hand(Only(k))) == Count(threads, Holds(k))
  {
    if threads != [] {
      OnlyHands(threads[1..], k);
      assert Hand(Only(k))(threads[0]) == One(Holds(k)(threads[0]));
    }
  }

  lemma {:induction false} OnlyUpTo(k: Key, n: nat)
    ensures UpTo(Only(k), n) == One(k < n)
  {
    if n > 0 {
      OnlyUpTo(k, n - 1);
      assert Only(k)(n - 1) == One(n - 1 == k);
    }
  }

  lemma LedgerPerKey(s: Sink, k: Key)
    requires LedgerInv(s, Only(k))
    ensures InOnePlace(s, k)
  {
    OnlyCounts(s.queue, k);
    OnlyHands(s.threads, k);
    OnlyCounts(s.sentKeys, k);
    OnlyCounts(s.lostKeys, k);
    OnlyUpTo(k, s.minted);
  }

  /** After stop() every batch is accounted for: with all threads gone, at least one of them ever
      there, and no consume() after the stop, nothing is queued or in hand. */
  lemma StoppedMeansSettled(s: Sink)
    requires SinkInv(s) && s.threads != [] && !s.consumedLate
    requires forall t :: 0 <= t < |s.threads| ==> s.threads[t].job.Exited?
    ensures s.stats.consumed == s.stats.sent + s.stats.droppedOutbound + s.stats.droppedExhausted
  {
    CountZero(s.threads, InHand);
    assert s.threads[0].job.Exited?;
  }
}
