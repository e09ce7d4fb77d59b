/** The gateway pipeline with the mutex queue: connections push events, workers pop them into the
    batcher, the batcher hands batches to the sink. Any number of connections and workers
    interleave; each step is one callback, one locked queue operation or one locked batcher
    operation. Shutdown follows the order of the source: the reactor stops, then the queue. */
module Gateways {
  import opened QueueTypes
  import opened Tally

  datatype Connection<E> = Reading | Retrying(e: E) | Closed
  datatype Worker<E> = Waiting | Holding(e: E) | Gone

  datatype Counters = Counters(accepted: nat, droppedOldest: nat, droppedNewest: nat, malformed: nat)

  /** How an event left the queue: with a worker, or evicted. */
  datatype Departure<E> = ToWorker(e: E) | Evicted(e: E)

  datatype Gateway<E> = Gateway(
    conns: seq<Connection<E>>,
    queue: seq<E>,
    capacity: nat,
    policy: Policy,
    workers: seq<Worker<E>>,
    buffer: seq<E>,                // the batcher's
    maxBatch: nat,
    sink: seq<E>,                  // everything handed to the sink, in order
    stopped: bool,                 // the reactor has stopped
    shut: bool,                    // the queue is shutting down
    counters: Counters,
    // auxiliary: where every well-formed line went
    lines: seq<E>,                 // read
    evicted: seq<E>,               // dropped from the queue's front
    refused: seq<E>,               // dropped at the door
    abandoned: seq<E>,             // their retry timer was cancelled
    popped: seq<E>,                // taken by workers
    entered: seq<E>,               // admitted to the queue, in order
    left: seq<Departure<E>>)       // departures from the queue, in order

  datatype Move<E> =
    | Accept                              // a new connection
    | Line(c: nat, parsed: Option<E>)     // a line was read; None: malformed
    | Timer(c: nat, error: bool)          // a retry timer fired or was cancelled
    | Hangup(c: nat)
    | Work(w: nat, aged: bool)            // a worker's next step
    | PeriodicFlush
    | StopReactor
    | StopPool

  ghost predicate Enabled<E>(g: Gateway<E>, m: Move<E>)
  {
    match m
    case Accept => !g.stopped
    case Line(c, _) => !g.stopped && c < |g.conns| && g.conns[c].Reading?
    case Timer(c, _) => !g.stopped && c < |g.conns| && g.conns[c].Retrying?
    case Hangup(c) => !g.stopped && c < |g.conns| && g.conns[c].Reading?
    case Work(w, _) => w < |g.workers|
    case PeriodicFlush => true
    case StopReactor => true
    case StopPool => g.stopped
  }

  ghost function Admit<E>(g: Gateway<E>, c: nat, e: E): Gateway<E>
    requires c < |g.conns|
  {
    g.(queue := g.queue + [e], conns := g.conns[c := Reading], entered := g.entered + [e],
       counters := g.counters.(accepted := g.counters.accepted + 1))
  }

  ghost function Evict<E>(g: Gateway<E>, c: nat, e: E): Gateway<E>
    requires c < |g.conns| && g.queue != []
  {
    g.(queue := g.queue[1..] + [e], conns := g.conns[c := Reading], evicted := g.evicted + [g.queue[0]],
       entered := g.entered + [e], left := g.left + [Evicted(g.queue[0])],
       counters := g.counters.(droppedOldest := g.counters.droppedOldest + 1))
  }

  ghost function Refuse<E>(g: Gateway<E>, e: E): Gateway<E>
  {
    g.(refused := g.refused + [e], counters := g.counters.(droppedNewest := g.counters.droppedNewest + 1))
  }

  ghost function Park<E>(g: Gateway<E>, c: nat, e: E): Gateway<E>
    requires c < |g.conns|
  {
    g.(conns := g.conns[c := Retrying(e)])
  }

  /** push_event and retry_push: what happens to one event at the queue. */
  ghost function PushEvent<E>(g: Gateway<E>, c: nat, e: E): (g': Gateway<E>)
    requires c < |g.conns| && g.capacity > 0
    ensures g'.queue == PushSpec(g.queue, g.capacity, g.policy, e).0
  {
    match PushSpec(g.queue, g.capacity, g.policy, e).1
    case Accepted => Admit(g, c, e)
    case DroppedOldest => Evict(g, c, e)
    case RejectedBackpressure => if g.policy.DropNewest? && g.conns[c].Reading? then Refuse(g, e) else Park(g, c, e)
  }

  ghost function Take<E>(g: Gateway<E>, w: nat): Gateway<E>
    requires w < |g.workers| && g.queue != []
  {
    g.(queue := g.queue[1..], workers := g.workers[w := Holding(g.queue[0])], popped := g.popped + [g.queue[0]],
       left := g.left + [ToWorker(g.queue[0])])
  }

  ghost function Add<E>(g: Gateway<E>, w: nat): Gateway<E>
    requires w < |g.workers| && g.workers[w].Holding?
  {
    g.(workers := g.workers[w := Waiting], buffer := g.buffer + [g.workers[w].e])
  }

  ghost function Flush<E>(g: Gateway<E>): Gateway<E>
  {
    g.(buffer := [], sink := g.sink + g.buffer)
  }

  /** A worker pops, or adds what it holds to the batcher (which may flush), or leaves once the
      queue is over. */
  ghost function WorkStep<E>(g: Gateway<E>, w: nat, aged: bool): Gateway<E>
    requires w < |g.workers|
  {
    match g.workers[w]
    case Waiting =>
      if g.queue != [] then Take(g, w)
      else if g.shut then g.(workers := g.workers[w := Gone])
      else g
    case Holding(e) =>
      if |g.buffer| + 1 >= g.maxBatch || aged then Flush(Add(g, w)) else Add(g, w)
    case Gone => g
  }

  /** A retry timer was cancelled: the event it carried is given up. */
  ghost function Abandon<E>(g: Gateway<E>, c: nat): Gateway<E>
    requires c < |g.conns| && g.conns[c].Retrying?
  {
    g.(conns := g.conns[c := Closed], abandoned := g.abandoned + [g.conns[c].e])
  }

  ghost function Next<E>(g: Gateway<E>, m: Move<E>): Gateway<E>
    requires Enabled(g, m) && g.capacity > 0
  {
    match m
    case Accept => g.(conns := g.conns + [Reading])
    case Line(c, parsed) =>
      if parsed.None? then g.(counters := g.counters.(malformed := g.counters.malformed + 1))
      else PushEvent(g.(lines := g.lines + [parsed.value]), c, parsed.value)
    case Timer(c, error) =>
      if error then Abandon(g, c)
      else PushEvent(g, c, g.conns[c].e)
    case Hangup(c) => g.(conns := g.conns[c := Closed])
    case Work(w, aged) => WorkStep(g, w, aged)
    case PeriodicFlush => Flush(g)
    case StopReactor => g.(stopped := true)
    case StopPool => g.(shut := true)
  }

  // ---- what one callback does ----

  /** push_event and retry_push, in the queue's terms. With room the event is queued and accepted. On a full
      queue it evicts the oldest under DropOldest; a line just read is refused under DropNewest; otherwise
      the connection waits for its retry with this very event, and queue and counters stay as they were. */
  lemma PushDecides<E>(g: Gateway<E>, c: nat, e: E)
    requires c < |g.conns| && g.capacity > 0
    ensures var g', k := PushEvent(g, c, e), g.counters;
            && g'.lines == g.lines && g'.abandoned == g.abandoned && g'.popped == g.popped
            && g'.workers == g.workers && g'.buffer == g.buffer && g'.sink == g.sink
            && if |g.queue| < g.capacity then
                 && g'.queue == g.queue + [e] && g'.counters == k.(accepted := k.accepted + 1)
                 && g'.conns == g.conns[c := Reading] && g'.evicted == g.evicted && g'.refused == g.refused
               else if g.policy.DropOldest? then
                 && g'.queue == g.queue[1..] + [e] && g'.evicted == g.evicted + [g.queue[0]]
                 && g'.counters == k.(droppedOldest := k.droppedOldest + 1)
                 && g'.conns == g.conns[c := Reading] && g'.refused == g.refused
               else
                 && g'.queue == g.queue && g'.evicted == g.evicted
                 && if g.policy.DropNewest? && g.conns[c].Reading? then
                      && g'.refused == g.refused + [e] && g'.conns == g.conns
                      && g'.counters == k.(droppedNewest := k.droppedNewest + 1)
                    else g'.refused == g.refused && g'.conns == g.conns[c := Retrying(e)] && g'.counters == k
  {
  }

  /** Which steps refuse an event: a well-formed line just read, under DropNewest, on a full queue; and
      droppedNewest counts them. A retry timer that fires on a full queue leaves its connection waiting with
      the same event, unless the policy evicts; one that was cancelled gives the event up. */
  lemma RefusedIff<E>(g: Gateway<E>, m: Move<E>)
    requires Enabled(g, m) && g.capacity > 0
    ensures var g', full := Next(g, m), |g.queue| >= g.capacity;
            && (g'.refused != g.refused <==> m.Line? && m.parsed.Some? && g.policy.DropNewest? && full)
            && (g'.refused != g.refused ==> g'.refused == g.refused + [m.parsed.value] && g'.conns == g.conns)
            && g'.counters.droppedNewest == g.counters.droppedNewest + One(g'.refused != g.refused)
            && (m.Line? && m.parsed.Some? && g.policy.Block? && full ==>
                  g'.conns == g.conns[m.c := Retrying(m.parsed.value)] && g'.queue == g.queue
                  && g'.counters == g.counters)
            && (m.Timer? && !m.error && !g.policy.DropOldest? && full ==>
                  g'.conns == g.conns && g'.queue == g.queue && g'.counters == g.counters)
            && (m.Timer? && m.error ==>
                  && g'.conns == g.conns[m.c := Closed] && g'.abandoned == g.abandoned + [g.conns[m.c].e]
                  && g'.queue == g.queue && g'.counters == g.counters)
            && (!(m.Timer? && m.error) ==> g'.abandoned == g.abandoned)
            && (m.Line? && m.parsed.None? ==> g' == g.(counters := g.counters.(malformed := g.counters.malformed + 1)))
            && (m.Accept? ==> g'.conns == g.conns + [Reading]) && (m.Hangup? ==> g'.conns == g.conns[m.c := Closed])
  {
    if m.Line? && m.parsed.Some? {
      PushDecides(g.(lines := g.lines + [m.parsed.value]), m.c, m.parsed.value);
    } else if m.Timer? && !m.error {
      PushDecides(g, m.c, g.conns[m.c].e);
    }
  }

  /** A worker takes the oldest event, or leaves if and only if the queue is empty and shut down; one with an
      event adds it to the batcher, which hands everything to the sink in order exactly when a threshold is
      reached. */
  lemma WorkDecides<E>(g: Gateway<E>, w: nat, aged: bool)
    requires w < |g.workers|
    ensures var g' := WorkStep(g, w, aged);
            && g'.conns == g.conns && g'.counters == g.counters
            && (g.workers[w].Waiting? && g.queue != [] ==>
                  && g.queue == [g.queue[0]] + g'.queue && g'.workers == g.workers[w := Holding(g.queue[0])]
                  && g'.buffer == g.buffer && g'.sink == g.sink)
            && (g.workers[w].Waiting? && g.queue == [] ==>
                  g' == if g.shut then g.(workers := g.workers[w := Gone]) else g)
            && (g.workers[w].Holding? ==>
                  var whole := g.buffer + [g.workers[w].e];
                  && g'.queue == g.queue && g'.workers == g.workers[w := Waiting]
                  && if |whole| >= g.maxBatch || aged then g'.buffer == [] && g'.sink == g.sink + whole
                     else g'.buffer == whole && g'.sink == g.sink)
  {
  }

  // ---- first in, first out ----

  ghost function Events<E>(left: seq<Departure<E>>): seq<E>
  {
    if left == [] then [] else Events(left[..|left| - 1]) + [left[|left| - 1].e]
  }

  ghost function WithWorkers<E>(left: seq<Departure<E>>): seq<E>
  {
    if left == [] then []
    else WithWorkers(left[..|left| - 1]) + if left[|left| - 1].ToWorker? then [left[|left| - 1].e] else []
  }

  ghost function Evictions<E>(left: seq<Departure<E>>): seq<E>
  {
    if left == [] then []
    else Evictions(left[..|left| - 1]) + if left[|left| - 1].Evicted? then [left[|left| - 1].e] else []
  }

  /** Events leave the queue in the order they entered it, each with a worker or evicted. */
  ghost predicate InOrder<E>(entered: seq<E>, left: seq<Departure<E>>, queue: seq<E>, popped: seq<E>, evicted: seq<E>)
  {
    entered == Events(left) + queue && popped == WithWorkers(left) && evicted == Evictions(left)
  }

  ghost predicate OrderInv<E>(g: Gateway<E>)
  {
    InOrder(g.entered, g.left, g.queue, g.popped, g.evicted)
  }

  lemma Enters<E>(entered: seq<E>, left: seq<Departure<E>>, queue: seq<E>, popped: seq<E>, evicted: seq<E>, e: E)
    requires InOrder(entered, left, queue, popped, evicted)
    ensures InOrder(entered + [e], left, queue + [e], popped, evicted)
  {
    assert entered + [e] == Events(left) + (queue + [e]);
  }

  lemma Departs<E>(entered: seq<E>, left: seq<Departure<E>>, queue: seq<E>, popped: seq<E>, evicted: seq<E>)
    requires InOrder(entered, left, queue, popped, evicted) && queue != []
    ensures InOrder(entered, left + [ToWorker(queue[0])], queue[1..], popped + [queue[0]], evicted)
    ensures InOrder(entered, left + [Evicted(queue[0])], queue[1..], popped, evicted + [queue[0]])
  {
    OneMoreLeft(left, ToWorker(queue[0]));
    OneMoreLeft(left, Evicted(queue[0]));
    assert Events(left) + queue == Events(left) + [queue[0]] + queue[1..];
    assert WithWorkers(left) + [] == WithWorkers(left) && Evictions(left) + [] == Evictions(left);
  }

  lemma OneMoreLeft<E>(left: seq<Departure<E>>, d: Departure<E>)
    ensures Events(left + [d]) == Events(left) + [d.e]
    ensures WithWorkers(left + [d]) == WithWorkers(left) + if d.ToWorker? then [d.e] else []
    ensures Evictions(left + [d]) == Evictions(left) + if d.Evicted? then [d.e] else []
  {
    assert (left + [d])[..|left|] == left;
  }

  lemma PushOrder<E>(g: Gateway<E>, c: nat, e: E)
    requires c < |g.conns| && g.capacity > 0 && OrderInv(g)
    ensures OrderInv(PushEvent(g, c, e))
  {
    if |g.queue| < g.capacity {
      Enters(g.entered, g.left, g.queue, g.popped, g.evicted, e);
    } else if g.policy.DropOldest? {
      Departs(g.entered, g.left, g.queue, g.popped, g.evicted);
      Enters(g.entered, g.left + [Evicted(g.queue[0])], g.queue[1..], g.popped, g.evicted + [g.queue[0]], e);
    }
  }

  lemma OrderKept<E>(g: Gateway<E>, m: Move<E>)
    requires Enabled(g, m) && g.capacity > 0 && OrderInv(g)
    ensures OrderInv(Next(g, m))
  {
    match m
    case Line(c, parsed) =>
      if parsed.Some? { PushOrder(g.(lines := g.lines + [parsed.value]), c, parsed.value); }
    case Timer(c, error) => if !error { PushOrder(g, c, g.conns[c].e); }
    case Work(w, aged) => WorkOrder(g, w, aged);
    case _ =>
  }

  lemma WorkOrder<E>(g: Gateway<E>, w: nat, aged: bool)
    requires w < |g.workers| && OrderInv(g)
    ensures OrderInv(WorkStep(g, w, aged))
  {
    if g.workers[w].Waiting? && g.queue != [] { Departs(g.entered, g.left, g.queue, g.popped, g.evicted); }
  }

  // ---- what each policy rules out ----

  ghost predicate NobodyRetries<E>(conns: seq<Connection<E>>)
  {
    forall c :: 0 <= c < |conns| ==> !conns[c].Retrying?
  }

  ghost predicate PolicyInv<E>(g: Gateway<E>)
  {
    match g.policy
    case Block => g.refused == [] && g.evicted == []
    case DropNewest => g.evicted == [] && g.abandoned == [] && NobodyRetries(g.conns)
    case DropOldest => g.refused == [] && g.abandoned == [] && NobodyRetries(g.conns)
  }

  lemma PushPolicy<E>(g: Gateway<E>, c: nat, e: E)
    requires c < |g.conns| && g.capacity > 0 && PolicyInv(g) && (g.conns[c].Reading? || g.conns[c].Retrying?)
    ensures PolicyInv(PushEvent(g, c, e)) && PushEvent(g, c, e).policy == g.policy
  {
    PushDecides(g, c, e);
  }

  lemma PolicyKept<E>(g: Gateway<E>, m: Move<E>)
    requires Enabled(g, m) && g.capacity > 0 && PolicyInv(g)
    ensures PolicyInv(Next(g, m)) && Next(g, m).policy == g.policy
  {
    match m
    case Line(c, parsed) =>
      if parsed.Some? { PushPolicy(g.(lines := g.lines + [parsed.value]), c, parsed.value); }
    case Timer(c, error) => if !error { PushPolicy(g, c, g.conns[c].e); }
    case Work(w, aged) => WorkTouches(g, w, aged);
    case _ =>
  }

  // ---- conservation ----

  ghost function PendingIs<E>(x: E): Connection<E> -> bool
  {
    (c: Connection<E>) => c == Retrying(x)
  }

  ghost function HoldingIs<E>(x: E): Worker<E> -> bool
  {
    (w: Worker<E>) => w == Holding(x)
  }

  ghost predicate IsRetrying<E>(c: Connection<E>) { c.Retrying? }
  ghost predicate IsHolding<E>(w: Worker<E>) { w.Holding? }

  /** Every well-formed line carrying x is in exactly one place; `extra` of them are being pushed
      right now. */
  ghost predicate LinesAt<E>(g: Gateway<E>, x: E, extra: nat)
  {
    Count(g.lines, Is(x)) == Count(g.queue, Is(x)) + Count(g.popped, Is(x)) + Count(g.evicted, Is(x))
                             + Count(g.refused, Is(x)) + Count(g.abandoned, Is(x)) + Count(g.conns, PendingIs(x))
                             + extra
  }

  /** Every popped x is in a worker's hands, in the batcher or at the sink. */
  ghost predicate PoppedAt<E>(g: Gateway<E>, x: E)
  {
    Count(g.popped, Is(x)) == Count(g.workers, HoldingIs(x)) + Count(g.buffer, Is(x)) + Count(g.sink, Is(x))
  }

  /** The counters, and the same laws in numbers. */
  ghost predicate CountsInv<E>(g: Gateway<E>, extra: nat)
  {
    && |g.popped| + |g.queue| == g.counters.accepted
    && |g.evicted| == g.counters.droppedOldest
    && |g.refused| == g.counters.droppedNewest
    && |g.lines| == g.counters.accepted + |g.evicted| + |g.refused| + |g.abandoned| + Count(g.conns, IsRetrying) + extra
    && |g.popped| == Count(g.workers, IsHolding) + |g.buffer| + |g.sink|
  }

  ghost predicate DrainInv<E>(g: Gateway<E>)
  {
    && g.capacity > 0
    && (g.shut ==> g.stopped)
    && (forall w :: 0 <= w < |g.workers| && g.workers[w].Gone? ==> g.shut && g.queue == [])
  }

  ghost predicate GatewayInv<E(!new)>(g: Gateway<E>)
  {
    (forall x :: LinesAt(g, x, 0) && PoppedAt(g, x)) && CountsInv(g, 0) && DrainInv(g) && OrderInv(g) && PolicyInv(g)
  }

  /** Event e is on its way to the queue from connection c: just read, or waiting for its retry. */
  ghost predicate Arriving<E>(g: Gateway<E>, c: nat, e: E)
  {
    c < |g.conns| && (g.conns[c].Reading? || g.conns[c] == Retrying(e))
  }

  lemma AdmitLines<E>(g: Gateway<E>, c: nat, e: E, x: E)
    requires Arriving(g, c, e) && LinesAt(g, x, One(g.conns[c].Reading? && e == x))
    ensures LinesAt(Admit(g, c, e), x, 0)
  {
    CountUpdate(g.conns, c, Reading, PendingIs(x));
    CountAppend(g.queue, e, Is(x));
  }

  lemma EvictLines<E>(g: Gateway<E>, c: nat, e: E, x: E)
    requires Arriving(g, c, e) && g.queue != [] && LinesAt(g, x, One(g.conns[c].Reading? && e == x))
    ensures LinesAt(Evict(g, c, e), x, 0)
  {
    CountUpdate(g.conns, c, Reading, PendingIs(x));
    CountAppend(g.queue[1..], e, Is(x));
    CountAppend(g.evicted, g.queue[0], Is(x));
  }

  lemma RefuseLines<E>(g: Gateway<E>, e: E, x: E)
    requires LinesAt(g, x, One(e == x))
    ensures LinesAt(Refuse(g, e), x, 0)
  {
    CountAppend(g.refused, e, Is(x));
  }

  lemma ParkLines<E>(g: Gateway<E>, c: nat, e: E, x: E)
    requires Arriving(g, c, e) && LinesAt(g, x, One(g.conns[c].Reading? && e == x))
    ensures LinesAt(Park(g, c, e), x, 0)
  {
    CountUpdate(g.conns, c, Retrying(e), PendingIs(x));
  }

  lemma PushEventLines<E>(g: Gateway<E>, c: nat, e: E, x: E)
    requires Arriving(g, c, e) && g.capacity > 0 && LinesAt(g, x, One(g.conns[c].Reading? && e == x))
    ensures LinesAt(PushEvent(g, c, e), x, 0)
  {
    if |g.queue| < g.capacity {
      AdmitLines(g, c, e, x);
    } else if g.policy.DropOldest? {
      EvictLines(g, c, e, x);
    } else if g.policy.DropNewest? && g.conns[c].Reading? {
      RefuseLines(g, e, x);
    } else {
      ParkLines(g, c, e, x);
    }
  }

  lemma PushEventCounts<E>(g: Gateway<E>, c: nat, e: E)
    requires Arriving(g, c, e) && g.capacity > 0 && CountsInv(g, One(g.conns[c].Reading?))
    ensures CountsInv(PushEvent(g, c, e), 0)
  {
    if |g.queue| < g.capacity {
      AdmitCounts(g, c, e);
    } else if g.policy.DropOldest? {
      EvictCounts(g, c, e);
    } else if !(g.policy.DropNewest? && g.conns[c].Reading?) {
      ParkCounts(g, c, e);
    }
  }

  lemma AdmitCounts<E>(g: Gateway<E>, c: nat, e: E)
    requires Arriving(g, c, e) && CountsInv(g, One(g.conns[c].Reading?))
    ensures CountsInv(Admit(g, c, e), 0)
  {
    CountUpdate(g.conns, c, Reading, IsRetrying);
  }

  lemma EvictCounts<E>(g: Gateway<E>, c: nat, e: E)
    requires Arriving(g, c, e) && g.queue != [] && CountsInv(g, One(g.conns[c].Reading?))
    ensures CountsInv(Evict(g, c, e), 0)
  {
    CountUpdate(g.conns, c, Reading, IsRetrying);
  }

  lemma ParkCounts<E>(g: Gateway<E>, c: nat, e: E)
    requires Arriving(g, c, e) && CountsInv(g, One(g.conns[c].Reading?))
    ensures CountsInv(Park(g, c, e), 0)
  {
    CountUpdate(g.conns, c, Retrying(e), IsRetrying);
  }

  lemma TakeKeeps<E>(g: Gateway<E>, w: nat, x: E)
    requires w < |g.workers| && g.workers[w].Waiting? && g.queue != [] && PoppedAt(g, x)
    ensures PoppedAt(Take(g, w), x)
  {
    CountUpdate(g.workers, w, Holding(g.queue[0]), HoldingIs(x));
    CountAppend(g.popped, g.queue[0], Is(x));
  }

  lemma AddKeeps<E>(g: Gateway<E>, w: nat, x: E)
    requires w < |g.workers| && g.workers[w].Holding? && PoppedAt(g, x)
    ensures PoppedAt(Add(g, w), x)
  {
    CountUpdate(g.workers, w, Waiting, HoldingIs(x));
    CountAppend(g.buffer, g.workers[w].e, Is(x));
  }

  lemma FlushKeeps<E>(g: Gateway<E>, x: E)
    requires PoppedAt(g, x)
    ensures PoppedAt(Flush(g), x)
  {
    CountConcat(g.sink, g.buffer, Is(x));
  }

  lemma WorkPopped<E>(g: Gateway<E>, w: nat, aged: bool, x: E)
    requires w < |g.workers| && PoppedAt(g, x)
    ensures PoppedAt(WorkStep(g, w, aged), x)
  {
    match g.workers[w]
    case Waiting =>
      if g.queue != [] { TakeKeeps(g, w, x); } else { CountUpdate(g.workers, w, Gone, HoldingIs(x)); }
    case Holding(e) =>
      AddKeeps(g, w, x);
      FlushKeeps(Add(g, w), x);
    case Gone =>
  }

  lemma TakeLines<E>(g: Gateway<E>, w: nat, x: E)
    requires w < |g.workers| && g.queue != [] && LinesAt(g, x, 0)
    ensures LinesAt(Take(g, w), x, 0)
  {
    CountAppend(g.popped, g.queue[0], Is(x));
  }

  lemma WorkLines<E>(g: Gateway<E>, w: nat, aged: bool, x: E)
    requires w < |g.workers| && LinesAt(g, x, 0)
    ensures LinesAt(WorkStep(g, w, aged), x, 0)
  {
    WorkTouches(g, w, aged);
    if g.workers[w].Waiting? && g.queue != [] {
      TakeLines(g, w, x);
    } else {
      Unmoved(g, WorkStep(g, w, aged), x);
    }
  }

  /** Apart from a pop, a worker touches neither the queue nor any line's fate. */
  lemma WorkTouches<E>(g: Gateway<E>, w: nat, aged: bool)
    requires w < |g.workers|
    ensures var g' := WorkStep(g, w, aged);
            if g.workers[w].Waiting? && g.queue != [] then g' == Take(g, w)
            else && g'.lines == g.lines && g'.queue == g.queue && g'.popped == g.popped && g'.evicted == g.evicted
                 && g'.refused == g.refused && g'.abandoned == g.abandoned && g'.conns == g.conns
                 && g'.counters == g.counters
  {
  }

  lemma Unmoved<E>(g: Gateway<E>, g': Gateway<E>, x: E)
    requires LinesAt(g, x, 0) && g'.lines == g.lines && g'.queue == g.queue && g'.popped == g.popped
    requires g'.evicted == g.evicted && g'.refused == g.refused && g'.abandoned == g.abandoned && g'.conns == g.conns
    ensures LinesAt(g', x, 0)
  {
  }

  lemma WorkKeepsCounts<E>(g: Gateway<E>, w: nat, aged: bool)
    requires w < |g.workers| && CountsInv(g, 0)
    ensures CountsInv(WorkStep(g, w, aged), 0)
  {
    WorkTouches(g, w, aged);
    WorkHolds(g, w, aged);
  }

  /** What a worker step does to the number of events popped and not yet at the sink. */
  lemma WorkHolds<E>(g: Gateway<E>, w: nat, aged: bool)
    requires w < |g.workers|
    ensures var g' := WorkStep(g, w, aged);
            |g'.popped| + Count(g.workers, IsHolding) + |g.buffer| + |g.sink|
            == |g.popped| + Count(g'.workers, IsHolding) + |g'.buffer| + |g'.sink|
  {
    match g.workers[w]
    case Waiting =>
      CountUpdate(g.workers, w, if g.queue != [] then Holding(g.queue[0]) else Gone, IsHolding);
    case Holding(e) => CountUpdate(g.workers, w, Waiting, IsHolding);
    case Gone =>
  }

  lemma AbandonKeeps<E>(g: Gateway<E>, c: nat, x: E)
    requires c < |g.conns| && g.conns[c].Retrying? && LinesAt(g, x, 0)
    ensures LinesAt(Abandon(g, c), x, 0)
  {
    CountUpdate(g.conns, c, Closed, PendingIs(x));
    CountAppend(g.abandoned, g.conns[c].e, Is(x));
  }

  lemma NextLines<E>(g: Gateway<E>, m: Move<E>, x: E)
    requires Enabled(g, m) && g.capacity > 0 && LinesAt(g, x, 0)
    ensures LinesAt(Next(g, m), x, 0)
  {
    match m
    case Accept => CountAppend(g.conns, Reading, PendingIs(x));
    case Line(c, parsed) =>
      if parsed.Some? {
        CountAppend(g.lines, parsed.value, Is(x));
        PushEventLines(g.(lines := g.lines + [parsed.value]), c, parsed.value, x);
      }
    case Timer(c, error) =>
      if error { AbandonKeeps(g, c, x); } else { PushEventLines(g, c, g.conns[c].e, x); }
    case Hangup(c) => CountUpdate(g.conns, c, Closed, PendingIs(x));
    case Work(w, aged) => WorkLines(g, w, aged, x);
    case _ =>
  }

  lemma NextPopped<E>(g: Gateway<E>, m: Move<E>, x: E)
    requires Enabled(g, m) && g.capacity > 0 && PoppedAt(g, x)
    ensures PoppedAt(Next(g, m), x)
  {
    match m
    case Work(w, aged) => WorkPopped(g, w, aged, x);
    case PeriodicFlush => FlushKeeps(g, x);
    case _ =>
      NextTouches(g, m);
      Untaken(g, Next(g, m), x);
  }

  /** Connections and shutdown touch nothing behind the queue. */
  lemma NextTouches<E>(g: Gateway<E>, m: Move<E>)
    requires Enabled(g, m) && g.capacity > 0 && !m.Work? && !m.PeriodicFlush?
    ensures var g' := Next(g, m);
            g'.popped == g.popped && g'.workers == g.workers && g'.buffer == g.buffer && g'.sink == g.sink
  {
  }

  lemma Untaken<E>(g: Gateway<E>, g': Gateway<E>, x: E)
    requires PoppedAt(g, x) && g'.popped == g.popped && g'.workers == g.workers && g'.buffer == g.buffer
    requires g'.sink == g.sink
    ensures PoppedAt(g', x)
  {
  }

  lemma NextKeepsCounts<E>(g: Gateway<E>, m: Move<E>)
    requires Enabled(g, m) && g.capacity > 0 && CountsInv(g, 0)
    ensures CountsInv(Next(g, m), 0)
  {
    match m
    case Accept => CountAppend(g.conns, Reading, IsRetrying);
    case Line(c, parsed) =>
      if parsed.Some? { PushEventCounts(g.(lines := g.lines + [parsed.value]), c, parsed.value); }
    case Timer(c, error) =>
      if error { CountUpdate(g.conns, c, Closed, IsRetrying); } else { PushEventCounts(g, c, g.conns[c].e); }
    case Hangup(c) => CountUpdate(g.conns, c, Closed, IsRetrying);
    case Work(w, aged) => WorkKeepsCounts(g, w, aged);
    case _ =>
  }

  lemma NextKeepsDrain<E>(g: Gateway<E>, m: Move<E>)
    requires Enabled(g, m) && DrainInv(g)
    ensures DrainInv(Next(g, m))
  {
  }

  ghost predicate Start<E>(g: Gateway<E>)
  {
    && g.capacity > 0 && g.conns == [] && g.queue == [] && g.buffer == [] && g.sink == []
    && (forall w :: 0 <= w < |g.workers| ==> g.workers[w].Waiting?)
    && !g.stopped && !g.shut && g.counters == Counters(0, 0, 0, 0)
    && g.lines == g.evicted == g.refused == g.abandoned == g.popped == g.entered == [] && g.left == []
  }

  ghost predicate StepAt<E(!new)>(run: seq<Gateway<E>>, i: nat)
  {
    i + 1 < |run| && exists m :: Enabled(run[i], m) && run[i].capacity > 0 && run[i + 1] == Next(run[i], m)
  }

  ghost predicate IsRun<E(!new)>(run: seq<Gateway<E>>)
  {
    run != [] && Start(run[0]) && forall i: nat :: i + 1 < |run| ==> StepAt(run, i)
  }

  lemma StartHolds<E(!new)>(g: Gateway<E>)
    requires Start(g)
    ensures GatewayInv(g)
  {
    CountZero(g.workers, IsHolding);
    forall x: E ensures LinesAt(g, x, 0) && PoppedAt(g, x) {
      CountZero(g.workers, HoldingIs(x));
    }
  }

  lemma NextKeeps<E(!new)>(g: Gateway<E>, m: Move<E>)
    requires Enabled(g, m) && GatewayInv(g)
    ensures GatewayInv(Next(g, m))
  {
    NextKeepsCounts(g, m);
    NextKeepsDrain(g, m);
    OrderKept(g, m);
    PolicyKept(g, m);
    forall x: E ensures LinesAt(Next(g, m), x, 0) && PoppedAt(Next(g, m), x) {
      assert LinesAt(g, x, 0) && PoppedAt(g, x);
      NextLines(g, m, x);
      NextPopped(g, m, x);
    }
  }

  lemma StepKeeps<E(!new)>(run: seq<Gateway<E>>, i: nat)
    requires StepAt(run, i) && GatewayInv(run[i])
    ensures GatewayInv(run[i + 1])
  {
    var m :| Enabled(run[i], m) && run[i].capacity > 0 && run[i + 1] == Next(run[i], m);
    NextKeeps(run[i], m);
  }

  lemma Reachable<E(!new)>(run: seq<Gateway<E>>, i: nat)
    requires IsRun(run) && i < |run|
    ensures GatewayInv(run[i])
  {
    var inv := (g: Gateway<E>) => GatewayInv(g);
    StartHolds(run[0]);
    forall k: nat | k < i && inv(run[k]) ensures inv(run[k + 1]) {
      assert StepAt(run, k);
      StepKeeps(run, k);
    }
    Along(run, inv, 0, i);
  }

  /** Event conservation over every run and policy: well-formed lines read = accepted +
      dropped_oldest + dropped_newest + pending retry + abandoned, and popped + queued =
      accepted; and the sink never holds more copies of an event than lines carried it. */
  lemma EventsConserved<E(!new)>(run: seq<Gateway<E>>, i: nat, x: E)
    requires IsRun(run) && i < |run|
    ensures var g := run[i];
            && |g.lines| == g.counters.accepted + g.counters.droppedOldest + g.counters.droppedNewest
                            + Count(g.conns, IsRetrying) + |g.abandoned|
            && |g.popped| + |g.queue| == g.counters.accepted
            && multiset(g.sink)[x] <= multiset(g.lines)[x]
  {
    Reachable(run, i);
    assert LinesAt(run[i], x, 0) && PoppedAt(run[i], x);
    CountIsMultiplicity(run[i].sink, x);
    CountIsMultiplicity(run[i].lines, x);
  }

  /** First in, first out, over every run: what entered the queue is what left it and what is still in it,
      in that order; and of what left it the workers took these events and DropOldest evicted those. */
  lemma QueueOrder<E(!new)>(run: seq<Gateway<E>>, i: nat)
    requires IsRun(run) && i < |run|
    ensures run[i].entered == Events(run[i].left) + run[i].queue
    ensures run[i].popped == WithWorkers(run[i].left) && run[i].evicted == Evictions(run[i].left)
  {
    Reachable(run, i);
  }

  /** What each policy promises, over every run. Block: nothing is ever dropped, new or old. DropNewest:
      nothing is evicted and nobody waits for a retry. DropOldest: nothing is refused and nobody waits. */
  lemma PolicyPromises<E(!new)>(run: seq<Gateway<E>>, i: nat)
    requires IsRun(run) && i < |run|
    ensures run[i].policy.Block? ==> run[i].counters.droppedNewest == run[i].counters.droppedOldest == 0
    ensures run[i].policy.DropNewest? ==> run[i].counters.droppedOldest == 0 && NobodyRetries(run[i].conns)
    ensures run[i].policy.DropOldest? ==> run[i].counters.droppedNewest == 0 && NobodyRetries(run[i].conns)
  {
    Reachable(run, i);
  }

  /** Once the pool has stopped (every worker left) and the final flush is done, the sink has
      received exactly the accepted number of events: every line that was not evicted, refused,
      abandoned or left waiting for a retry, each exactly once. */
  lemma StopDeliversEverything<E(!new)>(run: seq<Gateway<E>>, i: nat, x: E)
    requires IsRun(run) && i < |run| && run[i].workers != [] && run[i].buffer == []
    requires forall w :: 0 <= w < |run[i].workers| ==> run[i].workers[w].Gone?
    ensures var g := run[i];
            && |g.sink| == g.counters.accepted
            && multiset(g.lines)[x] == multiset(g.sink)[x] + Count(g.evicted, Is(x)) + Count(g.refused, Is(x))
                                       + Count(g.abandoned, Is(x)) + Count(g.conns, PendingIs(x))
  {
    Reachable(run, i);
    var g := run[i];
    assert LinesAt(g, x, 0) && PoppedAt(g, x);
    CountZero(g.workers, IsHolding);
    CountZero(g.workers, HoldingIs(x));
    CountIsMultiplicity(g.sink, x);
    CountIsMultiplicity(g.lines, x);
    assert g.workers[0].Gone?;
  }
}
