/** Retry timing: the backoff loop of one batch, and how long a sink thread may outlive stop().
    Round trips, their durations and the jitter are the environment's. Times are milliseconds, and
    only sending and sleeping take time. */
module Retry {
  import opened HttpSinks
  import opened QueueTypes
  import opened RingArithmetic
  import opened Tally

  const BACKOFF_CAP: nat := 30_000
  const DRAIN_DEADLINE: nat := 5_000

  datatype Options = Options(maxRetries: nat, backoffBase: nat)

  /** The fate of one batch: for each attempt its outcome and duration, and the jitter drawn for
      the wait after it. */
  type Fate = nat -> Attempt

  datatype Attempt = Attempt(outcome: Outcome, took: nat, jitter: nat)

  /** The wait after attempt i before jitter. */
  function Backoff(base: nat, i: nat): nat
  {
    if i == 0 then base
    else if 2 * Backoff(base, i - 1) < BACKOFF_CAP then 2 * Backoff(base, i - 1) else BACKOFF_CAP
  }

  /** In closed form: base * 2^i, capped; only the first wait can exceed the cap. */
  lemma {:induction false} BackoffClosed(base: nat, i: nat)
    ensures Backoff(base, i) == if i == 0 || base * Pow2(i) < BACKOFF_CAP then base * Pow2(i) else BACKOFF_CAP
  {
    if i > 0 {
      BackoffClosed(base, i - 1);
      Doubled(base, Pow2(i - 1));
    }
  }

  lemma Doubled(a: nat, b: nat)
    ensures a * (2 * b) == 2 * (a * b)
  {
  }

  /** With a base within the cap this is min(base * 2^i, cap), and it never shrinks. */
  lemma BackoffBounded(base: nat, i: nat)
    requires base <= BACKOFF_CAP
    ensures Backoff(base, i) == (if base * Pow2(i) <= BACKOFF_CAP then base * Pow2(i) else BACKOFF_CAP)
    ensures Backoff(base, i) <= Backoff(base, i + 1) <= BACKOFF_CAP
  {
    BackoffClosed(base, i);
  }

  /** What the clocks and the jitter source guarantee: no attempt outlasts `limit`, and jitter adds
      at most half the backoff. */
  ghost predicate Fair(a: Attempt, base: nat, i: nat, limit: nat)
  {
    a.took <= limit && a.jitter <= Backoff(base, i) / 2
  }

  ghost predicate Timely(f: Fate, base: nat, limit: nat)
  {
    forall i: nat {:trigger Fair(f(i), base, i, limit)} :: Fair(f(i), base, i, limit)
  }

  /** Jitter only adds: the backoff is a floor, and one and a half times it a ceiling. */
  predicate WaitFits(base: nat, i: nat, wait: nat)
  {
    Backoff(base, i) <= wait && 2 * wait <= 3 * Backoff(base, i)
  }

  /** The longest that n + 1 attempts and the n waits between them can take. */
  function Longest(base: nat, limit: nat, n: nat): nat
  {
    if n == 0 then limit else Longest(base, limit, n - 1) + Backoff(base, n - 1) + Backoff(base, n - 1) / 2 + limit
  }

  /** One full retry chain. */
  function Chain(o: Options, limit: nat): nat
  {
    Longest(o.backoffBase, limit, o.maxRetries)
  }

  lemma {:induction false} LongestGrows(base: nat, limit: nat, m: nat, n: nat)
    requires m <= n
    ensures Longest(base, limit, m) <= Longest(base, limit, n)
  {
    if m < n {
      LongestGrows(base, limit, m, n - 1);
    }
  }

  /** With a base within the cap, a chain of r retries takes at most r + 1 attempts and r waits of
      one and a half times the cap. */
  lemma {:induction false} ChainBounded(base: nat, limit: nat, r: nat)
    requires base <= BACKOFF_CAP
    ensures Longest(base, limit, r) <= limit + r * (limit + BACKOFF_CAP + BACKOFF_CAP / 2)
  {
    if r > 0 {
      ChainBounded(base, limit, r - 1);
      BackoffBounded(base, r - 1);
      OneMore(r, limit + BACKOFF_CAP + BACKOFF_CAP / 2);
    } else {
      assert 0 * (limit + BACKOFF_CAP + BACKOFF_CAP / 2) == 0;
    }
  }

  lemma OneMore(r: nat, c: nat)
    requires r > 0
    ensures r * c == (r - 1) * c + c
  {
  }

  // ---- how long it takes ----

  /** What the first n attempts took. */
  function TotalTook(f: Fate, n: nat): nat
  {
    if n == 0 then 0 else TotalTook(f, n - 1) + f(n - 1).took
  }

  /** What the first n waits took. */
  function TotalWaited(base: nat, f: Fate, n: nat): nat
  {
    if n == 0 then 0 else TotalWaited(base, f, n - 1) + Backoff(base, n - 1) + f(n - 1).jitter
  }

  /** The first n waits: each its backoff plus jitter. */
  function Waits(base: nat, f: Fate, n: nat): seq<nat>
  {
    if n == 0 then [] else Waits(base, f, n - 1) + [Backoff(base, n - 1) + f(n - 1).jitter]
  }

  ghost predicate AllFit(base: nat, f: Fate, waits: seq<nat>)
  {
    forall i: nat {:trigger waits[i]} :: i < |waits| ==>
      waits[i] == Backoff(base, i) + f(i).jitter && WaitFits(base, i, waits[i])
  }

  lemma {:induction false} WaitsFit(base: nat, f: Fate, limit: nat, n: nat)
    requires Timely(f, base, limit)
    ensures |Waits(base, f, n)| == n && AllFit(base, f, Waits(base, f, n))
  {
    if n > 0 {
      WaitsFit(base, f, limit, n - 1);
      assert Fair(f(n - 1), base, n - 1, limit);
    }
  }

  lemma {:induction false} TimeBounded(base: nat, f: Fate, limit: nat, n: nat)
    requires Timely(f, base, limit)
    ensures TotalTook(f, n + 1) + TotalWaited(base, f, n) <= Longest(base, limit, n)
  {
    assert Fair(f(n), base, n, limit);
    if n > 0 {
      TimeBounded(base, f, limit, n - 1);
      assert Fair(f(n - 1), base, n - 1, limit);
    }
  }

  /** Attempts within the limit take at most one full chain. */
  lemma TotalBounded(o: Options, f: Fate, limit: nat, n: nat)
    requires Timely(f, o.backoffBase, limit) && n <= o.maxRetries
    ensures TotalTook(f, n + 1) + TotalWaited(o.backoffBase, f, n) <= Chain(o, limit)
  {
    TimeBounded(o.backoffBase, f, limit, n);
    LongestGrows(o.backoffBase, limit, n, o.maxRetries);
  }

  lemma OneMoreAttempt(base: nat, f: Fate, n: nat)
    ensures TotalTook(f, n + 1) == TotalTook(f, n) + f(n).took
    ensures TotalWaited(base, f, n + 1) == TotalWaited(base, f, n) + Backoff(base, n) + f(n).jitter
    ensures Waits(base, f, n + 1) == Waits(base, f, n) + [Backoff(base, n) + f(n).jitter]
    ensures Backoff(base, n + 1) == if 2 * Backoff(base, n) < BACKOFF_CAP then 2 * Backoff(base, n) else BACKOFF_CAP
  {
  }

  /** n attempts are made: all before the last failed retryably, and the last did not or was the one the
      limit allows. */
  ghost predicate Makes(o: Options, f: Fate, n: nat)
  {
    && 1 <= n <= o.maxRetries + 1
    && (forall i: nat :: i < n - 1 ==> f(i).outcome.RetryableFailure?)
    && (n == o.maxRetries + 1 || !f(n - 1).outcome.RetryableFailure?)
  }

  ghost function TriesFrom(o: Options, f: Fate, i: nat): (n: nat)
    requires i <= o.maxRetries
    ensures n >= 1
    decreases o.maxRetries - i
  {
    if i == o.maxRetries || !f(i).outcome.RetryableFailure? then i + 1 else TriesFrom(o, f, i + 1)
  }

  /** There is exactly one such number. */
  lemma {:induction false} MakesTries(o: Options, f: Fate, i: nat, n: nat)
    requires i <= o.maxRetries && forall j: nat :: j < i ==> f(j).outcome.RetryableFailure?
    ensures Makes(o, f, n) <==> n == TriesFrom(o, f, i)
    decreases o.maxRetries - i
  {
    if i == o.maxRetries || !f(i).outcome.RetryableFailure? {
      assert Makes(o, f, n) ==> n == i + 1;
    } else {
      MakesTries(o, f, i + 1, n);
    }
  }

  /** How long a batch occupies its thread: its attempts and the waits between them. */
  ghost function Duration(o: Options): Fate -> nat
  {
    (f: Fate) => var n := TriesFrom(o, f, 0); TotalTook(f, n) + TotalWaited(o.backoffBase, f, n - 1)
  }

  /** The batch gets through: an attempt within the limit succeeds and all before it failed retryably. */
  ghost predicate GetsThrough(o: Options, f: Fate)
  {
    exists k: nat :: k <= o.maxRetries && f(k).outcome.Success? && forall i: nat ::
    i < k ==> f(i).outcome.RetryableFailure?
  }

  ghost function Delivered(o: Options): Fate -> bool
  {
    (f: Fate) => GetsThrough(o, f)
  }

  lemma SentGetsThrough(o: Options, f: Fate, n: nat)
    requires Makes(o, f, n)
    ensures f(n - 1).outcome.Success? <==> GetsThrough(o, f)
  {
    if GetsThrough(o, f) {
      var k: nat :| k <= o.maxRetries && f(k).outcome.Success? && forall i: nat ::
      i < k ==> f(i).outcome.RetryableFailure?;
      assert k == n - 1;
    }
  }

  /** Sends one batch. The attempts before the last all failed retryably; the last succeeded,
      failed for good, or was the one the limit allows; the waits are the backoffs plus jitter, and the time
      it takes is that of its attempts and waits. */
  method SendWithRetries(o: Options, f: Fate) returns (sent: bool, attempts: nat, waits: seq<nat>, elapsed: nat)
    ensures Makes(o, f, attempts)
    ensures sent <==> f(attempts - 1).outcome.Success?
    ensures !sent ==> f(attempts - 1).outcome.PermanentFailure? || attempts == o.maxRetries + 1
    ensures waits == Waits(o.backoffBase, f, attempts - 1)
    ensures elapsed == TotalTook(f, attempts) + TotalWaited(o.backoffBase, f, attempts - 1)
  {
    var backoff := o.backoffBase;
    waits, elapsed := [], 0;
    for attempt := 0 to o.maxRetries + 1
      invariant attempt <= o.maxRetries && backoff == Backoff(o.backoffBase, attempt)
      invariant forall i: nat :: i < attempt ==> f(i).outcome.RetryableFailure?
      invariant waits == Waits(o.backoffBase, f, attempt)
      invariant elapsed == TotalTook(f, attempt) + TotalWaited(o.backoffBase, f, attempt)
    {
      var now := f(attempt);
      OneMoreAttempt(o.backoffBase, f, attempt);
      elapsed := elapsed + now.took;
      if now.outcome.Success? { return true, attempt + 1, waits, elapsed; }
      if now.outcome.PermanentFailure? { return false, attempt + 1, waits, elapsed; }
      if attempt == o.maxRetries { return false, attempt + 1, waits, elapsed; }
      var delay := backoff + now.jitter;
      waits := waits + [delay];
      elapsed := elapsed + delay;
      backoff := if 2 * backoff < BACKOFF_CAP then 2 * backoff else BACKOFF_CAP;
    }
    assert false;
  }

  // ---- draining after stop() ----

  /** When the thread comes to its b-th batch if it sends all before it. */
  ghost function Comes(o: Options, fates: seq<Fate>, now: nat, b: nat): nat
    requires b <= |fates|
  {
    now + Sum(fates[..b], Duration(o))
  }

  /** n batches are attempted: it comes to each of them before the deadline, and to the next, if there is
      one, not before it. */
  ghost predicate Attempts(o: Options, fates: seq<Fate>, now: nat, deadline: nat, n: nat)
  {
    && n <= |fates|
    && (forall b: nat :: b < n ==> Comes(o, fates, now, b) < deadline)
    && (n < |fates| ==> deadline <= Comes(o, fates, now, n))
  }

  lemma ComesNext(o: Options, fates: seq<Fate>, now: nat, b: nat)
    requires b < |fates|
    ensures Comes(o, fates, now, b + 1) == Comes(o, fates, now, b) + Duration(o)(fates[b])
    ensures Count(fates[..b + 1], Delivered(o)) == Count(fates[..b], Delivered(o)) + One(GetsThrough(o, fates[b]))
  {
    assert fates[..b + 1] == fates[..b] + [fates[b]];
    SumAppend(fates[..b], fates[b], Duration(o));
    CountAppend(fates[..b], fates[b], Delivered(o));
  }

  lemma BatchTimes(o: Options, f: Fate, limit: nat, n: nat)
    requires Makes(o, f, n) && Timely(f, o.backoffBase, limit)
    ensures f(n - 1).outcome.Success? <==> GetsThrough(o, f)
    ensures Duration(o)(f) == TotalTook(f, n) + TotalWaited(o.backoffBase, f, n - 1) <= Chain(o, limit)
  {
    MakesTries(o, f, 0, n);
    SentGetsThrough(o, f, n);
    TotalBounded(o, f, limit, n - 1);
  }

  /** One batch through the retry loop, on the clock: whether it gets through and how long that takes, at
      most one full chain; and each wait lies between its backoff and one and a half times that. */
  method SendBatch(o: Options, f: Fate, ghost limit: nat) returns (sent: bool, waits: seq<nat>, elapsed: nat)
    requires Timely(f, o.backoffBase, limit)
    ensures sent <==> GetsThrough(o, f)
    ensures AllFit(o.backoffBase, f, waits)
    ensures elapsed == Duration(o)(f) && elapsed <= Chain(o, limit)
  {
    var attempts;
    sent, attempts, waits, elapsed := SendWithRetries(o, f);
    BatchTimes(o, f, limit, attempts);
    WaitsFit(o.backoffBase, f, limit, attempts - 1);
  }

  /** What a sink thread does with the backlog once stop() has set the deadline: `fates` are the
      batches it pops until the queue is empty, `now` the moment it comes to its first pop. It attempts
      the batches it comes to before the deadline and no others; those of them that get through are
      counted as sent, all others as dropped; it ends when the last of them is through its retry loop,
      which is by the deadline plus one full retry chain. */
  method RunAfterStop(o: Options, fates: seq<Fate>, now: nat, deadline: nat, ghost limit: nat)
    returns (end: nat, sent: nat, droppedExhausted: nat, attempted: nat)
    requires forall b :: 0 <= b < |fates| ==> Timely(fates[b], o.backoffBase, limit)
    ensures Attempts(o, fates, now, deadline, attempted)
    ensures sent == Count(fates[..attempted], Delivered(o))
    ensures droppedExhausted == |fates| - sent
    ensures end == Comes(o, fates, now, attempted)
    ensures now <= end && (now <= deadline + Chain(o, limit) ==> end <= deadline + Chain(o, limit))
    ensures now >= deadline ==> end == now && attempted == 0
    ensures attempted < |fates| ==> deadline <= end
  {
    end, sent, droppedExhausted, attempted := now, 0, 0, 0;
    for b := 0 to |fates|
      invariant attempted <= b && (attempted < b ==> deadline <= end)
      invariant forall n: nat :: n < attempted ==> Comes(o, fates, now, n) < deadline
      invariant sent == Count(fates[..attempted], Delivered(o)) && sent + droppedExhausted == b
      invariant end == Comes(o, fates, now, attempted)
      invariant now <= end && (now <= deadline + Chain(o, limit) ==> end <= deadline + Chain(o, limit))
      invariant now >= deadline ==> end == now && attempted == 0
    {
      if end >= deadline {
        droppedExhausted := droppedExhausted + 1;
      } else {
        ComesNext(o, fates, now, b);
        var ok, _, elapsed := SendBatch(o, fates[b], limit);
        attempted := attempted + 1;
        end := end + elapsed;
        if ok { sent := sent + 1; } else { droppedExhausted := droppedExhausted + 1; }
      }
    }
  }

  /** When a thread comes to its first pop after stop(): at once if idle, or when the batch it began at
      `since` is through its retry loop. */
  ghost function FirstPop(o: Options, inFlight: Option<Fate>, since: nat, stopped: nat): nat
  {
    if inFlight.Some? && since + Duration(o)(inFlight.value) > stopped then since + Duration(o)(inFlight.value)
    else stopped
  }

  /** The thread's last batch before the deadline is through its retry loop at `end`. */
  ghost predicate Leaves(o: Options, inFlight: Option<Fate>, since: nat, backlog: seq<Fate>, stopped: nat, end: nat)
  {
    exists n: nat ::
      && Attempts(o, backlog, FirstPop(o, inFlight, since, stopped), stopped + DRAIN_DEADLINE, n)
      && end == Comes(o, backlog, FirstPop(o, inFlight, since, stopped), n)
  }

  method RunThread(o: Options, ghost inFlight: Option<Fate>, ghost since: nat, backlog: seq<Fate>, now: nat,
                   stopped: nat,
                   ghost limit: nat)
    returns (end: nat)
    requires now == FirstPop(o, inFlight, since, stopped)
    requires forall b :: 0 <= b < |backlog| ==> Timely(backlog[b], o.backoffBase, limit)
    ensures Leaves(o, inFlight, since, backlog, stopped, end) && now <= end
    ensures now <= stopped + DRAIN_DEADLINE + Chain(o, limit) ==> end <= stopped + DRAIN_DEADLINE + Chain(o, limit)
  {
    var e, _, _, attempted := RunAfterStop(o, backlog, now, stopped + DRAIN_DEADLINE, limit);
    end := e;
    assert Attempts(o, backlog, now, stopped + DRAIN_DEADLINE, attempted);
  }

  /** stop() called at `stopped` returns when the last thread leaves, and that is by its drain deadline plus
      one full retry chain. `ends` are the threads' last moments. */
  method StopReturns(o: Options, inFlight: seq<Option<Fate>>, since: seq<nat>, backlogs: seq<seq<Fate>>, stopped: nat,
                     ghost limit: nat)
    returns (returned: nat, ends: seq<nat>)
    requires |inFlight| == |since| == |backlogs|
    requires forall t :: 0 <= t < |since| ==> since[t] <= stopped
    requires forall t :: 0 <= t < |inFlight| && inFlight[t].Some? ==> Timely(inFlight[t].value, o.backoffBase, limit)
    requires forall t, b ::
             0 <= t < |backlogs| && 0 <= b < |backlogs[t]| ==> Timely(backlogs[t][b], o.backoffBase, limit)
    ensures |ends| == |backlogs|
    ensures forall t :: 0 <= t < |ends| ==> Leaves(o, inFlight[t], since[t], backlogs[t], stopped, ends[t])
    ensures forall t :: 0 <= t < |ends| ==> ends[t] <= returned
    ensures returned == stopped || returned in ends
    ensures stopped <= returned <= stopped + DRAIN_DEADLINE + Chain(o, limit)
  {
    var deadline := stopped + DRAIN_DEADLINE;
    returned, ends := stopped, [];
    for t := 0 to |backlogs|
      invariant |ends| == t && stopped <= returned <= deadline + Chain(o, limit)
      invariant forall u :: 0 <= u < t ==> Leaves(o, inFlight[u], since[u], backlogs[u], stopped, ends[u])
      invariant forall u :: 0 <= u < t ==> ends[u] <= returned
      invariant returned == stopped || returned in ends
    {
      var now := stopped;
      if inFlight[t].Some? {
        var _, _, elapsed := SendBatch(o, inFlight[t].value, limit);
        if since[t] + elapsed > now { now := since[t] + elapsed; }
      }
      var end := RunThread(o, inFlight[t], since[t], backlogs[t], now, stopped, limit);
      if end > returned { returned := end; }
      ends := ends + [end];
      assert ends[t] == end;
    }
  }
}
