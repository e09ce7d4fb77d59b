/** Exactly when the counting form of "no lost wakeup" holds: with two producers a late publication of
    an earlier position makes two items available at once while only one notify takes effect, and
    from every initial machine with two producers and a consumer some run gets there. */
module TwoProducers {
  import opened QueueTypes
  import opened Tally
  import opened Rings
  import opened RingThreads
  import opened LockFreeMachine
  import opened Parking
  import opened Executions

  /** Outside the queue, or asleep in it. */
  ghost predicate Resting<T>(l: Local<T>)
  {
    (l.ctl.Free? || l.ctl.Parked?) && l.op.NoOp?
  }

  ghost function Stalled<T>(x: T, p: nat): Local<T>
  {
    Local(Producer, PushFirst(x), PushWrite(x, p), NoRet)
  }

  ghost function Accepts<T>(): Local<T>
  {
    Local(Producer, Free, NoOp, Pushed(Accepted))
  }

  /** The two producers and the consumer the run is about. */
  datatype Cast = Cast(p: Tid, q: Tid, c: Tid)

  ghost predicate CastFits<T>(th: seq<Local<T>>, k: Cast)
  {
    && k.p < |th| && k.q < |th| && k.c < |th| && k.p != k.q && k.c != k.p && k.c != k.q
    && th[k.p].role.Producer? && th[k.q].role.Producer? && th[k.c].role.Consumer?
  }

  /** Everybody but the cast is as before. */
  ghost predicate OnlyCast<T>(th: seq<Local<T>>, th': seq<Local<T>>, k: Cast)
  {
    |th'| == |th| && forall u: Tid :: u < |th| && u != k.p && u != k.q && u != k.c ==> th'[u] == th[u]
  }

  /** The ring of an initial machine with positions 0 and 1 claimed, the given stamps and store, and
      the given positions unpublished. */
  ghost predicate BothClaimed<T>(r: Ring<T>, x: T, first: int, second: int, writers: set<nat>)
  {
    && Shaped(r) && r.enq == 2 && r.deq == 0 && r.log == [x, x] && r.writers == writers && r.readers == {}
    && r.emptied == {}
    && r.stamps[0] == first && r.stamps[1] == second
    && (0 !in writers ==> r.store[0] == x)
  }

  ghost predicate Quiet<T>(m0: Machine<T>, m: Machine<T>)
  {
    m.mutex.None? && !m.env.flag && m.env.policy == m0.env.policy && m.env.spins == m0.env.spins
    && m.announced == m0.announced
  }

  /** A consumer falls asleep on the untouched ring. */
  lemma Sleep<T(!new)>(m0: Machine<T>, m: Machine<T>, c: Tid, x: T) returns (m': Machine<T>)
    requires Init(m0) && Reaches(m0, m) && m.ring == m0.ring && Quiet(m0, m) && c < |m.th| && m.env.waiters >= 0
    requires m.th[c] == Local(Consumer, Free, NoOp, NoRet)
    ensures Reaches(m0, m') && Quiet(m0, m') && m'.ring == m.ring && m'.env.waiters == m.env.waiters + 1
    ensures m'.th == m.th[c := Local(Consumer, Parked, NoOp, NoRet)]
  {
    assert At(m.ring.stamps, 0) == 0;
    Park(m0, m, c, x);
    m' := m.(th := m.th[c := m.th[c].(ctl := Parked)], env := m.env.(waiters := m.env.waiters + 1));
  }

  /** Both producers claim a position and stall. */
  lemma BothClaim<T(!new)>(m0: Machine<T>, m: Machine<T>, k: Cast, x: T) returns (m': Machine<T>)
    requires Init(m0) && Reaches(m0, m) && m.ring == m0.ring && Quiet(m0, m) && CastFits(m.th, k)
    requires m.th[k.p] == m.th[k.q] == Local(Producer, Free, NoOp, NoRet)
    ensures Reaches(m0, m') && Quiet(m0, m') && m'.env == m.env
    ensures BothClaimed(m'.ring, x, 0, 1, {0, 1})
    ensures OnlyCast(m.th, m'.th, k) && m'.th[k.p] == Stalled(x, 0) && m'.th[k.q] == Stalled(x, 1)
    ensures m'.th[k.c] == m.th[k.c]
  {
    assert At(m.ring.stamps, 0) == 0 && At(m.ring.stamps, 1) == 1;
    Claim(m0, m, k.p, x);
    var m1 := m.(ring := ClaimPush(m.ring, k.p, x), th := m.th[k.p := Stalled(x, 0)]);
    Claim(m0, m1, k.q, x);
    m' := m1.(ring := ClaimPush(m1.ring, k.q, x), th := m1.th[k.q := Stalled(x, 1)]);
  }

  /** Producer q publishes and wakes the consumer, which finds the head unpublished and sleeps again. */
  lemma SecondFirst<T(!new)>(m0: Machine<T>, m: Machine<T>, k: Cast, x: T) returns (m': Machine<T>)
    requires Reaches(m0, m) && Quiet(m0, m) && CastFits(m.th, k) && m.env.waiters > 0
    requires BothClaimed(m.ring, x, 0, 1, {0, 1})
    requires m.th[k.q] == Stalled(x, 1) && m.th[k.c] == Local(Consumer, Parked, NoOp, NoRet)
    ensures Reaches(m0, m') && Quiet(m0, m') && m'.env == m.env
    ensures BothClaimed(m'.ring, x, 0, 2, {0})
    ensures OnlyCast(m.th, m'.th, k) && m'.th[k.p] == m.th[k.p] && m'.th[k.q] == Accepts() && m'.th[k.c] == m.th[k.c]
  {
    Finish(m0, m, k.q, x, 1, k.c);
    var woken := Local(Consumer, Woken(true), NoOp, NoRet);
    var m1 := m.(ring := Publish(WriteSlot(m.ring, 1, x), 1), th := m.th[k.c := woken][k.q := Accepts()]);
    assert At(m1.ring.stamps, 0) == 0;
    Repark(m0, m1, k.c, x);
    m' := m1.(th := m1.th[k.c := Local(Consumer, Parked, NoOp, NoRet)]);
  }

  /** Producer p publishes at last and wakes the consumer again, which takes one item and leaves. */
  lemma FirstLast<T(!new)>(m0: Machine<T>, m: Machine<T>, k: Cast, x: T) returns (m': Machine<T>)
    requires Reaches(m0, m) && Quiet(m0, m) && CastFits(m.th, k) && m.env.waiters > 0
    requires BothClaimed(m.ring, x, 0, 2, {0})
    requires m.th[k.p] == Stalled(x, 0) && m.th[k.c] == Local(Consumer, Parked, NoOp, NoRet)
    ensures Reaches(m0, m') && OnlyCast(m.th, m'.th, k)
    ensures m'.th[k.p] == Accepts() && m'.th[k.q] == m.th[k.q]
    ensures m'.th[k.c] == Local(Consumer, Free, NoOp, Popped(Some(x)))
    ensures m'.ring.enq == 2 && m'.ring.deq == 1 && m'.ring.writers == {}
  {
    Finish(m0, m, k.p, x, 0, k.c);
    var woken := Local(Consumer, Woken(true), NoOp, NoRet);
    var m1 := m.(ring := Publish(WriteSlot(m.ring, 0, x), 0), th := m.th[k.c := woken][k.p := Accepts()]);
    assert At(m1.ring.stamps, 0) == 1 && At(m1.ring.store, 0) == x;
    Taken(m0, m1, k.c, x);
    m' := m1.(ring := HeadPopped(m1.ring, k.c, x), th := m1.th[k.c := Local(Consumer, Free, NoOp, Popped(Some(x)))],
              env := m1.env.(waiters := m1.env.waiters - 1));
  }

  lemma NobodyMatches<T>(th: seq<Local<T>>, k: Cast, x: T)
    requires CastFits(th, k) && (th[k.p] == Stalled(x, 0) || Resting(th[k.p]))
    requires forall u: Tid :: u < |th| && u != k.p ==> Resting(th[u])
    ensures Count(th, Rechecking) == 0 && Count(th, NotifyPending) == 0
  {
    CountZero(th, Rechecking);
    CountZero(th, NotifyPending);
  }

  /** From every initial machine, whatever its capacity, policy, spin count and other threads, two
      producers and a consumer can get to where an item is published, the consumer asleep, nobody
      notified and no notify on its way. */
  lemma TwoProducersLoseAWakeup<T(!new)>(m0: Machine<T>, k: Cast) returns (m: Machine<T>)
    requires Init(m0) && CastFits(m0.th, k)
    ensures Reaches(m0, m) && !WakeupsCovered(m)
  {
    var x := m0.ring.store[0];
    Start(m0);
    var m1 := Sleep(m0, m0, k.c, x);
    var m2 := BothClaim(m0, m1, k, x);
    m := SecondFirst(m0, m2, k, x);
    NobodyMatches(m.th, k, x);
    assert m.th[k.c].ctl.Parked?;
  }

  /** With a second consumer d the run goes on to a state nobody will repair: an item sits published
      at the head of the queue, d sleeps, and everybody else has left. */
  lemma TwoProducersStrandAnItem<T(!new)>(m0: Machine<T>, k: Cast, d: Tid) returns (m: Machine<T>)
    requires Init(m0) && CastFits(m0.th, k) && d < |m0.th| && d != k.c && m0.th[d].role.Consumer?
    ensures Reaches(m0, m) && !WakeupsCovered(m)
    ensures |m.th| == |m0.th| && m.th[d].ctl.Parked? && forall u: Tid :: u < |m.th| && u != d ==> m.th[u].ctl.Free?
    ensures Published(m.ring, m.ring.deq)
  {
    var x := m0.ring.store[0];
    Start(m0);
    var m1 := Sleep(m0, m0, d, x);
    var m2 := Sleep(m0, m1, k.c, x);
    m := AllOut(m0, m2, k, x);
    NobodyMatches(m.th, k, x);
    assert m.th[d].ctl.Parked?;
  }

  lemma AllOut<T(!new)>(m0: Machine<T>, m: Machine<T>, k: Cast, x: T) returns (m': Machine<T>)
    requires Init(m0) && Reaches(m0, m) && m.ring == m0.ring && Quiet(m0, m) && CastFits(m.th, k) && m.env.waiters > 0
    requires m.th[k.p] == m.th[k.q] == Local(Producer, Free, NoOp, NoRet)
    requires m.th[k.c] == Local(Consumer, Parked, NoOp, NoRet)
    ensures Reaches(m0, m') && OnlyCast(m.th, m'.th, k)
    ensures m'.th[k.p] == m'.th[k.q] == Accepts() && m'.th[k.c] == Local(Consumer, Free, NoOp, Popped(Some(x)))
    ensures m'.ring.enq == 2 && m'.ring.deq == 1 && m'.ring.writers == {}
  {
    var m1 := BothClaim(m0, m, k, x);
    var m2 := SecondFirst(m0, m1, k, x);
    m' := FirstLast(m0, m2, k, x);
  }

  ghost predicate RunFrom<T(!new)>(run: seq<Machine<T>>, m0: Machine<T>, i: nat)
  {
    IsRun(run) && run[0] == m0 && i < |run|
  }

  lemma ReachedByRun<T(!new)>(m0: Machine<T>, m: Machine<T>) returns (run: seq<Machine<T>>)
    requires Init(m0) && Reaches(m0, m)
    ensures run != [] && RunFrom(run, m0, |run| - 1) && run[|run| - 1] == m
  {
    run :| Chain(run, m0, m);
  }

  lemma NobodyParks<T(!new)>(run: seq<Machine<T>>, i: nat)
    requires IsRun(run) && i < |run| && !SomeConsumer(run[0].th)
    ensures !SomeParked(run[i].th)
  {
    BaseReachable(run, i);
    forall u | 0 <= u < |run[i].th| ensures !run[i].th[u].ctl.Parked? {
      assert Typed(run[i].th[u]);
    }
  }

  /** The exact condition: from an initial machine every state of every run has its wakeups covered
      if and only if it does not have both two producers and a consumer. */
  lemma WakeupsCoveredIff<T(!new)>(m0: Machine<T>)
    requires Init(m0)
    ensures (forall run, i :: RunFrom(run, m0, i) ==> WakeupsCovered(run[i])) <==>
            !(TwoPush(m0.th) && SomeConsumer(m0.th))
  {
    if TwoPush(m0.th) && SomeConsumer(m0.th) {
      var p, q :| 0 <= p < q < |m0.th| && m0.th[p].role.Producer? && m0.th[q].role.Producer?;
      var c :| 0 <= c < |m0.th| && m0.th[c].role.Consumer?;
      var m := TwoProducersLoseAWakeup(m0, Cast(p, q, c));
      var run := ReachedByRun(m0, m);
      assert RunFrom(run, m0, |run| - 1);
    } else {
      forall run, i | RunFrom(run, m0, i) ensures WakeupsCovered(run[i]) {
        if TwoPush(m0.th) { NobodyParks(run, i); } else { NoLostWakeup(run, i); }
      }
    }
  }
}
