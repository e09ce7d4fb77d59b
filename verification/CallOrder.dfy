/** Real-time order: which position of the one global order a push() or pop() call stands for, and that
    a call that returned before another began stands for a lower one. Any number of producers and
    consumers, every policy, every run. */
module CallOrder {
  import opened QueueTypes
  import opened Tally
  import opened Rings
  import opened RingThreads
  import opened LockFreeMachine
  import opened Parking
  import opened Deliveries

  // ---- who won a position ----

  /** Of the positions from `from` on, thread t won p and no other. */
  ghost predicate OnlyClaim(winners: seq<Tid>, t: Tid, from: nat, p: nat)
  {
    from <= p < |winners| && winners[p] == t && forall q :: from <= q < |winners| && winners[q] == t ==> q == p
  }

  ghost predicate NoClaim(winners: seq<Tid>, t: Tid, from: nat)
  {
    from <= |winners| && forall q :: from <= q < |winners| ==> winners[q] != t
  }

  /** It won one of them, and the value claimed there is x. */
  ghost predicate ClaimOf<T>(winners: seq<Tid>, log: seq<T>, t: Tid, from: nat, x: T)
  {
    exists p: nat :: OnlyClaim(winners, t, from, p) && p < |log| && log[p] == x
  }

  /** Winning the next position. */
  lemma ClaimsNext<T>(winners: seq<Tid>, log: seq<T>, t: Tid, from: nat)
    requires NoClaim(winners, t, from)
    ensures OnlyClaim(winners + [t], t, from, |winners|)
    ensures |winners| < |log| ==> ClaimOf(winners + [t], log, t, from, log[|winners|])
  {
  }

  /** What others win does not matter. */
  lemma OthersClaim<T>(winners: seq<Tid>, winners': seq<Tid>, log: seq<T>, log': seq<T>, t: Tid, u: Tid, from: nat)
    requires (winners' == winners || winners' == winners + [u]) && u != t && |log| <= |log'| && log'[..|log|] == log
    ensures NoClaim(winners, t, from) ==> NoClaim(winners', t, from)
    ensures forall p: nat :: OnlyClaim(winners, t, from, p) ==> OnlyClaim(winners', t, from, p)
    ensures forall x :: ClaimOf(winners, log, t, from, x) ==> ClaimOf(winners', log', t, from, x)
  {
    forall p: nat | OnlyClaim(winners, t, from, p) && p < |log|
      ensures OnlyClaim(winners', t, from, p) && log'[p] == log[p]
    {
      assert log'[..|log|][p] == log'[p];
    }
  }

  lemma OpClaims<T>(r: Ring<T>, u: Tid, op: Op<T>, spurious: bool, left: T)
    requires Shaped(r)
    ensures var r' := OpStep(r, u, op, spurious, left).0;
            && (r'.pushedBy == r.pushedBy || r'.pushedBy == r.pushedBy + [u])
            && (r'.poppedBy == r.poppedBy || r'.poppedBy == r.poppedBy + [u])
            && |r.log| <= |r'.log| && r'.log[..|r.log|] == r.log
  {
  }

  // ---- push ----

  /** How far a push(v) call that began with `from` claimed positions has come. */
  ghost predicate Pushing<T>(r: Ring<T>, t: Tid, l: Local<T>, v: T, from: nat)
  {
    && (!l.ctl.Free? ==> Given(l) == Some(v))
    && if (if l.ctl.Free? then Succeeded(l.ret) else Won(l)) then ClaimOf(r.pushedBy, r.log, t, from, v)
       else NoClaim(r.pushedBy, t, from)
  }

  lemma PushingOp<T>(r: Ring<T>, t: Tid, l: Local<T>, spurious: bool, left: T, v: T, from: nat)
    requires Shaped(r) && Typed(l) && Running(l.op) && Honest(l) && Pushing(r, t, l, v, from)
    ensures var (r', op') := OpStep(r, t, l.op, spurious, left); Pushing(r', t, l.(op := op'), v, from)
  {
    OweOpLocal(r, t, l, spurious, left);
    if WinsPush(r, l.op, spurious) {
      ClaimsNext(r.pushedBy, r.log + [l.op.item], t, from);
    }
  }

  lemma PushingControl<T>(r: Ring<T>, t: Tid, l: Local<T>, env: Env, item: T, v: T, from: nat)
    requires Typed(l) && !Running(l.op) && Honest(l) && l.role.Producer? && !l.ctl.Free? && Pushing(r, t, l, v, from)
    ensures Pushing(r, t, Control(l, env, item).l, v, from)
  {
    OweControl(l, env, item);
  }

  lemma PushingMoves<T>(m: Machine<T>, t: Tid, c: Choice<T>, v: T, from: nat)
    requires t < |m.th| && PushInv(m) && m.th[t].role.Producer? && !m.th[t].ctl.Free?
    requires Pushing(m.ring, t, m.th[t], v, from)
    ensures var m' := Next(m, t, c); |m'.th| == |m.th| && Pushing(m'.ring, t, m'.th[t], v, from)
  {
    var l := m.th[t];
    assert Typed(l) && Honest(l);
    NextRing(m, t, c);
    if Running(l.op) {
      PushingOp(m.ring, t, l, c.spurious, c.left, v, from);
    } else {
      PushingControl(m.ring, t, l, m.env, c.item, v, from);
    }
  }

  lemma PushingWaits<T>(m: Machine<T>, u: Tid, c: Choice<T>, t: Tid, v: T, from: nat)
    requires u < |m.th| && t < |m.th| && u != t && PushInv(m) && m.th[t].role.Producer?
    requires Pushing(m.ring, t, m.th[t], v, from)
    ensures var m' := Next(m, u, c); |m'.th| == |m.th| && Pushing(m'.ring, t, m'.th[t], v, from)
  {
    var r' := Next(m, u, c).ring;
    assert Typed(m.th[t]);
    OthersRest(m, u, c);
    NextRing(m, u, c);
    OpClaims(m.ring, u, m.th[u].op, c.spurious, c.left);
    OthersClaim(m.ring.pushedBy, r'.pushedBy, m.ring.log, r'.log, t, u, from);
  }

  lemma PushingStep<T(!new)>(m: Machine<T>, m': Machine<T>, t: Tid, v: T, from: nat)
    requires IsStep(m, m') && t < |m.th| && PushInv(m) && m.th[t].role.Producer? && !m.th[t].ctl.Free?
    requires Pushing(m.ring, t, m.th[t], v, from)
    ensures |m'.th| == |m.th| && m'.th[t].role == m.th[t].role && Pushing(m'.ring, t, m'.th[t], v, from)
  {
    var u, c :| 0 <= u < |m.th| && m' == Next(m, u, c);
    RolesKept(m, u, c);
    if u == t { PushingMoves(m, t, c, v, from); } else { PushingWaits(m, u, c, t, v, from); }
  }

  /** Only a thread's own step begins its call. */
  lemma OnlyItself<T>(m: Machine<T>, u: Tid, c: Choice<T>, t: Tid)
    requires u < |m.th| && t < |m.th| && BaseInv(m) && m.th[t].ctl.Free?
    ensures m.th[t].op.NoOp? && |Next(m, u, c).th| == |m.th|
    ensures !Next(m, u, c).th[t].ctl.Free? ==> u == t && Next(m, u, c).th[t] == Control(m.th[t], m.env, c.item).l
  {
    assert Typed(m.th[t]);
    OthersRest(m, u, c);
  }

  lemma StartsPush<T>(l: Local<T>, env: Env, item: T, v: T)
    requires l.ctl.Free? && l.op.NoOp? && Control(l, env, item).l.ctl == PushFirst(v)
    ensures l.role.Producer? && Control(l, env, item).l == l.(ctl := PushFirst(v), op := PushLoad(v))
  {
  }

  /** A call begins with no claim of its own. */
  lemma PushBegins<T(!new)>(m: Machine<T>, m': Machine<T>, t: Tid, v: T)
    requires IsStep(m, m') && BaseInv(m) && t < |m.th| && t < |m'.th|
    requires m.th[t].ctl.Free? && m'.th[t].ctl == PushFirst(v)
    ensures m'.th[t].role.Producer? && Pushing(m'.ring, t, m'.th[t], v, m.ring.enq)
  {
    var u, c :| 0 <= u < |m.th| && m' == Next(m, u, c);
    OnlyItself(m, u, c, t);
    StartsPush(m.th[t], m.env, c.item, v);
    NextRing(m, t, c);
    NothingYet(m.ring, t, m'.th[t], v);
  }

  lemma NothingYet<T>(r: Ring<T>, t: Tid, l: Local<T>, v: T)
    requires Shaped(r) && l.ctl == PushFirst(v) && l.op == PushLoad(v)
    ensures Pushing(r, t, l, v, r.enq)
  {
  }

  /** Every push(v) call of every run: if it reported success it won exactly one position while it
      lasted, and the value claimed there is v; if it was rejected it won none. */
  lemma PushCallClaims<T(!new)>(run: seq<Machine<T>>, t: Tid, v: T, i: nat, j: nat)
    requires IsRun(run) && PushCall(run, t, v, i, j)
    ensures var r, from := run[j].ring, run[i].ring.enq;
            if Succeeded(run[j].th[t].ret) then ClaimOf(r.pushedBy, r.log, t, from, v) else NoClaim(r.pushedBy, t, from)
  {
    var from := run[i].ring.enq;
    BaseReachable(run, i);
    assert StepAt(run, i);
    PushBegins(run[i], run[i + 1], t, v);
    var inv := (m: Machine<T>) => t < |m.th| && m.th[t].role.Producer? && Pushing(m.ring, t, m.th[t], v, from);
    forall n: nat | i + 1 <= n < j && inv(run[n]) ensures inv(run[n + 1]) {
      assert StepAt(run, n);
      PushReachable(run, n, v);
      PushingStep(run[n], run[n + 1], t, v, from);
    }
    Along(run, inv, i + 1, j);
  }

  // ---- pop ----

  /** How far a pop() call that began with `from` positions passed has come. */
  ghost predicate Popping<T>(r: Ring<T>, t: Tid, l: Local<T>, from: nat)
  {
    if l.op.PopTake? || l.op.PopRelease? then OnlyClaim(r.poppedBy, t, from, l.op.pos)
    else
      var got := if l.ctl.Free? then (if l.ret.Popped? then l.ret.got else None) else Got(l);
      if got.Some? then ClaimOf(r.poppedBy, r.log, t, from, got.value) else NoClaim(r.poppedBy, t, from)
  }

  lemma PoppingOp<T>(r: Ring<T>, t: Tid, l: Local<T>, spurious: bool, left: T, from: nat)
    requires Shaped(r) && OpInv(r, t, l.op) && Typed(l) && Running(l.op) && l.role.Consumer? && Popping(r, t, l, from)
    ensures var (r', op') := OpStep(r, t, l.op, spurious, left); Popping(r', t, l.(op := op'), from)
  {
    if WinsPop(r, l.op, spurious) {
      ClaimsNext(r.poppedBy, r.log, t, from);
    } else if l.op.PopRelease? {
      assert OnlyClaim(r.poppedBy, t, from, l.op.pos) && r.log[l.op.pos] == l.op.value;
    }
  }

  lemma PoppingControl<T>(r: Ring<T>, t: Tid, l: Local<T>, env: Env, item: T, from: nat)
    requires Typed(l) && !Running(l.op) && l.role.Consumer? && !l.ctl.Free? && Popping(r, t, l, from)
    ensures Popping(r, t, Control(l, env, item).l, from)
  {
    CarryFacts(l, env, item);
    ControlOp(l, env, item);
  }

  lemma PoppingMoves<T>(m: Machine<T>, t: Tid, c: Choice<T>, from: nat)
    requires t < |m.th| && BaseInv(m) && m.th[t].role.Consumer? && !m.th[t].ctl.Free?
    requires Popping(m.ring, t, m.th[t], from)
    ensures var m' := Next(m, t, c); |m'.th| == |m.th| && Popping(m'.ring, t, m'.th[t], from)
  {
    var l := m.th[t];
    assert Typed(l) && OpInv(m.ring, t, l.op);
    NextRing(m, t, c);
    if Running(l.op) {
      PoppingOp(m.ring, t, l, c.spurious, c.left, from);
    } else {
      PoppingControl(m.ring, t, l, m.env, c.item, from);
    }
  }

  lemma PoppingWaits<T>(m: Machine<T>, u: Tid, c: Choice<T>, t: Tid, from: nat)
    requires u < |m.th| && t < |m.th| && u != t && BaseInv(m) && m.th[t].role.Consumer?
    requires Popping(m.ring, t, m.th[t], from)
    ensures var m' := Next(m, u, c); |m'.th| == |m.th| && Popping(m'.ring, t, m'.th[t], from)
  {
    var m' := Next(m, u, c);
    assert Typed(m.th[t]);
    OthersRest(m, u, c);
    NextRing(m, u, c);
    OpClaims(m.ring, u, m.th[u].op, c.spurious, c.left);
    PoppingRests(m.ring, m'.ring, t, u, m.th[t], m'.th[t], from);
  }

  lemma PoppingRests<T>(r: Ring<T>, r': Ring<T>, t: Tid, u: Tid, l: Local<T>, l': Local<T>, from: nat)
    requires l' == l || (l.ctl.Parked? && l.op.NoOp? && l' == l.(ctl := Woken(true)))
    requires (r'.poppedBy == r.poppedBy || r'.poppedBy == r.poppedBy + [u]) && u != t
    requires |r.log| <= |r'.log| && r'.log[..|r.log|] == r.log && Popping(r, t, l, from)
    ensures Popping(r', t, l', from)
  {
    OthersClaim(r.poppedBy, r'.poppedBy, r.log, r'.log, t, u, from);
    assert Got(l') == Got(l);
  }

  lemma PoppingStep<T(!new)>(m: Machine<T>, m': Machine<T>, t: Tid, from: nat)
    requires IsStep(m, m') && t < |m.th| && BaseInv(m) && m.th[t].role.Consumer? && !m.th[t].ctl.Free?
    requires Popping(m.ring, t, m.th[t], from)
    ensures |m'.th| == |m.th| && m'.th[t].role == m.th[t].role && Popping(m'.ring, t, m'.th[t], from)
  {
    var u, c :| 0 <= u < |m.th| && m' == Next(m, u, c);
    RolesKept(m, u, c);
    if u == t { PoppingMoves(m, t, c, from); } else { PoppingWaits(m, u, c, t, from); }
  }

  lemma PopBegins<T(!new)>(m: Machine<T>, m': Machine<T>, t: Tid)
    requires IsStep(m, m') && BaseInv(m) && t < |m.th| && t < |m'.th|
    requires m.th[t].role.Consumer? && m.th[t].ctl.Free? && !m'.th[t].ctl.Free?
    ensures m'.th[t].role.Consumer? && Popping(m'.ring, t, m'.th[t], m.ring.deq)
  {
    var u, c :| 0 <= u < |m.th| && m' == Next(m, u, c);
    OnlyItself(m, u, c, t);
    StartsPop(m.th[t], m.env, c.item);
    NextRing(m, t, c);
  }

  lemma StartsPop<T>(l: Local<T>, env: Env, item: T)
    requires l.role.Consumer? && l.ctl.Free? && l.op.NoOp?
    ensures var l' := Control(l, env, item).l;
            l'.role.Consumer? && !l'.ctl.Free? && (l'.op.NoOp? || l'.op.PopLoad?) && Got(l').None?
  {
  }

  /** Every pop() call of every run: if it returned x it won exactly one position while it lasted, and
      the value claimed there is x; if it returned nothing it won none. */
  lemma PopCallClaims<T(!new)>(run: seq<Machine<T>>, t: Tid, i: nat, j: nat)
    requires IsRun(run) && PopCall(run, t, i, j)
    ensures var r, from, ret := run[j].ring, run[i].ring.deq, run[j].th[t].ret;
            if ret.Popped? && ret.got.Some? then ClaimOf(r.poppedBy, r.log, t, from, ret.got.value)
            else NoClaim(r.poppedBy, t, from)
  {
    var from := run[i].ring.deq;
    BaseReachable(run, i);
    assert StepAt(run, i);
    PopBegins(run[i], run[i + 1], t);
    var inv := (m: Machine<T>) => t < |m.th| && m.th[t].role.Consumer? && Popping(m.ring, t, m.th[t], from);
    forall n: nat | i + 1 <= n < j && inv(run[n]) ensures inv(run[n + 1]) {
      assert StepAt(run, n);
      BaseReachable(run, n);
      PoppingStep(run[n], run[n + 1], t, from);
    }
    Along(run, inv, i + 1, j);
    BaseReachable(run, j);
    assert Typed(run[j].th[t]);
  }

  // ---- order ----

  /** The call won position p, no other position while it lasted, and claimed v there. */
  ghost predicate PushedAt<T>(run: seq<Machine<T>>, t: Tid, v: T, i: nat, j: nat, p: nat)
  {
    && PushCall(run, t, v, i, j) && OnlyClaim(run[j].ring.pushedBy, t, run[i].ring.enq, p)
    && p < |run[j].ring.log| && run[j].ring.log[p] == v
  }

  /** The call returned x, the value claimed at position p, and won no other position while it lasted. */
  ghost predicate PoppedAt<T>(run: seq<Machine<T>>, t: Tid, x: T, i: nat, j: nat, p: nat)
  {
    && PopCall(run, t, i, j) && run[j].th[t].ret == Popped(Some(x))
    && OnlyClaim(run[j].ring.poppedBy, t, run[i].ring.deq, p)
    && p < |run[j].ring.log| && run[j].ring.log[p] == x
  }

  /** Every successful push() call and every pop() call that returned an item has its one position. */
  lemma CallsHavePositions<T(!new)>(run: seq<Machine<T>>, t: Tid, v: T, i: nat, j: nat)
    requires IsRun(run)
    ensures PushCall(run, t, v, i, j) ==>
            (Succeeded(run[j].th[t].ret) <==> exists p: nat :: PushedAt(run, t, v, i, j, p))
    ensures PopCall(run, t, i, j) ==>
            (run[j].th[t].ret == Popped(Some(v)) <==> exists p: nat :: PoppedAt(run, t, v, i, j, p))
  {
    if PushCall(run, t, v, i, j) {
      PushCallClaims(run, t, v, i, j);
      if Succeeded(run[j].th[t].ret) {
        var p: nat :|
          OnlyClaim(run[j].ring.pushedBy, t, run[i].ring.enq, p) && p < |run[j].ring.log| && run[j].ring.log[p] == v;
        assert PushedAt(run, t, v, i, j, p);
      }
    }
    if PopCall(run, t, i, j) && run[j].th[t].ret == Popped(Some(v)) {
      PopCallClaims(run, t, i, j);
      var p: nat :|
        OnlyClaim(run[j].ring.poppedBy, t, run[i].ring.deq, p) && p < |run[j].ring.log| && run[j].ring.log[p] == v;
      assert PoppedAt(run, t, v, i, j, p);
    }
  }

  /** Push order: the push that returned before the other began has the lower position. */
  lemma PushesInCallOrder<T(!new)>(run: seq<Machine<T>>, t: Tid, v: T, i: nat, j: nat, p: nat,
                                   u: Tid, w: T, i': nat, j': nat, p': nat)
    requires IsRun(run) && PushedAt(run, t, v, i, j, p) && PushedAt(run, u, w, i', j', p') && j <= i'
    ensures p < p'
  {
    Reachable(run, j);
    HistoryGrows(run, j, i');
  }

  /** Pop order: the pop that returned before the other began took the lower position. */
  lemma PopsInCallOrder<T(!new)>(run: seq<Machine<T>>, t: Tid, x: T, i: nat, j: nat, p: nat,
                                 u: Tid, y: T, i': nat, j': nat, p': nat)
    requires IsRun(run) && PoppedAt(run, t, x, i, j, p) && PoppedAt(run, u, y, i', j', p') && j <= i'
    ensures p < p'
  {
    Reachable(run, j);
    HistoryGrows(run, j, i');
  }

  /** The entry of a position never changes. */
  lemma SameEntry<T(!new)>(run: seq<Machine<T>>, a: nat, b: nat, p: nat)
    requires IsRun(run) && a < |run| && b < |run| && p < |run[a].ring.log| && p < |run[b].ring.log|
    ensures run[a].ring.log[p] == run[b].ring.log[p]
  {
    HistoryGrows(run, if a <= b then a else b, if a <= b then b else a);
  }

  /** First in, first out, between calls: push(v) returned before push(w) began, one pop took the first
      item's position and another the second's. Then they returned v and w, and the second item's pop did
      not return before the first item's began. Equal values and any number of threads included. */
  lemma FirstInFirstOut<T(!new)>(run: seq<Machine<T>>, t: Tid, v: T, i: nat, j: nat, p: nat,
                                 u: Tid, w: T, i': nat, j': nat, p': nat,
                                 c: Tid, x: T, a: nat, b: nat, d: Tid, y: T, a': nat, b': nat)
    requires IsRun(run) && PushedAt(run, t, v, i, j, p) && PushedAt(run, u, w, i', j', p') && j <= i'
    requires PoppedAt(run, c, x, a, b, p) && PoppedAt(run, d, y, a', b', p')
    ensures x == v && y == w && a < b'
  {
    SameEntry(run, j, b, p);
    SameEntry(run, j', b', p');
    PushesInCallOrder(run, t, v, i, j, p, u, w, i', j', p');
    if b' <= a { PopsInCallOrder(run, d, y, a', b', p', c, x, a, b, p); }
  }
}
