/** Concurrent recorders: any number of threads run record_queue_wait() over the shared counters, one
    atomic access at a time, the minimum and maximum by compare-and-swap loops that may also fail
    spuriously. Whenever no call is under way the counters are true of all samples recorded. */
module Recorders {
  import opened Tally
  import opened Stats

  /** Where a thread is in record_queue_wait(). */
  datatype Pc =
    | Idle
    | Counted(us: nat)               // about to add to the sum
    | Summed(us: nat)                // about to load the minimum
    | MinSeen(us: nat, seen: nat)    // about to compare, and to swap the minimum if smaller
    | MinDone(us: nat)               // about to load the maximum
    | MaxSeen(us: nat, seen: nat)
    | MaxDone(us: nat)               // about to count the bucket

  datatype Shared = Shared(
    count: nat, sum: nat, min: nat, max: nat, buckets: seq<nat>,
    samples: seq<nat>)               // auxiliary: every sample whose call has begun

  datatype Recorder = Recorder(s: Shared, pcs: seq<Pc>)

  /** The bucket a sample belongs to: the first whose boundary is not below it, from i on. */
  function BucketFrom(bounds: seq<nat>, us: nat, i: nat): (b: nat)
    requires i <= |bounds| && !Within(bounds, i, us)
    ensures b <= |bounds| && InBucket(bounds, b)(us)
    decreases |bounds| - i
  {
    if i == |bounds| || us <= bounds[i] then i else BucketFrom(bounds, us, i + 1)
  }

  /** One atomic step of a thread; `us` is the sample a new call brings. */
  ghost function Access(bounds: seq<nat>, s: Shared, pc: Pc, us: nat, spurious: bool): (Shared, Pc)
    requires |s.buckets| == |bounds| + 1
  {
    match pc
    case Idle => (s.(count := s.count + 1, samples := s.samples + [us]), Counted(us))
    case Counted(x) => (s.(sum := s.sum + x), Summed(x))
    case Summed(x) => (s, MinSeen(x, s.min))
    case MinSeen(x, seen) =>
      if x >= seen then (s, MinDone(x))
      else if s.min == seen && !spurious then (s.(min := x), MinDone(x))
      else (s, MinSeen(x, s.min))
    case MinDone(x) => (s, MaxSeen(x, s.max))
    case MaxSeen(x, seen) =>
      if x <= seen then (s, MaxDone(x))
      else if s.max == seen && !spurious then (s.(max := x), MaxDone(x))
      else (s, MaxSeen(x, s.max))
    case MaxDone(x) =>
      var b := BucketFrom(bounds, x, 0);
      (s.(buckets := s.buckets[b := s.buckets[b] + 1]), Idle)
  }

  ghost predicate Begins(bounds: seq<nat>, r: Recorder)
  {
    && r.s == Shared(0, 0, UINT64_MAX, 0, r.s.buckets, []) && |r.s.buckets| == |bounds| + 1
    && (forall b :: 0 <= b < |r.s.buckets| ==> r.s.buckets[b] == 0)
    && (forall t :: 0 <= t < |r.pcs| ==> r.pcs[t].Idle?)
  }

  /** Thread t takes a step; a wait is at most what a signed 64-bit count of microseconds holds. */
  ghost predicate Moves(bounds: seq<nat>, r: Recorder, r': Recorder)
  {
    |r.s.buckets| == |bounds| + 1 &&
    exists t: nat, us: nat, spurious: bool :: t < |r.pcs| && us <= INT64_MAX &&
      (var (s', pc') := Access(bounds, r.s, r.pcs[t], us, spurious); r' == Recorder(s', r.pcs[t := pc']))
  }

  ghost predicate MovesAt(bounds: seq<nat>, run: seq<Recorder>, i: nat)
  {
    i + 1 < |run| && Moves(bounds, run[i], run[i + 1])
  }

  ghost predicate IsRecording(bounds: seq<nat>, run: seq<Recorder>)
  {
    run != [] && Begins(bounds, run[0]) && forall i: nat :: i + 1 < |run| ==> MovesAt(bounds, run, i)
  }

  // ---- what holds in between ----

  ghost function OwedSum(pc: Pc): nat
  {
    if pc.Counted? then pc.us else 0
  }

  ghost function OwedBucket(bounds: seq<nat>, b: nat): Pc -> bool
  {
    (pc: Pc) => !pc.Idle? && InBucket(bounds, b)(pc.us)
  }

  /** The call has not settled the minimum (maximum) yet. */
  ghost predicate OwesMin(pc: Pc) { pc.Counted? || pc.Summed? || pc.MinSeen? }
  ghost predicate OwesMax(pc: Pc) { !pc.Idle? && !pc.MaxDone? }

  ghost predicate SomeOwesMin(pcs: seq<Pc>, x: nat)
  {
    exists t :: 0 <= t < |pcs| && OwesMin(pcs[t]) && pcs[t].us == x
  }

  ghost predicate SomeOwesMax(pcs: seq<Pc>, x: nat)
  {
    exists t :: 0 <= t < |pcs| && OwesMax(pcs[t]) && pcs[t].us == x
  }

  ghost predicate PcFits(s: Shared, pc: Pc)
  {
    && (!pc.Idle? ==> pc.us in s.samples)
    && (pc.MinSeen? ==> s.min <= pc.seen) && (pc.MaxSeen? ==> pc.seen <= s.max)
  }

  ghost predicate LimitsInv(s: Shared, pcs: seq<Pc>)
  {
    && (forall t :: 0 <= t < |pcs| ==> PcFits(s, pcs[t]))
    && (forall i :: 0 <= i < |s.samples| ==> s.samples[i] <= INT64_MAX)
    && (s.min == UINT64_MAX || s.min in s.samples) && (s.max == 0 || s.max in s.samples)
    && (forall x :: x in s.samples ==> (s.min <= x || SomeOwesMin(pcs, x)) && (x <= s.max || SomeOwesMax(pcs, x)))
  }

  ghost predicate SumInv(s: Shared, pcs: seq<Pc>)
  {
    s.count == |s.samples| && s.sum + Sum(pcs, OwedSum) == Total(s.samples)
  }

  ghost predicate BucketInv(bounds: seq<nat>, s: Shared, pcs: seq<Pc>, b: nat)
  {
    |s.buckets| == |bounds| + 1
    && (b <= |bounds| ==> s.buckets[b] + Count(pcs, OwedBucket(bounds, b)) == Count(s.samples, InBucket(bounds, b)))
  }

  lemma SumKept(bounds: seq<nat>, s: Shared, pcs: seq<Pc>, t: nat, us: nat, spurious: bool)
    requires t < |pcs| && |s.buckets| == |bounds| + 1 && SumInv(s, pcs)
    ensures var (s', pc') := Access(bounds, s, pcs[t], us, spurious); SumInv(s', pcs[t := pc'])
  {
    var (s', pc') := Access(bounds, s, pcs[t], us, spurious);
    SumUpdate(pcs, t, pc', OwedSum);
    assert (s.samples + [us])[..|s.samples|] == s.samples;
  }

  lemma BucketKept(bounds: seq<nat>, s: Shared, pcs: seq<Pc>, t: nat, us: nat, spurious: bool, b: nat)
    requires Increasing(bounds) && t < |pcs| && BucketInv(bounds, s, pcs, b)
    ensures var (s', pc') := Access(bounds, s, pcs[t], us, spurious); BucketInv(bounds, s', pcs[t := pc'], b)
  {
    var (s', pc') := Access(bounds, s, pcs[t], us, spurious);
    CountUpdate(pcs, t, pc', OwedBucket(bounds, b));
    CountAppend(s.samples, us, InBucket(bounds, b));
    if pcs[t].MaxDone? && b <= |bounds| {
      var own := BucketFrom(bounds, pcs[t].us, 0);
      if InBucket(bounds, b)(pcs[t].us) { OneBucket(bounds, pcs[t].us, own, b); }
    }
  }

  /** A thread that settled its part leaves nobody else's claim behind. */
  lemma OwersMove(pcs: seq<Pc>, t: nat, pc: Pc, x: nat)
    requires t < |pcs| && (!pcs[t].Idle? && !pc.Idle? ==> pc.us == pcs[t].us)
    ensures SomeOwesMin(pcs, x) && !(OwesMin(pcs[t]) && pcs[t].us == x && !OwesMin(pc)) ==> SomeOwesMin(pcs[t := pc], x)
    ensures SomeOwesMax(pcs, x) && !(OwesMax(pcs[t]) && pcs[t].us == x && !OwesMax(pc)) ==> SomeOwesMax(pcs[t := pc], x)
    ensures OwesMin(pc) && pc.us == x ==> SomeOwesMin(pcs[t := pc], x)
    ensures OwesMax(pc) && pc.us == x ==> SomeOwesMax(pcs[t := pc], x)
  {
    var pcs' := pcs[t := pc];
    if u :| 0 <= u < |pcs| && OwesMin(pcs[u]) && pcs[u].us == x { assert u == t || pcs'[u] == pcs[u]; }
    if u :| 0 <= u < |pcs| && OwesMax(pcs[u]) && pcs[u].us == x { assert u == t || pcs'[u] == pcs[u]; }
    assert pcs'[t] == pc;
  }

  /** What a step does to minimum and maximum, from the stepping thread's own point of view. */
  lemma AccessLimits(bounds: seq<nat>, s: Shared, pc: Pc, us: nat, spurious: bool)
    requires |s.buckets| == |bounds| + 1 && PcFits(s, pc)
    ensures var (s', pc') := Access(bounds, s, pc, us, spurious);
            && PcFits(s', pc') && s'.min <= s.min && s.max <= s'.max
            && (OwesMin(pc) && !OwesMin(pc') ==> s'.min <= pc.us) && (OwesMax(pc) && !OwesMax(pc') ==> pc.us <= s'.max)
            && (!pc.Idle? && !pc'.Idle? ==> pc'.us == pc.us)
            && (s'.min != s.min ==> s'.min == pc.us && !pc.Idle?) && (s'.max != s.max ==> s'.max == pc.us && !pc.Idle?)
            && s'.samples == (if pc.Idle? then s.samples + [us] else s.samples) && (pc.Idle? ==> pc' == Counted(us))
  {
  }

  lemma LimitsKept(bounds: seq<nat>, s: Shared, pcs: seq<Pc>, t: nat, us: nat, spurious: bool)
    requires t < |pcs| && |s.buckets| == |bounds| + 1 && us <= INT64_MAX && LimitsInv(s, pcs)
    ensures var (s', pc') := Access(bounds, s, pcs[t], us, spurious); LimitsInv(s', pcs[t := pc'])
  {
    var (s', pc') := Access(bounds, s, pcs[t], us, spurious);
    AccessLimits(bounds, s, pcs[t], us, spurious);
    assert pcs[t].Idle? ==> s'.samples[|s.samples|] == us;
    forall x | x in s'.samples
      ensures (s'.min <= x || SomeOwesMin(pcs[t := pc'], x)) && (x <= s'.max || SomeOwesMax(pcs[t := pc'], x))
    {
      OwersMove(pcs, t, pc', x);
    }
  }

  ghost predicate RecordingInv(bounds: seq<nat>, r: Recorder, b: nat)
  {
    SumInv(r.s, r.pcs) && LimitsInv(r.s, r.pcs) && BucketInv(bounds, r.s, r.pcs, b)
  }

  lemma RecordingKept(bounds: seq<nat>, r: Recorder, r': Recorder, b: nat)
    requires Increasing(bounds) && Moves(bounds, r, r') && RecordingInv(bounds, r, b)
    ensures RecordingInv(bounds, r', b)
  {
    var t: nat, us: nat, spurious: bool :| t < |r.pcs| && us <= INT64_MAX &&
      (var (s', pc') := Access(bounds, r.s, r.pcs[t], us, spurious); r' == Recorder(s', r.pcs[t := pc']));
    SumKept(bounds, r.s, r.pcs, t, us, spurious);
    LimitsKept(bounds, r.s, r.pcs, t, us, spurious);
    BucketKept(bounds, r.s, r.pcs, t, us, spurious, b);
  }

  lemma {:induction false} SumZero(pcs: seq<Pc>)
    requires forall t :: 0 <= t < |pcs| ==> pcs[t].Idle?
    ensures Sum(pcs, OwedSum) == 0
  {
    if pcs != [] {
      assert forall t :: 0 <= t < |pcs| - 1 ==> pcs[1..][t] == pcs[t + 1];
      SumZero(pcs[1..]);
    }
  }

  lemma RecordingHolds(bounds: seq<nat>, run: seq<Recorder>, i: nat, b: nat)
    requires Increasing(bounds) && IsRecording(bounds, run) && i < |run|
    ensures RecordingInv(bounds, run[i], b)
  {
    var inv := (r: Recorder) => RecordingInv(bounds, r, b);
    SumZero(run[0].pcs);
    CountZero(run[0].pcs, OwedBucket(bounds, b));
    forall k: nat | k < i && inv(run[k]) ensures inv(run[k + 1]) {
      assert MovesAt(bounds, run, k);
      RecordingKept(bounds, run[k], run[k + 1], b);
    }
    Along(run, inv, 0, i);
  }

  /** Any number of concurrent recorders, any interleaving: whenever no call is under way, count, sum,
      minimum, maximum and every bucket are true of all samples recorded. */
  lemma QuiescentRecordsAreTrue(bounds: seq<nat>, run: seq<Recorder>, i: nat)
    requires Increasing(bounds) && IsRecording(bounds, run) && i < |run|
    requires forall t :: 0 <= t < |run[i].pcs| ==> run[i].pcs[t].Idle?
    ensures var s := run[i].s; Records(bounds, s.samples, s.count, s.sum, s.min, s.max, s.buckets)
  {
    var s, pcs := run[i].s, run[i].pcs;
    RecordingHolds(bounds, run, i, 0);
    SumZero(pcs);
    forall b: nat | b <= |bounds| ensures s.buckets[b] == Count(s.samples, InBucket(bounds, b)) {
      RecordingHolds(bounds, run, i, b);
      CountZero(pcs, OwedBucket(bounds, b));
    }
    if s.samples != [] { assert s.samples[0] in s.samples; }
  }
}
