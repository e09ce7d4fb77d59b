/** The latency histogram: samples counted in fixed buckets, and percentiles read off the running
    total. Members describe a quiescent recorder: no sample is half recorded. */
module Stats {
  import opened Tally

  const BOUNDARIES: seq<nat> := [
    100, 250, 500, 1000, 2500, 5000, 10000, 25000, 50000,
    100000, 250000, 500000, 1000000, 2500000, 5000000, 10000000]

  const BUCKETS: nat := 17
  const UINT64_MAX: nat := 0xFFFF_FFFF_FFFF_FFFF
  const INT64_MAX: nat := 0x7FFF_FFFF_FFFF_FFFF

  ghost predicate Increasing(bounds: seq<nat>)
  {
    |bounds| >= 1 && forall i, j :: 0 <= i < j < |bounds| ==> bounds[i] < bounds[j]
  }

  /** The sample lies in one of the first i buckets; the last bucket takes everything. */
  predicate Within(bounds: seq<nat>, i: nat, x: nat)
  {
    i > 0 && (i > |bounds| || x <= bounds[i - 1])
  }

  function UpTo(bounds: seq<nat>, i: nat): nat -> bool
  {
    (x: nat) => Within(bounds, i, x)
  }

  /** The sample lies in bucket i: above every earlier boundary and, but for the overflow bucket,
      not above its own. */
  function InBucket(bounds: seq<nat>, i: nat): nat -> bool
  {
    (x: nat) => !Within(bounds, i, x) && Within(bounds, i + 1, x)
  }

  lemma WithinGrows(bounds: seq<nat>, x: nat, i: nat, j: nat)
    requires Increasing(bounds)
    ensures i <= j && Within(bounds, i, x) ==> Within(bounds, j, x)
  {
  }

  /** Buckets do not overlap. */
  lemma OneBucket(bounds: seq<nat>, x: nat, i: nat, j: nat)
    requires Increasing(bounds) && InBucket(bounds, i)(x) && InBucket(bounds, j)(x)
    ensures i == j
  {
    WithinGrows(bounds, x, i + 1, j);
    WithinGrows(bounds, x, j + 1, i);
  }

  // ---- counts ----

  ghost predicate Tallied(bounds: seq<nat>, buckets: seq<nat>, samples: seq<nat>)
  {
    |buckets| == |bounds| + 1 && forall b: nat :: b <= |bounds| ==> buckets[b] == Count(samples, InBucket(bounds, b))
  }

  function Total(s: seq<nat>): nat
  {
    if s == [] then 0 else s[|s| - 1] + Total(s[..|s| - 1])
  }

  /** Disjoint predicates add up. */
  lemma {:induction false} CountSplit(s: seq<nat>, p: nat -> bool, q: nat -> bool, r: nat -> bool)
    requires forall x :: One(r(x)) == One(p(x)) + One(q(x))
    ensures Count(s, r) == Count(s, p) + Count(s, q)
  {
    if s != [] {
      CountSplit(s[1..], p, q, r);
    }
  }

  lemma NextTotal(bounds: seq<nat>, samples: seq<nat>, i: nat)
    requires Increasing(bounds)
    ensures Count(samples, UpTo(bounds, i + 1)) == Count(samples, UpTo(bounds, i)) + Count(samples, InBucket(bounds, i))
  {
    forall x: nat ensures One(UpTo(bounds, i + 1)(x)) == One(UpTo(bounds, i)(x)) + One(InBucket(bounds, i)(x)) {
      WithinGrows(bounds, x, i, i + 1);
    }
    CountSplit(samples, UpTo(bounds, i), InBucket(bounds, i), UpTo(bounds, i + 1));
  }

  /** The first i buckets hold the samples up to boundary i - 1. */
  lemma {:induction false} RunningTotal(bounds: seq<nat>, buckets: seq<nat>, samples: seq<nat>, i: nat)
    requires Increasing(bounds)
    requires Tallied(bounds, buckets, samples) && i <= |bounds| + 1
    ensures Total(buckets[..i]) == Count(samples, UpTo(bounds, i))
  {
    if i == 0 {
      CountZero(samples, UpTo(bounds, 0));
    } else {
      RunningTotal(bounds, buckets, samples, i - 1);
      NextTotal(bounds, samples, i - 1);
      assert buckets[..i][..i - 1] == buckets[..i - 1];
    }
  }

  lemma {:induction false} CountAll(s: seq<nat>, p: nat -> bool)
    requires forall x :: p(x)
    ensures Count(s, p) == |s|
  {
    if s != [] {
      CountAll(s[1..], p);
    }
  }

  /** The bucket totals sum to the number of samples. */
  lemma BucketsSumToCount(bounds: seq<nat>, buckets: seq<nat>, samples: seq<nat>)
    requires Increasing(bounds)
    requires Tallied(bounds, buckets, samples)
    ensures Total(buckets) == |samples|
  {
    RunningTotal(bounds, buckets, samples, |bounds| + 1);
    assert buckets[..|bounds| + 1] == buckets;
    CountAll(samples, UpTo(bounds, |bounds| + 1));
  }

  // ---- sorted samples ----

  predicate Nondecreasing(s: seq<nat>)
  {
    forall i, j :: 0 <= i < j < |s| ==> s[i] <= s[j]
  }

  function InsertInto(x: nat, s: seq<nat>): (t: seq<nat>)
    ensures multiset(t) == multiset{x} + multiset(s)
  {
    if s == [] || x <= s[0] then [x] + s
    else
      assert s == [s[0]] + s[1..];
      [s[0]] + InsertInto(x, s[1..])
  }

  function Sorted(s: seq<nat>): (t: seq<nat>)
    ensures multiset(t) == multiset(s) && |t| == |s|
  {
    if s == [] then []
    else
      assert s == [s[0]] + s[1..];
      var t := InsertInto(s[0], Sorted(s[1..]));
      assert |multiset(t)| == |t| && |multiset(s)| == |s|;
      t
  }

  lemma {:induction false} InsertKeepsOrder(x: nat, s: seq<nat>)
    requires Nondecreasing(s)
    ensures Nondecreasing(InsertInto(x, s))
  {
    if s != [] && x > s[0] {
      InsertKeepsOrder(x, s[1..]);
      var rest := InsertInto(x, s[1..]);
      forall j | 0 <= j < |rest| ensures s[0] <= rest[j] {
        assert rest[j] in multiset(rest);
      }
    }
  }

  lemma {:induction false} SortedIsSorted(s: seq<nat>)
    ensures Nondecreasing(Sorted(s))
  {
    if s != [] {
      SortedIsSorted(s[1..]);
      InsertKeepsOrder(s[0], Sorted(s[1..]));
    }
  }

  lemma {:induction false} CountInsert(x: nat, s: seq<nat>, p: nat -> bool)
    ensures Count(InsertInto(x, s), p) == One(p(x)) + Count(s, p)
  {
    var t := InsertInto(x, s);
    if s == [] || x <= s[0] {
      assert t[1..] == s;
    } else {
      assert t[1..] == InsertInto(x, s[1..]);
      CountInsert(x, s[1..], p);
    }
  }

  lemma {:induction false} CountSorted(s: seq<nat>, p: nat -> bool)
    ensures Count(Sorted(s), p) == Count(s, p)
  {
    if s != [] {
      CountSorted(s[1..], p);
      CountInsert(s[0], Sorted(s[1..]), p);
    }
  }

  /** In sorted order the samples of the first i buckets come first. */
  lemma {:induction false} RankByCount(bounds: seq<nat>, s: seq<nat>, i: nat, rank: nat)
    requires Nondecreasing(s) && rank < |s|
    ensures UpTo(bounds, i)(s[rank]) <==> rank < Count(s, UpTo(bounds, i))
  {
    if !UpTo(bounds, i)(s[0]) {
      forall k | 0 <= k < |s| ensures !UpTo(bounds, i)(s[k]) {
        assert k == 0 || s[0] <= s[k];
      }
      CountZero(s, UpTo(bounds, i));
    } else if rank > 0 {
      RankByCount(bounds, s[1..], i, rank - 1);
    }
  }

  // ---- percentiles ----

  /** What a sample is reported as: the least boundary at or above it, or the last boundary. */
  ghost predicate Reported(bounds: seq<nat>, us: nat, boundary: nat)
    requires bounds != []
  {
    if us > bounds[|bounds| - 1] then boundary == bounds[|bounds| - 1]
    else us <= boundary && boundary in bounds && forall b :: b in bounds && us <= b ==> boundary <= b
  }

  lemma BucketReports(bounds: seq<nat>, us: nat, b: nat)
    requires Increasing(bounds)
    requires b <= |bounds| && InBucket(bounds, b)(us)
    ensures Reported(bounds, us, if b < |bounds| then bounds[b] else bounds[|bounds| - 1])
  {
    forall k | 0 <= k < |bounds| && us <= bounds[k] ensures b <= k {
      WithinGrows(bounds, us, k + 1, b);
    }
  }

  /** The rank a fraction num / den asks for, rounded down. */
  function Rank(num: nat, den: nat, count: nat): nat
    requires den > 0
  {
    num * count / den
  }

  /** k is the fraction num / den of the count, rounded down. */
  ghost predicate IsRank(num: nat, den: nat, count: nat, k: nat)
  {
    k * den <= num * count < (k + 1) * den
  }

  /** There is exactly one such rank, and it is the one computed. */
  lemma RankIsFloor(num: nat, den: nat, count: nat, k: nat)
    requires den > 0
    ensures IsRank(num, den, count, k) <==> k == Rank(num, den, count)
  {
    var x, q := num * count, num * count / den;
    assert x == den * q + x % den;
    Next(q, den);
    if k < q { Grows(den, k + 1, q); Next(k, den); }
    if k > q { Grows(den, q + 1, k); Next(q, den); }
  }

  lemma Next(q: nat, d: nat)
    ensures (q + 1) * d == d * q + d && q * d == d * q && d * (q + 1) == d * q + d
  {
  }

  /** Counting a sample in its bucket keeps every bucket's count right. */
  lemma TallyOne(bounds: seq<nat>, buckets: seq<nat>, samples: seq<nat>, us: nat, b: nat)
    requires Increasing(bounds) && Tallied(bounds, buckets, samples)
    requires b <= |bounds| && InBucket(bounds, b)(us)
    ensures Tallied(bounds, buckets[b := buckets[b] + 1], samples + [us])
  {
    forall j: nat | j <= |bounds|
      ensures buckets[b := buckets[b] + 1][j] == Count(samples + [us], InBucket(bounds, j))
    {
      CountAppend(samples, us, InBucket(bounds, j));
      if InBucket(bounds, j)(us) { OneBucket(bounds, us, j, b); }
    }
  }

  lemma BoundariesIncrease()
    ensures Increasing(BOUNDARIES) && |BOUNDARIES| + 1 == BUCKETS
  {
  }

  /** The one bucket a sample lies in. */
  method BucketFor(bounds: seq<nat>, us: nat) returns (b: nat)
    requires Increasing(bounds)
    ensures b <= |bounds| && InBucket(bounds, b)(us)
    ensures forall j: nat {:trigger InBucket(bounds, j)} :: InBucket(bounds, j)(us) ==> j == b
  {
    b := 0;
    while b < |bounds|
      invariant b <= |bounds| && !Within(bounds, b, us)
    {
      if us <= bounds[b] { break; }
      b := b + 1;
    }
    forall j: nat | InBucket(bounds, j)(us) ensures j == b {
      OneBucket(bounds, us, j, b);
    }
  }

  /** The least and the greatest sample, or the initial values while there is none. */
  ghost predicate Extremes(samples: seq<nat>, min: nat, max: nat)
  {
    if samples == [] then min == UINT64_MAX && max == 0
    else min in samples && max in samples && forall x :: x in samples ==> min <= x <= max
  }

  lemma ExtremesKept(samples: seq<nat>, min: nat, max: nat, us: nat)
    requires Extremes(samples, min, max) && us <= INT64_MAX
    ensures Extremes(samples + [us], if us < min then us else min, if us > max then us else max)
  {
    assert (samples + [us])[|samples|] == us;
  }

  /** The fields say the truth about the samples. */
  ghost predicate Records(bounds: seq<nat>, samples: seq<nat>, count: nat, sum: nat, min: nat, max: nat,
                          buckets: seq<nat>)
  {
    && count == |samples| && sum == Total(samples)
    && Tallied(bounds, buckets, samples)
    && Extremes(samples, min, max)
  }

  lemma RecordsOneMore(bounds: seq<nat>, samples: seq<nat>, count: nat, sum: nat, min: nat, max: nat, buckets: seq<nat>,
                       us: nat, b: nat)
    requires Increasing(bounds) && Records(bounds, samples, count, sum, min, max, buckets) && us <= INT64_MAX
    requires b <= |bounds| && InBucket(bounds, b)(us)
    ensures Records(bounds, samples + [us], count + 1, sum + us, if us < min then us else min,
                    if us > max then us else max, buckets[b := buckets[b] + 1])
  {
    ExtremesKept(samples, min, max, us);
    TallyOne(bounds, buckets, samples, us, b);
    assert (samples + [us])[..|samples|] == samples;
  }

  class Histogram {
    var count: nat
    var sum: nat
    var min: nat
    var max: nat
    const bounds: seq<nat>
    const buckets: array<nat>
    ghost var samples: seq<nat>

    ghost predicate Valid()
      reads this, buckets
    {
      Increasing(bounds) && Records(bounds, samples, count, sum, min, max, buckets[..])
    }

    constructor ()
      ensures Valid() && fresh(buckets) && samples == [] && bounds == BOUNDARIES && buckets.Length == BUCKETS
    {
      BoundariesIncrease();
      count, sum, min, max, samples, bounds := 0, 0, UINT64_MAX, 0, [], BOUNDARIES;
      buckets := new nat[BUCKETS](_ => 0);
    }

    method Increment(b: nat)
      requires b < buckets.Length
      modifies buckets
      ensures buckets[..] == old(buckets[..])[b := old(buckets[b]) + 1]
    {
      buckets[b] := buckets[b] + 1;
    }

    /** Records one wait in microseconds; a negative one counts as zero. */
    method RecordQueueWait(rawUs: int)
      requires Valid() && rawUs <= INT64_MAX
      modifies this, buckets
      ensures Valid() && samples == old(samples) + [if rawUs < 0 then 0 else rawUs]
    {
      var us: nat := if rawUs < 0 then 0 else rawUs;
      var b := BucketFor(bounds, us);
      ghost var was := buckets[..];
      RecordsOneMore(bounds, samples, count, sum, min, max, was, us, b);
      count := count + 1;
      sum := sum + us;
      if us < min { min := us; }
      if us > max { max := us; }
      Increment(b);
      samples := samples + [us];
    }

    /** The first bucket at which the running total exceeds a rank, if there is one. */
    method Crossing(target: nat) returns (i: nat)
      ensures i <= buckets.Length && Total(buckets[..i]) <= target
      ensures i < buckets.Length ==> target < Total(buckets[..i + 1])
    {
      var cumulative := 0;
      i := 0;
      while i < buckets.Length
        invariant i <= buckets.Length && cumulative == Total(buckets[..i]) && cumulative <= target
      {
        assert buckets[..i + 1][..i] == buckets[..i];
        cumulative := cumulative + buckets[i];
        if cumulative > target { return; }
        i := i + 1;
      }
    }

    /** Where the running total first exceeds a rank: what the sample of that rank in sorted order is
        reported as; past the last sample it is the last boundary. */
    method AtRank(target: nat) returns (r: nat)
      requires Valid()
      ensures target < count ==> Reported(bounds, Sorted(samples)[target], r)
      ensures target >= count ==> r == bounds[|bounds| - 1]
    {
      var i := Crossing(target);
      ghost var counts := buckets[..];
      assert counts[..i] == buckets[..i];
      if i < buckets.Length {
        assert counts[..i + 1] == buckets[..i + 1];
        CrossingBucket(bounds, counts, samples, i, target);
        r := if i < |bounds| then bounds[i] else bounds[|bounds| - 1];
      } else {
        assert counts[..i] == counts;
        BucketsSumToCount(bounds, counts, samples);
        r := bounds[|bounds| - 1];
      }
    }

    /** A percentile is what the sample of the one rank k with k <= count * num / den < k + 1 in sorted
        order is reported as; past the last sample it is the last boundary, and with no samples zero. */
    method Percentile(num: nat, den: nat) returns (r: nat)
      requires Valid() && den > 0
      ensures count == 0 ==> r == 0
      ensures exists k: nat :: IsRank(num, den, count, k)
      ensures forall k: nat :: IsRank(num, den, count, k) ==>
                (0 < count <= k ==> r == bounds[|bounds| - 1])
                && (k < count ==> Reported(bounds, Sorted(samples)[k], r))
    {
      forall k: nat ensures IsRank(num, den, count, k) <==> k == Rank(num, den, count) {
        RankIsFloor(num, den, count, k);
      }
      assert IsRank(num, den, count, Rank(num, den, count));
      if count == 0 { return 0; }
      r := AtRank(Rank(num, den, count));
    }
  }

  /** The bucket at which the running total first exceeds a rank holds the sample of that rank. */
  lemma CrossingBucket(bounds: seq<nat>, buckets: seq<nat>, samples: seq<nat>, i: nat, target: nat)
    requires Increasing(bounds)
    requires Tallied(bounds, buckets, samples) && i <= |bounds|
    requires Total(buckets[..i]) <= target < Total(buckets[..i + 1])
    ensures target < |samples|
    ensures Reported(bounds, Sorted(samples)[target], if i < |bounds| then bounds[i] else bounds[|bounds| - 1])
  {
    RunningTotal(bounds, buckets, samples, i);
    RunningTotal(bounds, buckets, samples, i + 1);
    var sorted := Sorted(samples);
    SortedIsSorted(samples);
    CountSorted(samples, UpTo(bounds, i));
    CountSorted(samples, UpTo(bounds, i + 1));
    RankByCount(bounds, sorted, i, target);
    RankByCount(bounds, sorted, i + 1, target);
    BucketReports(bounds, sorted[target], i);
  }

  /** A fraction below one always names a sample. */
  lemma RankInRange(num: nat, den: nat, count: nat)
    requires num < den && count > 0
    ensures Rank(num, den, count) < count
  {
    Scales(num, den, count);
    DivBelow(num * count, den, count);
  }

  lemma Scales(a: nat, b: nat, c: nat)
    requires a < b && c > 0
    ensures a * c < b * c
  {
  }

  lemma DivBelow(x: nat, d: nat, c: nat)
    requires d > 0 && x < d * c
    ensures x / d < c
  {
    var q := x / d;
    assert x == d * q + x % d;
    if q >= c {
      Grows(d, c, q);
    }
  }

  lemma Grows(d: nat, c: nat, q: nat)
    requires c <= q
    ensures d * c <= d * q
  {
  }
}
