/** Capacity rounding and masked indexing. */
module RingArithmetic {
  import opened QueueTypes
  import Rings

  const MAX_CAPACITY: nat := 0x4000_0000

  function Pow2(k: nat): (n: nat)
    ensures n >= 1
  {
    if k == 0 then 1 else 2 * Pow2(k - 1)
  }

  lemma {:induction false} Pow2Monotone(j: nat, k: nat)
    requires j < k
    ensures 2 * Pow2(j) <= Pow2(k)
  {
    if j + 1 < k {
      Pow2Monotone(j, k - 1);
    }
  }

  /** Rounds a requested capacity up to the least power of two that is at least two, and refuses
      zero and anything above the maximum. */
  method ValidatedCapacity(capacity: nat) returns (rounded: Option<nat>, ghost k: nat)
    ensures rounded.Some? <==> 0 < capacity <= MAX_CAPACITY
    ensures rounded.Some? ==>
            rounded.value == Pow2(k) && 2 <= rounded.value <= MAX_CAPACITY && capacity <= rounded.value
    ensures rounded.Some? ==> forall j :: capacity <= Pow2(j) && 2 <= Pow2(j) ==> rounded.value <= Pow2(j)
  {
    k := 0;
    if capacity == 0 || capacity > MAX_CAPACITY {
      return None, 0;
    }
    var n := 1;
    while n < capacity
      invariant n == Pow2(k) && (k == 0 || Pow2(k) < 2 * capacity)
      invariant k <= 30
      invariant forall j :: 0 <= j < k ==> Pow2(j) < capacity
      decreases capacity - n
    {
      Below30(capacity, k);
      n, k := 2 * n, k + 1;
    }
    if n < 2 { n, k := 2, 1; }
    LeastPow2(capacity, k);
    rounded := Some(n);
  }

  /** The first power of two that is large enough is the least one, and within the maximum. */
  lemma LeastPow2(capacity: nat, k: nat)
    requires 1 <= k <= 30 && forall j :: 0 <= j < k ==> Pow2(j) < capacity || Pow2(j) < 2
    ensures Pow2(k) <= MAX_CAPACITY && forall j :: capacity <= Pow2(j) && 2 <= Pow2(j) ==> Pow2(k) <= Pow2(j)
  {
    MaxIsPow2();
    if k < 30 { Pow2Monotone(k, 30); }
    forall j: nat | capacity <= Pow2(j) && 2 <= Pow2(j) ensures Pow2(k) <= Pow2(j) {
      if k < j { Pow2Monotone(k, j); }
    }
  }

  lemma Below30(capacity: nat, k: nat)
    requires k <= 30 && Pow2(k) < capacity <= MAX_CAPACITY
    ensures k < 30
  {
    MaxIsPow2();
  }

  lemma MaxIsPow2()
    ensures Pow2(30) == MAX_CAPACITY
  {
    assert Pow2(10) == 1024;
    Pow2Add(10, 10);
    Pow2Add(20, 10);
  }

  lemma {:induction false} Pow2Add(j: nat, k: nat)
    ensures Pow2(j + k) == Pow2(j) * Pow2(k)
  {
    if k > 0 {
      Pow2Add(j, k - 1);
    }
  }

  /** Bitwise conjunction of naturals, from the lowest bit up. */
  function BitAnd(a: nat, b: nat): (c: nat)
    ensures c <= b
  {
    if a == 0 || b == 0 then 0
    else (if a % 2 == 1 && b % 2 == 1 then 1 else 0) + 2 * BitAnd(a / 2, b / 2)
  }

  /** Masking with a power of two minus one is the ring's slot. */
  lemma {:induction false} MaskIsSlot(p: nat, k: nat)
    ensures BitAnd(p, Pow2(k) - 1) == Rings.SlotOf(p, Pow2(k))
  {
    if k == 0 {
      SlotOfOne(p);
    } else {
      var h := Pow2(k - 1);
      MaskIsSlot(p / 2, k - 1);
      assert (2 * h - 1) / 2 == h - 1 && (2 * h - 1) % 2 == 1;
      SlotHalves(p, h);
    }
  }

  lemma {:induction false} SlotOfOne(p: nat)
    ensures Rings.SlotOf(p, 1) == 0
  {
    if p > 0 { SlotOfOne(p - 1); }
  }

  lemma {:induction false} SlotHalves(p: nat, h: nat)
    requires h > 0
    ensures Rings.SlotOf(p, 2 * h) == p % 2 + 2 * Rings.SlotOf(p / 2, h)
  {
    if p >= 2 * h {
      SlotHalves(p - 2 * h, h);
      assert (p - 2 * h) / 2 == p / 2 - h;
    }
  }

  /** The slot is the remainder, so masking equals modulo. */
  lemma {:induction false} SlotIsModulo(p: nat, n: nat)
    requires n > 0
    ensures Rings.SlotOf(p, n) == p % n
  {
    if p >= n {
      SlotIsModulo(p - n, n);
      QuotientUnique(p, n, (p - n) / n + 1, (p - n) % n);
    }
  }

  lemma QuotientUnique(p: nat, n: nat, q: nat, r: nat)
    requires r < n && p - n == (q - 1) * n + r
    ensures p % n == r
  {
    var d := q - p / n;
    assert d * n == p % n - r by {
      assert p == (p / n) * n + p % n;
      assert (q - 1) * n == q * n - n;
      assert d * n == q * n - (p / n) * n;
    }
    Small(d, n);
  }

  lemma Small(d: int, n: nat)
    requires 0 - n < d * n < n
    ensures d == 0
  {
    assert d >= 1 ==> (d - 1) * n >= 0;
    assert d <= -1 ==> (0 - d - 1) * n >= 0;
  }
}
