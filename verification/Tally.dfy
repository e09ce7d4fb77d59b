/** Counting and gathering over sequences: how many entries satisfy a predicate, and the
    multiset union of what each entry holds. Thread tables and attempt tables are sequences,
    so every conservation argument in the project goes through the update lemmas here. */
module Tally {

  /** Induction along a run: what one state has and every step keeps, every later state has. */
  lemma {:induction false} Along<S>(run: seq<S>, inv: S -> bool, i: nat, j: nat)
    requires i <= j < |run| && inv(run[i])
    requires forall k: nat {:trigger inv(run[k])} :: i <= k < j && inv(run[k]) ==> inv(run[k + 1])
    ensures inv(run[j])
    decreases j
  {
    if i < j {
      Along(run, inv, i, j - 1);
    }
  }

  /** What the steps of a run add up to. */
  function Acc<S>(run: seq<S>, step: (S, S) -> nat, i: nat): nat
    requires i < |run|
  {
    if i == 0 then 0 else Acc(run, step, i - 1) + step(run[i - 1], run[i])
  }

  /** If every step adds what a potential gains, the whole run adds what it gained in all. */
  lemma {:induction false} AccMatches<S>(run: seq<S>, step: (S, S) -> nat, potential: S -> int, i: nat)
    requires i < |run|
    requires forall k: nat {:trigger potential(run[k])} ::
             k < i ==> step(run[k], run[k + 1]) + potential(run[k]) == potential(run[k + 1])
    ensures Acc(run, step, i) + potential(run[0]) == potential(run[i])
  {
    if i > 0 {
      AccMatches(run, step, potential, i - 1);
      assert potential(run[i - 1]) == potential(run[i - 1]);
    }
  }

  function One(b: bool): (n: nat)
  {
    if b then 1 else 0
  }

  function Count<A>(s: seq<A>, p: A -> bool): (n: nat)
    ensures n <= |s|
  {
    if s == [] then 0 else One(p(s[0])) + Count(s[1..], p)
  }

  lemma {:induction false} CountUpdate<A>(s: seq<A>, i: nat, a: A, p: A -> bool)
    requires i < |s|
    ensures Count(s[i := a], p) + One(p(s[i])) == Count(s, p) + One(p(a))
  {
    if i > 0 {
      assert s[i := a][1..] == s[1..][i - 1 := a];
      CountUpdate(s[1..], i - 1, a, p);
    } else {
      assert s[i := a][1..] == s[1..];
    }
  }

  lemma {:induction false} CountAppend<A>(s: seq<A>, a: A, p: A -> bool)
    ensures Count(s + [a], p) == Count(s, p) + One(p(a))
  {
    if s == [] {
      assert (s + [a])[1..] == [];
    } else {
      assert (s + [a])[1..] == s[1..] + [a];
      CountAppend(s[1..], a, p);
    }
  }

  lemma {:induction false} CountConcat<A>(s: seq<A>, t: seq<A>, p: A -> bool)
    ensures Count(s + t, p) == Count(s, p) + Count(t, p)
  {
    if s == [] {
      assert s + t == t;
    } else {
      assert (s + t)[1..] == s[1..] + t;
      CountConcat(s[1..], t, p);
    }
  }

  function Is<A(==)>(x: A): A -> bool
  {
    (a: A) => a == x
  }

  /** Counting occurrences is the sequence's multiplicity. */
  lemma {:induction false} CountIsMultiplicity<A>(s: seq<A>, x: A)
    ensures Count(s, Is(x)) == multiset(s)[x]
  {
    if s != [] {
      CountIsMultiplicity(s[1..], x);
      assert s == [s[0]] + s[1..];
    }
  }

  /** A count is zero exactly when no entry satisfies the predicate. */
  lemma {:induction false} CountZero<A>(s: seq<A>, p: A -> bool)
    ensures Count(s, p) == 0 <==> forall i :: 0 <= i < |s| ==> !p(s[i])
  {
    if s != [] {
      CountZero(s[1..], p);
      assert forall i :: 0 < i < |s| ==> s[i] == s[1..][i - 1];
      assert forall i :: 0 <= i < |s| - 1 ==> s[1..][i] == s[i + 1];
    }
  }

  lemma CountPositive<A>(s: seq<A>, i: nat, p: A -> bool)
    requires i < |s| && p(s[i])
    ensures Count(s, p) >= 1
  {
    CountZero(s, p);
  }

  lemma {:induction false} CountPointwise<A>(s: seq<A>, s': seq<A>, p: A -> bool)
    requires |s| == |s'| && forall i :: 0 <= i < |s| ==> p(s[i]) == p(s'[i])
    ensures Count(s, p) == Count(s', p)
  {
    if s != [] {
      assert forall i :: 0 <= i < |s| - 1 ==> s[1..][i] == s[i + 1] && s'[1..][i] == s'[i + 1];
      CountPointwise(s[1..], s'[1..], p);
    }
  }

  function Sum<A>(s: seq<A>, f: A -> nat): nat
  {
    if s == [] then 0 else f(s[0]) + Sum(s[1..], f)
  }

  lemma {:induction false} SumUpdate<A>(s: seq<A>, i: nat, a: A, f: A -> nat)
    requires i < |s|
    ensures Sum(s[i := a], f) + f(s[i]) == Sum(s, f) + f(a)
  {
    if i > 0 {
      assert s[i := a][1..] == s[1..][i - 1 := a];
      SumUpdate(s[1..], i - 1, a, f);
    } else {
      assert s[i := a][1..] == s[1..];
    }
  }

  lemma {:induction false} SumAppend<A>(s: seq<A>, a: A, f: A -> nat)
    ensures Sum(s + [a], f) == Sum(s, f) + f(a)
  {
    if s == [] {
      assert (s + [a])[1..] == [];
    } else {
      assert (s + [a])[1..] == s[1..] + [a];
      SumAppend(s[1..], a, f);
    }
  }

  /** A sum of two parts, entry by entry. */
  lemma {:induction false} SumSplit<A>(s: seq<A>, f: A -> nat, g: A -> nat, h: A -> nat)
    requires forall a: A :: f(a) == g(a) + h(a)
    ensures Sum(s, f) == Sum(s, g) + Sum(s, h)
  {
    if s != [] {
      SumSplit(s[1..], f, g, h);
    }
  }

  function Gather<A, B>(s: seq<A>, f: A -> multiset<B>): multiset<B>
  {
    if s == [] then multiset{} else f(s[0]) + Gather(s[1..], f)
  }

  lemma {:induction false} GatherRemove<A, B>(s: seq<A>, i: nat, f: A -> multiset<B>)
    requires i < |s|
    ensures Gather(s[..i] + s[i + 1..], f) + f(s[i]) == Gather(s, f)
  {
    if i > 0 {
      assert (s[..i] + s[i + 1..])[1..] == s[1..][..i - 1] + s[1..][i..];
      GatherRemove(s[1..], i - 1, f);
    } else {
      assert s[..0] + s[1..] == s[1..];
    }
  }

  /** What one entry holds is part of the whole. */
  lemma {:induction false} GatherMember<A, B>(s: seq<A>, i: nat, f: A -> multiset<B>)
    requires i < |s|
    ensures f(s[i]) <= Gather(s, f)
  {
    if i > 0 {
      GatherMember(s[1..], i - 1, f);
    }
  }
}
