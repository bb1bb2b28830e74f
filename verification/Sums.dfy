/** Finite sums of a function over the indices below n, and the counting of sequence elements. */
module Sums {

  function Sum(n: nat, f: nat -> nat): nat {
    if n == 0 then 0 else Sum(n - 1, f) + f(n - 1)
  }

  lemma {:induction false} SumSame(n: nat, f: nat -> nat, g: nat -> nat)
    requires forall j: nat :: j < n ==> f(j) == g(j)
    ensures Sum(n, f) == Sum(n, g)
  {
    if n > 0 {
      SumSame(n - 1, f, g);
    }
  }

  /** Changing one summand changes the sum by the difference. */
  lemma {:induction false} SumChange(n: nat, f: nat -> nat, g: nat -> nat, i: nat)
    requires i < n && forall j: nat :: j < n && j != i ==> f(j) == g(j)
    ensures Sum(n, g) + f(i) == Sum(n, f) + g(i)
  {
    if i == n - 1 {
      SumSame(n - 1, f, g);
    } else {
      SumChange(n - 1, f, g, i);
    }
  }

  lemma {:induction false} SumZero(n: nat, f: nat -> nat)
    ensures Sum(n, f) == 0 <==> forall j: nat :: j < n ==> f(j) == 0
  {
    if n > 0 {
      SumZero(n - 1, f);
    }
  }

  /** The number of elements of q that satisfy p. */
  function Cnt<T>(q: seq<T>, p: T -> bool): nat {
    if q == [] then 0 else (if p(q[0]) then 1 else 0) + Cnt(q[1..], p)
  }

  lemma {:induction false} CntConcat<T>(a: seq<T>, b: seq<T>, p: T -> bool)
    ensures Cnt(a + b, p) == Cnt(a, p) + Cnt(b, p)
  {
    if a == [] {
      assert a + b == b;
    } else {
      CntConcat(a[1..], b, p);
      assert (a + b)[1..] == a[1..] + b;
    }
  }

  lemma CntAppend<T>(a: seq<T>, x: T, p: T -> bool)
    ensures Cnt(a + [x], p) == Cnt(a, p) + if p(x) then 1 else 0
  {
    CntConcat(a, [x], p);
  }

  function Without<T>(q: seq<T>, k: nat): seq<T>
    requires k < |q|
  {
    q[..k] + q[k + 1..]
  }

  lemma CntWithout<T>(q: seq<T>, k: nat, p: T -> bool)
    requires k < |q|
    ensures Cnt(Without(q, k), p) == Cnt(q, p) - if p(q[k]) then 1 else 0
    ensures p(q[k]) ==> Cnt(q, p) >= 1
  {
    CntConcat(q[..k], q[k + 1..], p);
    CntConcat(q[..k], q[k..], p);
    assert q[..k] + q[k..] == q && q[k..][1..] == q[k + 1..];
  }

  lemma {:induction false} CntOfMultiset<T>(q: seq<T>, x: T)
    ensures Cnt(q, y => y == x) == multiset(q)[x]
  {
    if q != [] {
      CntOfMultiset(q[1..], x);
      assert q == [q[0]] + q[1..];
    }
  }
}
