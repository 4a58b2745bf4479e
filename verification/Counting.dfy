/** Numeric helpers shared by the models, and the pigeonhole principle. */
module Counting {

  function One(b: bool): nat {
    if b then 1 else 0
  }

  function Pow2(n: nat): nat {
    if n == 0 then 1 else 2 * Pow2(n - 1)
  }

  // ---- finite sets of numbers ----

  lemma {:induction false} SubsetCard(s: set<nat>, t: set<nat>)
    requires s <= t
    ensures |s| <= |t|
  {
    if s != {} {
      var x :| x in s;
      SubsetCard(s - {x}, t - {x});
    }
  }

  function Below(n: nat): (s: set<nat>)
    ensures |s| == n && forall x: nat :: x in s <==> x < n
  {
    if n == 0 then {} else Below(n - 1) + {n - 1}
  }

  lemma CardBelow(s: set<nat>, n: nat)
    requires forall x <- s :: x < n
    ensures |s| <= n
  {
    SubsetCard(s, Below(n));
  }

  function Image(f: nat -> nat, m: nat): set<nat> {
    if m == 0 then {} else Image(f, m - 1) + {f(m - 1)}
  }

  predicate Repeats(f: nat -> nat, i: nat, j: nat) {
    f(i) == f(j)
  }

  lemma {:induction false} ImageMember(f: nat -> nat, m: nat, x: nat)
    requires x in Image(f, m)
    ensures exists i: nat :: i < m && f(i) == x
  {
    if f(m - 1) != x {
      ImageMember(f, m - 1, x);
    }
  }

  lemma {:induction false} ImageIsLargeOrRepeats(f: nat -> nat, m: nat)
    ensures |Image(f, m)| == m || exists i: nat, j: nat :: i < j < m && Repeats(f, i, j)
  {
    if m > 0 {
      ImageIsLargeOrRepeats(f, m - 1);
      if f(m - 1) in Image(f, m - 1) {
        ImageMember(f, m - 1, f(m - 1));
        var i: nat :| i < m - 1 && f(i) == f(m - 1);
        assert Repeats(f, i, m - 1);
      }
    }
  }

  lemma {:induction false} ImageIsBelow(f: nat -> nat, m: nat, n: nat)
    requires forall k: nat :: f(k) < n
    ensures |Image(f, m)| <= n
  {
    forall x | x in Image(f, m)
      ensures x < n
    {
      ImageMember(f, m, x);
    }
    CardBelow(Image(f, m), n);
  }

  /** Among n + 1 numbers below n, two are equal. */
  lemma Pigeonhole(f: nat -> nat, n: nat) returns (i: nat, j: nat)
    requires forall k: nat :: f(k) < n
    ensures i < j <= n && f(i) == f(j)
  {
    ImageIsLargeOrRepeats(f, n + 1);
    ImageIsBelow(f, n + 1, n);
    i, j :| i < j < n + 1 && Repeats(f, i, j);
  }
}
