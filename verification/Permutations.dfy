/** Sequences as permutations, compared through multisets. */
module Permutations {
  function Range(n: nat): (r: seq<nat>)
    ensures |r| == n && forall i :: 0 <= i < n ==> r[i] == i
  {
    seq(n, i => i)
  }

  function Copies(x: nat, n: nat): (r: seq<nat>)
    ensures |r| == n && forall j :: 0 <= j < n ==> r[j] == x
  {
    seq(n, _ => x)
  }

  /** `p` lists 0..n-1, each exactly once. */
  ghost predicate IsPermutation(p: seq<int>, n: nat) {
    multiset(p) == multiset(Range(n))
  }

  predicate Below(p: seq<nat>, limit: nat) {
    forall i :: 0 <= i < |p| ==> p[i] < limit
  }

  /** `f` read at the positions `p`. */
  function Pick<T>(f: seq<T>, p: seq<nat>): (r: seq<T>)
    requires Below(p, |f|)
    ensures |r| == |p| && forall i :: 0 <= i < |p| ==> r[i] == f[p[i]]
  {
    seq(|p|, i requires 0 <= i < |p| => f[p[i]])
  }

  lemma InBounds(p: seq<nat>, n: nat)
    requires IsPermutation(p, n)
    ensures |p| == n && Below(p, n)
  {
    assert |multiset(p)| == |multiset(Range(n))|;
    forall i | 0 <= i < |p| ensures p[i] < n {
      assert p[i] in multiset(p);
      assert p[i] in Range(n);
    }
  }

  /** Where a value of `b` sits, and what remains of `b` without it. */
  lemma TakeOut<T>(a: seq<T>, b: seq<T>) returns (j: nat, rest: seq<T>)
    requires a != [] && multiset(a) == multiset(b)
    ensures j < |b| && b[j] == a[0] && rest == b[..j] + b[j + 1..]
    ensures multiset(a[1..]) == multiset(rest)
  {
    assert a[0] in multiset(b);
    j :| 0 <= j < |b| && b[j] == a[0];
    rest := b[..j] + b[j + 1..];
    assert a == [a[0]] + a[1..];
    assert b == b[..j] + [b[j]] + b[j + 1..];
    assert multiset(a[1..]) == multiset(a) - multiset{a[0]};
    assert multiset(rest) == multiset(b) - multiset{b[j]};
  }

  /** Reading at a rearrangement of positions gives a rearrangement of the values. */
  lemma {:induction false} PickSame(f: seq<nat>, p: seq<nat>, q: seq<nat>)
    requires Below(p, |f|)
    requires Below(q, |f|)
    requires multiset(p) == multiset(q)
    ensures multiset(Pick(f, p)) == multiset(Pick(f, q))
    decreases |p|
  {
    if p == [] {
      assert |multiset(q)| == 0;
    } else {
      var j, rest := TakeOut(p, q);
      PickSame(f, p[1..], rest);
      PickHead(f, p);
      PickOut(f, q, j);
    }
  }

  lemma PickHead(f: seq<nat>, p: seq<nat>)
    requires p != [] && Below(p, |f|)
    ensures multiset(Pick(f, p)) == multiset{f[p[0]]} + multiset(Pick(f, p[1..]))
  {
    assert Pick(f, p) == [f[p[0]]] + Pick(f, p[1..]);
  }

  lemma PickOut(f: seq<nat>, q: seq<nat>, j: nat)
    requires j < |q| && Below(q, |f|)
    ensures multiset(Pick(f, q)) == multiset{f[q[j]]} + multiset(Pick(f, q[..j] + q[j + 1..]))
  {
    assert Pick(f, q) == Pick(f, q[..j]) + [f[q[j]]] + Pick(f, q[j + 1..]);
    assert Pick(f, q[..j] + q[j + 1..]) == Pick(f, q[..j]) + Pick(f, q[j + 1..]);
  }

  lemma PickPermutation(f: seq<nat>, p: seq<nat>)
    requires IsPermutation(p, |f|)
    ensures Below(p, |f|)
    ensures multiset(Pick(f, p)) == multiset(f)
  {
    InBounds(p, |f|);
    PickSame(f, p, Range(|f|));
    assert Pick(f, Range(|f|)) == f;
  }

  /** In a permutation each value below n occurs exactly once. */
  lemma {:induction false} RangeCounts(n: nat, x: nat)
    ensures multiset(Range(n))[x] == if x < n then 1 else 0
  {
    if n > 0 {
      assert Range(n) == Range(n - 1) + [n - 1];
      RangeCounts(n - 1, x);
    } else {
      assert Range(0) == [];
    }
  }
}
