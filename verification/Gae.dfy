/** Generalised advantage estimation for one row of a batch, over the reals: the backward loop
    with a mask, against the estimator of the row with its masked positions removed. */
module Gae {

  /** Rewards, values and mask of one response. */
  datatype Row = Row(rewards: seq<real>, values: seq<real>, mask: seq<real>)

  predicate Shaped(r: Row) {
    |r.rewards| == |r.values| == |r.mask|
  }

  /** Every mask entry is 0 or 1. */
  predicate ZeroOne(mask: seq<real>) {
    forall t :: 0 <= t < |mask| ==> mask[t] == 0.0 || mask[t] == 1.0
  }

  datatype Carry = Carry(next: real, gae: real)

  /** `x` where the mask is 1 and `kept` where it is 0. */
  function Blend(x: real, mask: real, kept: real): real {
    x * mask + (1.0 - mask) * kept
  }

  /** A temporal-difference error plus the discounted estimate that follows. */
  function Accumulate(reward: real, value: real, gamma: real, lam: real, c: Carry): real {
    reward + gamma * c.next - value + gamma * lam * c.gae
  }

  /** One turn of the loop, at a position with this reward, value and mask. */
  function Turn(reward: real, value: real, mask: real, gamma: real, lam: real, c: Carry): Carry {
    Carry(Blend(value, mask, c.next), Blend(Accumulate(reward, value, gamma, lam, c), mask, c.gae))
  }

  /** What the loop carries once it has come down to position `t`. */
  function CarryAt(r: Row, gamma: real, lam: real, t: nat): Carry
    requires Shaped(r) && t <= |r.mask|
    decreases |r.mask| - t
  {
    if t == |r.mask| then Carry(0.0, 0.0)
    else Turn(r.rewards[t], r.values[t], r.mask[t], gamma, lam, CarryAt(r, gamma, lam, t + 1))
  }

  method AdvantageReturn(r: Row, gamma: real, lam: real) returns (advantages: seq<real>, toGo: seq<real>)
    requires Shaped(r)
    ensures |advantages| == |toGo| == |r.mask|
    ensures forall t :: 0 <= t < |r.mask| ==> advantages[t] == CarryAt(r, gamma, lam, t).gae
    ensures forall t :: 0 <= t < |r.mask| ==> toGo[t] == advantages[t] + r.values[t]
  {
    hide Blend, Accumulate;
    var n := |r.mask|;
    var next, last, reversed := 0.0, 0.0, [];
    for t := n downto 0
      invariant Carry(next, last) == CarryAt(r, gamma, lam, t)
      invariant |reversed| == n - t
      invariant forall i :: 0 <= i < n - t ==> reversed[i] == CarryAt(r, gamma, lam, n - 1 - i).gae
    {
      var taken := Accumulate(r.rewards[t], r.values[t], gamma, lam, Carry(next, last));
      next := Blend(r.values[t], r.mask[t], next);
      last := Blend(taken, r.mask[t], last);
      reversed := reversed + [last];
    }
    advantages := seq(n, t requires 0 <= t < n => reversed[n - 1 - t]);
    toGo := seq(n, t requires 0 <= t < n => advantages[t] + r.values[t]);
  }

  // ---- The estimator ------------------------------------------------------------------------

  /** The entries from `t` on that are not masked. */
  function Valid(xs: seq<real>, mask: seq<real>, t: nat): seq<real>
    requires |xs| == |mask| && t <= |mask|
    decreases |mask| - t
  {
    if t == |mask| then []
    else if mask[t] == 1.0 then [xs[t]] + Valid(xs, mask, t + 1)
    else Valid(xs, mask, t + 1)
  }

  function First(xs: seq<real>): real {
    if xs == [] then 0.0 else xs[0]
  }

  /** Temporal-difference errors, with value 0 after the end. */
  function Deltas(rs: seq<real>, vs: seq<real>, gamma: real): (d: seq<real>)
    requires |rs| == |vs|
    ensures |d| == |rs|
  {
    seq(|rs|, i requires 0 <= i < |rs| => rs[i] + gamma * First(vs[i + 1..]) - vs[i])
  }

  function Power(d: real, n: nat): real {
    if n == 0 then 1.0 else d * Power(d, n - 1)
  }

  /** The sum of `d^l * xs[l]`. */
  function DiscountedSum(xs: seq<real>, d: real): real {
    if xs == [] then 0.0
    else DiscountedSum(xs[..|xs| - 1], d) + Power(d, |xs| - 1) * xs[|xs| - 1]
  }

  /** The sum can be computed from the front. */
  lemma {:induction false} Horner(xs: seq<real>, d: real)
    requires xs != []
    ensures DiscountedSum(xs, d) == xs[0] + d * DiscountedSum(xs[1..], d)
  {
    var n := |xs| - 1;
    if n > 0 {
      Horner(xs[..n], d);
      assert xs[..n][1..] == xs[1..][..n - 1];
      Regroup(xs[0], d, DiscountedSum(xs[1..][..n - 1], d), Power(d, n - 1), xs[n]);
    } else {
      assert xs[..0] == [] && xs[1..] == [];
    }
  }

  lemma Regroup(x: real, d: real, sum: real, p: real, last: real)
    ensures x + d * sum + (d * p) * last == x + d * (sum + p * last)
  {
  }

  lemma {:induction false} ValidLengths(r: Row, t: nat)
    requires Shaped(r) && t <= |r.mask|
    ensures |Valid(r.rewards, r.mask, t)| == |Valid(r.values, r.mask, t)|
    decreases |r.mask| - t
  {
    if t < |r.mask| {
      ValidLengths(r, t + 1);
    }
  }

  lemma DeltasUnfold(rs: seq<real>, vs: seq<real>, gamma: real)
    requires |rs| == |vs| && rs != []
    ensures Deltas(rs, vs, gamma)[0] == rs[0] + gamma * First(vs[1..]) - vs[0]
    ensures Deltas(rs, vs, gamma)[1..] == Deltas(rs[1..], vs[1..], gamma)
  {
    hide First;
    forall i | 0 <= i < |rs| - 1 ensures Deltas(rs, vs, gamma)[1..][i] == Deltas(rs[1..], vs[1..], gamma)[i] {
      assert vs[1..][i + 1..] == vs[i + 2..];
    }
  }

  lemma Unmasked(reward: real, value: real, gamma: real, lam: real, c: Carry)
    ensures Turn(reward, value, 1.0, gamma, lam, c)
      == Carry(value, reward + gamma * c.next - value + (gamma * lam) * c.gae)
  {
  }

  lemma Masked(reward: real, value: real, gamma: real, lam: real, c: Carry)
    ensures Turn(reward, value, 0.0, gamma, lam, c) == c
  {
  }

  /** The estimate for a row without masks. */
  function Estimate(rs: seq<real>, vs: seq<real>, gamma: real, lam: real): real
    requires |rs| == |vs|
  {
    DiscountedSum(Deltas(rs, vs, gamma), gamma * lam)
  }

  lemma EstimateUnfold(rs: seq<real>, vs: seq<real>, gamma: real, lam: real)
    requires |rs| == |vs| && rs != []
    ensures Estimate(rs, vs, gamma, lam)
      == rs[0] + gamma * First(vs[1..]) - vs[0] + (gamma * lam) * Estimate(rs[1..], vs[1..], gamma, lam)
  {
    DeltasUnfold(rs, vs, gamma);
    Horner(Deltas(rs, vs, gamma), gamma * lam);
    hide Deltas, DiscountedSum, First;
  }

  /** The loop computes the estimator of the row without its masked positions: the discounted sum
      of the temporal-difference errors of what is left, from this position on. */
  lemma {:induction false} LoopIsEstimator(r: Row, gamma: real, lam: real, t: nat)
    requires Shaped(r) && ZeroOne(r.mask) && t <= |r.mask|
    ensures |Valid(r.rewards, r.mask, t)| == |Valid(r.values, r.mask, t)|
    ensures var rs, vs := Valid(r.rewards, r.mask, t), Valid(r.values, r.mask, t);
      CarryAt(r, gamma, lam, t) == Carry(First(vs), Estimate(rs, vs, gamma, lam))
    decreases |r.mask| - t
  {
    hide Turn, Estimate;
    ValidLengths(r, t);
    if t == |r.mask| {
      EstimateNone(gamma, lam);
    } else {
      LoopIsEstimator(r, gamma, lam, t + 1);
      var c := CarryAt(r, gamma, lam, t + 1);
      if r.mask[t] == 1.0 {
        var rs, vs := Valid(r.rewards, r.mask, t), Valid(r.values, r.mask, t);
        assert rs[1..] == Valid(r.rewards, r.mask, t + 1) && vs[1..] == Valid(r.values, r.mask, t + 1);
        EstimateUnfold(rs, vs, gamma, lam);
        Unmasked(r.rewards[t], r.values[t], gamma, lam, c);
      } else {
        Masked(r.rewards[t], r.values[t], gamma, lam, c);
      }
    }
  }

  lemma EstimateNone(gamma: real, lam: real)
    ensures Estimate([], [], gamma, lam) == 0.0
  {
  }

  /** Masked rewards and values make no difference anywhere: rows that agree on the mask and on
      every unmasked entry get the same advantages. */
  lemma MaskedEntriesDoNotMatter(r: Row, s: Row, gamma: real, lam: real, t: nat)
    requires Shaped(r) && Shaped(s) && r.mask == s.mask && ZeroOne(r.mask) && t <= |r.mask|
    requires forall i :: 0 <= i < |r.mask| && r.mask[i] == 1.0 ==>
      r.rewards[i] == s.rewards[i] && r.values[i] == s.values[i]
    ensures CarryAt(r, gamma, lam, t) == CarryAt(s, gamma, lam, t)
  {
    LoopIsEstimator(r, gamma, lam, t);
    LoopIsEstimator(s, gamma, lam, t);
    ValidAgree(r.rewards, s.rewards, r.mask, t);
    ValidAgree(r.values, s.values, r.mask, t);
  }

  lemma {:induction false} ValidAgree(xs: seq<real>, ys: seq<real>, mask: seq<real>, t: nat)
    requires |xs| == |ys| == |mask| && t <= |mask|
    requires forall i :: 0 <= i < |mask| && mask[i] == 1.0 ==> xs[i] == ys[i]
    ensures Valid(xs, mask, t) == Valid(ys, mask, t)
    decreases |mask| - t
  {
    if t < |mask| {
      ValidAgree(xs, ys, mask, t + 1);
    }
  }

  /** With lambda 1 the errors telescope to the rewards. */
  lemma {:induction false} Telescope(rs: seq<real>, vs: seq<real>, gamma: real)
    requires |rs| == |vs|
    ensures Estimate(rs, vs, gamma, 1.0) + First(vs) == DiscountedSum(rs, gamma)
  {
    hide Estimate;
    if rs == [] {
      EstimateNone(gamma, 1.0);
    } else {
      EstimateUnfold(rs, vs, gamma, 1.0);
      Horner(rs, gamma);
      Telescope(rs[1..], vs[1..], gamma);
      hide *;
      Shared(gamma, First(vs[1..]), Estimate(rs[1..], vs[1..], gamma, 1.0), DiscountedSum(rs[1..], gamma));
    }
  }

  lemma Shared(gamma: real, v: real, a: real, b: real)
    requires a + v == b
    ensures gamma * v + (gamma * 1.0) * a == gamma * b
  {
  }

  /** With lambda 1 the return at an unmasked position is the discounted sum of the unmasked
      rewards from there on, whatever the values. */
  lemma ReturnIsRewardsToGo(r: Row, gamma: real, t: nat)
    requires Shaped(r) && ZeroOne(r.mask) && t < |r.mask| && r.mask[t] == 1.0
    ensures CarryAt(r, gamma, 1.0, t).gae + r.values[t] == DiscountedSum(Valid(r.rewards, r.mask, t), gamma)
  {
    LoopIsEstimator(r, gamma, 1.0, t);
    Telescope(Valid(r.rewards, r.mask, t), Valid(r.values, r.mask, t), gamma);
    hide CarryAt, Estimate, DiscountedSum;
  }
}
