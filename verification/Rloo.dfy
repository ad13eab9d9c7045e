/** Leave-one-out baselines: the loop over per-group lists, the vectorised form over group codes,
    and the definition they compute, over the reals. */
module Rloo {

  type Uid = string

  // ---- Definition --------------------------------------------------------------------------

  function Size(index: seq<Uid>, u: Uid): nat {
    if index == [] then 0
    else Size(index[..|index| - 1], u) + (if index[|index| - 1] == u then 1 else 0)
  }

  function GroupSum(scores: seq<real>, index: seq<Uid>, u: Uid): real
    requires |scores| == |index|
  {
    if index == [] then 0.0
    else
      var n := |index| - 1;
      GroupSum(scores[..n], index[..n], u) + (if index[n] == u then scores[n] else 0.0)
  }

  /** The scores of group `u` without the one at position `i`. */
  function OthersSum(scores: seq<real>, index: seq<Uid>, u: Uid, i: nat): real
    requires |scores| == |index|
  {
    if index == [] then 0.0
    else
      var n := |index| - 1;
      OthersSum(scores[..n], index[..n], u, i) + (if index[n] == u && n != i then scores[n] else 0.0)
  }

  /** The score less the mean of the others in its group; a single response keeps its score. */
  function LeaveOneOut(scores: seq<real>, index: seq<Uid>, i: nat): real
    requires |scores| == |index| && i < |index|
  {
    var n := Size(index, index[i]);
    if n > 1 then scores[i] - OthersSum(scores, index, index[i], i) / (n - 1) as real else scores[i]
  }

  lemma {:induction false} SizeAt(index: seq<Uid>, i: nat)
    requires i < |index|
    ensures Size(index, index[i]) >= 1
  {
    var n := |index| - 1;
    if i < n {
      SizeAt(index[..n], i);
    }
  }

  lemma {:induction false} OthersAre(scores: seq<real>, index: seq<Uid>, u: Uid, i: nat)
    requires |scores| == |index|
    ensures OthersSum(scores, index, u, i)
      == GroupSum(scores, index, u) - (if i < |index| && index[i] == u then scores[i] else 0.0)
  {
    if index != [] {
      var n := |index| - 1;
      OthersAre(scores[..n], index[..n], u, i);
    }
  }

  // ---- The loop ----------------------------------------------------------------------------

  /** The scores of group `u`, in order. */
  function GroupScores(scores: seq<real>, index: seq<Uid>, u: Uid): (r: seq<real>)
    requires |scores| == |index|
    ensures |r| == Size(index, u)
  {
    if index == [] then []
    else
      var n := |index| - 1;
      GroupScores(scores[..n], index[..n], u) + (if index[n] == u then [scores[n]] else [])
  }

  function Sum(xs: seq<real>): real {
    if xs == [] then 0.0 else Sum(xs[..|xs| - 1]) + xs[|xs| - 1]
  }

  lemma {:induction false} GroupScoresSum(scores: seq<real>, index: seq<Uid>, u: Uid)
    requires |scores| == |index|
    ensures Sum(GroupScores(scores, index, u)) == GroupSum(scores, index, u)
  {
    if index != [] {
      var n := |index| - 1;
      GroupScoresSum(scores[..n], index[..n], u);
      var front := GroupScores(scores[..n], index[..n], u);
      assert (front + [scores[n]])[..|front|] == front;
      assert front + [] == front;
    }
  }

  /** The groups, each with its scores. */
  ghost predicate Grouped(id2score: map<Uid, seq<real>>, scores: seq<real>, index: seq<Uid>)
    requires |scores| == |index|
  {
    && (forall u :: u in id2score <==> Size(index, u) > 0)
    && (forall u :: u in id2score ==> id2score[u] == GroupScores(scores, index, u))
  }

  /** What the in-place update makes of a score in a group of `n` with this mean. */
  function Adjusted(score: real, n: nat, mean: real): real
    requires n > 1
  {
    score * n as real / (n - 1) as real - mean * n as real / (n - 1) as real
  }

  lemma AdjustedIs(score: real, n: nat, sum: real)
    requires n > 1
    ensures Adjusted(score, n, sum / n as real) == score - (sum - score) / (n - 1) as real
  {
  }

  method Group(scores: seq<real>, index: seq<Uid>) returns (id2score: map<Uid, seq<real>>)
    requires |scores| == |index|
    ensures Grouped(id2score, scores, index)
  {
    id2score := map[];
    for i := 0 to |index|
      invariant Grouped(id2score, scores[..i], index[..i])
    {
      var u := index[i];
      assert index[..i + 1][..i] == index[..i] && scores[..i + 1][..i] == scores[..i];
      var before := if u in id2score then id2score[u] else [];
      id2score := id2score[u := before + [scores[i]]];
    }
    assert index[..|index|] == index && scores[..|index|] == scores;
  }

  method Means(id2score: map<Uid, seq<real>>) returns (id2mean: map<Uid, real>)
    requires forall u :: u in id2score ==> |id2score[u]| > 0
    ensures id2mean.Keys == id2score.Keys
    ensures forall u :: u in id2score && |id2score[u]| > 1 ==> id2mean[u] == Sum(id2score[u]) / |id2score[u]| as real
  {
    id2mean := map[];
    var left := id2score.Keys;
    while left != {}
      invariant left <= id2score.Keys && id2mean.Keys == id2score.Keys - left
      invariant forall u :: u in id2mean && |id2score[u]| > 1 ==> id2mean[u] == Sum(id2score[u]) / |id2score[u]| as real
    {
      var u :| u in left;
      left := left - {u};
      var n := |id2score[u]|;
      id2mean := id2mean[u := if n == 1 then 0.0 else Sum(id2score[u]) / n as real];
    }
  }

  /** The loop form, updating the scores in place. */
  method LoopInPlace(scores: array<real>, index: seq<Uid>)
    requires scores.Length == |index|
    modifies scores
    ensures forall i :: 0 <= i < |index| ==> scores[i] == LeaveOneOut(old(scores[..]), index, i)
  {
    hide Adjusted;
    ghost var was := scores[..];
    var id2score := Group(scores[..], index);
    var id2mean := Means(id2score);
    for i := 0 to |index|
      invariant forall j :: 0 <= j < i ==> scores[j] == LeaveOneOut(was, index, j)
      invariant forall j :: i <= j < |index| ==> scores[j] == was[j]
    {
      SizeAt(index, i);
      var n := |id2score[index[i]]|;
      if n > 1 {
        GroupScoresSum(was, index, index[i]);
        AdjustedIs(was[i], n, GroupSum(was, index, index[i]));
        OthersAre(was, index, index[i], i);
        scores[i] := Adjusted(scores[i], n, id2mean[index[i]]);
      }
    }
  }

  // ---- The vectorised form -------------------------------------------------------------------

  /** `np.unique` with its inverse gives one code per group. */
  ghost predicate Codes(inv: seq<nat>, index: seq<Uid>) {
    |inv| == |index| && forall i, j :: 0 <= i < |inv| && 0 <= j < |inv| ==> (inv[i] == inv[j] <==> index[i] == index[j])
  }

  /** `torch.bincount`, with and without weights, at one code. */
  function Count(inv: seq<nat>, code: nat): nat {
    if inv == [] then 0 else Count(inv[..|inv| - 1], code) + (if inv[|inv| - 1] == code then 1 else 0)
  }

  function Weighted(scores: seq<real>, inv: seq<nat>, code: nat): real
    requires |scores| == |inv|
  {
    if inv == [] then 0.0
    else
      var n := |inv| - 1;
      Weighted(scores[..n], inv[..n], code) + (if inv[n] == code then scores[n] else 0.0)
  }

  /** The entry for a score in a group of `c` with this sum. */
  function Entry(score: real, c: real, sum: real): real {
    ((c * score - sum) / (if c - 1.0 < 1.0 then 1.0 else c - 1.0)) * (if c > 1.0 then 1.0 else 0.0)
  }

  function Vectorized(scores: seq<real>, inv: seq<nat>): (r: seq<real>)
    requires |scores| == |inv|
    ensures |r| == |inv|
  {
    seq(|inv|, i requires 0 <= i < |inv| =>
      Entry(scores[i], Count(inv, inv[i]) as real, Weighted(scores, inv, inv[i])))
  }

  /** Counting by code is counting by group. */
  lemma {:induction false} CodesCount(scores: seq<real>, inv: seq<nat>, index: seq<Uid>, code: nat, u: Uid)
    requires |scores| == |inv| == |index|
    requires forall j :: 0 <= j < |inv| ==> (inv[j] == code <==> index[j] == u)
    ensures Count(inv, code) == Size(index, u)
    ensures Weighted(scores, inv, code) == GroupSum(scores, index, u)
  {
    if inv != [] {
      var n := |inv| - 1;
      CodesCount(scores[..n], inv[..n], index[..n], code, u);
    }
  }

  lemma EntryIs(score: real, n: nat, sum: real)
    requires n > 0
    ensures Entry(score, n as real, sum) == if n > 1 then score - (sum - score) / (n - 1) as real else 0.0
  {
  }

  /** On groups of two or more both forms give the leave-one-out advantage; on a group of one the
      loop keeps the score and the vectorised form gives 0. */
  lemma VectorizedIs(scores: seq<real>, inv: seq<nat>, index: seq<Uid>, i: nat)
    requires |scores| == |index| && Codes(inv, index) && i < |index|
    ensures Vectorized(scores, inv)[i] == if Size(index, index[i]) > 1 then LeaveOneOut(scores, index, i) else 0.0
  {
    CodesCount(scores, inv, index, inv[i], index[i]);
    OthersAre(scores, index, index[i], i);
    SizeAt(index, i);
    EntryIs(scores[i], Size(index, index[i]), GroupSum(scores, index, index[i]));
    hide Entry;
  }

  /** The two forms agree on a whole batch exactly when every response that is alone in its group
      scores 0. */
  lemma FormsAgreeExactly(scores: seq<real>, inv: seq<nat>, index: seq<Uid>)
    requires |scores| == |index| && Codes(inv, index)
    ensures (forall i :: 0 <= i < |index| ==> Vectorized(scores, inv)[i] == LeaveOneOut(scores, index, i))
      <==> (forall i :: 0 <= i < |index| && Size(index, index[i]) == 1 ==> scores[i] == 0.0)
  {
    forall i | 0 <= i < |index|
      ensures Size(index, index[i]) >= 1
      ensures Vectorized(scores, inv)[i] == if Size(index, index[i]) > 1 then LeaveOneOut(scores, index, i) else 0.0
      ensures Size(index, index[i]) == 1 ==> LeaveOneOut(scores, index, i) == scores[i]
    {
      SizeAt(index, i);
      VectorizedIs(scores, inv, index, i);
    }
  }

  // ---- Conservation -----------------------------------------------------------------------------

  function Advantages(scores: seq<real>, index: seq<Uid>): (r: seq<real>)
    requires |scores| == |index|
    ensures |r| == |index|
  {
    seq(|index|, i requires 0 <= i < |index| => LeaveOneOut(scores, index, i))
  }

  function Affine(a: real, b: real, sum: real, size: nat): real {
    a * sum + b * size as real
  }

  /** A group whose entries are all `a * score + b`. */
  lemma {:induction false} AffineSum(scores: seq<real>, adv: seq<real>, index: seq<Uid>, u: Uid, a: real, b: real)
    requires |scores| == |adv| == |index|
    requires forall i :: 0 <= i < |index| && index[i] == u ==> adv[i] == Affine(a, b, scores[i], 1)
    ensures GroupSum(adv, index, u) == Affine(a, b, GroupSum(scores, index, u), Size(index, u))
  {
    hide Affine;
    if index == [] {
      AffineNone(a, b);
    } else {
      var n := |index| - 1;
      AffineSum(scores[..n], adv[..n], index[..n], u, a, b);
      AffineStep(a, b, GroupSum(scores[..n], index[..n], u), Size(index[..n], u), scores[n]);
    }
  }

  lemma AffineNone(a: real, b: real)
    ensures Affine(a, b, 0.0, 0) == 0.0
  {
  }

  lemma AffineStep(a: real, b: real, sum: real, size: nat, score: real)
    ensures Affine(a, b, sum, size) + Affine(a, b, score, 1) == Affine(a, b, sum + score, size + 1)
  {
  }

  function Slope(n: nat): real
    requires n > 1
  {
    n as real / (n - 1) as real
  }

  function Shift(n: nat, sum: real): real
    requires n > 1
  {
    -(sum / (n - 1) as real)
  }

  lemma AdvantageAffine(score: real, n: nat, sum: real)
    requires n > 1
    ensures score - (sum - score) / (n - 1) as real == Affine(Slope(n), Shift(n, sum), score, 1)
  {
  }

  lemma Cancels(n: nat, sum: real)
    requires n > 1
    ensures Affine(Slope(n), Shift(n, sum), sum, n) == 0.0
  {
  }

  /** Within every group of two or more the advantages cancel out. */
  lemma AdvantagesCancel(scores: seq<real>, index: seq<Uid>, u: Uid)
    requires |scores| == |index| && Size(index, u) > 1
    ensures GroupSum(Advantages(scores, index), index, u) == 0.0
  {
    hide Affine, Slope, Shift;
    var n, sum := Size(index, u), GroupSum(scores, index, u);
    var adv := Advantages(scores, index);
    forall i | 0 <= i < |index| && index[i] == u
      ensures adv[i] == Affine(Slope(n), Shift(n, sum), scores[i], 1)
    {
      OthersAre(scores, index, u, i);
      AdvantageAffine(scores[i], n, sum);
    }
    AffineSum(scores, adv, index, u, Slope(n), Shift(n, sum));
    Cancels(n, sum);
  }
}
