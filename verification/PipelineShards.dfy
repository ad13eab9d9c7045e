/** Spreading the layers of a model over pipeline stages. */
module PipelineShards {
  import opened Wrappers
  import Arith

  datatype ShardError = TooFewLayers | NoStages | NoStrategy

  /** First and last stage share what `middle` layers on each of the inner stages leave over. */
  function FirstOf(layers: int, stages: int, middle: int): int {
    (layers - middle * (stages - 2)) / 2
  }

  function LastOf(layers: int, stages: int, middle: int): int {
    layers - middle * (stages - 2) - FirstOf(layers, stages, middle)
  }

  predicate Viable(layers: int, stages: int, middle: int) {
    0 < FirstOf(layers, stages, middle) <= middle && 0 < LastOf(layers, stages, middle) <= middle
  }

  function Strategy(layers: int, stages: int, middle: int): seq<int>
    requires stages >= 2
  {
    [FirstOf(layers, stages, middle)] + seq(stages - 2, _ => middle) + [LastOf(layers, stages, middle)]
  }

  function Sum(s: seq<int>): int {
    if s == [] then 0 else Sum(s[..|s| - 1]) + s[|s| - 1]
  }

  /** The search for three stages or more succeeds under this condition. */
  predicate Divides(layers: nat, stages: nat)
    requires stages > 0
  {
    Arith.CeilDiv(layers, stages) * (stages - 2) <= layers - 2
  }

  method GetDynamicPipelineShards(layers: int, stages: int) returns (r: Result<seq<int>, ShardError>)
    ensures r == Shards(layers, stages)
  {
    if layers < stages {
      return Err(TooFewLayers);
    }
    if stages < 1 {
      return Err(NoStages);
    }
    if stages == 1 {
      return Ok([layers]);
    }
    if stages == 2 {
      return Ok([layers / 2, layers - layers / 2]);
    }
    // The first strategy of a stable sort by difference is the first one with the least difference
    var best: Option<(seq<int>, int)> := None;
    ghost var found: Option<nat> := None;
    for middle := 0 to layers
      invariant found.None? ==> best.None? && forall m :: 0 <= m < middle ==> !Viable(layers, stages, m)
      invariant found.Some? ==> Chosen(layers, stages, middle, found.value)
      invariant found.Some? ==> best == Some((Strategy(layers, stages, found.value),
                                              found.value - FirstOf(layers, stages, found.value)))
    {
      var first := FirstOf(layers, stages, middle);
      var last := LastOf(layers, stages, middle);
      if 0 < first <= middle && 0 < last <= middle {
        var diff := if first < middle then middle - first else first - middle;
        if found.Some? {
          LaterIsWorse(layers, stages, found.value, middle);
        }
        if best.None? || diff < best.value.1 {
          best := Some(([first] + seq(stages - 2, _ => middle) + [last], diff));
          found := Some(middle);
        }
      }
    }
    if best.None? {
      NoneViable(layers, stages);
      return Err(NoStrategy);
    }
    ChosenIsCeiling(layers, stages, found.value);
    return Ok(best.value.0);
  }

  /** What the search amounts to: every inner stage gets the rounded-up average. */
  function Shards(layers: int, stages: int): Result<seq<int>, ShardError> {
    if layers < stages then Err(TooFewLayers)
    else if stages < 1 then Err(NoStages)
    else if stages == 1 then Ok([layers])
    else if stages == 2 then Ok([layers / 2, layers - layers / 2])
    else if Divides(layers, stages) then Ok(Strategy(layers, stages, Arith.CeilDiv(layers, stages)))
    else Err(NoStrategy)
  }

  /** The smallest viable number of inner layers below `limit`. */
  ghost predicate Chosen(layers: int, stages: int, limit: int, m: nat) {
    m < limit && Viable(layers, stages, m) && forall k :: 0 <= k < m ==> !Viable(layers, stages, k)
  }

  lemma LaterIsWorse(layers: int, stages: int, m: nat, k: nat)
    requires stages >= 3 && m <= k
    ensures m - FirstOf(layers, stages, m) <= k - FirstOf(layers, stages, k)
  {
  }

  /** A middle size is viable exactly when the ends get at least one layer each and no more than it. */
  lemma ViableExactly(layers: nat, stages: nat, m: nat)
    requires stages >= 3
    ensures Viable(layers, stages, m) <==> m * (stages - 2) <= layers - 2 && layers <= m * stages
  {
  }

  lemma CeilBounds(layers: nat, stages: nat)
    requires stages > 0
    ensures var c := Arith.CeilDiv(layers, stages); layers <= c * stages && (c > 0 ==> (c - 1) * stages < layers)
  {
  }

  lemma CeilIsFirst(layers: nat, stages: nat, m: nat)
    requires 3 <= stages <= layers && Viable(layers, stages, m)
    ensures Arith.CeilDiv(layers, stages) <= m
    ensures Viable(layers, stages, Arith.CeilDiv(layers, stages))
  {
    ViableExactly(layers, stages, m);
    CeilBounds(layers, stages);
    var c := Arith.CeilDiv(layers, stages);
    if c > m {
      Arith.MulOrder(m, c - 1, stages);
    }
    Arith.MulOrder(c, m, stages - 2);
    ViableExactly(layers, stages, c);
  }

  lemma ChosenIsCeiling(layers: nat, stages: nat, m: nat)
    requires 3 <= stages <= layers && Chosen(layers, stages, layers, m)
    ensures m == Arith.CeilDiv(layers, stages) && Divides(layers, stages)
  {
    CeilIsFirst(layers, stages, m);
    ViableExactly(layers, stages, m);
  }

  lemma NoneViable(layers: nat, stages: nat)
    requires 3 <= stages <= layers && forall m :: 0 <= m < layers ==> !Viable(layers, stages, m)
    ensures !Divides(layers, stages)
  {
    var c := Arith.CeilDiv(layers, stages);
    CeilBounds(layers, stages);
    Arith.MulOrder(3, stages, c - 1);
    assert 0 < c < layers;
    ViableExactly(layers, stages, c);
  }

  // ---- What the shards are worth ------------------------------------------------------------

  lemma {:induction false} SumRepeat(n: nat, x: int)
    ensures Sum(seq(n, _ => x)) == n * x
  {
    if n > 0 {
      SumRepeat(n - 1, x);
      assert seq(n, _ => x)[..n - 1] == seq(n - 1, _ => x);
      Arith.MulStep(n, x);
    }
  }

  lemma {:induction false} SumConcat(a: seq<int>, b: seq<int>)
    ensures Sum(a + b) == Sum(a) + Sum(b)
  {
    if b == [] {
      assert a + b == a;
    } else {
      SumConcat(a, b[..|b| - 1]);
      assert (a + b)[..|a + b| - 1] == a + b[..|b| - 1];
    }
  }

  lemma {:induction false} SumBound(s: seq<int>, most: int)
    requires forall i :: 0 <= i < |s| ==> s[i] <= most
    ensures Sum(s) <= |s| * most
  {
    if s != [] {
      SumBound(s[..|s| - 1], most);
      Arith.MulStep(|s|, most);
    }
  }

  lemma StrategySum(layers: int, stages: int, m: int)
    requires stages >= 2
    ensures Sum(Strategy(layers, stages, m)) == layers
  {
    var first, middle, last := FirstOf(layers, stages, m), seq(stages - 2, _ => m), LastOf(layers, stages, m);
    SumRepeat(stages - 2, m);
    SumConcat([first] + middle, [last]);
    SumConcat([first], middle);
    SumOne(first);
    SumOne(last);
  }

  lemma SumOne(x: int)
    ensures Sum([x]) == x
  {
  }

  /** Whenever shards are returned there is one per stage, each holds a layer, they add up to the
      model, and no other way to spread the layers has a smaller largest stage; the inner stages
      are all as large as that, and the ends share the rest, the last one getting the odd layer. */
  lemma ShardsAreBest(layers: int, stages: int, other: seq<int>)
    requires Shards(layers, stages).Ok?
    requires |other| == stages && Sum(other) == layers
    ensures var shards := Shards(layers, stages).value;
      && |shards| == stages && Sum(shards) == layers
      && (forall i :: 0 <= i < stages ==> 0 < shards[i] <= Arith.CeilDiv(layers, stages))
      && (exists i :: 0 <= i < stages && Arith.CeilDiv(layers, stages) <= other[i])
      && (stages > 1 ==> 0 <= shards[stages - 1] - shards[0] <= 1)
      && (forall i :: 0 < i < stages - 1 ==> shards[i] == Arith.CeilDiv(layers, stages))
  {
    var shards, c := Shards(layers, stages).value, Arith.CeilDiv(layers, stages);
    if stages == 1 {
      SumOne(layers);
    } else if stages == 2 {
      SumConcat([layers / 2], [layers - layers / 2]);
      SumOne(layers / 2);
      SumOne(layers - layers / 2);
      assert [layers / 2] + [layers - layers / 2] == shards;
    } else {
      StrategySum(layers, stages, c);
      CeilBounds(layers, stages);
      ViableExactly(layers, stages, c);
    }
    CeilBounds(layers, stages);
    if forall i :: 0 <= i < stages ==> other[i] < c {
      SumBound(other, c - 1);
      assert false;
    }
  }

  /** The three errors: fewer layers than stages, no stage, or three stages or more of which no
      inner size leaves both ends at least a layer and no more than that size. */
  lemma ShardErrorsExactly(layers: int, stages: int)
    ensures Shards(layers, stages) == Err(TooFewLayers) <==> layers < stages
    ensures Shards(layers, stages) == Err(NoStages) <==> stages <= layers && stages < 1
    ensures Shards(layers, stages) == Err(NoStrategy) <==>
      3 <= stages <= layers && forall m: nat :: !(m * (stages - 2) <= layers - 2 && layers <= m * stages)
  {
    if 3 <= stages <= layers {
      var c := Arith.CeilDiv(layers, stages);
      CeilBounds(layers, stages);
      forall m: nat | m * (stages - 2) <= layers - 2 && layers <= m * stages ensures Divides(layers, stages) {
        ViableExactly(layers, stages, m);
        CeilIsFirst(layers, stages, m);
        ViableExactly(layers, stages, c);
      }
    }
  }

  /** Five layers on four stages is a request the search cannot serve, although every stage could
      have a layer. */
  lemma FiveOnFour()
    ensures Shards(5, 4) == Err(NoStrategy) && Sum([1, 1, 1, 2]) == 5
  {
    SumConcat([1, 1], [1, 2]);
    assert [1, 1] + [1, 2] == [1, 1, 1, 2];
    SumConcat([1], [1]);
    SumConcat([1], [2]);
    assert [1] + [1] == [1, 1] && [1] + [2] == [1, 2];
    SumOne(1);
    SumOne(2);
  }
}
