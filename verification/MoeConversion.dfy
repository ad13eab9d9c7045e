/** Converting a mixture-of-experts model: which rank copies which expert of which layer, and the
    element counts that the converter checks. */
module MoeConversion {
  import opened Wrappers
  import Arith
  import PipelineShards

  // ---- Ownership ---------------------------------------------------------------------------

  /** Expert-parallel rank `rank` of `ep` copies expert `e` of `experts`. */
  predicate Owns(e: nat, experts: nat, rank: nat, ep: nat)
    requires ep > 0
  {
    rank * (experts / ep) <= e < (rank + 1) * (experts / ep)
  }

  /** The first layer of pipeline stage `p`. */
  function Start(shards: seq<int>, p: nat): int
    requires p <= |shards|
  {
    PipelineShards.Sum(shards[..p])
  }

  /** Rank (`p`, `rank`) copies expert `e` of layer `l`. */
  predicate Copies(shards: seq<int>, experts: nat, ep: nat, l: nat, e: nat, p: nat, rank: nat)
    requires ep > 0
  {
    && p < |shards| && rank < ep
    && Start(shards, p) <= l < Start(shards, p + 1) && Owns(e, experts, rank, ep)
  }

  ghost predicate Copied(shards: seq<int>, experts: nat, ep: nat, l: nat, e: nat)
    requires ep > 0
  {
    exists p: nat, rank: nat :: Copies(shards, experts, ep, l, e, p, rank)
  }

  lemma OwnerIsQuotient(e: nat, experts: nat, rank: nat, ep: nat)
    requires ep > 0
    ensures Owns(e, experts, rank, ep) <==> experts / ep > 0 && rank == e / (experts / ep)
  {
    var local := experts / ep;
    assert (rank + 1) * local == rank * local + local;
    if local > 0 {
      if Owns(e, experts, rank, ep) {
        Arith.DivUnique(e, local, rank, e - rank * local);
      }
    }
  }

  lemma Covered(e: nat, experts: nat, ep: nat)
    requires ep > 0 && experts % ep == 0 && e < experts
    ensures experts / ep > 0 && e / (experts / ep) < ep
  {
  }

  /** The last expert is owned by some rank only if none is left over. */
  lemma LastOwned(experts: nat, rank: nat, ep: nat)
    requires ep > 0 && rank < ep && experts > 0 && Owns(experts - 1, experts, rank, ep)
    ensures experts % ep == 0
  {
    var local := experts / ep;
    Arith.MulOrder(rank + 1, ep, local);
    assert experts == ep * local + experts % ep;
  }

  lemma {:induction false} StartsGrow(shards: seq<int>, p: nat, q: nat)
    requires p <= q <= |shards| && forall i :: 0 <= i < |shards| ==> shards[i] >= 0
    ensures Start(shards, p) <= Start(shards, q)
    decreases q
  {
    if p < q {
      StartsGrow(shards, p, q - 1);
      assert shards[..q][..q - 1] == shards[..q - 1];
    }
  }

  /** The stage that holds a layer. */
  lemma {:induction false} StageOf(shards: seq<int>, l: nat, n: nat) returns (p: nat)
    requires n <= |shards| && l < Start(shards, n)
    ensures p < n && Start(shards, p) <= l < Start(shards, p + 1)
  {
    if n == 0 {
      assert false;
    } else if l < Start(shards, n - 1) {
      p := StageOf(shards, l, n - 1);
    } else {
      p := n - 1;
    }
  }

  lemma StageUnique(shards: seq<int>, l: nat, p: nat, q: nat)
    requires p < |shards| && q < |shards| && forall i :: 0 <= i < |shards| ==> shards[i] >= 0
    requires Start(shards, p) <= l < Start(shards, p + 1)
    requires Start(shards, q) <= l < Start(shards, q + 1)
    ensures p == q
  {
    if p < q {
      StartsGrow(shards, p + 1, q);
    } else if q < p {
      StartsGrow(shards, q + 1, p);
    }
  }

  /** No expert of any layer is copied twice, whatever the sizes. */
  lemma AtMostOneRank(shards: seq<int>, experts: nat, ep: nat, l: nat, e: nat, p: nat, r: nat, q: nat, s: nat)
    requires ep > 0 && forall i :: 0 <= i < |shards| ==> shards[i] >= 0
    requires Copies(shards, experts, ep, l, e, p, r) && Copies(shards, experts, ep, l, e, q, s)
    ensures p == q && r == s
  {
    StageUnique(shards, l, p, q);
    OwnerIsQuotient(e, experts, r, ep);
    OwnerIsQuotient(e, experts, s, ep);
  }

  /** Every expert of every layer is copied by some rank exactly when the expert-parallel size
      divides the number of experts. */
  lemma AllCopiedExactly(shards: seq<int>, layers: nat, experts: nat, ep: nat)
    requires ep > 0 && layers > 0 && PipelineShards.Sum(shards) == layers
    ensures experts % ep == 0
      <==> forall l: nat, e: nat :: l < layers && e < experts ==> Copied(shards, experts, ep, l, e)
  {
    assert shards[..|shards|] == shards;
    if experts % ep == 0 {
      forall l: nat, e: nat | l < layers && e < experts ensures Copied(shards, experts, ep, l, e) {
        var p := StageOf(shards, l, |shards|);
        Covered(e, experts, ep);
        OwnerIsQuotient(e, experts, e / (experts / ep), ep);
        assert Copies(shards, experts, ep, l, e, p, e / (experts / ep));
      }
    } else if Copied(shards, experts, ep, 0, experts - 1) {
      var p: nat, r: nat :| Copies(shards, experts, ep, 0, experts - 1, p, r);
      LastOwned(experts, r, ep);
      assert false;
    }
  }

  // ---- Element counts ------------------------------------------------------------------------

  /** A layer with the number of elements in everything but its routed experts. */
  datatype Layer =
    | Dense(rest: nat)
    | Moe(rest: nat)

  datatype ConvertError = Unbound | Mismatch

  /** The elements of `n` experts; each of the three matrices of an expert has `w`. */
  function ExpertElements(w: nat, n: nat): nat {
    3 * w * n
  }

  /** Elements of a layer of the source model. */
  function HfSize(l: Layer, w: nat, experts: nat): nat {
    match l
    case Dense(rest) => rest
    case Moe(rest) => rest + ExpertElements(w, experts)
  }

  /** Elements that one expert-parallel rank copies. */
  function CopiedSize(l: Layer, w: nat, experts: nat, ep: nat): nat
    requires ep > 0
  {
    HfSize(l, w, experts / ep)
  }

  /** What the check after a layer with experts expects, with the precedence of the program's
      expression; `w2` is the size of the last matrix copied. */
  function Expected(rest: nat, w2: nat, w: nat, experts: nat, ep: nat): int
    requires ep > 0
  {
    rest + ExpertElements(w, experts) - (w2 * 3 * experts / ep) * (ep - 1)
  }

  predicate CheckPasses(rest: nat, w: nat, experts: nat, ep: nat)
    requires ep > 0
  {
    CopiedSize(Moe(rest), w, experts, ep) == Expected(rest, w, w, experts, ep)
  }

  function Converted(layers: seq<Layer>, w: nat, experts: nat, ep: nat, grouped: bool): Result<nat, ConvertError>
    requires ep > 0
  {
    if layers == [] then Ok(0)
    else
      var n := |layers| - 1;
      match Converted(layers[..n], w, experts, ep, grouped)
      case Err(e) => Err(e)
      case Ok(before) =>
        if layers[n].Dense? then Ok(before + layers[n].rest)
        else if !grouped || experts / ep == 0 then Err(Unbound)
        else if !CheckPasses(layers[n].rest, w, experts, ep) then Err(Mismatch)
        else Ok(before + CopiedSize(layers[n], w, experts, ep))
  }

  /** The experts a rank copies, in the order of its local slots. */
  function Slots(experts: nat, rank: nat, ep: nat): seq<nat>
    requires ep > 0
  {
    seq(experts / ep, j requires 0 <= j < experts / ep => rank * (experts / ep) + j)
  }

  /** The loop over the experts of one layer: copy the owned ones, add up their elements and
      remember the size of the last matrix copied. */
  method CopyExperts(w: nat, experts: nat, rank: nat, ep: nat)
    returns (slots: seq<nat>, numel: nat, last: Option<nat>)
    requires rank < ep
    ensures slots == Slots(experts, rank, ep) && numel == ExpertElements(w, experts / ep)
    ensures last == if experts / ep == 0 then None else Some(w)
  {
    var local := experts / ep;
    var first, end := rank * local, (rank + 1) * local;
    slots, numel, last := [], 0, None;
    Arith.MulOrder(rank + 1, ep, local);
    assert end == first + local <= experts;
    for e := 0 to experts
      invariant |slots| == if e < first then 0 else if e < end then e - first else local
      invariant forall j :: 0 <= j < |slots| ==> slots[j] == first + j
      invariant numel == 3 * w * |slots|
      invariant last == if |slots| == 0 then None else Some(w)
    {
      if first <= e < end {
        slots := slots + [e];
        numel := numel + 2 * w;
        last := Some(w);
        numel := numel + w;
        assert 3 * w * |slots| == 3 * w * (|slots| - 1) + 3 * w;
      }
    }
  }

  method ConvertLayers(layers: seq<Layer>, w: nat, experts: nat, rank: nat, ep: nat, grouped: bool)
    returns (r: Result<nat, ConvertError>)
    requires rank < ep
    ensures r == Converted(layers, w, experts, ep, grouped)
  {
    hide Expected, ExpertElements;
    var numel: nat := 0;
    var last: Option<nat> := None;
    for i := 0 to |layers|
      invariant Converted(layers[..i], w, experts, ep, grouped) == Ok(numel)
      invariant last.Some? ==> last == Some(w) && grouped && experts / ep > 0
    {
      assert layers[..i + 1][..i] == layers[..i];
      var layer := layers[i];
      var before := numel;
      numel := numel + layer.rest;
      if layer.Moe? {
        if grouped {
          var _, copied, w2 := CopyExperts(w, experts, rank, ep);
          numel := numel + copied;
          if w2.Some? {
            last := w2;
          }
        } else {
          numel := numel + ExpertElements(w, experts);
        }
        if last.None? {
          ErrorStays(layers, i + 1, w, experts, ep, grouped);
          return Err(Unbound);
        }
        if numel - before != Expected(layer.rest, last.value, w, experts, ep) {
          ErrorStays(layers, i + 1, w, experts, ep, grouped);
          return Err(Mismatch);
        }
      }
    }
    assert layers[..|layers|] == layers;
    r := Ok(numel);
  }

  lemma {:induction false} ErrorStays(layers: seq<Layer>, i: nat, w: nat, experts: nat, ep: nat, grouped: bool)
    requires ep > 0 && i <= |layers| && Converted(layers[..i], w, experts, ep, grouped).Err?
    ensures Converted(layers, w, experts, ep, grouped) == Converted(layers[..i], w, experts, ep, grouped)
    decreases |layers|
  {
    if i < |layers| {
      var front := layers[..|layers| - 1];
      assert front[..i] == layers[..i];
      ErrorStays(front, i, w, experts, ep, grouped);
    } else {
      assert layers[..i] == layers;
    }
  }

  /** The local slots of a rank hold exactly the experts it owns, each in one slot. */
  lemma SlotsExactly(experts: nat, rank: nat, ep: nat, e: nat)
    requires rank < ep
    ensures e in Slots(experts, rank, ep) <==> Owns(e, experts, rank, ep)
    ensures e in Slots(experts, rank, ep) ==> e < experts
    ensures forall i, j :: 0 <= i < j < |Slots(experts, rank, ep)| ==>
      Slots(experts, rank, ep)[i] != Slots(experts, rank, ep)[j]
  {
    var first, local, slots := rank * (experts / ep), experts / ep, Slots(experts, rank, ep);
    Arith.MulOrder(rank + 1, ep, local);
    assert (rank + 1) * local == first + local <= experts;
    if first <= e < first + local {
      assert slots[e - first] == e;
    }
  }

  lemma QuotientParts(w: nat, experts: nat, ep: nat)
    requires ep > 0
    ensures var x, y := ExpertElements(w, experts), ExpertElements(w, experts % ep);
      x / ep == ExpertElements(w, experts / ep) + y / ep && x % ep == y % ep
  {
    var e, s := experts / ep, experts % ep;
    Spread(w, experts, e, ep, s);
    var x, y := w * 3 * experts, w * 3 * s;
    assert x == (w * 3 * e + y / ep) * ep + y % ep;
    Arith.DivUnique(x, ep, w * 3 * e + y / ep, y % ep);
  }

  lemma Spread(w: nat, experts: nat, e: nat, ep: nat, s: nat)
    requires experts == e * ep + s
    ensures w * 3 * experts == (w * 3 * e) * ep + w * 3 * s
  {
  }

  lemma CheckIs(rest: nat, w: nat, experts: nat, ep: nat)
    requires ep > 0
    ensures var x := ExpertElements(w, experts);
      CheckPasses(rest, w, experts, ep) <==> ExpertElements(w, experts / ep) == x - (x / ep) * (ep - 1)
  {
  }

  /** The element check holds exactly when the expert-parallel size divides the experts, or the
      matrices are empty. */
  lemma CheckExactly(rest: nat, w: nat, experts: nat, ep: nat)
    requires ep > 0
    ensures CheckPasses(rest, w, experts, ep) <==> w == 0 || experts % ep == 0
  {
    hide *;
    CheckIs(rest, w, experts, ep);
    QuotientParts(w, experts, ep);
    Remains(CheckPasses(rest, w, experts, ep), ExpertElements(w, experts),
            ExpertElements(w, experts % ep), ExpertElements(w, experts / ep), ep);
    NoProduct(w, experts % ep);
  }

  lemma Remains(passes: bool, x: nat, y: nat, copied: nat, ep: nat)
    requires ep > 0 && x / ep == copied + y / ep && x % ep == y % ep
    requires passes <==> copied == x - (x / ep) * (ep - 1)
    ensures passes <==> y == 0
  {
  }

  lemma NoProduct(w: nat, s: nat)
    ensures ExpertElements(w, s) == 0 <==> w == 0 || s == 0
  {
  }

  ghost predicate SomeMoe(layers: seq<Layer>) {
    exists i :: 0 <= i < |layers| && layers[i].Moe?
  }

  function SumCopied(layers: seq<Layer>, w: nat, experts: nat, ep: nat): nat
    requires ep > 0
  {
    if layers == [] then 0
    else SumCopied(layers[..|layers| - 1], w, experts, ep) + CopiedSize(layers[|layers| - 1], w, experts, ep)
  }

  /** A rank's share converts, with the count of what it copies, exactly when there is no layer
      with experts, or grouped weights are used and the ranks divide the experts evenly and
      each gets one. */
  lemma {:induction false} ConvertsExactly(layers: seq<Layer>, w: nat, experts: nat, ep: nat, grouped: bool)
    requires ep > 0
    ensures Converted(layers, w, experts, ep, grouped).Ok?
      <==> !SomeMoe(layers) || (grouped && ep <= experts && (w == 0 || experts % ep == 0))
    ensures Converted(layers, w, experts, ep, grouped).Ok?
      ==> Converted(layers, w, experts, ep, grouped).value == SumCopied(layers, w, experts, ep)
  {
    if layers != [] {
      var n := |layers| - 1;
      ConvertsExactly(layers[..n], w, experts, ep, grouped);
      OneLocal(experts, ep);
      assert SomeMoe(layers) <==> SomeMoe(layers[..n]) || layers[n].Moe?;
      if layers[n].Moe? {
        CheckExactly(layers[n].rest, w, experts, ep);
      }
    }
  }

  lemma OneLocal(experts: nat, ep: nat)
    requires ep > 0
    ensures experts / ep == 0 <==> experts < ep
  {
  }

  // ---- Totals over all ranks -------------------------------------------------------------------

  /** What the ends of the model hold besides layers. */
  datatype Ends = Ends(embedding: nat, norm: nat, head: nat)

  /** The layers of stage `p`. */
  function Share(layers: seq<Layer>, shards: seq<int>, p: nat): seq<Layer>
    requires p < |shards| && 0 <= Start(shards, p) <= Start(shards, p + 1) <= |layers|
  {
    layers[Start(shards, p)..Start(shards, p + 1)]
  }

  ghost predicate Partition(layers: seq<Layer>, shards: seq<int>) {
    shards != [] && (forall i :: 0 <= i < |shards| ==> shards[i] >= 0) && PipelineShards.Sum(shards) == |layers|
  }

  lemma ShareBounds(layers: seq<Layer>, shards: seq<int>, p: nat)
    requires Partition(layers, shards) && p < |shards|
    ensures 0 <= Start(shards, p) <= Start(shards, p + 1) <= |layers|
  {
    StartsGrow(shards, 0, p);
    StartsGrow(shards, p, p + 1);
    StartsGrow(shards, p + 1, |shards|);
    assert shards[..|shards|] == shards;
  }

  /** Elements that the ranks of stage `p` count, each. */
  ghost function StageCount(
    layers: seq<Layer>, shards: seq<int>, ends: Ends, w: nat, experts: nat, ep: nat, p: nat): nat
    requires ep > 0 && Partition(layers, shards) && p < |shards|
  {
    ShareBounds(layers, shards, p);
    (if p == 0 then ends.embedding else 0) + SumCopied(Share(layers, shards, p), w, experts, ep)
      + (if p == |shards| - 1 then ends.norm + ends.head else 0)
  }

  /** The sum over the stages below `p`, for one expert-parallel rank. */
  ghost function StageCounts(
    layers: seq<Layer>, shards: seq<int>, ends: Ends, w: nat, experts: nat, ep: nat, p: nat): nat
    requires ep > 0 && Partition(layers, shards) && p <= |shards|
  {
    if p == 0 then 0
    else
      StageCounts(layers, shards, ends, w, experts, ep, p - 1)
      + StageCount(layers, shards, ends, w, experts, ep, p - 1)
  }

  lemma {:induction false} SumCopiedConcat(a: seq<Layer>, b: seq<Layer>, w: nat, experts: nat, ep: nat)
    requires ep > 0
    ensures SumCopied(a + b, w, experts, ep) == SumCopied(a, w, experts, ep) + SumCopied(b, w, experts, ep)
  {
    if b == [] {
      assert a + b == a;
    } else {
      SumCopiedConcat(a, b[..|b| - 1], w, experts, ep);
      assert (a + b)[..|a + b| - 1] == a + b[..|b| - 1];
    }
  }

  lemma NoLayers(layers: seq<Layer>, w: nat, experts: nat, ep: nat)
    requires ep > 0
    ensures SumCopied(layers[..0], w, experts, ep) == 0
  {
  }

  lemma {:induction false} StagesAdd(
    layers: seq<Layer>, shards: seq<int>, ends: Ends, w: nat, experts: nat, ep: nat, p: nat)
    requires ep > 0 && Partition(layers, shards) && p <= |shards|
    ensures 0 <= Start(shards, p) <= |layers|
    ensures StageCounts(layers, shards, ends, w, experts, ep, p)
      == (if p > 0 then ends.embedding else 0) + SumCopied(layers[..Start(shards, p)], w, experts, ep)
         + (if p == |shards| then ends.norm + ends.head else 0)
  {
    hide SumCopied;
    if p > 0 {
      StagesAdd(layers, shards, ends, w, experts, ep, p - 1);
      ShareBounds(layers, shards, p - 1);
      var mid, end := Start(shards, p - 1), Start(shards, p);
      assert layers[..end] == layers[..mid] + layers[mid..end];
      SumCopiedConcat(layers[..mid], layers[mid..end], w, experts, ep);
    } else {
      NoLayers(layers, w, experts, ep);
    }
  }

  /** Elements outside the routed experts, and inside them. */
  function Rests(layers: seq<Layer>): nat {
    if layers == [] then 0 else Rests(layers[..|layers| - 1]) + layers[|layers| - 1].rest
  }

  function MoeLayers(layers: seq<Layer>): nat {
    if layers == [] then 0
    else MoeLayers(layers[..|layers| - 1]) + (if layers[|layers| - 1].Moe? then 1 else 0)
  }

  lemma {:induction false} SumCopiedIs(layers: seq<Layer>, w: nat, experts: nat, ep: nat)
    requires ep > 0
    ensures SumCopied(layers, w, experts, ep) == Rests(layers) + MoeLayers(layers) * (3 * w * (experts / ep))
  {
    if layers != [] {
      SumCopiedIs(layers[..|layers| - 1], w, experts, ep);
      Arith.MulStep(MoeLayers(layers), 3 * w * (experts / ep));
    }
  }

  /** The element count of the whole source model. */
  function ModelTotal(layers: seq<Layer>, ends: Ends, w: nat, experts: nat): nat {
    ends.embedding + SumCopied(layers, w, experts, 1) + ends.norm + ends.head
  }

  /** The counts of all pipeline stages, summed over all `ep` expert-parallel ranks as well, agree
      with the model exactly when there is one expert-parallel rank or nothing but experts: every
      rank counts its own copy of everything else. */
  lemma TotalsAgreeExactly(layers: seq<Layer>, shards: seq<int>, ends: Ends, w: nat, experts: nat, ep: nat)
    requires ep > 0 && experts % ep == 0 && Partition(layers, shards)
    ensures ep * StageCounts(layers, shards, ends, w, experts, ep, |shards|) == ModelTotal(layers, ends, w, experts)
      <==> ep == 1 || ends.embedding + Rests(layers) + ends.norm + ends.head == 0
  {
    StagesAdd(layers, shards, ends, w, experts, ep, |shards|);
    assert shards[..|shards|] == shards && layers[..|layers|] == layers;
    SumCopiedIs(layers, w, experts, ep);
    SumCopiedIs(layers, w, experts, 1);
    AllRanks(ends.embedding + Rests(layers) + ends.norm + ends.head, MoeLayers(layers), w, experts, ep);
  }

  lemma AllRanks(outside: nat, moe: nat, w: nat, experts: nat, ep: nat)
    requires ep > 0 && experts % ep == 0
    ensures ep * (outside + moe * (3 * w * (experts / ep))) == outside + moe * (3 * w * (experts / 1))
      <==> ep == 1 || outside == 0
  {
  }
}
