/** The fused attention weight: the converter interleaves query, key and value rows per query
    group, tensor parallelism cuts the result into row shards, and the merger takes the shards
    apart again. */
module QkvLayout {
  import opened Wrappers
  import opened Slices
  import Arith

  datatype Qkv<T> = Qkv(q: seq<T>, k: seq<T>, v: seq<T>)

  datatype MergeError = HeadsUneven | RowsUneven | NoGroupPerRank | SplitMismatch

  // ---- Converter -------------------------------------------------------------------------

  predicate Shaped<T>(w: Qkv<T>, groups: nat, perQ: nat, perKv: nat) {
    |w.q| == groups * perQ && |w.k| == groups * perKv && |w.v| == groups * perKv
  }

  /** `qs[g] + ks[g] + vs[g]` for every group. */
  function Zip<T>(qs: seq<seq<T>>, ks: seq<seq<T>>, vs: seq<seq<T>>): (r: seq<seq<T>>)
    requires |qs| == |ks| == |vs|
    ensures |r| == |qs| && forall g :: 0 <= g < |r| ==> r[g] == qs[g] + ks[g] + vs[g]
  {
    seq(|qs|, g requires 0 <= g < |qs| => qs[g] + ks[g] + vs[g])
  }

  lemma Viewed<T>(rows: seq<T>, groups: nat, size: nat)
    requires size > 0 && |rows| == groups * size
    ensures |Pieces(rows, size)| == groups && Uniform(Pieces(rows, size), size)
  {
    Arith.MulDiv(groups, size);
    PieceCount(rows, size);
  }

  /** View each of q, k and v as one block of rows per key-value head, and put the blocks of
      each head together. */
  function Blocks<T>(w: Qkv<T>, groups: nat, perQ: nat, perKv: nat): seq<seq<T>>
    requires perQ > 0 && perKv > 0 && Shaped(w, groups, perQ, perKv)
  {
    Viewed(w.q, groups, perQ);
    Viewed(w.k, groups, perKv);
    Viewed(w.v, groups, perKv);
    Zip(Pieces(w.q, perQ), Pieces(w.k, perKv), Pieces(w.v, perKv))
  }

  function Interleave<T>(w: Qkv<T>, groups: nat, perQ: nat, perKv: nat): seq<T>
    requires perQ > 0 && perKv > 0 && Shaped(w, groups, perQ, perKv)
  {
    Flatten(Blocks(w, groups, perQ, perKv))
  }

  // ---- Merger ----------------------------------------------------------------------------

  /** `Tensor.chunk`: pieces of the rounded-up size; an empty tensor gives n empty pieces. */
  function Chunk<T>(rows: seq<T>, n: nat): seq<seq<T>>
    requires n > 0
  {
    var size := Arith.CeilDiv(|rows|, n);
    if size == 0 then seq(n, _ => []) else Pieces(rows, size)
  }

  function ChunksOf<T>(shards: seq<seq<T>>, n: nat): seq<seq<T>>
    requires n > 0
  {
    if shards == [] then [] else Chunk(shards[0], n) + ChunksOf(shards[1..], n)
  }

  /** The rows `from..to` of every chunk. */
  function Cuts<T>(chunks: seq<seq<T>>, from: nat, to: nat): (r: seq<seq<T>>)
    requires from <= to && forall i :: 0 <= i < |chunks| ==> to <= |chunks[i]|
    ensures |r| == |chunks| && forall i :: 0 <= i < |r| ==> r[i] == chunks[i][from..to]
  {
    seq(|chunks|, i requires 0 <= i < |chunks| => chunks[i][from..to])
  }

  function SplitAll<T>(chunks: seq<seq<T>>, a: nat, b: nat): Result<Qkv<T>, MergeError> {
    if Uniform(chunks, a + b + b) then
      Ok(Qkv(Flatten(Cuts(chunks, 0, a)), Flatten(Cuts(chunks, a, a + b)), Flatten(Cuts(chunks, a + b, a + b + b))))
    else Err(SplitMismatch)
  }

  /** Query rows, and key (or value) rows, that the merger expects in each chunk of a shard. */
  function QSplit(rows: nat, perKv: nat, groups: nat): nat
    requires groups > 0
  {
    rows / (perKv + 2) * perKv / groups
  }

  function KvSplit(rows: nat, perKv: nat, groups: nat): nat
    requires groups > 0
  {
    rows / (perKv + 2) / groups
  }

  /** What the merge of the shards of one fused weight amounts to. */
  function MergedQkv<T>(shards: seq<seq<T>>, heads: nat, kvHeads: nat): Result<Qkv<T>, MergeError>
    requires shards != [] && kvHeads > 0
  {
    var perKv := heads / kvHeads;
    if heads % kvHeads != 0 then Err(HeadsUneven)
    else if |shards[0]| % (perKv + 2) != 0 then Err(RowsUneven)
    else
      var groups := kvHeads / |shards|;
      if groups == 0 then Err(NoGroupPerRank)
      else SplitAll(ChunksOf(shards, groups), QSplit(|shards[0]|, perKv, groups), KvSplit(|shards[0]|, perKv, groups))
  }

  /** What the three lists hold once the chunks `done` have been split. */
  ghost predicate Collected<T>(w: Qkv<T>, done: seq<seq<T>>, a: nat, b: nat) {
    Uniform(done, a + b + b) && SplitAll(done, a, b) == Ok(w)
  }

  method MergeQkv<T>(shards: seq<seq<T>>, heads: nat, kvHeads: nat) returns (r: Result<Qkv<T>, MergeError>)
    requires shards != [] && kvHeads > 0
    ensures r == MergedQkv(shards, heads, kvHeads)
  {
    hide SplitAll, ChunksOf;
    if heads % kvHeads != 0 {
      return Err(HeadsUneven);
    }
    var perKv := heads / kvHeads;
    if |shards[0]| % (perKv + 2) != 0 {
      return Err(RowsUneven);
    }
    var kv := |shards[0]| / (perKv + 2);
    var groups := kvHeads / |shards|;
    if groups == 0 {
      return Err(NoGroupPerRank);
    }
    r := CollectSplits(shards, groups, kv * perKv / groups, kv / groups);
  }

  /** The two nested loops that append to the three lists. */
  method CollectSplits<T>(shards: seq<seq<T>>, groups: nat, a: nat, b: nat) returns (r: Result<Qkv<T>, MergeError>)
    requires groups > 0
    ensures r == SplitAll(ChunksOf(shards, groups), a, b)
  {
    hide *;
    var q, k, v := [], [], [];
    ghost var done: seq<seq<T>> := [];
    NothingCollected<T>(a, b);
    for t := 0 to |shards|
      invariant ChunksOf(shards, groups) == done + ChunksOf(shards[t..], groups)
      invariant Collected(Qkv(q, k, v), done, a, b)
    {
      NextShard(shards, t, groups);
      var chunks := Chunk(shards[t], groups);
      ghost var rest := ChunksOf(shards[t + 1..], groups);
      for c := 0 to |chunks|
        invariant ChunksOf(shards, groups) == done + chunks[c..] + rest
        invariant Collected(Qkv(q, k, v), done, a, b)
      {
        var chunk := chunks[c];
        Regroup(done, chunks, c, rest);
        if |chunk| != a + b + b {
          NotUniform(ChunksOf(shards, groups), |done|, a, b);
          return Err(SplitMismatch);
        }
        CollectOne(Qkv(q, k, v), done, chunk, a, b);
        done := done + [chunk];
        q, k, v := q + chunk[..a], k + chunk[a..a + b], v + chunk[a + b..];
      }
    }
    LastShard(shards, groups);
    assert done == ChunksOf(shards, groups);
    AllCollected(Qkv(q, k, v), done, a, b);
    r := Ok(Qkv(q, k, v));
  }

  lemma Regroup<T>(done: seq<T>, chunks: seq<T>, c: nat, rest: seq<T>)
    requires c < |chunks|
    ensures done + chunks[c..] + rest == (done + [chunks[c]]) + chunks[c + 1..] + rest
    ensures (done + chunks[c..] + rest)[|done|] == chunks[c]
  {
  }

  lemma NothingCollected<T>(a: nat, b: nat)
    ensures Collected<T>(Qkv([], [], []), [], a, b)
  {
  }

  lemma AllCollected<T>(w: Qkv<T>, done: seq<seq<T>>, a: nat, b: nat)
    requires Collected(w, done, a, b)
    ensures SplitAll(done, a, b) == Ok(w)
  {
  }

  lemma NextShard<T>(shards: seq<seq<T>>, t: nat, groups: nat)
    requires t < |shards| && groups > 0
    ensures ChunksOf(shards[t..], groups) == Chunk(shards[t], groups) + ChunksOf(shards[t + 1..], groups)
  {
  }

  lemma LastShard<T>(shards: seq<seq<T>>, groups: nat)
    requires groups > 0
    ensures ChunksOf(shards[|shards|..], groups) == []
  {
  }

  lemma NotUniform<T>(chunks: seq<seq<T>>, i: nat, a: nat, b: nat)
    requires i < |chunks| && |chunks[i]| != a + b + b
    ensures SplitAll(chunks, a, b) == Err(SplitMismatch)
  {
  }

  lemma CollectOne<T>(w: Qkv<T>, done: seq<seq<T>>, chunk: seq<T>, a: nat, b: nat)
    requires Collected(w, done, a, b) && |chunk| == a + b + b
    ensures Collected(Qkv(w.q + chunk[..a], w.k + chunk[a..a + b], w.v + chunk[a + b..]), done + [chunk], a, b)
  {
    hide Flatten;
    CutAppend(done, chunk, 0, a);
    CutAppend(done, chunk, a, a + b);
    CutAppend(done, chunk, a + b, a + b + b);
    assert chunk[0..a] == chunk[..a] && chunk[a + b..a + b + b] == chunk[a + b..];
  }

  lemma CutAppend<T>(chunks: seq<seq<T>>, chunk: seq<T>, from: nat, to: nat)
    requires from <= to && to <= |chunk| && forall i :: 0 <= i < |chunks| ==> to <= |chunks[i]|
    ensures Flatten(Cuts(chunks + [chunk], from, to)) == Flatten(Cuts(chunks, from, to)) + chunk[from..to]
  {
    assert Cuts(chunks + [chunk], from, to) == Cuts(chunks, from, to) + [chunk[from..to]];
    FlattenAppend(Cuts(chunks, from, to), chunk[from..to]);
  }

  // ---- Chunks of shards are the groups ------------------------------------------------------

  lemma ChunkExact<T>(rows: seq<T>, n: nat, size: nat)
    requires n > 0 && size > 0 && |rows| == n * size
    ensures Chunk(rows, n) == Pieces(rows, size)
  {
    assert |rows| + n - 1 == size * n + (n - 1);
    Arith.DivUnique(|rows| + n - 1, n, size, n - 1);
  }

  /** Cutting into shards of n groups each and chunking every shard gives the groups. */
  lemma {:induction false} ChunksOfShards<T>(rows: seq<T>, shard: nat, n: nat, size: nat)
    requires n > 0 && size > 0 && shard == n * size && |rows| % shard == 0
    ensures ChunksOf(Pieces(rows, shard), n) == Pieces(rows, size)
    decreases |rows|
  {
    if rows != [] {
      if |rows| < shard {
        Arith.DivUnique(|rows|, shard, 0, |rows|);
      }
      var first, rest := rows[..shard], rows[shard..];
      PeelOne(|rows|, shard);
      ChunksOfShards(rest, shard, n, size);
      FirstPiece(rows, shard);
      ChunkExact(first, n, size);
      Arith.MulDiv(n, size);
      PiecesConcat(first, rest, size);
      assert first + rest == rows;
    }
  }

  // ---- Round trip ---------------------------------------------------------------------------

  /** Splitting the groups of an interleaved weight gives the weight back. */
  lemma SplitGroups<T>(w: Qkv<T>, groups: nat, a: nat, b: nat)
    requires a > 0 && b > 0 && Shaped(w, groups, a, b)
    ensures Pieces(Interleave(w, groups, a, b), a + b + b) == Blocks(w, groups, a, b)
    ensures SplitAll(Blocks(w, groups, a, b), a, b) == Ok(w)
  {
    Viewed(w.q, groups, a);
    Viewed(w.k, groups, b);
    Viewed(w.v, groups, b);
    PiecesFlatten(Blocks(w, groups, a, b), a + b + b);
    FlattenPieces(w.q, a);
    FlattenPieces(w.k, b);
    FlattenPieces(w.v, b);
    hide Pieces, Flatten;
    ZipSplits(Pieces(w.q, a), Pieces(w.k, b), Pieces(w.v, b), a, b);
  }

  lemma ZipSplits<T>(qs: seq<seq<T>>, ks: seq<seq<T>>, vs: seq<seq<T>>, a: nat, b: nat)
    requires |qs| == |ks| == |vs| && Uniform(qs, a) && Uniform(ks, b) && Uniform(vs, b)
    ensures SplitAll(Zip(qs, ks, vs), a, b) == Ok(Qkv(Flatten(qs), Flatten(ks), Flatten(vs)))
  {
    hide Flatten;
    var blocks := Zip(qs, ks, vs);
    forall g | 0 <= g < |blocks|
      ensures blocks[g][0..a] == qs[g] && blocks[g][a..a + b] == ks[g] && blocks[g][a + b..a + b + b] == vs[g]
    {
      BlockCuts(qs[g], ks[g], vs[g]);
    }
    assert Cuts(blocks, 0, a) == qs;
    assert Cuts(blocks, a, a + b) == ks;
    assert Cuts(blocks, a + b, a + b + b) == vs;
  }

  lemma BlockCuts<T>(q: seq<T>, k: seq<T>, v: seq<T>)
    ensures var block, a, b := q + k + v, |q|, |q| + |k|;
      block[0..a] == q && block[a..b] == k && block[b..b + |v|] == v
  {
  }

  lemma InterleavedLength<T>(w: Qkv<T>, groups: nat, a: nat, b: nat)
    requires a > 0 && b > 0 && Shaped(w, groups, a, b)
    ensures |Interleave(w, groups, a, b)| == groups * (a + b + b)
  {
    Viewed(w.q, groups, a);
    Viewed(w.k, groups, b);
    Viewed(w.v, groups, b);
    FlattenLength(Blocks(w, groups, a, b), a + b + b);
  }

  /** Group g of the interleaved weight: its query rows, then its key rows, then its value rows. */
  lemma InterleavedGroup<T>(w: Qkv<T>, groups: nat, a: nat, b: nat, g: nat)
    requires a > 0 && b > 0 && Shaped(w, groups, a, b) && g < groups
    ensures g * a + a <= |w.q| && g * b + b <= |w.k| && g * (a + b + b) + (a + b + b) <= |Interleave(w, groups, a, b)|
    ensures Interleave(w, groups, a, b)[g * (a + b + b)..g * (a + b + b) + (a + b + b)]
      == w.q[g * a..g * a + a] + w.k[g * b..g * b + b] + w.v[g * b..g * b + b]
  {
    hide *;
    InterleavedLength(w, groups, a, b);
    SplitGroups(w, groups, a, b);
    SizesOf(w, groups, a, b);
    GroupPlace(Interleave(w, groups, a, b), groups, a + b + b, g);
    GroupPlace(w.q, groups, a, g);
    GroupPlace(w.k, groups, b, g);
    GroupPlace(w.v, groups, b, g);
    BlockOf(w, groups, a, b, g);
  }

  lemma SizesOf<T>(w: Qkv<T>, groups: nat, a: nat, b: nat)
    requires Shaped(w, groups, a, b)
    ensures |w.q| == groups * a && |w.k| == groups * b && |w.v| == groups * b
  {
  }

  lemma GroupPlace<T>(rows: seq<T>, groups: nat, size: nat, g: nat)
    requires size > 0 && |rows| == groups * size && g < groups
    ensures g * size + size <= |rows|
    ensures g < |Pieces(rows, size)| && Pieces(rows, size)[g] == rows[g * size..g * size + size]
  {
    Arith.MulGap(g, groups, size);
    PieceAt(rows, size, g);
  }

  lemma BlockOf<T>(w: Qkv<T>, groups: nat, a: nat, b: nat, g: nat)
    requires a > 0 && b > 0 && Shaped(w, groups, a, b) && g < groups
    requires g < |Pieces(w.q, a)| && g < |Pieces(w.k, b)| && g < |Pieces(w.v, b)|
    ensures g < |Blocks(w, groups, a, b)|
    ensures Blocks(w, groups, a, b)[g] == Pieces(w.q, a)[g] + Pieces(w.k, b)[g] + Pieces(w.v, b)[g]
  {
    Viewed(w.q, groups, a);
    Viewed(w.k, groups, b);
    Viewed(w.v, groups, b);
    hide Pieces;
  }

  /** The three ways in which a merge fails before it looks into the chunks. */
  lemma MergeRefusesExactly<T>(shards: seq<seq<T>>, heads: nat, kvHeads: nat)
    requires shards != [] && kvHeads > 0
    ensures var r, whole := MergedQkv(shards, heads, kvHeads), heads % kvHeads == 0;
      && (r == Err(HeadsUneven) <==> !whole)
      && (r == Err(RowsUneven) <==> whole && |shards[0]| % (heads / kvHeads + 2) != 0)
      && (r == Err(NoGroupPerRank) <==> whole && |shards[0]| % (heads / kvHeads + 2) == 0 && kvHeads < |shards|)
  {
    Few(kvHeads, |shards|);
    hide SplitAll, ChunksOf, QSplit, KvSplit;
  }

  lemma Few(x: nat, n: nat)
    requires n > 0
    ensures x / n == 0 <==> x < n
  {
  }

  /** The sizes the merger computes from one shard are the sizes of one group. */
  lemma SizesFound(shard: nat, n: nat, perKv: nat, headDim: nat)
    requires n > 0 && shard == n * (perKv * headDim + headDim + headDim)
    ensures shard % (perKv + 2) == 0
    ensures QSplit(shard, perKv, n) == perKv * headDim && KvSplit(shard, perKv, n) == headDim
  {
    Factors(n, perKv, headDim);
    SizesFrom(shard, headDim * n, n, perKv, headDim);
  }

  lemma Factors(n: nat, perKv: nat, headDim: nat)
    ensures n * (perKv * headDim + headDim + headDim) == (headDim * n) * (perKv + 2)
    ensures (headDim * n) * perKv == (perKv * headDim) * n
  {
  }

  lemma SizesFrom(shard: nat, kv: nat, n: nat, perKv: nat, headDim: nat)
    requires n > 0 && shard == kv * (perKv + 2) && kv == headDim * n && kv * perKv == (perKv * headDim) * n
    ensures shard % (perKv + 2) == 0
    ensures QSplit(shard, perKv, n) == perKv * headDim && KvSplit(shard, perKv, n) == headDim
  {
    Arith.DivUnique(shard, perKv + 2, kv, 0);
    Arith.DivUnique(kv * perKv, n, perKv * headDim, 0);
    Arith.DivUnique(kv, n, headDim, 0);
  }

  /** The rows of one key-value head: its query heads, its key and its value. */
  function GroupSize(heads: nat, kvHeads: nat, headDim: nat): (r: nat)
    requires kvHeads > 0
    ensures headDim > 0 ==> r > 0
  {
    Arith.MulOrder(0, heads / kvHeads, headDim);
    heads / kvHeads * headDim + headDim + headDim
  }

  /** Head counts and the shapes of the three weights, as the model configuration gives them. */
  predicate Configured<T>(w: Qkv<T>, heads: nat, kvHeads: nat, headDim: nat) {
    && heads > 0 && kvHeads > 0 && headDim > 0 && heads % kvHeads == 0
    && |w.q| == heads * headDim && |w.k| == kvHeads * headDim && |w.v| == kvHeads * headDim
  }

  lemma ConfiguredShape<T>(w: Qkv<T>, heads: nat, kvHeads: nat, headDim: nat)
    requires Configured(w, heads, kvHeads, headDim)
    ensures kvHeads > 0 && headDim > 0 && heads / kvHeads > 0
    ensures headDim * heads / kvHeads == heads / kvHeads * headDim > 0
    ensures Shaped(w, kvHeads, heads / kvHeads * headDim, headDim)
  {
    var n := heads / kvHeads;
    assert heads == n * kvHeads;
    assert headDim * heads == (n * headDim) * kvHeads;
    Arith.MulDiv(n * headDim, kvHeads);
    Arith.MulOrder(1, n, headDim);
  }

  /** The converter's fused weight for a configuration. */
  function Fused<T>(w: Qkv<T>, heads: nat, kvHeads: nat, headDim: nat): seq<T>
    requires Configured(w, heads, kvHeads, headDim)
  {
    ConfiguredShape(w, heads, kvHeads, headDim);
    Interleave(w, kvHeads, headDim * heads / kvHeads, headDim)
  }

  lemma FusedLength<T>(w: Qkv<T>, heads: nat, kvHeads: nat, headDim: nat)
    requires Configured(w, heads, kvHeads, headDim)
    ensures |Fused(w, heads, kvHeads, headDim)| == kvHeads * GroupSize(heads, kvHeads, headDim) > 0
    ensures |Fused(w, heads, kvHeads, headDim)| == kvHeads * (heads / kvHeads * headDim + headDim + headDim)
  {
    ConfiguredShape(w, heads, kvHeads, headDim);
    InterleavedLength(w, kvHeads, heads / kvHeads * headDim, headDim);
    Arith.MulOrder(1, kvHeads, GroupSize(heads, kvHeads, headDim));
  }

  /** Every tensor-parallel size that divides the key-value heads cuts whole groups. */
  lemma CutsWholeGroups(kvHeads: nat, tp: nat, size: nat)
    requires tp > 0 && kvHeads > 0 && kvHeads % tp == 0 && size > 0
    ensures (kvHeads * size) % tp == 0
    ensures (kvHeads * size) / tp == (kvHeads / tp) * size > 0
    ensures (kvHeads * size) % ((kvHeads / tp) * size) == 0
  {
    var n := kvHeads / tp;
    assert kvHeads == n * tp;
    assert kvHeads * size == (n * size) * tp == tp * (n * size);
    Arith.MulDiv(n * size, tp);
    Arith.MulOrder(1, n, size);
    Arith.MulDiv(tp, n * size);
  }

  /** Interleaving, cutting into `tp` contiguous row shards and merging gives back exactly the
      query, key and value weights in order. */
  lemma MergeUndoesInterleave<T>(w: Qkv<T>, heads: nat, kvHeads: nat, headDim: nat, tp: nat)
    requires Configured(w, heads, kvHeads, headDim)
    requires tp > 0 && kvHeads % tp == 0
    ensures var rows := Fused(w, heads, kvHeads, headDim);
      && |rows| % tp == 0 && |rows| / tp > 0
      && |Pieces(rows, |rows| / tp)| == tp
      && MergedQkv(Pieces(rows, |rows| / tp), heads, kvHeads) == Ok(w)
  {
    hide Pieces, Interleave, ChunksOf, SplitAll;
    var rows, n, size := Fused(w, heads, kvHeads, headDim), kvHeads / tp, GroupSize(heads, kvHeads, headDim);
    FusedLength(w, heads, kvHeads, headDim);
    CutsWholeGroups(kvHeads, tp, size);
    Arith.MulDiv(tp, n * size);
    ShardsOf(rows, tp, n * size);
    SizesFound(n * size, n, heads / kvHeads, headDim);
    ChunksOfShards(rows, n * size, n, size);
    FusedSplits(w, heads, kvHeads, headDim);
  }

  lemma ShardsOf<T>(rows: seq<T>, tp: nat, shard: nat)
    requires shard > 0 && tp > 0 && |rows| % shard == 0 && |rows| / shard == tp
    ensures |Pieces(rows, shard)| == tp && |Pieces(rows, shard)[0]| == shard
  {
    PieceCount(rows, shard);
  }

  lemma FusedSplits<T>(w: Qkv<T>, heads: nat, kvHeads: nat, headDim: nat)
    requires Configured(w, heads, kvHeads, headDim)
    ensures heads % kvHeads == 0 && GroupSize(heads, kvHeads, headDim) > 0
    ensures SplitAll(Pieces(Fused(w, heads, kvHeads, headDim), GroupSize(heads, kvHeads, headDim)),
                     heads / kvHeads * headDim, headDim) == Ok(w)
  {
    ConfiguredShape(w, heads, kvHeads, headDim);
    SplitGroups(w, kvHeads, heads / kvHeads * headDim, headDim);
  }

  // ---- The condition is needed ----------------------------------------------------------------

  lemma Cancel(x: nat, y: nat, k: nat)
    requires k > 0 && x * k == y * k
    ensures x == y
  {
    if x < y {
      Arith.MulGap(x, y, k);
    } else if y < x {
      Arith.MulGap(y, x, k);
    }
  }

  /** If the pieces of a chunk add up, none of the divisions rounds. */
  lemma NoRounding(kv: nat, perKv: nat, n: nat)
    requires n > 0
    requires kv * perKv / n + kv / n + kv / n == Arith.CeilDiv(kv * (perKv + 2), n)
    ensures kv / n * n == kv && kv * perKv / n == perKv * (kv / n)
  {
    var a, b, z := kv * perKv / n, kv / n, Arith.CeilDiv(kv * (perKv + 2), n);
    DivBelow(kv * perKv, n);
    DivBelow(kv, n);
    CeilAbove(kv * (perKv + 2), n);
    hide *;
    Distribute(a, b, z, n, kv, perKv);
    assert b * n == kv;
    assert a * n == (perKv * b) * n;
    Cancel(a, perKv * b, n);
  }

  lemma DivBelow(x: nat, n: nat)
    requires n > 0
    ensures x / n * n <= x
  {
  }

  lemma CeilAbove(x: nat, n: nat)
    requires n > 0
    ensures Arith.CeilDiv(x, n) * n >= x
  {
  }

  lemma Distribute(a: nat, b: nat, z: nat, n: nat, kv: nat, perKv: nat)
    requires a + b + b == z && a * n <= kv * perKv && b * n <= kv && z * n >= kv * (perKv + 2)
    ensures b * n == kv && a * n == kv * perKv == perKv * b * n
  {
    assert z * n == a * n + b * n + b * n;
    assert kv * (perKv + 2) == kv * perKv + kv + kv;
    assert perKv * b * n == perKv * (b * n);
  }

  lemma Larger(kv: nat, b: nat, n: nat, tp: nat, kvHeads: nat, headDim: nat, perKv: nat)
    requires kv == b * n && n * tp < kvHeads && headDim > 0 && perKv > 0
    requires (kv * tp) * (perKv + 2) == (kvHeads * headDim) * (perKv + 2)
    ensures perKv * b > perKv * headDim
  {
    Cancel(kv * tp, kvHeads * headDim, perKv + 2);
    assert kv * tp == b * (n * tp);
    if b <= headDim {
      Arith.MulOrder(b, headDim, n * tp);
      Arith.MulGap(n * tp, kvHeads, headDim);
      assert false;
    }
    Arith.MulGap(headDim, b, perKv);
  }

  /** With a size that does not divide the heads, pieces that add up reach past the first group's
      queries. */
  lemma SplitsTooFar(shard: nat, kvHeads: nat, tp: nat, n: nat, perKv: nat, headDim: nat)
    requires n > 0 && n * tp < kvHeads && perKv > 0 && headDim > 0
    requires shard * tp == kvHeads * (perKv * headDim + headDim + headDim)
    ensures shard % (perKv + 2) == 0
      && QSplit(shard, perKv, n) + KvSplit(shard, perKv, n) + KvSplit(shard, perKv, n) == Arith.CeilDiv(shard, n)
      ==> QSplit(shard, perKv, n) > perKv * headDim
  {
    if shard % (perKv + 2) == 0
      && QSplit(shard, perKv, n) + KvSplit(shard, perKv, n) + KvSplit(shard, perKv, n) == Arith.CeilDiv(shard, n)
    {
      var kv := shard / (perKv + 2);
      SameRows(shard, kv, kvHeads, tp, perKv, headDim);
      NoRounding(kv, perKv, n);
      var b := kv / n;
      hide *;
      Larger(kv, b, n, tp, kvHeads, headDim, perKv);
    }
  }

  lemma SameRows(shard: nat, kv: nat, kvHeads: nat, tp: nat, perKv: nat, headDim: nat)
    requires shard % (perKv + 2) == 0 && kv == shard / (perKv + 2)
    requires shard * tp == kvHeads * (perKv * headDim + headDim + headDim)
    ensures shard == kv * (perKv + 2)
    ensures (kv * tp) * (perKv + 2) == (kvHeads * headDim) * (perKv + 2)
  {
    assert shard * tp == (kv * tp) * (perKv + 2);
    assert perKv * headDim + headDim + headDim == headDim * (perKv + 2);
    assert kvHeads * (headDim * (perKv + 2)) == (kvHeads * headDim) * (perKv + 2);
  }

  lemma MergedSplits<T>(shards: seq<seq<T>>, heads: nat, kvHeads: nat, w: Qkv<T>)
    requires shards != [] && kvHeads > 0
    ensures MergedQkv(shards, heads, kvHeads) == Ok(w) ==>
      var rows, perKv, n := |shards[0]|, heads / kvHeads, kvHeads / |shards|;
      && n > 0 && rows % (perKv + 2) == 0
      && SplitAll(ChunksOf(shards, n), QSplit(rows, perKv, n), KvSplit(rows, perKv, n)) == Ok(w)
  {
    hide SplitAll, ChunksOf, QSplit, KvSplit;
  }

  /** The first rows of the merged query weight are the first rows of the first shard. */
  lemma MergedStart<T>(shards: seq<seq<T>>, heads: nat, kvHeads: nat, w: Qkv<T>, i: nat)
    requires shards != [] && shards[0] != [] && kvHeads > 0
    ensures MergedQkv(shards, heads, kvHeads) == Ok(w) ==>
      var rows, perKv, n := |shards[0]|, heads / kvHeads, kvHeads / |shards|;
      && n > 0 && rows % (perKv + 2) == 0
      && QSplit(rows, perKv, n) + KvSplit(rows, perKv, n) + KvSplit(rows, perKv, n) == Arith.CeilDiv(rows, n)
      && (i < QSplit(rows, perKv, n) ==> i < |w.q| && i < rows && w.q[i] == shards[0][i])
  {
    hide *;
    if MergedQkv(shards, heads, kvHeads) == Ok(w) {
      MergedSplits(shards, heads, kvHeads, w);
      var rows, perKv, n := |shards[0]|, heads / kvHeads, kvHeads / |shards|;
      FirstChunk(shards, n);
      SplitStart(ChunksOf(shards, n), QSplit(rows, perKv, n), KvSplit(rows, perKv, n), w, i);
    }
  }

  lemma SplitStart<T>(chunks: seq<seq<T>>, a: nat, b: nat, w: Qkv<T>, i: nat)
    requires chunks != [] && SplitAll(chunks, a, b) == Ok(w)
    ensures |chunks[0]| == a + b + b
    ensures i < a ==> i < |w.q| && w.q[i] == chunks[0][i]
  {
    var qs := Cuts(chunks, 0, a);
    assert qs == [qs[0]] + qs[1..];
    FlattenConcat([qs[0]], qs[1..]);
    FlattenAppend([], qs[0]);
  }

  lemma FirstChunk<T>(shards: seq<seq<T>>, n: nat)
    requires shards != [] && shards[0] != [] && n > 0
    ensures ChunksOf(shards, n) != []
    ensures 0 < Arith.CeilDiv(|shards[0]|, n) <= |shards[0]|
    ensures ChunksOf(shards, n)[0] == shards[0][..Arith.CeilDiv(|shards[0]|, n)]
  {
    var size := Arith.CeilDiv(|shards[0]|, n);
    CeilBounds(|shards[0]|, n);
    FirstPiece(shards[0], size);
  }

  lemma CeilBounds(x: nat, n: nat)
    requires x > 0 && n > 0
    ensures 0 < Arith.CeilDiv(x, n) <= x
  {
    var z := Arith.CeilDiv(x, n);
    if z == 0 {
      Arith.DivUnique(x + n - 1, n, 1, x - 1);
    }
    if z > x {
      Arith.MulOrder(x + 1, z, n);
      Arith.MulOrder(1, n, x);
    }
  }

  lemma FusedStart<T>(w: Qkv<T>, heads: nat, kvHeads: nat, headDim: nat)
    requires Configured(w, heads, kvHeads, headDim)
    ensures w.k != [] && heads / kvHeads * headDim < |Fused(w, heads, kvHeads, headDim)|
    ensures Fused(w, heads, kvHeads, headDim)[heads / kvHeads * headDim] == w.k[0]
  {
    ConfiguredShape(w, heads, kvHeads, headDim);
    var a := heads / kvHeads * headDim;
    Arith.MulOrder(1, kvHeads, headDim);
    Viewed(w.q, kvHeads, a);
    Viewed(w.k, kvHeads, headDim);
    Viewed(w.v, kvHeads, headDim);
    FirstPiece(w.k, headDim);
    FlattenAt(Blocks(w, kvHeads, a, headDim), a + headDim + headDim, 0, a);
  }

  /** Merging the shards of an interleaved weight gives the weight back exactly when the
      tensor-parallel size divides the key-value heads, for any weight whose first key row is
      not also a query row. */
  lemma MergeExactly<T>(w: Qkv<T>, heads: nat, kvHeads: nat, headDim: nat, tp: nat)
    requires Configured(w, heads, kvHeads, headDim) && w.k != [] && w.k[0] !in w.q
    requires tp > 0 && |Fused(w, heads, kvHeads, headDim)| % tp == 0
    requires |Fused(w, heads, kvHeads, headDim)| / tp > 0
    ensures var rows := Fused(w, heads, kvHeads, headDim);
      var shards := Pieces(rows, |rows| / tp);
      && |shards| == tp
      && (MergedQkv(shards, heads, kvHeads) == Ok(w) <==> kvHeads % tp == 0)
  {
    var rows := Fused(w, heads, kvHeads, headDim);
    var shard := |rows| / tp;
    EvenShards(rows, tp);
    if kvHeads % tp == 0 {
      MergeUndoesInterleave(w, heads, kvHeads, headDim, tp);
    } else {
      hide *;
      MergedMisplaces(w, heads, kvHeads, headDim, tp);
    }
  }

  lemma EvenShards<T>(rows: seq<T>, tp: nat)
    requires tp > 0 && |rows| % tp == 0 && |rows| / tp > 0
    ensures |Pieces(rows, |rows| / tp)| == tp && Pieces(rows, |rows| / tp)[0] == rows[..|rows| / tp]
    ensures |rows| / tp * |Pieces(rows, |rows| / tp)| == |rows| && |rows| / tp <= |rows|
  {
    var shard := |rows| / tp;
    Arith.MulDiv(tp, shard);
    Arith.MulOrder(1, tp, shard);
    assert tp * shard == shard * tp == |rows|;
    PieceCount(rows, shard);
    FirstPiece(rows, shard);
  }

  /** With any other size a merge that goes through puts a key row among the queries. */
  lemma MergedMisplaces<T>(w: Qkv<T>, heads: nat, kvHeads: nat, headDim: nat, tp: nat)
    requires Configured(w, heads, kvHeads, headDim)
    requires tp > 0 && kvHeads % tp != 0 && |Fused(w, heads, kvHeads, headDim)| % tp == 0
    requires |Fused(w, heads, kvHeads, headDim)| / tp > 0
    ensures w.k != []
    ensures var rows := Fused(w, heads, kvHeads, headDim);
      var shards := Pieces(rows, |rows| / tp);
      shards != [] && (MergedQkv(shards, heads, kvHeads) == Ok(w) ==> w.k[0] in w.q)
  {
    hide *;
    ConfiguredShape(w, heads, kvHeads, headDim);
    FusedLength(w, heads, kvHeads, headDim);
    FusedStart(w, heads, kvHeads, headDim);
    var rows := Fused(w, heads, kvHeads, headDim);
    EvenShards(rows, tp);
    ReachesKey(w, rows, Pieces(rows, |rows| / tp), |rows| / tp, heads, kvHeads, heads / kvHeads, headDim);
  }

  lemma ReachesKey<T>(w: Qkv<T>, rows: seq<T>, shards: seq<seq<T>>, shard: nat,
                      heads: nat, kvHeads: nat, perKv: nat, headDim: nat)
    requires kvHeads > 0 && perKv == heads / kvHeads > 0 && headDim > 0
    requires shards != [] && kvHeads % |shards| != 0
    requires 0 < shard <= |rows| && shards[0] == rows[..shard]
    requires shard * |shards| == |rows| == kvHeads * (perKv * headDim + headDim + headDim)
    requires perKv * headDim < |rows| && w.k != [] && rows[perKv * headDim] == w.k[0]
    ensures MergedQkv(shards, heads, kvHeads) == Ok(w) ==> w.k[0] in w.q
  {
    hide *;
    if MergedQkv(shards, heads, kvHeads) == Ok(w) {
      var n := kvHeads / |shards|;
      MergedStart(shards, heads, kvHeads, w, perKv * headDim);
      assert n * |shards| < kvHeads;
      SplitsTooFar(shard, kvHeads, |shards|, n, perKv, headDim);
      assert w.q[perKv * headDim] == w.k[0];
    }
  }

  // ---- The other way round --------------------------------------------------------------------

  lemma {:induction false} EvenChunks<T>(shards: seq<seq<T>>, n: nat, size: nat)
    requires n > 0 && size > 0 && Uniform(shards, n * size)
    ensures |ChunksOf(shards, n)| == |shards| * n
    ensures Flatten(ChunksOf(shards, n)) == Flatten(shards)
  {
    hide Chunk, Flatten;
    if shards != [] {
      var rest := shards[1..];
      EvenChunks(rest, n, size);
      ShardChunks(shards[0], n, size);
      FlattenHead(shards);
      FlattenConcat(Chunk(shards[0], n), ChunksOf(rest, n));
      Arith.MulStep(|shards|, n);
    } else {
      FlattenNone<T>();
    }
  }

  lemma ShardChunks<T>(shard: seq<T>, n: nat, size: nat)
    requires n > 0 && size > 0 && |shard| == n * size
    ensures |Chunk(shard, n)| == n && Flatten(Chunk(shard, n)) == shard
  {
    ChunkExact(shard, n, size);
    Viewed(shard, n, size);
    FlattenPieces(shard, size);
  }

  lemma CutsBlock<T>(chunk: seq<T>, a: nat, b: nat)
    requires |chunk| == a + b + b
    ensures chunk[0..a] + chunk[a..a + b] + chunk[a + b..a + b + b] == chunk
  {
  }

  lemma CutsPieces<T>(chunks: seq<seq<T>>, a: nat, b: nat, w: Qkv<T>)
    requires a > 0 && b > 0 && SplitAll(chunks, a, b) == Ok(w)
    ensures Uniform(chunks, a + b + b)
    ensures Pieces(w.q, a) == Cuts(chunks, 0, a) && |w.q| == |chunks| * a
    ensures Pieces(w.k, b) == Cuts(chunks, a, a + b) && |w.k| == |chunks| * b
    ensures Pieces(w.v, b) == Cuts(chunks, a + b, a + b + b) && |w.v| == |chunks| * b
  {
    hide Flatten, Pieces, Cuts;
    CutPieces(chunks, 0, a);
    CutPieces(chunks, a, a + b);
    CutPieces(chunks, a + b, a + b + b);
  }

  lemma CutPieces<T>(chunks: seq<seq<T>>, from: nat, to: nat)
    requires from < to && forall i :: 0 <= i < |chunks| ==> to <= |chunks[i]|
    ensures var cuts := Cuts(chunks, from, to);
      Pieces(Flatten(cuts), to - from) == cuts && |Flatten(cuts)| == |chunks| * (to - from)
  {
    PiecesFlatten(Cuts(chunks, from, to), to - from);
    FlattenLength(Cuts(chunks, from, to), to - from);
  }

  lemma CutsRejoin<T>(chunks: seq<seq<T>>, a: nat, b: nat, w: Qkv<T>)
    requires a > 0 && b > 0 && SplitAll(chunks, a, b) == Ok(w)
    ensures Shaped(w, |chunks|, a, b)
    ensures Interleave(w, |chunks|, a, b) == Flatten(chunks)
  {
    CutsPieces(chunks, a, b, w);
    hide SplitAll, Flatten, Pieces;
    var blocks := Zip(Cuts(chunks, 0, a), Cuts(chunks, a, a + b), Cuts(chunks, a + b, a + b + b));
    forall g | 0 <= g < |chunks| ensures blocks[g] == chunks[g] {
      CutsBlock(chunks[g], a, b);
    }
    assert blocks == chunks;
  }

  lemma GroupRows(rows: nat, perKv: nat, n: nat)
    requires n > 0 && perKv > 0 && rows > 0 && rows % (perKv + 2) == 0
    requires QSplit(rows, perKv, n) + KvSplit(rows, perKv, n) + KvSplit(rows, perKv, n) == Arith.CeilDiv(rows, n)
    ensures var b := KvSplit(rows, perKv, n);
      b > 0 && QSplit(rows, perKv, n) == perKv * b > 0 && rows == n * (perKv * b + b + b)
  {
    var kv := rows / (perKv + 2);
    assert rows == kv * (perKv + 2);
    NoRounding(kv, perKv, n);
    var b := kv / n;
    hide *;
    assert kv == b * n;
    assert rows == (b * n) * (perKv + 2) == n * (perKv * b + b + b);
    if b == 0 {
      assert false;
    }
    Arith.MulOrder(1, perKv, b);
  }

  /** Whatever equal shards the merger takes apart, interleaving its result restores them. */
  lemma InterleaveUndoesMerge<T>(shards: seq<seq<T>>, heads: nat, kvHeads: nat, w: Qkv<T>)
    requires shards != [] && kvHeads > 0 && kvHeads % |shards| == 0 && heads >= kvHeads
    requires shards[0] != [] && Uniform(shards, |shards[0]|)
    ensures MergedQkv(shards, heads, kvHeads) == Ok(w) ==>
      kvHeads / |shards| > 0 &&
      var perKv := heads / kvHeads;
      var headDim := KvSplit(|shards[0]|, perKv, kvHeads / |shards|);
      && perKv * headDim > 0 && headDim > 0 && Shaped(w, kvHeads, perKv * headDim, headDim)
      && Interleave(w, kvHeads, perKv * headDim, headDim) == Flatten(shards)
  {
    hide MergedQkv, SplitAll, ChunksOf, Interleave, QSplit, KvSplit, Arith.CeilDiv, Pieces, Flatten;
    if MergedQkv(shards, heads, kvHeads) == Ok(w) {
      var perKv, n, rows := heads / kvHeads, kvHeads / |shards|, |shards[0]|;
      Arith.DivOrder(kvHeads, heads, kvHeads);
      MergedStart(shards, heads, kvHeads, w, 0);
      MergedSplits(shards, heads, kvHeads, w);
      GroupRows(rows, perKv, n);
      var b := KvSplit(rows, perKv, n);
      EvenChunks(shards, n, perKv * b + b + b);
      assert |shards| * n == kvHeads;
      CutsRejoin(ChunksOf(shards, n), perKv * b, b, w);
    }
  }
}
