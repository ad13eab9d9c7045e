/** The operations of a batch, each tied to its index map, and what they undo. */
module BatchOps {
  import opened Wrappers
  import opened Slices
  import opened Permutations
  import opened DataProtos
  import Arith

  /** The rows `from..from + count`. */
  function Steps(from: nat, count: nat): (r: seq<nat>)
    ensures |r| == count && forall i :: 0 <= i < count ==> r[i] == from + i
  {
    seq(count, i => from + i)
  }

  function Slice(p: DataProto, from: nat, to: nat): DataProto
    requires Valid(p) && from <= to <= p.size
  {
    Gather(p, Steps(from, to - from))
  }

  // ---- Padding to a divisor ------------------------------------------------------------------

  /** Row `r` of the result is row `r % size`. */
  function Cyclic(size: nat, total: nat): (r: seq<nat>)
    requires size > 0
    ensures |r| == total && Below(r, size)
  {
    seq(total, r => r % size)
  }

  function PadSize(size: nat, divisor: nat): nat
    requires divisor > 0
  {
    if size % divisor == 0 then 0 else divisor - size % divisor
  }

  function Padded(p: DataProto, pad: nat): DataProto
    requires Valid(p) && p.size > 0
  {
    Gather(p, Cyclic(p.size, p.size + pad))
  }

  function Unpad(p: DataProto, pad: nat): DataProto
    requires Valid(p)
  {
    if pad == 0 then p else Slice(p, 0, if pad <= p.size then p.size - pad else 0)
  }

  lemma CyclicGrows(size: nat, done: nat, take: nat)
    requires size > 0 && done % size == 0 && take <= size
    ensures Cyclic(size, done + take) == Cyclic(size, done) + Range(take)
  {
    forall r | 0 <= r < done + take ensures Cyclic(size, done + take)[r] == (Cyclic(size, done) + Range(take))[r] {
      if r >= done && r - done < size {
        Arith.DivUnique(r, size, done / size, r - done);
      }
    }
  }

  lemma WholeTurn(size: nat, done: nat)
    requires size > 0 && done % size == 0
    ensures (done + size) % size == 0
  {
    var q := done / size;
    assert done + size == q * size + size == (q + 1) * size;
    Arith.MulDiv(q + 1, size);
  }

  lemma CyclicStart(size: nat)
    requires size > 0
    ensures Cyclic(size, size) == Range(size) && size % size == 0
  {
  }

  method PadToDivisor(p: DataProto, divisor: nat) returns (padded: DataProto, pad: nat)
    requires Valid(p) && divisor > 0
    ensures pad == PadSize(p.size, divisor)
    ensures padded == if p.size == 0 then p else Padded(p, pad)
    ensures padded.size == p.size + pad
  {
    hide Gather, Flatten, Cyclic, Concat;
    if p.size % divisor == 0 {
      pad := 0;
      padded := p;
      if p.size > 0 {
        CyclicStart(p.size);
        GatherAll(p);
      }
      return;
    }
    pad := divisor - p.size % divisor;
    NotEmpty(p.size, divisor);
    GatherAll(p);
    var protos := [p];
    ghost var parts: seq<seq<nat>> := [Range(p.size)];
    var remaining := pad;
    CyclicStart(p.size);
    OnePart(Range(p.size));
    while remaining > 0
      invariant 0 <= remaining <= pad
      invariant parts != [] && AllBelow(parts, p.size) && protos == GatherEach(p, parts)
      invariant Flatten(parts) == Cyclic(p.size, p.size + pad - remaining)
      invariant remaining > 0 ==> (p.size + pad - remaining) % p.size == 0
    {
      var take := if remaining < p.size then remaining else p.size;
      var done := p.size + pad - remaining;
      protos := protos + [Slice(p, 0, take)];
      CyclicGrows(p.size, done, take);
      FlattenAppend(parts, Range(take));
      assert Steps(0, take) == Range(take);
      parts := parts + [Range(take)];
      if take == p.size {
        WholeTurn(p.size, done);
      }
      remaining := remaining - take;
    }
    ConcatGathers(p, parts);
    padded := Concat(protos);
  }

  lemma NotEmpty(size: nat, divisor: nat)
    requires divisor > 0 && size % divisor != 0
    ensures size > 0
  {
  }

  lemma OnePart(part: seq<nat>)
    ensures Flatten([part]) == part
  {
  }

  /** The padded size is the next multiple of the divisor. */
  lemma PadReachesDivisor(size: nat, divisor: nat)
    requires divisor > 0
    ensures (size + PadSize(size, divisor)) % divisor == 0 && PadSize(size, divisor) < divisor
  {
    if size % divisor != 0 {
      var q := size / divisor;
      assert size + PadSize(size, divisor) == q * divisor + divisor == (q + 1) * divisor;
      Arith.MulDiv(q + 1, divisor);
    }
  }

  /** Row r of the padded batch is row r modulo the size, in every column. */
  lemma PaddedRows(p: DataProto, pad: nat, k: Key, r: nat)
    requires Valid(p) && p.size > 0 && r < p.size + pad
    ensures k in p.objects ==> k in Padded(p, pad).objects && Padded(p, pad).objects[k][r] == p.objects[k][r % p.size]
    ensures p.tensors.Some? && k in p.tensors.value ==>
      && Padded(p, pad).tensors.Some? && k in Padded(p, pad).tensors.value
      && Padded(p, pad).tensors.value[k][r] == p.tensors.value[k][r % p.size]
    ensures Padded(p, pad).objects.Keys == p.objects.Keys && (Padded(p, pad).tensors.Some? <==> p.tensors.Some?)
  {
  }

  /** Unpadding by the amount of padding gives the batch back. */
  lemma UnpadUndoesPad(p: DataProto, pad: nat)
    requires Valid(p) && p.size > 0
    ensures Unpad(Padded(p, pad), pad) == p
  {
    var rows := Cyclic(p.size, p.size + pad);
    GatherAll(p);
    CyclicStart(p.size);
    if pad == 0 {
      assert rows == Range(p.size);
    } else {
      GatherThen(p, rows, Steps(0, p.size));
      forall r | 0 <= r < p.size ensures rows[r] == r {
        Arith.DivUnique(r, p.size, 0, r);
      }
      assert Pick(rows, Steps(0, p.size)) == Range(p.size);
    }
  }

  // ---- Chunk, split and concat ---------------------------------------------------------------

  /** Equal runs of `each` rows. */
  function ChunkRows(chunks: nat, each: nat): (r: seq<seq<nat>>)
    ensures |r| == chunks && forall i :: 0 <= i < chunks ==> r[i] == Steps(i * each, each)
  {
    seq(chunks, i requires 0 <= i < chunks => Steps(i * each, each))
  }

  lemma ChunkRowsStep(chunks: nat, each: nat)
    ensures ChunkRows(chunks + 1, each) == ChunkRows(chunks, each) + [Steps(chunks * each, each)]
    ensures Range(chunks * each) + Steps(chunks * each, each) == Range(chunks * each + each)
  {
  }

  lemma {:induction false} ChunkRowsFlatten(chunks: nat, each: nat)
    ensures Flatten(ChunkRows(chunks, each)) == Range(chunks * each)
  {
    hide *;
    if chunks > 0 {
      ChunkRowsFlatten(chunks - 1, each);
      ChunkRowsStep(chunks - 1, each);
      FlattenAppend(ChunkRows(chunks - 1, each), Steps((chunks - 1) * each, each));
      Arith.MulStep(chunks, each);
    } else {
      FlattenNone<nat>();
      assert ChunkRows(chunks, each) == [] && 0 * each == 0;
      assert Range(chunks * each) == [];
    }
  }

  lemma RunBound(i: nat, chunks: nat, each: nat)
    requires i < chunks
    ensures i * each + each <= chunks * each
  {
    Arith.MulGap(i, chunks, each);
  }

  method Chunk(p: DataProto, chunks: nat) returns (r: Option<seq<DataProto>>)
    requires Valid(p) && chunks > 0
    ensures r.Some? <==> p.size % chunks == 0
    ensures r.Some? ==> AllBelow(ChunkRows(chunks, p.size / chunks), p.size)
    ensures r.Some? ==> r.value == GatherEach(p, ChunkRows(chunks, p.size / chunks))
  {
    if p.size % chunks != 0 {
      return None;
    }
    var each := p.size / chunks;
    assert chunks * each == p.size;
    forall i | 0 <= i < chunks ensures Below(Steps(i * each, each), p.size) {
      RunBound(i, chunks, each);
    }
    hide Gather;
    var output := [];
    for i := 0 to chunks
      invariant |output| == i
      invariant forall j :: 0 <= j < i ==> output[j] == Gather(p, ChunkRows(chunks, each)[j])
    {
      RunBound(i, chunks, each);
      output := output + [Slice(p, i * each, i * each + each)];
    }
    r := Some(output);
  }

  /** Concatenating the chunks gives the batch back. */
  lemma ConcatUndoesChunk(p: DataProto, chunks: nat)
    requires Valid(p) && chunks > 0 && p.size % chunks == 0
    requires AllBelow(ChunkRows(chunks, p.size / chunks), p.size)
    ensures var parts := GatherEach(p, ChunkRows(chunks, p.size / chunks));
      Alike(parts) && Concat(parts) == p
  {
    ChunkRowsFlatten(chunks, p.size / chunks);
    assert chunks * (p.size / chunks) == p.size;
    ConcatGathers(p, ChunkRows(chunks, p.size / chunks));
    GatherAll(p);
  }

  method Split(p: DataProto, size: nat) returns (r: seq<DataProto>)
    requires Valid(p) && size > 0
    ensures AllBelow(Pieces(Range(p.size), size), p.size)
    ensures r == GatherEach(p, Pieces(Range(p.size), size))
  {
    ghost var rows := Range(p.size);
    PiecesBelow(rows, size, p.size);
    hide Gather, Pieces;
    r := [];
    ghost var done: seq<seq<nat>> := [];
    var i := 0;
    while i < p.size
      invariant 0 <= i <= p.size
      invariant Pieces(rows, size) == done + Pieces(rows[i..], size)
      invariant AllBelow(done, p.size) && r == GatherEach(p, done)
    {
      var end := if i + size <= p.size then i + size else p.size;
      NextPiece(rows[i..], size);
      assert rows[i..][..end - i] == Steps(i, end - i);
      assert rows[i..][end - i..] == rows[end..];
      r := r + [Slice(p, i, end)];
      done := done + [Steps(i, end - i)];
      i := end;
    }
    NoPieces(rows[i..], size);
    assert done == Pieces(rows, size);
  }

  lemma NextPiece(rows: seq<nat>, size: nat)
    requires size > 0 && rows != []
    ensures var end := if size <= |rows| then size else |rows|;
      Pieces(rows, size) == [rows[..end]] + Pieces(rows[end..], size)
  {
    if size <= |rows| {
      FirstPiece(rows, size);
    } else {
      assert rows[..|rows|] == rows && rows[|rows|..] == [];
    }
  }

  lemma NoPieces(rows: seq<nat>, size: nat)
    requires size > 0 && rows == []
    ensures Pieces(rows, size) == []
  {
  }

  lemma {:induction false} PiecesBelow(rows: seq<nat>, size: nat, limit: nat)
    requires size > 0 && Below(rows, limit)
    ensures AllBelow(Pieces(rows, size), limit)
    decreases |rows|
  {
    if |rows| > size {
      PiecesBelow(rows[size..], size, limit);
    }
  }

  /** Concatenating the pieces of a split gives the batch back; an empty batch has no pieces. */
  lemma ConcatUndoesSplit(p: DataProto, size: nat)
    requires Valid(p) && size > 0 && AllBelow(Pieces(Range(p.size), size), p.size)
    ensures var parts := GatherEach(p, Pieces(Range(p.size), size));
      && (parts == [] <==> p.size == 0)
      && (parts != [] ==> Alike(parts) && Concat(parts) == p)
  {
    FlattenPieces(Range(p.size), size);
    if p.size > 0 {
      NextPiece(Range(p.size), size);
      ConcatGathers(p, Pieces(Range(p.size), size));
      GatherAll(p);
    }
  }

  // ---- Repeat --------------------------------------------------------------------------------------

  /** Each row `times` times in place. */
  function InPlace(size: nat, times: nat): (r: seq<seq<nat>>)
    ensures |r| == size && forall i :: 0 <= i < size ==> r[i] == Copies(i, times)
  {
    seq(size, i requires 0 <= i < size => Copies(i, times))
  }

  /** The whole batch `times` times over. */
  function Tiled(size: nat, times: nat): (r: seq<seq<nat>>)
    ensures |r| == times && forall i :: 0 <= i < times ==> r[i] == Range(size)
  {
    seq(times, _ => Range(size))
  }

  function RepeatRows(size: nat, times: nat, interleave: bool): seq<nat> {
    if interleave then Flatten(InPlace(size, times)) else Flatten(Tiled(size, times))
  }

  lemma RepeatBelow(size: nat, times: nat, interleave: bool)
    ensures Below(RepeatRows(size, times, interleave), size)
    ensures |RepeatRows(size, times, interleave)| == size * times
  {
    FlattenBelow(InPlace(size, times), size);
    FlattenBelow(Tiled(size, times), size);
    FlattenLength(InPlace(size, times), times);
    FlattenLength(Tiled(size, times), size);
    assert times * size == size * times;
  }

  function Repeat(p: DataProto, times: nat, interleave: bool): DataProto
    requires Valid(p)
  {
    RepeatBelow(p.size, times, interleave);
    Gather(p, RepeatRows(p.size, times, interleave))
  }

  /** Row `r` of a repeated batch is row `r / times`, or row `r % size`. */
  lemma RepeatAt(size: nat, times: nat, interleave: bool, r: nat)
    requires r < size * times
    ensures |RepeatRows(size, times, interleave)| == size * times
    ensures RepeatRows(size, times, interleave)[r] == if interleave then r / times else r % size
  {
    RepeatBelow(size, times, interleave);
    Positive(size, times, r);
    if interleave {
      Arith.RowBound(r, size, times);
      FlattenAt(InPlace(size, times), times, r / times, r % times);
    } else {
      assert r < times * size;
      Arith.RowBound(r, times, size);
      FlattenAt(Tiled(size, times), size, r / size, r % size);
    }
  }

  lemma Positive(size: nat, times: nat, r: nat)
    requires r < size * times
    ensures size > 0 && times > 0
  {
  }

  /** Tiling a batch is concatenating copies of it. */
  lemma TileIsConcat(p: DataProto, times: nat)
    requires Valid(p) && times > 0
    ensures var copies: seq<DataProto> := seq(times, _ => p);
      Alike(copies) && Concat(copies) == Repeat(p, times, false)
  {
    ConcatGathers(p, Tiled(p.size, times));
    GatherAll(p);
    var copies: seq<DataProto> := seq(times, _ => p);
    assert GatherEach(p, Tiled(p.size, times)) == copies;
  }

  // ---- Reorder and padding, in place -----------------------------------------------------------------

  class Batch {
    var size: nat
    var tensors: Option<map<Key, Column>>
    var objects: map<Key, Column>

    function View(): DataProto
      reads this
    {
      DataProto(size, tensors, objects)
    }

    constructor (p: DataProto)
      ensures View() == p
    {
      size, tensors, objects := p.size, p.tensors, p.objects;
    }

    method Reorder(indices: seq<nat>)
      requires Valid(View()) && Below(indices, size)
      modifies this
      ensures View() == Gather(old(View()), indices)
    {
      if tensors.Some? {
        tensors := Some(ReadColumns(tensors.value, size, indices));
      }
      objects := ReadColumns(objects, size, indices);
      size := |indices|;
    }

    /** Append copies of the first or of the last row. */
    method Padding(padding: nat, first: bool)
      requires Valid(View()) && size > 0
      modifies this
      ensures AllBelow([Range(old(size)), Copies(if first then 0 else old(size) - 1, padding)], old(size))
      ensures Below(Range(old(size)) + Copies(if first then 0 else old(size) - 1, padding), old(size))
      ensures View() == Gather(old(View()), Range(old(size)) + Copies(if first then 0 else old(size) - 1, padding))
    {
      var p := View();
      var row := if first then 0 else size - 1;
      GatherAll(p);
      if padding == 0 {
        assert Range(size) + Copies(row, 0) == Range(size);
        return;
      }
      var candidate := Gather(p, [row]);
      var part := Repeat(candidate, padding, true);
      OneRowRepeated(p, row, padding);
      var padded := Concat([p, part]);
      tensors, objects, size := padded.tensors, padded.objects, padded.size;
    }
  }

  lemma OneRowRepeated(p: DataProto, row: nat, padding: nat)
    requires Valid(p) && row < p.size
    ensures Repeat(Gather(p, [row]), padding, true) == Gather(p, Copies(row, padding))
    ensures Below(Range(p.size) + Copies(row, padding), p.size)
    ensures var ps := [p, Repeat(Gather(p, [row]), padding, true)];
      Alike(ps) && Concat(ps) == Gather(p, Range(p.size) + Copies(row, padding))
  {
    RepeatBelow(1, padding, true);
    GatherThen(p, [row], RepeatRows(1, padding, true));
    OnePart(Copies(0, padding));
    assert InPlace(1, padding) == [Copies(0, padding)];
    assert Pick([row], Copies(0, padding)) == Copies(row, padding);
    GatherAll(p);
    var parts := [Range(p.size), Copies(row, padding)];
    ConcatGathers(p, parts);
    assert GatherEach(p, parts) == [p, Gather(p, Copies(row, padding))];
    FlattenAppend([Range(p.size)], Copies(row, padding));
    OnePart(Range(p.size));
    assert [Range(p.size)] + [Copies(row, padding)] == parts;
  }

  /** `back` reads the result of `rows` in such a way that every row is in its old place. */
  ghost predicate Undoes(back: seq<nat>, rows: seq<nat>, size: nat) {
    Below(back, |rows|) && Pick(rows, back) == Range(size)
  }

  /** Where `row` comes from, searching from the front. */
  function PlaceOf(rows: seq<nat>, row: nat): (i: nat)
    requires row in rows
    ensures i < |rows| && rows[i] == row
  {
    if rows[0] == row then 0 else 1 + PlaceOf(rows[1..], row)
  }

  function Inverse(rows: seq<nat>, size: nat): (back: seq<nat>)
    requires forall r :: 0 <= r < size ==> r in rows
    ensures Undoes(back, rows, size)
  {
    var back: seq<nat> := seq(size, r requires 0 <= r < size => PlaceOf(rows, r));
    back
  }

  /** Reordering twice, the second time by the inverse, changes nothing. */
  lemma InverseUndoesReorder(p: DataProto, rows: seq<nat>)
    requires Valid(p) && IsPermutation(rows, p.size)
    ensures Below(rows, p.size) && forall r :: 0 <= r < p.size ==> r in rows
    ensures Gather(Gather(p, rows), Inverse(rows, p.size)) == p
  {
    InBounds(rows, p.size);
    PermutationHasAll(rows, p.size);
    GatherThen(p, rows, Inverse(rows, p.size));
    GatherAll(p);
  }

  lemma PermutationHasAll(rows: seq<nat>, size: nat)
    requires IsPermutation(rows, size)
    ensures forall r :: 0 <= r < size ==> r in rows
  {
    forall r: nat | r < size ensures r in rows {
      RangeCounts(size, r);
      var a: multiset<nat>, c: multiset<nat> := multiset(rows), multiset(Range(size));
      assert a == c;
      assert r in c;
    }
  }

  /** A reordering can be undone by another one exactly when it drops no row. */
  lemma UndoableExactly(rows: seq<nat>, size: nat)
    requires Below(rows, size)
    ensures (exists back: seq<nat> :: Undoes(back, rows, size)) <==> forall r :: 0 <= r < size ==> r in rows
  {
    if back: seq<nat> :| Undoes(back, rows, size) {
      forall r | 0 <= r < size ensures r in rows {
        assert |back| == size;
        assert rows[back[r]] == Pick(rows, back)[r];
      }
    }
    if forall r :: 0 <= r < size ==> r in rows {
      assert Undoes(Inverse(rows, size), rows, size);
    }
  }
}
