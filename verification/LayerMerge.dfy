/** Merging pipeline chunks: layers are numbered locally in every (virtual pipeline, pipeline)
    chunk, and the merger renumbers them while it walks the chunks. */
module LayerMerge {
  import opened Wrappers
  import Arith

  /** A parameter's key once it has its target name. */
  datatype Key =
    | Layer(no: nat, name: string)
    | Outer(name: string)

  /** What a key in a checkpoint chunk turns into. */
  datatype Source =
    | ExtraState
    | OutputLayer(name: string)
    | Unmapped
    | Named(key: Key)

  datatype Param<V> = Param(source: Source, value: V)

  type Chunk<V> = seq<Param<V>>

  /** The key under which a parameter is kept, if it is kept at all. */
  function Kept<V>(p: Param<V>, tied: bool): Option<Key> {
    match p.source
    case Named(key) => Some(key)
    case OutputLayer(name) => if tied then None else Some(Outer(name))
    case _ => None
  }

  /** A key whose layer number is shifted by the layers of the chunks before. */
  function Shift(key: Key, offset: nat): Key {
    match key
    case Layer(no, name) => Layer(no + offset, name)
    case Outer(_) => key
  }

  function LayerNo<V>(p: Param<V>, tied: bool): Option<nat> {
    match Kept(p, tied)
    case Some(Layer(no, _)) => Some(no)
    case _ => None
  }

  /** The local layer numbers of a chunk. */
  ghost function Locals<V>(chunk: Chunk<V>, tied: bool): set<nat> {
    set i | 0 <= i < |chunk| && LayerNo(chunk[i], tied).Some? :: LayerNo(chunk[i], tied).value
  }

  /** `layers_handled`: the largest local layer number, 0 for a chunk without layers. */
  function Highest<V>(chunk: Chunk<V>, tied: bool): nat {
    if chunk == [] then 0
    else
      var rest := Highest(chunk[..|chunk| - 1], tied);
      var no := LayerNo(chunk[|chunk| - 1], tied);
      if no.Some? && no.value > rest then no.value else rest
  }

  /** `layers_cum` when the walk reaches chunk `i`. */
  function Offset<V>(chunks: seq<Chunk<V>>, tied: bool, i: nat): nat
    requires i <= |chunks|
  {
    if i == 0 then 0 else Offset(chunks, tied, i - 1) + Highest(chunks[i - 1], tied) + 1
  }

  /** The chunks in the order of the walk up to virtual stage `v`, stage `p`. */
  function Walk<V>(lst: seq<seq<Chunk<V>>>, v: nat, p: nat): (r: seq<Chunk<V>>)
    requires p <= |lst|
    requires forall q :: 0 <= q < |lst| ==> v < |lst[q]| || (p == 0 && v == |lst[q]|)
    decreases v, p
  {
    if p > 0 then Walk(lst, v, p - 1) + [lst[p - 1][v]]
    else if v > 0 then Walk(lst, v - 1, |lst|)
    else []
  }

  /** Everything one chunk writes, in order, on top of what is there. */
  function Put<V>(state: map<Key, V>, chunk: Chunk<V>, tied: bool, offset: nat): map<Key, V> {
    if chunk == [] then state
    else
      var n := |chunk| - 1;
      var before := Put(state, chunk[..n], tied, offset);
      match Kept(chunk[n], tied)
      case Some(key) => before[Shift(key, offset) := chunk[n].value]
      case None => before
  }

  function PutAll<V>(chunks: seq<Chunk<V>>, tied: bool, i: nat): map<Key, V>
    requires i <= |chunks|
  {
    if i == 0 then map[]
    else Put(PutAll(chunks, tied, i - 1), chunks[i - 1], tied, Offset(chunks, tied, i - 1))
  }

  /** Some key has no target name: the merge stops with an error. */
  predicate AllMapped<V>(chunk: Chunk<V>) {
    forall i :: 0 <= i < |chunk| ==> !chunk[i].source.Unmapped?
  }

  // ---- The walk --------------------------------------------------------------------------

  /** A chunk per virtual stage for every stage. */
  predicate Rectangular<V>(lst: seq<seq<Chunk<V>>>, vpp: nat) {
    lst != [] && forall q :: 0 <= q < |lst| ==> |lst[q]| == vpp
  }

  /** Where the walk stands after `i` chunks. */
  ghost predicate Progress<V>(chunks: seq<Chunk<V>>, tied: bool, i: nat, state: map<Key, V>, cum: nat) {
    && i <= |chunks| && cum == Offset(chunks, tied, i) && state == PutAll(chunks, tied, i)
    && forall j :: 0 <= j < i ==> AllMapped(chunks[j])
  }

  method MergeStateDicts<V>(lst: seq<seq<Chunk<V>>>, tied: bool) returns (r: Option<map<Key, V>>)
    requires lst != [] && Rectangular(lst, |lst[0]|)
    ensures var chunks := Walk(lst, |lst[0]|, 0);
      r == if forall c :: c in chunks ==> AllMapped(c) then Some(PutAll(chunks, tied, |chunks|)) else None
    ensures r.None? <==> exists c, p :: c in Walk(lst, |lst[0]|, 0) && p in c && p.source.Unmapped?
  {
    MappedIs(Walk(lst, |lst[0]|, 0));
    hide Walk, Progress, PutAll, Offset, AllMapped;
    var vpp, pp := |lst[0]|, |lst|;
    ghost var chunks := Walk(lst, vpp, 0);
    var state: map<Key, V> := map[];
    var cum := 0;
    WalkStart(lst, vpp);
    NoProgress(chunks, tied);
    for v := 0 to vpp
      invariant Progress(chunks, tied, |Walk(lst, v, 0)|, state, cum)
    {
      for p := 0 to pp
        invariant Progress(chunks, tied, |Walk(lst, v, p)|, state, cum)
      {
        WalkPrefix(lst, v, p + 1, vpp);
        WalkStep(lst, v, p, vpp);
        var put, handled := MergeChunk(state, lst[p][v], tied, cum);
        if put.None? {
          assert chunks[|Walk(lst, v, p)|] == lst[p][v];
          return None;
        }
        ProgressStep(chunks, tied, |Walk(lst, v, p)|, state, cum);
        state := put.value;
        cum := cum + handled + 1;
      }
      WalkTurn(lst, v, vpp);
    }
    ProgressDone(chunks, tied, state, cum);
    r := Some(state);
  }

  lemma MappedIs<V>(chunks: seq<Chunk<V>>)
    ensures (forall c :: c in chunks ==> AllMapped(c)) <==> !exists c, p :: c in chunks && p in c && p.source.Unmapped?
  {
    if c, p :| c in chunks && p in c && p.source.Unmapped? {
      assert !AllMapped(c);
    }
  }

  lemma WalkStart<V>(lst: seq<seq<Chunk<V>>>, vpp: nat)
    requires Rectangular(lst, vpp)
    ensures Walk(lst, 0, 0) == []
  {
  }

  lemma WalkStep<V>(lst: seq<seq<Chunk<V>>>, v: nat, p: nat, vpp: nat)
    requires Rectangular(lst, vpp) && v < vpp && p < |lst|
    ensures Walk(lst, v, p + 1) == Walk(lst, v, p) + [lst[p][v]]
  {
  }

  lemma WalkTurn<V>(lst: seq<seq<Chunk<V>>>, v: nat, vpp: nat)
    requires Rectangular(lst, vpp) && v < vpp
    ensures Walk(lst, v + 1, 0) == Walk(lst, v, |lst|)
  {
  }

  lemma NoProgress<V>(chunks: seq<Chunk<V>>, tied: bool)
    ensures Progress(chunks, tied, 0, map[], 0)
  {
  }

  lemma ProgressStep<V>(chunks: seq<Chunk<V>>, tied: bool, i: nat, state: map<Key, V>, cum: nat)
    requires Progress(chunks, tied, i, state, cum) && i < |chunks| && AllMapped(chunks[i])
    ensures Progress(chunks, tied, i + 1, Put(state, chunks[i], tied, cum), cum + Highest(chunks[i], tied) + 1)
  {
  }

  lemma ProgressDone<V>(chunks: seq<Chunk<V>>, tied: bool, state: map<Key, V>, cum: nat)
    requires Progress(chunks, tied, |chunks|, state, cum)
    ensures state == PutAll(chunks, tied, |chunks|) && forall c :: c in chunks ==> AllMapped(c)
  {
  }

  method MergeChunk<V>(state: map<Key, V>, chunk: Chunk<V>, tied: bool, cum: nat)
    returns (put: Option<map<Key, V>>, handled: nat)
    ensures put == if AllMapped(chunk) then Some(Put(state, chunk, tied, cum)) else None
    ensures put.Some? ==> handled == Highest(chunk, tied)
  {
    var s := state;
    handled := 0;
    for i := 0 to |chunk|
      invariant AllMapped(chunk[..i])
      invariant s == Put(state, chunk[..i], tied, cum)
      invariant handled == Highest(chunk[..i], tied)
    {
      assert chunk[..i + 1][..i] == chunk[..i];
      var p := chunk[i];
      if p.source.Unmapped? {
        return None, handled;
      }
      var key := Kept(p, tied);
      if key.Some? {
        if key.value.Layer? && key.value.no > handled {
          handled := key.value.no;
        }
        s := s[Shift(key.value, cum) := p.value];
      }
    }
    assert chunk[..|chunk|] == chunk;
    put := Some(s);
  }

  /** Each leg of the walk extends the one before, and all of them begin the whole walk. */
  lemma {:induction false} WalkPrefix<V>(lst: seq<seq<Chunk<V>>>, v: nat, p: nat, vpp: nat)
    requires Rectangular(lst, vpp) && v < vpp && p <= |lst|
    ensures Walk(lst, v, p) <= Walk(lst, vpp, 0)
    decreases vpp - v, |lst| - p
  {
    if p < |lst| {
      WalkPrefix(lst, v, p + 1, vpp);
    } else if v + 1 < vpp {
      WalkPrefix(lst, v + 1, 0, vpp);
    }
  }

  /** The walk is virtual-stage major, stage minor. */
  lemma {:induction false} WalkAt<V>(lst: seq<seq<Chunk<V>>>, v: nat, p: nat, vpp: nat)
    requires Rectangular(lst, vpp) && v < vpp && p < |lst|
    ensures |Walk(lst, vpp, 0)| == vpp * |lst| && v * |lst| + p < vpp * |lst|
    ensures Walk(lst, vpp, 0)[v * |lst| + p] == lst[p][v]
  {
    WalkPrefix(lst, v, p + 1, vpp);
    WalkLength(lst, v, p, vpp);
    WalkLength(lst, vpp, 0, vpp);
    Arith.CellBound(v, p, vpp, |lst|);
  }

  lemma {:induction false} WalkLength<V>(lst: seq<seq<Chunk<V>>>, v: nat, p: nat, vpp: nat)
    requires Rectangular(lst, vpp) && p <= |lst| && (v < vpp || (v == vpp && p == 0))
    ensures |Walk(lst, v, p)| == v * |lst| + p
    decreases v, p
  {
    if p > 0 {
      WalkLength(lst, v, p - 1, vpp);
    } else if v > 0 {
      WalkLength(lst, v - 1, |lst|, vpp);
      Arith.MulStep(v, |lst|);
    }
  }

  // ---- Renumbering --------------------------------------------------------------------------

  lemma {:induction false} HighestIsMax<V>(chunk: Chunk<V>, tied: bool)
    ensures forall l :: l in Locals(chunk, tied) ==> l <= Highest(chunk, tied)
    ensures Locals(chunk, tied) == {} ==> Highest(chunk, tied) == 0
    ensures Locals(chunk, tied) != {} ==> Highest(chunk, tied) in Locals(chunk, tied)
  {
    if chunk != [] {
      var n := |chunk| - 1;
      HighestIsMax(chunk[..n], tied);
      LocalsStep(chunk, tied);
    }
  }

  lemma LocalsStep<V>(chunk: Chunk<V>, tied: bool)
    requires chunk != []
    ensures var n := |chunk| - 1;
      Locals(chunk, tied) == Locals(chunk[..n], tied)
        + (if LayerNo(chunk[n], tied).Some? then {LayerNo(chunk[n], tied).value} else {})
  {
  }

  /** The new number of a layer lies in the range of its own chunk. */
  lemma InRange<V>(chunks: seq<Chunk<V>>, tied: bool, i: nat, l: nat)
    requires i < |chunks| && l in Locals(chunks[i], tied)
    ensures Offset(chunks, tied, i) <= Offset(chunks, tied, i) + l < Offset(chunks, tied, i + 1)
  {
    HighestIsMax(chunks[i], tied);
  }

  lemma {:induction false} OffsetsGrow<V>(chunks: seq<Chunk<V>>, tied: bool, i: nat, j: nat)
    requires i <= j <= |chunks|
    ensures Offset(chunks, tied, i) + (j - i) <= Offset(chunks, tied, j)
    decreases j
  {
    if i < j {
      OffsetsGrow(chunks, tied, i, j - 1);
    }
  }

  /** Renumbering keeps the order of the walk and the order within a chunk, whatever the chunks
      hold; so no two layers meet. */
  lemma RenumberingIncreases<V>(chunks: seq<Chunk<V>>, tied: bool, i: nat, l: nat, j: nat, m: nat)
    requires i < |chunks| && j < |chunks|
    requires l in Locals(chunks[i], tied) && m in Locals(chunks[j], tied)
    ensures Offset(chunks, tied, i) + l < Offset(chunks, tied, j) + m <==> i < j || (i == j && l < m)
  {
    InRange(chunks, tied, i, l);
    InRange(chunks, tied, j, m);
    if i < j {
      OffsetsGrow(chunks, tied, i + 1, j);
    } else if j < i {
      OffsetsGrow(chunks, tied, j + 1, i);
    }
  }

  // ---- Onto 0..total-1 --------------------------------------------------------------------------

  ghost function Shifted(s: set<nat>, offset: nat): set<nat> {
    set l | l in s :: offset + l
  }

  /** The new numbers given to the layers of the first `i` chunks. */
  ghost function Numbers<V>(chunks: seq<Chunk<V>>, tied: bool, i: nat): set<nat>
    requires i <= |chunks|
  {
    if i == 0 then {}
    else Numbers(chunks, tied, i - 1) + Shifted(Locals(chunks[i - 1], tied), Offset(chunks, tied, i - 1))
  }

  /** The number of layers in the first `i` chunks. */
  ghost function Total<V>(chunks: seq<Chunk<V>>, tied: bool, i: nat): nat
    requires i <= |chunks|
  {
    if i == 0 then 0 else Total(chunks, tied, i - 1) + |Locals(chunks[i - 1], tied)|
  }

  ghost predicate InitialSegment(s: set<nat>) {
    forall x: nat, y: nat :: x < y && y in s ==> x in s
  }

  /** Local numbers start at 0 without gaps, and no chunk without layers comes before one with. */
  ghost predicate Compact<V>(chunks: seq<Chunk<V>>, tied: bool) {
    && (forall i :: 0 <= i < |chunks| ==> InitialSegment(Locals(chunks[i], tied)))
    && (forall i, j :: 0 <= i < j < |chunks| && Locals(chunks[j], tied) != {} ==> Locals(chunks[i], tied) != {})
  }

  lemma {:induction false} NumberOf<V>(chunks: seq<Chunk<V>>, tied: bool, n: nat, i: nat, l: nat)
    requires i < n <= |chunks| && l in Locals(chunks[i], tied)
    ensures Offset(chunks, tied, i) + l in Numbers(chunks, tied, n)
  {
    if i < n - 1 {
      NumberOf(chunks, tied, n - 1, i, l);
    } else {
      assert Offset(chunks, tied, i) + l in Shifted(Locals(chunks[i], tied), Offset(chunks, tied, i));
    }
  }

  lemma {:induction false} OwnerOf<V>(chunks: seq<Chunk<V>>, tied: bool, n: nat, x: nat) returns (i: nat, l: nat)
    requires n <= |chunks| && x in Numbers(chunks, tied, n)
    ensures i < n && l in Locals(chunks[i], tied) && x == Offset(chunks, tied, i) + l
  {
    if x in Numbers(chunks, tied, n - 1) {
      i, l := OwnerOf(chunks, tied, n - 1, x);
    } else {
      i := n - 1;
      l :| l in Locals(chunks[i], tied) && x == Offset(chunks, tied, i) + l;
    }
  }

  /** A number in a chunk's own range can only come from that chunk. */
  lemma OwnRange<V>(chunks: seq<Chunk<V>>, tied: bool, i: nat, x: nat)
    requires i < |chunks| && Offset(chunks, tied, i) <= x < Offset(chunks, tied, i + 1)
    requires x in Numbers(chunks, tied, |chunks|)
    ensures x - Offset(chunks, tied, i) in Locals(chunks[i], tied)
  {
    var j, m := OwnerOf(chunks, tied, |chunks|, x);
    InRange(chunks, tied, j, m);
    if i < j {
      OffsetsGrow(chunks, tied, i + 1, j);
    } else if j < i {
      OffsetsGrow(chunks, tied, j + 1, i);
    }
  }

  lemma SegmentIsCompact<V>(chunks: seq<Chunk<V>>, tied: bool)
    requires InitialSegment(Numbers(chunks, tied, |chunks|))
    ensures Compact(chunks, tied)
  {
    var all := Numbers(chunks, tied, |chunks|);
    forall i, x: nat, y: nat | 0 <= i < |chunks| && x < y && y in Locals(chunks[i], tied)
      ensures x in Locals(chunks[i], tied)
    {
      NumberOf(chunks, tied, |chunks|, i, y);
      InRange(chunks, tied, i, y);
      assert Offset(chunks, tied, i) + x in all;
      OwnRange(chunks, tied, i, Offset(chunks, tied, i) + x);
    }
    forall i, j | 0 <= i < j < |chunks| && Locals(chunks[j], tied) != {}
      ensures Locals(chunks[i], tied) != {}
    {
      var m :| m in Locals(chunks[j], tied);
      NumberOf(chunks, tied, |chunks|, j, m);
      OffsetsGrow(chunks, tied, i + 1, j);
      assert Offset(chunks, tied, i) in all;
      OwnRange(chunks, tied, i, Offset(chunks, tied, i));
    }
  }

  /** As long as no chunk is empty, the numbers fill the range up to the next offset. */
  lemma {:induction false} FillsRange<V>(chunks: seq<Chunk<V>>, tied: bool, n: nat)
    requires n <= |chunks| && Compact(chunks, tied)
    requires forall i :: 0 <= i < n ==> Locals(chunks[i], tied) != {}
    ensures forall x: nat :: x in Numbers(chunks, tied, n) <==> x < Offset(chunks, tied, n)
  {
    if n > 0 {
      FillsRange(chunks, tied, n - 1);
      var own, offset := Locals(chunks[n - 1], tied), Offset(chunks, tied, n - 1);
      HighestIsMax(chunks[n - 1], tied);
      assert forall l: nat :: l in own <==> l <= Highest(chunks[n - 1], tied);
      forall x: nat ensures x in Shifted(own, offset) <==> offset <= x < Offset(chunks, tied, n) {
        if offset <= x < Offset(chunks, tied, n) {
          assert x - offset in own;
        }
      }
    }
  }

  lemma {:induction false} CompactIsSegment<V>(chunks: seq<Chunk<V>>, tied: bool, n: nat)
    requires n <= |chunks| && Compact(chunks, tied)
    ensures InitialSegment(Numbers(chunks, tied, n))
  {
    if n > 0 {
      if Locals(chunks[n - 1], tied) == {} {
        CompactIsSegment(chunks, tied, n - 1);
        assert Shifted(Locals(chunks[n - 1], tied), Offset(chunks, tied, n - 1)) == {};
        assert Numbers(chunks, tied, n) == Numbers(chunks, tied, n - 1);
      } else {
        FillsRange(chunks, tied, n);
      }
    }
  }

  lemma {:induction false} ShiftedSize(s: set<nat>, offset: nat)
    ensures |Shifted(s, offset)| == |s|
  {
    if s != {} {
      var l :| l in s;
      ShiftedSize(s - {l}, offset);
      forall x | x in Shifted(s, offset) ensures x in Shifted(s - {l}, offset) + {offset + l} {
        var m :| m in s && x == offset + m;
        assert m == l || m in s - {l};
      }
      assert Shifted(s, offset) == Shifted(s - {l}, offset) + {offset + l};
    } else {
      assert Shifted(s, offset) == {};
    }
  }

  /** No two layers share a number, so the numbers are as many as the layers. */
  lemma {:induction false} NumbersCount<V>(chunks: seq<Chunk<V>>, tied: bool, n: nat)
    requires n <= |chunks|
    ensures |Numbers(chunks, tied, n)| == Total(chunks, tied, n)
    ensures forall x :: x in Numbers(chunks, tied, n) ==> x < Offset(chunks, tied, n)
  {
    hide Locals, Shifted, Highest;
    if n > 0 {
      NumbersCount(chunks, tied, n - 1);
      ShiftedBounds(chunks[n - 1], tied, Offset(chunks, tied, n - 1));
      ShiftedSize(Locals(chunks[n - 1], tied), Offset(chunks, tied, n - 1));
      assert Numbers(chunks, tied, n - 1) !! Shifted(Locals(chunks[n - 1], tied), Offset(chunks, tied, n - 1));
    }
  }

  lemma ShiftedBounds<V>(chunk: Chunk<V>, tied: bool, offset: nat)
    ensures forall x :: x in Shifted(Locals(chunk, tied), offset) ==> offset <= x < offset + Highest(chunk, tied) + 1
  {
    HighestIsMax(chunk, tied);
    hide Locals, Highest;
  }

  ghost function Upto(n: nat): set<nat> {
    if n == 0 then {} else Upto(n - 1) + {n - 1}
  }

  lemma {:induction false} UptoIs(n: nat)
    ensures |Upto(n)| == n
    ensures forall x: nat :: x in Upto(n) <==> x < n
  {
    if n > 0 {
      UptoIs(n - 1);
    }
  }

  lemma Contained(a: set<nat>, b: set<nat>)
    requires a <= b
    ensures |a| <= |b| && (|a| == |b| ==> a == b)
  {
    assert b == a + (b - a);
  }

  lemma SegmentCovers(s: set<nat>, y: nat, n: nat)
    requires InitialSegment(s) && y in s && n <= y
    ensures Upto(n + 1) <= s
  {
    UptoIs(n + 1);
    hide Upto;
  }

  lemma SegmentIsUpto(s: set<nat>)
    requires InitialSegment(s)
    ensures s == Upto(|s|)
  {
    hide *;
    var n := |s|;
    UptoIs(n);
    if y :| y in s && y >= n {
      SegmentCovers(s, y, n);
      UptoIs(n + 1);
      Contained(Upto(n + 1), s);
      assert false;
    }
    Contained(s, Upto(n));
  }

  /** The renumbering maps the layers one to one onto 0..total-1 exactly when every chunk numbers
      its layers from 0 without gaps and no chunk without layers comes before one with layers. */
  lemma RenumberingExactly<V>(chunks: seq<Chunk<V>>, tied: bool)
    ensures var n := |chunks|;
      Numbers(chunks, tied, n) == Upto(Total(chunks, tied, n)) <==> Compact(chunks, tied)
  {
    var n := |chunks|;
    NumbersCount(chunks, tied, n);
    if Compact(chunks, tied) {
      CompactIsSegment(chunks, tied, n);
      SegmentIsUpto(Numbers(chunks, tied, n));
    }
    if Numbers(chunks, tied, n) == Upto(Total(chunks, tied, n)) {
      UptoIs(Total(chunks, tied, n));
      SegmentIsCompact(chunks, tied);
    }
  }

  // ---- Nothing is overwritten --------------------------------------------------------------------

  /** The last parameter of a chunk under its key. */
  predicate Last<V>(chunk: Chunk<V>, tied: bool, x: nat) {
    x < |chunk| && Kept(chunk[x], tied).Some?
    && forall y :: x < y < |chunk| ==> Kept(chunk[y], tied) != Kept(chunk[x], tied)
  }

  lemma {:induction false} PutKeeps<V>(state: map<Key, V>, chunk: Chunk<V>, tied: bool, offset: nat, key: Key)
    requires forall y :: 0 <= y < |chunk| && Kept(chunk[y], tied).Some? ==>
      Shift(Kept(chunk[y], tied).value, offset) != key
    ensures key in Put(state, chunk, tied, offset) <==> key in state
    ensures key in state ==> Put(state, chunk, tied, offset)[key] == state[key]
  {
    if chunk != [] {
      PutKeeps(state, chunk[..|chunk| - 1], tied, offset, key);
    }
  }

  lemma {:induction false} PutWrites<V>(state: map<Key, V>, chunk: Chunk<V>, tied: bool, offset: nat, x: nat)
    requires Last(chunk, tied, x)
    ensures var key := Shift(Kept(chunk[x], tied).value, offset);
      key in Put(state, chunk, tied, offset) && Put(state, chunk, tied, offset)[key] == chunk[x].value
  {
    var n := |chunk| - 1;
    if x < n {
      PutWrites(state, chunk[..n], tied, offset, x);
      assert Kept(chunk[n], tied) != Kept(chunk[x], tied);
    }
  }

  /** Every layer parameter of every chunk is in the result under its new number, with its own
      value: no chunk overwrites a layer of another. */
  lemma LayersSurvive<V>(chunks: seq<Chunk<V>>, tied: bool, n: nat, i: nat, x: nat)
    requires i < n <= |chunks| && Last(chunks[i], tied, x) && LayerNo(chunks[i][x], tied).Some?
    ensures var key := Shift(Kept(chunks[i][x], tied).value, Offset(chunks, tied, i));
      key in PutAll(chunks, tied, n) && PutAll(chunks, tied, n)[key] == chunks[i][x].value
  {
    var key := Shift(Kept(chunks[i][x], tied).value, Offset(chunks, tied, i));
    if i == n - 1 {
      PutWrites(PutAll(chunks, tied, i), chunks[i], tied, Offset(chunks, tied, i), x);
    } else {
      LayersSurvive(chunks, tied, n - 1, i, x);
      var own := chunks[n - 1];
      forall y | 0 <= y < |own| && Kept(own[y], tied).Some?
        ensures Shift(Kept(own[y], tied).value, Offset(chunks, tied, n - 1)) != key
      {
        if LayerNo(own[y], tied).Some? {
          var l, m := LayerNo(chunks[i][x], tied).value, LayerNo(own[y], tied).value;
          assert l in Locals(chunks[i], tied) && m in Locals(own, tied);
          RenumberingIncreases(chunks, tied, i, l, n - 1, m);
        }
      }
      PutKeeps(PutAll(chunks, tied, n - 1), own, tied, Offset(chunks, tied, n - 1), key);
    }
  }

  /** And nothing else: every key of the result was put there by some chunk. */
  lemma {:induction false} NothingInvented<V>(chunks: seq<Chunk<V>>, tied: bool, n: nat, key: Key)
    returns (i: nat, x: nat)
    requires n <= |chunks| && key in PutAll(chunks, tied, n)
    ensures i < n && x < |chunks[i]| && Kept(chunks[i][x], tied).Some?
    ensures key == Shift(Kept(chunks[i][x], tied).value, Offset(chunks, tied, i))
    ensures PutAll(chunks, tied, n)[key] == chunks[i][x].value
  {
    var own, offset := chunks[n - 1], Offset(chunks, tied, n - 1);
    if y :| 0 <= y < |own| && Kept(own[y], tied).Some? && Shift(Kept(own[y], tied).value, offset) == key {
      i := n - 1;
      x := LastOf(own, tied, offset, key, y);
      PutWrites(PutAll(chunks, tied, n - 1), own, tied, offset, x);
    } else {
      PutKeeps(PutAll(chunks, tied, n - 1), own, tied, offset, key);
      i, x := NothingInvented(chunks, tied, n - 1, key);
    }
  }

  lemma {:induction false} LastOf<V>(chunk: Chunk<V>, tied: bool, offset: nat, key: Key, y: nat) returns (x: nat)
    requires y < |chunk| && Kept(chunk[y], tied).Some? && Shift(Kept(chunk[y], tied).value, offset) == key
    ensures Last(chunk, tied, x) && Shift(Kept(chunk[x], tied).value, offset) == key
    decreases |chunk| - y
  {
    if z :| y < z < |chunk| && Kept(chunk[z], tied) == Kept(chunk[y], tied) {
      x := LastOf(chunk, tied, offset, key, z);
    } else {
      x := y;
    }
  }

  // ---- What becomes of every parameter ---------------------------------------------------------------

  /** A parameter that is to be found under this key: one with a target name, or an output layer
      that is not tied to the embedding. */
  predicate BelongsTo<V>(p: Param<V>, tied: bool, key: Key) {
    match p.source
    case Named(k) => k == key
    case OutputLayer(name) => !tied && key == Outer(name)
    case _ => false
  }

  /** The parameter is the last of its chunk for its key. */
  ghost predicate LastFor<V>(chunk: Chunk<V>, tied: bool, x: nat, key: Key) {
    x < |chunk| && BelongsTo(chunk[x], tied, key) && forall y :: x < y < |chunk| ==> !BelongsTo(chunk[y], tied, key)
  }

  lemma KeptIs<V>(p: Param<V>, tied: bool, key: Key)
    ensures Kept(p, tied) == Some(key) <==> BelongsTo(p, tied, key)
  {
  }

  lemma LastIs<V>(chunk: Chunk<V>, tied: bool, x: nat, key: Key)
    requires LastFor(chunk, tied, x, key)
    ensures Last(chunk, tied, x) && Kept(chunk[x], tied) == Some(key)
  {
    forall y | 0 <= y < |chunk| ensures Kept(chunk[y], tied) == Some(key) <==> BelongsTo(chunk[y], tied, key) {
      KeptIs(chunk[y], tied, key);
    }
    hide Kept, BelongsTo;
  }

  /** A layer's parameter is found under the layer's new number, and one outside the layers
      (embedding, final norm, output layer) under its own name, unless a later chunk has one of
      that name too. */
  lemma {:induction false} EveryParameterIsFound<V>(chunks: seq<Chunk<V>>, tied: bool, n: nat, i: nat, x: nat, key: Key)
    requires i < n <= |chunks| && LastFor(chunks[i], tied, x, key)
    requires key.Outer? ==>
      forall j, y :: i < j < n && 0 <= y < |chunks[j]| ==> !BelongsTo(chunks[j][y], tied, key)
    ensures var found := if key.Layer? then Layer(key.no + Offset(chunks, tied, i), key.name) else key;
      found in PutAll(chunks, tied, n) && PutAll(chunks, tied, n)[found] == chunks[i][x].value
  {
    LastIs(chunks[i], tied, x, key);
    if key.Layer? {
      LayersSurvive(chunks, tied, n, i, x);
    } else if i == n - 1 {
      PutWrites(PutAll(chunks, tied, i), chunks[i], tied, Offset(chunks, tied, i), x);
    } else {
      EveryParameterIsFound(chunks, tied, n - 1, i, x, key);
      var own, offset := chunks[n - 1], Offset(chunks, tied, n - 1);
      forall y | 0 <= y < |own| && Kept(own[y], tied).Some? ensures Shift(Kept(own[y], tied).value, offset) != key {
        KeptIs(own[y], tied, key);
      }
      PutKeeps(PutAll(chunks, tied, n - 1), own, tied, offset, key);
    }
  }

  /** And nothing else is: extra state is left out, and so is an output layer tied to the
      embedding. */
  lemma OnlyParametersAreFound<V>(chunks: seq<Chunk<V>>, tied: bool, key: Key) returns (i: nat, x: nat, was: Key)
    requires key in PutAll(chunks, tied, |chunks|)
    ensures i < |chunks| && x < |chunks[i]| && BelongsTo(chunks[i][x], tied, was)
    ensures key == if was.Layer? then Layer(was.no + Offset(chunks, tied, i), was.name) else was
    ensures PutAll(chunks, tied, |chunks|)[key] == chunks[i][x].value
  {
    i, x := NothingInvented(chunks, tied, |chunks|, key);
    was := Kept(chunks[i][x], tied).value;
    KeptIs(chunks[i][x], tied, was);
  }
}
