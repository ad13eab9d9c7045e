/** Row operations on a batch of tensor and non-tensor columns. Every operation reads all columns
    through one index map, and the round trips follow from the index maps. */
module DataProtos {
  import opened Wrappers
  import opened Slices
  import opened Permutations

  type Key = string

  /** The entries of one row of one column along its second dimension; an entry stands for all that
      further dimensions hold there. */
  type Item = seq<int>

  type Column = seq<Item>

  datatype DataProto = DataProto(size: nat, tensors: Option<map<Key, Column>>, objects: map<Key, Column>)

  predicate Sized(columns: map<Key, Column>, size: nat) {
    forall k :: k in columns ==> |columns[k]| == size
  }

  /** All columns have the length of the batch. */
  predicate Valid(p: DataProto) {
    && (p.tensors.Some? ==> Sized(p.tensors.value, p.size))
    && Sized(p.objects, p.size)
  }

  // ---- Index maps ----------------------------------------------------------------------------

  function ReadColumns(columns: map<Key, Column>, size: nat, rows: seq<nat>): map<Key, Column>
    requires Sized(columns, size) && Below(rows, size)
  {
    map k | k in columns :: Pick(columns[k], rows)
  }

  /** Indexing with a list of rows: the same rows of every column. */
  function Gather(p: DataProto, rows: seq<nat>): (r: DataProto)
    requires Valid(p) && Below(rows, p.size)
    ensures Valid(r) && r.size == |rows|
  {
    DataProto(|rows|,
              if p.tensors.None? then None else Some(ReadColumns(p.tensors.value, p.size, rows)),
              ReadColumns(p.objects, p.size, rows))
  }

  /** Two reads in a row are one read. */
  lemma GatherThen(p: DataProto, a: seq<nat>, b: seq<nat>)
    requires Valid(p) && Below(a, p.size) && Below(b, |a|)
    ensures Below(Pick(a, b), p.size)
    ensures Gather(Gather(p, a), b) == Gather(p, Pick(a, b))
  {
    var q := Gather(p, a);
    ReadThen(p.objects, p.size, a, b);
    if p.tensors.Some? {
      ReadThen(p.tensors.value, p.size, a, b);
    }
  }

  lemma ReadThen(columns: map<Key, Column>, size: nat, a: seq<nat>, b: seq<nat>)
    requires Sized(columns, size) && Below(a, size) && Below(b, |a|)
    ensures Below(Pick(a, b), size)
    ensures ReadColumns(ReadColumns(columns, size, a), |a|, b) == ReadColumns(columns, size, Pick(a, b))
  {
    forall k | k in columns
      ensures Pick(Pick(columns[k], a), b) == Pick(columns[k], Pick(a, b))
    {
    }
  }

  /** Reading every row in order changes nothing. */
  lemma GatherAll(p: DataProto)
    requires Valid(p)
    ensures Below(Range(p.size), p.size) && Gather(p, Range(p.size)) == p
  {
    forall k | k in p.objects ensures Pick(p.objects[k], Range(p.size)) == p.objects[k] {
    }
    assert ReadColumns(p.objects, p.size, Range(p.size)) == p.objects;
    if p.tensors.Some? {
      var columns := p.tensors.value;
      forall k | k in columns ensures Pick(columns[k], Range(p.size)) == columns[k] {
      }
      assert ReadColumns(columns, p.size, Range(p.size)) == columns;
    }
  }

  // ---- Concat ------------------------------------------------------------------------------------

  predicate SameKeys(maps: seq<map<Key, Column>>) {
    forall i :: 0 <= i < |maps| ==> maps[i].Keys == maps[0].Keys
  }

  /** The column `k` of each batch. */
  function Stack(maps: seq<map<Key, Column>>, k: Key): (r: seq<Column>)
    requires forall i :: 0 <= i < |maps| ==> k in maps[i]
    ensures |r| == |maps| && forall i :: 0 <= i < |r| ==> r[i] == maps[i][k]
  {
    seq(|maps|, i requires 0 <= i < |maps| => maps[i][k])
  }

  function JoinColumns(maps: seq<map<Key, Column>>): map<Key, Column>
    requires maps != [] && SameKeys(maps)
  {
    map k | k in maps[0] :: Flatten(Stack(maps, k))
  }

  function Sizes(ps: seq<DataProto>): nat {
    if ps == [] then 0 else Sizes(ps[..|ps| - 1]) + ps[|ps| - 1].size
  }

  function ObjectsOf(ps: seq<DataProto>): (r: seq<map<Key, Column>>)
    ensures |r| == |ps| && forall i :: 0 <= i < |r| ==> r[i] == ps[i].objects
  {
    seq(|ps|, i requires 0 <= i < |ps| => ps[i].objects)
  }

  function TensorsOf(ps: seq<DataProto>): (r: seq<map<Key, Column>>)
    requires forall i :: 0 <= i < |ps| ==> ps[i].tensors.Some?
    ensures |r| == |ps| && forall i :: 0 <= i < |r| ==> r[i] == ps[i].tensors.value
  {
    seq(|ps|, i requires 0 <= i < |ps| => ps[i].tensors.value)
  }

  /** Batches with the same columns. */
  predicate Alike(ps: seq<DataProto>) {
    && SameKeys(ObjectsOf(ps))
    && (forall i :: 0 <= i < |ps| ==> (ps[i].tensors.Some? <==> ps[0].tensors.Some?))
    && (|ps| > 0 && ps[0].tensors.Some? ==> SameKeys(TensorsOf(ps)))
  }

  function Concat(ps: seq<DataProto>): DataProto
    requires ps != [] && Alike(ps)
  {
    DataProto(Sizes(ps),
              if ps[0].tensors.None? then None else Some(JoinColumns(TensorsOf(ps))),
              JoinColumns(ObjectsOf(ps)))
  }

  /** Several reads of one batch. */
  function GatherEach(p: DataProto, parts: seq<seq<nat>>): (r: seq<DataProto>)
    requires Valid(p) && AllBelow(parts, p.size)
    ensures |r| == |parts| && forall i :: 0 <= i < |r| ==> r[i] == Gather(p, parts[i])
  {
    seq(|parts|, i requires 0 <= i < |parts| => Gather(p, parts[i]))
  }

  predicate AllBelow(parts: seq<seq<nat>>, limit: nat) {
    forall i :: 0 <= i < |parts| ==> Below(parts[i], limit)
  }

  lemma {:induction false} FlattenBelow(parts: seq<seq<nat>>, limit: nat)
    requires AllBelow(parts, limit)
    ensures Below(Flatten(parts), limit)
  {
    if parts != [] {
      FlattenBelow(parts[..|parts| - 1], limit);
    }
  }

  lemma GathersAlike(p: DataProto, parts: seq<seq<nat>>)
    requires Valid(p) && AllBelow(parts, p.size)
    ensures Alike(GatherEach(p, parts))
  {
  }

  function ReadEach(column: Column, parts: seq<seq<nat>>): (r: seq<Column>)
    requires AllBelow(parts, |column|)
    ensures |r| == |parts| && forall i :: 0 <= i < |r| ==> r[i] == Pick(column, parts[i])
  {
    seq(|parts|, i requires 0 <= i < |parts| => Pick(column, parts[i]))
  }

  lemma {:induction false} ReadParts(column: Column, parts: seq<seq<nat>>)
    requires AllBelow(parts, |column|)
    ensures Below(Flatten(parts), |column|)
    ensures Flatten(ReadEach(column, parts)) == Pick(column, Flatten(parts))
  {
    FlattenBelow(parts, |column|);
    if parts != [] {
      var n := |parts| - 1;
      ReadParts(column, parts[..n]);
      assert ReadEach(column, parts)[..n] == ReadEach(column, parts[..n]);
      FlattenUnfold(parts);
      FlattenUnfold(ReadEach(column, parts));
      hide Flatten;
      assert Pick(column, Flatten(parts[..n]) + parts[n])
          == Pick(column, Flatten(parts[..n])) + Pick(column, parts[n]);
    }
  }

  lemma {:induction false} GatheredSizes(p: DataProto, parts: seq<seq<nat>>)
    requires Valid(p) && AllBelow(parts, p.size)
    ensures Sizes(GatherEach(p, parts)) == |Flatten(parts)|
  {
    if parts != [] {
      var n := |parts| - 1;
      GatheredSizes(p, parts[..n]);
      assert GatherEach(p, parts)[..n] == GatherEach(p, parts[..n]);
    }
  }

  lemma JoinReads(columns: map<Key, Column>, size: nat, maps: seq<map<Key, Column>>, parts: seq<seq<nat>>)
    requires Sized(columns, size) && AllBelow(parts, size) && parts != [] && |maps| == |parts|
    requires forall i :: 0 <= i < |maps| ==> maps[i] == ReadColumns(columns, size, parts[i])
    ensures Below(Flatten(parts), size) && SameKeys(maps)
    ensures JoinColumns(maps) == ReadColumns(columns, size, Flatten(parts))
  {
    FlattenBelow(parts, size);
    MapsAlike(columns, size, maps, parts);
    var target := ReadColumns(columns, size, Flatten(parts));
    ReadKeys(columns, size, Flatten(parts));
    hide *;
    forall k | k in target ensures Flatten(Stack(maps, k)) == target[k] {
      StackReads(columns, size, maps, parts, k);
    }
    JoinIs(maps, target);
  }

  lemma MapsAlike(columns: map<Key, Column>, size: nat, maps: seq<map<Key, Column>>, parts: seq<seq<nat>>)
    requires Sized(columns, size) && AllBelow(parts, size) && |maps| == |parts|
    requires forall i :: 0 <= i < |maps| ==> maps[i] == ReadColumns(columns, size, parts[i])
    ensures SameKeys(maps) && forall i :: 0 <= i < |maps| ==> maps[i].Keys == columns.Keys
  {
  }

  lemma ReadKeys(columns: map<Key, Column>, size: nat, rows: seq<nat>)
    requires Sized(columns, size) && Below(rows, size)
    ensures ReadColumns(columns, size, rows).Keys == columns.Keys
    ensures forall k :: k in columns ==>
      |columns[k]| == size && ReadColumns(columns, size, rows)[k] == Pick(columns[k], rows)
  {
  }

  lemma JoinIs(maps: seq<map<Key, Column>>, target: map<Key, Column>)
    requires maps != [] && SameKeys(maps) && target.Keys == maps[0].Keys
    requires forall k :: k in target ==> Flatten(Stack(maps, k)) == target[k]
    ensures JoinColumns(maps) == target
  {
  }

  lemma StackReads(columns: map<Key, Column>, size: nat, maps: seq<map<Key, Column>>, parts: seq<seq<nat>>, k: Key)
    requires Sized(columns, size) && AllBelow(parts, size) && |maps| == |parts| && k in columns
    requires forall i :: 0 <= i < |maps| ==> maps[i] == ReadColumns(columns, size, parts[i])
    ensures Below(Flatten(parts), size) && forall i :: 0 <= i < |maps| ==> k in maps[i]
    ensures Flatten(Stack(maps, k)) == Pick(columns[k], Flatten(parts))
  {
    ReadParts(columns[k], parts);
    assert Stack(maps, k) == ReadEach(columns[k], parts);
  }

  /** Putting reads one after the other is one read. */
  lemma ConcatGathers(p: DataProto, parts: seq<seq<nat>>)
    requires Valid(p) && parts != [] && AllBelow(parts, p.size)
    ensures Alike(GatherEach(p, parts)) && Below(Flatten(parts), p.size)
    ensures Concat(GatherEach(p, parts)) == Gather(p, Flatten(parts))
  {
    GathersAlike(p, parts);
    GatheredSizes(p, parts);
    var ps := GatherEach(p, parts);
    hide Flatten, ReadColumns, JoinColumns;
    JoinReads(p.objects, p.size, ObjectsOf(ps), parts);
    if p.tensors.Some? {
      JoinReads(p.tensors.value, p.size, TensorsOf(ps), parts);
    }
  }
}
