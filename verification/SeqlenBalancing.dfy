/** Karmarkar-Karp partitioning of sequence lengths into parts of equal size, as used to
    balance batches. The heap order decides which parts arise; that the parts are equal-sized
    and split the indices does not depend on it. */
module SeqlenBalancing {
  import opened Wrappers
  import opened Permutations
  import opened Slices
  import Arith

  datatype Item = Item(idx: nat, len: nat)

  /** One set of the algorithm: its items and their total. */
  datatype Bin = Bin(sum: nat, items: seq<Item>)

  /** k sets, largest first. */
  type Row = seq<Bin>

  datatype Failure = AssertionFailed | DivisionByZero

  // ---- The orders the program sorts by -------------------------------------------------

  predicate ItemLess(a: Item, b: Item) {
    a.idx < b.idx || (a.idx == b.idx && a.len < b.len)
  }

  predicate ItemsLess(a: seq<Item>, b: seq<Item>) {
    if b == [] then false
    else if a == [] then true
    else if a[0] != b[0] then ItemLess(a[0], b[0])
    else ItemsLess(a[1..], b[1..])
  }

  predicate BinLess(a: Bin, b: Bin) {
    if a.sum != b.sum then a.sum < b.sum
    else if |a.items| != |b.items| then |a.items| < |b.items|
    else ItemsLess(a.items, b.items)
  }

  function Spread(r: Row): int
    requires r != []
  {
    r[0].sum - r[|r| - 1].sum
  }

  /** The heap pops the widest spread first, then the largest first set. */
  predicate RowLess(a: Row, b: Row)
    requires a != [] && b != []
  {
    if Spread(a) != Spread(b) then Spread(a) > Spread(b) else BinLess(b[0], a[0])
  }

  // ---- Sorting -------------------------------------------------------------------------

  function InsertDown(b: Bin, sorted: Row): Row {
    if sorted == [] || !BinLess(b, sorted[0]) then [b] + sorted
    else [sorted[0]] + InsertDown(b, sorted[1..])
  }

  /** `sorted(sets, reverse=True)`. */
  function SortDown(r: Row): Row {
    if r == [] then [] else InsertDown(r[0], SortDown(r[1..]))
  }

  function InsertUp(x: Item, sorted: seq<Item>): seq<Item> {
    if sorted == [] || x.len < sorted[0].len || (x.len == sorted[0].len && x.idx <= sorted[0].idx) then [x] + sorted
    else [sorted[0]] + InsertUp(x, sorted[1..])
  }

  /** Items by length, then index. */
  function SortItems(xs: seq<Item>): seq<Item> {
    if xs == [] then [] else InsertUp(xs[0], SortItems(xs[1..]))
  }

  function InsertIdx(x: nat, sorted: seq<nat>): seq<nat> {
    if sorted == [] || x <= sorted[0] then [x] + sorted else [sorted[0]] + InsertIdx(x, sorted[1..])
  }

  function SortIdx(xs: seq<nat>): seq<nat> {
    if xs == [] then [] else InsertIdx(xs[0], SortIdx(xs[1..]))
  }

  lemma {:induction false} InsertUpSame(x: Item, sorted: seq<Item>)
    ensures multiset(InsertUp(x, sorted)) == multiset{x} + multiset(sorted)
  {
    if sorted != [] {
      InsertUpSame(x, sorted[1..]);
      assert sorted == [sorted[0]] + sorted[1..];
    }
  }

  lemma {:induction false} SortItemsSame(xs: seq<Item>)
    ensures multiset(SortItems(xs)) == multiset(xs)
  {
    if xs != [] {
      SortItemsSame(xs[1..]);
      InsertUpSame(xs[0], SortItems(xs[1..]));
      assert xs == [xs[0]] + xs[1..];
    }
  }

  lemma {:induction false} InsertIdxSame(x: nat, sorted: seq<nat>)
    ensures multiset(InsertIdx(x, sorted)) == multiset{x} + multiset(sorted)
  {
    if sorted != [] {
      InsertIdxSame(x, sorted[1..]);
      assert sorted == [sorted[0]] + sorted[1..];
    }
  }

  lemma {:induction false} SortIdxSame(xs: seq<nat>)
    ensures multiset(SortIdx(xs)) == multiset(xs)
    ensures |SortIdx(xs)| == |xs|
  {
    if xs != [] {
      SortIdxSame(xs[1..]);
      InsertIdxSame(xs[0], SortIdx(xs[1..]));
      assert xs == [xs[0]] + xs[1..];
      assert |multiset(SortIdx(xs))| == |multiset(xs)|;
    }
  }

  // ---- What rows hold ---------------------------------------------------------------------

  /** All items of a row. */
  function Held(r: Row): multiset<Item> {
    if r == [] then multiset{} else multiset(r[0].items) + Held(r[1..])
  }

  /** All items of the heap. */
  function HeldBy(heap: seq<Row>): multiset<Item> {
    if heap == [] then multiset{} else Held(heap[0]) + HeldBy(heap[1..])
  }

  /** k sets of one common size. */
  ghost predicate Even(r: Row, k: nat) {
    |r| == k && forall i, j :: 0 <= i < |r| && 0 <= j < |r| ==> |r[i].items| == |r[j].items|
  }

  lemma {:induction false} InsertDownHolds(b: Bin, sorted: Row)
    ensures Held(InsertDown(b, sorted)) == multiset(b.items) + Held(sorted)
    ensures |InsertDown(b, sorted)| == |sorted| + 1
    ensures forall x :: x in InsertDown(b, sorted) ==> x == b || x in sorted
  {
    if sorted != [] && BinLess(b, sorted[0]) {
      InsertDownHolds(b, sorted[1..]);
    }
  }

  lemma {:induction false} SortDownHolds(r: Row)
    ensures Held(SortDown(r)) == Held(r)
    ensures |SortDown(r)| == |r|
    ensures forall x :: x in SortDown(r) ==> x in r
  {
    if r != [] {
      SortDownHolds(r[1..]);
      InsertDownHolds(r[0], SortDown(r[1..]));
    }
  }

  lemma SortDownEven(r: Row, k: nat)
    requires Even(r, k)
    ensures Even(SortDown(r), k)
  {
    SortDownHolds(r);
    var s := SortDown(r);
    forall i, j | 0 <= i < |s| && 0 <= j < |s| ensures |s[i].items| == |s[j].items| {
      assert s[i] in r && s[j] in r;
    }
  }

  lemma {:induction false} HeldSplit(a: Row, b: Row)
    ensures Held(a + b) == Held(a) + Held(b)
  {
    if a == [] {
      assert a + b == b;
    } else {
      assert (a + b)[1..] == a[1..] + b;
      HeldSplit(a[1..], b);
    }
  }

  lemma {:induction false} HeldBySplit(a: seq<Row>, b: seq<Row>)
    ensures HeldBy(a + b) == HeldBy(a) + HeldBy(b)
  {
    if a == [] {
      assert a + b == b;
    } else {
      assert (a + b)[1..] == a[1..] + b;
      HeldBySplit(a[1..], b);
    }
  }

  // ---- Merging two states -------------------------------------------------------------------

  function MergeBin(a: Bin, b: Bin): Bin {
    Bin(a.sum + b.sum, a.items + b.items)
  }

  /** Largest with smallest, second largest with second smallest, and so on. */
  function Crosswise(a: Row, b: Row): (r: Row)
    requires |a| == |b|
    ensures |r| == |a| && forall i :: 0 <= i < |a| ==> r[i] == MergeBin(a[i], b[|b| - 1 - i])
  {
    if a == [] then [] else [MergeBin(a[0], b[|b| - 1])] + Crosswise(a[1..], b[..|b| - 1])
  }

  function MergeRows(a: Row, b: Row): Row
    requires |a| == |b|
  {
    SortDown(Crosswise(a, b))
  }

  lemma {:induction false} CrosswiseHolds(a: Row, b: Row)
    requires |a| == |b|
    ensures Held(Crosswise(a, b)) == Held(a) + Held(b)
  {
    if a != [] {
      var n := |b| - 1;
      CrosswiseHolds(a[1..], b[..n]);
      HeldSplit(b[..n], [b[n]]);
      assert b == b[..n] + [b[n]];
      assert Held([b[n]]) == multiset(b[n].items) by {
        assert [b[n]][1..] == [];
      }
      assert Crosswise(a, b)[1..] == Crosswise(a[1..], b[..n]);
    }
  }

  lemma MergeRowsHolds(a: Row, b: Row, k: nat)
    requires Even(a, k) && Even(b, k)
    ensures Even(MergeRows(a, b), k)
    ensures Held(MergeRows(a, b)) == Held(a) + Held(b)
  {
    CrosswiseHolds(a, b);
    SortDownHolds(Crosswise(a, b));
    SortDownEven(Crosswise(a, b), k);
  }

  // ---- Sums ------------------------------------------------------------------------------------

  function Total(items: seq<Item>): int {
    if items == [] then 0 else items[0].len + Total(items[1..])
  }

  /** The sum of every set is the total of its items, the sets are in descending order of their
      sums, and no two sums differ by more than `d`. */
  ghost predicate Close(r: Row, d: int) {
    && (forall i :: 0 <= i < |r| ==> r[i].sum == Total(r[i].items))
    && Descending(r)
    && (forall i, j :: 0 <= i < |r| && 0 <= j < |r| ==> r[i].sum <= r[j].sum + d)
  }

  ghost predicate Descending(r: Row) {
    forall i, j :: 0 <= i < j < |r| ==> r[j].sum <= r[i].sum
  }

  lemma {:induction false} TotalConcat(a: seq<Item>, b: seq<Item>)
    ensures Total(a + b) == Total(a) + Total(b)
  {
    if a == [] {
      assert a + b == b;
    } else {
      TotalConcat(a[1..], b);
      assert (a + b)[1..] == a[1..] + b;
    }
  }

  /** Sorting puts the sums in descending order. */
  lemma {:induction false} InsertDownSorts(b: Bin, sorted: Row)
    requires Descending(sorted)
    ensures Descending(InsertDown(b, sorted))
  {
    InsertDownHolds(b, sorted);
    if sorted != [] && BinLess(b, sorted[0]) {
      InsertDownSorts(b, sorted[1..]);
      InsertDownHolds(b, sorted[1..]);
      var rest := InsertDown(b, sorted[1..]);
      forall i | 0 <= i < |rest| ensures rest[i].sum <= sorted[0].sum {
        assert rest[i] in rest;
      }
    }
  }

  lemma {:induction false} SortDownSorts(r: Row)
    ensures Descending(SortDown(r))
  {
    if r != [] {
      SortDownSorts(r[1..]);
      InsertDownSorts(r[0], SortDown(r[1..]));
    }
  }

  /** Sorting a row whose sums are close gives a close row. */
  lemma SortDownClose(r: Row, d: int)
    requires forall i :: 0 <= i < |r| ==> r[i].sum == Total(r[i].items)
    requires forall i, j :: 0 <= i < |r| && 0 <= j < |r| ==> r[i].sum <= r[j].sum + d
    ensures Close(SortDown(r), d)
  {
    SortDownHolds(r);
    SortDownSorts(r);
    var s := SortDown(r);
    hide Total, SortDown;
    forall i | 0 <= i < |s| ensures exists x :: 0 <= x < |r| && s[i] == r[x] {
      assert s[i] in r;
    }
  }

  /** The crosswise merge of two rows: the excess of one set over another in the first row is set
      against the opposite excess in the second, so sums stay as close as they were. */
  lemma MergeRowsClose(a: Row, b: Row, d: int)
    requires |a| == |b| && d >= 0 && Close(a, d) && Close(b, d)
    ensures Close(MergeRows(a, b), d)
  {
    var r := Crosswise(a, b);
    forall i | 0 <= i < |r| ensures r[i].sum == Total(r[i].items) {
      TotalConcat(a[i].items, b[|b| - 1 - i].items);
    }
    hide Total;
    forall i, j | 0 <= i < |r| && 0 <= j < |r| ensures r[i].sum <= r[j].sum + d {
    }
    SortDownClose(r, d);
  }

  // ---- The heap ------------------------------------------------------------------------------

  lemma {:induction false} ItemsOrder(a: seq<Item>, b: seq<Item>, c: seq<Item>)
    requires ItemsLess(a, b) && ItemsLess(b, c)
    ensures ItemsLess(a, c)
  {
    if a != [] && a[0] == b[0] && b[0] == c[0] {
      ItemsOrder(a[1..], b[1..], c[1..]);
    }
  }

  lemma {:induction false} ItemsStrict(a: seq<Item>)
    ensures !ItemsLess(a, a)
  {
    if a != [] {
      ItemsStrict(a[1..]);
    }
  }

  lemma RowsOrder(a: Row, b: Row, c: Row)
    requires a != [] && b != [] && c != [] && RowLess(a, b) && RowLess(b, c)
    ensures RowLess(a, c)
  {
    if ItemsLess(c[0].items, b[0].items) && ItemsLess(b[0].items, a[0].items) {
      ItemsOrder(c[0].items, b[0].items, a[0].items);
    }
  }

  /** Index of a row that no other row precedes in heap order. */
  method PopIndex(heap: seq<Row>) returns (best: nat)
    requires heap != [] && forall i :: 0 <= i < |heap| ==> heap[i] != []
    ensures best < |heap| && forall i :: 0 <= i < |heap| ==> !RowLess(heap[i], heap[best])
    ensures forall i :: 0 <= i < |heap| ==> Spread(heap[i]) <= Spread(heap[best])
  {
    hide RowLess, Spread;
    best := 0;
    RowStrict(heap[0]);
    for i := 1 to |heap|
      invariant best < |heap| && forall j :: 0 <= j < i ==> !RowLess(heap[j], heap[best])
    {
      if RowLess(heap[i], heap[best]) {
        forall j | 0 <= j < i ensures !RowLess(heap[j], heap[i]) {
          if RowLess(heap[j], heap[i]) {
            RowsOrder(heap[j], heap[i], heap[best]);
          }
        }
        best := i;
        RowStrict(heap[i]);
      }
    }
    WidestFirst(heap, best);
  }

  /** A row that comes before no other in the heap has the widest spread. */
  lemma WidestFirst(heap: seq<Row>, best: nat)
    requires best < |heap| && forall i :: 0 <= i < |heap| ==> heap[i] != []
    requires forall i :: 0 <= i < |heap| ==> !RowLess(heap[i], heap[best])
    ensures forall i :: 0 <= i < |heap| ==> Spread(heap[i]) <= Spread(heap[best])
  {
    hide BinLess;
  }

  lemma RowStrict(a: Row)
    requires a != []
    ensures !RowLess(a, a)
  {
    ItemsStrict(a[0].items);
  }

  lemma RemoveHolds(heap: seq<Row>, i: nat)
    requires i < |heap|
    ensures HeldBy(heap) == Held(heap[i]) + HeldBy(heap[..i] + heap[i + 1..])
  {
    hide *;
    assert heap == heap[..i] + ([heap[i]] + heap[i + 1..]);
    HeldBySplit(heap[..i], [heap[i]] + heap[i + 1..]);
    HeldBySplit(heap[..i], heap[i + 1..]);
    HeldByCons(heap[i], heap[i + 1..]);
  }

  lemma HeldByCons(row: Row, rest: seq<Row>)
    ensures HeldBy([row] + rest) == Held(row) + HeldBy(rest)
    ensures HeldBy([]) == multiset{}
  {
    assert ([row] + rest)[1..] == rest;
  }

  // ---- Initial states ---------------------------------------------------------------------------

  function Enumerate(lens: seq<nat>): seq<Item> {
    seq(|lens|, i requires 0 <= i < |lens| => Item(i, lens[i]))
  }

  function Singles(xs: seq<Item>): Row {
    seq(|xs|, i requires 0 <= i < |xs| => Bin(xs[i].len, [xs[i]]))
  }

  lemma {:induction false} SinglesHold(xs: seq<Item>)
    ensures Held(Singles(xs)) == multiset(xs)
    ensures Even(Singles(xs), |xs|)
  {
    if xs != [] {
      SinglesHold(xs[1..]);
      assert Singles(xs)[1..] == Singles(xs[1..]);
      assert xs == [xs[0]] + xs[1..];
    }
  }

  /** The contract of the partitioner: k parts of one size that split the indices. */
  ghost predicate EqualPartition(parts: seq<seq<nat>>, k: nat, n: nat) {
    && k > 0 && n % k == 0
    && |parts| == k
    && (forall p :: 0 <= p < |parts| ==> |parts[p]| == n / k)
    && IsPermutation(Flatten(parts), n)
  }

  function Indices(items: seq<Item>): seq<nat> {
    seq(|items|, i requires 0 <= i < |items| => items[i].idx)
  }

  /** The rows the heap starts with: k neighbours of the sorted list each. */
  method InitialHeap(sorted: seq<Item>, k: nat) returns (heap: seq<Row>)
    requires k > 0 && |sorted| % k == 0 && |sorted| >= k
    ensures heap != [] && EvenAll(heap, k)
    ensures HeldBy(heap) == multiset(sorted)
    ensures forall d :: RunsWithin(sorted, k, d) ==> CloseAll(heap, d)
  {
    hide *;
    heap := [];
    HeldByCons([], []);
    NoRows(k);
    NoneClose();
    var offset := 0;
    while offset < |sorted|
      invariant offset <= |sorted| && offset % k == 0
      invariant EvenAll(heap, k)
      invariant HeldBy(heap) == multiset(sorted[..offset])
      invariant offset > 0 ==> heap != []
      invariant forall d :: RunsWithin(sorted, k, d) ==> CloseAll(heap, d)
    {
      StepFits(offset, |sorted|, k);
      var items := sorted[offset..offset + k];
      NewRow(items, k);
      forall d | RunsWithin(sorted, k, d) ensures CloseAll(heap + [SortDown(Singles(items))], d) {
        RunAt(sorted, k, d, offset);
        NewRowClose(items, d);
        PushClose(heap, SortDown(Singles(items)), d);
      }
      assert sorted[..offset + k] == sorted[..offset] + items;
      PushHolds(heap, SortDown(Singles(items)));
      PushEven(heap, SortDown(Singles(items)), k);
      heap := heap + [SortDown(Singles(items))];
      offset := offset + k;
    }
    assert sorted[..offset] == sorted;
  }

  ghost predicate CloseAll(heap: seq<Row>, d: int) {
    forall i :: 0 <= i < |heap| ==> Close(heap[i], d)
  }

  /** No two lengths differ by more than `d`. */
  ghost predicate Within(items: seq<Item>, d: int) {
    forall i, j :: 0 <= i < |items| && 0 <= j < |items| ==> items[i].len <= items[j].len + d
  }

  lemma NoneClose()
    ensures forall d :: CloseAll([], d)
  {
  }

  lemma PushClose(heap: seq<Row>, row: Row, d: int)
    requires CloseAll(heap, d) && Close(row, d)
    ensures CloseAll(heap + [row], d)
  {
  }

  /** Within every run of k neighbours no two lengths differ by more than `d`. */
  ghost predicate RunsWithin(sorted: seq<Item>, k: nat, d: int)
    requires k > 0
  {
    d >= 0 && forall from :: 0 <= from <= |sorted| - k && from % k == 0 ==> Within(sorted[from..from + k], d)
  }

  lemma RunAt(sorted: seq<Item>, k: nat, d: int, from: nat)
    requires k > 0 && RunsWithin(sorted, k, d) && from % k == 0 && from + k <= |sorted|
    ensures Within(sorted[from..from + k], d)
  {
  }

  lemma NewRowClose(items: seq<Item>, d: int)
    requires Within(items, d)
    ensures Close(SortDown(Singles(items)), d)
  {
    var r := Singles(items);
    forall i | 0 <= i < |r| ensures r[i].sum == Total(r[i].items) {
      assert [items[i]][1..] == [];
    }
    hide Total;
    SortDownClose(r, d);
  }

  ghost predicate EvenAll(heap: seq<Row>, k: nat) {
    forall i :: 0 <= i < |heap| ==> Even(heap[i], k)
  }

  lemma NewRow(items: seq<Item>, k: nat)
    requires |items| == k
    ensures Even(SortDown(Singles(items)), k)
    ensures Held(SortDown(Singles(items))) == multiset(items)
  {
    SinglesHold(items);
    SortDownHolds(Singles(items));
    SortDownEven(Singles(items), k);
  }

  lemma PushHolds(heap: seq<Row>, row: Row)
    ensures HeldBy(heap + [row]) == HeldBy(heap) + Held(row)
  {
    HeldBySplit(heap, [row]);
    assert [row][1..] == [];
  }

  method Pop(heap: seq<Row>, k: nat) returns (row: Row, rest: seq<Row>)
    requires heap != [] && k > 0 && EvenAll(heap, k)
    ensures Even(row, k) && EvenAll(rest, k) && |rest| == |heap| - 1
    ensures HeldBy(heap) == Held(row) + HeldBy(rest)
    ensures forall d :: CloseAll(heap, d) ==> Close(row, d) && CloseAll(rest, d)
    ensures forall i :: 0 <= i < |rest| ==> rest[i] != [] && row != [] && !RowLess(rest[i], row)
  {
    hide RowLess, Close, Held, HeldBy;
    var i := PopIndex(heap);
    RemoveHolds(heap, i);
    row, rest := heap[i], heap[..i] + heap[i + 1..];
  }

  /** `karmarkar_karp` with `equal_size=True`, down to the last state. */
  method Combine(lens: seq<nat>, k: nat) returns (r: Row)
    requires k > 0 && |lens| % k == 0 && |lens| >= k
    ensures Even(r, k) && Held(r) == multiset(Enumerate(lens))
    ensures forall d :: RunsWithin(SortItems(Enumerate(lens)), k, d) ==> Close(r, d)
  {
    hide *;
    var sorted := SortItems(Enumerate(lens));
    SortItemsSame(Enumerate(lens));
    SameSize(sorted, Enumerate(lens));
    EnumerateLength(lens);
    var heap := InitialHeap(sorted, k);
    while |heap| > 1
      invariant heap != [] && EvenAll(heap, k)
      invariant HeldBy(heap) == multiset(sorted)
      invariant forall d :: RunsWithin(sorted, k, d) ==> CloseAll(heap, d)
      decreases |heap|
    {
      var state0, state1;
      state0, heap := Pop(heap, k);
      state1, heap := Pop(heap, k);
      EvenLength(state0, k);
      EvenLength(state1, k);
      MergeRowsHolds(state0, state1, k);
      PushHolds(heap, MergeRows(state0, state1));
      PushEven(heap, MergeRows(state0, state1), k);
      forall d | RunsWithin(sorted, k, d) ensures CloseAll(heap + [MergeRows(state0, state1)], d) {
        RunsPositive(sorted, k, d);
        MergeRowsClose(state0, state1, d);
        PushClose(heap, MergeRows(state0, state1), d);
      }
      heap := heap + [MergeRows(state0, state1)];
    }
    r := heap[0];
    OnlyRow(heap, k);
    FirstClose(heap);
  }

  lemma FirstClose(heap: seq<Row>)
    requires heap != []
    ensures forall d :: CloseAll(heap, d) ==> Close(heap[0], d)
  {
  }

  lemma RunsPositive(sorted: seq<Item>, k: nat, d: int)
    requires k > 0 && RunsWithin(sorted, k, d)
    ensures d >= 0
  {
  }

  lemma EnumerateLength(lens: seq<nat>)
    ensures |Enumerate(lens)| == |lens|
  {
  }

  lemma EvenLength(r: Row, k: nat)
    requires Even(r, k)
    ensures |r| == k
  {
  }

  lemma NoRows(k: nat)
    ensures EvenAll([], k)
  {
  }

  lemma PushEven(heap: seq<Row>, row: Row, k: nat)
    requires EvenAll(heap, k) && Even(row, k)
    ensures EvenAll(heap + [row], k)
  {
  }

  lemma OnlyRow(heap: seq<Row>, k: nat)
    requires |heap| == 1 && EvenAll(heap, k)
    ensures HeldBy(heap) == Held(heap[0]) && Even(heap[0], k)
  {
    assert heap[1..] == [];
  }

  lemma StepFits(offset: nat, n: nat, k: nat)
    requires k > 0 && offset < n && offset % k == 0 && n % k == 0
    ensures offset + k <= n && (offset + k) % k == 0
  {
    var a, b := offset / k, n / k;
    assert offset == a * k && n == b * k;
    if a >= b {
      Arith.MulOrder(b, a, k);
    }
    Arith.MulOrder(a + 1, b, k);
    assert offset + k == (a + 1) * k;
    Arith.MulDiv(a + 1, k);
  }

  // ---- From the last state to the parts -------------------------------------------------------------

  function Parts(r: Row): (p: seq<seq<nat>>)
    ensures |p| == |r|
  {
    seq(|r|, i requires 0 <= i < |r| => SortIdx(Indices(r[i].items)))
  }

  lemma {:induction false} IndicesSame(a: seq<Item>, b: seq<Item>)
    requires multiset(a) == multiset(b)
    ensures multiset(Indices(a)) == multiset(Indices(b))
    decreases |a|
  {
    if a == [] {
      assert |multiset(b)| == 0;
    } else {
      var j, rest := TakeOut(a, b);
      IndicesSame(a[1..], rest);
      assert Indices(a) == [a[0].idx] + Indices(a[1..]);
      IndicesOut(b, j);
    }
  }

  lemma IndicesOut(b: seq<Item>, j: nat)
    requires j < |b|
    ensures multiset(Indices(b)) == multiset{b[j].idx} + multiset(Indices(b[..j] + b[j + 1..]))
  {
    assert Indices(b) == Indices(b[..j]) + [b[j].idx] + Indices(b[j + 1..]);
    assert Indices(b[..j] + b[j + 1..]) == Indices(b[..j]) + Indices(b[j + 1..]);
  }

  function AllItems(r: Row): seq<Item> {
    if r == [] then [] else AllItems(r[..|r| - 1]) + r[|r| - 1].items
  }

  lemma {:induction false} AllItemsHeld(r: Row)
    ensures multiset(AllItems(r)) == Held(r)
  {
    if r != [] {
      var n := |r| - 1;
      AllItemsHeld(r[..n]);
      HeldSplit(r[..n], [r[n]]);
      assert r == r[..n] + [r[n]];
      assert Held([r[n]]) == multiset(r[n].items) by { assert [r[n]][1..] == []; }
    }
  }

  lemma {:induction false} PartsFlatten(r: Row)
    ensures multiset(Flatten(Parts(r))) == multiset(Indices(AllItems(r)))
  {
    if r != [] {
      var n := |r| - 1;
      PartsFlatten(r[..n]);
      assert Parts(r)[..n] == Parts(r[..n]);
      SortIdxSame(Indices(r[n].items));
      assert Indices(AllItems(r)) == Indices(AllItems(r[..n])) + Indices(r[n].items);
    }
  }

  lemma {:induction false} PartSizes(r: Row, m: nat)
    requires forall i :: 0 <= i < |r| ==> |r[i].items| == m
    ensures |AllItems(r)| == |r| * m
  {
    if r != [] {
      PartSizes(r[..|r| - 1], m);
      assert |r| * m == (|r| - 1) * m + m;
    }
  }

  lemma SameSize<T>(a: seq<T>, b: seq<T>)
    requires multiset(a) == multiset(b)
    ensures |a| == |b|
  {
    assert |multiset(a)| == |multiset(b)|;
  }

  lemma FinalParts(r: Row, k: nat, lens: seq<nat>)
    requires k > 0 && Even(r, k) && Held(r) == multiset(Enumerate(lens))
    ensures EqualPartition(Parts(r), k, |lens|)
  {
    PartsPermute(r, lens);
    RowTotal(r, k, lens);
    hide *;
    forall p | 0 <= p < |Parts(r)| ensures |Parts(r)[p]| == |lens| / k {
      PartLength(r, p);
    }
    EqualPartitionOf(Parts(r), k, |lens|);
  }

  lemma PartLength(r: Row, p: nat)
    requires p < |r|
    ensures |Parts(r)[p]| == |r[p].items|
  {
    SortIdxSame(Indices(r[p].items));
  }

  lemma EqualPartitionOf(parts: seq<seq<nat>>, k: nat, n: nat)
    requires k > 0 && n % k == 0
    requires |parts| == k && IsPermutation(Flatten(parts), n)
    requires forall p :: 0 <= p < |parts| ==> |parts[p]| == n / k
    ensures EqualPartition(parts, k, n)
  {
  }

  /** The common size of the k sets is the number of items over k. */
  lemma RowTotal(r: Row, k: nat, lens: seq<nat>)
    requires k > 0 && Even(r, k) && Held(r) == multiset(Enumerate(lens))
    ensures |r| == k && |lens| % k == 0
    ensures forall p :: 0 <= p < |r| ==> |r[p].items| == |lens| / k
  {
    var m := |r[0].items|;
    assert |r| == k && forall p :: 0 <= p < |r| ==> |r[p].items| == m;
    assert |lens| == k * m by {
      ItemCount(r, m, lens);
    }
    hide *;
    Arith.MulDiv(m, k);
  }

  lemma ItemCount(r: Row, m: nat, lens: seq<nat>)
    requires Held(r) == multiset(Enumerate(lens))
    requires forall p :: 0 <= p < |r| ==> |r[p].items| == m
    ensures |lens| == |r| * m
  {
    AllItemsHeld(r);
    SameSize(AllItems(r), Enumerate(lens));
    EnumerateLength(lens);
    PartSizes(r, m);
  }

  lemma PartsPermute(r: Row, lens: seq<nat>)
    requires Held(r) == multiset(Enumerate(lens))
    ensures IsPermutation(Flatten(Parts(r)), |lens|)
  {
    AllItemsHeld(r);
    IndicesSame(AllItems(r), Enumerate(lens));
    assert Indices(Enumerate(lens)) == Range(|lens|);
    PartsFlatten(r);
  }

  // ---- The balance of the parts ----------------------------------------------------------------

  /** The lengths of the indices of a part, added up. */
  function PartTotal(lens: seq<nat>, part: seq<nat>): int {
    if part == [] then 0 else (if part[0] < |lens| then lens[part[0]] else 0) + PartTotal(lens, part[1..])
  }

  predicate LengthsWithin(lens: seq<nat>, d: int) {
    forall i, j :: 0 <= i < |lens| && 0 <= j < |lens| ==> lens[i] <= lens[j] + d
  }

  predicate TotalsWithin(lens: seq<nat>, parts: seq<seq<nat>>, d: int) {
    forall p, q :: 0 <= p < |parts| && 0 <= q < |parts| ==> PartTotal(lens, parts[p]) <= PartTotal(lens, parts[q]) + d
  }

  predicate Ascending(part: seq<nat>) {
    forall i, j :: 0 <= i < j < |part| ==> part[i] <= part[j]
  }

  lemma {:induction false} InsertIdxKeeps(lens: seq<nat>, x: nat, sorted: seq<nat>)
    ensures PartTotal(lens, InsertIdx(x, sorted)) == PartTotal(lens, [x]) + PartTotal(lens, sorted)
    ensures Ascending(sorted) ==> Ascending(InsertIdx(x, sorted))
    ensures forall y :: y in InsertIdx(x, sorted) ==> y == x || y in sorted
  {
    assert [x][1..] == [];
    if sorted != [] && x > sorted[0] {
      InsertIdxKeeps(lens, x, sorted[1..]);
      var rest := InsertIdx(x, sorted[1..]);
      assert ([sorted[0]] + rest)[1..] == rest;
      if Ascending(sorted) {
        forall i | 0 <= i < |rest| ensures sorted[0] <= rest[i] {
          assert rest[i] in rest;
        }
      }
    } else {
      assert ([x] + sorted)[1..] == sorted;
    }
  }

  lemma {:induction false} SortIdxKeeps(lens: seq<nat>, part: seq<nat>)
    ensures PartTotal(lens, SortIdx(part)) == PartTotal(lens, part) && Ascending(SortIdx(part))
  {
    if part != [] {
      SortIdxKeeps(lens, part[1..]);
      InsertIdxKeeps(lens, part[0], SortIdx(part[1..]));
      assert [part[0]][1..] == [];
    }
  }

  lemma {:induction false} IndicesTotal(lens: seq<nat>, items: seq<Item>)
    requires forall x :: x in items ==> x.idx < |lens| && x.len == lens[x.idx]
    ensures PartTotal(lens, Indices(items)) == Total(items)
  {
    if items != [] {
      IndicesTotal(lens, items[1..]);
      assert Indices(items)[1..] == Indices(items[1..]);
      assert items[0] in items;
    }
  }

  lemma {:induction false} InHeld(r: Row, p: nat, x: Item)
    requires p < |r| && x in r[p].items
    ensures x in Held(r)
  {
    if p > 0 {
      InHeld(r[1..], p - 1, x);
    } else {
      assert x in multiset(r[0].items);
    }
  }

  /** A part has the sum of its set. */
  lemma PartSum(r: Row, lens: seq<nat>, p: nat)
    requires p < |r| && Held(r) == multiset(Enumerate(lens))
    ensures PartTotal(lens, Parts(r)[p]) == Total(r[p].items) && Ascending(Parts(r)[p])
  {
    var items := r[p].items;
    forall x | x in items ensures x.idx < |lens| && x.len == lens[x.idx] {
      InHeld(r, p, x);
      assert x in multiset(Enumerate(lens));
    }
    IndicesTotal(lens, items);
    SortIdxKeeps(lens, Indices(items));
  }

  lemma PartsBalanced(r: Row, lens: seq<nat>, d: int)
    requires Held(r) == multiset(Enumerate(lens)) && Close(r, d)
    ensures TotalsWithin(lens, Parts(r), d)
  {
    hide Total, Held, PartTotal, Descending;
    forall p | 0 <= p < |r| ensures PartTotal(lens, Parts(r)[p]) == r[p].sum {
      PartSum(r, lens, p);
    }
  }

  /** With the lengths in ascending order, the first and the last of every k neighbours, counted off
      from the start, differ by no more than `d`. */
  ghost predicate NeighboursWithin(lens: seq<nat>, k: nat, d: int)
    requires k > 0
  {
    d >= 0 && forall sorted: seq<nat>, from: nat ::
      Ascending(sorted) && multiset(sorted) == multiset(lens) && from % k == 0 && from + k <= |sorted| ==>
        sorted[from + k - 1] <= sorted[from] + d
  }

  function Lengths(items: seq<Item>): (r: seq<nat>)
    ensures |r| == |items| && forall i :: 0 <= i < |r| ==> r[i] == items[i].len
  {
    seq(|items|, i requires 0 <= i < |items| => items[i].len)
  }

  lemma {:induction false} InsertUpAscends(x: Item, sorted: seq<Item>)
    requires Ascending(Lengths(sorted))
    ensures Ascending(Lengths(InsertUp(x, sorted)))
    ensures InsertUp(x, sorted)[0].len == x.len || (sorted != [] && InsertUp(x, sorted)[0] == sorted[0])
  {
    if sorted != [] && InsertUp(x, sorted) != [x] + sorted {
      assert forall i :: 0 <= i < |sorted| - 1 ==> Lengths(sorted[1..])[i] == Lengths(sorted)[i + 1];
      InsertUpAscends(x, sorted[1..]);
    }
  }

  lemma {:induction false} SortItemsAscend(xs: seq<Item>)
    ensures Ascending(Lengths(SortItems(xs)))
  {
    if xs != [] {
      SortItemsAscend(xs[1..]);
      InsertUpAscends(xs[0], SortItems(xs[1..]));
    }
  }

  lemma {:induction false} LengthsSame(a: seq<Item>, c: seq<Item>)
    requires multiset(a) == multiset(c)
    ensures multiset(Lengths(a)) == multiset(Lengths(c))
    decreases |a|
  {
    if a == [] {
      assert |multiset(c)| == 0;
    } else {
      var j, rest := TakeOut(a, c);
      LengthsSame(a[1..], rest);
      assert Lengths(a) == [a[0].len] + Lengths(a[1..]);
      assert Lengths(c) == Lengths(c[..j]) + [c[j].len] + Lengths(c[j + 1..]);
      assert Lengths(rest) == Lengths(c[..j]) + Lengths(c[j + 1..]);
    }
  }

  /** The runs that the heap starts with are the neighbours. */
  lemma RunsAreNeighbours(lens: seq<nat>, k: nat, d: int)
    requires k > 0 && NeighboursWithin(lens, k, d)
    ensures RunsWithin(SortItems(Enumerate(lens)), k, d)
  {
    var items := SortItems(Enumerate(lens));
    SortItemsAscend(Enumerate(lens));
    SortItemsSame(Enumerate(lens));
    LengthsSame(items, Enumerate(lens));
    assert Lengths(Enumerate(lens)) == lens;
    hide SortItems, Enumerate, Ascending, Within;
    forall from | 0 <= from <= |items| - k && from % k == 0 ensures Within(items[from..from + k], d) {
      RunIsWithin(items, from, k, d);
    }
  }

  lemma RunIsWithin(items: seq<Item>, from: nat, k: nat, d: int)
    requires k > 0 && from + k <= |items| && Ascending(Lengths(items))
    requires Lengths(items)[from + k - 1] <= Lengths(items)[from] + d
    ensures Within(items[from..from + k], d)
  {
    var sorted, run := Lengths(items), items[from..from + k];
    forall i | 0 <= i < k ensures sorted[from] <= run[i].len <= sorted[from + k - 1] {
      assert sorted[from + i] == run[i].len;
    }
  }

  /** Neighbours differ by no more than any two lengths do. */
  lemma LengthsAreNeighbours(lens: seq<nat>, k: nat, d: int)
    requires k > 0 && lens != [] && LengthsWithin(lens, d)
    ensures NeighboursWithin(lens, k, d)
  {
    var first := lens[0];
    assert first <= first + d;
    forall sorted: seq<nat>, from: nat |
      Ascending(sorted) && multiset(sorted) == multiset(lens) && from % k == 0 && from + k <= |sorted|
      ensures sorted[from + k - 1] <= sorted[from] + d
    {
      assert sorted[from + k - 1] in multiset(lens) && sorted[from] in multiset(lens);
    }
  }

  /** `get_seqlen_balanced_partitions(…, equal_size=True)`: it fails exactly when there are fewer
      items than parts or the parts cannot be equal, and otherwise meets its contract: the parts
      are ascending, and their totals differ by no more than the widest k neighbours in the
      sorted list do, and so by no more than any two lengths do. */
  method BalancedPartitions(lens: seq<nat>, k: nat) returns (r: Result<seq<seq<nat>>, Failure>)
    ensures r.Ok? <==> k > 0 && |lens| >= k && |lens| % k == 0
    ensures r == Err(DivisionByZero) <==> k == 0
    ensures r.Ok? ==> EqualPartition(r.value, k, |lens|)
    ensures r.Ok? ==> forall p :: 0 <= p < k ==> Ascending(r.value[p])
    ensures r.Ok? ==> forall d :: NeighboursWithin(lens, k, d) ==> TotalsWithin(lens, r.value, d)
    ensures r.Ok? ==> forall d :: LengthsWithin(lens, d) ==> TotalsWithin(lens, r.value, d)
  {
    hide Close, TotalsWithin, NeighboursWithin, LengthsWithin, RunsWithin;
    if |lens| < k {
      return Err(AssertionFailed);
    }
    if k == 0 {
      return Err(DivisionByZero);
    }
    if |lens| % k != 0 {
      return Err(AssertionFailed);
    }
    var last := Combine(lens, k);
    FinalParts(last, k, lens);
    forall p | 0 <= p < k ensures Ascending(Parts(last)[p]) {
      PartSum(last, lens, p);
    }
    forall d | NeighboursWithin(lens, k, d) ensures TotalsWithin(lens, Parts(last), d) {
      RunsAreNeighbours(lens, k, d);
      PartsBalanced(last, lens, d);
    }
    forall d | LengthsWithin(lens, d) ensures NeighboursWithin(lens, k, d) {
      LengthsAreNeighbours(lens, k, d);
    }
    r := Ok(Parts(last));
  }
}
