/** The two-phase batch balancer and the loss-time check it has to satisfy: every micro-step,
    gathered over all ranks, consists of whole groups of n rows. */
module GvpoBalance {
  import opened Wrappers
  import opened Permutations
  import opened Slices
  import opened SeqlenBalancing
  import Arith

  /** What can go wrong: a failed assertion, division by zero, a fractional slice bound, or an
      index past the end. */
  datatype Problem = Assertion | ZeroDivision | FractionalSlice | OutOfRange

  // ---- Groups of rows --------------------------------------------------------------------

  /** The n rows of group g. */
  function Block(g: nat, n: nat): (r: seq<nat>)
    ensures |r| == n && forall j :: 0 <= j < n ==> r[j] == g * n + j
  {
    seq(n, j requires 0 <= j < n => g * n + j)
  }

  /** The rows of the groups `p`, group by group. */
  function Expand(p: seq<nat>, n: nat): seq<nat> {
    if p == [] then [] else Expand(p[..|p| - 1], n) + Block(p[|p| - 1], n)
  }

  function Uids(rows: seq<int>, n: nat): (r: seq<int>)
    requires n > 0
    ensures |r| == |rows| && forall i :: 0 <= i < |rows| ==> r[i] == rows[i] / n
  {
    seq(|rows|, i requires 0 <= i < |rows| => rows[i] / n)
  }

  lemma {:induction false} ExpandLength(p: seq<nat>, n: nat)
    ensures |Expand(p, n)| == |p| * n
  {
    if p != [] {
      ExpandLength(p[..|p| - 1], n);
      assert |p| * n == (|p| - 1) * n + n;
    }
  }

  /** Every group contributes exactly n rows to its uid. */
  lemma {:induction false} ExpandUids(p: seq<nat>, n: nat, u: nat)
    requires n > 0
    ensures multiset(Uids(Expand(p, n), n))[u] == n * multiset(p)[u]
  {
    if p == [] {
      assert Uids([], n) == [];
    } else {
      var pre, g := p[..|p| - 1], p[|p| - 1];
      ExpandUids(pre, n, u);
      UidsSnoc(pre, g, n);
      assert p == pre + [g];
      SnocCount(pre, g, u);
      SameCount(g, n, u);
      hide Uids, Expand, Copies;
      if g == u {
        var ms: multiset<nat> := multiset(pre);
        Distribute(n, ms[u]);
      }
    }
  }

  lemma Distribute(n: int, x: int)
    ensures n * (x + 1) == n * x + n
  {
  }

  lemma SnocCount(pre: seq<nat>, g: nat, u: nat)
    ensures multiset(pre + [g])[u] == multiset(pre)[u] + if g == u then 1 else 0
  {
  }

  lemma UidsSnoc(pre: seq<nat>, g: nat, n: nat)
    requires n > 0
    ensures multiset(Uids(Expand(pre + [g], n), n)) == multiset(Uids(Expand(pre, n), n)) + multiset(Copies(g, n))
  {
    BlockUids(g, n);
    assert (pre + [g])[..|pre|] == pre;
    assert Uids(Expand(pre + [g], n), n) == Uids(Expand(pre, n), n) + Uids(Block(g, n), n);
  }

  lemma BlockUids(g: nat, n: nat)
    requires n > 0
    ensures Uids(Block(g, n), n) == Copies(g, n)
  {
    forall j | 0 <= j < n ensures Uids(Block(g, n), n)[j] == g {
      Arith.DivUnique(g * n + j, n, g, j);
    }
  }

  lemma {:induction false} SameCount(g: nat, n: nat, u: nat)
    ensures multiset(Copies(g, n))[u] == if u == g then n else 0
  {
    if n > 0 {
      assert Copies(g, n) == Copies(g, n - 1) + [g];
      SameCount(g, n - 1, u);
    }
  }

  /** Expanding all groups lists all rows. */
  lemma {:induction false} ExpandRange(m: nat, n: nat)
    ensures Expand(Range(m), n) == Range(m * n)
  {
    if m > 0 {
      ExpandRange(m - 1, n);
      assert Range(m)[..m - 1] == Range(m - 1);
      assert m * n == (m - 1) * n + n;
      assert Range(m)[m - 1] == m - 1;
    } else {
      assert Range(0) == [];
    }
  }

  lemma {:induction false} ExpandConcat(a: seq<nat>, b: seq<nat>, n: nat)
    ensures Expand(a + b, n) == Expand(a, n) + Expand(b, n)
  {
    if b == [] {
      assert a + b == a;
    } else {
      assert (a + b)[..|a + b| - 1] == a + b[..|b| - 1];
      ExpandConcat(a, b[..|b| - 1], n);
    }
  }

  /** Expanding a rearrangement of groups gives a rearrangement of rows. */
  lemma {:induction false} ExpandSame(p: seq<nat>, q: seq<nat>, n: nat)
    requires multiset(p) == multiset(q)
    ensures multiset(Expand(p, n)) == multiset(Expand(q, n))
    decreases |p|
  {
    if p == [] {
      assert |multiset(q)| == 0;
    } else {
      var j, rest := TakeOut(p, q);
      ExpandSame(p[1..], rest, n);
      assert p == [p[0]] + p[1..];
      ExpandConcat([p[0]], p[1..], n);
      assert q == q[..j] + ([q[j]] + q[j + 1..]);
      ExpandConcat(q[..j], [q[j]] + q[j + 1..], n);
      ExpandConcat([q[j]], q[j + 1..], n);
      ExpandConcat(q[..j], q[j + 1..], n);
    }
  }

  // ---- The arithmetic of the divisible case ---------------------------------------------------

  /** Micro-steps, rows per rank and groups per step of a batch that divides evenly. */
  datatype Shape = Shape(steps: nat, perRank: nat, groups: nat, groupsPerStep: nat)

  predicate Divides(bs: nat, ranks: nat, n: nat, b: nat)
    requires ranks > 0 && n > 0 && b > 0
  {
    ranks * b > 0 && bs > 0 && (ranks * b) % n == 0 && bs % (ranks * b) == 0
  }

  lemma ShapeOf(bs: nat, ranks: nat, n: nat, b: nat) returns (s: Shape)
    requires ranks > 0 && n > 0 && b > 0 && Divides(bs, ranks, n, b)
    ensures s == Shape(bs / (ranks * b), bs / ranks, bs / n, (ranks * b) / n)
    ensures s.steps > 0 && s.perRank == s.steps * b && ranks * s.perRank == bs
    ensures s.groups * n == bs && bs % n == 0
    ensures s.groups == s.groupsPerStep * s.steps && s.groups >= s.steps
    ensures s.groups % s.steps == 0 && s.groups / s.steps == s.groupsPerStep
    ensures s.groupsPerStep * n == ranks * b
  {
    var steps, c := bs / (ranks * b), (ranks * b) / n;
    assert bs == steps * (ranks * b) && ranks * b == c * n;
    if steps == 0 {
      assert false;
    }
    if c == 0 {
      assert false;
    }
    assert bs == (steps * b) * ranks by { Reorder3(steps, ranks, b); }
    Arith.MulDiv(steps * b, ranks);
    assert bs == (c * steps) * n by { Reorder3(steps, c, n); }
    Arith.MulDiv(c * steps, n);
    Arith.MulDiv(c, steps);
    Arith.MulOrder(1, c, steps);
    s := Shape(steps, steps * b, c * steps, c);
  }

  lemma Reorder3(x: int, y: int, z: int)
    ensures x * (y * z) == (x * z) * y
    ensures x * (y * z) == (y * x) * z
  {
  }

  // ---- Filling the index ------------------------------------------------------------------------

  /** The rank whose segment holds cell r, and the cell's place in it. */
  function RankOf(r: nat, perRank: nat): nat
    requires perRank > 0
  {
    r / perRank
  }

  function SlotOf(r: nat, perRank: nat): nat
    requires perRank > 0
  {
    r % perRank
  }

  /** Cell r belongs to the block that starts at `off` in the first `ranks` segments. */
  predicate InBlock(r: nat, perRank: nat, ranks: nat, off: nat, m: nat)
    requires perRank > 0
  {
    RankOf(r, perRank) < ranks && off <= SlotOf(r, perRank) < off + m
  }

  /** The place `i`, `slot` is cell i * perRank + slot, and no other. */
  lemma CellIs(perRank: nat, ranks: nat, i: nat, slot: nat)
    requires slot < perRank && i < ranks
    ensures i * perRank + slot < ranks * perRank
    ensures forall r: nat :: RankOf(r, perRank) == i && SlotOf(r, perRank) == slot <==> r == i * perRank + slot
  {
    Arith.CellBound(i, slot, ranks, perRank);
    Arith.DivUnique(i * perRank + slot, perRank, i, slot);
  }

  ghost predicate Rows(parts: seq<seq<nat>>, ranks: nat, m: nat, limit: nat) {
    && |parts| == ranks
    && (forall i :: 0 <= i < |parts| ==> |parts[i]| == m)
    && (forall i :: 0 <= i < |parts| ==> Below(parts[i], limit))
  }

  /** What a step writes into the cell at rank `i`, slot `slot`. */
  function CellValue(inx: seq<nat>, parts: seq<seq<nat>>, off: nat, i: nat, slot: nat): int {
    if i < |parts| && off <= slot && slot - off < |parts[i]| && parts[i][slot - off] < |inx|
    then inx[parts[i][slot - off]] else -1
  }

  /** The two inner loops: write one micro-step's rows into every rank's segment. */
  method FillStep(
    a: array<int>, perRank: nat, off: nat, inx: seq<nat>, parts: seq<seq<nat>>, ghost ranks: nat, ghost m: nat)
    requires perRank > 0 && Rows(parts, ranks, m, |inx|)
    requires off + m <= perRank && ranks * perRank <= a.Length
    modifies a
    ensures forall r :: 0 <= r < a.Length ==>
      a[r] == if InBlock(r, perRank, ranks, off, m)
              then CellValue(inx, parts, off, RankOf(r, perRank), SlotOf(r, perRank)) else old(a[r])
  {
    hide RankOf, SlotOf;
    for i := 0 to |parts|
      invariant forall r :: 0 <= r < a.Length ==>
        a[r] == if InBlock(r, perRank, i, off, m)
                then CellValue(inx, parts, off, RankOf(r, perRank), SlotOf(r, perRank)) else old(a[r])
    {
      for j := 0 to |parts[i]|
        invariant forall r :: 0 <= r < a.Length ==>
          a[r] == if InBlock(r, perRank, i, off, m)
                     || (RankOf(r, perRank) == i && off <= SlotOf(r, perRank) < off + j)
                  then CellValue(inx, parts, off, RankOf(r, perRank), SlotOf(r, perRank)) else old(a[r])
      {
        CellIs(perRank, ranks, i, off + j);
        a[i * perRank + off + j] := inx[parts[i][j]];
      }
    }
  }

  // ---- Reading the index the way training does -----------------------------------------------------

  /** The k-th micro-batch of the rank whose segment starts at `from`. */
  function Micro(g: seq<int>, from: nat, b: nat, k: nat): seq<int>
    requires from + k * b + b <= |g|
  {
    g[from + k * b..from + k * b + b]
  }

  /** What the first `ranks` ranks together hold at micro-step k. */
  function Gathered(g: seq<int>, perRank: nat, b: nat, k: nat, ranks: nat): seq<int>
    requires k * b + b <= perRank && ranks * perRank <= |g|
    decreases ranks
  {
    if ranks == 0 then []
    else
      assert (ranks - 1) * perRank + perRank == ranks * perRank;
      Gathered(g, perRank, b, k, ranks - 1) + Micro(g, (ranks - 1) * perRank, b, k)
  }

  /** The rows chosen for one micro-step and their division among the ranks. */
  datatype Step = Step(inx: seq<nat>, parts: seq<seq<nat>>)

  ghost predicate Filled(g: seq<int>, perRank: nat, ranks: nat, off: nat, b: nat, s: Step)
    requires perRank > 0
  {
    forall r :: 0 <= r < |g| && InBlock(r, perRank, ranks, off, b) ==>
      g[r] == CellValue(s.inx, s.parts, off, RankOf(r, perRank), SlotOf(r, perRank))
  }

  /** One rank's micro-batch in a filled step. */
  lemma MicroOfStep(g: seq<int>, perRank: nat, b: nat, k: nat, ranks: nat, s: Step, i: nat)
    requires perRank > 0 && k * b + b <= perRank && ranks * perRank <= |g| && i < ranks
    requires Rows(s.parts, ranks, b, |s.inx|) && Filled(g, perRank, ranks, k * b, b, s)
    ensures i * perRank + k * b + b <= |g|
    ensures Micro(g, i * perRank, b, k) == Pick(s.inx, s.parts[i])
  {
    hide *;
    var from, off := i * perRank, k * b;
    RowsAt(s.parts, ranks, b, |s.inx|, i);
    Arith.MulGap(i, ranks, perRank);
    var rows := Pick(s.inx, s.parts[i]);
    forall j | 0 <= j < b ensures g[from + off + j] == rows[j] {
      CellOfStep(g, perRank, ranks, off, b, s, i, j, from);
    }
    MicroIs(g, from, b, k, off, rows);
  }

  lemma RowsAt(parts: seq<seq<nat>>, ranks: nat, m: nat, limit: nat, i: nat)
    requires Rows(parts, ranks, m, limit) && i < ranks
    ensures |parts| == ranks && |parts[i]| == m && Below(parts[i], limit)
  {
  }

  lemma CellOfStep(
    g: seq<int>, perRank: nat, ranks: nat, off: nat, b: nat, s: Step, i: nat, j: nat, from: nat)
    requires perRank > 0 && off + b <= perRank && ranks * perRank <= |g| && i < ranks && j < b && from == i * perRank
    requires Rows(s.parts, ranks, b, |s.inx|) && Filled(g, perRank, ranks, off, b, s)
    ensures from + off + j < |g| && |s.parts[i]| == b && g[from + off + j] == s.inx[s.parts[i][j]]
  {
    CellIs(perRank, ranks, i, off + j);
    hide RankOf, SlotOf;
    assert RankOf(from + off + j, perRank) == i && SlotOf(from + off + j, perRank) == off + j;
  }

  lemma MicroIs(g: seq<int>, from: nat, b: nat, k: nat, off: nat, rows: seq<int>)
    requires off == k * b && from + off + b <= |g| && |rows| == b
    requires forall j :: 0 <= j < b ==> g[from + off + j] == rows[j]
    ensures Micro(g, from, b, k) == rows
  {
  }

  lemma {:induction false} StepGathers(g: seq<int>, perRank: nat, b: nat, k: nat, ranks: nat, all: nat, s: Step)
    requires perRank > 0 && k * b + b <= perRank && ranks <= all && all * perRank <= |g|
    requires ranks * perRank <= |g|
    requires Rows(s.parts, all, b, |s.inx|) && Filled(g, perRank, all, k * b, b, s)
    ensures Below(Flatten(s.parts[..ranks]), |s.inx|)
    ensures Gathered(g, perRank, b, k, ranks) == Pick(s.inx, Flatten(s.parts[..ranks]))
  {
    if ranks > 0 {
      Arith.MulOrder(ranks - 1, ranks, perRank);
      StepGathers(g, perRank, b, k, ranks - 1, all, s);
      MicroOfStep(g, perRank, b, k, all, s, ranks - 1);
      assert s.parts[..ranks][..ranks - 1] == s.parts[..ranks - 1];
    }
  }

  // ---- Summing the micro-batches over ranks first or over steps first --------------------------------

  /** The rows of one rank's first `steps` micro-batches; its segment starts at `from`. */
  function RankRows(g: seq<int>, from: nat, b: nat, steps: nat): multiset<int>
    requires from + steps * b <= |g|
    decreases steps
  {
    if steps == 0 then multiset{}
    else
      assert (steps - 1) * b + b == steps * b;
      RankRows(g, from, b, steps - 1) + multiset(Micro(g, from, b, steps - 1))
  }

  lemma {:induction false} RankRowsAre(g: seq<int>, from: nat, b: nat, steps: nat, length: nat)
    requires length == steps * b && from + length <= |g|
    ensures RankRows(g, from, b, steps) == multiset(g[from..from + length])
  {
    hide *;
    if steps > 0 {
      Arith.MulStep(steps, b);
      RankRowsAre(g, from, b, steps - 1, length - b);
      RankRowsMore(g, from, b, steps, length - b);
    } else {
      RankRowsNone(g, from, b);
    }
  }

  lemma RankRowsNone(g: seq<int>, from: nat, b: nat)
    requires from <= |g|
    ensures RankRows(g, from, b, 0) == multiset(g[from..from])
  {
  }

  lemma RankRowsMore(g: seq<int>, from: nat, b: nat, steps: nat, head: nat)
    requires steps > 0 && head == (steps - 1) * b && steps * b == head + b && from + head + b <= |g|
    ensures RankRows(g, from, b, steps - 1) == multiset(g[from..from + head]) ==>
      RankRows(g, from, b, steps) == multiset(g[from..from + (head + b)])
  {
    assert g[from..from + (head + b)] == g[from..from + head] + Micro(g, from, b, steps - 1);
  }

  /** The rows gathered in the first `steps` micro-steps. */
  function StepRows(g: seq<int>, perRank: nat, b: nat, steps: nat, ranks: nat): multiset<int>
    requires steps * b <= perRank && ranks * perRank <= |g|
    decreases steps
  {
    if steps == 0 then multiset{}
    else
      assert (steps - 1) * b + b == steps * b;
      StepRows(g, perRank, b, steps - 1, ranks) + multiset(Gathered(g, perRank, b, steps - 1, ranks))
  }

  /** Adding a rank adds its rows, whichever way the total is taken. */
  lemma {:induction false} StepRowsByRank(g: seq<int>, perRank: nat, b: nat, steps: nat, ranks: nat)
    requires ranks > 0 && steps * b <= perRank && ranks * perRank <= |g|
    ensures (ranks - 1) * perRank + perRank <= |g|
    ensures StepRows(g, perRank, b, steps, ranks)
      == StepRows(g, perRank, b, steps, ranks - 1) + RankRows(g, (ranks - 1) * perRank, b, steps)
  {
    assert (ranks - 1) * perRank + perRank == ranks * perRank;
    if steps > 0 {
      assert (steps - 1) * b + b == steps * b;
      StepRowsByRank(g, perRank, b, steps - 1, ranks);
    }
  }

  /** The steps' gathered rows are, all together, the rows of all ranks. */
  lemma {:induction false} AllSteps(g: seq<int>, perRank: nat, b: nat, steps: nat, ranks: nat)
    requires steps * b == perRank && ranks * perRank <= |g|
    ensures StepRows(g, perRank, b, steps, ranks) == multiset(g[..ranks * perRank])
  {
    hide *;
    if ranks == 0 {
      NoRanks(g, perRank, b, steps);
    } else {
      var head := (ranks - 1) * perRank;
      assert head + perRank == ranks * perRank;
      AllSteps(g, perRank, b, steps, ranks - 1);
      StepRowsByRank(g, perRank, b, steps, ranks);
      RankRowsAre(g, head, b, steps, perRank);
      NextRows(g, head, perRank);
    }
  }

  lemma NextRows<T>(g: seq<T>, head: nat, m: nat)
    requires head + m <= |g|
    ensures multiset(g[..head + m]) == multiset(g[..head]) + multiset(g[head..head + m])
  {
    assert g[..head + m] == g[..head] + g[head..head + m];
  }

  lemma {:induction false} NoRanks(g: seq<int>, perRank: nat, b: nat, steps: nat)
    requires steps * b <= perRank
    ensures StepRows(g, perRank, b, steps, 0) == multiset{}
  {
    if steps > 0 {
      assert (steps - 1) * b + b == steps * b;
      NoRanks(g, perRank, b, steps - 1);
    }
  }

  // ---- The guarantee ------------------------------------------------------------------------------------

  ghost function Count(p: seq<nat>, u: nat): nat {
    multiset(p)[u]
  }

  ghost predicate AtMostOnce(p: seq<nat>) {
    forall u: nat :: Count(p, u) <= 1
  }

  /** In this gathering every uid occurs n times or not at all. */
  ghost predicate WholeGroups(rows: seq<int>, n: nat)
    requires n > 0
  {
    forall u :: u in Uids(rows, n) ==> multiset(Uids(rows, n))[u] == n
  }

  /** What the batch order has to satisfy: it is a permutation of the rows, and every
      micro-step gathered over the ranks consists of whole groups. */
  ghost predicate Balanced(g: seq<int>, bs: nat, ranks: nat, n: nat, b: nat)
    requires ranks > 0 && n > 0 && b > 0
  {
    var perRank := bs / ranks;
    && |g| == bs == ranks * perRank
    && IsPermutation(g, bs)
    && forall k: nat :: k < perRank / b ==>
         k * b + b <= perRank && WholeGroups(Gathered(g, perRank, b, k, ranks), n)
  }

  /** A step whose rows come from distinct groups gathers whole groups. */
  lemma StepIsWhole(inx: seq<nat>, group: seq<nat>, gathered: seq<int>, n: nat)
    requires n > 0 && inx == Expand(group, n) && multiset(gathered) == multiset(inx)
    requires AtMostOnce(group)
    ensures WholeGroups(gathered, n)
  {
    UidsSame(gathered, inx, n);
    forall u | u in Uids(gathered, n) ensures multiset(Uids(gathered, n))[u] == n {
      assert u in multiset(Uids(gathered, n));
      assert u in Uids(inx, n);
      OneGroup(group, n, u);
    }
  }

  lemma OneGroup(group: seq<nat>, n: nat, u: int)
    requires n > 0 && u in Uids(Expand(group, n), n)
    requires AtMostOnce(group)
    ensures multiset(Uids(Expand(group, n), n))[u] == n
  {
    hide *;
    UidIsNat(Expand(group, n), n, u);
    GroupTimes(group, n, u);
    OnceAt(group, u);
    InCount(Uids(Expand(group, n), n), u);
    ZeroOrOne(n, Count(group, u), multiset(Uids(Expand(group, n), n))[u]);
  }

  lemma ZeroOrOne(n: nat, c: nat, total: nat)
    requires c <= 1 && total == n * c && total > 0
    ensures total == n
  {
  }

  lemma UidIsNat(rows: seq<nat>, n: nat, u: int)
    requires n > 0 && u in Uids(rows, n)
    ensures u >= 0
  {
  }

  lemma OnceAt(p: seq<nat>, u: nat)
    requires AtMostOnce(p)
    ensures Count(p, u) <= 1
  {
  }

  lemma GroupTimes(group: seq<nat>, n: nat, u: nat)
    requires n > 0
    ensures multiset(Uids(Expand(group, n), n))[u] == n * Count(group, u)
  {
    ExpandUids(group, n, u);
  }

  lemma InCount(s: seq<int>, u: int)
    requires u in s
    ensures multiset(s)[u] > 0
  {
  }

  lemma {:induction false} UidsSame(a: seq<int>, c: seq<int>, n: nat)
    requires n > 0 && multiset(a) == multiset(c)
    ensures multiset(Uids(a, n)) == multiset(Uids(c, n))
    decreases |a|
  {
    if a == [] {
      assert |multiset(c)| == 0;
    } else {
      var j, rest := TakeOut(a, c);
      UidsSame(a[1..], rest, n);
      assert Uids(a, n) == [a[0] / n] + Uids(a[1..], n);
      assert Uids(c, n) == Uids(c[..j], n) + [c[j] / n] + Uids(c[j + 1..], n);
      assert Uids(rest, n) == Uids(c[..j], n) + Uids(c[j + 1..], n);
    }
  }

  /** A part of a partition repeats no index. */
  lemma {:induction false} PartCounts(parts: seq<seq<nat>>, k: nat, u: nat)
    requires k < |parts|
    ensures Count(parts[k], u) <= Count(Flatten(parts), u)
  {
    var last := |parts| - 1;
    FlattenUnfold(parts);
    if k < last {
      PartCounts(parts[..last], k, u);
    }
  }

  // ---- Tokens ---------------------------------------------------------------------------------------------

  function LengthAt(lens: seq<nat>, row: int): nat {
    if 0 <= row < |lens| then lens[row] else 0
  }

  /** The tokens of the rows, added up. */
  function RowTotal(lens: seq<nat>, rows: seq<int>): nat {
    if rows == [] then 0 else RowTotal(lens, rows[..|rows| - 1]) + LengthAt(lens, rows[|rows| - 1])
  }

  function GroupTotal(lens: seq<nat>, n: nat, g: nat): nat {
    RowTotal(lens, Block(g, n))
  }

  /** No two groups differ by more than `d` tokens. */
  ghost predicate GroupsWithin(lens: seq<nat>, n: nat, d: int)
    requires n > 0
  {
    forall g: nat, h: nat :: g < |lens| / n && h < |lens| / n ==> GroupTotal(lens, n, g) <= GroupTotal(lens, n, h) + d
  }

  ghost predicate RowsWithin(lens: seq<nat>, rows: seq<int>, d: int) {
    forall x, y :: x in rows && y in rows ==> LengthAt(lens, x) <= LengthAt(lens, y) + d
  }

  /** What all ranks hold at step k, and what rank i alone holds, in tokens. */
  function StepTotal(g: seq<int>, lens: seq<nat>, perRank: nat, ranks: nat, b: nat, k: nat): nat
    requires k * b + b <= perRank && ranks * perRank <= |g|
  {
    RowTotal(lens, Gathered(g, perRank, b, k, ranks))
  }

  function RankTotal(g: seq<int>, lens: seq<nat>, perRank: nat, b: nat, k: nat, i: nat): nat
    requires i * perRank + k * b + b <= |g|
  {
    RowTotal(lens, Micro(g, i * perRank, b, k))
  }

  ghost predicate StepsWithin(
    g: seq<int>, lens: seq<nat>, perRank: nat, ranks: nat, b: nat, d: int, k: nat, l: nat)
  {
    && ranks * perRank <= |g| && k * b + b <= perRank && l * b + b <= perRank
    && StepTotal(g, lens, perRank, ranks, b, k) <= StepTotal(g, lens, perRank, ranks, b, l) + d
  }

  ghost predicate RanksWithin(
    g: seq<int>, lens: seq<nat>, perRank: nat, ranks: nat, b: nat, d: int, k: nat, i: nat, j: nat)
  {
    && ranks * perRank <= |g| && k * b + b <= perRank
    && i * perRank + k * b + b <= |g| && j * perRank + k * b + b <= |g|
    && (RowsWithin(lens, Gathered(g, perRank, b, k, ranks), d) ==>
          RankTotal(g, lens, perRank, b, k, i) <= RankTotal(g, lens, perRank, b, k, j) + d)
  }

  /** No two micro-steps differ by more tokens than two groups do, and within a micro-step no two
      ranks differ by more tokens than two of its rows do. */
  ghost predicate EvenlySpread(g: seq<int>, lens: seq<nat>, ranks: nat, n: nat, b: nat)
    requires ranks > 0 && n > 0 && b > 0
  {
    var perRank := |lens| / ranks;
    && (forall d, k: nat, l: nat | GroupsWithin(lens, n, d) && k < perRank / b && l < perRank / b ::
          StepsWithin(g, lens, perRank, ranks, b, d, k, l))
    && (forall d, k: nat, i: nat, j: nat | k < perRank / b && i < ranks && j < ranks ::
          RanksWithin(g, lens, perRank, ranks, b, d, k, i, j))
  }

  lemma RowTotalSnoc(lens: seq<nat>, rows: seq<int>, r: int)
    ensures RowTotal(lens, rows + [r]) == RowTotal(lens, rows) + LengthAt(lens, r)
  {
    assert (rows + [r])[..|rows|] == rows;
  }

  lemma {:induction false} RowTotalConcat(lens: seq<nat>, a: seq<int>, c: seq<int>)
    ensures RowTotal(lens, a + c) == RowTotal(lens, a) + RowTotal(lens, c)
    decreases |c|
  {
    if c == [] {
      assert a + c == a;
    } else {
      RowTotalConcat(lens, a, c[..|c| - 1]);
      assert (a + c)[..|a + c| - 1] == a + c[..|c| - 1];
    }
  }

  /** Only which rows are there matters, not their order. */
  lemma {:induction false} RowTotalSame(lens: seq<nat>, a: seq<int>, c: seq<int>)
    requires multiset(a) == multiset(c)
    ensures RowTotal(lens, a) == RowTotal(lens, c)
    decreases |a|
  {
    if a == [] {
      assert |multiset(c)| == 0;
    } else {
      var j, rest := TakeOut(a, c);
      RowTotalSame(lens, a[1..], rest);
      assert a == [a[0]] + a[1..] && c == c[..j] + ([c[j]] + c[j + 1..]);
      RowTotalConcat(lens, [a[0]], a[1..]);
      RowTotalConcat(lens, c[..j], [c[j]] + c[j + 1..]);
      RowTotalConcat(lens, [c[j]], c[j + 1..]);
      RowTotalConcat(lens, c[..j], c[j + 1..]);
    }
  }

  /** Rows past the end have no tokens. */
  lemma {:induction false} PastTheEnd(lens: seq<nat>, g: nat, n: nat, m: nat)
    requires m <= n && |lens| <= g * n + m
    ensures RowTotal(lens, Block(g, n)) == RowTotal(lens, Block(g, n)[..m])
    decreases n - m
  {
    if m < n {
      PastTheEnd(lens, g, n, m + 1);
      assert Block(g, n)[..m + 1] == Block(g, n)[..m] + [g * n + m];
      RowTotalSnoc(lens, Block(g, n)[..m], g * n + m);
    } else {
      assert Block(g, n)[..m] == Block(g, n);
    }
  }

  /** The tokens of a part's rows are those of its groups. */
  lemma {:induction false} PartTokens(lens: seq<nat>, sums: seq<nat>, part: seq<nat>, n: nat)
    requires Below(part, |sums|) && forall g :: 0 <= g < |sums| ==> sums[g] == GroupTotal(lens, n, g)
    ensures PartTotal(sums, part) == RowTotal(lens, Expand(part, n))
    decreases |part|
  {
    if part != [] {
      PartTokens(lens, sums, part[1..], n);
      assert part == [part[0]] + part[1..];
      ExpandConcat([part[0]], part[1..], n);
      assert [part[0]][..0] == [];
      assert Expand([part[0]], n) == Block(part[0], n);
      RowTotalConcat(lens, Expand([part[0]], n), Expand(part[1..], n));
      hide Expand, Block, RowTotal;
    }
  }

  /** The tokens of a rank's rows are those of its part of the step. */
  lemma {:induction false} ShareTokens(lens: seq<nat>, inx: seq<nat>, part: seq<nat>)
    requires Below(inx, |lens|) && Below(part, |inx|)
    ensures PartTotal(Pick(lens, inx), part) == RowTotal(lens, Pick(inx, part))
    decreases |part|
  {
    if part != [] {
      ShareTokens(lens, inx, part[1..]);
      assert Pick(inx, part) == [inx[part[0]]] + Pick(inx, part[1..]);
      RowTotalConcat(lens, [inx[part[0]]], Pick(inx, part[1..]));
      assert [inx[part[0]]][..0] == [];
    }
  }

  /** The division of a step's rows among the ranks is as even as the rows are. */
  ghost predicate EvenStep(lens: seq<nat>, s: Step) {
    Below(s.inx, |lens|)
    && forall d :: LengthsWithin(Pick(lens, s.inx), d) ==> TotalsWithin(Pick(lens, s.inx), s.parts, d)
  }

  lemma {:induction false} StepTokens(
    g: seq<int>, lens: seq<nat>, s: Step, perRank: nat, ranks: nat, b: nat, k: nat, d: int, i: nat, j: nat)
    requires perRank > 0 && k * b + b <= perRank && ranks * perRank <= |g| && i < ranks && j < ranks
    requires Rows(s.parts, ranks, b, |s.inx|) && Filled(g, perRank, ranks, k * b, b, s) && EvenStep(lens, s)
    requires multiset(Gathered(g, perRank, b, k, ranks)) == multiset(s.inx)
    requires RowsWithin(lens, Gathered(g, perRank, b, k, ranks), d)
    ensures i * perRank + k * b + b <= |g| && j * perRank + k * b + b <= |g|
    ensures RankTotal(g, lens, perRank, b, k, i) <= RankTotal(g, lens, perRank, b, k, j) + d
  {
    hide Filled, InBlock, RowTotal, Gathered, Micro, PartTotal;
    MicroOfStep(g, perRank, b, k, ranks, s, i);
    MicroOfStep(g, perRank, b, k, ranks, s, j);
    ShareTokens(lens, s.inx, s.parts[i]);
    ShareTokens(lens, s.inx, s.parts[j]);
    LikeRows(lens, s.inx, Gathered(g, perRank, b, k, ranks), d);
  }

  lemma LikeRows(lens: seq<nat>, inx: seq<nat>, rows: seq<int>, d: int)
    requires Below(inx, |lens|) && multiset(rows) == multiset(inx) && RowsWithin(lens, rows, d)
    ensures LengthsWithin(Pick(lens, inx), d)
  {
    forall i | 0 <= i < |inx| ensures inx[i] in rows {
      assert inx[i] in multiset(inx);
    }
  }

  // ---- The balancer --------------------------------------------------------------------------------------

  /** Total length of the group that starts at row `i`; it may be cut off by the end. */
  method GroupLength(lens: seq<nat>, n: nat, i: nat, ghost g: nat) returns (total: nat)
    requires i == g * n && i < |lens|
    ensures total == GroupTotal(lens, n, g)
  {
    ghost var block := Block(g, n);
    total := 0;
    var j := i;
    while j < |lens| && j < i + n
      invariant i <= j <= i + n && j <= |lens|
      invariant total == RowTotal(lens, block[..j - i])
      decreases |lens| - j
    {
      assert block[..j + 1 - i] == block[..j - i] + [j];
      RowTotalSnoc(lens, block[..j - i], j);
      total := total + lens[j];
      j := j + 1;
    }
    if j < i + n {
      PastTheEnd(lens, g, n, j - i);
    } else {
      assert block[..n] == block;
    }
  }

  /** Total length of each group of n consecutive rows; the last group may be shorter. */
  method GroupLengths(lens: seq<nat>, n: nat) returns (sums: seq<nat>)
    requires n > 0
    ensures |sums| * n >= |lens| && (|sums| > 0 ==> (|sums| - 1) * n < |lens|)
    ensures forall g :: 0 <= g < |sums| ==> sums[g] == GroupTotal(lens, n, g)
  {
    hide GroupTotal;
    sums := [];
    var i := 0;
    while i < |lens|
      invariant i == |sums| * n
      invariant |sums| > 0 ==> (|sums| - 1) * n < |lens|
      invariant forall g :: 0 <= g < |sums| ==> sums[g] == GroupTotal(lens, n, g)
      decreases |lens| - i
    {
      var total := GroupLength(lens, n, i, |sums|);
      sums := sums + [total];
      i := i + n;
    }
  }

  /** The first loop lines of a step: the chosen rows, or an index past the end. */
  method StepRowsOf(lens: seq<nat>, part: seq<nat>, n: nat) returns (r: Result<seq<nat>, Problem>)
    ensures r == if Below(Expand(part, n), |lens|) then Ok(Expand(part, n)) else Err(OutOfRange)
  {
    var inx: seq<nat> := [];
    for i := 0 to |part|
      invariant inx == Expand(part[..i], n)
    {
      inx := inx + Block(part[i], n);
      assert part[..i + 1][..i] == part[..i];
    }
    assert part[..|part|] == part;
    r := if Below(inx, |lens|) then Ok(inx) else Err(OutOfRange);
  }

  function ProblemOf(f: Failure): Problem {
    match f
    case AssertionFailed => Assertion
    case DivisionByZero => ZeroDivision
  }

  /** The rows of this part exist and can be shared out evenly. */
  predicate PartOk(bs: nat, part: seq<nat>, n: nat, ranks: nat)
    requires ranks > 0
  {
    Below(Expand(part, n), bs) && |part| * n >= ranks && (|part| * n) % ranks == 0
  }

  /** Rows per rank in the step of this part. */
  function Share(part: seq<nat>, n: nat, ranks: nat): nat
    requires ranks > 0
  {
    (|part| * n) / ranks
  }

  ghost predicate StepOf(s: Step, part: seq<nat>, n: nat, ranks: nat) {
    s.inx == Expand(part, n) && EqualPartition(s.parts, ranks, |part| * n)
  }

  /** One iteration of the outer loop: choose the rows, partition them over the ranks, write them. */
  method WriteStep(a: array<int>, lens: seq<nat>, part: seq<nat>, n: nat, b: nat, ranks: nat, k: nat)
    returns (r: Result<Step, Problem>)
    requires ranks > 0 && a.Length == |lens|
    requires |part| * n >= ranks ==> k * b + Share(part, n, ranks) <= a.Length / ranks
    modifies a
    ensures r.Ok? <==> PartOk(|lens|, part, n, ranks)
    ensures r.Ok? ==> StepOf(r.value, part, n, ranks) && a.Length >= ranks && a.Length / ranks > 0
    ensures r.Ok? ==> EvenStep(lens, r.value)
    ensures r.Ok? ==> forall c :: 0 <= c < a.Length ==>
      a[c] == if InBlock(c, a.Length / ranks, ranks, k * b, Share(part, n, ranks))
              then CellValue(r.value.inx, r.value.parts, k * b,
                             RankOf(c, a.Length / ranks), SlotOf(c, a.Length / ranks))
              else old(a[c])
  {
    ExpandLength(part, n);
    var rows := StepRowsOf(lens, part, n);
    if rows.Err? {
      return Err(rows.error);
    }
    var inx := rows.value;
    var parts := BalancedPartitions(Pick(lens, inx), ranks);
    if parts.Err? {
      return Err(ProblemOf(parts.error));
    }
    PartsAreRows(parts.value, ranks, |inx|);
    SegmentSize(a.Length, ranks, |inx|, k * b);
    FillStep(a, a.Length / ranks, k * b, inx, parts.value, ranks, |inx| / ranks);
    r := Ok(Step(inx, parts.value));
  }

  lemma PartsAreRows(parts: seq<seq<nat>>, ranks: nat, m: nat)
    requires EqualPartition(parts, ranks, m)
    ensures Rows(parts, ranks, m / ranks, m)
  {
    InBounds(Flatten(parts), m);
    forall i | 0 <= i < |parts| ensures Below(parts[i], m) {
      PartBelow(parts, i, m);
    }
  }

  lemma {:induction false} PartBelow(parts: seq<seq<nat>>, i: nat, m: nat)
    requires i < |parts| && Below(Flatten(parts), m)
    ensures Below(parts[i], m)
  {
    var last := |parts| - 1;
    FlattenUnfold(parts);
    var front := Flatten(parts[..last]);
    assert forall x :: 0 <= x < |front| ==> front[x] == Flatten(parts)[x];
    assert forall x :: 0 <= x < |parts[last]| ==> parts[last][x] == Flatten(parts)[|front| + x];
    if i < last {
      PartBelow(parts[..last], i, m);
    }
  }

  lemma SegmentSize(length: nat, ranks: nat, m: nat, off: nat)
    requires ranks > 0 && m >= ranks && off + m / ranks <= length / ranks
    ensures length / ranks > 0 && length >= ranks && ranks * (length / ranks) <= length
  {
  }

  /** The blocks of consecutive steps do not overlap. */
  lemma BlocksApart(perRank: nat, ranks: nat, b: nat, k1: nat, m1: nat, k2: nat, m2: nat)
    requires perRank > 0 && k1 < k2 && m1 <= b
    ensures forall c: nat :: InBlock(c, perRank, ranks, k1 * b, m1) ==> !InBlock(c, perRank, ranks, k2 * b, m2)
  {
    Arith.MulGap(k1, k2, b);
  }

  /** The parts fit side by side: each step's share stays within its b slots. */
  ghost predicate Fits(phase1: seq<seq<nat>>, bs: nat, n: nat, b: nat, ranks: nat)
    requires ranks > 0
  {
    forall k :: 0 <= k < |phase1| && |phase1[k]| * n >= ranks ==>
      Share(phase1[k], n, ranks) <= b && k * b + Share(phase1[k], n, ranks) <= bs / ranks
  }

  /** Every step is written where it belongs, and nothing else is. */
  ghost predicate Written(
    g: seq<int>, steps: seq<Step>, phase1: seq<seq<nat>>, n: nat, b: nat, ranks: nat)
    requires ranks > 0
  {
    && |steps| <= |phase1|
    && (steps != [] ==> |g| >= ranks && |g| / ranks > 0)
    && (forall k :: 0 <= k < |steps| ==>
          && PartOk(|g|, phase1[k], n, ranks) && StepOf(steps[k], phase1[k], n, ranks)
          && |g| / ranks > 0
          && Filled(g, |g| / ranks, ranks, k * b, Share(phase1[k], n, ranks), steps[k]))
  }

  /** The outer loop. */
  method WriteSteps(lens: seq<nat>, phase1: seq<seq<nat>>, n: nat, b: nat, ranks: nat)
    returns (r: Result<seq<int>, Problem>, ghost steps: seq<Step>)
    requires ranks > 0 && Fits(phase1, |lens|, n, b, ranks)
    ensures r.Ok? <==> forall k :: 0 <= k < |phase1| ==> PartOk(|lens|, phase1[k], n, ranks)
    ensures r.Ok? ==> |r.value| == |lens| && |steps| == |phase1| && Written(r.value, steps, phase1, n, b, ranks)
    ensures r.Ok? ==> forall k :: 0 <= k < |steps| ==> EvenStep(lens, steps[k])
    ensures r.Ok? && |phase1| == 1 ==> forall c :: 0 <= c < |lens| ==>
      r.value[c] == -1 || (|lens| / ranks > 0 && InBlock(c, |lens| / ranks, ranks, 0, Share(phase1[0], n, ranks)))
  {
    steps := [];
    var a := new int[|lens|](_ => -1);
    for k := 0 to |phase1|
      invariant |steps| == k && Written(a[..], steps, phase1, n, b, ranks)
      invariant forall j :: 0 <= j < |steps| ==> EvenStep(lens, steps[j])
      invariant k == 0 ==> forall c :: 0 <= c < a.Length ==> a[c] == -1
      invariant k == 1 ==> forall c :: 0 <= c < a.Length ==>
        a[c] == -1 || (|lens| / ranks > 0 && InBlock(c, |lens| / ranks, ranks, 0, Share(phase1[0], n, ranks)))
    {
      ghost var before := a[..];
      var done := WriteStep(a, lens, phase1[k], n, b, ranks, k);
      if done.Err? {
        return Err(done.error), steps;
      }
      KeepWritten(before, a[..], steps, phase1, n, b, ranks, k, done.value);
      steps := steps + [done.value];
    }
    r := Ok(a[..]);
  }

  /** Writing step k keeps the earlier steps and adds its own. */
  lemma KeepWritten(
    g: seq<int>, g1: seq<int>, steps: seq<Step>, phase1: seq<seq<nat>>, n: nat, b: nat, ranks: nat, k: nat, s: Step)
    requires ranks > 0 && k < |phase1| && |steps| == k && |g1| == |g| >= ranks && |g| / ranks > 0
    requires Written(g, steps, phase1, n, b, ranks) && Fits(phase1, |g|, n, b, ranks)
    requires PartOk(|g|, phase1[k], n, ranks) && StepOf(s, phase1[k], n, ranks)
    requires forall c :: 0 <= c < |g1| ==>
      g1[c] == if InBlock(c, |g| / ranks, ranks, k * b, Share(phase1[k], n, ranks))
               then CellValue(s.inx, s.parts, k * b, RankOf(c, |g| / ranks), SlotOf(c, |g| / ranks))
               else g[c]
    ensures Written(g1, steps + [s], phase1, n, b, ranks)
  {
    var perRank := |g| / ranks;
    var all := steps + [s];
    forall j | 0 <= j < |all| ensures Filled(g1, perRank, ranks, j * b, Share(phase1[j], n, ranks), all[j]) {
      hide InBlock, CellValue, RankOf, SlotOf, Share;
      if j < k {
        BlocksApart(perRank, ranks, b, j, Share(phase1[j], n, ranks), k, Share(phase1[k], n, ranks));
      }
    }
  }

  /** `list(range(1, m))`. */
  function FromOne(m: nat): seq<nat> {
    if m <= 1 then [] else seq(m - 1, i => i + 1)
  }

  lemma GroupCount(sums: nat, bs: nat, n: nat, groups: nat)
    requires n > 0 && groups * n == bs && sums * n >= bs && (sums > 0 ==> (sums - 1) * n < bs)
    ensures sums == groups
  {
  }

  /** `_balance_batch`. When n divides ranks * b and that divides the batch, the result is a balanced
      order; in every other case the call fails or leaves unfilled entries behind, so the result is
      not a permutation. */
  method BalanceBatch(lens: seq<nat>, ranks: nat, n: nat, b: nat) returns (r: Result<seq<int>, Problem>)
    requires ranks > 0 && n > 0 && b > 0
    ensures Divides(|lens|, ranks, n, b) ==> r.Ok? && Balanced(r.value, |lens|, ranks, n, b)
    ensures Divides(|lens|, ranks, n, b) ==> EvenlySpread(r.value, lens, ranks, n, b)
    ensures !Divides(|lens|, ranks, n, b) ==> r.Err? || (|r.value| == |lens| && -1 in r.value)
    ensures (ranks * b) % n != 0 ==> r == Err(Assertion)
    ensures (ranks * b) % n == 0 && lens == [] ==> r == Err(ZeroDivision)
    ensures (ranks * b) % n == 0 && |lens| > ranks * b && |lens| % (ranks * b) != 0 ==> r == Err(FractionalSlice)
  {
    if (ranks * b) % n != 0 {
      return Err(Assertion);
    }
    ProductPositive(ranks, b);
    var kPartitions := |lens| / (ranks * b);
    var sums := GroupLengths(lens, n);
    var phase1: seq<seq<nat>>;
    if |lens| % (ranks * b) == 0 {
      if Divides(|lens|, ranks, n, b) {
        var s := ShapeOf(|lens|, ranks, n, b);
        GroupCount(|sums|, |lens|, n, s.groups);
      } else {
        EmptyBatch(|lens|, ranks * b);
      }
      var parts := BalancedPartitions(sums, kPartitions);
      if parts.Err? {
        return Err(ProblemOf(parts.error));
      }
      phase1 := parts.value;
    } else if kPartitions > 0 {
      return Err(FractionalSlice);
    } else {
      phase1 := [FromOne(|sums|)];
    }
    if Divides(|lens|, ranks, n, b) {
      EvenFits(phase1, |lens|, ranks, n, b);
    } else {
      LeftoverFits(phase1[0], |lens|, |sums|, ranks, n, b);
    }
    ghost var steps;
    r, steps := WriteSteps(lens, phase1, n, b, ranks);
    if r.Ok? {
      if Divides(|lens|, ranks, n, b) {
        WrittenIsBalanced(r.value, steps, phase1, |lens|, ranks, n, b);
        WrittenIsEven(r.value, lens, sums, steps, phase1, ranks, n, b);
      } else {
        LeftoverUnfilled(r.value, phase1[0], ranks, n);
      }
    }
  }

  lemma ProductPositive(x: nat, y: nat)
    requires x > 0 && y > 0
    ensures x * y > 0
  {
  }

  lemma EmptyBatch(bs: nat, m: nat)
    requires m > 0 && bs % m == 0 && !(bs > 0)
    ensures bs / m == 0
  {
  }

  /** In the divisible case every part fits and can be written. */
  lemma EvenFits(phase1: seq<seq<nat>>, bs: nat, ranks: nat, n: nat, b: nat)
    requires ranks > 0 && n > 0 && b > 0 && Divides(bs, ranks, n, b)
    requires EqualPartition(phase1, bs / (ranks * b), bs / n)
    ensures Fits(phase1, bs, n, b, ranks)
    ensures forall k :: 0 <= k < |phase1| ==> PartOk(bs, phase1[k], n, ranks) && Share(phase1[k], n, ranks) == b
  {
    var s := ShapeOf(bs, ranks, n, b);
    InBounds(Flatten(phase1), s.groups);
    Arith.MulDiv(b, ranks);
    forall k | 0 <= k < |phase1|
      ensures PartOk(bs, phase1[k], n, ranks) && Share(phase1[k], n, ranks) == b
      ensures k * b + b <= bs / ranks
    {
      PartBelow(phase1, k, s.groups);
      ExpandBelow(phase1[k], s.groups, n);
      Arith.MulGap(k, s.steps, b);
      Arith.MulOrder(1, b, ranks);
    }
  }

  lemma {:induction false} ExpandBelow(p: seq<nat>, groups: nat, n: nat)
    requires Below(p, groups)
    ensures Below(Expand(p, n), groups * n)
  {
    if p != [] {
      var pre, g := p[..|p| - 1], p[|p| - 1];
      ExpandBelow(pre, groups, n);
      forall j | 0 <= j < n ensures Block(g, n)[j] < groups * n {
        Arith.CellBound(g, j, groups, n);
      }
    }
  }

  /** One written step, read back: the ranks together hold exactly its rows. */
  lemma StepRead(
    g: seq<int>, s: Step, part: seq<nat>, perRank: nat, ranks: nat, n: nat, b: nat, k: nat)
    requires ranks > 0 && n > 0 && b > 0 && perRank > 0 && ranks * perRank <= |g|
    requires k * b + b <= perRank && |part| * n == ranks * b && StepOf(s, part, n, ranks)
    requires Filled(g, perRank, ranks, k * b, b, s)
    ensures multiset(Gathered(g, perRank, b, k, ranks)) == multiset(Expand(part, n))
  {
    ExpandLength(part, n);
    Arith.MulDiv(b, ranks);
    PartsAreRows(s.parts, ranks, ranks * b);
    StepGathers(g, perRank, b, k, ranks, ranks, s);
    assert s.parts[..ranks] == s.parts;
    PickPermutation(s.inx, Flatten(s.parts));
  }

  /** Step j of the order holds the rows of part j. */
  ghost predicate Reads(
    g: seq<int>, phase1: seq<seq<nat>>, perRank: nat, ranks: nat, n: nat, b: nat, j: nat)
    requires j < |phase1| && ranks * perRank <= |g|
  {
    j * b + b <= perRank && multiset(Gathered(g, perRank, b, j, ranks)) == multiset(Expand(phase1[j], n))
  }

  /** The groups of the first `k` parts, expanded. */
  lemma {:induction false} StepsExpand(
    g: seq<int>, phase1: seq<seq<nat>>, perRank: nat, ranks: nat, n: nat, b: nat, k: nat)
    requires k <= |phase1| && ranks * perRank <= |g| && k * b <= perRank
    requires forall j :: 0 <= j < |phase1| ==> Reads(g, phase1, perRank, ranks, n, b, j)
    ensures StepRows(g, perRank, b, k, ranks) == multiset(Expand(Flatten(phase1[..k]), n))
  {
    if k > 0 {
      assert (k - 1) * b + b == k * b;
      StepsExpand(g, phase1, perRank, ranks, n, b, k - 1);
      NextPart(phase1, n, k);
      assert Reads(g, phase1, perRank, ranks, n, b, k - 1);
      hide Gathered, Expand, Flatten;
    }
  }

  lemma NextPart(phase1: seq<seq<nat>>, n: nat, k: nat)
    requires 0 < k <= |phase1|
    ensures multiset(Expand(Flatten(phase1[..k]), n))
      == multiset(Expand(Flatten(phase1[..k - 1]), n)) + multiset(Expand(phase1[k - 1], n))
  {
    assert phase1[..k][..k - 1] == phase1[..k - 1];
    FlattenUnfold(phase1[..k]);
    ExpandConcat(Flatten(phase1[..k - 1]), phase1[k - 1], n);
  }

  lemma PermutationCount(p: seq<nat>, n: nat, u: nat)
    requires IsPermutation(p, n)
    ensures Count(p, u) <= 1
  {
    RangeCounts(n, u);
    var a: multiset<nat>, c: multiset<nat> := multiset(p), multiset(Range(n));
    assert a == c;
    assert a[u] == c[u];
  }

  lemma NoRepeat(parts: seq<seq<nat>>, n: nat, k: nat, u: nat)
    requires k < |parts| && IsPermutation(Flatten(parts), n)
    ensures Count(parts[k], u) <= 1
  {
    PartCounts(parts, k, u);
    PermutationCount(Flatten(parts), n, u);
    hide *;
  }

  lemma OnceIf(p: seq<nat>)
    requires forall u: nat :: Count(p, u) <= 1
    ensures AtMostOnce(p)
  {
  }

  lemma NoRepeats(parts: seq<seq<nat>>, n: nat, k: nat)
    requires k < |parts| && IsPermutation(Flatten(parts), n)
    ensures AtMostOnce(parts[k])
  {
    hide *;
    forall u: nat ensures Count(parts[k], u) <= 1 {
      NoRepeat(parts, n, k, u);
    }
    OnceIf(parts[k]);
  }

  /** Every part of the first phase has distinct groups, so its step is whole. */
  lemma PartIsWhole(phase1: seq<seq<nat>>, groups: nat, n: nat, k: nat, gathered: seq<int>)
    requires n > 0 && k < |phase1| && IsPermutation(Flatten(phase1), groups)
    requires multiset(gathered) == multiset(Expand(phase1[k], n))
    ensures WholeGroups(gathered, n)
  {
    hide *;
    NoRepeats(phase1, groups, k);
    StepIsWhole(Expand(phase1[k], n), phase1[k], gathered, n);
  }

  /** All steps together hold every row once. */
  lemma OrderPermutes(
    g: seq<int>, phase1: seq<seq<nat>>, perRank: nat, ranks: nat, n: nat, b: nat, groups: nat)
    requires |g| == ranks * perRank == groups * n && |phase1| * b == perRank
    requires IsPermutation(Flatten(phase1), groups)
    requires forall j :: 0 <= j < |phase1| ==> Reads(g, phase1, perRank, ranks, n, b, j)
    ensures IsPermutation(g, groups * n)
  {
    StepsExpand(g, phase1, perRank, ranks, n, b, |phase1|);
    assert phase1[..|phase1|] == phase1;
    assert g[..ranks * perRank] == g;
    AllSteps(g, perRank, b, |phase1|, ranks);
    hide StepRows, Expand, Reads;
    ExpandSame(Flatten(phase1), Range(groups), n);
    ExpandRange(groups, n);
  }

  /** The written order satisfies the guarantee. */
  lemma WrittenIsBalanced(
    g: seq<int>, steps: seq<Step>, phase1: seq<seq<nat>>, bs: nat, ranks: nat, n: nat, b: nat)
    requires ranks > 0 && n > 0 && b > 0 && Divides(bs, ranks, n, b)
    requires |g| == bs && |steps| == |phase1| && Written(g, steps, phase1, n, b, ranks)
    requires EqualPartition(phase1, bs / (ranks * b), bs / n)
    requires forall k :: 0 <= k < |phase1| ==> Share(phase1[k], n, ranks) == b
    ensures Balanced(g, bs, ranks, n, b)
  {
    var sh := ShapeOf(bs, ranks, n, b);
    Arith.MulDiv(sh.steps, b);
    assert forall k :: 0 <= k < sh.steps ==> |phase1[k]| * n == ranks * b;
    hide Gathered, WholeGroups, Expand, Divides, IsPermutation, Share, PartOk;
    forall k: nat | k < sh.steps
      ensures Reads(g, phase1, sh.perRank, ranks, n, b, k)
      ensures k * b + b <= sh.perRank && WholeGroups(Gathered(g, sh.perRank, b, k, ranks), n)
    {
      Arith.MulGap(k, sh.steps, b);
      StepRead(g, steps[k], phase1[k], sh.perRank, ranks, n, b, k);
      PartIsWhole(phase1, sh.groups, n, k, Gathered(g, sh.perRank, b, k, ranks));
    }
    OrderPermutes(g, phase1, sh.perRank, ranks, n, b, sh.groups);
  }

  /** Everything known of a written order in the divisible case. */
  ghost predicate Evenly(
    g: seq<int>, lens: seq<nat>, sums: seq<nat>, steps: seq<Step>, phase1: seq<seq<nat>>, ranks: nat, n: nat, b: nat)
    requires ranks > 0 && n > 0 && b > 0
  {
    && Divides(|lens|, ranks, n, b)
    && |g| == |lens| && |steps| == |phase1| && Written(g, steps, phase1, n, b, ranks)
    && EqualPartition(phase1, |lens| / (ranks * b), |lens| / n) && |sums| == |lens| / n
    && (forall k :: 0 <= k < |phase1| ==> Share(phase1[k], n, ranks) == b && EvenStep(lens, steps[k]))
    && (forall j :: 0 <= j < |sums| ==> sums[j] == GroupTotal(lens, n, j))
    && (forall d :: LengthsWithin(sums, d) ==> TotalsWithin(sums, phase1, d))
  }

  /** One step of such an order. */
  lemma StepOfOrder(
    g: seq<int>, lens: seq<nat>, sums: seq<nat>, steps: seq<Step>, phase1: seq<seq<nat>>, ranks: nat, n: nat, b: nat,
    k: nat) returns (perRank: nat)
    requires ranks > 0 && n > 0 && b > 0 && Evenly(g, lens, sums, steps, phase1, ranks, n, b)
    requires k < |lens| / ranks / b
    ensures perRank == |lens| / ranks > 0 && ranks * perRank == |g| && k < |phase1|
    ensures Reads(g, phase1, perRank, ranks, n, b, k) && Below(phase1[k], |sums|)
    ensures Rows(steps[k].parts, ranks, b, |steps[k].inx|) && Filled(g, perRank, ranks, k * b, b, steps[k])
    ensures multiset(Gathered(g, perRank, b, k, ranks)) == multiset(steps[k].inx)
  {
    var sh := ShapeOf(|lens|, ranks, n, b);
    perRank := sh.perRank;
    Arith.MulDiv(sh.steps, b);
    Arith.MulGap(k, sh.steps, b);
    InBounds(Flatten(phase1), sh.groups);
    PartBelow(phase1, k, sh.groups);
    Arith.MulDiv(b, ranks);
    ExpandLength(phase1[k], n);
    hide Gathered, Expand, Divides, PartOk, EvenStep, InBlock, LengthsWithin, TotalsWithin, GroupTotal;
    assert |phase1[k]| * n == ranks * b;
    StepRead(g, steps[k], phase1[k], perRank, ranks, n, b, k);
    PartsAreRows(steps[k].parts, ranks, ranks * b);
  }

  /** The written order spreads the tokens as evenly as the guarantee says. */
  lemma WrittenIsEven(
    g: seq<int>, lens: seq<nat>, sums: seq<nat>, steps: seq<Step>, phase1: seq<seq<nat>>, ranks: nat, n: nat, b: nat)
    requires ranks > 0 && n > 0 && b > 0 && Evenly(g, lens, sums, steps, phase1, ranks, n, b)
    ensures EvenlySpread(g, lens, ranks, n, b)
  {
    var sh := ShapeOf(|lens|, ranks, n, b);
    hide *;
    forall d, k: nat, l: nat | GroupsWithin(lens, n, d) && k < sh.perRank / b && l < sh.perRank / b
      ensures StepsWithin(g, lens, sh.perRank, ranks, b, d, k, l)
    {
      TwoSteps(g, lens, sums, steps, phase1, ranks, n, b, d, k, l);
    }
    forall d, k: nat, i: nat, j: nat | k < sh.perRank / b && i < ranks && j < ranks
      ensures RanksWithin(g, lens, sh.perRank, ranks, b, d, k, i, j)
    {
      TwoRanks(g, lens, sums, steps, phase1, ranks, n, b, d, k, i, j);
    }
    SpreadIs(g, lens, ranks, n, b, sh.perRank);
  }

  lemma SpreadIs(g: seq<int>, lens: seq<nat>, ranks: nat, n: nat, b: nat, perRank: nat)
    requires ranks > 0 && n > 0 && b > 0 && perRank == |lens| / ranks && |g| == |lens|
    requires forall d, k: nat, l: nat | GroupsWithin(lens, n, d) && k < perRank / b && l < perRank / b ::
      StepsWithin(g, lens, perRank, ranks, b, d, k, l)
    requires forall d, k: nat, i: nat, j: nat | k < perRank / b && i < ranks && j < ranks ::
      RanksWithin(g, lens, perRank, ranks, b, d, k, i, j)
    ensures EvenlySpread(g, lens, ranks, n, b)
  {
    hide StepsWithin, RanksWithin, GroupsWithin;
  }

  lemma TwoSteps(
    g: seq<int>, lens: seq<nat>, sums: seq<nat>, steps: seq<Step>, phase1: seq<seq<nat>>, ranks: nat, n: nat, b: nat,
    d: int, k: nat, l: nat)
    requires ranks > 0 && n > 0 && b > 0 && Evenly(g, lens, sums, steps, phase1, ranks, n, b)
    requires GroupsWithin(lens, n, d) && k < |lens| / ranks / b && l < |lens| / ranks / b
    ensures StepsWithin(g, lens, |lens| / ranks, ranks, b, d, k, l)
  {
    var perRank := StepOfOrder(g, lens, sums, steps, phase1, ranks, n, b, k);
    var _ := StepOfOrder(g, lens, sums, steps, phase1, ranks, n, b, l);
    GroupsAre(lens, sums, n, d);
    StepIsPart(g, lens, sums, phase1, perRank, ranks, n, b, k);
    StepIsPart(g, lens, sums, phase1, perRank, ranks, n, b, l);
    hide Gathered, Expand, Divides, PartOk, EvenStep, Filled, StepTotal, PartTotal, Written, GroupTotal, Rows;
  }

  lemma TwoRanks(
    g: seq<int>, lens: seq<nat>, sums: seq<nat>, steps: seq<Step>, phase1: seq<seq<nat>>, ranks: nat, n: nat, b: nat,
    d: int, k: nat, i: nat, j: nat)
    requires ranks > 0 && n > 0 && b > 0 && Evenly(g, lens, sums, steps, phase1, ranks, n, b)
    requires k < |lens| / ranks / b && i < ranks && j < ranks
    ensures RanksWithin(g, lens, |lens| / ranks, ranks, b, d, k, i, j)
  {
    var perRank := StepOfOrder(g, lens, sums, steps, phase1, ranks, n, b, k);
    Arith.MulGap(i, ranks, perRank);
    Arith.MulGap(j, ranks, perRank);
    hide Gathered, Expand, Divides, PartOk, EvenStep, Filled, RankTotal, Written, GroupTotal, Rows, RowsWithin;
    if RowsWithin(lens, Gathered(g, perRank, b, k, ranks), d) {
      StepTokens(g, lens, steps[k], perRank, ranks, b, k, d, i, j);
    }
  }

  lemma GroupsAre(lens: seq<nat>, sums: seq<nat>, n: nat, d: int)
    requires n > 0 && |sums| == |lens| / n && GroupsWithin(lens, n, d)
    requires forall j :: 0 <= j < |sums| ==> sums[j] == GroupTotal(lens, n, j)
    ensures LengthsWithin(sums, d)
  {
    hide GroupTotal;
  }

  lemma StepIsPart(
    g: seq<int>, lens: seq<nat>, sums: seq<nat>, phase1: seq<seq<nat>>, perRank: nat, ranks: nat, n: nat, b: nat,
    k: nat)
    requires k < |phase1| && ranks * perRank <= |g| && Reads(g, phase1, perRank, ranks, n, b, k)
    requires Below(phase1[k], |sums|) && forall j :: 0 <= j < |sums| ==> sums[j] == GroupTotal(lens, n, j)
    ensures StepTotal(g, lens, perRank, ranks, b, k) == PartTotal(sums, phase1[k])
  {
    RowTotalSame(lens, Gathered(g, perRank, b, k, ranks), Expand(phase1[k], n));
    PartTokens(lens, sums, phase1[k], n);
    hide Gathered, Expand, RowTotal, GroupTotal, PartTotal;
  }

  lemma LeftoverFits(part: seq<nat>, bs: nat, sums: nat, ranks: nat, n: nat, b: nat)
    requires ranks > 0 && n > 0 && b > 0 && ranks * b > 0 && bs < ranks * b
    requires part == FromOne(sums) && (sums > 0 ==> (sums - 1) * n < bs)
    ensures Fits([part], bs, n, b, ranks)
    ensures |part| * n < bs || part == []
  {
    if sums > 1 {
      Arith.DivOrder(|part| * n, bs, ranks);
      Arith.DivOrder(|part| * n, ranks * b, ranks);
      Arith.MulDiv(b, ranks);
    }
  }

  /** A single short step cannot fill every cell. */
  lemma LeftoverUnfilled(g: seq<int>, part: seq<nat>, ranks: nat, n: nat)
    requires ranks > 0 && n > 0 && |part| * n < |g|
    requires PartOk(|g|, part, n, ranks)
    requires forall c :: 0 <= c < |g| ==>
      g[c] == -1 || (|g| / ranks > 0 && InBlock(c, |g| / ranks, ranks, 0, Share(part, n, ranks)))
    ensures -1 in g
  {
    var perRank, m := |g| / ranks, Share(part, n, ranks);
    Arith.DivOrder(|part| * n, |g|, ranks);
    assert |part| * n == m * ranks;
    SegmentSize(|g|, ranks, |part| * n, 0);
    if m < perRank {
      Arith.DivUnique(m, perRank, 0, m);
      Arith.MulOrder(1, ranks, perRank);
      assert !InBlock(m, perRank, ranks, 0, m);
      assert g[m] == -1;
    } else {
      Arith.MulDiv(ranks, perRank);
      assert !InBlock(ranks * perRank, perRank, ranks, 0, m);
      assert g[ranks * perRank] == -1;
    }
  }
}
