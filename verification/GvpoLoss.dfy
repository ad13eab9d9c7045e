/** The consumer of the balanced order: each rank splits its rows into mini- and micro-batches,
    and the loss gathers a micro-step over the ranks and asserts that every group is whole. */
module GvpoLoss {
  import opened GvpoBalance
  import opened Slices
  import Arith

  // ---- Splitting into batches ---------------------------------------------------------

  /** All micro-batches of a rank, mini-batch after mini-batch. */
  function MicroBatches(rows: seq<int>, mini: nat, micro: nat): seq<seq<int>>
    requires mini > 0 && micro > 0
    decreases |rows|
  {
    if rows == [] then []
    else if |rows| <= mini then Pieces(rows, micro)
    else Pieces(rows[..mini], micro) + MicroBatches(rows[mini..], mini, micro)
  }

  /** Splitting by mini-batch first makes no difference exactly when the micro size divides the
      mini size, or there is a single mini-batch. */
  lemma {:induction false} MicroBatchesExactly(rows: seq<int>, mini: nat, micro: nat)
    requires mini > 0 && micro > 0
    ensures MicroBatches(rows, mini, micro) == Pieces(rows, micro)
      <==> mini % micro == 0 || |rows| <= mini
    decreases |rows|
  {
    if |rows| > mini {
      var a, c := rows[..mini], rows[mini..];
      assert rows == a + c;
      if mini % micro == 0 {
        PiecesConcat(a, c, micro);
        MicroBatchesExactly(c, mini, micro);
      } else {
        ShortPiece(a, c, micro);
        var k := mini / micro;
        assert MicroBatches(rows, mini, micro)[k] == Pieces(a, micro)[k];
      }
    }
  }

  /** When the pieces do not come out even, the last piece of the front part is too short. */
  lemma {:induction false} ShortPiece(a: seq<int>, c: seq<int>, size: nat)
    requires size > 0 && |a| % size != 0 && c != []
    ensures |Pieces(a, size)| > |a| / size
    ensures |Pieces(a + c, size)| > |a| / size
    ensures |Pieces(a, size)[|a| / size]| < |Pieces(a + c, size)[|a| / size]|
    decreases |a|
  {
    if |a| > size {
      PeelOne(|a|, size);
      ShortPiece(a[size..], c, size);
      FirstPiece(a, size);
      FirstPiece(a + c, size);
      assert (a + c)[size..] == a[size..] + c;
    } else {
      if |a| == size {
        Arith.DivUnique(|a|, size, 1, 0);
      }
      Arith.DivUnique(|a|, size, 0, |a|);
      if |a + c| > size {
        FirstPiece(a + c, size);
      }
    }
  }

  // ---- The assertion in the loss ---------------------------------------------------------

  /** `compute_policy_loss_gvpo`'s loop over the gathered uids: does every group have n rows? */
  method GroupsWhole(uids: seq<int>, n: nat) returns (ok: bool)
    ensures ok <==> forall u :: u in uids ==> multiset(uids)[u] == n
  {
    for i := 0 to |uids|
      invariant forall j :: 0 <= j < i ==> multiset(uids)[uids[j]] == n
    {
      var count := 0;
      for j := 0 to |uids|
        invariant count == multiset(uids[..j])[uids[i]]
      {
        assert uids[..j + 1] == uids[..j] + [uids[j]];
        if uids[j] == uids[i] {
          count := count + 1;
        }
      }
      assert uids[..|uids|] == uids;
      if count != n {
        var u := uids[i];
        assert u in uids && multiset(uids)[u] != n;
        return false;
      }
    }
    ok := true;
  }

  /** What the ranks hold when each runs its k-th micro-batch. */
  function HeldAt(g: seq<int>, perRank: nat, mini: nat, b: nat, k: nat, ranks: nat): seq<int>
    requires mini > 0 && b > 0 && ranks * perRank <= |g|
    decreases ranks
  {
    if ranks == 0 then []
    else
      assert (ranks - 1) * perRank + perRank == ranks * perRank;
      var own := MicroBatches(g[(ranks - 1) * perRank..ranks * perRank], mini, b);
      HeldAt(g, perRank, mini, b, k, ranks - 1) + if k < |own| then own[k] else []
  }

  lemma {:induction false} HeldIsGathered(g: seq<int>, perRank: nat, mini: nat, b: nat, k: nat, ranks: nat)
    requires mini > 0 && b > 0 && (mini % b == 0 || perRank <= mini)
    requires ranks * perRank <= |g| && k * b + b <= perRank
    ensures HeldAt(g, perRank, mini, b, k, ranks) == Gathered(g, perRank, b, k, ranks)
  {
    hide MicroBatches, Micro;
    if ranks > 0 {
      Arith.MulStep(ranks, perRank);
      assert (ranks - 1) * perRank + perRank == ranks * perRank;
      assert 0 <= (ranks - 1) * perRank;
      HeldIsGathered(g, perRank, mini, b, k, ranks - 1);
      OwnMicro(g, (ranks - 1) * perRank, perRank, mini, b, k);
    }
  }

  /** One rank's k-th micro-batch sits at its place in the rank's segment. */
  lemma OwnMicro(g: seq<int>, from: nat, perRank: nat, mini: nat, b: nat, k: nat)
    requires mini > 0 && b > 0 && (mini % b == 0 || perRank <= mini)
    requires from + perRank <= |g| && k * b + b <= perRank
    ensures var own := MicroBatches(g[from..from + perRank], mini, b);
      k < |own| && own[k] == Micro(g, from, b, k)
  {
    var own := g[from..from + perRank];
    MicroBatchesExactly(own, mini, b);
    PieceAt(own, b, k);
    SliceOfSlice(g, from, from + perRank, k * b, k * b + b);
  }

  /** The loss assertion never fails on a balanced batch: at every micro-step, what the ranks hold
      together consists of whole groups. */
  lemma LossAssertionHolds(g: seq<int>, bs: nat, ranks: nat, n: nat, b: nat, mini: nat, k: nat)
    requires ranks > 0 && n > 0 && b > 0 && mini > 0 && (mini % b == 0 || bs / ranks <= mini)
    requires Balanced(g, bs, ranks, n, b) && k < (bs / ranks) / b
    ensures ranks * (bs / ranks) <= |g|
    ensures WholeGroups(HeldAt(g, bs / ranks, mini, b, k, ranks), n)
  {
    HeldIsGathered(g, bs / ranks, mini, b, k, ranks);
  }
}
