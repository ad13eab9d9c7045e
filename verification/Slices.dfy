/** Cutting a sequence into pieces and putting the pieces back together. */
module Slices {
  import Arith

  /** `xs[:n]`. */
  function Take<T>(xs: seq<T>, n: nat): (r: seq<T>)
    ensures |r| == if n < |xs| then n else |xs|
    ensures r <= xs
  {
    if n < |xs| then xs[..n] else xs
  }

  function Fill<T>(n: nat, x: T): seq<T> {
    seq(n, _ => x)
  }

  function Flatten<T>(xss: seq<seq<T>>): seq<T> {
    if xss == [] then [] else Flatten(xss[..|xss| - 1]) + xss[|xss| - 1]
  }

  /** Consecutive pieces of `size` elements, the last one possibly shorter. */
  function Pieces<T>(s: seq<T>, size: nat): seq<seq<T>>
    requires size > 0
    decreases |s|
  {
    if s == [] then []
    else if |s| <= size then [s]
    else [s[..size]] + Pieces(s[size..], size)
  }

  /** Every piece has the same size. */
  predicate Uniform<T>(xss: seq<seq<T>>, size: nat) {
    forall i :: 0 <= i < |xss| ==> |xss[i]| == size
  }

  // ---- Pieces --------------------------------------------------------------------------

  lemma PeelOne(length: nat, size: nat)
    requires size > 0 && length >= size
    ensures (length - size) % size == length % size && (length - size) / size == length / size - 1
  {
    var q, r := length / size, length % size;
    Arith.MulStep(q, size);
    Arith.DivUnique(length - size, size, q - 1, r);
  }

  lemma FirstPiece<T>(s: seq<T>, size: nat)
    requires size > 0 && |s| >= size
    ensures Pieces(s, size) == [s[..size]] + Pieces(s[size..], size)
  {
    if |s| == size {
      assert s[..size] == s;
      assert s[size..] == [];
    }
  }

  lemma {:induction false} PieceCount<T>(s: seq<T>, size: nat)
    requires size > 0 && |s| % size == 0
    ensures |Pieces(s, size)| == |s| / size
    ensures Uniform(Pieces(s, size), size)
    decreases |s|
  {
    if s != [] {
      if |s| < size {
        Arith.DivUnique(|s|, size, 0, |s|);
      }
      PeelOne(|s|, size);
      PieceCount(s[size..], size);
      FirstPiece(s, size);
    }
  }

  /** A prefix of whole pieces can be cut off first. */
  lemma {:induction false} PiecesConcat<T>(a: seq<T>, c: seq<T>, size: nat)
    requires size > 0 && |a| % size == 0
    ensures Pieces(a + c, size) == Pieces(a, size) + Pieces(c, size)
    decreases |a|
  {
    if a == [] {
      assert a + c == c;
    } else {
      if |a| < size {
        Arith.DivUnique(|a|, size, 0, |a|);
      }
      PeelOne(|a|, size);
      PiecesConcat(a[size..], c, size);
      assert (a + c)[..size] == a[..size];
      assert (a + c)[size..] == a[size..] + c;
      FirstPiece(a, size);
      FirstPiece(a + c, size);
    }
  }

  lemma SliceOfSlice<T>(s: seq<T>, from: nat, to: nat, a: nat, b: nat)
    requires from <= to <= |s| && a <= b <= to - from
    ensures s[from..to][a..b] == s[from + a..from + b]
  {
    SliceOfTail(s[..to], from, a, b);
    assert s[from..to] == s[..to][from..];
    assert s[..to][from + a..from + b] == s[from + a..from + b];
  }

  lemma SliceOfTail<T>(s: seq<T>, from: nat, a: nat, b: nat)
    requires from <= |s| && a <= b <= |s| - from
    ensures s[from..][a..b] == s[from + a..from + b]
  {
    var x, y := s[from..][a..b], s[from + a..from + b];
    forall i | 0 <= i < b - a ensures x[i] == y[i] {
    }
  }

  /** The k-th piece, by position. */
  lemma {:induction false} PieceAt<T>(s: seq<T>, size: nat, k: nat)
    requires size > 0 && k * size + size <= |s|
    ensures k < |Pieces(s, size)| && Pieces(s, size)[k] == s[k * size..k * size + size]
    decreases k
  {
    if k == 0 {
      FirstPiece(s, size);
    } else {
      Arith.MulOrder(1, k, size);
      Arith.MulStep(k, size);
      FirstPiece(s, size);
      PieceAt(s[size..], size, k - 1);
      SliceOfTail(s, size, (k - 1) * size, (k - 1) * size + size);
    }
  }

  // ---- Flatten ---------------------------------------------------------------------------

  lemma FlattenUnfold<T>(xss: seq<seq<T>>)
    requires xss != []
    ensures Flatten(xss) == Flatten(xss[..|xss| - 1]) + xss[|xss| - 1]
  {
  }

  lemma FlattenAppend<T>(xss: seq<seq<T>>, x: seq<T>)
    ensures Flatten(xss + [x]) == Flatten(xss) + x
  {
  }

  lemma {:induction false} FlattenConcat<T>(a: seq<seq<T>>, b: seq<seq<T>>)
    ensures Flatten(a + b) == Flatten(a) + Flatten(b)
    decreases |b|
  {
    hide *;
    if b == [] {
      FlattenNone<T>();
      assert a + b == a;
    } else {
      var n := |b| - 1;
      FlattenConcat(a, b[..n]);
      assert a + b == (a + b[..n]) + [b[n]];
      FlattenAppend(a + b[..n], b[n]);
      FlattenUnfold(b);
    }
  }

  lemma FlattenNone<T>()
    ensures Flatten<T>([]) == []
  {
  }

  lemma FlattenHead<T>(xss: seq<seq<T>>)
    requires xss != []
    ensures Flatten(xss) == xss[0] + Flatten(xss[1..])
  {
    FlattenNone<T>();
    FlattenAppend([], xss[0]);
    FlattenConcat([xss[0]], xss[1..]);
    hide *;
    assert xss == [xss[0]] + xss[1..];
    assert [] + [xss[0]] == [xss[0]];
  }

  lemma {:induction false} FlattenLength<T>(xss: seq<seq<T>>, m: nat)
    requires Uniform(xss, m)
    ensures |Flatten(xss)| == |xss| * m
  {
    if xss != [] {
      FlattenLength(xss[..|xss| - 1], m);
      assert |xss| * m == (|xss| - 1) * m + m;
    }
  }

  /** With rows of one length, the flattened sequence is indexed in row-major order. */
  lemma {:induction false} FlattenAt<T>(xss: seq<seq<T>>, m: nat, i: nat, j: nat)
    requires Uniform(xss, m)
    requires i < |xss| && j < m
    ensures |Flatten(xss)| == |xss| * m
    ensures i * m + j < |Flatten(xss)| && Flatten(xss)[i * m + j] == xss[i][j]
  {
    var n := |xss| - 1;
    FlattenLength(xss, m);
    FlattenLength(xss[..n], m);
    Arith.CellBound(i, j, |xss|, m);
    FlattenUnfold(xss);
    hide Flatten;
    if i < n {
      FlattenAt(xss[..n], m, i, j);
    }
  }

  // ---- Each undoes the other ---------------------------------------------------------------

  lemma {:induction false} FlattenPieces<T>(s: seq<T>, size: nat)
    requires size > 0
    ensures Flatten(Pieces(s, size)) == s
    decreases |s|
  {
    if |s| > size {
      FlattenPieces(s[size..], size);
      FlattenHead(Pieces(s, size));
    }
  }

  lemma {:induction false} PiecesFlatten<T>(xss: seq<seq<T>>, size: nat)
    requires size > 0 && Uniform(xss, size)
    ensures Pieces(Flatten(xss), size) == xss
  {
    if xss != [] {
      var n := |xss| - 1;
      PiecesFlatten(xss[..n], size);
      FlattenLength(xss[..n], size);
      Arith.MulDiv(n, size);
      PiecesConcat(Flatten(xss[..n]), xss[n], size);
      assert xss == xss[..n] + [xss[n]];
    }
  }
}
