/** Operations that change the shape of a batch: folding rows into groups, and unfolding columns
    into rows. */
module BatchShapes {
  import opened Wrappers
  import opened Slices
  import opened Permutations
  import opened DataProtos
  import opened BatchOps
  import Arith

  // ---- Fold and unfold -------------------------------------------------------------------------

  /** A folded batch: `size` groups of `each` rows. */
  datatype Folded = Folded(size: nat, each: nat, tensors: map<Key, seq<Column>>, objects: map<Key, seq<Column>>)

  function FoldColumns(columns: map<Key, Column>, each: nat): map<Key, seq<Column>>
    requires each > 0
  {
    map k | k in columns :: Pieces(columns[k], each)
  }

  /** `fold_batch_dim`: it needs tensors, and an empty batch cannot be viewed this way. */
  function Fold(p: DataProto, groups: nat): Option<Folded>
    requires Valid(p) && groups > 0
  {
    if p.tensors.None? || p.size % groups != 0 || p.size / groups == 0 then None
    else
      var each := p.size / groups;
      Some(Folded(groups, each, FoldColumns(p.tensors.value, each), FoldColumns(p.objects, each)))
  }

  function UnfoldColumns(columns: map<Key, seq<Column>>): map<Key, Column> {
    map k | k in columns :: Flatten(columns[k])
  }

  function Unfold(f: Folded): DataProto {
    DataProto(f.size * f.each, Some(UnfoldColumns(f.tensors)), UnfoldColumns(f.objects))
  }

  lemma UnfoldFoldColumns(columns: map<Key, Column>, each: nat)
    requires each > 0
    ensures UnfoldColumns(FoldColumns(columns, each)) == columns
  {
    forall k | k in columns ensures Flatten(Pieces(columns[k], each)) == columns[k] {
      FlattenPieces(columns[k], each);
    }
  }

  /** Folding works exactly on a batch of tensors that is not empty and that the new size divides,
      and unfolding undoes it. */
  lemma UnfoldUndoesFold(p: DataProto, groups: nat)
    requires Valid(p) && groups > 0
    ensures Fold(p, groups).Some? <==> p.tensors.Some? && p.size > 0 && p.size % groups == 0
    ensures Fold(p, groups).Some? ==> Unfold(Fold(p, groups).value) == p
  {
    if p.size % groups == 0 && p.size > 0 {
      assert p.size == (p.size / groups) * groups == groups * (p.size / groups);
      if p.size / groups == 0 {
        assert false;
      }
      UnfoldFoldColumns(p.objects, p.size / groups);
      if p.tensors.Some? {
        UnfoldFoldColumns(p.tensors.value, p.size / groups);
      }
    }
  }

  /** Group `i` of a folded column holds the rows from `i * each` on. */
  lemma FoldedAt(column: Column, groups: nat, each: nat, i: nat)
    requires each > 0 && |column| == groups * each && i < groups
    ensures i * each + each <= |column| && |Pieces(column, each)| == groups
    ensures Pieces(column, each)[i] == column[i * each..i * each + each]
  {
    Arith.MulDiv(groups, each);
    PieceCount(column, each);
    RunBound(i, groups, each);
    PieceAt(column, each, i);
  }

  // ---- Unfolding columns -----------------------------------------------------------------------

  /** A tensor column: all rows have the same width. */
  predicate Rectangular(column: Column, width: nat) {
    forall i :: 0 <= i < |column| ==> |column[i]| == width
  }

  /** The width of a column, from its first row. */
  function Width(column: Column): nat {
    if column == [] then 0 else |column[0]|
  }

  /** Reshaping to `n` times the rows of a fraction of the width: the cells in row-major order, cut
      anew. It fails when the cells do not come out even. */
  function Reshape(column: Column, n: nat): Option<Column>
    requires n > 0
  {
    if column == [] then Some([])
    else if Width(column) % n != 0 then None
    else if Width(column) / n == 0 then Some(seq(|column| * n, _ => []))
    else Some(Pieces(Flatten(column), Width(column) / n))
  }

  /** Each row `n` times, as for the columns that are not split. */
  function RepeatColumn(column: Column, n: nat): Column {
    RepeatBelow(|column|, n, true);
    Pick(column, RepeatRows(|column|, n, true))
  }

  predicate Reshapes(columns: map<Key, Column>, n: nat, split: set<Key>)
    requires n > 0
  {
    forall k :: k in columns && k in split ==> Reshape(columns[k], n).Some?
  }

  function UnfoldKeys(columns: map<Key, Column>, n: nat, split: set<Key>): map<Key, Column>
    requires n > 0 && Reshapes(columns, n, split)
  {
    map k | k in columns :: if k in split then Reshape(columns[k], n).value else RepeatColumn(columns[k], n)
  }

  datatype UnfoldError = Uneven | NoKeys

  /** `unfold_column_chunks`. Without a list of keys the tensors are repeated, but the search of a
      missing list fails as soon as there is a non-tensor column. */
  function UnfoldColumnChunks(p: DataProto, n: nat, splitKeys: Option<set<Key>>): Result<DataProto, UnfoldError>
    requires Valid(p) && n > 0
  {
    var split := if splitKeys.Some? then splitKeys.value else {};
    if p.tensors.Some? && !Reshapes(p.tensors.value, n, split) then Err(Uneven)
    else if splitKeys.None? && p.objects != map[] then Err(NoKeys)
    else if !Reshapes(p.objects, n, split) then Err(Uneven)
    else
      Ok(DataProto(p.size * n,
                   if p.tensors.None? then None else Some(UnfoldKeys(p.tensors.value, n, split)),
                   UnfoldKeys(p.objects, n, split)))
  }

  /** Cell `c` of row `i * n + s` of a reshaped column is cell `s * w + c` of row `i`, where `w` is
      the new width. */
  lemma ReshapedAt(column: Column, width: nat, n: nat, i: nat, s: nat, c: nat)
    requires n > 0 && Rectangular(column, width) && width % n == 0
    requires i < |column| && s < n && c < width / n
    ensures Reshape(column, n).Some? && |Reshape(column, n).value| == |column| * n
    ensures 0 <= i * n + s < |column| * n && 0 <= s * (width / n) + c < width
    ensures |Reshape(column, n).value[i * n + s]| == width / n
    ensures Reshape(column, n).value[i * n + s][c] == column[i][s * (width / n) + c]
  {
    hide *;
    var w := width / n;
    CellPlace(|column|, width, n, w, i, s, c);
    SameShape(column, width);
    FlattenAt(column, width, i, s * w + c);
    ReshapedShape(column, width, n);
    CellOf(Flatten(column), w, i * n + s, c);
  }

  lemma SameShape(column: Column, width: nat)
    requires Rectangular(column, width)
    ensures Uniform(column, width)
  {
  }

  lemma CellOf(cells: seq<int>, w: nat, row: nat, c: nat)
    requires c < w && row * w + w <= |cells|
    ensures row < |Pieces(cells, w)| && |Pieces(cells, w)[row]| == w && Pieces(cells, w)[row][c] == cells[row * w + c]
  {
    PieceAt(cells, w, row);
  }

  lemma ReshapedShape(column: Column, width: nat, n: nat)
    requires n > 0 && Rectangular(column, width) && width % n == 0 && column != [] && width / n > 0
    ensures |Flatten(column)| == (|column| * n) * (width / n)
    ensures Reshape(column, n) == Some(Pieces(Flatten(column), width / n))
    ensures |Pieces(Flatten(column), width / n)| == |column| * n
    ensures Uniform(Pieces(Flatten(column), width / n), width / n)
  {
    FlattenLength(column, width);
    assert width == n * (width / n);
    assert |column| * width == (|column| * n) * (width / n);
    Arith.MulDiv(|column| * n, width / n);
    PieceCount(Flatten(column), width / n);
  }

  lemma CellPlace(rows: nat, width: nat, n: nat, w: nat, i: nat, s: nat, c: nat)
    requires n > 0 && width % n == 0 && w == width / n && i < rows && s < n && c < w
    ensures i * n + s < rows * n && s * w + c < width
    ensures (i * n + s) * w + c == i * width + (s * w + c)
    ensures (i * n + s) * w + w <= (rows * n) * w == rows * width
  {
    assert width == n * w;
    hide *;
    Arith.CellBound(i, s, rows, n);
    Arith.CellBound(s, c, n, w);
    Arith.MulGap(i * n + s, rows * n, w);
    RowMajor(i, n, w, s);
    RowMajor(rows, n, w, 0);
  }

  lemma RowMajor(i: nat, n: nat, w: nat, s: nat)
    ensures (i * n + s) * w == i * (n * w) + s * w
  {
  }

  /** A row of a column that is not split is repeated in place of its pieces. */
  lemma RepeatedAt(column: Column, n: nat, i: nat, s: nat)
    requires i < |column| && s < n
    ensures |RepeatColumn(column, n)| == |column| * n
    ensures 0 <= i * n + s < |column| * n && RepeatColumn(column, n)[i * n + s] == column[i]
  {
    RepeatBelow(|column|, n, true);
    Arith.CellBound(i, s, |column|, n);
    RepeatAt(|column|, n, true, i * n + s);
    Arith.DivUnique(i * n + s, n, i, s);
  }

  /** A split column is reshaped exactly when the split divides its width. */
  lemma ReshapesExactly(column: Column, width: nat, n: nat)
    requires n > 0 && column != [] && Rectangular(column, width)
    ensures Reshape(column, n).Some? <==> width % n == 0
    ensures Reshape(column, n).Some? ==> |Reshape(column, n).value| == |column| * n
  {
    if width % n == 0 && width / n > 0 {
      ReshapedShape(column, width, n);
    }
  }

  /** Columns of a tensor or an object array, with rows of one width. */
  ghost predicate RectangularAll(columns: map<Key, Column>) {
    forall k :: k in columns ==> Rectangular(columns[k], Width(columns[k]))
  }

  /** The split divides the width of every column to be split. */
  ghost predicate SplitsEvenly(columns: map<Key, Column>, n: nat, split: set<Key>)
    requires n > 0
  {
    forall k :: k in columns && k in split ==> Width(columns[k]) % n == 0
  }

  /** Unfolding a batch that is not empty works exactly when the split divides the second dimension of every
      column to be split, and there are keys to look for or no non-tensor columns to look at. */
  lemma UnfoldsExactly(p: DataProto, n: nat, splitKeys: Option<set<Key>>)
    requires Valid(p) && n > 0 && p.size > 0
    requires RectangularAll(p.objects) && (p.tensors.Some? ==> RectangularAll(p.tensors.value))
    ensures var split := if splitKeys.Some? then splitKeys.value else {};
      UnfoldColumnChunks(p, n, splitKeys).Ok? <==>
        && (splitKeys.Some? || p.objects == map[])
        && SplitsEvenly(p.objects, n, split)
        && (p.tensors.Some? ==> SplitsEvenly(p.tensors.value, n, split))
  {
  }

  /** `piece` is the s-th run of `w` cells of `row`. */
  predicate IsPiece(piece: Item, row: Item, s: nat, w: nat) {
    |piece| == w && (s + 1) * w <= |row| && piece == row[s * w..(s + 1) * w]
  }

  lemma ReshapedPiece(column: Column, width: nat, n: nat, i: nat, s: nat)
    requires n > 0 && Rectangular(column, width) && width % n == 0 && i < |column| && s < n
    ensures Reshape(column, n).Some? && 0 <= i * n + s < |Reshape(column, n).value|
    ensures IsPiece(Reshape(column, n).value[i * n + s], column[i], s, width / n)
  {
    hide *;
    var w := width / n;
    ReshapesExactly(column, width, n);
    Arith.CellBound(i, s, |column|, n);
    PieceBound(width, n, s);
    ReshapedWidth(column, width, n, i * n + s);
    RowWidth(column, width, i);
    var piece := Reshape(column, n).value[i * n + s];
    forall c | 0 <= c < w ensures s * w + c < width && piece[c] == column[i][s * w + c] {
      ReshapedAt(column, width, n, i, s, c);
    }
    PieceFrom(piece, column[i], s, w);
  }

  lemma RowWidth(column: Column, width: nat, i: nat)
    requires Rectangular(column, width) && i < |column|
    ensures |column[i]| == width
  {
  }

  lemma ReshapedWidth(column: Column, width: nat, n: nat, row: nat)
    requires n > 0 && Rectangular(column, width) && width % n == 0 && column != []
    requires Reshape(column, n).Some? && row < |Reshape(column, n).value|
    ensures |Reshape(column, n).value[row]| == width / n
  {
    if width / n > 0 {
      ReshapedShape(column, width, n);
    }
  }

  lemma PieceFrom(piece: Item, row: Item, s: nat, w: nat)
    requires |piece| == w && (s + 1) * w == s * w + w <= |row|
    requires forall c :: 0 <= c < w ==> s * w + c < |row| && piece[c] == row[s * w + c]
    ensures IsPiece(piece, row, s, w)
  {
  }

  lemma PieceBound(width: nat, n: nat, s: nat)
    requires n > 0 && width % n == 0 && s < n
    ensures (s + 1) * (width / n) == s * (width / n) + width / n <= width
  {
    assert width == n * (width / n);
    Arith.MulOrder(s + 1, n, width / n);
  }

  /** Row `i * n + s` of the new column is the s-th piece of row `i` of the old one, or that row
      itself if the column is not split. */
  predicate ComesFrom(unfolded: Column, column: Column, n: nat, isSplit: bool, i: nat, s: nat)
    requires n > 0 && i < |column|
  {
    var at := i * n + s;
    0 <= at < |unfolded| &&
    if isSplit then IsPiece(unfolded[at], column[i], s, Width(column) / n) else unfolded[at] == column[i]
  }

  /** Where the rows of an unfolded batch come from, in tensor and non-tensor columns alike. */
  lemma UnfoldedRows(columns: map<Key, Column>, n: nat, split: set<Key>, k: Key, i: nat, s: nat)
    requires n > 0 && RectangularAll(columns) && Reshapes(columns, n, split)
    requires k in columns && i < |columns[k]| && s < n
    ensures |UnfoldKeys(columns, n, split)[k]| == |columns[k]| * n
    ensures ComesFrom(UnfoldKeys(columns, n, split)[k], columns[k], n, k in split, i, s)
  {
    UnfoldedColumn(columns, n, split, k);
    hide Reshape, RepeatColumn, IsPiece, UnfoldKeys, Rectangular, RectangularAll, Reshapes, Width;
    if k in split {
      ReshapesExactly(columns[k], Width(columns[k]), n);
      ReshapedPiece(columns[k], Width(columns[k]), n, i, s);
    } else {
      RepeatedAt(columns[k], n, i, s);
    }
  }

  lemma UnfoldedColumn(columns: map<Key, Column>, n: nat, split: set<Key>, k: Key)
    requires n > 0 && RectangularAll(columns) && Reshapes(columns, n, split) && k in columns
    ensures Rectangular(columns[k], Width(columns[k]))
    ensures k in split ==> Reshape(columns[k], n) == Some(UnfoldKeys(columns, n, split)[k])
    ensures k !in split ==> UnfoldKeys(columns, n, split)[k] == RepeatColumn(columns[k], n)
  {
    hide Reshape, RepeatColumn, Rectangular, Width;
  }
}
