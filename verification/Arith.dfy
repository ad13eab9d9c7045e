/** The few facts about products, quotients and remainders that the index arithmetic needs. */
module Arith {
  function CeilDiv(x: nat, n: nat): nat
    requires n > 0
  {
    (x + n - 1) / n
  }

  lemma MulOrder(a: int, b: int, k: int)
    requires a <= b && k >= 0
    ensures a * k <= b * k
  {
  }

  lemma MulGap(a: int, b: int, k: int)
    requires a < b && k >= 0
    ensures a * k + k <= b * k
  {
    MulOrder(a + 1, b, k);
    assert (a + 1) * k == a * k + k;
  }

  lemma MulStep(a: int, k: int)
    ensures (a - 1) * k == a * k - k
  {
  }

  /** Quotient and remainder are determined by the division equation. */
  lemma DivUnique(x: int, k: int, q: int, r: int)
    requires k > 0 && x == q * k + r && 0 <= r < k
    ensures x / k == q && x % k == r
  {
    var q1, r1 := x / k, x % k;
    assert x == q1 * k + r1;
    if q < q1 {
      MulGap(q, q1, k);
    } else if q1 < q {
      MulGap(q1, q, k);
    }
  }

  lemma MulDiv(q: int, k: int)
    requires k > 0
    ensures (q * k) / k == q && (q * k) % k == 0
  {
    DivUnique(q * k, k, q, 0);
  }

  lemma DivOrder(a: int, b: int, k: int)
    requires k > 0 && 0 <= a <= b
    ensures a / k <= b / k
  {
    if b / k < a / k {
      MulGap(b / k, a / k, k);
    }
  }

  /** The r-th place of a row-major grid lies in a row below the row count. */
  lemma RowBound(r: int, rows: int, k: int)
    requires k > 0 && 0 <= r < rows * k
    ensures 0 <= r / k < rows && r == (r / k) * k + r % k
  {
  }

  /** Rows of a grid fit one after the other. */
  lemma CellBound(i: int, j: int, rows: int, k: int)
    requires 0 <= i < rows && 0 <= j < k
    ensures 0 <= i * k + j < rows * k
  {
    MulOrder(0, i, k);
    MulOrder(i + 1, rows, k);
    assert (i + 1) * k == i * k + k;
  }
}
