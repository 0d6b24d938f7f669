/** Integer facts shared by the loops that lay a 2D grid out in a flat
    array in row-major order or visit it with a power-of-two stride.

    Products of two variables are written with `Mul`, defined by repeated
    addition: a loop that steps a counter then only needs the linear fact
    Mul(i + 1, b) == Mul(i, b) + b, and the nonlinear arithmetic stays inside
    the lemmas below, which relate `Mul` to `*` through MulIsProduct. */
module GridIndex {

  /** a copies of b. */
  function Mul(a: nat, b: int): (r: int)
    ensures b >= 0 ==> r >= 0
  {
    if a == 0 then 0 else Mul(a - 1, b) + b
  }

  lemma {:induction false} MulIsProduct(a: nat, b: int)
    ensures Mul(a, b) == a * b
  {
    if a > 0 {
      MulIsProduct(a - 1, b);
    }
  }

  /** m * m for any integer m, written with Mul. */
  function Square(m: int): nat {
    if m >= 0 then Mul(m, m) else Mul(-m, -m)
  }

  lemma SquareIsProduct(m: int)
    ensures Square(m) == m * m
  {
    var a := if m >= 0 then m else -m;
    MulIsProduct(a, a);
    assert a * a == m * m;
  }

  /** Flat index of grid cell (x, y) in a row-major layout of the given width. */
  function RowMajor(width: int, x: int, y: nat): int {
    Mul(y, width) + x
  }

  /** Euclidean division recovers row and column from a row-major index. */
  lemma DivModRowMajor(q: int, n: int, r: int)
    requires n > 0 && 0 <= r < n
    ensures (q * n + r) / n == q && (q * n + r) % n == r
  {
    var k := q * n + r;
    var q', r' := k / n, k % n;
    assert k == q' * n + r';
    assert (q - q') * n == r' - r;
    if q' < q {
      MulMonotone(1, q - q', n);
      assert false;
    } else if q' > q {
      MulMonotone(1, q' - q, n);
      assert false;
    }
  }

  lemma MulMonotone(a: int, b: int, c: int)
    requires 0 <= a <= b && c >= 0
    ensures a * c <= b * c
  {}

  /** The row-major index of a cell of a width-by-height grid lies below
      width * height. */
  lemma RowMajorInRange(width: int, height: int, x: int, y: nat)
    requires 0 <= x < width && y < height
    ensures 0 <= RowMajor(width, x, y) < width * height
  {
    MulIsProduct(y, width);
    MulMonotone(y, height - 1, width);
    assert (height - 1) * width == width * height - width;
  }

  /** A cell of an n-by-n grid has a row-major index below n * n. */
  lemma CellInRange(n: int, i: int, j: nat)
    requires 0 <= i < n && j < n
    ensures 0 <= RowMajor(n, i, j) < Square(n)
  {
    RowMajorInRange(n, n, i, j);
    SquareIsProduct(n);
  }

  /** Every index below Square(n) is the row-major index of the n-by-n
      cell (k % n, k / n). */
  lemma SquareCell(n: int, k: int)
    requires n > 0 && 0 <= k < Square(n)
    ensures 0 <= k % n < n && 0 <= k / n < n && RowMajor(n, k % n, k / n) == k
  {
    SquareIsProduct(n);
    RowMajorBijective(n, n, k);
  }

  /** Distinct cells of a grid have distinct row-major indices. */
  lemma RowMajorInjective(width: int, x: int, y: nat, x': int, y': nat)
    requires 0 <= x < width && 0 <= x' < width
    requires RowMajor(width, x, y) == RowMajor(width, x', y')
    ensures x == x' && y == y'
  {
    MulIsProduct(y, width);
    MulIsProduct(y', width);
    DivModRowMajor(y, width, x);
    DivModRowMajor(y', width, x');
  }

  /** Every index below width * height is the row-major index of exactly one
      cell: column k % width, row k / width. */
  lemma {:induction false} RowMajorBijective(width: int, height: int, k: int)
    requires width > 0 && 0 <= k < width * height
    ensures 0 <= k % width < width && 0 <= k / width < height
    ensures RowMajor(width, k % width, k / width) == k
    ensures forall x, y: nat :: 0 <= x < width && y < height && RowMajor(width, x, y) == k ==>
              x == k % width && y == k / width
  {
    var y := k / width;
    if y >= height {
      MulMonotone(height, y, width);
      assert false;
    }
    MulIsProduct(y, width);
    forall x, y': nat | 0 <= x < width && y' < height && RowMajor(width, x, y') == k
      ensures x == k % width && y' == k / width
    {
      RowMajorInjective(width, x, y', k % width, y);
    }
  }

  /** A cell of an earlier row comes before the start of row y. */
  lemma RowMajorBeforeRow(width: int, x: int, y': nat, y: nat)
    requires 0 <= x < width && y' < y
    ensures RowMajor(width, x, y') < RowMajor(width, 0, y)
  {
    MulIncreasing(y' + 1, y, width);
  }

  /** Moving one cell right from the last column of a row is the start of the next row. */
  lemma RowMajorNextRow(width: int, y: nat)
    ensures RowMajor(width, width, y) == RowMajor(width, 0, y + 1)
  {}

  /** A stride of `step` from 0 stays below `size` for exactly
      (size - 1) / step + 1 visits. */
  lemma StrideVisits(size: int, step: int, j: nat)
    requires size >= 1 && step >= 1
    ensures Mul(j, step) < size <==> j < (size - 1) / step + 1
  {
    MulIsProduct(j, step);
    var q, r := (size - 1) / step, (size - 1) % step;
    assert size - 1 == q * step + r;
    if j <= q {
      MulMonotone(j, q, step);
    } else {
      MulMonotone(q + 1, j, step);
    }
  }

  /** Mul is monotone in its first argument for a non-negative second one. */
  lemma MulIncreasing(a: nat, b: nat, c: int)
    requires a <= b && c >= 0
    ensures Mul(a, c) <= Mul(b, c)
  {
    MulIsProduct(a, c);
    MulIsProduct(b, c);
    MulMonotone(a, b, c);
  }
}
