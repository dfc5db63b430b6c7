/**
  * How fractal_thread divides an image among workers, and how the RGB frame
  * buffer is laid out: worker `i` of `N` starts at row `i` and advances by `N`;
  * pixel (row, col) occupies the three bytes from `3 * (row * width + col)`.
  */
module Rows {
  import opened Arith

  /** Row `r` is visited by the worker loop that starts at `start` and advances by `step`. */
  predicate OwnedRow(start: int, step: int, r: int)
    requires step >= 1
  {
    start <= r && (r - start) % step == 0
  }

  /** How many rows below `height` the worker (start, step) visits. */
  function RowCount(start: int, step: int, height: int): int
    requires 0 <= start && step >= 1
  {
    if start >= height then 0 else (height - 1 - start) / step + 1
  }

  /** Total of the row counts of workers 0 .. k-1 when there are `n` of them. */
  function RowCountSum(n: int, height: int, k: nat): int
    requires n >= 1
  {
    if k == 0 then 0 else RowCountSum(n, height, k - 1) + RowCount(k - 1, n, height)
  }

  /** The worker that starts at `i < n` and advances by `n` owns exactly the rows whose residue is `i`. */
  lemma OwnedIffResidue(n: int, i: int, r: int)
    requires 0 <= i < n && r >= 0
    ensures OwnedRow(i, n, r) <==> r % n == i
  {
    var q, d := r / n, r % n;
    assert r == q * n + d;
    if r >= i {
      ModOfMultiplePlus(q, n, d);
      if d >= i {
        ModOfMultiplePlus(q, n, d - i);
        assert r - i == q * n + (d - i);
      } else {
        ModOfMultiplePlus(q - 1, n, d - i + n);
        assert r - i == (q - 1) * n + (d - i + n);
      }
    } else {
      assert r < n;
      ModOfMultiplePlus(0, n, r);
    }
  }

  /**
    * Partition coverage: of the workers 0 .. n-1, each row `r` is visited by
    * worker `r % n` and by no other.
    */
  lemma WorkersPartitionRows(n: int, r: int)
    requires n >= 1 && r >= 0
    ensures 0 <= r % n < n && OwnedRow(r % n, n, r)
    ensures forall i | 0 <= i < n :: OwnedRow(i, n, r) ==> i == r % n
  {
    OwnedIffResidue(n, r % n, r);
    forall i | 0 <= i < n
      ensures OwnedRow(i, n, r) ==> i == r % n
    {
      OwnedIffResidue(n, i, r);
    }
  }

  /** Once a worker is at an owned row, the rows strictly before the next one are not its own. */
  lemma NotOwnedBeforeNext(start: int, step: int, row: int, r: int)
    requires step >= 1 && OwnedRow(start, step, row) && row < r < row + step
    ensures !OwnedRow(start, step, r)
  {
    var m := (row - start) / step;
    ModOfMultiplePlus(m, step, 0);
    DivByBounds(row - start, step, m);
    assert row - start == m * step;
    ModOfMultiplePlus(m, step, r - row);
    assert r - start == m * step + (r - row);
  }

  /** The row the worker (start, step) reaches after `k` steps is its own. */
  lemma OwnedAfterSteps(start: int, step: int, k: nat)
    requires step >= 1
    ensures OwnedRow(start, step, start + k * step)
  {
    ModOfMultiplePlus(k, step, 0);
  }

  /** When the worker loop exits after `k` rows, `k` is the worker's row count. */
  lemma LoopExitCount(start: int, step: int, height: int, k: nat)
    requires 0 <= start && step >= 1
    requires start + k * step >= height
    requires k == 0 || start + (k - 1) * step < height
    requires k == 0 ==> start >= height
    ensures RowCount(start, step, height) == k
  {
    if k > 0 {
      DivByBounds(height - 1 - start, step, k - 1);
    }
  }

  /** Taking `n` rows off the bottom takes exactly one row from every worker. */
  lemma RowCountShift(i: int, n: int, height: int)
    requires 0 <= i < n <= height
    ensures RowCount(i, n, height) == RowCount(i, n, height - n) + 1
  {
    if i < height - n {
      var q := (height - n - 1 - i) / n;
      DivByBounds(height - n - 1 - i, n, q);
      DivByBounds(height - 1 - i, n, q + 1);
    } else {
      DivByBounds(height - 1 - i, n, 0);
    }
  }

  lemma {:induction false} RowCountSumShift(n: int, height: int, k: nat)
    requires 1 <= n <= height && k <= n
    ensures RowCountSum(n, height, k) == RowCountSum(n, height - n, k) + k
  {
    if k > 0 {
      RowCountSumShift(n, height, k - 1);
      RowCountShift(k - 1, n, height);
    }
  }

  lemma {:induction false} RowCountSumShort(n: int, height: int, k: nat)
    requires 0 <= height < n && k <= n
    ensures RowCountSum(n, height, k) == if k <= height then k else height
  {
    if k > 0 {
      RowCountSumShort(n, height, k - 1);
      if k - 1 < height {
        DivByBounds(height - 1 - (k - 1), n, 0);
      }
    }
  }

  /** The row counts of the `n` workers add up to the image height (the progress counter ends at height). */
  lemma {:induction false} RowCountsCoverHeight(n: int, height: int)
    requires n >= 1 && height >= 0
    ensures RowCountSum(n, height, n) == height
    decreases height
  {
    if height < n {
      RowCountSumShort(n, height, n);
    } else {
      RowCountSumShift(n, height, n);
      RowCountsCoverHeight(n, height - n);
    }
  }

  /** Index of the first (red) byte of pixel (row, col) in a buffer `width` pixels wide. */
  function PixelIndex(width: int, row: int, col: int): int
  {
    3 * (row * width + col)
  }

  /** Row of the pixel that buffer byte `i` belongs to. */
  function RowOf(width: int, i: int): int
    requires width >= 1
  {
    (i / 3) / width
  }

  /** Column of the pixel that buffer byte `i` belongs to. */
  function ColOf(width: int, i: int): int
    requires width >= 1
  {
    (i / 3) % width
  }

  /** Every byte written for pixel (row, col) lies inside the `width * height * 3` buffer and maps back to that pixel. */
  lemma PixelIndexLayout(width: int, height: int, row: int, col: int, k: int)
    requires 0 <= row < height && 0 <= col < width && 0 <= k < 3
    ensures 0 <= PixelIndex(width, row, col) + k < width * height * 3
    ensures RowOf(width, PixelIndex(width, row, col) + k) == row
    ensures ColOf(width, PixelIndex(width, row, col) + k) == col
    ensures (PixelIndex(width, row, col) + k) % 3 == k
  {
    var p := row * width + col;
    assert p < (row + 1) * width <= height * width;
    ModOfMultiplePlus(p, 3, k);
    ModOfMultiplePlus(row, width, col);
  }

  /** A byte inside the buffer belongs to a row of the image. */
  lemma RowOfInImage(width: int, height: int, i: int)
    requires width >= 1 && 0 <= i < width * height * 3
    ensures 0 <= RowOf(width, i) < height && 0 <= ColOf(width, i) < width
  {
    var p := i / 3;
    DivByBounds(i, 3, p);
    assert p < width * height;
    var r := p / width;
    DivByBounds(p, width, r);
    if r >= height {
      assert r * width >= height * width;
    }
  }

  /** Byte `i` of the buffer lies in the three bytes of the pixel (RowOf, ColOf) it is mapped to. */
  lemma ByteOfPixel(width: int, i: int)
    requires width >= 1 && i >= 0
    ensures PixelIndex(width, RowOf(width, i), ColOf(width, i)) <= i < PixelIndex(width, RowOf(width, i), ColOf(width, i)) + 3
  {
    var p := i / 3;
    assert i == 3 * p + i % 3;
    assert p == (p / width) * width + p % width;
  }
}
