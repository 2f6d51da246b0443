/**
 * Row-major indexing of a grid stored as one flat sequence: cell (row, col) of a
 * grid with `width` columns sits at flat position row * width + col. Both the basket
 * generator (rings inside angles) and the NURBS reshape (columns inside rows) rely on it.
 */
module Indexing {

  function FlatIndex(width: nat, row: nat, col: nat): nat
  {
    row * width + col
  }

  lemma MulMonotone(a: nat, b: nat, c: nat)
    requires a <= b
    ensures a * c <= b * c
  {
  }

  /** A cell of an earlier row lies before every cell of row `rows`. */
  lemma FlatIndexBelow(width: nat, row: nat, col: nat, rows: nat)
    requires row < rows && col < width
    ensures FlatIndex(width, row, col) < rows * width
    ensures row * width + width <= rows * width
  {
    MulMonotone(row + 1, rows, width);
    assert (row + 1) * width == row * width + width;
  }

  /** Euclidean division and remainder are unique. */
  lemma DivModUnique(a: int, d: int, q: int, r: int)
    requires 0 < d && 0 <= r < d && a == q * d + r
    ensures a / d == q && a % d == r
  {
    var q' := a / d;
    var r' := a % d;
    assert a == q' * d + r';
    assert (q - q') * d == r' - r;
    if q - q' >= 1 {
      MulMonotone(1, q - q', d);
      assert false;
    } else if q' - q >= 1 {
      MulMonotone(1, q' - q, d);
      assert false;
    }
  }

  /** Going from a flat position back to (row, col) is division and remainder by the width. */
  lemma FlatIndexInverse(width: nat, row: nat, col: nat)
    requires col < width
    ensures FlatIndex(width, row, col) / width == row
    ensures FlatIndex(width, row, col) % width == col
  {
    DivModUnique(FlatIndex(width, row, col), width, row, col);
  }

  /** Every flat position below rows * width is the position of a cell. */
  lemma FlatIndexSurjective(width: nat, rows: nat, k: nat)
    requires 0 < width && k < rows * width
    ensures k / width < rows && k % width < width
    ensures FlatIndex(width, k / width, k % width) == k
  {
    if k / width >= rows {
      MulMonotone(rows, k / width, width);
      assert false;
    }
  }

  /** A grid given cell by cell, laid out as `rows` consecutive rows of `width` cells. */
  function Blocks<T>(rows: nat, width: nat, cell: (nat, nat) -> T): (r: seq<T>)
    ensures |r| == rows * width
  {
    if rows == 0 then []
    else
      var front := Blocks(rows - 1, width, cell);
      assert |front| + width == rows * width;
      front + seq(width, (k: int) requires 0 <= k < width => cell(rows - 1, k))
  }

  /** Cell (row, col) of the grid sits at its row-major position. */
  lemma {:induction false} BlocksAt<T>(rows: nat, width: nat, cell: (nat, nat) -> T, row: nat, col: nat)
    requires row < rows && col < width
    ensures FlatIndex(width, row, col) < |Blocks(rows, width, cell)|
    ensures Blocks(rows, width, cell)[FlatIndex(width, row, col)] == cell(row, col)
  {
    FlatIndexBelow(width, row, col, rows);
    var front := Blocks(rows - 1, width, cell);
    if row < rows - 1 {
      BlocksAt(rows - 1, width, cell, row, col);
    } else {
      assert FlatIndex(width, row, col) == |front| + col;
    }
  }
}
