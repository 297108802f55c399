/**
 * NumPy's row-major array layout on nested sequences: `reshape(-1, ...)`
 * (Flatten), `reshape(rows, cols)` (Reshape) and the axis swaps done by
 * `np.stack(..., axis=1)` and `einops.rearrange` (Transpose).
 */
module Layout {

  /** Every row of `rows` has `cols` entries: a rectangular 2-axis array. */
  ghost predicate Rectangular<T>(rows: seq<seq<T>>, cols: nat) {
    forall r :: 0 <= r < |rows| ==> |rows[r]| == cols
  }

  /** Row r of a rows x cols array occupies flat positions r * cols up to r * cols + cols. */
  lemma RowBounds(r: int, rows: int, cols: int)
    requires 0 <= r < rows && 0 <= cols
    ensures 0 <= r * cols && r * cols + cols <= rows * cols
  {
    assert (rows - r - 1) * cols == rows * cols - r * cols - cols;
    assert 0 <= (rows - r - 1) * cols;
  }

  /** Row r, column c of a rows x cols array sits at flat position r * cols + c, inside the array. */
  lemma RowMajorBound(r: int, c: int, rows: int, cols: int)
    requires 0 <= r < rows && 0 <= c < cols
    ensures 0 <= r * cols + c < rows * cols
  {
    RowBounds(r, rows, cols);
  }

  lemma MulAtLeast(k: int, cols: int)
    requires k >= 1 && cols > 0
    ensures k * cols >= cols
  {
    assert k * cols == (k - 1) * cols + cols;
  }

  /** Flat position r * cols + c decodes back to row r and column c. */
  lemma RowMajorDivMod(r: int, c: int, cols: int)
    requires cols > 0 && 0 <= c < cols
    ensures (r * cols + c) / cols == r && (r * cols + c) % cols == c
  {
    var n := r * cols + c;
    var q, m := n / cols, n % cols;
    assert n == q * cols + m && 0 <= m < cols;
    assert (q - r) * cols == c - m;
    if q > r {
      MulAtLeast(q - r, cols);
    } else if q < r {
      MulAtLeast(r - q, cols);
    }
  }

  /** Flat position p is row p / cols, column p % cols. */
  lemma DivModIdentity(p: int, cols: int)
    requires cols > 0
    ensures p == (p / cols) * cols + p % cols && 0 <= p % cols < cols
  {
  }

  /** A flat position below m * n lies in one of the first m rows of length n. */
  lemma DivBelow(p: int, n: int, m: int)
    requires n > 0 && 0 <= p < m * n
    ensures 0 <= p / n < m
  {
    DivModIdentity(p, n);
  }

  /** `a.reshape(-1, ...)` of a 2-axis array: its rows laid end to end. */
  function Flatten<T>(rows: seq<seq<T>>): (flat: seq<T>)
    decreases |rows|
  {
    if rows == [] then [] else rows[0] + Flatten(rows[1..])
  }

  lemma {:induction false} FlattenLength<T>(rows: seq<seq<T>>, cols: nat)
    requires Rectangular(rows, cols)
    ensures |Flatten(rows)| == |rows| * cols
    decreases |rows|
  {
    if rows != [] {
      FlattenLength(rows[1..], cols);
      assert |rows| * cols == cols + (|rows| - 1) * cols;
    }
  }

  /** Dropping the first row moves every later flat position back by one row. */
  lemma DropRow(p: int, cols: int)
    requires cols > 0 && p >= cols
    ensures (p - cols) / cols == p / cols - 1 && (p - cols) % cols == p % cols
  {
    var r, c := p / cols, p % cols;
    DivModIdentity(p, cols);
    assert p - cols == (r - 1) * cols + c;
    RowMajorDivMod(r - 1, c, cols);
  }

  /** Flat position p of a flattened rows x cols array holds row p / cols, column p % cols. */
  lemma {:induction false} FlattenAt<T>(rows: seq<seq<T>>, cols: nat, p: int)
    requires Rectangular(rows, cols)
    requires 0 <= p < |rows| * cols
    ensures cols > 0 && 0 <= p / cols < |rows|
    ensures |Flatten(rows)| == |rows| * cols
    ensures Flatten(rows)[p] == rows[p / cols][p % cols]
    decreases |rows|
  {
    FlattenLength(rows, cols);
    assert rows != [];
    assert |rows| * cols == (|rows| - 1) * cols + cols;
    if p < cols {
      RowMajorDivMod(0, p, cols);
    } else {
      FlattenAt(rows[1..], cols, p - cols);
      DropRow(p, cols);
    }
  }

  /** The rows after the first of a rows x cols array fill the rest of it. */
  lemma RestRows(rows: int, cols: int)
    requires rows > 0
    ensures rows * cols - cols == (rows - 1) * cols
  {
  }

  /**
   * `s.reshape(rows, cols)`: `s` cut into `rows` consecutive rows of `cols`
   * entries, so that flattening it gives `s` back.
   */
  function Reshape<T>(s: seq<T>, rows: nat, cols: nat): (a: seq<seq<T>>)
    requires |s| == rows * cols
    ensures |a| == rows && Rectangular(a, cols)
    ensures Flatten(a) == s
    decreases rows
  {
    if rows == 0 then []
    else
      RestRows(rows, cols);
      var rest := Reshape(s[cols..], rows - 1, cols);
      var a := [s[..cols]] + rest;
      assert a[0] == s[..cols] && a[1..] == rest;
      a
  }

  /** Entry (r, c) of `s.reshape(rows, cols)` is s[r * cols + c]. */
  lemma {:induction false} ReshapeAt<T>(s: seq<T>, rows: nat, cols: nat, r: int, c: int)
    requires |s| == rows * cols
    requires 0 <= r < rows && 0 <= c < cols
    ensures 0 <= r * cols + c < |s|
    ensures Reshape(s, rows, cols)[r][c] == s[r * cols + c]
  {
    var a := Reshape(s, rows, cols);
    var p := r * cols + c;
    RowMajorBound(r, c, rows, cols);
    FlattenAt(a, cols, p);
    RowMajorDivMod(r, c, cols);
  }

  /** Swap the two axes of a rectangular |a| x cols array. */
  function Transpose<T>(a: seq<seq<T>>, cols: nat): (t: seq<seq<T>>)
    requires Rectangular(a, cols)
    ensures |t| == cols && Rectangular(t, |a|)
    ensures forall c, r :: 0 <= c < cols && 0 <= r < |a| ==> t[c][r] == a[r][c]
  {
    seq(cols, c requires 0 <= c < cols => seq(|a|, r requires 0 <= r < |a| => a[r][c]))
  }
}
