/**
 * Real matrices with an explicit shape, and the handful of tensor operations the
 * DeepONet code uses on 2-D tensors: Python-style clamped slicing of rows and
 * columns, transpose, matrix product, identity, concatenation along columns
 * (`torch.cat(..., dim=1)`) and element-wise arithmetic with broadcasting.
 * Keeping the shape beside the cells lets a matrix with no rows remember how
 * many columns it has, as a tensor does.
 */
module Matrices {
  import opened Common

  datatype Mat = Mat(rows: nat, cols: nat, cells: seq<seq<real>>)

  predicate WellShaped(m: Mat) {
    |m.cells| == m.rows && forall i | 0 <= i < |m.cells| :: |m.cells[i]| == m.cols
  }

  /** A rectangular matrix: every tensor the model handles is one. */
  type Matrix = m: Mat | WellShaped(m) witness Mat(0, 0, [])

  /** Two matrices with the same shape and the same cells are the same matrix. */
  lemma Ext(a: Matrix, b: Matrix)
    requires a.rows == b.rows && a.cols == b.cols
    requires forall i, j | 0 <= i < a.rows && 0 <= j < a.cols :: a.cells[i][j] == b.cells[i][j]
    ensures a == b
  {
    forall i | 0 <= i < a.rows
      ensures a.cells[i] == b.cells[i]
    {
      assert |a.cells[i]| == |b.cells[i]| == a.cols;
    }
  }

  /** A Python slice bound: indices past the end stop at the end. */
  function Clamp(x: nat, bound: nat): (c: nat)
    ensures c <= bound && c <= x
    ensures x <= bound ==> c == x
  {
    if x <= bound then x else bound
  }

  /** `m[lo:hi, :]` */
  function RowSlice(m: Matrix, lo: nat, hi: nat): (s: Matrix)
    ensures s.cols == m.cols
    ensures lo <= hi ==> s.rows == Clamp(hi, m.rows) - Clamp(lo, m.rows)
    ensures hi < lo ==> s.rows == 0
  {
    var a := Clamp(lo, m.rows);
    var b := if hi < lo then a else Clamp(hi, m.rows);
    Mat(b - a, m.cols, m.cells[a..b])
  }

  /** An in-range row slice keeps rows `lo` to `hi - 1`, in order. */
  lemma RowSliceCells(m: Matrix, lo: nat, hi: nat)
    requires lo <= hi <= m.rows
    ensures RowSlice(m, lo, hi).rows == hi - lo
    ensures forall k | 0 <= k < hi - lo :: RowSlice(m, lo, hi).cells[k] == m.cells[lo + k]
  {
  }

  /** `m[:, lo:hi]` */
  function ColSlice(m: Matrix, lo: nat, hi: nat): (s: Matrix)
    ensures s.rows == m.rows
    ensures lo <= hi ==> s.cols == Clamp(hi, m.cols) - Clamp(lo, m.cols)
    ensures hi < lo ==> s.cols == 0
  {
    var a := Clamp(lo, m.cols);
    var b := if hi < lo then a else Clamp(hi, m.cols);
    Mat(m.rows, b - a, seq(m.rows, i requires 0 <= i < m.rows => m.cells[i][a..b]))
  }

  /** An in-range column slice keeps columns `lo` to `hi - 1` of every row. */
  lemma ColSliceCells(m: Matrix, lo: nat, hi: nat)
    requires lo <= hi <= m.cols
    ensures ColSlice(m, lo, hi).cols == hi - lo
    ensures forall i, k | 0 <= i < m.rows && 0 <= k < hi - lo :: ColSlice(m, lo, hi).cells[i][k] == m.cells[i][lo + k]
  {
  }

  function Transpose(m: Matrix): (t: Matrix)
    ensures t.rows == m.cols && t.cols == m.rows
  {
    Mat(m.cols, m.rows, seq(m.cols, j requires 0 <= j < m.cols =>
      seq(m.rows, i requires 0 <= i < m.rows => m.cells[i][j])))
  }

  /** Entry (j, i) of the transpose is entry (i, j) of the matrix. */
  lemma TransposeCells(m: Matrix)
    ensures forall i, j | 0 <= i < m.rows && 0 <= j < m.cols :: Transpose(m).cells[j][i] == m.cells[i][j]
  {
  }

  /** Transposing twice gives the matrix back. */
  lemma TransposeTwice(m: Matrix)
    ensures Transpose(Transpose(m)) == m
  {
    Ext(Transpose(Transpose(m)), m);
  }

  function Dot(u: seq<real>, v: seq<real>): real
    requires |u| == |v|
  {
    if |u| == 0 then 0.0 else u[0] * v[0] + Dot(u[1..], v[1..])
  }

  lemma {:induction false} DotComm(u: seq<real>, v: seq<real>)
    requires |u| == |v|
    ensures Dot(u, v) == Dot(v, u)
  {
    if |u| > 0 {
      DotComm(u[1..], v[1..]);
    }
  }

  function Column(m: Matrix, j: nat): (c: seq<real>)
    requires j < m.cols
    ensures |c| == m.rows && forall i | 0 <= i < m.rows :: c[i] == m.cells[i][j]
  {
    seq(m.rows, i requires 0 <= i < m.rows => m.cells[i][j])
  }

  /** `torch.matmul` on 2-D tensors whose inner dimensions agree. */
  function MatMul(a: Matrix, b: Matrix): (p: Matrix)
    requires a.cols == b.rows
    ensures p.rows == a.rows && p.cols == b.cols
  {
    Mat(a.rows, b.cols, seq(a.rows, i requires 0 <= i < a.rows =>
      seq(b.cols, j requires 0 <= j < b.cols => Dot(a.cells[i], Column(b, j)))))
  }

  /** Entry (i, j) of a product is row i of the left factor dotted with column j of the right. */
  lemma MatMulCells(a: Matrix, b: Matrix)
    requires a.cols == b.rows
    ensures forall i, j | 0 <= i < a.rows && 0 <= j < b.cols :: MatMul(a, b).cells[i][j] == Dot(a.cells[i], Column(b, j))
  {
  }

  /** `torch.eye(k)` */
  function Identity(k: nat): (e: Matrix)
    ensures e.rows == k && e.cols == k
  {
    Mat(k, k, seq(k, i requires 0 <= i < k => seq(k, j requires 0 <= j < k => if i == j then 1.0 else 0.0)))
  }

  function Zeros(r: nat, c: nat): (z: Matrix)
    ensures z.rows == r && z.cols == c && IsZero(z)
  {
    Mat(r, c, seq(r, i => seq(c, j => 0.0)))
  }

  predicate IsZero(m: Matrix) {
    forall i, j | 0 <= i < m.rows && 0 <= j < m.cols :: m.cells[i][j] == 0.0
  }

  lemma {:induction false} DotUnit(u: seq<real>, v: seq<real>, j: nat)
    requires |u| == |v| && j < |u|
    requires forall c | 0 <= c < |u| :: u[c] == if c == j then 1.0 else 0.0
    ensures Dot(u, v) == v[j]
  {
    if j == 0 {
      DotZero(u[1..], v[1..]);
    } else {
      DotUnit(u[1..], v[1..], j - 1);
    }
  }

  lemma {:induction false} DotZero(u: seq<real>, v: seq<real>)
    requires |u| == |v|
    requires forall c | 0 <= c < |u| :: u[c] == 0.0
    ensures Dot(u, v) == 0.0
  {
    if |u| > 0 {
      DotZero(u[1..], v[1..]);
    }
  }

  /** The identity is a left unit of the matrix product. */
  lemma IdentityMatMul(m: Matrix)
    ensures MatMul(Identity(m.rows), m) == m
  {
    var e := Identity(m.rows);
    var p := MatMul(e, m);
    forall i, j | 0 <= i < m.rows && 0 <= j < m.cols
      ensures p.cells[i][j] == m.cells[i][j]
    {
      DotUnit(e.cells[i], Column(m, j), i);
    }
    Ext(p, m);
  }

  predicate SameRows(ms: seq<Matrix>) {
    forall j | 0 <= j < |ms| :: ms[j].rows == ms[0].rows
  }

  /** The column count of matrices put side by side. */
  function TotalCols(ms: seq<Matrix>): nat {
    if |ms| == 0 then 0 else TotalCols(ms[..|ms| - 1]) + ms[|ms| - 1].cols
  }

  /** Row r of matrices put side by side: their rows r, one after the other. */
  function JoinedRow(ms: seq<Matrix>, r: nat): (row: seq<real>)
    requires forall j | 0 <= j < |ms| :: r < ms[j].rows
    ensures |row| == TotalCols(ms)
  {
    if |ms| == 0 then [] else JoinedRow(ms[..|ms| - 1], r) + ms[|ms| - 1].cells[r]
  }

  function CatAll(ms: seq<Matrix>): (c: Matrix)
    requires |ms| > 0 && SameRows(ms)
    ensures c.rows == ms[0].rows && c.cols == TotalCols(ms)
  {
    Mat(ms[0].rows, TotalCols(ms), seq(ms[0].rows, r requires 0 <= r < ms[0].rows => JoinedRow(ms, r)))
  }

  /** `torch.cat(ms, dim=1)`: refuses an empty tuple and differing row counts. */
  function Cat(ms: seq<Matrix>): (r: Result<Matrix>)
    ensures r.Ok? <==> |ms| > 0 && SameRows(ms)
  {
    if |ms| > 0 && SameRows(ms) then Ok(CatAll(ms)) else Err(ShapeMismatch)
  }

  /** Matrices k columns wide side by side make |ms|·k columns. */
  lemma {:induction false} TotalColsUniform(ms: seq<Matrix>, k: nat)
    requires forall j | 0 <= j < |ms| :: ms[j].cols == k
    ensures TotalCols(ms) == Offset(|ms|, k)
  {
    if |ms| > 0 {
      TotalColsUniform(ms[..|ms| - 1], k);
    }
  }

  /** Entries iK..(i+1)K of a joined row of k-column matrices are row r of the i-th matrix. */
  lemma {:induction false} JoinedRowBlock(ms: seq<Matrix>, k: nat, r: nat, i: nat)
    requires forall j | 0 <= j < |ms| :: r < ms[j].rows && ms[j].cols == k
    requires i < |ms|
    ensures Offset(i, k) + k <= |JoinedRow(ms, r)|
    ensures JoinedRow(ms, r)[Offset(i, k)..Offset(i, k) + k] == ms[i].cells[r]
  {
    var n := |ms|;
    var front := ms[..n - 1];
    TotalColsUniform(ms, k);
    TotalColsUniform(front, k);
    var f := JoinedRow(front, r);
    assert JoinedRow(ms, r) == f + ms[n - 1].cells[r];
    if i < n - 1 {
      OffsetMono(i + 1, n - 1, k);
      JoinedRowBlock(front, k, r, i);
      SliceAppendLeft(f, ms[n - 1].cells[r], Offset(i, k), Offset(i, k) + k);
    } else {
      SliceAppendRight(f, ms[n - 1].cells[r]);
    }
  }

  lemma SliceAppendLeft<T>(f: seq<T>, g: seq<T>, a: nat, b: nat)
    requires a <= b <= |f|
    ensures (f + g)[a..b] == f[a..b]
  {
    assert forall j | 0 <= j < b - a :: (f + g)[a..b][j] == f[a..b][j];
  }

  lemma SliceAppendRight<T>(f: seq<T>, g: seq<T>)
    ensures (f + g)[|f|..|f| + |g|] == g
  {
    assert forall j | 0 <= j < |g| :: (f + g)[|f|..|f| + |g|][j] == g[j];
  }

  /** Row r of an in-range column slice is the slice of row r. */
  lemma ColSliceRow(m: Matrix, lo: nat, hi: nat, r: nat)
    requires lo <= hi <= m.cols && r < m.rows
    ensures ColSlice(m, lo, hi).cells[r] == m.cells[r][lo..hi]
  {
  }

  /** Row r of column block i of a concatenation of k-column matrices is row r of the i-th matrix. */
  lemma CatAllRowBlock(ms: seq<Matrix>, k: nat, i: nat, r: nat)
    requires |ms| > 0 && SameRows(ms) && forall j | 0 <= j < |ms| :: ms[j].cols == k
    requires i < |ms| && r < ms[0].rows
    ensures Offset(i, k) + k <= CatAll(ms).cols
    ensures ColSlice(CatAll(ms), Offset(i, k), Offset(i, k) + k).cells[r] == ms[i].cells[r]
  {
    var c := CatAll(ms);
    TotalColsUniform(ms, k);
    OffsetMono(i + 1, |ms|, k);
    ColSliceRow(c, Offset(i, k), Offset(i, k) + k, r);
    assert c.cells[r] == JoinedRow(ms, r);
    assert forall j | 0 <= j < |ms| :: r < ms[j].rows && ms[j].cols == k;
    JoinedRowBlock(ms, k, r, i);
  }

  /** Row by row, column block i of a concatenation of k-column matrices is the i-th matrix. */
  lemma CatAllBlockRows(ms: seq<Matrix>, k: nat, i: nat)
    requires |ms| > 0 && SameRows(ms) && forall j | 0 <= j < |ms| :: ms[j].cols == k
    requires i < |ms|
    ensures Offset(i, k) + k <= CatAll(ms).cols
    ensures forall r | 0 <= r < ms[0].rows ::
      ColSlice(CatAll(ms), Offset(i, k), Offset(i, k) + k).cells[r] == ms[i].cells[r]
  {
    TotalColsUniform(ms, k);
    OffsetMono(i + 1, |ms|, k);
    forall r | 0 <= r < ms[0].rows
      ensures ColSlice(CatAll(ms), Offset(i, k), Offset(i, k) + k).cells[r] == ms[i].cells[r]
    {
      CatAllRowBlock(ms, k, i, r);
    }
  }

  /** Column block i of a concatenation of k-column matrices is the i-th matrix. */
  lemma CatAllBlock(ms: seq<Matrix>, k: nat, i: nat)
    requires |ms| > 0 && SameRows(ms) && forall j | 0 <= j < |ms| :: ms[j].cols == k
    requires i < |ms|
    ensures CatAll(ms).cols == Offset(|ms|, k)
    ensures ColSlice(CatAll(ms), Offset(i, k), Offset(i, k) + k) == ms[i]
  {
    TotalColsUniform(ms, k);
    CatAllBlockRows(ms, k, i);
    var s := ColSlice(CatAll(ms), Offset(i, k), Offset(i, k) + k);
    assert s.rows == ms[i].rows && s.cols == ms[i].cols;
    assert s.cells == ms[i].cells;
  }

  /** Block i of equal-width matrices put side by side sits at columns i·k to i·k + k. */
  lemma CatAllBlockAt(ms: seq<Matrix>, k: nat, i: nat)
    requires |ms| > 0 && SameRows(ms) && forall j | 0 <= j < |ms| :: ms[j].cols == k
    requires i < |ms|
    ensures ColSlice(CatAll(ms), i * k, i * k + k) == ms[i]
  {
    CatAllBlock(ms, k, i);
    OffsetIsProduct(i, k);
  }

  lemma {:induction false} OffsetMono(a: nat, b: nat, w: nat)
    requires a <= b
    ensures Offset(a, w) <= Offset(b, w)
  {
    if a < b {
      OffsetMono(a, b - 1, w);
    }
  }

  /** The first row of block `i` when blocks are `k` rows high, counted without multiplying. */
  function Offset(i: nat, k: nat): nat {
    if i == 0 then 0 else Offset(i - 1, k) + k
  }

  lemma {:induction false} OffsetIsProduct(i: nat, k: nat)
    ensures Offset(i, k) == i * k
  {
    if i > 0 {
      OffsetIsProduct(i - 1, k);
      MulMono(i - 1, i, k);
    }
  }

  /** The size a broadcast dimension takes, if the two sizes are compatible. */
  function BroadcastDim(x: nat, y: nat): (d: Option<nat>)
    ensures d.Some? <==> x == y || x == 1 || y == 1
    ensures d.Some? && x != 1 ==> d.value == x
    ensures d.Some? && y != 1 ==> d.value == y
  {
    if x == y then Some(x) else if x == 1 then Some(y) else if y == 1 then Some(x) else None
  }

  /** The source index read along a dimension of size `d` for result index `i`. */
  function Pick(d: nat, i: nat): nat {
    if d == 1 then 0 else i
  }

  /** An element-wise binary operation with numpy/torch broadcasting of 2-D shapes. */
  function Elementwise(a: Matrix, b: Matrix, op: (real, real) -> real): (r: Result<Matrix>)
    ensures r.Ok? <==> BroadcastDim(a.rows, b.rows).Some? && BroadcastDim(a.cols, b.cols).Some?
    ensures r.Ok? ==> (r.value.rows == BroadcastDim(a.rows, b.rows).value &&
                       r.value.cols == BroadcastDim(a.cols, b.cols).value)
  {
    var dr := BroadcastDim(a.rows, b.rows);
    var dc := BroadcastDim(a.cols, b.cols);
    if dr.None? || dc.None? then Err(ShapeMismatch)
    else
      Ok(Mat(dr.value, dc.value, seq(dr.value, i requires 0 <= i < dr.value =>
        seq(dc.value, j requires 0 <= j < dc.value =>
          op(a.cells[Pick(a.rows, i)][Pick(a.cols, j)], b.cells[Pick(b.rows, i)][Pick(b.cols, j)])))))
  }

  /** Entry (i, j) of a broadcast result combines the entries each operand contributes there. */
  lemma ElementwiseCells(a: Matrix, b: Matrix, op: (real, real) -> real, i: nat, j: nat)
    requires Elementwise(a, b, op).Ok?
    requires i < Elementwise(a, b, op).value.rows && j < Elementwise(a, b, op).value.cols
    ensures Pick(a.rows, i) < a.rows && Pick(a.cols, j) < a.cols && Pick(b.rows, i) < b.rows && Pick(b.cols, j) < b.cols
    ensures Elementwise(a, b, op).value.cells[i][j]
              == op(a.cells[Pick(a.rows, i)][Pick(a.cols, j)], b.cells[Pick(b.rows, i)][Pick(b.cols, j)])
  {
  }

  function Sub(x: real, y: real): real { x - y }

  function Add(x: real, y: real): real { x + y }

  /** Subtracting a matrix from itself gives the zero matrix of its shape. */
  lemma SubSelf(t: Matrix)
    ensures Elementwise(t, t, Sub) == Ok(Zeros(t.rows, t.cols))
  {
    var r := Elementwise(t, t, Sub);
    var z := Zeros(t.rows, t.cols);
    forall i, j | 0 <= i < t.rows && 0 <= j < t.cols
      ensures r.value.cells[i][j] == z.cells[i][j]
    {
      assert r.value.cells[i][j] == Sub(t.cells[i][j], t.cells[i][j]);
    }
    Ext(r.value, z);
  }

  // ---------------------------------------------------------------------------
  // Arithmetic helpers: proof steps about natural numbers, not part of
  // the modelled behaviour.

  lemma MulMono(a: nat, b: nat, w: nat)
    requires a <= b
    ensures a * w <= b * w
    ensures (a + 1) * w == a * w + w
  {
  }

  /** Multiplying by a positive divisor and dividing by it again gives the number back. */
  lemma MulDiv(k: nat, n: nat)
    requires k > 0
    ensures (k * n) / k == n
  {
    var q := (k * n) / k;
    var r := (k * n) % k;
    assert k * n == k * q + r && 0 <= r < k;
    if q < n {
      assert k * (n - q) == r;
      MulMono(1, n - q, k);
    }
  }
}
