/**
 * The vanilla DeepONet: one branch network whose output is split into a real and an
 * imaginary half of `num_basis` coefficients each, one trunk network giving the basis
 * functions, and a forward pass that multiplies each half with the transposed trunk output.
 */
module VanillaDeepONet {
  import opened Common
  import opened Matrices

  /**
   * The body of `forward` once both networks have run: with K the number of trunk columns,
   * the real output is the first K branch columns and the imaginary output the remaining
   * ones, each multiplied with the transposed trunk output; a half that does not have K
   * columns makes `torch.matmul` raise.
   */
  function Combine(b: Matrix, t: Matrix): Result<(Matrix, Matrix)> {
    var k := t.cols;
    var realCoeffs := ColSlice(b, 0, k);
    var imagCoeffs := ColSlice(b, k, b.cols);
    var tt := Transpose(t);
    if realCoeffs.cols != tt.rows || imagCoeffs.cols != tt.rows then Err(ShapeMismatch)
    else Ok((MatMul(realCoeffs, tt), MatMul(imagCoeffs, tt)))
  }

  /** `forward(xb, xt)`: the branch runs on the inputs, the trunk on the points. */
  function Forward(branchNet: Matrix -> Matrix, trunkNet: Matrix -> Matrix, xb: Matrix, xt: Matrix)
    : Result<(Matrix, Matrix)>
  {
    Combine(branchNet(xb), trunkNet(xt))
  }

  /**
   * The split succeeds exactly when the branch has twice as many outputs as the trunk;
   * both outputs are then batch × points.
   */
  lemma CombineShape(b: Matrix, t: Matrix)
    ensures Combine(b, t).Ok? <==> b.cols == 2 * t.cols
    ensures Combine(b, t).Ok? ==>
      && Combine(b, t).value.0.rows == b.rows && Combine(b, t).value.0.cols == t.rows
      && Combine(b, t).value.1.rows == b.rows && Combine(b, t).value.1.cols == t.rows
  {
  }

  /**
   * Entry (r, p) of the real output is the first K coefficients of sample r dotted with
   * basis row p, and of the imaginary output the last K.
   */
  lemma CombineCell(b: Matrix, t: Matrix, r: nat, p: nat)
    requires b.cols == 2 * t.cols && r < b.rows && p < t.rows
    ensures Combine(b, t).Ok?
    ensures Combine(b, t).value.0.cells[r][p] == Dot(b.cells[r][..t.cols], t.cells[p])
    ensures Combine(b, t).value.1.cells[r][p] == Dot(b.cells[r][t.cols..], t.cells[p])
  {
    var k := t.cols;
    var re, im, tt := ColSlice(b, 0, k), ColSlice(b, k, b.cols), Transpose(t);
    ColSliceCells(b, 0, k);
    ColSliceCells(b, k, b.cols);
    MatMulCells(re, tt);
    MatMulCells(im, tt);
    assert Column(tt, p) == t.cells[p];
    assert re.cells[r] == b.cells[r][..k];
    assert im.cells[r] == b.cells[r][k..];
  }

  /**
   * The combination succeeds exactly when b has twice as many columns as t, and then
   * gives, for every sample r and point p, the two halves of row r of b dotted with row p of t.
   */
  lemma CombineSpec(b: Matrix, t: Matrix)
    ensures Combine(b, t).Ok? <==> b.cols == 2 * t.cols
    ensures Combine(b, t).Ok? ==>
      && Combine(b, t).value.0.rows == b.rows && Combine(b, t).value.0.cols == t.rows
      && Combine(b, t).value.1.rows == b.rows && Combine(b, t).value.1.cols == t.rows
      && (forall r, p | 0 <= r < b.rows && 0 <= p < t.rows ::
            Combine(b, t).value.0.cells[r][p] == Dot(b.cells[r][..t.cols], t.cells[p]))
      && (forall r, p | 0 <= r < b.rows && 0 <= p < t.rows ::
            Combine(b, t).value.1.cells[r][p] == Dot(b.cells[r][t.cols..], t.cells[p]))
  {
    CombineShape(b, t);
    if b.cols == 2 * t.cols {
      forall r, p | 0 <= r < b.rows && 0 <= p < t.rows
        ensures Combine(b, t).value.0.cells[r][p] == Dot(b.cells[r][..t.cols], t.cells[p])
        ensures Combine(b, t).value.1.cells[r][p] == Dot(b.cells[r][t.cols..], t.cells[p])
      {
        CombineCell(b, t, r, p);
      }
    }
  }
}
