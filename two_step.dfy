/**
 * The helper of two-step training. It owns the coefficient matrix A that stands in
 * for the branch while the trunk is trained, and it dispatches on the phase
 * ("trunk", "branch" or anything else). In the branch phase the targets are the
 * output handling applied to A and the R factor of the trunk decomposition; when R
 * is square of size n·K its diagonal K×K blocks are first concatenated by columns.
 */
module TwoStep {
  import opened Common
  import opened Matrices
  import opened DeepONetModel
  import opened Evaluation

  /** An entry of the pair `compute_outputs` returns: a tensor, `None`, or the `...` placeholder. */
  datatype Slot = Tensor(m: Matrix) | NoTensor | EllipsisSlot

  /** `R[iK:(i+1)K, iK:(i+1)K]` */
  function DiagBlock(r: Matrix, k: nat, i: nat): Matrix {
    ColSlice(RowSlice(r, i * k, i * k + k), i * k, i * k + k)
  }

  /** `m[:, iK:(i+1)K]`, column block i of width K. */
  function ColumnBlock(m: Matrix, k: nat, i: nat): Matrix {
    ColSlice(m, i * k, i * k + k)
  }

  /** The n diagonal K×K blocks of R, in order. */
  function DiagBlocks(r: Matrix, k: nat, n: nat): (s: seq<Matrix>)
    ensures |s| == n
  {
    seq(n, i requires 0 <= i < n => DiagBlock(r, k, i))
  }

  /** The R used for the branch-phase loss: the diagonal blocks side by side when R is n·K square. */
  function MergeR(r: Matrix, k: nat, n: nat): Result<Matrix> {
    if r.rows == n * k && r.cols == n * k then Cat(DiagBlocks(r, k, n)) else Ok(r)
  }

  /** The merge of the branch-phase error computation as written: only the first block and the rest. */
  function ErrorMergeAsWritten(r: Matrix, k: nat, n: nat): Result<Matrix> {
    if r.rows == n * k && r.cols == n * k then
      Cat([ColSlice(RowSlice(r, 0, k), 0, k), ColSlice(RowSlice(r, k, r.rows), k, r.cols)])
    else Ok(r)
  }

  /** Diagonal block i of an n·K square matrix is K×K. */
  lemma DiagBlockShape(r: Matrix, k: nat, n: nat, i: nat)
    requires r.rows == n * k && r.cols == n * k && i < n
    ensures DiagBlock(r, k, i).rows == k && DiagBlock(r, k, i).cols == k
  {
    MulMono(i, i + 1, k);
    MulMono(i + 1, n, k);
  }

  lemma DiagBlocksUniform(r: Matrix, k: nat, n: nat)
    requires r.rows == n * k && r.cols == n * k
    ensures forall i | 0 <= i < n :: DiagBlocks(r, k, n)[i].rows == k && DiagBlocks(r, k, n)[i].cols == k
  {
    forall i | 0 <= i < n
      ensures DiagBlocks(r, k, n)[i].rows == k && DiagBlocks(r, k, n)[i].cols == k
    {
      DiagBlockShape(r, k, n, i);
    }
  }

  /** A square R of size n·K with n > 0 merges to a K × n·K matrix. */
  lemma MergeRShape(r: Matrix, k: nat, n: nat)
    requires r.rows == n * k && r.cols == n * k && n > 0
    ensures MergeR(r, k, n).Ok?
    ensures MergeR(r, k, n).value.rows == k && MergeR(r, k, n).value.cols == n * k
  {
    var blocks := DiagBlocks(r, k, n);
    DiagBlocksUniform(r, k, n);
    assert SameRows(blocks);
    assert blocks[0].rows == k;
    TotalColsUniform(blocks, k);
    OffsetIsProduct(n, k);
  }

  /** Column block i of the merged R is diagonal block i of R. */
  lemma MergeRBlockAt(r: Matrix, k: nat, n: nat, i: nat)
    requires r.rows == n * k && r.cols == n * k && i < n
    ensures MergeR(r, k, n).Ok?
    ensures ColumnBlock(MergeR(r, k, n).value, k, i) == DiagBlock(r, k, i)
  {
    var blocks := DiagBlocks(r, k, n);
    DiagBlocksUniform(r, k, n);
    assert SameRows(blocks);
    CatAllBlockAt(blocks, k, i);
  }

  /**
   * A square R of size n·K (n > 0) becomes K × n·K, column block i being diagonal block i;
   * with no outputs the concatenation of no blocks fails; any other R is left as it is.
   */
  lemma MergeRSpec(r: Matrix, k: nat, n: nat)
    ensures !(r.rows == n * k && r.cols == n * k) ==> MergeR(r, k, n) == Ok(r)
    ensures r.rows == n * k && r.cols == n * k && n == 0 ==> MergeR(r, k, n) == Err(ShapeMismatch)
    ensures r.rows == n * k && r.cols == n * k && n > 0 ==>
      && MergeR(r, k, n).Ok?
      && MergeR(r, k, n).value.rows == k && MergeR(r, k, n).value.cols == n * k
      && forall i | 0 <= i < n :: ColumnBlock(MergeR(r, k, n).value, k, i) == DiagBlock(r, k, i)
  {
    if r.rows == n * k && r.cols == n * k && n > 0 {
      MergeRShape(r, k, n);
      forall i | 0 <= i < n
        ensures ColumnBlock(MergeR(r, k, n).value, k, i) == DiagBlock(r, k, i)
      {
        MergeRBlockAt(r, k, n, i);
      }
    }
  }

  /** Only the diagonal blocks matter: the off-diagonal ones are dropped. */
  lemma MergeRDiagonalOnly(r: Matrix, r2: Matrix, k: nat, n: nat)
    requires r.rows == r2.rows == n * k && r.cols == r2.cols == n * k
    requires forall i | 0 <= i < n :: DiagBlock(r, k, i) == DiagBlock(r2, k, i)
    ensures MergeR(r, k, n) == MergeR(r2, k, n)
  {
    assert DiagBlocks(r, k, n) == DiagBlocks(r2, k, n);
  }

  /** With two outputs the error-path merge is the loss-path merge. */
  lemma ErrorMergeMatchesForTwo(r: Matrix, k: nat)
    ensures ErrorMergeAsWritten(r, k, 2) == MergeR(r, k, 2)
  {
    if r.rows == 2 * k && r.cols == 2 * k {
      assert RowSlice(r, k, r.rows) == RowSlice(r, 1 * k, 1 * k + k);
      assert DiagBlocks(r, k, 2) == [DiagBlock(r, k, 0), DiagBlock(r, k, 1)];
    }
  }

  /**
   * With one output, or three or more, and K > 0, the error-path merge puts a K-row block
   * beside an (n−1)·K-row block and `torch.cat` fails, while the loss-path merge succeeds.
   */
  lemma ErrorMergeFailsOtherwise(r: Matrix, k: nat, n: nat)
    requires r.rows == n * k && r.cols == n * k && k > 0 && n > 0 && n != 2
    ensures ErrorMergeAsWritten(r, k, n).Err?
    ensures MergeR(r, k, n).Ok?
  {
    MergeRSpec(r, k, n);
    MulMono(1, n, k);
    var first := ColSlice(RowSlice(r, 0, k), 0, k);
    var rest := ColSlice(RowSlice(r, k, r.rows), k, r.cols);
    assert first.rows == k;
    assert rest.rows == n * k - k;
    if n == 1 {
      assert rest.rows == 0;
    } else {
      MulMono(3, n, k);
      assert rest.rows >= 2 * k;
    }
  }

  /** The smallest witness: three outputs of one basis function each and R the 3×3 identity. */
  lemma ErrorMergeCounterexample()
    ensures ErrorMergeAsWritten(Identity(3), 1, 3).Err?
    ensures MergeR(Identity(3), 1, 3).Ok?
  {
    ErrorMergeFailsOtherwise(Identity(3), 1, 3);
  }

  class TwoStepHelper {
    /** `self.A`: `None` until `set_A_matrix` runs. */
    var a: Option<Matrix>

    constructor ()
      ensures a == None
    {
      a := None;
    }

    /** `set_A_matrix`: a fresh (random) matrix of shape (branch batch size, branch output size). */
    method SetAMatrix(branchBatchSize: nat, branchOutputSize: nat, draw: (nat, nat) -> real)
      modifies this
      ensures a.Some? && a.value.rows == branchBatchSize && a.value.cols == branchOutputSize
      ensures forall i, j | 0 <= i < branchBatchSize && 0 <= j < branchOutputSize :: a.value.cells[i][j] == draw(i, j)
    {
      a := Some(Mat(branchBatchSize, branchOutputSize,
        seq(branchBatchSize, i requires 0 <= i < branchBatchSize =>
          seq(branchOutputSize, j requires 0 <= j < branchOutputSize => draw(i, j)))));
    }

    /** `compute_outputs`: the (branch, trunk) pair for the phase. */
    function ComputeOutputs(branchNet: Matrix -> Matrix, trunkNet: Matrix -> Matrix, xb: Matrix, xt: Matrix,
                            phase: string): (Slot, Slot)
      reads this
    {
      if phase == "trunk" then (if a.Some? then Tensor(a.value) else NoTensor, Tensor(trunkNet(xt)))
      else if phase == "branch" then (Tensor(branchNet(xb)), EllipsisSlot)
      else (Tensor(branchNet(xb)), Tensor(trunkNet(xt)))
    }

    /**
     * In the trunk phase the branch network is never consulted: the branch entry is A (or
     * `None`), the same for any branch network; in the branch phase the trunk is not computed.
     */
    lemma PhaseOutputs(branchNet: Matrix -> Matrix, branchNet2: Matrix -> Matrix, trunkNet: Matrix -> Matrix,
                       trunkNet2: Matrix -> Matrix, xb: Matrix, xt: Matrix)
      ensures ComputeOutputs(branchNet, trunkNet, xb, xt, "trunk") == ComputeOutputs(branchNet2, trunkNet, xb, xt, "trunk")
      ensures ComputeOutputs(branchNet, trunkNet, xb, xt, "trunk").1 == Tensor(trunkNet(xt))
      ensures a.Some? <==> ComputeOutputs(branchNet, trunkNet, xb, xt, "trunk").0.Tensor?
      ensures a.Some? ==> ComputeOutputs(branchNet, trunkNet, xb, xt, "trunk").0.m == a.value
      ensures ComputeOutputs(branchNet, trunkNet, xb, xt, "branch") == ComputeOutputs(branchNet, trunkNet2, xb, xt, "branch")
      ensures ComputeOutputs(branchNet, trunkNet, xb, xt, "branch") == (Tensor(branchNet(xb)), EllipsisSlot)
    {
    }

    /** Any phase other than "trunk" and "branch" evaluates both networks. */
    lemma OtherPhaseOutputs(branchNet: Matrix -> Matrix, trunkNet: Matrix -> Matrix, xb: Matrix, xt: Matrix, phase: string)
      requires phase != "trunk" && phase != "branch"
      ensures ComputeOutputs(branchNet, trunkNet, xb, xt, phase) == (Tensor(branchNet(xb)), Tensor(trunkNet(xt)))
    {
    }

    /**
     * The branch-phase targets: the output handling applied to A and the merged R. Without R
     * the helper refuses before doing anything else; a missing A fails in the handling.
     */
    function BranchTargets(k: nat, n: nat, r: Option<Matrix>, merge: (Matrix, nat, nat) -> Result<Matrix>,
                           handling: (Matrix, Matrix) -> Result<seq<Matrix>>): (t: Result<seq<Matrix>>)
      reads this
      ensures r.None? ==> t == Err(RMatrixUnavailable)
      ensures r.Some? && merge(r.value, k, n).Err? ==> t == Err(merge(r.value, k, n).error)
      ensures r.Some? && merge(r.value, k, n).Ok? && a.None? ==> t == Err(WrongType)
      ensures r.Some? && merge(r.value, k, n).Ok? && a.Some? ==> t == handling(a.value, merge(r.value, k, n).value)
    {
      if r.None? then Err(RMatrixUnavailable)
      else
        var merged :- merge(r.value, k, n);
        if a.None? then Err(WrongType) else handling(a.value, merged)
    }

    /**
     * The error path with its merge as written refuses an n·K square R for n ≠ 2 at the
     * concatenation, where the loss path goes on to the output handling.
     */
    lemma ErrorPathAsWrittenFails(k: nat, n: nat, r: Matrix, handling: (Matrix, Matrix) -> Result<seq<Matrix>>)
      requires r.rows == n * k && r.cols == n * k && k > 0 && n > 0 && n != 2
      ensures BranchTargets(k, n, Some(r), ErrorMergeAsWritten, handling) == Err(ShapeMismatch)
      ensures MergeR(r, k, n).Ok?
      ensures BranchTargets(k, n, Some(r), MergeR, handling)
                == if a.None? then Err(WrongType) else handling(a.value, MergeR(r, k, n).value)
    {
      ErrorMergeFailsOtherwise(r, k, n);
    }

    /**
     * `compute_loss`: against the handling's targets in the branch phase (R merged by
     * `MergeR`), against the batch in every other phase.
     */
    function ComputeLoss(outputs: seq<Matrix>, batch: Batch, model: DeepONet, params: map<string, Value>,
                         phase: string, lossFn: (seq<Matrix>, seq<Matrix>) -> real, r: Option<Matrix>,
                         handling: (Matrix, Matrix) -> Result<seq<Matrix>>): (loss: Result<real>)
      reads this, model
      ensures phase != "branch" ==> loss == Loss(outputs, batch, params, lossFn)
      ensures phase == "branch" && r.None? ==> loss == Err(RMatrixUnavailable)
      ensures phase == "branch" ==>
        var t := BranchTargets(model.nBasisFunctions, model.nOutputs, r, MergeR, handling);
        (t.Err? ==> loss == Err(t.error)) && (t.Ok? ==> loss == Ok(lossFn(t.value, outputs)))
    {
      if phase == "branch" then
        var targets :- BranchTargets(model.nBasisFunctions, model.nOutputs, r, MergeR, handling);
        Ok(lossFn(targets, outputs))
      else Loss(outputs, batch, params, lossFn)
    }

    /** The dictionary `compute_errors` returns, with the branch-phase R merged as for the loss. */
    function PhaseErrors(outputs: seq<Matrix>, batch: Batch, k: nat, n: nat, params: map<string, Value>,
                         phase: string, r: Option<Matrix>, handling: (Matrix, Matrix) -> Result<seq<Matrix>>,
                         norm: (Matrix, Value) -> real): Result<map<string, ErrorValue>>
      reads this
    {
      if phase == "branch" then
        var targets :- BranchTargets(k, n, r, MergeR, handling);
        var keys :- OutputKeys(params);
        Errors(keys, targets, outputs, ErrorNorm(params), norm)
      else BatchErrors(outputs, batch, params, norm)
    }

    /** `compute_errors`, phase by phase. */
    method ComputeErrors(outputs: seq<Matrix>, batch: Batch, model: DeepONet, params: map<string, Value>,
                         phase: string, r: Option<Matrix>, handling: (Matrix, Matrix) -> Result<seq<Matrix>>,
                         norm: (Matrix, Value) -> real) returns (errors: Result<map<string, ErrorValue>>)
      ensures errors == PhaseErrors(outputs, batch, model.nBasisFunctions, model.nOutputs, params, phase, r, handling, norm)
    {
      var ord := ErrorNorm(params);
      if phase == "branch" {
        var k := model.nBasisFunctions;
        if r.None? {
          return Err(RMatrixUnavailable);
        }
        var merged := MergeR(r.value, k, model.nOutputs);
        if merged.Err? {
          return Err(merged.error);
        }
        if a.None? {
          return Err(WrongType);
        }
        var targets := handling(a.value, merged.value);
        if targets.Err? {
          return Err(targets.error);
        }
        var keys := OutputKeys(params);
        if keys.Err? {
          return Err(keys.error);
        }
        errors := FillErrors(keys.value, targets.value, outputs, ord, norm);
      } else {
        errors := ComputeBatchErrors(outputs, batch, params, norm);
      }
    }

    /**
     * In the branch phase the loss and the errors are taken against the same targets: when
     * the targets exist the errors are those of the outputs against them, and without R both fail.
     */
    lemma BranchPhaseConsistent(outputs: seq<Matrix>, batch: Batch, model: DeepONet, params: map<string, Value>,
                                lossFn: (seq<Matrix>, seq<Matrix>) -> real, r: Option<Matrix>,
                                handling: (Matrix, Matrix) -> Result<seq<Matrix>>, norm: (Matrix, Value) -> real)
      ensures var t := BranchTargets(model.nBasisFunctions, model.nOutputs, r, MergeR, handling);
        && (ComputeLoss(outputs, batch, model, params, "branch", lossFn, r, handling).Ok? <==> t.Ok?)
        && (t.Ok? && OutputKeys(params).Ok? ==>
              PhaseErrors(outputs, batch, model.nBasisFunctions, model.nOutputs, params, "branch", r, handling, norm)
                == Errors(OutputKeys(params).value, t.value, outputs, ErrorNorm(params), norm))
        && (r.None? ==>
              PhaseErrors(outputs, batch, model.nBasisFunctions, model.nOutputs, params, "branch", r, handling, norm)
                == Err(RMatrixUnavailable))
    {
    }

    /** `after_epoch`: a hook that changes nothing. */
    method AfterEpoch(epoch: int)
      ensures unchanged(this)
    {
    }
  }
}
