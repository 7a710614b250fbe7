/**
 * ShareBranch output handling (second generation): the branch produces K
 * coefficients that every output shares, the trunk produces K·n basis functions,
 * one block of K per output. Output i is (T[:, iK:(i+1)K] · Bᵀ)ᵀ, so entry
 * (r, p) of output i is branch row r dotted with columns iK..(i+1)K of trunk row p.
 */
module ShareBranch {
  import opened Common
  import opened Matrices
  import opened DeepONetModel

  /** `BASIS_CONFIG` */
  const BasisType: string := "multiple"

  /** The output sizes `configure_components` passes on to `create_components`. */
  datatype ComponentSizes = ComponentSizes(branchOutputSize: nat, trunkOutputSize: nat)

  /**
   * `configure_components` after `config_basis` has settled the basis count K: the pairing
   * with two-step training is refused before any size is computed or component created.
   */
  function ConfigureComponents(k: nat, n: nat, training: TrainingKind): (r: Result<ComponentSizes>)
    ensures r.Err? <==> training == TwoStepTraining
    ensures r.Err? ==> r.error == IncompatibleStrategies
    ensures r.Ok? ==> r.value.branchOutputSize == k && r.value.trunkOutputSize == r.value.branchOutputSize * n
    ensures r.Ok? && k > 0 ==> r.value.trunkOutputSize / r.value.branchOutputSize == n
  {
    if training == TwoStepTraining then Err(IncompatibleStrategies)
    else
      if k > 0 then MulDiv(k, n); Ok(ComponentSizes(k, k * n))
      else Ok(ComponentSizes(k, k * n))
  }

  /** Output `i`: trunk column block `i` times the transposed branch, transposed. */
  function Block(k: nat, b: Matrix, t: Matrix, i: nat): Result<Matrix> {
    var ts := ColSlice(t, Offset(i, k), Offset(i, k) + k);
    if ts.cols == b.cols then Ok(Transpose(MatMul(ts, Transpose(b)))) else Err(ShapeMismatch)
  }

  /** The n block products `forward` computes, in order, each of which may fail. */
  function Blocks(k: nat, n: nat, b: Matrix, t: Matrix): seq<Result<Matrix>> {
    seq(n, i requires 0 <= i < n => Block(k, b, t, i))
  }

  /** The tuple `forward` returns, or the matmul error its loop raises first. */
  function Fuse(k: nat, n: nat, b: Matrix, t: Matrix): Result<seq<Matrix>> {
    Collect(Blocks(k, n, b, t))
  }

  /** `forward(model, branch_out, trunk_out)` with K and n read from the model. */
  method Forward(model: DeepONet, b: Matrix, t: Matrix) returns (r: Result<seq<Matrix>>)
    ensures r == Fuse(model.nBasisFunctions, model.nOutputs, b, t)
  {
    var k, n := model.nBasisFunctions, model.nOutputs;
    ghost var blocks := Blocks(k, n, b, t);
    var outputs: seq<Matrix> := [];
    for i := 0 to n
      invariant Collect(blocks[..i]) == Ok(outputs)
    {
      var output := Block(k, b, t, i);
      CollectStep(blocks, i, outputs);
      if output.Err? {
        CollectFailsOnward(blocks, i + 1);
        return Err(output.error);
      }
      outputs := outputs + [output.value];
    }
    assert blocks[..n] == blocks;
    return Ok(outputs);
  }

  /** Block i multiplies trunk columns iK..(i+1)K with the whole branch; it is batch × points. */
  lemma BlockSpec(k: nat, b: Matrix, t: Matrix, i: nat)
    ensures Block(k, b, t, i).Ok? <==> ColSlice(t, i * k, i * k + k).cols == b.cols
    ensures Block(k, b, t, i).Ok? ==>
      && Block(k, b, t, i).value == Transpose(MatMul(ColSlice(t, i * k, i * k + k), Transpose(b)))
      && Block(k, b, t, i).value.rows == b.rows && Block(k, b, t, i).value.cols == t.rows
  {
    OffsetIsProduct(i, k);
  }

  /** Entry (r, p) of output i: branch row r dotted with trunk row p restricted to block i. */
  lemma BlockCell(k: nat, b: Matrix, t: Matrix, i: nat, r: nat, p: nat)
    requires Block(k, b, t, i).Ok? && r < b.rows && p < t.rows
    ensures |ColSlice(t, i * k, i * k + k).cells[p]| == |b.cells[r]|
    ensures Block(k, b, t, i).value.cells[r][p] == Dot(b.cells[r], ColSlice(t, i * k, i * k + k).cells[p])
  {
    BlockSpec(k, b, t, i);
    var ts := ColSlice(t, i * k, i * k + k);
    var bt := Transpose(b);
    assert Column(bt, r) == b.cells[r];
    DotComm(ts.cells[p], b.cells[r]);
  }

  /** The fused tuple exists when every block does; it then has n entries, entry i being block i. */
  lemma FuseSpec(k: nat, n: nat, b: Matrix, t: Matrix)
    ensures Fuse(k, n, b, t).Ok? <==> forall i | 0 <= i < n :: Block(k, b, t, i).Ok?
    ensures Fuse(k, n, b, t).Ok? ==>
      && |Fuse(k, n, b, t).value| == n
      && forall i | 0 <= i < n :: Block(k, b, t, i) == Ok(Fuse(k, n, b, t).value[i])
  {
    var blocks := Blocks(k, n, b, t);
    CollectSpec(blocks);
    assert forall i | 0 <= i < n :: blocks[i] == Block(k, b, t, i);
  }

  /**
   * With the sizes `configure_components` fixes (a trunk of K·n columns), the outputs
   * exist exactly when the branch has K columns, or when there are no outputs.
   */
  lemma ConfiguredShapes(k: nat, n: nat, b: Matrix, t: Matrix)
    requires t.cols == k * n
    ensures Fuse(k, n, b, t).Ok? <==> n == 0 || b.cols == k
  {
    forall i | 0 <= i < n
      ensures ColSlice(t, i * k, i * k + k).cols == k
    {
      MulMono(i, i + 1, k);
      MulMono(i + 1, n, k);
    }
    forall i | 0 <= i < n
      ensures Block(k, b, t, i).Ok? <==> b.cols == k
    {
      BlockSpec(k, b, t, i);
    }
    FuseSpec(k, n, b, t);
  }
}
