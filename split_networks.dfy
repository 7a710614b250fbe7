/**
 * SplitNetworks output strategy (first generation): the trunk and the branch
 * both produce K·n rows or columns, one block of K per output. Output i is
 * (T[:, iK:(i+1)K] · B[iK:(i+1)K, :])ᵀ. When neither a trunk matrix nor trunk
 * data is given, the trunk is n copies of the K×K identity concatenated by columns.
 */
module SplitNetworks {
  import opened Common
  import opened Matrices
  import opened DeepONetModel
  import ShareTrunk

  /** `BASIS_CONFIG` */
  const BasisType: string := "multiple"

  /**
   * The basis count after looking at the optional POD basis: the size of its last
   * dimension, floor-divided by the number of outputs.
   */
  function BasisCount(k0: nat, n: nat, podShape: Option<seq<nat>>): (r: Result<nat>)
    ensures podShape.None? ==> r == Ok(k0)
    ensures podShape.Some? && |podShape.value| == 0 ==> r == Err(IndexOutOfRange)
    ensures podShape.Some? && |podShape.value| > 0 && n == 0 ==> r == Err(DivisionByZero)
    ensures podShape.Some? && |podShape.value| > 0 && n > 0 ==>
      && r.Ok?
      && r.value * n <= podShape.value[|podShape.value| - 1] < r.value * n + n
  {
    match podShape
    case None => Ok(k0)
    case Some(shape) =>
      if |shape| == 0 then Err(IndexOutOfRange)
      else if n == 0 then Err(DivisionByZero)
      else Ok(shape[|shape| - 1] / n)
  }

  /** The size rules of `configure_networks`, including its integer division by K. */
  function ConfigureSizes(k0: nat, n: nat, podShape: Option<seq<nat>>): (r: Result<Sizes>)
    ensures r.Ok? <==> BasisCount(k0, n, podShape).Ok? && BasisCount(k0, n, podShape).value > 0
    ensures BasisCount(k0, n, podShape).Err? ==> r == Err(BasisCount(k0, n, podShape).error)
    ensures BasisCount(k0, n, podShape) == Ok(0) ==> r == Err(DivisionByZero)
    ensures r.Ok? ==> r.value.basisCount == BasisCount(k0, n, podShape).value
    ensures r.Ok? ==> r.value.trunkOutputSize == r.value.basisCount * n && r.value.nTrunkOutputs == n
    ensures r.Ok? ==> r.value.branchOutputSize == r.value.trunkOutputSize && r.value.nBranchOutputs == n
  {
    var k :- BasisCount(k0, n, podShape);
    if k == 0 then Err(DivisionByZero)
    else
      MulDiv(k, n);
      Ok(Sizes(k, k * n, (k * n) / k, k * n, (k * n) / k))
  }

  /** `torch.cat((eye(K),) * n, dim=1)`, which refuses an empty tuple. */
  function DefaultTrunk(k: nat, n: nat): Result<Matrix> {
    Cat(seq(n, _ => Identity(k)))
  }

  /** `trunk_out`: the default trunk when neither a trunk matrix nor trunk data is given. */
  function TrunkOutput(k: nat, n: nat, matrixTrunk: Option<Matrix>, trunkNet: Matrix -> Matrix,
                       dataTrunk: Option<Matrix>): Result<Matrix> {
    if matrixTrunk.None? && dataTrunk.None? then DefaultTrunk(k, n)
    else if matrixTrunk.Some? then Ok(matrixTrunk.value)
    else Ok(trunkNet(dataTrunk.value))
  }

  /** Output `i`: trunk column block `i` times branch row block `i`, transposed. */
  function Block(k: nat, b: Matrix, t: Matrix, i: nat): Result<Matrix> {
    var ts := ColSlice(t, Offset(i, k), Offset(i, k) + k);
    var bs := RowSlice(b, Offset(i, k), Offset(i, k) + k);
    if ts.cols == bs.rows then Ok(Transpose(MatMul(ts, bs))) else Err(ShapeMismatch)
  }

  /** The n block products `forward` computes, in order, each of which may fail. */
  function Blocks(k: nat, n: nat, b: Matrix, t: Matrix): seq<Result<Matrix>> {
    seq(n, i requires 0 <= i < n => Block(k, b, t, i))
  }

  /** The tuple `forward` returns, or the matmul error its loop raises first. */
  function Fuse(k: nat, n: nat, b: Matrix, t: Matrix): Result<seq<Matrix>> {
    Collect(Blocks(k, n, b, t))
  }

  class SplitNetworksStrategy {
    var trunkOutputSize: nat
    var nTrunkOutputs: nat
    var branchOutputSize: nat
    var nBranchOutputs: nat

    constructor ()
      ensures trunkOutputSize == 0 && nTrunkOutputs == 0 && branchOutputSize == 0 && nBranchOutputs == 0
    {
      trunkOutputSize, nTrunkOutputs, branchOutputSize, nBranchOutputs := 0, 0, 0, 0;
    }

    /**
     * `configure_networks`: fixes the output sizes, writes the POD basis count back to the
     * model, and appends the output sizes to the caller's layer lists (trunk first). Returns
     * the layer lists the branch and trunk networks are built from.
     * A zero basis count raises after the basis count and the trunk output size are
     * written; an error found in the POD basis raises before anything is written.
     */
    method ConfigureNetworks(model: DeepONet, branchLayers: LayerList, trunkLayers: LayerList)
      returns (r: Result<(seq<nat>, seq<nat>)>)
      modifies this, model, branchLayers, trunkLayers
      ensures var spec := ConfigureSizes(old(model.nBasisFunctions), old(model.nOutputs), old(model.podBasisShape));
        && (r.Ok? <==> spec.Ok?)
        && (r.Err? ==> r.error == spec.error
                       && branchLayers.sizes == old(branchLayers.sizes) && trunkLayers.sizes == old(trunkLayers.sizes))
        && (r.Ok? ==>
              && model.nBasisFunctions == spec.value.basisCount
              && trunkOutputSize == spec.value.trunkOutputSize && nTrunkOutputs == spec.value.nTrunkOutputs
              && branchOutputSize == spec.value.branchOutputSize && nBranchOutputs == spec.value.nBranchOutputs
              && (branchLayers != trunkLayers ==>
                    && trunkLayers.sizes == old(trunkLayers.sizes) + [trunkOutputSize]
                    && branchLayers.sizes == old(branchLayers.sizes) + [branchOutputSize]
                    && r.value == (branchLayers.sizes, trunkLayers.sizes))
              && (branchLayers == trunkLayers ==>
                    && trunkLayers.sizes == old(trunkLayers.sizes) + [trunkOutputSize, branchOutputSize]
                    && r.value == (trunkLayers.sizes, old(trunkLayers.sizes) + [trunkOutputSize])))
      ensures model.nOutputs == old(model.nOutputs) && model.podBasisShape == old(model.podBasisShape)
      ensures BasisCount(old(model.nBasisFunctions), old(model.nOutputs), old(model.podBasisShape)).Err? ==> unchanged(this, model)
      ensures BasisCount(old(model.nBasisFunctions), old(model.nOutputs), old(model.podBasisShape)) == Ok(0) ==>
        && model.nBasisFunctions == 0 && trunkOutputSize == 0
        && nTrunkOutputs == old(nTrunkOutputs) && branchOutputSize == old(branchOutputSize)
        && nBranchOutputs == old(nBranchOutputs)
    {
      var k := model.nBasisFunctions;
      if model.podBasisShape.Some? {
        var shape := model.podBasisShape.value;
        if |shape| == 0 {
          return Err(IndexOutOfRange);
        }
        if model.nOutputs == 0 {
          return Err(DivisionByZero);
        }
        k := shape[|shape| - 1] / model.nOutputs;
        model.nBasisFunctions := k;
      }
      trunkOutputSize := k * model.nOutputs;
      if model.nBasisFunctions == 0 {
        return Err(DivisionByZero);
      }
      MulDiv(k, model.nOutputs);
      nTrunkOutputs := trunkOutputSize / model.nBasisFunctions;
      trunkLayers.Append(trunkOutputSize);
      var trunkNetwork := trunkLayers.sizes;

      branchOutputSize := trunkOutputSize;
      nBranchOutputs := nTrunkOutputs;
      branchLayers.Append(branchOutputSize);
      var branchNetwork := branchLayers.sizes;
      return Ok((branchNetwork, trunkNetwork));
    }

    /** `forward`: one block product per output, collected in order. */
    method Forward(model: DeepONet, branchNet: Matrix -> Matrix, trunkNet: Matrix -> Matrix,
                   dataBranch: Matrix, dataTrunk: Option<Matrix>,
                   matrixBranch: Option<Matrix>, matrixTrunk: Option<Matrix>)
      returns (r: Result<seq<Matrix>>)
      ensures var t := TrunkOutput(model.nBasisFunctions, model.nOutputs, matrixTrunk, trunkNet, dataTrunk);
        && (t.Err? ==> r == Err(t.error))
        && (t.Ok? ==> r == Fuse(model.nBasisFunctions, model.nOutputs,
                                BranchOutput(matrixBranch, branchNet, dataBranch), t.value))
    {
      var k, n := model.nBasisFunctions, model.nOutputs;
      var b := BranchOutput(matrixBranch, branchNet, dataBranch);
      var trunk := TrunkOutput(k, n, matrixTrunk, trunkNet, dataTrunk);
      if trunk.Err? {
        return Err(trunk.error);
      }
      r := FuseBlocks(k, n, b, trunk.value);
    }
  }

  /** The loop of `forward`: block products appended one by one, stopping at the first failure. */
  method FuseBlocks(k: nat, n: nat, b: Matrix, t: Matrix) returns (r: Result<seq<Matrix>>)
    ensures r == Fuse(k, n, b, t)
  {
    ghost var blocks := Blocks(k, n, b, t);
    var outputs: seq<Matrix> := [];
    for i := 0 to n
      invariant Collect(blocks[..i]) == Ok(outputs)
    {
      var output := Block(k, b, t, i);
      CollectStep(blocks, i, outputs);
      if output.Err? {
        CollectFailsOnward(blocks, i + 1);
        return Err(output.error);
      }
      outputs := outputs + [output.value];
    }
    assert blocks[..n] == blocks;
    return Ok(outputs);
  }

  /** Block i multiplies columns iK..(i+1)K of the trunk with rows iK..(i+1)K of the branch. */
  lemma BlockSpec(k: nat, b: Matrix, t: Matrix, i: nat)
    ensures Block(k, b, t, i).Ok? <==> ColSlice(t, i * k, i * k + k).cols == RowSlice(b, i * k, i * k + k).rows
    ensures Block(k, b, t, i).Ok? ==>
      && Block(k, b, t, i).value == Transpose(MatMul(ColSlice(t, i * k, i * k + k), RowSlice(b, i * k, i * k + k)))
      && Block(k, b, t, i).value.rows == b.cols && Block(k, b, t, i).value.cols == t.rows
  {
    OffsetIsProduct(i, k);
  }

  /** The fused tuple exists when every block does; it then has n entries, entry i being block i. */
  lemma FuseSpec(k: nat, n: nat, b: Matrix, t: Matrix)
    ensures Fuse(k, n, b, t).Ok? <==> forall i | 0 <= i < n :: Block(k, b, t, i).Ok?
    ensures Fuse(k, n, b, t).Ok? ==>
      && |Fuse(k, n, b, t).value| == n
      && forall i | 0 <= i < n :: Block(k, b, t, i) == Ok(Fuse(k, n, b, t).value[i])
  {
    var blocks := Blocks(k, n, b, t);
    CollectSpec(blocks);
    assert forall i | 0 <= i < n :: blocks[i] == Block(k, b, t, i);
  }

  /**
   * The default trunk exists exactly when there is at least one output; it is then K
   * rows by n·K columns and its column block i is the identity.
   */
  lemma DefaultTrunkSpec(k: nat, n: nat)
    ensures DefaultTrunk(k, n).Ok? <==> n > 0
    ensures DefaultTrunk(k, n).Ok? ==>
      && DefaultTrunk(k, n).value.rows == k && DefaultTrunk(k, n).value.cols == n * k
      && forall i | 0 <= i < n :: ColSlice(DefaultTrunk(k, n).value, i * k, i * k + k) == Identity(k)
  {
    var ms := seq(n, _ => Identity(k));
    assert SameRows(ms);
    if n > 0 {
      TotalColsUniform(ms, k);
      OffsetIsProduct(n, k);
      forall i | 0 <= i < n
        ensures ColSlice(CatAll(ms), i * k, i * k + k) == Identity(k)
      {
        CatAllBlock(ms, k, i);
        OffsetIsProduct(i, k);
      }
    }
  }

  /**
   * A trunk whose column blocks all equal one matrix T₀ gives the outputs the ShareTrunk
   * strategy computes with the shared trunk T₀.
   */
  lemma RepeatedTrunkIsShared(k: nat, n: nat, b: Matrix, t: Matrix, t0: Matrix)
    requires forall i | 0 <= i < n :: ColSlice(t, i * k, i * k + k) == t0
    ensures Fuse(k, n, b, t) == ShareTrunk.Fuse(k, n, b, t0)
  {
    forall i | 0 <= i < n
      ensures Block(k, b, t, i) == ShareTrunk.Block(k, b, t0, i)
    {
      BlockSpec(k, b, t, i);
      ShareTrunk.BlockSpec(k, b, t0, i);
    }
    assert Blocks(k, n, b, t) == ShareTrunk.Blocks(k, n, b, t0);
  }

  /**
   * With the default trunk the strategy hands back the transposed branch blocks, as
   * ShareTrunk does with its identity trunk: it succeeds exactly when the branch has at
   * least n·K rows. (With no outputs there is no default trunk at all: `DefaultTrunkSpec`.)
   */
  lemma DefaultTrunkOutputs(k: nat, n: nat, b: Matrix, t: Matrix)
    requires DefaultTrunk(k, n) == Ok(t)
    ensures Fuse(k, n, b, t) == ShareTrunk.Fuse(k, n, b, Identity(k))
    ensures Fuse(k, n, b, t).Ok? <==> n * k <= b.rows
    ensures Fuse(k, n, b, t).Ok? ==> Fuse(k, n, b, t).value == ShareTrunk.TransposedBlocks(k, n, b)
  {
    DefaultTrunkSpec(k, n);
    RepeatedTrunkIsShared(k, n, b, t, Identity(k));
    ShareTrunk.IdentityTrunkOutputs(k, n, b);
  }

  /** Output i reads only block i of the trunk and of the branch. */
  lemma BlockLocal(k: nat, b: Matrix, b2: Matrix, t: Matrix, t2: Matrix, i: nat)
    requires ColSlice(t, i * k, i * k + k) == ColSlice(t2, i * k, i * k + k)
    requires RowSlice(b, i * k, i * k + k) == RowSlice(b2, i * k, i * k + k)
    ensures Block(k, b, t, i) == Block(k, b2, t2, i)
  {
    BlockSpec(k, b, t, i);
    BlockSpec(k, b2, t2, i);
  }

  /** With the default trunk, a zero branch block gives a zero output. */
  lemma ZeroBlockZeroOutput(k: nat, n: nat, b: Matrix, t: Matrix, i: nat)
    requires DefaultTrunk(k, n) == Ok(t) && n * k <= b.rows && i < n
    requires IsZero(RowSlice(b, i * k, i * k + k))
    ensures Fuse(k, n, b, t).Ok? && |Fuse(k, n, b, t).value| == n
    ensures IsZero(Fuse(k, n, b, t).value[i])
  {
    DefaultTrunkOutputs(k, n, b, t);
    var s := RowSlice(b, i * k, i * k + k);
    var v, w := Fuse(k, n, b, t).value, ShareTrunk.TransposedBlocks(k, n, b);
    assert v == w;
    assert w[i] == Transpose(s);
    ZeroTranspose(s);
  }

  /** The transpose of a zero matrix is zero. */
  lemma ZeroTranspose(m: Matrix)
    requires IsZero(m)
    ensures IsZero(Transpose(m))
  {
    TransposeCells(m);
  }
}
