/**
 * ShareTrunk output strategy (first generation): one trunk basis of K functions
 * is shared by all n outputs. The branch produces K·n rows, sliced into n
 * contiguous blocks of K rows; output i is (T · B[iK:(i+1)K, :])ᵀ. When neither
 * a trunk matrix nor trunk data is given, the trunk is the K×K identity.
 */
module ShareTrunk {
  import opened Common
  import opened Matrices
  import opened DeepONetModel

  /** `get_basis_config()['type']` */
  const BasisType: string := "single"

  /** The basis count after looking at the optional POD basis shape `(1, n_features, n_modes)`. */
  function BasisCount(k0: nat, podShape: Option<seq<nat>>): (r: Result<nat>)
    ensures podShape.None? ==> r == Ok(k0)
    ensures podShape.Some? && |podShape.value| > 0 && podShape.value[0] != 1 ==> r == Err(PodBasisNotSingle)
    ensures podShape.Some? && |podShape.value| >= 3 && podShape.value[0] == 1 ==> r == Ok(podShape.value[2])
    ensures podShape.Some? && (|podShape.value| == 0 || (podShape.value[0] == 1 && |podShape.value| < 3)) ==>
              r == Err(IndexOutOfRange)
  {
    match podShape
    case None => Ok(k0)
    case Some(shape) =>
      if |shape| == 0 then Err(IndexOutOfRange)
      else if shape[0] != 1 then Err(PodBasisNotSingle)
      else if |shape| < 3 then Err(IndexOutOfRange)
      else Ok(shape[2])
  }

  /** The size rules of `configure_networks`, including its integer divisions by K. */
  function ConfigureSizes(k0: nat, n: nat, podShape: Option<seq<nat>>): (r: Result<Sizes>)
    ensures r.Ok? <==> BasisCount(k0, podShape).Ok? && BasisCount(k0, podShape).value > 0
    ensures BasisCount(k0, podShape).Err? ==> r == Err(BasisCount(k0, podShape).error)
    ensures r.Ok? ==> r.value.basisCount == BasisCount(k0, podShape).value
    ensures r.Ok? ==> r.value.trunkOutputSize == r.value.basisCount && r.value.nTrunkOutputs == 1
    ensures r.Ok? ==> r.value.branchOutputSize == r.value.basisCount * n && r.value.nBranchOutputs == n
  {
    var k :- BasisCount(k0, podShape);
    if k == 0 then Err(DivisionByZero)
    else
      MulDiv(k, 1);
      MulDiv(k, n);
      Ok(Sizes(k, k, k / k, k * n, (k * n) / k))
  }

  /** `trunk_out`: the K×K identity when neither a trunk matrix nor trunk data is given. */
  function ResolveTrunk(k: nat, matrixTrunk: Option<Matrix>, trunkNet: Matrix -> Matrix,
                        dataTrunk: Option<Matrix>): Matrix {
    if matrixTrunk.None? && dataTrunk.None? then Identity(k)
    else if matrixTrunk.Some? then matrixTrunk.value
    else trunkNet(dataTrunk.value)
  }

  /** Output `i`: the trunk times branch block `i`, transposed. */
  function Block(k: nat, b: Matrix, t: Matrix, i: nat): Result<Matrix> {
    var bs := RowSlice(b, Offset(i, k), Offset(i, k) + k);
    if t.cols == bs.rows then Ok(Transpose(MatMul(t, bs))) else Err(ShapeMismatch)
  }

  /** The n block products `forward` computes, in order, each of which may fail. */
  function Blocks(k: nat, n: nat, b: Matrix, t: Matrix): seq<Result<Matrix>> {
    seq(n, i requires 0 <= i < n => Block(k, b, t, i))
  }

  /** The tuple `forward` returns, or the matmul error its loop raises first. */
  function Fuse(k: nat, n: nat, b: Matrix, t: Matrix): Result<seq<Matrix>> {
    Collect(Blocks(k, n, b, t))
  }

  class ShareTrunkStrategy {
    var trunkOutputSize: nat
    var nTrunkOutputs: nat
    var branchOutputSize: nat
    var nBranchOutputs: nat

    constructor ()
      ensures trunkOutputSize == 0 && nTrunkOutputs == 0 && branchOutputSize == 0 && nBranchOutputs == 0
    {
      trunkOutputSize, nTrunkOutputs, branchOutputSize, nBranchOutputs := 0, 0, 0, 0;
    }

    /**
     * `configure_networks`: fixes the output sizes, writes the POD basis count back to the
     * model, and appends the output sizes to the caller's layer lists. Returns the layer
     * lists the branch and trunk networks are built from.
     * A zero basis count raises after the basis count and the trunk output size are
     * written; an error found in the POD basis raises before anything is written.
     */
    method ConfigureNetworks(model: DeepONet, branchLayers: LayerList, trunkLayers: LayerList)
      returns (r: Result<(seq<nat>, seq<nat>)>)
      modifies this, model, branchLayers, trunkLayers
      ensures var spec := ConfigureSizes(old(model.nBasisFunctions), old(model.nOutputs), old(model.podBasisShape));
        && (r.Ok? <==> spec.Ok?)
        && (r.Err? ==> r.error == spec.error
                       && branchLayers.sizes == old(branchLayers.sizes) && trunkLayers.sizes == old(trunkLayers.sizes))
        && (r.Ok? ==>
              && model.nBasisFunctions == spec.value.basisCount
              && trunkOutputSize == spec.value.trunkOutputSize && nTrunkOutputs == spec.value.nTrunkOutputs
              && branchOutputSize == spec.value.branchOutputSize && nBranchOutputs == spec.value.nBranchOutputs
              && (branchLayers != trunkLayers ==>
                    && trunkLayers.sizes == old(trunkLayers.sizes) + [trunkOutputSize]
                    && branchLayers.sizes == old(branchLayers.sizes) + [branchOutputSize]
                    && r.value == (branchLayers.sizes, trunkLayers.sizes))
              && (branchLayers == trunkLayers ==>
                    && trunkLayers.sizes == old(trunkLayers.sizes) + [trunkOutputSize, branchOutputSize]
                    && r.value == (trunkLayers.sizes, old(trunkLayers.sizes) + [trunkOutputSize])))
      ensures model.nOutputs == old(model.nOutputs) && model.podBasisShape == old(model.podBasisShape)
      ensures BasisCount(old(model.nBasisFunctions), old(model.podBasisShape)).Err? ==> unchanged(this, model)
      ensures BasisCount(old(model.nBasisFunctions), old(model.podBasisShape)) == Ok(0) ==>
        && model.nBasisFunctions == 0 && trunkOutputSize == 0
        && nTrunkOutputs == old(nTrunkOutputs) && branchOutputSize == old(branchOutputSize)
        && nBranchOutputs == old(nBranchOutputs)
    {
      var k := model.nBasisFunctions;
      if model.podBasisShape.Some? {
        var shape := model.podBasisShape.value;
        if |shape| == 0 {
          return Err(IndexOutOfRange);
        }
        if shape[0] != 1 {
          return Err(PodBasisNotSingle);
        }
        if |shape| < 3 {
          return Err(IndexOutOfRange);
        }
        k := shape[2];
        model.nBasisFunctions := k;
      }
      trunkOutputSize := k;
      if model.nBasisFunctions == 0 {
        return Err(DivisionByZero);
      }
      nTrunkOutputs := trunkOutputSize / model.nBasisFunctions;
      trunkLayers.Append(trunkOutputSize);
      var trunkNetwork := trunkLayers.sizes;

      branchOutputSize := model.nBasisFunctions * model.nOutputs;
      nBranchOutputs := branchOutputSize / model.nBasisFunctions;
      branchLayers.Append(branchOutputSize);
      var branchNetwork := branchLayers.sizes;
      return Ok((branchNetwork, trunkNetwork));
    }

    /** `forward`: one block product per output, collected in order. */
    method Forward(model: DeepONet, branchNet: Matrix -> Matrix, trunkNet: Matrix -> Matrix,
                   dataBranch: Matrix, dataTrunk: Option<Matrix>,
                   matrixBranch: Option<Matrix>, matrixTrunk: Option<Matrix>)
      returns (r: Result<seq<Matrix>>)
      ensures r == Fuse(model.nBasisFunctions, model.nOutputs,
                        BranchOutput(matrixBranch, branchNet, dataBranch),
                        ResolveTrunk(model.nBasisFunctions, matrixTrunk, trunkNet, dataTrunk))
    {
      var k, n := model.nBasisFunctions, model.nOutputs;
      var b := BranchOutput(matrixBranch, branchNet, dataBranch);
      var t := ResolveTrunk(k, matrixTrunk, trunkNet, dataTrunk);
      ghost var blocks := Blocks(k, n, b, t);
      var outputs: seq<Matrix> := [];
      for i := 0 to n
        invariant Collect(blocks[..i]) == Ok(outputs)
      {
        var output := Block(k, b, t, i);
        CollectStep(blocks, i, outputs);
        if output.Err? {
          CollectFailsOnward(blocks, i + 1);
          return Err(output.error);
        }
        outputs := outputs + [output.value];
      }
      assert blocks[..n] == blocks;
      return Ok(outputs);
    }
  }

  lemma BlockSpec(k: nat, b: Matrix, t: Matrix, i: nat)
    ensures Block(k, b, t, i).Ok? <==> t.cols == RowSlice(b, i * k, i * k + k).rows
    ensures Block(k, b, t, i).Ok? ==>
      && Block(k, b, t, i).value == Transpose(MatMul(t, RowSlice(b, i * k, i * k + k)))
      && Block(k, b, t, i).value.rows == b.cols && Block(k, b, t, i).value.cols == t.rows
  {
    OffsetIsProduct(i, k);
  }

  /** The fused tuple exists when every block does; it then has n entries, entry i being block i. */
  lemma FuseSpec(k: nat, n: nat, b: Matrix, t: Matrix)
    ensures Fuse(k, n, b, t).Ok? <==> forall i | 0 <= i < n :: Block(k, b, t, i).Ok?
    ensures Fuse(k, n, b, t).Ok? ==>
      && |Fuse(k, n, b, t).value| == n
      && forall i | 0 <= i < n :: Block(k, b, t, i) == Ok(Fuse(k, n, b, t).value[i])
  {
    var blocks := Blocks(k, n, b, t);
    CollectSpec(blocks);
    assert forall i | 0 <= i < n :: blocks[i] == Block(k, b, t, i);
  }

  /** Branch blocks iK..(i+1)K, each transposed: what the strategy returns with the identity trunk. */
  function TransposedBlocks(k: nat, n: nat, b: Matrix): (s: seq<Matrix>)
    ensures |s| == n
  {
    seq(n, i requires 0 <= i < n => Transpose(RowSlice(b, i * k, i * k + k)))
  }

  /** Slice i of B has K rows exactly when B has at least (i+1)·K rows (or K = 0). */
  lemma SliceRows(b: Matrix, k: nat, i: nat)
    ensures RowSlice(b, i * k, i * k + k).rows == k <==> i * k + k <= b.rows
  {
    MulMono(i, i + 1, k);
    var s := RowSlice(b, i * k, i * k + k);
    if i * k + k > b.rows {
      assert s.rows == b.rows - Clamp(i * k, b.rows);
      assert s.rows < k;
    }
  }

  /** Block i of n blocks of k rows ends within the first n·k rows; the last one ends exactly there. */
  lemma BlockWithin(i: nat, n: nat, k: nat)
    requires i < n
    ensures i * k + k <= n * k
    ensures i == n - 1 ==> i * k + k == n * k
  {
    MulMono(i, i + 1, k);
    MulMono(i + 1, n, k);
  }

  /** With the identity trunk, a block that lies inside the branch is that slice of the branch, transposed. */
  lemma IdentityBlock(k: nat, b: Matrix, i: nat)
    requires i * k + k <= b.rows
    ensures Block(k, b, Identity(k), i) == Ok(Transpose(RowSlice(b, i * k, i * k + k)))
  {
    SliceRows(b, k, i);
    BlockSpec(k, b, Identity(k), i);
    IdentityMatMul(RowSlice(b, i * k, i * k + k));
  }

  /** When every block succeeds with the matching entry of w, fusion returns w. */
  lemma FuseAllOk(k: nat, n: nat, b: Matrix, t: Matrix, w: seq<Matrix>)
    requires |w| == n && forall i | 0 <= i < n :: Block(k, b, t, i) == Ok(w[i])
    ensures Fuse(k, n, b, t) == Ok(w)
  {
    FuseSpec(k, n, b, t);
    var v := Fuse(k, n, b, t).value;
    forall i | 0 <= i < n
      ensures v[i] == w[i]
    {
      assert Block(k, b, t, i) == Ok(v[i]);
    }
    assert v == w;
  }

  /** A branch with at least n·K rows: every output is the transposed branch block. */
  lemma IdentityTrunkFits(k: nat, n: nat, b: Matrix)
    requires n * k <= b.rows
    ensures Fuse(k, n, b, Identity(k)).Ok?
    ensures |Fuse(k, n, b, Identity(k)).value| == n
    ensures Fuse(k, n, b, Identity(k)).value == TransposedBlocks(k, n, b)
  {
    var w := TransposedBlocks(k, n, b);
    forall i | 0 <= i < n
      ensures Block(k, b, Identity(k), i) == Ok(w[i])
    {
      BlockWithin(i, n, k);
      IdentityBlock(k, b, i);
    }
    FuseAllOk(k, n, b, Identity(k), w);
  }

  /** A branch with fewer than n·K rows: the last block is short and the product fails. */
  lemma IdentityTrunkShort(k: nat, n: nat, b: Matrix)
    requires n > 0 && n * k > b.rows
    ensures Fuse(k, n, b, Identity(k)).Err?
  {
    BlockWithin(n - 1, n, k);
    SliceRows(b, k, n - 1);
    BlockSpec(k, b, Identity(k), n - 1);
    FuseSpec(k, n, b, Identity(k));
  }

  /**
   * With the identity trunk the strategy hands back the transposed branch blocks, and it
   * succeeds exactly when the branch has at least n·K rows.
   */
  lemma IdentityTrunkOutputs(k: nat, n: nat, b: Matrix)
    ensures Fuse(k, n, b, Identity(k)).Ok? <==> n == 0 || n * k <= b.rows
    ensures Fuse(k, n, b, Identity(k)).Ok? ==> Fuse(k, n, b, Identity(k)).value == TransposedBlocks(k, n, b)
  {
    if n == 0 || n * k <= b.rows {
      if n == 0 {
        assert n * k == 0;
      }
      IdentityTrunkFits(k, n, b);
    } else {
      IdentityTrunkShort(k, n, b);
    }
  }
}
