/**
 * The POD training strategy: the trunk is a fixed tensor of precomputed POD basis
 * functions, the branch is trained, and the POD mean is added back to the fused
 * product. Loss and errors are those of the standard strategy
 * (`Evaluation.Loss`, `Evaluation.ComputeBatchErrors`).
 */
module PodTraining {
  import opened Common
  import opened Matrices
  import StandardTraining

  /** The kind of trunk component a model carries. */
  datatype TrunkKind = PodTrunk | TrainableTrunk | OtherTrunk

  /** The arguments a POD basis helper is built from. */
  datatype PodHelper = PodHelper(data: Option<Matrix>, varShare: Option<real>)

  /** `get_trunk_config`: a copy of the base configuration whose "type" is "data". */
  function DataConfig(base: StandardTraining.Config): (c: StandardTraining.Config)
    ensures "type" in c && c["type"] == Str("data")
    ensures c.Keys == base.Keys + {"type"}
    ensures forall key | key in base && key != "type" :: c[key] == base[key]
  {
    base["type" := Str("data")]
  }

  /**
   * The trunk is configured as data and the branch (`get_branch_config`, the standard
   * override) as trainable: the two overrides differ only in "type".
   */
  lemma PodConfigs(base: StandardTraining.Config)
    ensures DataConfig(base)["type"] != StandardTraining.TrainableConfig(base)["type"]
    ensures DataConfig(base).Keys == StandardTraining.TrainableConfig(base).Keys
    ensures forall key | key in base && key != "type" :: DataConfig(base)[key] == StandardTraining.TrainableConfig(base)[key]
  {
  }

  /** `prepare_training`: only a POD trunk is accepted. */
  function PrepareTraining(trunk: TrunkKind): (o: Outcome)
    ensures o.Pass? <==> trunk == PodTrunk
    ensures o.Fail? ==> o.error == TrunkNotPod
  {
    if trunk == PodTrunk then Pass else Fail(TrunkNotPod)
  }

  /** Row `i` of the flattened mean, `mean[i : i + 1]` (empty past the end). */
  function MeanRow(mean: Matrix, i: nat): Matrix {
    RowSlice(mean, i, i + 1)
  }

  /**
   * The mean added back to the fused product: with a single basis the same mean is added
   * to every output; otherwise output i gets row i of the flattened mean, for the model's n
   * outputs, and an output the product does not have is an index error.
   */
  function AddMean(basisConfig: string, n: nat, dot: seq<Matrix>, mean: Matrix): Result<seq<Matrix>> {
    if basisConfig == "single" then
      Collect(seq(|dot|, i requires 0 <= i < |dot| => Elementwise(dot[i], mean, Add)))
    else
      Collect(seq(n, i requires 0 <= i < n =>
        if i < |dot| then Elementwise(dot[i], MeanRow(mean, i), Add) else Err(IndexOutOfRange)))
  }

  /** With a single basis there is one output per product, each the product plus the mean. */
  lemma AddMeanSingle(dot: seq<Matrix>, mean: Matrix)
    ensures AddMean("single", 0, dot, mean).Ok? <==> forall i | 0 <= i < |dot| :: Elementwise(dot[i], mean, Add).Ok?
    ensures AddMean("single", 0, dot, mean).Ok? ==>
      && |AddMean("single", 0, dot, mean).value| == |dot|
      && forall i | 0 <= i < |dot| :: Elementwise(dot[i], mean, Add) == Ok(AddMean("single", 0, dot, mean).value[i])
  {
    var rs := seq(|dot|, i requires 0 <= i < |dot| => Elementwise(dot[i], mean, Add));
    CollectSpec(rs);
    assert forall i | 0 <= i < |dot| :: rs[i] == Elementwise(dot[i], mean, Add);
  }

  /** The basis count does not matter with a single basis. */
  lemma AddMeanSingleIgnoresN(n: nat, dot: seq<Matrix>, mean: Matrix)
    ensures AddMean("single", n, dot, mean) == AddMean("single", 0, dot, mean)
  {
  }

  /**
   * Otherwise there are exactly n outputs, output i being product i plus mean row i; the
   * outputs exist only when the product has at least n entries.
   */
  lemma AddMeanMultiple(basisConfig: string, n: nat, dot: seq<Matrix>, mean: Matrix)
    requires basisConfig != "single"
    ensures AddMean(basisConfig, n, dot, mean).Ok? <==>
      n <= |dot| && forall i | 0 <= i < n :: Elementwise(dot[i], MeanRow(mean, i), Add).Ok?
    ensures AddMean(basisConfig, n, dot, mean).Ok? ==>
      && |AddMean(basisConfig, n, dot, mean).value| == n
      && forall i | 0 <= i < n :: Elementwise(dot[i], MeanRow(mean, i), Add) == Ok(AddMean(basisConfig, n, dot, mean).value[i])
  {
    var rs := seq(n, i requires 0 <= i < n =>
      if i < |dot| then Elementwise(dot[i], MeanRow(mean, i), Add) else Err(IndexOutOfRange));
    CollectSpec(rs);
    if n > |dot| {
      assert rs[|dot|].Err?;
    } else {
      assert forall i | 0 <= i < n :: rs[i] == Elementwise(dot[i], MeanRow(mean, i), Add);
    }
  }

  /**
   * Adding one mean row broadcasts it over the rows of an output with as many columns:
   * entry (r, c) of the result is entry (r, c) of the output plus entry c of the row.
   */
  lemma AddRowBroadcast(d: Matrix, row: Matrix, r: nat, c: nat)
    requires row.rows == 1 && row.cols == d.cols && r < d.rows && c < d.cols
    ensures Elementwise(d, row, Add).Ok?
    ensures Elementwise(d, row, Add).value.rows == d.rows
    ensures Elementwise(d, row, Add).value.cells[r][c] == d.cells[r][c] + row.cells[0][c]
  {
    ElementwiseCells(d, row, Add, r, c);
  }

  /** `forward`: the fused product of the branch output and the fixed trunk, plus the mean. */
  function Forward(handling: (Matrix, Matrix) -> Result<seq<Matrix>>, basisConfig: string, n: nat,
                   branchNet: Matrix -> Matrix, xb: Matrix, podBasis: Matrix, mean: Matrix): Result<seq<Matrix>> {
    var dot :- handling(branchNet(xb), podBasis);
    AddMean(basisConfig, n, dot, mean)
  }

  /** The forward pass fails with the handling, and otherwise adds the mean to its product. */
  lemma ForwardSpec(handling: (Matrix, Matrix) -> Result<seq<Matrix>>, basisConfig: string, n: nat,
                    branchNet: Matrix -> Matrix, xb: Matrix, podBasis: Matrix, mean: Matrix)
    ensures handling(branchNet(xb), podBasis).Err? ==>
      Forward(handling, basisConfig, n, branchNet, xb, podBasis, mean) == Err(handling(branchNet(xb), podBasis).error)
    ensures handling(branchNet(xb), podBasis).Ok? ==>
      Forward(handling, basisConfig, n, branchNet, xb, podBasis, mean) == AddMean(basisConfig, n, handling(branchNet(xb), podBasis).value, mean)
  {
  }

  class PodTrainingStrategy {
    const inference: bool
    /** `self.pod_helper`, which exists only outside inference */
    var podHelper: Option<PodHelper>
    /** `self.pod_trunk` */
    var podTrunk: Option<Matrix>

    /** `__init__`: the POD helper is built from the data and variance share only when training. */
    constructor (inference: bool, data: Option<Matrix>, varShare: Option<real>, podTrunk: Option<Matrix>)
      ensures this.inference == inference
      ensures podHelper.Some? <==> !inference
      ensures podHelper.Some? ==> podHelper.value == PodHelper(data, varShare)
      ensures this.podTrunk == podTrunk
    {
      this.inference := inference;
      podHelper := if inference then None else Some(PodHelper(data, varShare));
      this.podTrunk := podTrunk;
    }

    /** `update_training_phase`: POD training has a single phase; nothing changes. */
    method UpdateTrainingPhase(phase: string)
      ensures unchanged(this)
    {
    }

    /** `prepare_for_phase`: nothing to do. */
    method PrepareForPhase()
      ensures unchanged(this)
    {
    }

    /** `after_epoch`: nothing to do. */
    method AfterEpoch(epoch: int)
      ensures unchanged(this)
    {
    }
  }
}
