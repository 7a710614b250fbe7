/**
 * The standard (single-phase) training strategy: both networks are trainable,
 * the forward pass is the output handling applied to the two network outputs,
 * and loss and errors are taken against the batch (`Evaluation.Loss`,
 * `Evaluation.ComputeBatchErrors`, which the POD strategy and the non-branch
 * phases of two-step training share).
 */
module StandardTraining {
  import opened Common
  import opened Matrices
  import ShareBranch

  /** A component configuration dictionary. */
  type Config = map<string, Value>

  /**
   * `get_trunk_config` and `get_branch_config`: a copy of the base configuration whose
   * "type" is "trainable"; the base itself is a value and stays as it was.
   */
  function TrainableConfig(base: Config): (c: Config)
    ensures "type" in c && c["type"] == Str("trainable")
    ensures c.Keys == base.Keys + {"type"}
    ensures forall key | key in base && key != "type" :: c[key] == base[key]
  {
    base["type" := Str("trainable")]
  }

  /** Overriding twice is overriding once. */
  lemma TrainableConfigIdempotent(base: Config)
    ensures TrainableConfig(TrainableConfig(base)) == TrainableConfig(base)
  {
  }

  /** One parameter tensor of a network; only its gradient flag matters here. */
  class Parameter {
    var requiresGrad: bool

    constructor (requiresGrad: bool)
      ensures this.requiresGrad == requiresGrad
    {
      this.requiresGrad := requiresGrad;
    }
  }

  /** `prepare_training`: every trunk and then every branch parameter is made trainable. */
  method PrepareTraining(trunkParams: seq<Parameter>, branchParams: seq<Parameter>)
    modifies set p | p in trunkParams + branchParams
    ensures forall j | 0 <= j < |trunkParams| :: trunkParams[j].requiresGrad
    ensures forall j | 0 <= j < |branchParams| :: branchParams[j].requiresGrad
  {
    for i := 0 to |trunkParams|
      invariant forall j | 0 <= j < i :: trunkParams[j].requiresGrad
    {
      trunkParams[i].requiresGrad := true;
    }
    for i := 0 to |branchParams|
      invariant forall j | 0 <= j < |trunkParams| :: trunkParams[j].requiresGrad
      invariant forall j | 0 <= j < i :: branchParams[j].requiresGrad
    {
      branchParams[i].requiresGrad := true;
    }
  }

  /**
   * `forward`: the output handling of `model` applied to (branch(xb), trunk(xt)), in that order.
   * The source reaches it as `model.output_strategy`, which is taken here to be the same object
   * as `model.output_handling`.
   */
  function Forward(handling: (Matrix, Matrix) -> Result<seq<Matrix>>, branchNet: Matrix -> Matrix,
                   trunkNet: Matrix -> Matrix, xb: Matrix, xt: Matrix): Result<seq<Matrix>> {
    handling(branchNet(xb), trunkNet(xt))
  }

  /**
   * With the ShareBranch handling and a trunk of the configured K·n width, the forward pass
   * succeeds exactly when the branch has K columns (or there are no outputs), and its n
   * outputs are the ShareBranch blocks of (branch(xb), trunk(xt)), in order.
   */
  lemma ForwardShareBranch(k: nat, n: nat, branchNet: Matrix -> Matrix, trunkNet: Matrix -> Matrix,
                           xb: Matrix, xt: Matrix)
    requires trunkNet(xt).cols == k * n
    ensures var r := Forward((b, t) => ShareBranch.Fuse(k, n, b, t), branchNet, trunkNet, xb, xt);
      && (r.Ok? <==> n == 0 || branchNet(xb).cols == k)
      && (r.Ok? ==> |r.value| == n && forall i | 0 <= i < n ::
            ShareBranch.Block(k, branchNet(xb), trunkNet(xt), i) == Ok(r.value[i]))
  {
    var b, t := branchNet(xb), trunkNet(xt);
    ShareBranch.ConfiguredShapes(k, n, b, t);
    ShareBranch.FuseSpec(k, n, b, t);
  }
}
