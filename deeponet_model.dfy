/**
 * The parts of the DeepONet composition root that the output strategies of the
 * first code generation read and write: the basis count `n_basis_functions`
 * (which a strategy may overwrite to match a precomputed POD basis), the number
 * of outputs, and the shape of the optional POD basis. The layer-size list of
 * a network configuration is an object of its own, because `dict.copy()` is
 * shallow and the strategies append to the list the caller passed in.
 */
module DeepONetModel {
  import opened Common
  import opened Matrices

  /** The sizes an output strategy's `configure_networks` settles on. */
  datatype Sizes = Sizes(basisCount: nat, trunkOutputSize: nat, nTrunkOutputs: nat,
                         branchOutputSize: nat, nBranchOutputs: nat)

  /** The training strategy a model is paired with; only its class matters to the output handlings. */
  datatype TrainingKind = StandardTraining | TwoStepTraining | PodTraining

  class DeepONet {
    /** `model.n_basis_functions`, the K of the algebra */
    var nBasisFunctions: nat
    /** `model.n_outputs` */
    var nOutputs: nat
    /** `getattr(model, 'pod_basis', None)`, only its shape matters to the strategies */
    var podBasisShape: Option<seq<nat>>

    constructor (k: nat, n: nat, podShape: Option<seq<nat>>)
      ensures nBasisFunctions == k && nOutputs == n && podBasisShape == podShape
    {
      nBasisFunctions := k;
      nOutputs := n;
      podBasisShape := podShape;
    }
  }

  /** `branch_out` of a first-generation `forward`: an explicit branch matrix wins over the branch network. */
  function BranchOutput(matrixBranch: Option<Matrix>, branchNet: Matrix -> Matrix, dataBranch: Matrix): Matrix {
    if matrixBranch.Some? then matrixBranch.value else branchNet(dataBranch)
  }

  /** The `layers` list of a branch or trunk configuration. */
  class LayerList {
    var sizes: seq<nat>

    constructor (initial: seq<nat>)
      ensures sizes == initial
    {
      sizes := initial;
    }

    /** `layers.append(size)` */
    method Append(size: nat)
      modifies this
      ensures sizes == old(sizes) + [size]
    {
      sizes := sizes + [size];
    }
  }
}
