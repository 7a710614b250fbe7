# DeepONet output strategies, training strategies and helpers — a Dafny model

This project models the tensor logic of a DeepONet code base: the neural operator that
predicts the real and imaginary displacement fields of an elastic problem from a branch
network (one row of coefficients per input sample) and a trunk network (one row of basis
values per coordinate point).

It covers:

- **Vanilla forward pass.** The branch output is split into real and imaginary halves, and
  each half is multiplied with the transposed trunk output.
- **Output strategies.** ShareTrunk, SplitNetworks and ShareBranch. Each fixes the network
  output sizes and fuses the branch and trunk outputs block by block into one prediction per
  output.
- **Training strategies.** Standard, POD and the two-step helper:
  - configuration overrides;
  - the phase-dependent branch/trunk outputs;
  - loss targets;
  - the relative-error dictionary;
  - the merge of the decomposition matrix R.
- **Preprocessing.**
  - the four scalers and their round trips;
  - the running min/max over a loader;
  - the meshgrid ↔ trunk-coordinates pair;
  - the POD mode count.
- **Configuration processing.** The model name, the relocated data file, the run folders and
  the required-key errors.
- **Plot helpers.** Epoch alignment, output reshaping onto a coordinate grid, and parameter
  formatting.

**Tensors** are `Matrices.Matrix`, a rectangular matrix of reals. A shape that keeps its column
count when it has no rows (K = 0, n = 0) is still well formed.

**Slicing** follows Python's clamped slices.

**Errors.** Each exception the source raises is a constructor of `Common.Error`, and every
fallible operation returns a `Result`. A torch shape error is `ShapeMismatch`, and a missing
configuration key is `MissingConfigKey(key)`.

**Parameters.** Neural networks, loss functions, vector norms, random draws, the date string,
and the number printers are all parameters.

**Classes and methods.** Where the source updates objects in place, the model is a class with
methods carrying `modifies` clauses. These objects are:

- the DeepONet model's `n_basis_functions`;
- the `layers` lists of the network configurations;
- `self.A` of the two-step helper;
- the strategies' size fields;
- the configuration dictionary.

**Loops.** Source loops are methods with loop invariants: `forward` of each strategy, the error
loop, `get_minmax_norm_params`, `align_epochs` and `prepare_training`.

**Methods and their specifications.** Some methods are proved equal to a function of their
inputs and old state, and the properties are then lemmas about that function:

- the `forward` block loops (equal to `Fuse`);
- `FillErrors` (equal to `Errors`);
- `GetMinMaxNormParams` (equal to `MinMaxSpec`);
- `AlignEpochs` (equal to `AlignPhase`, phase by phase);
- `BuildModelName`, `RewritePaths` and `ProcessConfig` (equal to `NameOf`, `PathStage` and `Process`).

The other methods state their effect directly in their `ensures`: `StandardTraining.PrepareTraining`,
`TwoStep.TwoStepHelper.SetAMatrix`, `DeepONetModel.LayerList.Append` and both `ConfigureNetworks`.

## Model

| member | source | states |
|---|---|---|
| Common.CollectSpec | modules/deeponet/output_strategies/share_trunk.py:96-103 | Collecting a list of fallible steps succeeds iff every step succeeds; the result then has one value per step, in order. |
| Common.CollectFirstError | modules/deeponet/output_strategies/share_trunk.py:98-101 | The first failing step's error is the error of the whole loop. |
| Common.CollectStep | modules/deeponet/output_strategies/share_trunk.py:98-101 | One loop iteration either appends the step's value or turns the result into that step's error. |
| Common.CollectFailsOnward | modules/deeponet/output_strategies/share_trunk.py:98-101 | Once a prefix of the loop has failed, the whole loop fails with the same error. |
| Matrices.Ext | modules/vanilla_deeponet.py:17-18 | Two matrices of the same shape and the same entries are equal. |
| Matrices.Clamp | modules/vanilla_deeponet.py:14-15 | A slice bound is cut to the dimension and is unchanged when already inside it. |
| Matrices.RowSlice | modules/deeponet/output_strategies/share_trunk.py:99 | `m[lo:hi, :]` keeps the columns and has the clamped row count (none when hi < lo). |
| Matrices.RowSliceCells | modules/deeponet/output_strategies/share_trunk.py:99 | An in-range row slice is `hi - lo` rows long, and row k is row `lo + k` of the matrix. |
| Matrices.ColSlice | modules/vanilla_deeponet.py:14-15 | `m[:, lo:hi]` keeps the rows and has the clamped column count (none when hi < lo). |
| Matrices.ColSliceCells | modules/vanilla_deeponet.py:14-15 | An in-range column slice has entry (i, k) equal to entry (i, lo + k) of the matrix. |
| Matrices.Transpose | modules/vanilla_deeponet.py:17 | The transpose swaps the row and column counts. |
| Matrices.TransposeCells | modules/vanilla_deeponet.py:17 | The transpose has entry (j, i) equal to entry (i, j) of the matrix. |
| Matrices.TransposeTwice | modules/vanilla_deeponet.py:17 | Transposing twice gives back the matrix. |
| Matrices.DotComm | modules/vanilla_deeponet.py:17 | The dot product is symmetric. |
| Matrices.Column | modules/vanilla_deeponet.py:17 | Column j has one entry per row, namely the row's entry j. |
| Matrices.MatMul | modules/vanilla_deeponet.py:17 | `torch.matmul` of an (r × m) matrix and an (m × c) matrix is r × c. |
| Matrices.MatMulCells | modules/vanilla_deeponet.py:17 | Entry (i, j) of the product is row i dotted with column j. |
| Matrices.Identity | modules/deeponet/output_strategies/share_trunk.py:85-88 | `torch.eye(K)` is K × K. |
| Matrices.Zeros | src/modules/deeponet/training_strategies/standard_training.py:44 | The zero matrix has the given shape and only zero entries. |
| Matrices.DotUnit | modules/deeponet/output_strategies/share_trunk.py:85-88 | A unit vector dotted with v picks entry j of v. |
| Matrices.DotZero | modules/deeponet/output_strategies/split_networks.py:70-74 | The zero vector dotted with anything is zero. |
| Matrices.IdentityMatMul | modules/deeponet/output_strategies/share_trunk.py:85-88 | The identity times m is m. |
| Matrices.JoinedRow | src/modules/deeponet/training_strategies/helpers/two_step_helper.py:90 | Row r of matrices put side by side is as long as their total column count. |
| Matrices.CatAll | src/modules/deeponet/training_strategies/helpers/two_step_helper.py:90 | `torch.cat(dim=1)` of equal-height matrices has their height and their total width. |
| Matrices.Cat | src/modules/deeponet/training_strategies/helpers/two_step_helper.py:90 | Concatenation succeeds iff there is at least one matrix and all have the same number of rows. |
| Matrices.TotalColsUniform | modules/deeponet/output_strategies/split_networks.py:61-62 | n matrices of width K concatenate to width n·K. |
| Matrices.JoinedRowBlock | modules/deeponet/output_strategies/split_networks.py:61-62 | Block i of a joined row is row r of the i-th matrix. |
| Matrices.SliceAppendLeft | modules/deeponet/output_strategies/split_networks.py:61-62 | A slice inside the left part of a concatenated sequence is a slice of that part. |
| Matrices.SliceAppendRight | modules/deeponet/output_strategies/split_networks.py:61-62 | The tail slice of a concatenated sequence is its right part. |
| Matrices.CatAllBlock | modules/deeponet/output_strategies/split_networks.py:61-62 | Column block i of the concatenation is the i-th matrix. |
| Matrices.CatAllBlockAt | src/modules/deeponet/training_strategies/helpers/two_step_helper.py:89-90 | Column block `iK:(i+1)K` of the concatenation is the i-th matrix. |
| Matrices.OffsetMono | modules/deeponet/output_strategies/share_trunk.py:99 | Block offsets grow with the block index. |
| Matrices.OffsetIsProduct | modules/deeponet/output_strategies/share_trunk.py:99 | The offset of block i is `i * K`. |
| Matrices.BroadcastDim | src/modules/deeponet/training_strategies/pod_training.py:48-50 | Two dimensions broadcast iff they are equal or one of them is 1; the result is the one that is not 1. |
| Matrices.Elementwise | src/modules/deeponet/training_strategies/pod_training.py:48-50 | An element-wise operation succeeds iff both dimensions broadcast, and then has the broadcast shape. |
| Matrices.ElementwiseCells | src/modules/deeponet/training_strategies/standard_training.py:44 | Each entry is the operation on the broadcast entries of the two operands. |
| Matrices.SubSelf | src/modules/deeponet/training_strategies/standard_training.py:44 | `t - t` is the zero matrix of t's shape. |
| DeepONetModel.DeepONet.constructor | modules/deeponet/output_strategies/share_trunk.py:39-40 | The model holds its basis count, output count and optional POD basis shape. |
| DeepONetModel.LayerList.constructor | modules/deeponet/output_strategies/share_trunk.py:52-53 | A layer list starts with the given sizes. |
| DeepONetModel.LayerList.Append | modules/deeponet/output_strategies/share_trunk.py:53 | `layers.append(size)` adds the size at the end and keeps the rest. |
| DeepONetModel.BranchOutput | modules/deeponet/output_strategies/share_trunk.py:79-83 | The branch output of a first-generation `forward`: the branch matrix when one is given, otherwise the branch network applied to the branch data. |
| VanillaDeepONet.CombineShape | modules/vanilla_deeponet.py:13-20 | The forward pass succeeds iff the branch has twice as many outputs as the trunk; both outputs are then batch × points. |
| VanillaDeepONet.CombineCell | modules/vanilla_deeponet.py:13-18 | Real entry (r, p) is the first K coefficients of sample r dotted with basis row p; imaginary entry (r, p) uses the last K. |
| VanillaDeepONet.CombineSpec | modules/vanilla_deeponet.py:10-20 | The success condition and shapes of the forward pass, and every real and imaginary entry. |
| VanillaDeepONet.Combine | modules/vanilla_deeponet.py:13-20 | With K the trunk width, the first K branch columns and the remaining ones, each multiplied with the transposed trunk; ShapeMismatch when a half is not K columns wide. |
| VanillaDeepONet.Forward | modules/vanilla_deeponet.py:10-20 | Combine of the branch network on xb and the trunk network on xt. |
| ShareTrunk.BasisCount | modules/deeponet/output_strategies/share_trunk.py:39-48 | Without a POD basis K is the model's. A POD basis whose first dimension is not 1 is rejected, and otherwise K is its third dimension. A basis of too low rank is an index error. |
| ShareTrunk.ConfigureSizes | modules/deeponet/output_strategies/share_trunk.py:50-58 | Configuration succeeds iff K is found and non-zero (the `//` by K). Then the trunk has K outputs in 1 block and the branch has K·n outputs in n blocks. |
| ShareTrunk.ShareTrunkStrategy.constructor | modules/deeponet/output_strategies/share_trunk.py:14-15 | A fresh strategy has no sizes yet. |
| ShareTrunk.ShareTrunkStrategy.ConfigureNetworks | modules/deeponet/output_strategies/share_trunk.py:39-74 | The new model K, the four size fields, and the appended layer sizes agree with ConfigureSizes. A shared layer list receives both appends. On failure the lists are untouched. |
| ShareTrunk.ShareTrunkStrategy.Forward | modules/deeponet/output_strategies/share_trunk.py:76-103 | The loop returns exactly Fuse: block i is `(trunk · branch[iK:(i+1)K]).T`. Without trunk data or a trunk matrix, the trunk is the identity. |
| ShareTrunk.ResolveTrunk | modules/deeponet/output_strategies/share_trunk.py:85-94 | The K×K identity when neither a trunk matrix nor trunk data is given; otherwise the trunk matrix if given, else the trunk network on the data. |
| ShareTrunk.Block | modules/deeponet/output_strategies/share_trunk.py:99-100 | Output i: the trunk times branch rows iK to (i+1)K, transposed; ShapeMismatch when the trunk width differs from that block's row count. |
| ShareTrunk.Fuse | modules/deeponet/output_strategies/share_trunk.py:96-103 | The n block outputs collected in order, or the error of the first block that fails. |
| ShareTrunk.BlockSpec | modules/deeponet/output_strategies/share_trunk.py:99-100 | Block i succeeds iff the trunk width equals the slice height, and is then (trunk · branch rows iK:(i+1)K) transposed, of shape branch-width × trunk-rows. |
| ShareTrunk.FuseSpec | modules/deeponet/output_strategies/share_trunk.py:96-103 | Fusion succeeds iff every block does, and then returns the n blocks in order. |
| ShareTrunk.TransposedBlocks | modules/deeponet/output_strategies/share_trunk.py:99 | There is one transposed branch block per output. |
| ShareTrunk.SliceRows | modules/deeponet/output_strategies/share_trunk.py:99 | A row block is full height iff it lies inside the branch output. |
| ShareTrunk.BlockWithin | modules/deeponet/output_strategies/share_trunk.py:98-99 | Every block of the n blocks ends within n·K. |
| ShareTrunk.IdentityBlock | modules/deeponet/output_strategies/share_trunk.py:85-100 | With the identity trunk, block i is the transposed branch block i. |
| ShareTrunk.IdentityTrunkFits | modules/deeponet/output_strategies/share_trunk.py:85-103 | With the identity trunk and enough branch rows, fusion returns the transposed branch blocks. |
| ShareTrunk.IdentityTrunkShort | modules/deeponet/output_strategies/share_trunk.py:85-103 | With the identity trunk and too few branch rows, fusion fails. |
| ShareTrunk.IdentityTrunkOutputs | modules/deeponet/output_strategies/share_trunk.py:85-103 | The identity-trunk forward succeeds iff n = 0 or n·K fits, and then returns the transposed blocks. |
| SplitNetworks.BasisCount | modules/deeponet/output_strategies/split_networks.py:17-22 | Without a POD basis K is the model's. With one, K is the floor of its last dimension over n: a zero n divides by zero and a rank-0 basis is an index error. |
| SplitNetworks.ConfigureSizes | modules/deeponet/output_strategies/split_networks.py:24-32 | Configuration succeeds iff K is found and non-zero. Trunk and branch each have K·n outputs in n blocks, and K = 0 divides by zero. |
| SplitNetworks.SplitNetworksStrategy.constructor | modules/deeponet/output_strategies/split_networks.py:8-9 | A fresh strategy has no sizes yet. |
| SplitNetworks.SplitNetworksStrategy.ConfigureNetworks | modules/deeponet/output_strategies/split_networks.py:16-48 | The new model K, the size fields and the appended layer sizes agree with ConfigureSizes, including for a shared layer list. |
| SplitNetworks.SplitNetworksStrategy.Forward | modules/deeponet/output_strategies/split_networks.py:50-76 | The forward pass is the default-trunk failure or exactly Fuse of the resolved branch and trunk. |
| SplitNetworks.DefaultTrunk | modules/deeponet/output_strategies/split_networks.py:58-62 | n copies of the K×K identity concatenated by columns; the empty tuple of n = 0 is refused by torch.cat. |
| SplitNetworks.TrunkOutput | modules/deeponet/output_strategies/split_networks.py:58-67 | The default trunk when neither a trunk matrix nor trunk data is given; otherwise the trunk matrix if given, else the trunk network on the data. |
| SplitNetworks.Block | modules/deeponet/output_strategies/split_networks.py:71-73 | Output i: trunk columns iK to (i+1)K times branch rows iK to (i+1)K, transposed; ShapeMismatch when the two slices do not fit. |
| SplitNetworks.Fuse | modules/deeponet/output_strategies/split_networks.py:68-76 | The n block outputs collected in order, or the error of the first block that fails. |
| SplitNetworks.FuseBlocks | modules/deeponet/output_strategies/split_networks.py:68-76 | The loop returns exactly Fuse. |
| SplitNetworks.BlockSpec | modules/deeponet/output_strategies/split_networks.py:71-73 | Block i succeeds iff the trunk column block is as wide as the branch row block is high, and is then their product transposed. |
| SplitNetworks.FuseSpec | modules/deeponet/output_strategies/split_networks.py:68-76 | Fusion succeeds iff every block does, and then returns the n blocks in order. |
| SplitNetworks.DefaultTrunkSpec | modules/deeponet/output_strategies/split_networks.py:58-62 | The default trunk exists iff n > 0. It is K × n·K, and every column block is the identity. |
| SplitNetworks.RepeatedTrunkIsShared | modules/deeponet/output_strategies/split_networks.py:70-74 | A trunk whose column blocks are all t0 gives the ShareTrunk result with trunk t0. |
| SplitNetworks.DefaultTrunkOutputs | modules/deeponet/output_strategies/split_networks.py:58-76 | With the default trunk, result and success condition equal those of ShareTrunk with the identity: the transposed branch blocks. |
| SplitNetworks.BlockLocal | modules/deeponet/output_strategies/split_networks.py:71-73 | Output i depends only on trunk column block i and branch row block i. |
| SplitNetworks.ZeroBlockZeroOutput | modules/deeponet/output_strategies/split_networks.py:58-76 | With the default trunk, a zero branch block gives a zero output. |
| ShareBranch.ConfigureComponents | src/modules/deeponet/output_handling/share_branch.py:20-35 | Two-step training is refused (IncompatibleStrategies) and nothing else is. The branch has K outputs and the trunk K·n, so that trunk/branch = n. |
| ShareBranch.Forward | src/modules/deeponet/output_handling/share_branch.py:37-50 | The loop returns exactly Fuse: block i is `(trunk[:, iK:(i+1)K] · branch.T).T`. |
| ShareBranch.Block | src/modules/deeponet/output_handling/share_branch.py:47-48 | Output i: trunk columns iK to (i+1)K times the transposed branch, transposed; ShapeMismatch when the slice width differs from the branch width. |
| ShareBranch.Fuse | src/modules/deeponet/output_handling/share_branch.py:44-50 | The n block outputs collected in order, or the error of the first block that fails. |
| ShareBranch.BlockSpec | src/modules/deeponet/output_handling/share_branch.py:47-48 | Block i succeeds iff the trunk slice is as wide as the branch, and is then batch × points. |
| ShareBranch.BlockCell | src/modules/deeponet/output_handling/share_branch.py:47-48 | Entry (r, p) of output i is branch row r dotted with row p of trunk slice i. |
| ShareBranch.FuseSpec | src/modules/deeponet/output_handling/share_branch.py:45-50 | Fusion succeeds iff every block does, and then returns the n blocks in order. |
| ShareBranch.ConfiguredShapes | src/modules/deeponet/output_handling/share_branch.py:29-31 | With the configured trunk width K·n, the forward pass succeeds iff n = 0 or the branch width is K. |
| StandardTraining.TrainableConfig | src/modules/deeponet/training_strategies/standard_training.py:12-20 | The copied configuration has `type = "trainable"` and every other entry unchanged. |
| StandardTraining.TrainableConfigIdempotent | src/modules/deeponet/training_strategies/standard_training.py:12-20 | Overriding twice is overriding once. |
| StandardTraining.Parameter.constructor | src/modules/deeponet/training_strategies/standard_training.py:24-27 | A parameter holds its `requires_grad` flag. |
| StandardTraining.PrepareTraining | src/modules/deeponet/training_strategies/standard_training.py:22-27 | After the two loops every trunk and branch parameter requires gradients. |
| StandardTraining.Forward | src/modules/deeponet/training_strategies/standard_training.py:29-32 | The output handling applied to the branch network on xb and the trunk network on xt, in that order. |
| StandardTraining.ForwardShareBranch | src/modules/deeponet/training_strategies/standard_training.py:29-32 | The standard forward with the ShareBranch handling succeeds iff n = 0 or the branch width is K, and returns the ShareBranch blocks of the two network outputs. |
| Evaluation.KeysOf | src/modules/deeponet/training_strategies/standard_training.py:41-42 | The keys of an ordered dictionary, in order. |
| Evaluation.ValuesOf | src/modules/deeponet/training_strategies/standard_training.py:41-42 | `targets.values()`: the values, in order. |
| Evaluation.Lookup | src/modules/deeponet/training_strategies/standard_training.py:35 | `batch[key]` succeeds iff the key is present, returns its entry, and raises KeyError(key) otherwise. |
| Evaluation.LossTargets | src/modules/deeponet/training_strategies/standard_training.py:35 | `batch[key]` for each output key, in key order, or the KeyError of the first key the batch lacks. |
| Evaluation.OutputKeys | src/modules/deeponet/training_strategies/standard_training.py:35 | `params["OUTPUT_KEYS"]` is a KeyError when absent, and otherwise the list of key strings. |
| Evaluation.ErrorNorm | src/modules/deeponet/training_strategies/standard_training.py:40 | `params.get("ERROR_NORM", 2)`. |
| Evaluation.LossTargetsSpec | src/modules/deeponet/training_strategies/standard_training.py:35 | Targets exist iff every output key is in the batch; target j is the batch entry of key j. |
| Evaluation.LossTargetsMissing | src/modules/deeponet/training_strategies/standard_training.py:35 | The first missing key is the KeyError raised. |
| Evaluation.Loss | src/modules/deeponet/training_strategies/standard_training.py:34-36 | The loss fails with the output-keys or a batch-key error, and otherwise is the loss function of the targets and outputs. |
| Evaluation.FilterBatch | src/modules/deeponet/training_strategies/standard_training.py:41 | The filtered batch keeps exactly the entries whose key is an output key. |
| Evaluation.FilterAll | src/modules/deeponet/training_strategies/standard_training.py:41 | A batch of output keys only is kept as it is. |
| Evaluation.FilterInKeyOrder | src/modules/deeponet/training_strategies/standard_training.py:35-42 | When the filtered batch lists the output keys in OUTPUT_KEYS order, its values are the loss targets. |
| Evaluation.RelativeError | src/modules/deeponet/training_strategies/standard_training.py:43-45 | The error exists iff target and prediction broadcast. It is ‖t − p‖/‖t‖ when ‖t‖ > 0, and infinity otherwise. |
| Evaluation.ExactPrediction | src/modules/deeponet/training_strategies/standard_training.py:43-45 | A prediction the same as its target (of positive norm) scores 0. |
| Evaluation.ZeroTarget | src/modules/deeponet/training_strategies/standard_training.py:45 | A zero-norm target scores infinity. |
| Evaluation.ErrorNonNegative | src/modules/deeponet/training_strategies/standard_training.py:43-45 | A finite relative error is never negative. |
| Evaluation.ZipLength | src/modules/deeponet/training_strategies/standard_training.py:42 | `zip` stops at the shortest of its three lists. |
| Evaluation.ErrorsUpTo | src/modules/deeponet/training_strategies/standard_training.py:42-45 | After the first j zipped triples: the dictionary with each key's relative error (a repeated key keeps the later one), or the first error raised. |
| Evaluation.Errors | src/modules/deeponet/training_strategies/standard_training.py:39-46 | ErrorsUpTo over the length of the shortest of the keys, targets and predictions, as `zip` stops. |
| Evaluation.FillErrors | src/modules/deeponet/training_strategies/standard_training.py:39-46 | The loop returns exactly the zipped error dictionary. |
| Evaluation.ErrorsStop | src/modules/deeponet/training_strategies/standard_training.py:42-45 | A failure at one triple is the loop's result. |
| Evaluation.ErrorsUpToOk | src/modules/deeponet/training_strategies/standard_training.py:42-45 | The first j triples succeed iff each relative error does. |
| Evaluation.ErrorsUpToKeys | src/modules/deeponet/training_strategies/standard_training.py:42-45 | After j triples the dictionary's keys are the first j output keys. |
| Evaluation.ErrorsUpToSize | src/modules/deeponet/training_strategies/standard_training.py:42-45 | After j triples the dictionary has at most j entries. |
| Evaluation.KeyPrefix | src/modules/deeponet/training_strategies/standard_training.py:42 | The set of the first j keys. |
| Evaluation.KeyPrefixStep | src/modules/deeponet/training_strategies/standard_training.py:42-45 | Each iteration adds its key. |
| Evaluation.ErrorsUpToEntries | src/modules/deeponet/training_strategies/standard_training.py:42-45 | With distinct keys, entry `keys[i]` is the relative error of target i and prediction i. |
| Evaluation.ErrorsSpec | src/modules/deeponet/training_strategies/standard_training.py:38-46 | The whole error dictionary: its success condition, its key set (the zipped output keys), its size, and each entry. |
| Evaluation.ComputeBatchErrors | src/modules/deeponet/training_strategies/standard_training.py:38-46 | `compute_errors` returns exactly the error dictionary of the filtered batch values against the outputs. |
| Evaluation.BatchErrors | src/modules/deeponet/training_strategies/standard_training.py:38-46 | The output keys (or their KeyError), then Errors of those keys against the batch's output-key values in batch order and the predictions. |
| Evaluation.ExactBatchErrors | src/modules/deeponet/training_strategies/pod_training.py:65-72 | Outputs equal to the (ordered) targets score 0 for every key, or infinity for a zero target. |
| PodTraining.DataConfig | src/modules/deeponet/training_strategies/pod_training.py:74-77 | The trunk configuration gets `type = "data"` and keeps every other entry. |
| PodTraining.PodConfigs | src/modules/deeponet/training_strategies/pod_training.py:74-82 | The trunk and branch configurations differ only in their type. |
| PodTraining.PrepareTraining | src/modules/deeponet/training_strategies/pod_training.py:28-36 | Preparation passes iff the trunk is a POD trunk, and otherwise raises TrunkNotPod. |
| PodTraining.MeanRow | src/modules/deeponet/training_strategies/pod_training.py:50 | Row i of the flattened mean, `mean[i : i + 1]`, empty past the end. |
| PodTraining.AddMean | src/modules/deeponet/training_strategies/pod_training.py:47-50 | With a single basis, each product plus the mean; otherwise product i plus mean row i for each of the n outputs, an IndexOutOfRange for a product that is not there, and a broadcast error when shapes do not fit. |
| PodTraining.AddMeanSingle | src/modules/deeponet/training_strategies/pod_training.py:47-48 | With a single basis each output is its product plus the mean, one per product. |
| PodTraining.AddMeanSingleIgnoresN | src/modules/deeponet/training_strategies/pod_training.py:47-48 | With a single basis, the output count plays no part. |
| PodTraining.AddMeanMultiple | src/modules/deeponet/training_strategies/pod_training.py:49-50 | Otherwise there are n outputs, each product i plus mean row i. Fewer than n products is an index error. |
| PodTraining.AddRowBroadcast | src/modules/deeponet/training_strategies/pod_training.py:50 | Adding a one-row mean adds its entry c to every entry of column c. |
| PodTraining.Forward | src/modules/deeponet/training_strategies/pod_training.py:44-51 | The handling's products of the branch output and the fixed POD basis, or the handling's error, followed by AddMean. |
| PodTraining.ForwardSpec | src/modules/deeponet/training_strategies/pod_training.py:38-51 | The forward pass fails with the output handling, and otherwise adds the mean to its product. |
| PodTraining.PodTrainingStrategy.constructor | src/modules/deeponet/training_strategies/pod_training.py:21-26 | A POD helper exists iff training rather than inference, built from the data and variance share; the POD trunk is kept. |
| PodTraining.PodTrainingStrategy.UpdateTrainingPhase | src/modules/deeponet/training_strategies/pod_training.py:84-86 | The phase update changes nothing. |
| PodTraining.PodTrainingStrategy.PrepareForPhase | src/modules/deeponet/training_strategies/pod_training.py:88-89 | Phase preparation changes nothing. |
| PodTraining.PodTrainingStrategy.AfterEpoch | src/modules/deeponet/training_strategies/pod_training.py:91-92 | The epoch hook changes nothing. |
| TwoStep.DiagBlocks | src/modules/deeponet/training_strategies/helpers/two_step_helper.py:89 | There are n diagonal blocks of R. |
| TwoStep.DiagBlock | src/modules/deeponet/training_strategies/helpers/two_step_helper.py:89 | Diagonal block i of R, `R[iK:(i+1)K, iK:(i+1)K]`. |
| TwoStep.DiagBlockShape | src/modules/deeponet/training_strategies/helpers/two_step_helper.py:89 | Each diagonal block of an n·K square R is K × K. |
| TwoStep.DiagBlocksUniform | src/modules/deeponet/training_strategies/helpers/two_step_helper.py:89 | All diagonal blocks are K × K. |
| TwoStep.MergeRShape | src/modules/deeponet/training_strategies/helpers/two_step_helper.py:88-90 | A square n·K R (n > 0) merges into a K × n·K matrix. |
| TwoStep.MergeRBlockAt | src/modules/deeponet/training_strategies/helpers/two_step_helper.py:88-90 | Column block i of the merged R is diagonal block i of R. |
| TwoStep.MergeRSpec | src/modules/deeponet/training_strategies/helpers/two_step_helper.py:88-90 | An R that is not n·K square is kept, and n = 0 fails in `cat`. Otherwise the merge is K × n·K with column block i equal to diagonal block i. |
| TwoStep.MergeRDiagonalOnly | src/modules/deeponet/training_strategies/helpers/two_step_helper.py:88-90 | The merge depends only on the diagonal blocks of R. |
| TwoStep.MergeR | src/modules/deeponet/training_strategies/helpers/two_step_helper.py:88-90 | For an n·K square R, the n diagonal blocks concatenated by columns (refused for n = 0); any other R is used as it is. |
| TwoStep.ErrorMergeAsWritten | src/modules/deeponet/training_strategies/helpers/two_step_helper.py:118-121 | For an n·K square R, `R[:K,:K]` and `R[K:,K:]` concatenated by columns, which fails when their row counts differ; any other R is used as it is. |
| TwoStep.ErrorMergeMatchesForTwo | src/modules/deeponet/training_strategies/helpers/two_step_helper.py:118-121 | For two outputs the error-path merge equals the loss-path merge, for every R and K. |
| TwoStep.ErrorMergeFailsOtherwise | src/modules/deeponet/training_strategies/helpers/two_step_helper.py:118-121 | For any other output count (K > 0), the error-path merge fails where the loss-path merge succeeds. |
| TwoStep.ErrorMergeCounterexample | src/modules/deeponet/training_strategies/helpers/two_step_helper.py:118-121 | R = I₃, K = 1, n = 3: the error-path merge fails and the loss-path merge succeeds. |
| TwoStep.TwoStepHelper.constructor | src/modules/deeponet/training_strategies/helpers/two_step_helper.py:19 | A fresh helper has no A. |
| TwoStep.TwoStepHelper.SetAMatrix | src/modules/deeponet/training_strategies/helpers/two_step_helper.py:21-26 | A becomes a (batch × branch outputs) matrix of drawn entries. |
| TwoStep.TwoStepHelper.ComputeOutputs | src/modules/deeponet/training_strategies/helpers/two_step_helper.py:48-58 | Trunk phase: (A or None, trunk on xt); branch phase: (branch on xb, Ellipsis); any other phase: (branch on xb, trunk on xt). |
| TwoStep.TwoStepHelper.PhaseOutputs | src/modules/deeponet/training_strategies/helpers/two_step_helper.py:48-54 | Trunk phase: the branch entry is A (or None), whatever the branch network, and the trunk is computed. Branch phase: the trunk entry is an Ellipsis, whatever the trunk network. |
| TwoStep.TwoStepHelper.OtherPhaseOutputs | src/modules/deeponet/training_strategies/helpers/two_step_helper.py:55-58 | Any other phase computes both networks. |
| TwoStep.TwoStepHelper.BranchTargets | src/modules/deeponet/training_strategies/helpers/two_step_helper.py:84-91 | Branch-phase targets: a missing R is refused first, then a merge failure. Without A the handling fails; otherwise the targets are the handling of A and the merged R. |
| TwoStep.TwoStepHelper.ErrorPathAsWrittenFails | src/modules/deeponet/training_strategies/helpers/two_step_helper.py:118-123 | With n ≠ 2 outputs and K > 0, the as-written error targets fail with ShapeMismatch, while the corrected merge gives the handling's targets. |
| TwoStep.TwoStepHelper.ComputeLoss | src/modules/deeponet/training_strategies/helpers/two_step_helper.py:78-96 | Outside the branch phase it is the standard loss. In the branch phase a missing R is RMatrixUnavailable; otherwise it is the loss against BranchTargets, or their error. |
| TwoStep.TwoStepHelper.ComputeErrors | src/modules/deeponet/training_strategies/helpers/two_step_helper.py:104-134 | The method returns exactly the phase's error dictionary: the batch-filtered rule outside the branch phase, and the branch targets with the corrected merge inside it. |
| TwoStep.TwoStepHelper.PhaseErrors | src/modules/deeponet/training_strategies/helpers/two_step_helper.py:104-134 | Branch phase: the errors of the branch targets (R merged by MergeR) against the outputs, after the R, merge and key errors; any other phase: the batch errors. |
| TwoStep.TwoStepHelper.BranchPhaseConsistent | src/modules/deeponet/training_strategies/helpers/two_step_helper.py:82-127 | In the branch phase loss and errors use the same targets. The loss exists iff they do; the errors are those of the outputs against them; without R both fail. |
| TwoStep.TwoStepHelper.AfterEpoch | src/modules/deeponet/training_strategies/helpers/two_step_helper.py:143-148 | The epoch hook changes nothing. |
| Preprocessing.MapCells | modules/preprocessing.py:19 | An entry-wise map keeps the shape. |
| Preprocessing.MapCellsInverse | modules/preprocessing.py:18-29 | Mapping with f and then with an inverse of f gives back the matrix. |
| Preprocessing.Standardize.Apply | modules/preprocessing.py:18-20 | `(v − μ)/σ` is defined iff σ ≠ 0 and keeps the shape. |
| Preprocessing.Destandardize.Apply | modules/preprocessing.py:27-29 | `v·σ + μ` keeps the shape. |
| Preprocessing.Normalize.Apply | modules/preprocessing.py:36-40 | `(v − min)/(max − min)` is defined iff max ≠ min and keeps the shape. |
| Preprocessing.Denormalize.Apply | modules/preprocessing.py:46-54 | `v·(max − min) + min` keeps the shape. |
| Preprocessing.StandardizeRoundTrip | modules/preprocessing.py:18-29 | Destandardising a standardised tensor gives it back, and so does the converse. |
| Preprocessing.NormalizeRoundTrip | modules/preprocessing.py:36-54 | Denormalising a normalised tensor gives it back, and so does the converse. |
| Preprocessing.NormalizeRange | modules/preprocessing.py:36-40 | A value inside [min, max] normalises into [0, 1]. |
| Preprocessing.SeqMinSpec | modules/preprocessing.py:76 | `t.min()` is at most every entry and is one of them. |
| Preprocessing.SeqMaxSpec | modules/preprocessing.py:77 | `t.max()` is at least every entry and is one of them. |
| Preprocessing.PyMin | modules/preprocessing.py:76 | Python's `min(a, b)` on the extended reals: a unless b is strictly smaller. |
| Preprocessing.PyMax | modules/preprocessing.py:77 | Python's `max(a, b)` on the extended reals: a unless b is strictly larger. |
| Preprocessing.RunMin | modules/preprocessing.py:62-82 | The running minimum of a field over the first i samples, starting from +inf, each step `min(t.min(), m)`. |
| Preprocessing.RunMax | modules/preprocessing.py:63-83 | The running maximum of a field over the first i samples, starting from −inf, each step `max(t.max(), m)`. |
| Preprocessing.MinMaxSpec | modules/preprocessing.py:56-99 | EmptyInput for an empty loader or an empty tensor; otherwise the running minimum and maximum of xb, g_u_real and g_u_imag over all samples. |
| Preprocessing.GetMinMaxNormParams | modules/preprocessing.py:56-99 | The loop returns exactly the per-field running bounds, or EmptyInput for an empty loader or an empty tensor. |
| Preprocessing.RunMinSpec | modules/preprocessing.py:62-83 | Starting from +inf, the running minimum of the first i samples is a number, at most every value seen and equal to one of them. |
| Preprocessing.RunMaxSpec | modules/preprocessing.py:62-83 | Starting from −inf, the running maximum of the first i samples is a number, at least every value seen and equal to one of them. |
| Preprocessing.MinMaxBounds | modules/preprocessing.py:56-99 | The result exists iff the loader and its tensors are non-empty. Each field's min and max then bound every value of that field and are attained. |
| Preprocessing.GridRow | modules/preprocessing.py:146-147 | One meshgrid row pairs each r with a fixed z. |
| Preprocessing.MeshRows | modules/preprocessing.py:146-147 | The flattened meshgrid has |r|·|z| points of two coordinates. |
| Preprocessing.MeshgridToTrunk | modules/preprocessing.py:145-148 | The trunk coordinates have two columns. |
| Preprocessing.MeshRowsAt | modules/preprocessing.py:146-147 | Point `j·|r| + i` is (r[i], z[j]). |
| Preprocessing.MeshRowsValues | modules/preprocessing.py:146-147 | Every point's coordinates come from r and z. |
| Preprocessing.MeshgridToTrunkSpec | modules/preprocessing.py:145-148 | `meshgrid_to_trunk` gives |r|·|z| rows, row `j·|r| + i` being (r[i], z[j]). |
| Preprocessing.Insert | modules/preprocessing.py:140 | Inserting into a sorted, duplicate-free sequence keeps it so and adds exactly x. |
| Preprocessing.Unique | modules/preprocessing.py:140 | `np.unique` is strictly increasing and holds exactly the values of its input. |
| Preprocessing.IncreasingSameValues | modules/preprocessing.py:140 | Two strictly increasing sequences of the same values are equal. |
| Preprocessing.TrunkToMeshgrid | modules/preprocessing.py:139-143 | When it succeeds z is non-empty and no longer than the trunk, and r has `rows / |z|` entries. |
| Preprocessing.UniqueShorter | modules/preprocessing.py:140 | `np.unique` is never longer than its input. |
| Preprocessing.Index | modules/preprocessing.py:140 | The position of a present value. |
| Preprocessing.InjectiveBound | modules/preprocessing.py:140-141 | Distinct indices below n are at most n. |
| Preprocessing.MeshgridRoundTrip | modules/preprocessing.py:139-148 | For non-empty r and strictly increasing z, `trunk_to_meshgrid(meshgrid_to_trunk(r, z)) == (r, z)`. |
| Preprocessing.CountBelow | modules/preprocessing.py:194-195 | The number of ratios below the share is at most the number looked at. |
| Preprocessing.ModeCount | modules/preprocessing.py:194-195 | The number of cumulative explained-variance ratios below the share, plus one. |
| Preprocessing.CumSqMono | modules/preprocessing.py:194 | Cumulative sums of squared singular values are non-negative and non-decreasing. |
| Preprocessing.RatioStaysAbove | modules/preprocessing.py:194-195 | Once a cumulative ratio reaches the share, every later one does too. |
| Preprocessing.CountIsPrefix | modules/preprocessing.py:195 | The ratios below the share are exactly a prefix. |
| Preprocessing.ModeCountLeast | modules/preprocessing.py:195 | The mode count is at least 1 and is one past the prefix of ratios below the share. |
| Preprocessing.ModeCountBounds | modules/preprocessing.py:194-195 | For non-empty S and a share of at most 1, between 1 and |S| modes are kept. |
| Preprocessing.ModeCountExample | modules/preprocessing.py:192-195 | For S = (10, 1, 0.1) and the default share 0.95, one mode is kept. |
| Preprocessing.PodModes | modules/preprocessing.py:196 | The modes keep U's rows and have the clamped mode count of columns. |
| Preprocessing.PodModesSpec | modules/preprocessing.py:192-198 | With |S| ≤ columns of U and share ≤ 1, the modes are exactly the first ModeCount columns of U. |
| ConfigUtils.LowerIdempotent | modules/utilities/config_utils.py:32 | Lower-casing twice is lower-casing once, and it neither adds nor removes '/'. |
| ConfigUtils.Lower | modules/utilities/config_utils.py:32 | ASCII lower-casing, one character at a time. |
| ConfigUtils.JoinPlain | modules/utilities/config_utils.py:60 | `os.path.join` of parts without '/' puts one '/' between them and does not end in '/'. |
| ConfigUtils.Join | modules/utilities/config_utils.py:60 | `os.path.join`: an absolute part restarts the path, and a '/' is put between two parts unless the left one is empty or ends in '/'. |
| ConfigUtils.LastSep | modules/utilities/config_utils.py:60 | The split point is after the last '/' (or 0), and nothing after it is '/'. |
| ConfigUtils.Basename | modules/utilities/config_utils.py:60 | `os.path.basename`: what follows the last '/'. |
| ConfigUtils.Dirname | modules/utilities/config_utils.py:60 | `os.path.dirname`: what precedes the last '/', with trailing slashes removed unless it is all slashes. |
| ConfigUtils.BasenameSplits | modules/utilities/config_utils.py:60 | The base name has no '/', and the path is its head followed by its base name. |
| ConfigUtils.DirBaseOfNested | modules/utilities/config_utils.py:60 | `dirname`/`basename` of `dir/name` are dir and name. |
| ConfigUtils.DirBaseOfBare | modules/utilities/config_utils.py:60 | A bare file name has an empty dirname and is its own basename. |
| ConfigUtils.LastSepIs | modules/utilities/config_utils.py:60 | A position after the last '/' with no '/' after it is the split point. |
| ConfigUtils.JoinThree | modules/utilities/config_utils.py:60 | A three-part join is two join steps. |
| ConfigUtils.RelocateNested | modules/utilities/config_utils.py:58-60 | `dir/name` with a problem p becomes `dir/p/name`. |
| ConfigUtils.RelocatedDataFile | modules/utilities/config_utils.py:60 | `join(dirname(d), problem, basename(d))`. |
| ConfigUtils.JoinFromEmpty | modules/utilities/config_utils.py:60 | Joining from an empty directory drops it. |
| ConfigUtils.RelocateBare | modules/utilities/config_utils.py:58-60 | A bare `name` with a problem p becomes `p/name`. |
| ConfigUtils.RunFolderPlain | modules/utilities/config_utils.py:66-67 | With plain parts the run folder is `base/problem/strategy/handling/name/`. |
| ConfigUtils.RunFolder | modules/utilities/config_utils.py:66-67 | `join(base, problem, strategy, handling, name) + os.sep`. |
| ConfigUtils.FirstMissingSpec | modules/utilities/config_utils.py:28-30 | No key is reported iff none is missing. A reported key is missing and every earlier key is present. |
| ConfigUtils.FirstMissing | modules/utilities/config_utils.py:28-30 | The first required key that is absent or None, if any. |
| ConfigUtils.FirstMissingAt | modules/utilities/config_utils.py:28-30 | The first missing key is the one reported. |
| ConfigUtils.FirstMissingAgree | modules/utilities/config_utils.py:28-30 | The report depends only on which keys are missing. |
| ConfigUtils.RequiredPresent | modules/utilities/config_utils.py:26-30 | After the check, the six keys used later are present. |
| ConfigUtils.ConfigDict.constructor | modules/utilities/config_utils.py:4 | The dictionary holds its entries. |
| ConfigUtils.BuildModelName | modules/utilities/config_utils.py:32-54 | The name-building statements return exactly NameOf: the lower-cased problem and the tagged model name, or WrongType for a non-string. |
| ConfigUtils.AppendFlagTags | modules/utilities/config_utils.py:40-47 | The name gains "_in", "_out", "_norm" (after either normalisation flag) and "_trunkexp", in that order, each exactly when its flag holds. |
| ConfigUtils.AppendHandlingTag | modules/utilities/config_utils.py:49-54 | The name gains the handling tag: the first of single_trunk, multiple_trunks, split_trunk contained in the handling string, or nothing. |
| ConfigUtils.HandlingTag | modules/utilities/config_utils.py:49-54 | "_singlebasis", "_multitrunks" or "_splitbasis" for the first of single_trunk, multiple_trunks, split_trunk the handling contains, in that order, or nothing. |
| ConfigUtils.ModelName | modules/utilities/config_utils.py:34-54 | The date prefix followed by "_" + problem when non-empty, "_" + strategy when there is one, "_in" and "_out" by their normalisation flags, "_norm" when either is set, "_trunkexp" by its flag, then the handling tag. |
| ConfigUtils.NameOf | modules/utilities/config_utils.py:32-54 | WrongType when PROBLEM, OUTPUT_HANDLING or a truthy TRAINING_STRATEGY is not a string; otherwise the lower-cased problem and the ModelName of the checked dictionary. |
| ConfigUtils.PathStage | modules/utilities/config_utils.py:58-67 | The data file relocated when relative with a non-empty problem, then the log folder, then the images folder rewritten as run folders; the first non-string raises WrongType and keeps the writes made before it. |
| ConfigUtils.Process | modules/utilities/config_utils.py:24-69 | MODELNAME overwritten with the date prefix, then the first missing required key raised, then NameOf written back as MODELNAME, then PathStage. |
| ConfigUtils.RewritePaths | modules/utilities/config_utils.py:58-67 | The outcome and the dictionary are exactly those of PathStage: the data file relocated under the problem, both folders joined with the run's components, and WrongType for a non-string. |
| ConfigUtils.ProcessConfig | modules/utilities/config_utils.py:4-69 | The outcome and the final dictionary are exactly those of Process on the old entries. |
| ConfigUtils.RequiredKeyError | modules/utilities/config_utils.py:24-30 | A missing-key error happens iff a required key other than MODELNAME is missing, and names the first one. MODELNAME is never reported, since it was just set. |
| ConfigUtils.NoOtherErrorKey | modules/utilities/config_utils.py:32-69 | After the check no later step raises a missing-key error. |
| ConfigUtils.PathStageKeys | modules/utilities/config_utils.py:58-67 | The path stage keeps the key set and changes only DATAFILE and the two folders. |
| ConfigUtils.OtherKeysUntouched | modules/utilities/config_utils.py:24-69 | The result has the input keys plus MODELNAME. Every key other than the four written is unchanged, on success and on failure. |
| ConfigUtils.SuccessNeedsStrings | modules/utilities/config_utils.py:26-67 | Success needs every required key present, and problem, strategy, handling, data file and folders to be strings. |
| ConfigUtils.ModelNameOnSuccess | modules/utilities/config_utils.py:34-56 | On success MODELNAME is the date prefix, then the tags in the fixed order: problem, lower-cased strategy, `_in`, `_out`, `_norm`, `_trunkexp`, handling. |
| ConfigUtils.SplitTrunkTag | modules/utilities/config_utils.py:49-54 | The handling "split_trunk" gets the tag `_splitbasis`. |
| ConfigUtils.ModelNameExample | modules/utilities/config_utils.py:34-54 | A worked name: kelvin, two_step, input normalisation and split_trunk. |
| ConfigUtils.DataFileOnSuccess | modules/utilities/config_utils.py:58-60 | A relative data file with a non-empty problem is relocated under the problem directory; otherwise it is kept. |
| ConfigUtils.FoldersOnSuccess | modules/utilities/config_utils.py:62-67 | Both folders become `join(folder, problem, strategy, handling, name) + "/"`. |
| PlotTraining.Dicts | modules/plotting/plot_training.py:23-26 | The dictionaries among the entries are no more than the entries. |
| PlotTraining.Pad | modules/plotting/plot_training.py:33-38 | The list followed by None up to length n; nothing is added when the list is at least n long. |
| PlotTraining.Extract | modules/plotting/plot_training.py:23-26 | `e.get(key)` for each dictionary entry in order: None for a dictionary without the key, and non-dictionaries skipped. |
| PlotTraining.AlignPhase | modules/plotting/plot_training.py:17-48 | The seven series of one phase: epochs 0 to N−1, and the two losses and four error series padded with None to N, where N is the longest of the losses and training errors. |
| PlotTraining.AlignEpochs | modules/plotting/plot_training.py:3-50 | The loop aligns every phase and only those: each entry is AlignPhase of the phase's metrics. |
| PlotTraining.PadSpec | modules/plotting/plot_training.py:33-38 | A padded list starts with the original and is as long as the larger of the two, the added entries being None. |
| PlotTraining.DictsSpec | modules/plotting/plot_training.py:23-26 | Exactly the dictionary entries are kept; with only dictionaries none is lost. |
| PlotTraining.ExtractSpec | modules/plotting/plot_training.py:23-26 | One extracted value per dictionary, None where the key is absent. The real and imaginary series are equally long. |
| PlotTraining.ExtractMissing | modules/plotting/plot_training.py:23-26 | A dictionary without the key gives None, and a non-dictionary entry is skipped. |
| PlotTraining.AlignPhaseSpec | modules/plotting/plot_training.py:17-48 | The phase has the seven series. The epoch count is the largest of the two losses and the two training-error lengths. Those series have exactly that length and keep their prefixes; validation errors that are longer keep their own length. |
| PlotUtils.Reshape | src/modules/plotting/plot_utils.py:42 | `reshape` succeeds iff the element counts agree and then keeps the data; otherwise numpy raises. |
| PlotUtils.GridShape | src/modules/plotting/plot_utils.py:31-34 | A tuple of coordinates gives one dimension per axis, its length. A single array gives its length. |
| PlotUtils.FlatIndexBound | src/modules/plotting/plot_utils.py:42 | An in-range index has a row-major position below the element count. |
| PlotUtils.FlatLead | src/modules/plotting/plot_utils.py:42 | The count and position with a leading dimension. |
| PlotUtils.ProdTrail | src/modules/plotting/plot_utils.py:42 | The count with a trailing dimension. |
| PlotUtils.FlatTrail | src/modules/plotting/plot_utils.py:42 | The position with a trailing dimension. |
| PlotUtils.GridCount | src/modules/plotting/plot_utils.py:42 | The count of `(N, *grid, last)` is N · ∏grid · last. |
| PlotUtils.GridPosition | src/modules/plotting/plot_utils.py:51 | The position of `(i, *g, j)` in `(N, *grid, last)`. |
| PlotUtils.Layout2 | src/modules/plotting/plot_utils.py:39 | Count and position in a 2-D array. |
| PlotUtils.Layout3 | src/modules/plotting/plot_utils.py:45-47 | Count and position in a 3-D array. |
| PlotUtils.GridInBounds | src/modules/plotting/plot_utils.py:51 | A grid index framed by in-range first and last indices is in range. |
| PlotUtils.ProcessRank | src/modules/plotting/plot_utils.py:38-54 | Only 2-D and 3-D outputs succeed; any other rank raises. |
| PlotUtils.Process2D | src/modules/plotting/plot_utils.py:38-42 | An (N, trunk) output reshaped to (N, *grid, 1); TrunkSizeMismatch when the grid size differs from trunk and `basis` is false; a reshape error when the counts differ. |
| PlotUtils.Process3D | src/modules/plotting/plot_utils.py:43-51 | An (N, outputs, trunk) output, or (N, trunk, outputs) with `basis`, reshaped to (N, *grid, outputs); TrunkSizeMismatch when the grid size differs from trunk. |
| PlotUtils.ProcessOutputs | src/modules/plotting/plot_utils.py:31-56 | The grid shape of the coordinates, then Process2D or Process3D by the output's rank; BadRank for any other rank. |
| PlotUtils.Process2DSpec | src/modules/plotting/plot_utils.py:38-42 | Without `basis` it fails iff ∏grid ≠ trunk size (TrunkSizeMismatch). With `basis` only numpy's reshape can fail, iff N > 0 and the sizes differ. The result is `(N, *grid, 1)` with the data kept. |
| PlotUtils.Process3DSpec | src/modules/plotting/plot_utils.py:43-51 | Succeeds iff ∏grid equals the trunk size: the last dimension without `basis`, the middle one with it. The result is `(N, *grid, outputs)` with the data kept. |
| PlotUtils.Process2DCell | src/modules/plotting/plot_utils.py:38-42 | Entry `(i, *g, 0)` of the reshaped output is entry (i, flat(g)) of the output. |
| PlotUtils.Process3DBasisCell | src/modules/plotting/plot_utils.py:47-51 | With `basis`, entry `(i, *g, o)` of the reshaped output is entry (i, flat(g), o). |
| PlotUtils.Process3DNotTranspose | src/modules/plotting/plot_utils.py:44-51 | Without `basis` (shape N, outputs, trunk) the data is reshaped, not transposed. Entry (0, 1, 0) is kept where (0, 0, 1) would be expected if the axes were swapped. |
| PlotUtils.JoinCommaAppend | src/modules/plotting/plot_utils.py:79 | Joining two non-empty lists separates their joins by ", ". |
| PlotUtils.FormatZipIsDict | src/modules/plotting/plot_utils.py:77-83 | An iterable with as many keys as values formats as the dictionary of the zipped pairs. |
| PlotUtils.FormatKeysIgnored | src/modules/plotting/plot_utils.py:80-88 | Without keys, or with keys of the wrong length, the keys play no part. |
| PlotUtils.FormatShape | src/modules/plotting/plot_utils.py:77-88 | Dictionaries and iterables give a parenthesised list. A string is itself, and a number is its printed form. |
| PlotUtils.FormatParam | src/modules/plotting/plot_utils.py:77-88 | "(k=v, …)" for a dictionary, or for an iterable with as many keys as values; "(v, …)" for an iterable otherwise; and the printed value for anything else. |
| PlotUtils.FormatPairExample | src/modules/plotting/plot_utils.py:81-83 | Two values with two keys give `(a=x, b=y)`. |

## Left out

**Networks and external computations**

- Neural networks (MLPs, `model.branch`, `model.trunk`, `create_network`), loss functions and `torch.linalg.vector_norm` are function-typed parameters. Their internals are not part of this model.
- `torch.randn` and `kaiming_uniform_` in `set_A_matrix` become a `draw` parameter, and device and dtype are ignored.
- The singular value decomposition in `compute_pod_modes` is not modelled: U and S are inputs.
- `compute_trained_trunk` and the decomposition helper behind R are not part of this model; R is an input.
- `config_basis` and `create_components` of ShareBranch are not part of this model, only the sizes they are given.

**Floating point and types**

- Floating point is exact real arithmetic, with no inf or NaN. Division by a zero σ or a zero range is modelled as an error rather than an inf/NaN tensor.
- The ±inf start values of the running min/max are an `Extended` type.
- The zero-norm `float("inf")` error value is `Infinite`.
- Tensors are 2-D real matrices. numpy dtypes and complex entries become the generic element type of `PlotUtils.Tensor`.
- `OUTPUT_KEYS` is assumed to be a list of strings.
- The POD mean is taken as already flattened to one row per output.
- A `None` A in the branch phase is a `WrongType` error of the handling.

**Attribute names**

- StandardTraining.Forward: line 32 of `standard_training.py` calls `model.output_strategy.forward`, while the POD and two-step code calls `model.output_handling.forward`. The model assumes both attributes name the same output handling. A model that lacks `output_strategy`, or whose `output_strategy` is something else, is not modelled; with such a model line 32 would raise an AttributeError or take another path.

**Logging, I/O and the clock**

- Logging and `.item()` calls have no effect on the values.
- `datetime.now()` is a date-string parameter.

**Configuration processing**

- `.lower()` lower-cases ASCII only.
- `os.path` is POSIX `posixpath` (`os.sep` is '/').

**Plotting**

- PlotTraining.AlignEpochs: the history is a map, so the order of the phases in the result is not modelled.
- PlotTraining.AlignEpochs: the metric values are assumed to be lists.
- PlotUtils.FormatParam: `f"{v:.2f}"` and `str(param)` are formatter parameters.
- PlotUtils.FormatParam: values are assumed numeric.
- PlotUtils.ProcessOutputs: coordinates are 1-D arrays of reals.
- PlotUtils.ProcessOutputs: `.detach().cpu().numpy()` is the identity.

**Functions not part of this model**

`trunk_feature_expansion`, `get_gaussian_norm_params`, `get_trunk_normalization_params`, `mirror`, `reshape_from_model`, `postprocess_for_2D_plot` and the matplotlib plotting functions.

## Findings

| source | as written | input that shows it | evidently intended | confidence | as-written member | corrected member |
|---|---|---|---|---|---|---|
| src/modules/deeponet/training_strategies/helpers/two_step_helper.py:118-121 | In the branch-phase error path, a square n·K R is merged as `cat(R[:K,:K], R[K:,K:], dim=1)`. These two blocks have K and n·K − K rows, so `torch.cat` raises unless n = 2 (or K = 0). | n = 3, K = 1, R = I₃: the blocks have 1 and 2 rows. | The same merge as the loss path (lines 88-90): the n diagonal K×K blocks concatenated side by side. | not executed | TwoStep.ErrorMergeAsWritten, with TwoStep.ErrorMergeFailsOtherwise, TwoStep.ErrorMergeCounterexample and TwoStep.TwoStepHelper.ErrorPathAsWrittenFails | TwoStep.MergeR, with TwoStep.MergeRSpec and TwoStep.ErrorMergeMatchesForTwo; TwoStep.TwoStepHelper.ComputeErrors uses it |
