# Quaternion dense layer and hypercomplex values, in Dafny

This project models the algebraic core of `hypercomplex_algebra`. It has two parts.

**The quaternion dense layer** (`QuaternionDense` in `hypercomplex_algebra/quaternions.py`) is a
batched linear map from `4 * input_dim` packed features `[r | i | j | k]` to `4 * units` packed
outputs. Its four kernels are combined by the quaternion Hamilton product:

- building checks that the last input dimension is divisible by four and derives `input_dim`;
- it allocates four `(input_dim, units)` kernels and, with `use_bias`, a zero bias of length `4 * units`;
- the forward pass splits every row into four blocks, combines them with the kernels by the
  Hamilton sign pattern (input blocks on the left, kernels on the right), concatenates the four
  results and adds the bias;
- the configuration records `units` and `use_bias`.

**The hypercomplex base value** (`HypercomplexBase` in `hypercomplex_algebra/base.py`) is a
tuple of components:

- addition and subtraction are componentwise, through one shared zip-based operation;
- multiplication always fails.

Matrices are `seq<seq<real>>` with the batch dimension flattened to one row per example. Arithmetic is
exact `real`, so the float32 tolerances of the tests become equalities.

The central result is `DenseProperties.CallIsQuaternionProduct`. Read as quaternions, the layer's
output at row `n` and unit `c` equals a reference definition: the quaternion dot product
`sum_t input(n, t) * kernel(t, c)`, plus bias quaternion `c`. That reference is written directly
over quaternions, independently of the blockwise code. Additivity, homogeneity, the bias offset, the
zero-input result, the identity kernel and the single-quaternion products are all derived from it.

Files:

- `results.dfy` — module `Results`: the error kinds and the `Option` and `Result` types;
- `matrix.dfy` — module `Matrix`: the tensor operations the layer calls (matrix product, sum,
  difference, scaling, column slices, bias broadcast);
- `quaternion.dfy` — module `Quaternion`: quaternions, the Hamilton product and quaternion dot products;
- `hypercomplex.dfy` — module `Hypercomplex`: the base value;
- `quaternion_dense.dfy` — module `QuaternionDense`: the layer;
- `dense_properties.dfy` — module `DenseProperties`: what the layer computes, stated independently;
- `dense_scenarios.dfy` — module `DenseScenarios`: the documented usage scenarios.

## Model

| member | source | states |
|---|---|---|
| Hypercomplex.BinaryOp | hypercomplex_algebra/base.py:16-17 | the result belongs to the left operand's algebra; it has as many components as the shorter operand (zip truncates, no error is raised); component `n` is `op` applied to the operands' components `n` |
| Hypercomplex.Add | hypercomplex_algebra/base.py:6-7 | component `n` of `a + b` is `a_n + b_n`, over the shorter operand's length, in the left operand's algebra |
| Hypercomplex.Sub | hypercomplex_algebra/base.py:9-10 | component `n` of `a - b` is `a_n - b_n`, over the shorter operand's length, in the left operand's algebra |
| Hypercomplex.Mul | hypercomplex_algebra/base.py:12-14 | multiplication on the base value fails with not-implemented, whatever the operands |
| Hypercomplex.AddCommutes | hypercomplex_algebra/base.py:6-7 | the components of `a + b` and `b + a` agree; within one algebra the values are equal |
| Hypercomplex.SubThenAdd | hypercomplex_algebra/base.py:9-10 | with equal component counts, `(a - b) + b` gives back `a` |
| QuaternionDense.New | hypercomplex_algebra/quaternions.py:6-17 | a new layer records `units` and `use_bias` (on by default) and has no weights yet |
| QuaternionDense.Build | hypercomplex_algebra/quaternions.py:19-48 | fails exactly when the last dimension is not divisible by 4; otherwise `4 * input_dim` is the last dimension, all four kernels are `(input_dim, units)`, and the bias exists iff `use_bias`, with length `4 * units` and every entry zero |
| QuaternionDense.Split4 | hypercomplex_algebra/quaternions.py:63 | the four blocks keep the batch size, are `d` wide, and entry `t` of block r, i, j, k is entry `t`, `d + t`, `2d + t`, `3d + t` of the row |
| QuaternionDense.Concat4 | hypercomplex_algebra/quaternions.py:71 | every output row is the r, i, j, k rows joined in that order |
| QuaternionDense.HamiltonBlocks | hypercomplex_algebra/quaternions.py:66-69 | every entry of each output block is the Hamilton sign pattern over dot products of the input row's blocks (left) with the kernels' columns (right) |
| QuaternionDense.Call | hypercomplex_algebra/quaternions.py:50-76 | a width not divisible by 4 is a dimension error and gives no output; a width other than `4 * input_dim` is a shape mismatch; otherwise the output has the batch size and `4 * units` columns |
| QuaternionDense.Invoke | hypercomplex_algebra/quaternions.py:19-76 | the first use builds the layer from the batch width and then runs the forward pass; a width not divisible by 4 always fails; a built layer is returned unchanged, so the forward pass never alters kernels or bias |
| QuaternionDense.LoadKernels | tests/test_quaternion_dense.py:32-37 | new kernels are accepted iff all four have the built `(input_dim, units)` shape; only the kernels change |
| QuaternionDense.GetConfig | hypercomplex_algebra/quaternions.py:78-87 | the configuration records the layer's `units` and `use_bias` |
| QuaternionDense.FromConfig | tests/test_quaternion_dense.py:56-58 | a layer made from a configuration has its `units` and `use_bias` and no weights yet |
| Quaternion.UnitTable | hypercomplex_algebra/quaternions.py:66-69 | the sign pattern gives `i² = j² = k² = −1`, `ij = k`, `jk = i`, `ki = j`, and each of these changes sign when the operands swap |
| Quaternion.OneIsUnit | hypercomplex_algebra/quaternions.py:66-69 | the quaternion `1` is a two-sided unit of the product |
| Quaternion.HamiltonAddLeft | hypercomplex_algebra/quaternions.py:66-69 | the product distributes over addition in its left operand |
| Quaternion.HamiltonScaleLeft | hypercomplex_algebra/quaternions.py:66-69 | a real factor of the left operand comes out of the product |
| Quaternion.QDotParts | hypercomplex_algebra/quaternions.py:66-69 | each component of a quaternion dot product is that component's sign pattern over the real dot products of the parts; this is the blockwise rule of the forward pass |
| Quaternion.QDotAddLeft | hypercomplex_algebra/quaternions.py:66-69 | the quaternion dot product is additive in its left operand |
| Quaternion.QDotScaleLeft | hypercomplex_algebra/quaternions.py:66-69 | the quaternion dot product is homogeneous in its left operand |
| Quaternion.QDotZeroLeft | hypercomplex_algebra/quaternions.py:66-69 | all-zero left operands give a zero dot product |
| Quaternion.QDotUnitRight | hypercomplex_algebra/quaternions.py:66-69 | against the `c`-th unit column the dot product picks out the `c`-th left operand |
| DenseProperties.HamiltonEntry | hypercomplex_algebra/quaternions.py:63-69 | entry `(n, c)` of the four Hamilton blocks is the quaternion dot product of input row `n` with kernel column `c` |
| DenseProperties.CallEntry | hypercomplex_algebra/quaternions.py:63-74 | output quaternion `(n, c)` is that dot product plus bias quaternion `c` |
| DenseProperties.CallIsQuaternionProduct | hypercomplex_algebra/quaternions.py:50-76 | on the built width the forward pass succeeds, and every output quaternion is the quaternion-valued matrix product of input and kernels plus the bias |
| DenseProperties.SplitThenConcat | hypercomplex_algebra/quaternions.py:63-71 | splitting a batch into blocks and concatenating them gives back the batch |
| DenseProperties.ConcatThenSplit | hypercomplex_algebra/quaternions.py:63-71 | concatenating four equally wide blocks and splitting gives back the blocks |
| DenseProperties.CallAdditive | hypercomplex_algebra/quaternions.py:66-71 | without bias, `f(x + y) = f(x) + f(y)`, and `x + y` is accepted exactly when `x` is |
| DenseProperties.CallHomogeneous | hypercomplex_algebra/quaternions.py:66-71 | without bias, `f(a x) = a f(x)`, and `a x` is accepted exactly when `x` is |
| DenseProperties.BiasIsRowOffset | hypercomplex_algebra/quaternions.py:73-74 | with bias, the output is the bias-free output with the bias added to every row, and both succeed or fail together |
| DenseProperties.ZeroInputGivesBias | hypercomplex_algebra/quaternions.py:43-74 | an all-zero batch is mapped to the bias on every row (zero rows without a bias), whatever the kernels |
| DenseProperties.IdentityKernels | hypercomplex_algebra/quaternions.py:66-71 | with `K_r` the identity matrix, the other kernels zero and no bias, the forward pass returns its input |
| DenseProperties.UnitKernelIsHamiltonProduct | hypercomplex_algebra/quaternions.py:66-69 | with `1 x 1` kernels and no bias, every output row is the Hamilton product of the input row (left) with the kernel quaternion (right) |
| DenseProperties.SingleQuaternion | hypercomplex_algebra/quaternions.py:66-69 | with `1 x 1` kernels, the batch holding `p` is mapped to the batch holding `p * kernel` |
| DenseProperties.UnitKernelIJ | hypercomplex_algebra/quaternions.py:66-69 | with kernel `j`, input `i` gives `k` |
| DenseProperties.UnitKernelJI | hypercomplex_algebra/quaternions.py:66-69 | with kernel `i`, input `j` gives `−k` |
| DenseProperties.UnitKernelII | hypercomplex_algebra/quaternions.py:66-69 | with kernel `i`, input `i` gives `−1` |
| DenseScenarios.OutputShapeExample | tests/test_quaternion_dense.py:10-15 | eight units on any `10 x 16` batch give a `10 x 32` output |
| DenseScenarios.InvalidWidthExample | tests/test_quaternion_dense.py:47-51 | a `5 x 18` batch is rejected with a dimension error and no output |
| DenseScenarios.ConfigRoundTrip | tests/test_quaternion_dense.py:54-58 | a layer made from a layer's configuration has the same `units` and `use_bias`; the configuration of a layer made from a configuration is that configuration |
| DenseScenarios.FreshLayerZeroInput | tests/test_quaternion_dense.py:18-23 | a freshly built layer maps any all-zero batch to an all-zero output |
| DenseScenarios.IdentityTestAsWritten | tests/test_quaternion_dense.py:26-44 | loading `1 x 4` rows of the `4 x 4` identity as the kernels of a one-unit layer of width 4 is rejected as a shape mismatch |
| DenseScenarios.IdentityTestCorrected | tests/test_quaternion_dense.py:26-44 | loading the identity quaternion as `1 x 1` kernels succeeds, and the layer then maps the four basis quaternions to themselves |

## Left out

- Keras and TensorFlow plumbing is not modelled: `Layer` subclassing, `add_weight`, `super().build`, weight tracking and `from_config`'s internals. `Invoke` stands for the framework's "build on first use, then call".
- `glorot_uniform` initialisation is random and belongs to the framework. It becomes the `Initializer` parameter of `Build`, and nothing is assumed about the values it yields.
- float32 rounding and the tests' `1e-6` tolerances are not modelled: arithmetic is exact `real`.
- The training test (tests/test_quaternion_dense.py:61-81) is not modelled: gradients and the Adam optimiser are framework features.
- `hypercomplex_algebra/layers.py` is not modelled. It is a superseded draft with the same class name and a simplified, non-Hamilton combination; the tests import the `quaternions.py` layer.
- `__repr__` (hypercomplex_algebra/base.py:19-20) is not modelled: a debugging string.
- `setup.py` is not modelled: packaging metadata only.
- QuaternionDense.Build, QuaternionDense.Call: build's failed `assert` and call's `ValueError` are one failure outcome, `DimensionError`. As a result, which exception class surfaces first on an unbuilt layer, and its message, are not distinguished.
- QuaternionDense.Call: on a built layer, a width divisible by 4 but different from `4 * input_dim` makes the framework's matrix product fail. This is modelled as `ShapeMismatch`, not as the dimension error the documented design names for this case.
- QuaternionDense.LoadKernels models only the shape check of the framework's `set_weights`, the part the identity test depends on; it does not model replacing the bias.
- QuaternionDense.New: `units` is a `nat`, so zero units is allowed (empty outputs), as in the code, which does not check it. The documented design asks for a positive integer.
- QuaternionDense.Build accepts a last dimension of 0, since `0 % 4 == 0` in the code. The documented design asks for a positive multiple of 4.
- Hypercomplex.BinaryOp follows the code: operands with different component counts are truncated to the shorter one by `zip`. The documented design asks for a shape-mismatch error, which the code never raises.
- Hypercomplex.BinaryOp: components are reals. The code accepts any values that support `+` and `-`, such as arrays.
- Associativity of the Hamilton product and the right-hand linearity of the layer in its kernels are not stated. The forward pass only needs the left-operand facts above.

## Findings

| source | as written | input that shows it | evidently intended | confidence | as-written member | corrected member |
|---|---|---|---|---|---|---|
| tests/test_quaternion_dense.py:18-23 | asserts that a fresh four-unit layer maps a zero batch to an output that is not entirely below `1e-6` | `zeros((5, 16))` through `QuaternionDense(units=4)` | the forward pass is linear and the bias starts at zero (hypercomplex_algebra/quaternions.py:45), so a zero batch gives the bias on every row, which is all zeros for a fresh layer; the expectation should be equality with the bias rows | not executed | DenseScenarios.FreshLayerZeroInput | DenseProperties.ZeroInputGivesBias |
| tests/test_quaternion_dense.py:26-44 | loads the rows `0:1`, `1:2`, `2:3`, `3:4` of `eye(4)`, each `1 x 4`, as the kernels of a layer built for width 4 with one unit, whose kernels are `1 x 1` (hypercomplex_algebra/quaternions.py:27-28) | `set_weights` with `eye(4)[0:1, :]` … `eye(4)[3:4, :]` | load the identity quaternion as `1 x 1` kernels (`[[1]]`, `[[0]]`, `[[0]]`, `[[0]]`); the layer then maps the basis quaternions `1, i, j, k` to themselves | not executed | DenseScenarios.IdentityTestAsWritten | DenseScenarios.IdentityTestCorrected |
