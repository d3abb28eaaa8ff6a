/** The quaternion dense layer: a batched linear map from `4 * inputDim` packed real
    features `[r | i | j | k]` to `4 * units` packed outputs, whose four kernels are
    combined by the Hamilton product instead of one plain matrix product.

    The layer is either unbuilt (no weights, input width unknown) or built (four kernels
    of shape `(inputDim, units)` and, with `useBias`, a bias of length `4 * units`).
    The batch dimension is flattened: an input is a matrix with one row per example. */
module QuaternionDense {
  import opened Results
  import opened Matrix

  /** The initial value of kernel `q` (0 = r, 1 = i, 2 = j, 3 = k) at row `t`, column `c`:
      stands for the random initialiser, which is not modelled. */
  type Initializer = (nat, nat, nat) -> real

  datatype Weights = Weights(
    inputDim: nat,
    kernelR: Matrix, kernelI: Matrix, kernelJ: Matrix, kernelK: Matrix,
    bias: Option<Vector>)

  datatype Layer = Layer(units: nat, useBias: bool, weights: Option<Weights>)
  {
    /** Weights have been allocated and have the shapes the layer's configuration demands. */
    predicate Built()
    {
      weights.Some? && WellShaped(units, useBias, weights.value)
    }

    /** Either still unbuilt, or built with consistent shapes. */
    predicate Valid()
    {
      weights.Some? ==> Built()
    }
  }

  /** All four kernels are `(inputDim, units)`; a bias exists exactly when `useBias`,
      and then has length `4 * units`. */
  predicate WellShaped(units: nat, useBias: bool, w: Weights)
  {
    && IsMatrix(w.kernelR, w.inputDim, units)
    && IsMatrix(w.kernelI, w.inputDim, units)
    && IsMatrix(w.kernelJ, w.inputDim, units)
    && IsMatrix(w.kernelK, w.inputDim, units)
    && (w.bias.Some? <==> useBias)
    && (w.bias.Some? ==> |w.bias.value| == 4 * units)
  }

  /** The options a layer can be rebuilt from. */
  datatype Config = Config(units: nat, useBias: bool)

  /** A fresh, unbuilt layer; the bias is on unless asked otherwise. */
  function New(units: nat, useBias: bool := true): (l: Layer)
    ensures l.units == units && l.useBias == useBias
    ensures l.Valid() && !l.Built()
  {
    Layer(units, useBias, None)
  }

  function InitKernel(init: Initializer, q: nat, rows: nat, cols: nat): (m: Matrix)
    ensures IsMatrix(m, rows, cols)
  {
    seq(rows, t requires 0 <= t < rows => seq(cols, c requires 0 <= c < cols => init(q, t, c)))
  }

  /** Allocates the weights for inputs whose last dimension is `lastDim`. */
  function Build(layer: Layer, lastDim: nat, init: Initializer): (r: Result<Layer>)
    ensures r.Err? <==> lastDim % 4 != 0
    ensures r.Err? ==> r.error == DimensionError
    ensures r.Ok? ==> && r.value.Built()
                      && r.value.units == layer.units
                      && r.value.useBias == layer.useBias
                      && r.value.weights.value.inputDim * 4 == lastDim
    ensures r.Ok? && !layer.useBias ==> r.value.weights.value.bias == None
    ensures r.Ok? && layer.useBias ==>
              && |r.value.weights.value.bias.value| == 4 * layer.units
              && forall p :: 0 <= p < 4 * layer.units ==> r.value.weights.value.bias.value[p] == 0.0
  {
    if lastDim % 4 != 0 then Err(DimensionError)
    else
      var inputDim := lastDim / 4;
      var bias := if layer.useBias then Some(seq(4 * layer.units, _ => 0.0)) else None;
      Ok(Layer(layer.units, layer.useBias, Some(Weights(
        inputDim,
        InitKernel(init, 0, inputDim, layer.units),
        InitKernel(init, 1, inputDim, layer.units),
        InitKernel(init, 2, inputDim, layer.units),
        InitKernel(init, 3, inputDim, layer.units),
        bias))))
  }

  /** The four quaternion components of a batch, each a matrix with one row per example. */
  datatype Blocks = Blocks(r: Matrix, i: Matrix, j: Matrix, k: Matrix)

  predicate BlocksShaped(b: Blocks, rows: nat, cols: nat)
  {
    IsMatrix(b.r, rows, cols) && IsMatrix(b.i, rows, cols)
    && IsMatrix(b.j, rows, cols) && IsMatrix(b.k, rows, cols)
  }

  /** Splits every row of `4 * d` entries into four contiguous blocks of `d`, in the order
      r, i, j, k. */
  function Split4(x: Matrix, d: nat): (b: Blocks)
    requires IsMatrix(x, |x|, 4 * d)
    ensures BlocksShaped(b, |x|, d)
    ensures forall n, t :: 0 <= n < |x| && 0 <= t < d ==>
              && b.r[n][t] == x[n][t]
              && b.i[n][t] == x[n][d + t]
              && b.j[n][t] == x[n][2 * d + t]
              && b.k[n][t] == x[n][3 * d + t]
  {
    Blocks(SliceCols(x, 0, d), SliceCols(x, d, 2 * d), SliceCols(x, 2 * d, 3 * d), SliceCols(x, 3 * d, 4 * d))
  }

  /** Joins the four blocks of every row back into one row. */
  function Concat4(b: Blocks): (x: Matrix)
    requires |b.r| == |b.i| == |b.j| == |b.k|
    ensures |x| == |b.r|
    ensures forall n :: 0 <= n < |x| ==> x[n] == b.r[n] + b.i[n] + b.j[n] + b.k[n]
  {
    seq(|b.r|, n requires 0 <= n < |b.r| => b.r[n] + b.i[n] + b.j[n] + b.k[n])
  }

  /** The Hamilton-product combination of input blocks (left operand) with kernels
      (right operand), each scalar product becoming a matrix product. */
  function HamiltonBlocks(b: Blocks, w: Weights, units: nat): (o: Blocks)
    requires BlocksShaped(b, |b.r|, w.inputDim)
    requires WellShaped(units, w.bias.Some?, w)
    ensures BlocksShaped(o, |b.r|, units)
    ensures forall n, c :: 0 <= n < |b.r| && 0 <= c < units ==>
              var R, I, J, K := b.r[n], b.i[n], b.j[n], b.k[n];
              && o.r[n][c] == Dot(R, Column(w.kernelR, c)) - Dot(I, Column(w.kernelI, c))
                              - Dot(J, Column(w.kernelJ, c)) - Dot(K, Column(w.kernelK, c))
              && o.i[n][c] == Dot(R, Column(w.kernelI, c)) + Dot(I, Column(w.kernelR, c))
                              + Dot(J, Column(w.kernelK, c)) - Dot(K, Column(w.kernelJ, c))
              && o.j[n][c] == Dot(R, Column(w.kernelJ, c)) - Dot(I, Column(w.kernelK, c))
                              + Dot(J, Column(w.kernelR, c)) + Dot(K, Column(w.kernelI, c))
              && o.k[n][c] == Dot(R, Column(w.kernelK, c)) + Dot(I, Column(w.kernelJ, c))
                              - Dot(J, Column(w.kernelI, c)) + Dot(K, Column(w.kernelR, c))
  {
    var U := units;
    Blocks(
      MatSub(MatSub(MatSub(MatMul(b.r, w.kernelR, U), MatMul(b.i, w.kernelI, U)), MatMul(b.j, w.kernelJ, U)), MatMul(b.k, w.kernelK, U)),
      MatSub(MatAdd(MatAdd(MatMul(b.r, w.kernelI, U), MatMul(b.i, w.kernelR, U)), MatMul(b.j, w.kernelK, U)), MatMul(b.k, w.kernelJ, U)),
      MatAdd(MatAdd(MatSub(MatMul(b.r, w.kernelJ, U), MatMul(b.i, w.kernelK, U)), MatMul(b.j, w.kernelR, U)), MatMul(b.k, w.kernelI, U)),
      MatAdd(MatSub(MatAdd(MatMul(b.r, w.kernelK, U), MatMul(b.i, w.kernelJ, U)), MatMul(b.j, w.kernelI, U)), MatMul(b.k, w.kernelR, U)))
  }

  /** The forward pass of a built layer on a batch `x` whose rows have `width` entries. */
  function Call(layer: Layer, x: Matrix, width: nat): (r: Result<Matrix>)
    requires layer.Built() && IsMatrix(x, |x|, width)
    ensures width % 4 != 0 ==> r == Err(DimensionError)
    ensures width % 4 == 0 && width / 4 != layer.weights.value.inputDim ==> r == Err(ShapeMismatch)
    ensures width == 4 * layer.weights.value.inputDim ==> r.Ok? && IsMatrix(r.value, |x|, 4 * layer.units)
  {
    if width % 4 != 0 then Err(DimensionError)
    else
      var w := layer.weights.value;
      if width / 4 != w.inputDim then Err(ShapeMismatch)
      else
        var output := Concat4(HamiltonBlocks(Split4(x, w.inputDim), w, layer.units));
        if layer.useBias then Ok(BiasAdd(output, w.bias.value)) else Ok(output)
  }

  /** Applying a layer to a batch: builds it from the batch's width on first use, then
      runs the forward pass. */
  function Invoke(layer: Layer, x: Matrix, width: nat, init: Initializer): (r: Result<(Layer, Matrix)>)
    requires layer.Valid() && IsMatrix(x, |x|, width)
    ensures width % 4 != 0 ==> r == Err(DimensionError)
    ensures !layer.Built() && width % 4 == 0 ==> r.Ok?
    ensures layer.Built() && width % 4 == 0 ==>
              if width == 4 * layer.weights.value.inputDim then r.Ok? else r == Err(ShapeMismatch)
    ensures r.Ok? ==> && r.value.0.Built()
                      && r.value.0.units == layer.units
                      && r.value.0.useBias == layer.useBias
                      && Call(r.value.0, x, width) == Ok(r.value.1)
                      && IsMatrix(r.value.1, |x|, 4 * layer.units)
    ensures layer.Built() && r.Ok? ==> r.value.0 == layer
  {
    var built := if layer.Built() then Ok(layer) else Build(layer, width, init);
    if built.Err? then Err(built.error)
    else
      var y := Call(built.value, x, width);
      if y.Err? then Err(y.error) else Ok((built.value, y.value))
  }

  /** Replaces the four kernels, rejecting any whose shape differs from the built one. */
  function LoadKernels(layer: Layer, kr: Matrix, ki: Matrix, kj: Matrix, kk: Matrix): (r: Result<Layer>)
    requires layer.Built()
    ensures r.Ok? <==> var w := layer.weights.value;
              && IsMatrix(kr, w.inputDim, layer.units) && IsMatrix(ki, w.inputDim, layer.units)
              && IsMatrix(kj, w.inputDim, layer.units) && IsMatrix(kk, w.inputDim, layer.units)
    ensures r.Err? ==> r.error == ShapeMismatch
    ensures r.Ok? ==> && r.value.Built()
                      && r.value.units == layer.units && r.value.useBias == layer.useBias
                      && r.value.weights.value == layer.weights.value.(kernelR := kr, kernelI := ki, kernelJ := kj, kernelK := kk)
  {
    var w := layer.weights.value;
    if && IsMatrix(kr, w.inputDim, layer.units) && IsMatrix(ki, w.inputDim, layer.units)
       && IsMatrix(kj, w.inputDim, layer.units) && IsMatrix(kk, w.inputDim, layer.units)
    then Ok(layer.(weights := Some(w.(kernelR := kr, kernelI := ki, kernelJ := kj, kernelK := kk))))
    else Err(ShapeMismatch)
  }

  function GetConfig(layer: Layer): (c: Config)
    ensures c.units == layer.units && c.useBias == layer.useBias
  {
    Config(layer.units, layer.useBias)
  }

  /** A fresh, unbuilt layer with the recorded options. */
  function FromConfig(c: Config): (l: Layer)
    ensures l.units == c.units && l.useBias == c.useBias && !l.Built() && l.Valid()
  {
    New(c.units, c.useBias)
  }
}
