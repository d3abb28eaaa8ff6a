/** What the quaternion dense layer computes, stated independently of how it computes it:
    read as quaternions, its output is a quaternion-valued matrix product of the input
    with the kernels, plus the bias. Shape, identity, linearity and bias facts follow. */
module DenseProperties {
  import opened Results
  import opened Matrix
  import opened Quaternion
  import opened QuaternionDense

  /** The quaternion held at offset `c` of the four `w`-wide blocks of row `n`. */
  function QuatAt(m: Matrix, n: nat, c: nat, w: nat): Quat
    requires n < |m| && c < w && |m[n]| == 4 * w
  {
    Quat(m[n][c], m[n][w + c], m[n][2 * w + c], m[n][3 * w + c])
  }

  /** Row `n` of a packed input, read as `d` quaternions. */
  function InputQuats(x: Matrix, n: nat, d: nat): (ps: seq<Quat>)
    requires n < |x| && |x[n]| == 4 * d
    ensures |ps| == d && forall t :: 0 <= t < d ==> ps[t] == QuatAt(x, n, t, d)
  {
    seq(d, t requires 0 <= t < d => QuatAt(x, n, t, d))
  }

  /** Column `c` of the four kernels, read as one column of quaternions. */
  function KernelColumn(w: Weights, units: nat, c: nat): (qs: seq<Quat>)
    requires WellShaped(units, w.bias.Some?, w) && c < units
    ensures |qs| == w.inputDim
    ensures forall t :: 0 <= t < w.inputDim ==>
              qs[t] == Quat(w.kernelR[t][c], w.kernelI[t][c], w.kernelJ[t][c], w.kernelK[t][c])
  {
    seq(w.inputDim, t requires 0 <= t < w.inputDim =>
      Quat(w.kernelR[t][c], w.kernelI[t][c], w.kernelJ[t][c], w.kernelK[t][c]))
  }

  /** Offset `c` of the bias, read as a quaternion; zero when the layer has no bias. */
  function BiasQuat(layer: Layer, c: nat): Quat
    requires layer.Built() && c < layer.units
  {
    if layer.useBias then
      var b, U := layer.weights.value.bias.value, layer.units;
      Quat(b[c], b[U + c], b[2 * U + c], b[3 * U + c])
    else Zero
  }

  /** Two packed matrices that agree on every quaternion are equal. */
  lemma EqualByQuats(a: Matrix, b: Matrix, rows: nat, w: nat)
    requires IsMatrix(a, rows, 4 * w) && IsMatrix(b, rows, 4 * w)
    requires forall n, c :: 0 <= n < rows && 0 <= c < w ==> QuatAt(a, n, c, w) == QuatAt(b, n, c, w)
    ensures a == b
  {
    forall n | 0 <= n < rows
      ensures a[n] == b[n]
    {
      forall p | 0 <= p < 4 * w
        ensures a[n][p] == b[n][p]
      {
        if p < w {
          assert QuatAt(a, n, p, w) == QuatAt(b, n, p, w);
        } else if p < 2 * w {
          assert QuatAt(a, n, p - w, w) == QuatAt(b, n, p - w, w);
        } else if p < 3 * w {
          assert QuatAt(a, n, p - 2 * w, w) == QuatAt(b, n, p - 2 * w, w);
        } else {
          assert QuatAt(a, n, p - 3 * w, w) == QuatAt(b, n, p - 3 * w, w);
        }
      }
    }
  }

  /** The four blocks of row `n` are the parts of that row's quaternions. */
  lemma SplitRowParts(x: Matrix, d: nat, n: nat)
    requires IsMatrix(x, |x|, 4 * d) && n < |x|
    ensures var b, ps := Split4(x, d), InputQuats(x, n, d);
            b.r[n] == Parts(ps, R) && b.i[n] == Parts(ps, I) && b.j[n] == Parts(ps, J) && b.k[n] == Parts(ps, K)
  {
    var b, ps := Split4(x, d), InputQuats(x, n, d);
    assert b.r[n] == Parts(ps, R);
    assert b.i[n] == Parts(ps, I);
    assert b.j[n] == Parts(ps, J);
    assert b.k[n] == Parts(ps, K);
  }

  /** Column `c` of each kernel is the matching part of the quaternion kernel column. */
  lemma KernelColumnParts(w: Weights, units: nat, c: nat)
    requires WellShaped(units, w.bias.Some?, w) && c < units
    ensures var qs := KernelColumn(w, units, c);
            && Column(w.kernelR, c) == Parts(qs, R) && Column(w.kernelI, c) == Parts(qs, I)
            && Column(w.kernelJ, c) == Parts(qs, J) && Column(w.kernelK, c) == Parts(qs, K)
  {
    var qs := KernelColumn(w, units, c);
    assert Column(w.kernelR, c) == Parts(qs, R);
    assert Column(w.kernelI, c) == Parts(qs, I);
    assert Column(w.kernelJ, c) == Parts(qs, J);
    assert Column(w.kernelK, c) == Parts(qs, K);
  }

  /** Entry `(n, c)` of the four Hamilton blocks is the quaternion dot product of row `n`
      of the input with column `c` of the kernels. */
  lemma HamiltonEntry(x: Matrix, width: nat, w: Weights, units: nat, n: nat, c: nat)
    requires WellShaped(units, w.bias.Some?, w) && IsMatrix(x, |x|, width) && width == 4 * w.inputDim
    requires n < |x| && c < units
    ensures var o := HamiltonBlocks(Split4(x, w.inputDim), w, units);
            Quat(o.r[n][c], o.i[n][c], o.j[n][c], o.k[n][c])
            == QDot(InputQuats(x, n, w.inputDim), KernelColumn(w, units, c))
  {
    SplitRowParts(x, w.inputDim, n);
    KernelColumnParts(w, units, c);
    QDotParts(InputQuats(x, n, w.inputDim), KernelColumn(w, units, c));
  }

  /** Concatenating blocks of width `w` puts entry `c` of block q at offset `q * w + c`. */
  lemma ConcatQuat(o: Blocks, w: nat, n: nat, c: nat)
    requires BlocksShaped(o, |o.r|, w) && n < |o.r| && c < w
    ensures |Concat4(o)[n]| == 4 * w
    ensures QuatAt(Concat4(o), n, c, w) == Quat(o.r[n][c], o.i[n][c], o.j[n][c], o.k[n][c])
  {
    assert Concat4(o)[n] == o.r[n] + o.i[n] + o.j[n] + o.k[n];
  }

  /** Adding a bias adds its quaternions to every row's quaternions. */
  lemma BiasAddQuat(m: Matrix, v: Vector, w: nat, n: nat, c: nat)
    requires IsMatrix(m, |m|, |v|) && |v| == 4 * w && n < |m| && c < w
    ensures QuatAt(BiasAdd(m, v), n, c, w) == Plus(QuatAt(m, n, c, w), Quat(v[c], v[w + c], v[2 * w + c], v[3 * w + c]))
  {
  }

  /** One quaternion of the concatenated Hamilton blocks, before the bias. */
  lemma ProductEntry(x: Matrix, w: Weights, units: nat, n: nat, c: nat)
    requires WellShaped(units, w.bias.Some?, w) && IsMatrix(x, |x|, 4 * w.inputDim)
    requires n < |x| && c < units
    ensures var out := Concat4(HamiltonBlocks(Split4(x, w.inputDim), w, units));
            |out| == |x| && |out[n]| == 4 * units
            && QuatAt(out, n, c, units) == QDot(InputQuats(x, n, w.inputDim), KernelColumn(w, units, c))
  {
    var o := HamiltonBlocks(Split4(x, w.inputDim), w, units);
    HamiltonEntry(x, 4 * w.inputDim, w, units, n, c);
    ConcatQuat(o, units, n, c);
  }

  /** What the bias step does to one quaternion of any product `out`. */
  lemma BiasStepQuat(layer: Layer, out: Matrix, n: nat, c: nat)
    requires layer.Built() && IsMatrix(out, |out|, 4 * layer.units) && n < |out| && c < layer.units
    ensures var m := if layer.useBias then BiasAdd(out, layer.weights.value.bias.value) else out;
            |m| == |out| && |m[n]| == 4 * layer.units
            && QuatAt(m, n, c, layer.units) == Plus(QuatAt(out, n, c, layer.units), BiasQuat(layer, c))
  {
    if layer.useBias {
      BiasAddQuat(out, layer.weights.value.bias.value, layer.units, n, c);
    }
  }

  /** The forward pass on a batch of the built width, step by step. */
  lemma CallSteps(layer: Layer, x: Matrix, width: nat)
    requires layer.Built() && IsMatrix(x, |x|, width) && width == 4 * layer.weights.value.inputDim
    ensures var w := layer.weights.value;
            var out := Concat4(HamiltonBlocks(Split4(x, w.inputDim), w, layer.units));
            Call(layer, x, width) == Ok(if layer.useBias then BiasAdd(out, w.bias.value) else out)
  {
  }

  /** One output quaternion of the forward pass. */
  lemma CallEntry(layer: Layer, x: Matrix, width: nat, n: nat, c: nat)
    requires layer.Built() && IsMatrix(x, |x|, width) && width == 4 * layer.weights.value.inputDim
    requires n < |x| && c < layer.units
    ensures Call(layer, x, width).Ok?
    ensures QuatAt(Call(layer, x, width).value, n, c, layer.units)
            == Plus(QDot(InputQuats(x, n, layer.weights.value.inputDim), KernelColumn(layer.weights.value, layer.units, c)),
                    BiasQuat(layer, c))
  {
    var w, U := layer.weights.value, layer.units;
    var out := Concat4(HamiltonBlocks(Split4(x, w.inputDim), w, U));
    CallSteps(layer, x, width);
    ProductEntry(x, w, U, n, c);
    BiasStepQuat(layer, out, n, c);
  }

  /** The forward pass is the quaternion-valued matrix product: output quaternion `(n, c)`
      is the sum over `t` of the Hamilton products `input(n, t) * kernel(t, c)`, with the
      input on the left, plus bias quaternion `c`. Together with the shape in `Call`'s
      contract this fixes every output entry. */
  lemma CallIsQuaternionProduct(layer: Layer, x: Matrix, width: nat)
    requires layer.Built() && IsMatrix(x, |x|, width) && width == 4 * layer.weights.value.inputDim
    ensures Call(layer, x, width).Ok?
    ensures forall n, c :: 0 <= n < |x| && 0 <= c < layer.units ==>
              QuatAt(Call(layer, x, width).value, n, c, layer.units)
              == Plus(QDot(InputQuats(x, n, layer.weights.value.inputDim), KernelColumn(layer.weights.value, layer.units, c)),
                      BiasQuat(layer, c))
  {
    forall n, c | 0 <= n < |x| && 0 <= c < layer.units {
      CallEntry(layer, x, width, n, c);
    }
  }

  /** Splitting a batch into its r, i, j, k blocks and concatenating them gives it back. */
  lemma SplitThenConcat(x: Matrix, d: nat)
    requires IsMatrix(x, |x|, 4 * d)
    ensures Concat4(Split4(x, d)) == x
  {
    var b := Split4(x, d);
    forall n | 0 <= n < |x|
      ensures Concat4(b)[n] == x[n]
    {
      assert x[n] == x[n][..d] + x[n][d..2 * d] + x[n][2 * d..3 * d] + x[n][3 * d..];
    }
  }

  /** Concatenating four equally wide blocks and splitting the result gives them back. */
  lemma ConcatThenSplit(b: Blocks, rows: nat, d: nat)
    requires BlocksShaped(b, rows, d)
    ensures IsMatrix(Concat4(b), rows, 4 * d)
    ensures Split4(Concat4(b), d) == b
  {
    var x := Concat4(b);
    var s := Split4(x, d);
    forall n | 0 <= n < rows
      ensures s.r[n] == b.r[n] && s.i[n] == b.i[n] && s.j[n] == b.j[n] && s.k[n] == b.k[n]
    {
      assert x[n] == b.r[n] + b.i[n] + b.j[n] + b.k[n];
      assert s.i[n] == x[n][d..2 * d];
    }
  }

  /** Reading quaternions commutes with elementwise sums and scaling of packed matrices. */
  lemma QuatAtLinear(a: Matrix, b: Matrix, s: real, n: nat, c: nat, w: nat)
    requires IsMatrix(a, |a|, 4 * w) && IsMatrix(b, |a|, 4 * w) && n < |a| && c < w
    ensures QuatAt(MatAdd(a, b), n, c, w) == Plus(QuatAt(a, n, c, w), QuatAt(b, n, c, w))
    ensures QuatAt(MatScale(s, a), n, c, w) == Scale(s, QuatAt(a, n, c, w))
  {
  }

  /** Reading quaternions commutes with elementwise sums and scaling. */
  lemma InputQuatsAdd(x: Matrix, y: Matrix, n: nat, d: nat)
    requires IsMatrix(x, |x|, 4 * d) && IsMatrix(y, |x|, 4 * d) && n < |x|
    ensures InputQuats(MatAdd(x, y), n, d) == PlusAll(InputQuats(x, n, d), InputQuats(y, n, d))
  {
    var s := MatAdd(x, y);
    forall t | 0 <= t < d
      ensures InputQuats(s, n, d)[t] == PlusAll(InputQuats(x, n, d), InputQuats(y, n, d))[t]
    {
      QuatAtLinear(x, y, 1.0, n, t, d);
    }
  }

  lemma InputQuatsScale(a: real, x: Matrix, n: nat, d: nat)
    requires IsMatrix(x, |x|, 4 * d) && n < |x|
    ensures InputQuats(MatScale(a, x), n, d) == ScaleAll(a, InputQuats(x, n, d))
  {
    var s := MatScale(a, x);
    forall t | 0 <= t < d
      ensures InputQuats(s, n, d)[t] == ScaleAll(a, InputQuats(x, n, d))[t]
    {
      QuatAtLinear(x, x, a, n, t, d);
    }
  }

  /** Every quaternion of an all-zero batch is zero. */
  lemma InputQuatsZero(rows: nat, n: nat, d: nat)
    requires n < rows
    ensures forall t :: 0 <= t < d ==> InputQuats(Zeros(rows, 4 * d), n, d)[t] == Zero
  {
  }

  /** Output quaternion `(n, c)` of a sum is the sum of the output quaternions. */
  lemma AdditiveEntry(layer: Layer, x: Matrix, y: Matrix, n: nat, c: nat)
    requires layer.Built() && !layer.useBias
    requires var d := layer.weights.value.inputDim; IsMatrix(x, |x|, 4 * d) && IsMatrix(y, |x|, 4 * d)
    requires n < |x| && c < layer.units
    ensures var width := 4 * layer.weights.value.inputDim;
            Call(layer, x, width).Ok? && Call(layer, y, width).Ok? && Call(layer, MatAdd(x, y), width).Ok?
    ensures var width, U := 4 * layer.weights.value.inputDim, layer.units;
            var fx, fy := Call(layer, x, width).value, Call(layer, y, width).value;
            QuatAt(Call(layer, MatAdd(x, y), width).value, n, c, U) == QuatAt(MatAdd(fx, fy), n, c, U)
  {
    var w, U := layer.weights.value, layer.units;
    var d := w.inputDim;
    CallEntry(layer, x, 4 * d, n, c);
    CallEntry(layer, y, 4 * d, n, c);
    CallEntry(layer, MatAdd(x, y), 4 * d, n, c);
    InputQuatsAdd(x, y, n, d);
    QDotAddLeft(InputQuats(x, n, d), InputQuats(y, n, d), KernelColumn(w, U, c));
    QuatAtLinear(Call(layer, x, 4 * d).value, Call(layer, y, 4 * d).value, 1.0, n, c, U);
  }

  /** Without a bias the forward pass is additive: `f(x + y) = f(x) + f(y)`. */
  lemma CallAdditive(layer: Layer, x: Matrix, y: Matrix, width: nat)
    requires layer.Built() && !layer.useBias
    requires IsMatrix(x, |x|, width) && IsMatrix(y, |x|, width)
    ensures Call(layer, MatAdd(x, y), width).Ok? == Call(layer, x, width).Ok?
    ensures Call(layer, x, width).Ok? ==>
              Call(layer, MatAdd(x, y), width) == Ok(MatAdd(Call(layer, x, width).value, Call(layer, y, width).value))
  {
    if width == 4 * layer.weights.value.inputDim {
      AdditiveOk(layer, x, y);
    }
  }

  lemma AdditiveOk(layer: Layer, x: Matrix, y: Matrix)
    requires layer.Built() && !layer.useBias
    requires var d := layer.weights.value.inputDim; IsMatrix(x, |x|, 4 * d) && IsMatrix(y, |x|, 4 * d)
    ensures var width := 4 * layer.weights.value.inputDim;
            Call(layer, x, width).Ok? && Call(layer, y, width).Ok? &&
            Call(layer, MatAdd(x, y), width) == Ok(MatAdd(Call(layer, x, width).value, Call(layer, y, width).value))
  {
    var U, width := layer.units, 4 * layer.weights.value.inputDim;
    var fx, fy, fs := Call(layer, x, width).value, Call(layer, y, width).value, Call(layer, MatAdd(x, y), width).value;
    forall n, c | 0 <= n < |x| && 0 <= c < U
      ensures QuatAt(fs, n, c, U) == QuatAt(MatAdd(fx, fy), n, c, U)
    {
      AdditiveEntry(layer, x, y, n, c);
    }
    EqualByQuats(fs, MatAdd(fx, fy), |x|, U);
  }

  /** Output quaternion `(n, c)` of a scaled batch is the scaled output quaternion. */
  lemma HomogeneousEntry(layer: Layer, a: real, x: Matrix, n: nat, c: nat)
    requires layer.Built() && !layer.useBias
    requires IsMatrix(x, |x|, 4 * layer.weights.value.inputDim)
    requires n < |x| && c < layer.units
    ensures var width := 4 * layer.weights.value.inputDim;
            Call(layer, x, width).Ok? && Call(layer, MatScale(a, x), width).Ok?
    ensures var width, U := 4 * layer.weights.value.inputDim, layer.units;
            QuatAt(Call(layer, MatScale(a, x), width).value, n, c, U)
            == QuatAt(MatScale(a, Call(layer, x, width).value), n, c, U)
  {
    var w, U := layer.weights.value, layer.units;
    var d := w.inputDim;
    CallEntry(layer, x, 4 * d, n, c);
    CallEntry(layer, MatScale(a, x), 4 * d, n, c);
    InputQuatsScale(a, x, n, d);
    QDotScaleLeft(a, InputQuats(x, n, d), KernelColumn(w, U, c));
    QuatAtLinear(Call(layer, x, 4 * d).value, Call(layer, x, 4 * d).value, a, n, c, U);
  }

  lemma HomogeneousOk(layer: Layer, a: real, x: Matrix)
    requires layer.Built() && !layer.useBias
    requires IsMatrix(x, |x|, 4 * layer.weights.value.inputDim)
    ensures var width := 4 * layer.weights.value.inputDim;
            Call(layer, x, width).Ok? &&
            Call(layer, MatScale(a, x), width) == Ok(MatScale(a, Call(layer, x, width).value))
  {
    var U, width := layer.units, 4 * layer.weights.value.inputDim;
    var fx, fs := Call(layer, x, width).value, Call(layer, MatScale(a, x), width).value;
    forall n, c | 0 <= n < |x| && 0 <= c < U
      ensures QuatAt(fs, n, c, U) == QuatAt(MatScale(a, fx), n, c, U)
    {
      HomogeneousEntry(layer, a, x, n, c);
    }
    EqualByQuats(fs, MatScale(a, fx), |x|, U);
  }

  /** Without a bias the forward pass is homogeneous: `f(a * x) = a * f(x)`. */
  lemma CallHomogeneous(layer: Layer, a: real, x: Matrix, width: nat)
    requires layer.Built() && !layer.useBias
    requires IsMatrix(x, |x|, width)
    ensures Call(layer, MatScale(a, x), width).Ok? == Call(layer, x, width).Ok?
    ensures Call(layer, x, width).Ok? ==>
              Call(layer, MatScale(a, x), width) == Ok(MatScale(a, Call(layer, x, width).value))
  {
    if width == 4 * layer.weights.value.inputDim {
      HomogeneousOk(layer, a, x);
    }
  }

  /** The same layer with its bias switched off and removed. */
  function WithoutBias(layer: Layer): (l: Layer)
    requires layer.Built()
    ensures l.Built() && !l.useBias && l.units == layer.units
  {
    layer.(useBias := false, weights := Some(layer.weights.value.(bias := None)))
  }

  /** With a bias, the forward pass is the bias-free result with the bias added to every row. */
  lemma BiasIsRowOffset(layer: Layer, x: Matrix, width: nat)
    requires layer.Built() && layer.useBias && IsMatrix(x, |x|, width)
    ensures Call(layer, x, width).Ok? == Call(WithoutBias(layer), x, width).Ok?
    ensures Call(layer, x, width).Ok? ==>
              Call(layer, x, width).value == BiasAdd(Call(WithoutBias(layer), x, width).value, layer.weights.value.bias.value)
  {
    var w, U := layer.weights.value, layer.units;
    if width == 4 * w.inputDim {
      var b := Split4(x, w.inputDim);
      assert HamiltonBlocks(b, w, U) == HamiltonBlocks(b, WithoutBias(layer).weights.value, U);
    }
  }

  /** Every row equal to the bias, or all zeros for a layer without one. */
  function BiasRows(layer: Layer, rows: nat): (m: Matrix)
    requires layer.Built()
    ensures IsMatrix(m, rows, 4 * layer.units)
  {
    if layer.useBias then seq(rows, _ => layer.weights.value.bias.value) else Zeros(rows, 4 * layer.units)
  }

  lemma BiasRowsQuat(layer: Layer, rows: nat, n: nat, c: nat)
    requires layer.Built() && n < rows && c < layer.units
    ensures QuatAt(BiasRows(layer, rows), n, c, layer.units) == BiasQuat(layer, c)
  {
  }

  /** Output quaternion `(n, c)` of an all-zero batch is bias quaternion `c`. */
  lemma ZeroInputEntry(layer: Layer, rows: nat, n: nat, c: nat)
    requires layer.Built() && n < rows && c < layer.units
    ensures var d := layer.weights.value.inputDim;
            && Call(layer, Zeros(rows, 4 * d), 4 * d).Ok?
            && QuatAt(Call(layer, Zeros(rows, 4 * d), 4 * d).value, n, c, layer.units)
               == QuatAt(BiasRows(layer, rows), n, c, layer.units)
  {
    var w := layer.weights.value;
    var x := Zeros(rows, 4 * w.inputDim);
    CallEntry(layer, x, 4 * w.inputDim, n, c);
    InputQuatsZero(rows, n, w.inputDim);
    QDotZeroLeft(InputQuats(x, n, w.inputDim), KernelColumn(w, layer.units, c));
    BiasRowsQuat(layer, rows, n, c);
  }

  /** An all-zero batch is mapped to the bias on every row, whatever the kernels. */
  lemma ZeroInputGivesBias(layer: Layer, rows: nat)
    requires layer.Built()
    ensures var d := layer.weights.value.inputDim;
            Call(layer, Zeros(rows, 4 * d), 4 * d) == Ok(BiasRows(layer, rows))
  {
    var d, U := layer.weights.value.inputDim, layer.units;
    var y := Call(layer, Zeros(rows, 4 * d), 4 * d).value;
    forall n, c | 0 <= n < rows && 0 <= c < U
      ensures QuatAt(y, n, c, U) == QuatAt(BiasRows(layer, rows), n, c, U)
    {
      ZeroInputEntry(layer, rows, n, c);
    }
    EqualByQuats(y, BiasRows(layer, rows), rows, U);
  }

  /** Output quaternion `(n, c)` under identity-quaternion kernels is input quaternion `(n, c)`. */
  lemma IdentityEntry(layer: Layer, x: Matrix, n: nat, c: nat)
    requires layer.Built() && !layer.useBias
    requires var w := layer.weights.value;
             && layer.units == w.inputDim
             && w.kernelR == Identity(w.inputDim)
             && w.kernelI == Zeros(w.inputDim, w.inputDim)
             && w.kernelJ == Zeros(w.inputDim, w.inputDim)
             && w.kernelK == Zeros(w.inputDim, w.inputDim)
    requires IsMatrix(x, |x|, 4 * layer.weights.value.inputDim) && n < |x| && c < layer.units
    ensures var d := layer.weights.value.inputDim;
            && Call(layer, x, 4 * d).Ok?
            && QuatAt(Call(layer, x, 4 * d).value, n, c, d) == QuatAt(x, n, c, d)
  {
    var w := layer.weights.value;
    var d := w.inputDim;
    CallEntry(layer, x, 4 * d, n, c);
    QDotUnitRight(InputQuats(x, n, d), KernelColumn(w, d, c), c);
  }

  /** Kernels holding the identity quaternion (`K_r` the identity matrix, the others zero)
      and no bias: the forward pass returns its input unchanged. */
  lemma IdentityKernels(layer: Layer, x: Matrix)
    requires layer.Built() && !layer.useBias
    requires var w := layer.weights.value;
             && layer.units == w.inputDim
             && w.kernelR == Identity(w.inputDim)
             && w.kernelI == Zeros(w.inputDim, w.inputDim)
             && w.kernelJ == Zeros(w.inputDim, w.inputDim)
             && w.kernelK == Zeros(w.inputDim, w.inputDim)
    requires IsMatrix(x, |x|, 4 * layer.weights.value.inputDim)
    ensures Call(layer, x, 4 * layer.weights.value.inputDim) == Ok(x)
  {
    var d := layer.weights.value.inputDim;
    var y := Call(layer, x, 4 * d).value;
    forall n, c | 0 <= n < |x| && 0 <= c < d
      ensures QuatAt(y, n, c, d) == QuatAt(x, n, c, d)
    {
      IdentityEntry(layer, x, n, c);
    }
    EqualByQuats(y, x, |x|, d);
  }

  /** The four entries of a packed row, and back. */
  function RowQuat(v: Vector): Quat
    requires |v| == 4
  {
    Quat(v[0], v[1], v[2], v[3])
  }

  function QuatRow(q: Quat): (v: Vector)
    ensures |v| == 4 && RowQuat(v) == q
  {
    [q.r, q.i, q.j, q.k]
  }

  /** The single kernel quaternion of a layer with `1 x 1` kernels. */
  function KernelQuat(layer: Layer): Quat
    requires layer.Built() && layer.units == 1 && layer.weights.value.inputDim == 1
  {
    var w := layer.weights.value;
    Quat(w.kernelR[0][0], w.kernelI[0][0], w.kernelJ[0][0], w.kernelK[0][0])
  }

  /** With `1 x 1` kernels and no bias, each output row is the Hamilton product of the
      input row (left) and the kernel quaternion (right). */
  lemma UnitKernelRow(layer: Layer, x: Matrix, n: nat)
    requires layer.Built() && !layer.useBias && layer.units == 1 && layer.weights.value.inputDim == 1
    requires IsMatrix(x, |x|, 4) && n < |x|
    ensures Call(layer, x, 4).Ok?
    ensures Call(layer, x, 4).value[n] == QuatRow(Hamilton(RowQuat(x[n]), KernelQuat(layer)))
  {
    var w := layer.weights.value;
    CallEntry(layer, x, 4, n, 0);
    var ps, qs := InputQuats(x, n, 1), KernelColumn(w, 1, 0);
    assert ps == [RowQuat(x[n])];
    assert qs == [KernelQuat(layer)];
    assert QDot(ps, qs) == Plus(Hamilton(ps[0], qs[0]), QDot([], []));
    var y := Call(layer, x, 4).value;
    assert y[n] == QuatRow(QuatAt(y, n, 0, 1));
  }

  lemma UnitKernelIsHamiltonProduct(layer: Layer, x: Matrix)
    requires layer.Built() && !layer.useBias && layer.units == 1 && layer.weights.value.inputDim == 1
    requires IsMatrix(x, |x|, 4)
    ensures Call(layer, x, 4).Ok?
    ensures forall n :: 0 <= n < |x| ==>
              Call(layer, x, 4).value[n] == QuatRow(Hamilton(RowQuat(x[n]), KernelQuat(layer)))
  {
    forall n | 0 <= n < |x|
      ensures Call(layer, x, 4).value[n] == QuatRow(Hamilton(RowQuat(x[n]), KernelQuat(layer)))
    {
      UnitKernelRow(layer, x, n);
    }
  }

  /** A batch holding one quaternion `p` is mapped to the batch holding `p * kernel`. */
  lemma SingleQuaternion(layer: Layer, p: Quat)
    requires layer.Built() && !layer.useBias && layer.units == 1 && layer.weights.value.inputDim == 1
    ensures Call(layer, [QuatRow(p)], 4) == Ok([QuatRow(Hamilton(p, KernelQuat(layer)))])
  {
    SingleRow(layer, [QuatRow(p)]);
  }

  lemma SingleRow(layer: Layer, x: Matrix)
    requires layer.Built() && !layer.useBias && layer.units == 1 && layer.weights.value.inputDim == 1
    requires IsMatrix(x, 1, 4)
    ensures Call(layer, x, 4) == Ok([QuatRow(Hamilton(RowQuat(x[0]), KernelQuat(layer)))])
  {
    UnitKernelRow(layer, x, 0);
    var y := Call(layer, x, 4).value;
    assert |y| == 1;
    assert y == [y[0]];
  }

  /** With kernel `j`, the batch holding `i` is mapped to the batch holding `k` (i * j = k). */
  lemma UnitKernelIJ(layer: Layer)
    requires layer.Built() && !layer.useBias && layer.units == 1 && layer.weights.value.inputDim == 1
    requires KernelQuat(layer) == UnitJ
    ensures Call(layer, [QuatRow(UnitI)], 4) == Ok([QuatRow(UnitK)])
  {
    SingleQuaternion(layer, UnitI);
    assert Hamilton(UnitI, UnitJ) == UnitK;
  }

  /** With kernel `i`, the batch holding `j` is mapped to the batch holding `-k` (j * i = -k). */
  lemma UnitKernelJI(layer: Layer)
    requires layer.Built() && !layer.useBias && layer.units == 1 && layer.weights.value.inputDim == 1
    requires KernelQuat(layer) == UnitI
    ensures Call(layer, [QuatRow(UnitJ)], 4) == Ok([QuatRow(Neg(UnitK))])
  {
    SingleQuaternion(layer, UnitJ);
    assert Hamilton(UnitJ, UnitI) == Neg(UnitK);
  }

  /** With kernel `i`, the batch holding `i` is mapped to the batch holding `-1` (i * i = -1). */
  lemma UnitKernelII(layer: Layer)
    requires layer.Built() && !layer.useBias && layer.units == 1 && layer.weights.value.inputDim == 1
    requires KernelQuat(layer) == UnitI
    ensures Call(layer, [QuatRow(UnitI)], 4) == Ok([QuatRow(Neg(One))])
  {
    SingleQuaternion(layer, UnitI);
    assert Hamilton(UnitI, UnitI) == Neg(One);
  }
}
