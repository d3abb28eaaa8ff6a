/** The layer's documented usage scenarios, stated over every input of the given shapes:
    output shape, rejection of a width not divisible by four, configuration round trip,
    and the two scenarios whose stated expectations the layer does not meet. */
module DenseScenarios {
  import opened Results
  import opened Matrix
  import opened QuaternionDense
  import opened DenseProperties

  /** Eight units on a batch of ten rows of sixteen features: ten rows of thirty-two. */
  lemma OutputShapeExample(x: Matrix, init: Initializer)
    requires IsMatrix(x, 10, 16)
    ensures Invoke(New(8), x, 16, init).Ok?
    ensures IsMatrix(Invoke(New(8), x, 16, init).value.1, 10, 32)
  {
  }

  /** Eighteen features cannot be split into four quaternion components. */
  lemma InvalidWidthExample(x: Matrix, init: Initializer)
    requires IsMatrix(x, 5, 18)
    ensures Invoke(New(4), x, 18, init) == Err(DimensionError)
  {
  }

  /** Recreating a layer from its configuration keeps its options and drops its weights;
      the configuration of a recreated layer is the one it was made from. */
  lemma ConfigRoundTrip(layer: Layer, c: Config)
    ensures var l := FromConfig(GetConfig(layer));
            l.units == layer.units && l.useBias == layer.useBias && !l.Built()
    ensures GetConfig(FromConfig(c)) == c
  {
  }

  /** A freshly built layer maps an all-zero batch to an all-zero batch: the bias starts
      at zero, so the output holds no entry of size `1e-6` or more. */
  lemma FreshLayerZeroInput(units: nat, rows: nat, d: nat, init: Initializer)
    ensures Invoke(New(units), Zeros(rows, 4 * d), 4 * d, init).Ok?
    ensures Invoke(New(units), Zeros(rows, 4 * d), 4 * d, init).value.1 == Zeros(rows, 4 * units)
  {
    var built := Build(New(units), 4 * d, init).value;
    ZeroInputGivesBias(built, rows);
    var b := built.weights.value.bias.value;
    assert BiasRows(built, rows) == Zeros(rows, 4 * units) by {
      forall n | 0 <= n < rows
        ensures BiasRows(built, rows)[n] == Zeros(rows, 4 * units)[n]
      {
        assert b == Zeros(rows, 4 * units)[n];
      }
    }
  }

  /** The built layer the identity scenario starts from: one unit, no bias, one
      quaternion of input. */
  function IdentityStart(init: Initializer): (l: Layer)
    ensures l.Built() && !l.useBias && l.units == 1 && l.weights.value.inputDim == 1
  {
    Build(New(1, false), 4, init).value
  }

  /** Loading rows `0..1`, `1..2`, `2..3` and `3..4` of the `4 x 4` identity as the four
      kernels is refused: each is `1 x 4`, while the kernels are `1 x 1`. */
  lemma IdentityTestAsWritten(init: Initializer)
    ensures var e := Identity(4);
            LoadKernels(IdentityStart(init), e[0..1], e[1..2], e[2..3], e[3..4]) == Err(ShapeMismatch)
  {
    var e := Identity(4);
    assert |e[0..1][0]| == 4;
  }

  /** Loading the identity quaternion as `1 x 1` kernels succeeds, and the layer then
      maps the four basis quaternions `1, i, j, k` to themselves. */
  lemma IdentityTestCorrected(init: Initializer)
    ensures LoadKernels(IdentityStart(init), [[1.0]], [[0.0]], [[0.0]], [[0.0]]).Ok?
    ensures var l := LoadKernels(IdentityStart(init), [[1.0]], [[0.0]], [[0.0]], [[0.0]]).value;
            Call(l, Identity(4), 4) == Ok(Identity(4))
  {
    var l := LoadKernels(IdentityStart(init), [[1.0]], [[0.0]], [[0.0]], [[0.0]]).value;
    assert Identity(1)[0] == [1.0];
    assert Identity(1) == [[1.0]];
    assert Zeros(1, 1)[0] == [0.0];
    assert Zeros(1, 1) == [[0.0]];
    IdentityKernels(l, Identity(4));
  }
}
