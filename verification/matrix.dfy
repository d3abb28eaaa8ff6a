/** Dense real matrices as sequences of rows, with the few operations the layer uses:
    matrix product, elementwise sum and difference, column slicing, concatenation
    of column blocks and row-broadcast bias addition. */
module Matrix {

  type Vector = seq<real>
  type Matrix = seq<seq<real>>

  /** `m` has `rows` rows of `cols` entries each. */
  predicate IsMatrix(m: Matrix, rows: nat, cols: nat)
  {
    |m| == rows && forall n :: 0 <= n < |m| ==> |m[n]| == cols
  }

  /** `a` and `b` have the same number of rows, and matching rows have the same length. */
  predicate SameShape(a: Matrix, b: Matrix)
  {
    |a| == |b| && forall n :: 0 <= n < |a| ==> |a[n]| == |b[n]|
  }

  function Zeros(rows: nat, cols: nat): (m: Matrix)
    ensures IsMatrix(m, rows, cols)
    ensures forall n, c :: 0 <= n < rows && 0 <= c < cols ==> m[n][c] == 0.0
  {
    seq(rows, _ => seq(cols, _ => 0.0))
  }

  function Identity(size: nat): (m: Matrix)
    ensures IsMatrix(m, size, size)
    ensures forall n, c :: 0 <= n < size && 0 <= c < size ==> m[n][c] == if n == c then 1.0 else 0.0
  {
    seq(size, n => seq(size, c => if n == c then 1.0 else 0.0))
  }

  /** Sum of the products of corresponding entries. */
  function Dot(u: Vector, v: Vector): real
    requires |u| == |v|
    decreases |u|
  {
    if |u| == 0 then 0.0 else u[0] * v[0] + Dot(u[1..], v[1..])
  }

  /** One step of `Dot`: the first product plus the dot product of the tails. */
  lemma DotCons(u: Vector, v: Vector)
    requires |u| == |v| > 0
    ensures Dot(u, v) == u[0] * v[0] + Dot(u[1..], v[1..])
  {
  }

  /** Column `c` of `b`. */
  function Column(b: Matrix, c: nat): (v: Vector)
    requires forall t :: 0 <= t < |b| ==> c < |b[t]|
    ensures |v| == |b|
    ensures forall t :: 0 <= t < |b| ==> v[t] == b[t][c]
  {
    seq(|b|, t requires 0 <= t < |b| => b[t][c])
  }

  /** The matrix product `a @ b`, where `b` has `cols` columns (given explicitly because
      `b` may have no rows at all). */
  function MatMul(a: Matrix, b: Matrix, cols: nat): (m: Matrix)
    requires IsMatrix(a, |a|, |b|) && IsMatrix(b, |b|, cols)
    ensures IsMatrix(m, |a|, cols)
    ensures forall n, c :: 0 <= n < |a| && 0 <= c < cols ==> m[n][c] == Dot(a[n], Column(b, c))
  {
    seq(|a|, n requires 0 <= n < |a| => seq(cols, c requires 0 <= c < cols => Dot(a[n], Column(b, c))))
  }

  function MatAdd(a: Matrix, b: Matrix): (m: Matrix)
    requires SameShape(a, b)
    ensures SameShape(m, a)
    ensures forall n, c :: 0 <= n < |a| && 0 <= c < |a[n]| ==> m[n][c] == a[n][c] + b[n][c]
  {
    seq(|a|, n requires 0 <= n < |a| => seq(|a[n]|, c requires 0 <= c < |a[n]| => a[n][c] + b[n][c]))
  }

  function MatSub(a: Matrix, b: Matrix): (m: Matrix)
    requires SameShape(a, b)
    ensures SameShape(m, a)
    ensures forall n, c :: 0 <= n < |a| && 0 <= c < |a[n]| ==> m[n][c] == a[n][c] - b[n][c]
  {
    seq(|a|, n requires 0 <= n < |a| => seq(|a[n]|, c requires 0 <= c < |a[n]| => a[n][c] - b[n][c]))
  }

  /** Every entry of `a` multiplied by the scalar `s`. */
  function MatScale(s: real, a: Matrix): (m: Matrix)
    ensures SameShape(m, a)
    ensures forall n, c :: 0 <= n < |a| && 0 <= c < |a[n]| ==> m[n][c] == s * a[n][c]
  {
    seq(|a|, n requires 0 <= n < |a| => seq(|a[n]|, c requires 0 <= c < |a[n]| => s * a[n][c]))
  }

  /** Columns `lo` (inclusive) to `hi` (exclusive) of every row. */
  function SliceCols(x: Matrix, lo: nat, hi: nat): (m: Matrix)
    requires lo <= hi
    requires forall n :: 0 <= n < |x| ==> hi <= |x[n]|
    ensures IsMatrix(m, |x|, hi - lo)
    ensures forall n :: 0 <= n < |x| ==> m[n] == x[n][lo..hi]
    ensures forall n, t :: 0 <= n < |x| && 0 <= t < hi - lo ==> m[n][t] == x[n][lo + t]
  {
    seq(|x|, n requires 0 <= n < |x| => x[n][lo..hi])
  }

  /** Adds the vector `v` to every row of `m` (the bias broadcast over the batch). */
  function BiasAdd(m: Matrix, v: Vector): (o: Matrix)
    requires IsMatrix(m, |m|, |v|)
    ensures IsMatrix(o, |m|, |v|)
    ensures forall n, c :: 0 <= n < |m| && 0 <= c < |v| ==> o[n][c] == m[n][c] + v[c]
  {
    seq(|m|, n requires 0 <= n < |m| => seq(|v|, c requires 0 <= c < |v| => m[n][c] + v[c]))
  }
}
