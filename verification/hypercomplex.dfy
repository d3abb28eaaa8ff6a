/** The generic hypercomplex value: an ordered tuple of real components with
    componentwise addition and subtraction, and a multiplication that only a concrete
    algebra can supply. */
module Hypercomplex {
  import opened Results

  /** `algebra` names the concrete class the value belongs to; `components` are its parts
      in order (four for a quaternion). */
  datatype Hypercomplex = Hypercomplex(algebra: string, components: seq<real>)

  function Min(a: nat, b: nat): nat
  {
    if a <= b then a else b
  }

  /** Pairs up `xs` and `ys` position by position, stopping at the end of the shorter one,
      and combines each pair with `op`. */
  function ZipWith(xs: seq<real>, ys: seq<real>, op: (real, real) -> real): (zs: seq<real>)
    ensures |zs| == Min(|xs|, |ys|)
    ensures forall n :: 0 <= n < |zs| ==> zs[n] == op(xs[n], ys[n])
    decreases |xs|
  {
    if |xs| == 0 || |ys| == 0 then [] else [op(xs[0], ys[0])] + ZipWith(xs[1..], ys[1..], op)
  }

  /** The shared componentwise operation: a new value of the left operand's algebra whose
      components combine the operands' components pairwise. Operands with different
      component counts are not rejected: the surplus components of the longer one are
      dropped. */
  function BinaryOp(a: Hypercomplex, b: Hypercomplex, op: (real, real) -> real): (r: Hypercomplex)
    ensures r.algebra == a.algebra
    ensures |r.components| == Min(|a.components|, |b.components|)
    ensures forall n :: 0 <= n < |r.components| ==>
              r.components[n] == op(a.components[n], b.components[n])
  {
    Hypercomplex(a.algebra, ZipWith(a.components, b.components, op))
  }

  function Add(a: Hypercomplex, b: Hypercomplex): (r: Hypercomplex)
    ensures r.algebra == a.algebra
    ensures |r.components| == Min(|a.components|, |b.components|)
    ensures forall n :: 0 <= n < |r.components| ==>
              r.components[n] == a.components[n] + b.components[n]
  {
    BinaryOp(a, b, (x, y) => x + y)
  }

  function Sub(a: Hypercomplex, b: Hypercomplex): (r: Hypercomplex)
    ensures r.algebra == a.algebra
    ensures |r.components| == Min(|a.components|, |b.components|)
    ensures forall n :: 0 <= n < |r.components| ==>
              r.components[n] == a.components[n] - b.components[n]
  {
    BinaryOp(a, b, (x, y) => x - y)
  }

  /** Multiplication has no componentwise formula, so at this level it always fails. */
  function Mul(a: Hypercomplex, b: Hypercomplex): (r: Result<Hypercomplex>)
    ensures r.Err? && r.error == NotImplemented
  {
    Err(NotImplemented)
  }

  /** Addition is commutative in its components; within one algebra it is commutative
      outright. */
  lemma AddCommutes(a: Hypercomplex, b: Hypercomplex)
    ensures Add(a, b).components == Add(b, a).components
    ensures a.algebra == b.algebra ==> Add(a, b) == Add(b, a)
  {
  }

  /** Subtracting and then adding back the same value restores the original, whenever
      the two have the same number of components. */
  lemma SubThenAdd(a: Hypercomplex, b: Hypercomplex)
    requires |a.components| == |b.components|
    ensures Add(Sub(a, b), b) == a
  {
  }
}
