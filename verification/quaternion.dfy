/** Real quaternions and the Hamilton product, the multiplication rule the dense layer
    applies blockwise, together with sums of products over sequences of quaternions. */
module Quaternion {
  import opened Matrix

  datatype Quat = Quat(r: real, i: real, j: real, k: real)

  const Zero := Quat(0.0, 0.0, 0.0, 0.0)
  const One := Quat(1.0, 0.0, 0.0, 0.0)
  const UnitI := Quat(0.0, 1.0, 0.0, 0.0)
  const UnitJ := Quat(0.0, 0.0, 1.0, 0.0)
  const UnitK := Quat(0.0, 0.0, 0.0, 1.0)

  function Plus(p: Quat, q: Quat): Quat
  {
    Quat(p.r + q.r, p.i + q.i, p.j + q.j, p.k + q.k)
  }

  function Neg(q: Quat): Quat
  {
    Quat(-q.r, -q.i, -q.j, -q.k)
  }

  function Scale(s: real, q: Quat): Quat
  {
    Quat(s * q.r, s * q.i, s * q.j, s * q.k)
  }

  /** The Hamilton product `p * q`, with `p` as the left operand. */
  function Hamilton(p: Quat, q: Quat): Quat
  {
    Quat(p.r * q.r - p.i * q.i - p.j * q.j - p.k * q.k,
         p.r * q.i + p.i * q.r + p.j * q.k - p.k * q.j,
         p.r * q.j - p.i * q.k + p.j * q.r + p.k * q.i,
         p.r * q.k + p.i * q.j - p.j * q.i + p.k * q.r)
  }

  /** The defining multiplication table of the imaginary units: i² = j² = k² = −1,
      ij = k, jk = i, ki = j, and each product reverses sign when its operands swap. */
  lemma UnitTable()
    ensures Hamilton(UnitI, UnitI) == Neg(One)
    ensures Hamilton(UnitJ, UnitJ) == Neg(One)
    ensures Hamilton(UnitK, UnitK) == Neg(One)
    ensures Hamilton(UnitI, UnitJ) == UnitK && Hamilton(UnitJ, UnitI) == Neg(UnitK)
    ensures Hamilton(UnitJ, UnitK) == UnitI && Hamilton(UnitK, UnitJ) == Neg(UnitI)
    ensures Hamilton(UnitK, UnitI) == UnitJ && Hamilton(UnitI, UnitK) == Neg(UnitJ)
  {
  }

  /** `One` is a two-sided unit of the Hamilton product. */
  lemma OneIsUnit(q: Quat)
    ensures Hamilton(One, q) == q && Hamilton(q, One) == q
  {
  }

  /** Names the four components of a quaternion. */
  datatype Component = R | I | J | K

  function Get(q: Quat, a: Component): real
  {
    match a
    case R => q.r
    case I => q.i
    case J => q.j
    case K => q.k
  }

  /** The real rows of the Hamilton product distribute over a sum of left factors. */
  lemma RowAdd(a1: real, a2: real, a3: real, a4: real, b1: real, b2: real, b3: real, b4: real,
               c1: real, c2: real, c3: real, c4: real)
    ensures (a1 + b1) * c1 - (a2 + b2) * c2 - (a3 + b3) * c3 - (a4 + b4) * c4
            == (a1 * c1 - a2 * c2 - a3 * c3 - a4 * c4) + (b1 * c1 - b2 * c2 - b3 * c3 - b4 * c4)
    ensures (a1 + b1) * c2 + (a2 + b2) * c1 + (a3 + b3) * c4 - (a4 + b4) * c3
            == (a1 * c2 + a2 * c1 + a3 * c4 - a4 * c3) + (b1 * c2 + b2 * c1 + b3 * c4 - b4 * c3)
    ensures (a1 + b1) * c3 - (a2 + b2) * c4 + (a3 + b3) * c1 + (a4 + b4) * c2
            == (a1 * c3 - a2 * c4 + a3 * c1 + a4 * c2) + (b1 * c3 - b2 * c4 + b3 * c1 + b4 * c2)
    ensures (a1 + b1) * c4 + (a2 + b2) * c3 - (a3 + b3) * c2 + (a4 + b4) * c1
            == (a1 * c4 + a2 * c3 - a3 * c2 + a4 * c1) + (b1 * c4 + b2 * c3 - b3 * c2 + b4 * c1)
  {
  }

  /** The real rows of the Hamilton product take out a scalar factor `s` of the left
      factors `b1 .. b4 = s a1 .. s a4`, one lemma per row. */
  lemma RowScaleR(s: real, a1: real, a2: real, a3: real, a4: real, b1: real, b2: real, b3: real, b4: real,
                  c1: real, c2: real, c3: real, c4: real, h: real)
    requires b1 == s * a1 && b2 == s * a2 && b3 == s * a3 && b4 == s * a4
    requires h == a1 * c1 - a2 * c2 - a3 * c3 - a4 * c4
    ensures b1 * c1 - b2 * c2 - b3 * c3 - b4 * c4 == s * h
  {
  }

  lemma RowScaleI(s: real, a1: real, a2: real, a3: real, a4: real, b1: real, b2: real, b3: real, b4: real,
                  c1: real, c2: real, c3: real, c4: real, h: real)
    requires b1 == s * a1 && b2 == s * a2 && b3 == s * a3 && b4 == s * a4
    requires h == a1 * c2 + a2 * c1 + a3 * c4 - a4 * c3
    ensures b1 * c2 + b2 * c1 + b3 * c4 - b4 * c3 == s * h
  {
  }

  lemma RowScaleJ(s: real, a1: real, a2: real, a3: real, a4: real, b1: real, b2: real, b3: real, b4: real,
                  c1: real, c2: real, c3: real, c4: real, h: real)
    requires b1 == s * a1 && b2 == s * a2 && b3 == s * a3 && b4 == s * a4
    requires h == a1 * c3 - a2 * c4 + a3 * c1 + a4 * c2
    ensures b1 * c3 - b2 * c4 + b3 * c1 + b4 * c2 == s * h
  {
  }

  lemma RowScaleK(s: real, a1: real, a2: real, a3: real, a4: real, b1: real, b2: real, b3: real, b4: real,
                  c1: real, c2: real, c3: real, c4: real, h: real)
    requires b1 == s * a1 && b2 == s * a2 && b3 == s * a3 && b4 == s * a4
    requires h == a1 * c4 + a2 * c3 - a3 * c2 + a4 * c1
    ensures b1 * c4 + b2 * c3 - b3 * c2 + b4 * c1 == s * h
  {
  }

  /** Each component of the Hamilton product distributes over a sum of left operands;
      one lemma per component keeps every proof small. */
  lemma HamiltonAddLeftR(p: Quat, p': Quat, q: Quat)
    ensures Hamilton(Plus(p, p'), q).r == Hamilton(p, q).r + Hamilton(p', q).r
  {
    RowAdd(p.r, p.i, p.j, p.k, p'.r, p'.i, p'.j, p'.k, q.r, q.i, q.j, q.k);
  }

  lemma HamiltonAddLeftI(p: Quat, p': Quat, q: Quat)
    ensures Hamilton(Plus(p, p'), q).i == Hamilton(p, q).i + Hamilton(p', q).i
  {
    RowAdd(p.r, p.i, p.j, p.k, p'.r, p'.i, p'.j, p'.k, q.r, q.i, q.j, q.k);
  }

  lemma HamiltonAddLeftJ(p: Quat, p': Quat, q: Quat)
    ensures Hamilton(Plus(p, p'), q).j == Hamilton(p, q).j + Hamilton(p', q).j
  {
    RowAdd(p.r, p.i, p.j, p.k, p'.r, p'.i, p'.j, p'.k, q.r, q.i, q.j, q.k);
  }

  lemma HamiltonAddLeftK(p: Quat, p': Quat, q: Quat)
    ensures Hamilton(Plus(p, p'), q).k == Hamilton(p, q).k + Hamilton(p', q).k
  {
    RowAdd(p.r, p.i, p.j, p.k, p'.r, p'.i, p'.j, p'.k, q.r, q.i, q.j, q.k);
  }

  /** The Hamilton product distributes over addition in its left operand. */
  lemma HamiltonAddLeft(p: Quat, p': Quat, q: Quat)
    ensures Hamilton(Plus(p, p'), q) == Plus(Hamilton(p, q), Hamilton(p', q))
  {
    HamiltonAddLeftR(p, p', q);
    HamiltonAddLeftI(p, p', q);
    HamiltonAddLeftJ(p, p', q);
    HamiltonAddLeftK(p, p', q);
  }

  /** Each component of the Hamilton product takes out a scalar factor of the left
      operand. */
  lemma HamiltonScaleLeftR(s: real, p: Quat, q: Quat)
    ensures Hamilton(Scale(s, p), q).r == s * Hamilton(p, q).r
  {
    var sp := Scale(s, p);
    RowScaleR(s, p.r, p.i, p.j, p.k, sp.r, sp.i, sp.j, sp.k, q.r, q.i, q.j, q.k, Hamilton(p, q).r);
  }

  lemma HamiltonScaleLeftI(s: real, p: Quat, q: Quat)
    ensures Hamilton(Scale(s, p), q).i == s * Hamilton(p, q).i
  {
    var sp := Scale(s, p);
    RowScaleI(s, p.r, p.i, p.j, p.k, sp.r, sp.i, sp.j, sp.k, q.r, q.i, q.j, q.k, Hamilton(p, q).i);
  }

  lemma HamiltonScaleLeftJ(s: real, p: Quat, q: Quat)
    ensures Hamilton(Scale(s, p), q).j == s * Hamilton(p, q).j
  {
    var sp := Scale(s, p);
    RowScaleJ(s, p.r, p.i, p.j, p.k, sp.r, sp.i, sp.j, sp.k, q.r, q.i, q.j, q.k, Hamilton(p, q).j);
  }

  lemma HamiltonScaleLeftK(s: real, p: Quat, q: Quat)
    ensures Hamilton(Scale(s, p), q).k == s * Hamilton(p, q).k
  {
    var sp := Scale(s, p);
    RowScaleK(s, p.r, p.i, p.j, p.k, sp.r, sp.i, sp.j, sp.k, q.r, q.i, q.j, q.k, Hamilton(p, q).k);
  }

  /** A scalar factor of the left operand can be taken out of the Hamilton product. */
  lemma HamiltonScaleLeft(s: real, p: Quat, q: Quat)
    ensures Hamilton(Scale(s, p), q) == Scale(s, Hamilton(p, q))
  {
    HamiltonScaleLeftR(s, p, q);
    HamiltonScaleLeftI(s, p, q);
    HamiltonScaleLeftJ(s, p, q);
    HamiltonScaleLeftK(s, p, q);
  }

  /** Quaternion addition may regroup four terms. */
  lemma PlusSwap(a: Quat, b: Quat, c: Quat, d: Quat)
    ensures Plus(Plus(a, b), Plus(c, d)) == Plus(Plus(a, c), Plus(b, d))
  {
  }

  /** Scaling distributes over quaternion addition. */
  lemma ScaleDistributes(a: real, p: Quat, q: Quat)
    ensures Scale(a, Plus(p, q)) == Plus(Scale(a, p), Scale(a, q))
  {
  }

  /** Sum of the pairwise Hamilton products `ps[t] * qs[t]`. */
  function QDot(ps: seq<Quat>, qs: seq<Quat>): Quat
    requires |ps| == |qs|
    decreases |ps|
  {
    if |ps| == 0 then Zero else Plus(Hamilton(ps[0], qs[0]), QDot(ps[1..], qs[1..]))
  }

  /** Component `a` of every quaternion of `ps`, as a real vector. */
  function Parts(ps: seq<Quat>, a: Component): (v: Vector)
    ensures |v| == |ps| && forall t :: 0 <= t < |ps| ==> v[t] == Get(ps[t], a)
  {
    seq(|ps|, t requires 0 <= t < |ps| => Get(ps[t], a))
  }

  /** One step of the dot product of two part vectors. */
  lemma {:induction false} PartsDotCons(ps: seq<Quat>, qs: seq<Quat>, a: Component, b: Component)
    requires |ps| == |qs| > 0
    ensures Dot(Parts(ps, a), Parts(qs, b)) == Get(ps[0], a) * Get(qs[0], b) + Dot(Parts(ps[1..], a), Parts(qs[1..], b))
  {
    assert Parts(ps, a)[1..] == Parts(ps[1..], a);
    assert Parts(qs, b)[1..] == Parts(qs[1..], b);
    DotCons(Parts(ps, a), Parts(qs, b));
  }

  /** One step of each real dot product that enters a given component of `QDot`. */
  lemma {:induction false} PartsStepR(ps: seq<Quat>, qs: seq<Quat>)
    requires |ps| == |qs| > 0
    ensures Dot(Parts(ps, R), Parts(qs, R)) == ps[0].r * qs[0].r + Dot(Parts(ps[1..], R), Parts(qs[1..], R))
    ensures Dot(Parts(ps, I), Parts(qs, I)) == ps[0].i * qs[0].i + Dot(Parts(ps[1..], I), Parts(qs[1..], I))
    ensures Dot(Parts(ps, J), Parts(qs, J)) == ps[0].j * qs[0].j + Dot(Parts(ps[1..], J), Parts(qs[1..], J))
    ensures Dot(Parts(ps, K), Parts(qs, K)) == ps[0].k * qs[0].k + Dot(Parts(ps[1..], K), Parts(qs[1..], K))
  {
    PartsDotCons(ps, qs, R, R);
    PartsDotCons(ps, qs, I, I);
    PartsDotCons(ps, qs, J, J);
    PartsDotCons(ps, qs, K, K);
  }

  lemma {:induction false} PartsStepI(ps: seq<Quat>, qs: seq<Quat>)
    requires |ps| == |qs| > 0
    ensures Dot(Parts(ps, R), Parts(qs, I)) == ps[0].r * qs[0].i + Dot(Parts(ps[1..], R), Parts(qs[1..], I))
    ensures Dot(Parts(ps, I), Parts(qs, R)) == ps[0].i * qs[0].r + Dot(Parts(ps[1..], I), Parts(qs[1..], R))
    ensures Dot(Parts(ps, J), Parts(qs, K)) == ps[0].j * qs[0].k + Dot(Parts(ps[1..], J), Parts(qs[1..], K))
    ensures Dot(Parts(ps, K), Parts(qs, J)) == ps[0].k * qs[0].j + Dot(Parts(ps[1..], K), Parts(qs[1..], J))
  {
    PartsDotCons(ps, qs, R, I);
    PartsDotCons(ps, qs, I, R);
    PartsDotCons(ps, qs, J, K);
    PartsDotCons(ps, qs, K, J);
  }

  lemma {:induction false} PartsStepJ(ps: seq<Quat>, qs: seq<Quat>)
    requires |ps| == |qs| > 0
    ensures Dot(Parts(ps, R), Parts(qs, J)) == ps[0].r * qs[0].j + Dot(Parts(ps[1..], R), Parts(qs[1..], J))
    ensures Dot(Parts(ps, I), Parts(qs, K)) == ps[0].i * qs[0].k + Dot(Parts(ps[1..], I), Parts(qs[1..], K))
    ensures Dot(Parts(ps, J), Parts(qs, R)) == ps[0].j * qs[0].r + Dot(Parts(ps[1..], J), Parts(qs[1..], R))
    ensures Dot(Parts(ps, K), Parts(qs, I)) == ps[0].k * qs[0].i + Dot(Parts(ps[1..], K), Parts(qs[1..], I))
  {
    PartsDotCons(ps, qs, R, J);
    PartsDotCons(ps, qs, I, K);
    PartsDotCons(ps, qs, J, R);
    PartsDotCons(ps, qs, K, I);
  }

  lemma {:induction false} PartsStepK(ps: seq<Quat>, qs: seq<Quat>)
    requires |ps| == |qs| > 0
    ensures Dot(Parts(ps, R), Parts(qs, K)) == ps[0].r * qs[0].k + Dot(Parts(ps[1..], R), Parts(qs[1..], K))
    ensures Dot(Parts(ps, I), Parts(qs, J)) == ps[0].i * qs[0].j + Dot(Parts(ps[1..], I), Parts(qs[1..], J))
    ensures Dot(Parts(ps, J), Parts(qs, I)) == ps[0].j * qs[0].i + Dot(Parts(ps[1..], J), Parts(qs[1..], I))
    ensures Dot(Parts(ps, K), Parts(qs, R)) == ps[0].k * qs[0].r + Dot(Parts(ps[1..], K), Parts(qs[1..], R))
  {
    PartsDotCons(ps, qs, R, K);
    PartsDotCons(ps, qs, I, J);
    PartsDotCons(ps, qs, J, I);
    PartsDotCons(ps, qs, K, R);
  }

  /** A quaternion dot product is the Hamilton sign pattern applied to the real dot
      products of the parts: the blockwise rule the dense layer uses. One lemma per
      component; `QDotParts` collects them. */
  lemma {:induction false} QDotPartR(ps: seq<Quat>, qs: seq<Quat>)
    requires |ps| == |qs|
    ensures QDot(ps, qs).r == Dot(Parts(ps, R), Parts(qs, R)) - Dot(Parts(ps, I), Parts(qs, I))
                              - Dot(Parts(ps, J), Parts(qs, J)) - Dot(Parts(ps, K), Parts(qs, K))
    decreases |ps|
  {
    if |ps| > 0 {
      QDotPartR(ps[1..], qs[1..]);
      PartsStepR(ps, qs);
    }
  }

  lemma {:induction false} QDotPartI(ps: seq<Quat>, qs: seq<Quat>)
    requires |ps| == |qs|
    ensures QDot(ps, qs).i == Dot(Parts(ps, R), Parts(qs, I)) + Dot(Parts(ps, I), Parts(qs, R))
                              + Dot(Parts(ps, J), Parts(qs, K)) - Dot(Parts(ps, K), Parts(qs, J))
    decreases |ps|
  {
    if |ps| > 0 {
      QDotPartI(ps[1..], qs[1..]);
      PartsStepI(ps, qs);
    }
  }

  lemma {:induction false} QDotPartJ(ps: seq<Quat>, qs: seq<Quat>)
    requires |ps| == |qs|
    ensures QDot(ps, qs).j == Dot(Parts(ps, R), Parts(qs, J)) - Dot(Parts(ps, I), Parts(qs, K))
                              + Dot(Parts(ps, J), Parts(qs, R)) + Dot(Parts(ps, K), Parts(qs, I))
    decreases |ps|
  {
    if |ps| > 0 {
      QDotPartJ(ps[1..], qs[1..]);
      PartsStepJ(ps, qs);
    }
  }

  lemma {:induction false} QDotPartK(ps: seq<Quat>, qs: seq<Quat>)
    requires |ps| == |qs|
    ensures QDot(ps, qs).k == Dot(Parts(ps, R), Parts(qs, K)) + Dot(Parts(ps, I), Parts(qs, J))
                              - Dot(Parts(ps, J), Parts(qs, I)) + Dot(Parts(ps, K), Parts(qs, R))
    decreases |ps|
  {
    if |ps| > 0 {
      QDotPartK(ps[1..], qs[1..]);
      PartsStepK(ps, qs);
    }
  }

  lemma QDotParts(ps: seq<Quat>, qs: seq<Quat>)
    requires |ps| == |qs|
    ensures QDot(ps, qs).r == Dot(Parts(ps, R), Parts(qs, R)) - Dot(Parts(ps, I), Parts(qs, I))
                              - Dot(Parts(ps, J), Parts(qs, J)) - Dot(Parts(ps, K), Parts(qs, K))
    ensures QDot(ps, qs).i == Dot(Parts(ps, R), Parts(qs, I)) + Dot(Parts(ps, I), Parts(qs, R))
                              + Dot(Parts(ps, J), Parts(qs, K)) - Dot(Parts(ps, K), Parts(qs, J))
    ensures QDot(ps, qs).j == Dot(Parts(ps, R), Parts(qs, J)) - Dot(Parts(ps, I), Parts(qs, K))
                              + Dot(Parts(ps, J), Parts(qs, R)) + Dot(Parts(ps, K), Parts(qs, I))
    ensures QDot(ps, qs).k == Dot(Parts(ps, R), Parts(qs, K)) + Dot(Parts(ps, I), Parts(qs, J))
                              - Dot(Parts(ps, J), Parts(qs, I)) + Dot(Parts(ps, K), Parts(qs, R))
  {
    QDotPartR(ps, qs);
    QDotPartI(ps, qs);
    QDotPartJ(ps, qs);
    QDotPartK(ps, qs);
  }

  /** Elementwise sum and scaling of quaternion sequences. */
  function PlusAll(ps: seq<Quat>, qs: seq<Quat>): (s: seq<Quat>)
    requires |ps| == |qs|
    ensures |s| == |ps| && forall t :: 0 <= t < |ps| ==> s[t] == Plus(ps[t], qs[t])
  {
    seq(|ps|, t requires 0 <= t < |ps| => Plus(ps[t], qs[t]))
  }

  function ScaleAll(a: real, ps: seq<Quat>): (s: seq<Quat>)
    ensures |s| == |ps| && forall t :: 0 <= t < |ps| ==> s[t] == Scale(a, ps[t])
  {
    seq(|ps|, t requires 0 <= t < |ps| => Scale(a, ps[t]))
  }

  /** The quaternion dot product is additive in its left operand. */
  lemma {:induction false} QDotAddLeft(ps: seq<Quat>, ps': seq<Quat>, qs: seq<Quat>)
    requires |ps| == |ps'| == |qs|
    ensures QDot(PlusAll(ps, ps'), qs) == Plus(QDot(ps, qs), QDot(ps', qs))
    decreases |ps|
  {
    if |ps| > 0 {
      var s := PlusAll(ps, ps');
      QDotAddLeft(ps[1..], ps'[1..], qs[1..]);
      assert s[1..] == PlusAll(ps[1..], ps'[1..]);
      HamiltonAddLeft(ps[0], ps'[0], qs[0]);
      PlusSwap(Hamilton(ps[0], qs[0]), Hamilton(ps'[0], qs[0]), QDot(ps[1..], qs[1..]), QDot(ps'[1..], qs[1..]));
    }
  }

  /** The quaternion dot product is homogeneous in its left operand. */
  lemma {:induction false} QDotScaleLeft(a: real, ps: seq<Quat>, qs: seq<Quat>)
    requires |ps| == |qs|
    ensures QDot(ScaleAll(a, ps), qs) == Scale(a, QDot(ps, qs))
    decreases |ps|
  {
    if |ps| > 0 {
      QDotScaleLeft(a, ps[1..], qs[1..]);
      assert ScaleAll(a, ps)[1..] == ScaleAll(a, ps[1..]);
      HamiltonScaleLeft(a, ps[0], qs[0]);
      ScaleDistributes(a, Hamilton(ps[0], qs[0]), QDot(ps[1..], qs[1..]));
    }
  }

  /** Left operands that are all zero give a zero dot product. */
  lemma {:induction false} QDotZeroLeft(ps: seq<Quat>, qs: seq<Quat>)
    requires |ps| == |qs|
    requires forall t :: 0 <= t < |ps| ==> ps[t] == Zero
    ensures QDot(ps, qs) == Zero
    decreases |ps|
  {
    if |ps| > 0 {
      QDotZeroLeft(ps[1..], qs[1..]);
      assert Hamilton(ps[0], qs[0]) == Zero;
    }
  }

  /** Against the `c`-th unit column (`One` at position `c`, `Zero` elsewhere) the dot
      product picks out `ps[c]`; against an all-zero column it is zero. */
  lemma {:induction false} QDotUnitRight(ps: seq<Quat>, qs: seq<Quat>, c: int)
    requires |ps| == |qs|
    requires forall t :: 0 <= t < |qs| ==> qs[t] == if t == c then One else Zero
    ensures QDot(ps, qs) == if 0 <= c < |ps| then ps[c] else Zero
    decreases |ps|
  {
    if |ps| > 0 {
      QDotUnitRight(ps[1..], qs[1..], c - 1);
      OneIsUnit(ps[0]);
    }
  }
}
