/**
 * The member functions of quat11::quaternion<T> (quaternion.cpp).
 *
 * Every operation is `const` on its receiver, writes its result into a
 * caller-supplied `T out[3]` buffer, a `T &out` or a `quaternion &out`, and
 * returns a QUATERNION_FLAGS code. Here the receiver is the value `q`, a
 * `T out[3]` buffer is an `array<real>` of length 3 that the method modifies,
 * and a `T &out` / `quaternion &out` is an out-parameter (with the caller's
 * old value passed in where the source can leave it untouched). Each method
 * is proved against the formulas of Quat11Algebra.
 */
module Quat11 {
  import opened QuatTypes
  import A = Quat11Algebra

  // ---------------------------------------------------------------------
  // Accessors
  // ---------------------------------------------------------------------

  /** scalar(T &out): the r coefficient. */
  method Scalar(q: Quat) returns (flag: Flag, out: real)
    ensures flag == Success
    ensures out == Coeffs(q)[0]
  {
    out := q.r;
    flag := Success;
  }

  /** vector(T v[3]): copies coeffs[1..3] into v. */
  method Vector(q: Quat, v: array<real>) returns (flag: Flag)
    requires v.Length == 3
    modifies v
    ensures flag == Success
    ensures v[..] == Coeffs(q)[1..]
  {
    v[0] := q.x;
    v[1] := q.y;
    v[2] := q.z;
    flag := Success;
  }

  /**
   * get_component(i, c): the coefficient at index i tagged with its base;
   * any other index is refused with ARG_ERROR and c is left as it was.
   */
  method GetComponent(q: Quat, i: nat, c: Component) returns (flag: Flag, c': Component)
    ensures i < 4 ==> flag == Success && c' == Component(BaseAt(i), Coeffs(q)[i])
    ensures i >= 4 ==> flag == ArgError && c' == c
  {
    if i == 0 {
      c' := Component(ScalarBase, q.r);
      flag := Success;
    } else if i == 1 {
      c' := Component(I, q.x);
      flag := Success;
    } else if i == 2 {
      c' := Component(J, q.y);
      flag := Success;
    } else if i == 3 {
      c' := Component(K, q.z);
      flag := Success;
    } else {
      c' := c;
      flag := ArgError;
    }
  }

  // ---------------------------------------------------------------------
  // apply and the elementwise vector operations built on it
  // ---------------------------------------------------------------------

  /** apply(T t, fn, T out[3]): out[k] = fn(v[k], t) for the receiver's vector v. */
  method ApplyScalar(q: Quat, t: real, fn: (real, real) --> real, out: array<real>) returns (flag: Flag)
    requires out.Length == 3
    requires fn.requires(q.x, t) && fn.requires(q.y, t) && fn.requires(q.z, t)
    modifies out
    ensures flag == Success
    ensures out[..] == [fn(q.x, t), fn(q.y, t), fn(q.z, t)]
  {
    var vec := new real[3];
    flag := Vector(q, vec);
    out[0] := fn(vec[0], t);
    out[1] := fn(vec[1], t);
    out[2] := fn(vec[2], t);
    flag := Success;
  }

  /** apply(T t[3], fn, T out[3]): out[k] = fn(v[k], t[k]) for the receiver's vector v. */
  method ApplyVector(q: Quat, t: seq<real>, fn: (real, real) --> real, out: array<real>) returns (flag: Flag)
    requires out.Length == 3 && |t| == 3
    requires fn.requires(q.x, t[0]) && fn.requires(q.y, t[1]) && fn.requires(q.z, t[2])
    modifies out
    ensures flag == Success
    ensures out[..] == [fn(q.x, t[0]), fn(q.y, t[1]), fn(q.z, t[2])]
  {
    var vec := new real[3];
    flag := Vector(q, vec);
    out[0] := fn(vec[0], t[0]);
    out[1] := fn(vec[1], t[1]);
    out[2] := fn(vec[2], t[2]);
    flag := Success;
  }

  /** apply(const quaternion &p, fn, quaternion &out): fn on all four coefficient pairs. */
  method ApplyQuat(q: Quat, p: Quat, fn: (real, real) --> real) returns (flag: Flag, out: Quat)
    requires fn.requires(q.r, p.r) && fn.requires(q.x, p.x) && fn.requires(q.y, p.y) && fn.requires(q.z, p.z)
    ensures flag == Success
    ensures out == Quat(fn(q.r, p.r), fn(q.x, p.x), fn(q.y, p.y), fn(q.z, p.z))
  {
    var s, ps: real;
    flag, s := Scalar(q);
    flag, ps := Scalar(p);
    var sresult := fn(s, ps);
    var ovec := new real[3];
    var qvec := new real[3];
    flag := Vector(p, qvec);
    flag := ApplyVector(q, qvec[..], fn, ovec);
    out := FromScalarAndVector(sresult, ovec[..]);
    flag := Success;
  }

  /** apply(const T &k, fn, quaternion &out): fn(c, k) on all four coefficients c. */
  method ApplyScalarQuat(q: Quat, k: real, fn: (real, real) --> real) returns (flag: Flag, out: Quat)
    requires fn.requires(q.r, k) && fn.requires(q.x, k) && fn.requires(q.y, k) && fn.requires(q.z, k)
    ensures flag == Success
    ensures out == Quat(fn(q.r, k), fn(q.x, k), fn(q.y, k), fn(q.z, k))
  {
    var s: real;
    flag, s := Scalar(q);
    var sres := fn(s, k);
    var vec := new real[3];
    flag := Vector(q, vec);
    var ovec := new real[3];
    ovec[0] := fn(vec[0], k);
    ovec[1] := fn(vec[1], k);
    ovec[2] := fn(vec[2], k);
    out := FromScalarAndVector(sres, ovec[..]);
    flag := Success;
  }

  /** vector_multiplication(T t, out): each vector coefficient multiplied by t. */
  method VectorMultiplicationScalar(q: Quat, t: real, out: array<real>) returns (flag: Flag)
    requires out.Length == 3
    modifies out
    ensures flag == Success
    ensures out[..] == VectorPart(A.VectorMul(q, t))
  {
    flag := ApplyScalar(q, t, (a, b) => a * b, out);
    A.ScaledCoordinates(q, t, out[0], out[1], out[2]);
    assert out[..] == [out[0], out[1], out[2]];
  }

  /** vector_addition(T t, out): t added to each vector coefficient. */
  method VectorAdditionScalar(q: Quat, t: real, out: array<real>) returns (flag: Flag)
    requires out.Length == 3
    modifies out
    ensures flag == Success
    ensures out[..] == VectorPart(A.VectorAdd(q, t))
  {
    flag := ApplyScalar(q, t, (a, b) => a + b, out);
  }

  /** vector_subtraction(T t, out): t subtracted from each vector coefficient. */
  method VectorSubtractionScalar(q: Quat, t: real, out: array<real>) returns (flag: Flag)
    requires out.Length == 3
    modifies out
    ensures flag == Success
    ensures out[..] == VectorPart(A.VectorSub(q, t))
  {
    flag := ApplyScalar(q, t, (a, b) => a - b, out);
  }

  /**
   * vector_division(T t, out): each vector coefficient divided by t; a zero
   * divisor is refused with ARG_ERROR before out is touched.
   */
  method VectorDivisionScalar(q: Quat, t: real, out: array<real>) returns (flag: Flag)
    requires out.Length == 3
    modifies out
    ensures flag == Success || flag == ArgError
    ensures flag == ArgError <==> t == 0.0
    ensures flag == ArgError ==> out[..] == old(out[..])
    ensures flag == Success ==> out[..] == VectorPart(A.VectorDiv(q, t))
  {
    if t == 0.0 {
      return ArgError;
    }
    flag := ApplyScalar(q, t, (a, b) requires b != 0.0 => a / b, out);
  }

  /** vector_multiplication(T t[3], out): elementwise product with t. */
  method VectorMultiplicationArray(q: Quat, t: seq<real>, out: array<real>) returns (flag: Flag)
    requires out.Length == 3 && |t| == 3
    modifies out
    ensures flag == Success
    ensures out[..] == VectorPart(A.VectorMulEach(q, t))
  {
    flag := ApplyVector(q, t, (a, b) => a * b, out);
    A.ProductCoordinates(q, t, out[0], out[1], out[2]);
    assert out[..] == [out[0], out[1], out[2]];
  }

  /** vector_addition(T t[3], out): elementwise sum with t. */
  method VectorAdditionArray(q: Quat, t: seq<real>, out: array<real>) returns (flag: Flag)
    requires out.Length == 3 && |t| == 3
    modifies out
    ensures flag == Success
    ensures out[..] == VectorPart(A.VectorAddEach(q, t))
  {
    flag := ApplyVector(q, t, (a, b) => a + b, out);
  }

  /** vector_subtraction(T t[3], out): elementwise difference with t. */
  method VectorSubtractionArray(q: Quat, t: seq<real>, out: array<real>) returns (flag: Flag)
    requires out.Length == 3 && |t| == 3
    modifies out
    ensures flag == Success
    ensures out[..] == VectorPart(A.VectorSubEach(q, t))
  {
    flag := ApplyVector(q, t, (a, b) => a - b, out);
  }

  /**
   * vector_division(T t[3], out): elementwise quotient by t. Every divisor is
   * checked before anything is written; one zero refuses the whole call.
   */
  method VectorDivisionArray(q: Quat, t: seq<real>, out: array<real>) returns (flag: Flag)
    requires out.Length == 3 && |t| == 3
    modifies out
    ensures flag == Success || flag == ArgError
    ensures flag == ArgError <==> 0.0 in t
    ensures flag == ArgError ==> out[..] == old(out[..])
    ensures flag == Success ==> out[..] == VectorPart(A.VectorDivEach(q, t))
  {
    var i := 0;
    while i < 3
      invariant 0 <= i <= 3
      invariant forall k :: 0 <= k < i ==> t[k] != 0.0
    {
      if t[i] == 0.0 {
        return ArgError;
      }
      i := i + 1;
    }
    flag := ApplyVector(q, t, (a, b) requires b != 0.0 => a / b, out);
  }

  // ---------------------------------------------------------------------
  // Dot and cross product
  // ---------------------------------------------------------------------

  /** vector_dot(T v[3], T t[3], T &out): the dot product of two 3-vectors. */
  method VectorDotPair(v: seq<real>, t: seq<real>) returns (flag: Flag, out: real)
    requires |v| == 3 && |t| == 3
    ensures flag == Success
    ensures out == A.Dot(v, t)
  {
    out := t[0] * v[0] + t[1] * v[1] + t[2] * v[2];
    flag := Success;
  }

  /** vector_dot(T t[3], T &out): the receiver's vector dotted with t. */
  method VectorDot(q: Quat, t: seq<real>) returns (flag: Flag, out: real)
    requires |t| == 3
    ensures flag == Success
    ensures out == A.Dot(VectorPart(q), t)
  {
    var v := new real[3];
    flag := Vector(q, v);
    flag, out := VectorDotPair(v[..], t);
  }

  /** vector_cross(T t[3], out): the receiver's vector crossed with t. */
  method VectorCross(q: Quat, t: seq<real>, out: array<real>) returns (flag: Flag)
    requires out.Length == 3 && |t| == 3
    modifies out
    ensures flag == Success
    ensures out[..] == A.Cross(VectorPart(q), t)
  {
    var vec := new real[3];
    flag := Vector(q, vec);
    out[0] := vec[1] * t[2] - vec[2] * t[1];
    out[1] := vec[2] * t[0] - vec[0] * t[2];
    out[2] := vec[0] * t[1] - vec[1] * t[0];
    CrossByCoordinates(vec[..], t, out[..]);
    flag := Success;
  }

  /** The three assignments of vector_cross produce Cross. */
  lemma CrossByCoordinates(v: seq<real>, t: seq<real>, c: seq<real>)
    requires |v| == 3 && |t| == 3 && |c| == 3
    requires c[0] == v[1] * t[2] - v[2] * t[1]
    requires c[1] == v[2] * t[0] - v[0] * t[2]
    requires c[2] == v[0] * t[1] - v[1] * t[0]
    ensures c == A.Cross(v, t)
  {
  }

  // ---------------------------------------------------------------------
  // Quaternion operations
  // ---------------------------------------------------------------------

  /**
   * hamilton_product(q_b, out): (s_a s_b − a·b, s_a b + s_b a + a × b), the
   * vector part filled in one coordinate at a time.
   */
  method HamiltonProduct(qa: Quat, qb: Quat) returns (flag: Flag, out: Quat)
    ensures flag == Success
    ensures out == A.Hamilton(qa, qb)
  {
    var s_a, s_b: real;
    flag, s_a := Scalar(qa);
    flag, s_b := Scalar(qb);
    var a := new real[3];
    flag := Vector(qa, a);
    var b := new real[3];
    flag := Vector(qb, b);
    var s_ab := s_a * s_b;
    var a_dot_b: real;
    flag, a_dot_b := VectorDotPair(a[..], b[..]);
    assert s_ab - a_dot_b == A.HamiltonScalar(qa, qb);
    var cross_ab := new real[3];
    flag := VectorCross(qa, b[..], cross_ab);
    var tout := new real[3];
    flag := CombineVectorParts(s_a, s_b, a, b, cross_ab, tout);
    HamiltonCoordinates(qa, qb, s_a, s_b, a[..], b[..], cross_ab[..], tout[..]);
    out := FromScalarAndVector(s_ab - a_dot_b, tout[..]);
    flag := Success;
  }

  /**
   * The loop of hamilton_product that fills tout: coordinate i of the vector
   * part is s_a b[i] + s_b a[i] + (a × b)[i].
   */
  method CombineVectorParts(s_a: real, s_b: real, a: array<real>, b: array<real>,
                            cross_ab: array<real>, tout: array<real>) returns (flag: Flag)
    requires a.Length == 3 && b.Length == 3 && cross_ab.Length == 3 && tout.Length == 3
    requires tout != a && tout != b && tout != cross_ab
    modifies tout
    ensures flag == Success
    ensures forall k :: 0 <= k < 3 ==> tout[k] == s_a * b[k] + s_b * a[k] + cross_ab[k]
  {
    var i := 0;
    while i < 3
      invariant 0 <= i <= 3
      invariant forall k :: 0 <= k < i ==> tout[k] == s_a * b[k] + s_b * a[k] + cross_ab[k]
    {
      tout[i] := s_a * b[i] + s_b * a[i] + cross_ab[i];
      i := i + 1;
    }
    flag := Success;
  }

  /**
   * Coordinate k of s_a b + s_b a + a × b, as the loop of hamilton_product
   * computes it, is coordinate k of the vector part of the Hamilton product.
   */
  lemma HamiltonCoordinates(qa: Quat, qb: Quat, s_a: real, s_b: real, a: seq<real>, b: seq<real>,
                            cross_ab: seq<real>, v: seq<real>)
    requires s_a == qa.r && s_b == qb.r && a == VectorPart(qa) && b == VectorPart(qb)
    requires cross_ab == A.Cross(a, b)
    requires |v| == 3 && forall k :: 0 <= k < 3 ==> v[k] == s_a * b[k] + s_b * a[k] + cross_ab[k]
    ensures v == A.HamiltonVector(qa, qb)
  {
    var h := A.HamiltonVector(qa, qb);
    assert h[0] == v[0];
    assert h[1] == v[1];
    assert h[2] == v[2];
  }


  /** conjugate(out): the scalar kept, the vector multiplied by −1. */
  method Conjugate(q: Quat) returns (flag: Flag, out: Quat)
    ensures flag == Success
    ensures out == A.Conj(q)
    ensures A.Sum(q, out) == A.Real(2.0 * q.r)
  {
    var s: real;
    flag, s := Scalar(q);
    var vec := new real[3];
    flag := Vector(q, vec);
    flag := VectorMultiplicationScalar(q, -1.0, vec);
    out := FromScalarAndVector(s, vec[..]);
    flag := Success;
  }

  /** add(q, out): coefficientwise sum. */
  method Add(q: Quat, p: Quat) returns (flag: Flag, out: Quat)
    ensures flag == Success
    ensures out == A.Sum(q, p)
    ensures A.Difference(out, p) == q
  {
    flag, out := ApplyQuat(q, p, (a, b) => a + b);
  }

  /** subtract(q, out): coefficientwise difference. */
  method Subtract(q: Quat, p: Quat) returns (flag: Flag, out: Quat)
    ensures flag == Success
    ensures out == A.Difference(q, p)
    ensures A.Sum(out, p) == q
  {
    flag, out := ApplyQuat(q, p, (a, b) => a - b);
  }

  /** product(const quaternion &p, out): the Hamilton product. */
  method ProductQuat(q: Quat, p: Quat) returns (flag: Flag, out: Quat)
    ensures flag == Success
    ensures out == A.Hamilton(q, p)
  {
    flag, out := HamiltonProduct(q, p);
  }

  /** product(T r, out): every coefficient scaled by r, which is the product with the real quaternion r. */
  method ProductScalar(q: Quat, r: real) returns (flag: Flag, out: Quat)
    ensures flag == Success
    ensures out == A.Scale(q, r)
    ensures out == A.Hamilton(q, A.Real(r))
  {
    flag, out := ApplyScalarQuat(q, r, (a, b) => a * b);
    A.HamiltonByReal(q, r);
  }

  /**
   * power(i, out): the accumulator starts at q and is multiplied by q on the
   * right i − 1 times, so power(i) = q^i for i ≥ 1 and power(0) = q.
   */
  method Power(q: Quat, i: nat) returns (flag: Flag, out: Quat)
    ensures flag == Success
    ensures i >= 1 ==> out == A.Pow(q, i)
    ensures i == 0 ==> out == q
  {
    var accumulant := q;
    var result2 := q;
    A.PowOne(q);
    var j := 1;
    while j < i
      invariant 1 <= j <= if i == 0 then 1 else i
      invariant accumulant == A.Pow(q, j)
    {
      flag, accumulant := HamiltonProduct(accumulant, result2);
      j := j + 1;
    }
    out := accumulant;
    flag := Success;
  }

  /** squared(out): q·q, the same as power(2). */
  method Squared(q: Quat) returns (flag: Flag, out: Quat)
    ensures flag == Success
    ensures out == A.Hamilton(q, q)
    ensures out == A.Pow(q, 2)
  {
    var r1 := q;
    var r2 := q;
    flag, out := ProductQuat(q, r1);
    flag, out := ProductQuat(q, r2);
    A.PowTwo(q);
  }

  /** determinant(out): r² + x² + y² + z², never negative and zero only for the zero quaternion. */
  method Determinant(q: Quat) returns (flag: Flag, out: real)
    ensures flag == Success
    ensures out == A.Det(q)
    ensures out >= 0.0
    ensures out == 0.0 <==> q == A.Zero()
  {
    var s: real;
    flag, s := Scalar(q);
    var vec := new real[3];
    flag := Vector(q, vec);
    var a2 := s * s;
    var b2 := vec[0] * vec[0];
    var c2 := vec[1] * vec[1];
    var d2 := vec[2] * vec[2];
    out := a2 + b2 + c2 + d2;
    A.DetZeroIff(q);
    flag := Success;
  }

  /** det(out): another name for determinant. */
  method Det(q: Quat) returns (flag: Flag, out: real)
    ensures flag == Success
    ensures out == A.Det(q)
    ensures A.Hamilton(q, A.Conj(q)) == A.Real(out)
  {
    flag, out := Determinant(q);
    A.HamiltonConjIsDet(q);
  }

  /**
   * inversed(out), as written: the scalar is conj(q).r / det, but the vector
   * part is the receiver's own vector scaled by 1/det, not the conjugate's,
   * so the result is q/det(q).
   */
  method Inversed(q: Quat) returns (flag: Flag, out: Quat)
    requires A.Det(q) != 0.0
    ensures flag == Success
    ensures out == A.Scale(q, 1.0 / A.Det(q))
  {
    var det_out: real;
    flag, det_out := Det(q);
    var inv_mag2 := 1.0 / det_out;
    var conj: Quat;
    flag, conj := Conjugate(q);
    var conj_scalar: real;
    flag, conj_scalar := Scalar(conj);
    var spart := conj_scalar * inv_mag2;
    var vs := new real[3];
    flag := VectorMultiplicationScalar(q, inv_mag2, vs);
    out := FromScalarAndVector(spart, vs[..]);
    flag := Success;
  }

  /**
   * inversed(out) with the vector part taken from the conjugate, as the
   * repository's tests expect: conj(q)/det(q), a two-sided inverse of q.
   */
  method InversedCorrected(q: Quat) returns (flag: Flag, out: Quat)
    requires A.Det(q) != 0.0
    ensures flag == Success
    ensures out == A.Inverse(q)
    ensures A.Hamilton(q, out) == A.One() && A.Hamilton(out, q) == A.One()
  {
    var det_out: real;
    flag, det_out := Det(q);
    var inv_mag2 := 1.0 / det_out;
    var conj: Quat;
    flag, conj := Conjugate(q);
    var conj_scalar: real;
    flag, conj_scalar := Scalar(conj);
    var spart := conj_scalar * inv_mag2;
    var vs := new real[3];
    flag := VectorMultiplicationScalar(conj, inv_mag2, vs);
    out := FromScalarAndVector(spart, vs[..]);
    A.InverseIsInverse(q);
    flag := Success;
  }

  /**
   * For q = (2, −2, 3, −4), det 33, inversed as written yields q/33, whose
   * product with q is q²/33 = (−25, −8, 12, −16)/33 rather than 1, while the
   * tests expect (2, 2, −3, 4)/33, the corrected inverse.
   */
  lemma InversedIsNotInverse()
    ensures A.Det(Quat(2.0, -2.0, 3.0, -4.0)) == 33.0
    ensures A.Scale(Quat(2.0, -2.0, 3.0, -4.0), 1.0 / 33.0) != A.Inverse(Quat(2.0, -2.0, 3.0, -4.0))
    ensures A.Inverse(Quat(2.0, -2.0, 3.0, -4.0)) == Quat(2.0 / 33.0, 2.0 / 33.0, -3.0 / 33.0, 4.0 / 33.0)
    ensures A.Hamilton(Quat(2.0, -2.0, 3.0, -4.0), A.Scale(Quat(2.0, -2.0, 3.0, -4.0), 1.0 / 33.0)) != A.One()
  {
    var q := Quat(2.0, -2.0, 3.0, -4.0);
    var w := A.Scale(q, 1.0 / 33.0);
    A.HamiltonExpanded(q, w);
  }
}
