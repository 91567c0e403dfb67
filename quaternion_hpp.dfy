/**
 * The header-only float variant quat::quaternion (quaternion.hpp).
 *
 * The object keeps its four coefficients in a fixed array that the
 * in-place vector_* operations update, so it is a class over a length-4
 * `array<real>`. The const vector_* overloads write into a caller's
 * `real v[3]`, an `array<real>` of length 3. The operations that return a
 * new quaternion by value (hamilton_product, conjugate, inversed, the
 * operators, power, determinant) are functions on the coefficient value
 * Q.Quat of the receiver, `Value()`, and power, which loops, is a method.
 */
module QuatFloat {
  import Q = QuatTypes
  import A = Quat11Algebra

  /** QUATERNION_BASE of this namespace: N is the tag of the scalar. */
  datatype Base = N | I | J | K

  /** quat_c: a coefficient value labelled with a base. */
  datatype Component = Component(base: Base, r: real)

  // ---------------------------------------------------------------------
  // The class
  // ---------------------------------------------------------------------

  class Quaternion {
    /** coeffs[0] is the scalar, coeffs[1..3] the vector part. */
    const coeffs: array<real>

    ghost predicate Valid()
    {
      coeffs.Length == 4
    }

    /** The coefficients as a quaternion value. */
    function Value(): Q.Quat
      requires Valid()
      reads coeffs
    {
      Q.Quat(coeffs[0], coeffs[1], coeffs[2], coeffs[3])
    }

    /** quaternion(): the in-class initialiser {0, 1, 1, 1}. */
    constructor Default()
      ensures Valid() && fresh(coeffs)
      ensures Value() == Q.Default()
    {
      coeffs := new real[] [0.0, 1.0, 1.0, 1.0];
    }

    /** quaternion(x, y, z, w): stored positionally, x being the scalar. */
    constructor FromScalars(x: real, y: real, z: real, w: real)
      ensures Valid() && fresh(coeffs)
      ensures Q.Coeffs(Value()) == [x, y, z, w]
    {
      coeffs := new real[] [x, y, z, w];
    }

    /** quaternion(real c[4]): copies c. */
    constructor FromArray(c: seq<real>)
      requires |c| == 4
      ensures Valid() && fresh(coeffs)
      ensures Q.Coeffs(Value()) == c
    {
      coeffs := new real[] [c[0], c[1], c[2], c[3]];
    }

    /** quaternion(c1, qc2, qc3, qc4): the components' tags are not looked at. */
    constructor FromScalarAndComponents(c1: real, qc2: Component, qc3: Component, qc4: Component)
      ensures Valid() && fresh(coeffs)
      ensures Q.Coeffs(Value()) == [c1, qc2.r, qc3.r, qc4.r]
    {
      coeffs := new real[] [c1, qc2.r, qc3.r, qc4.r];
    }

    /** quaternion(c1, real cs[3]): scalar plus vector part. */
    constructor FromScalarAndVector(c1: real, cs: seq<real>)
      requires |cs| == 3
      ensures Valid() && fresh(coeffs)
      ensures Value().r == c1 && Q.VectorPart(Value()) == cs
    {
      coeffs := new real[] [c1, cs[0], cs[1], cs[2]];
    }

    /** scalar(): coeffs[0]. */
    function Scalar(): (s: real)
      requires Valid()
      reads coeffs
      ensures s == Value().r
    {
      coeffs[0]
    }

    /** r(), x(), y(), z(): the four coefficients. */
    function R(): (c: real)
      requires Valid()
      reads coeffs
      ensures c == Q.Coeffs(Value())[0]
    {
      coeffs[0]
    }

    function X(): (c: real)
      requires Valid()
      reads coeffs
      ensures c == Q.Coeffs(Value())[1]
    {
      coeffs[1]
    }

    function Y(): (c: real)
      requires Valid()
      reads coeffs
      ensures c == Q.Coeffs(Value())[2]
    {
      coeffs[2]
    }

    function Z(): (c: real)
      requires Valid()
      reads coeffs
      ensures c == Q.Coeffs(Value())[3]
    {
      coeffs[3]
    }

    /** vector(v): copies x, y, z into v. */
    method Vector(v: array<real>)
      requires Valid() && v.Length == 3
      modifies v
      ensures v[..] == Q.VectorPart(Value())
    {
      v[0] := X();
      v[1] := Y();
      v[2] := Z();
    }

    /**
     * get_component(i, c): the coefficient at index i with its tag; for any
     * other index false is returned and c is left as it was.
     */
    method GetComponent(i: nat, c: Component) returns (ok: bool, c': Component)
      requires Valid()
      ensures ok <==> i < 4
      ensures ok ==> c' == Component([N, I, J, K][i], Q.Coeffs(Value())[i])
      ensures !ok ==> c' == c
    {
      if i == 0 {
        c' := Component(N, coeffs[0]);
        ok := true;
      } else if i == 1 {
        c' := Component(I, coeffs[1]);
        ok := true;
      } else if i == 2 {
        c' := Component(J, coeffs[2]);
        ok := true;
      } else if i == 3 {
        c' := Component(K, coeffs[3]);
        ok := true;
      } else {
        c' := c;
        ok := false;
      }
    }

    // -------------------------------------------------------------------
    // In-place operations on the vector part
    // -------------------------------------------------------------------

    /** vector_multiplication(t): each vector coefficient multiplied by t in place. */
    method VectorMultiplication(t: real) returns (ok: bool)
      requires Valid()
      modifies coeffs
      ensures ok
      ensures Value() == A.VectorMul(old(Value()), t)
    {
      coeffs[1] := coeffs[1] * t;
      coeffs[2] := coeffs[2] * t;
      coeffs[3] := coeffs[3] * t;
      ok := true;
    }

    /** vector_addition(t): t added to each vector coefficient in place. */
    method VectorAddition(t: real) returns (ok: bool)
      requires Valid()
      modifies coeffs
      ensures ok
      ensures Value() == A.VectorAdd(old(Value()), t)
    {
      coeffs[1] := coeffs[1] + t;
      coeffs[2] := coeffs[2] + t;
      coeffs[3] := coeffs[3] + t;
      ok := true;
    }

    /** vector_subtraction(t): t subtracted from each vector coefficient in place. */
    method VectorSubtraction(t: real) returns (ok: bool)
      requires Valid()
      modifies coeffs
      ensures ok
      ensures Value() == A.VectorSub(old(Value()), t)
    {
      coeffs[1] := coeffs[1] - t;
      coeffs[2] := coeffs[2] - t;
      coeffs[3] := coeffs[3] - t;
      ok := true;
    }

    /** vector_division(t): refused for t = 0, otherwise each vector coefficient divided by t in place. */
    method VectorDivision(t: real) returns (ok: bool)
      requires Valid()
      modifies coeffs
      ensures ok <==> t != 0.0
      ensures ok ==> Value() == A.VectorDiv(old(Value()), t)
      ensures !ok ==> Value() == old(Value())
    {
      if t == 0.0 {
        return false;
      }
      coeffs[1] := coeffs[1] / t;
      coeffs[2] := coeffs[2] / t;
      coeffs[3] := coeffs[3] / t;
      ok := true;
    }

    // -------------------------------------------------------------------
    // Const operations writing into a caller's buffer
    // -------------------------------------------------------------------

    /** vector_multiplication(v, t): the vector part times t into v. */
    method VectorMultiplicationTo(v: array<real>, t: real) returns (ok: bool)
      requires Valid() && v.Length == 3
      modifies v
      ensures ok
      ensures v[..] == Q.VectorPart(A.VectorMul(Value(), t))
    {
      v[0] := X() * t;
      v[1] := Y() * t;
      v[2] := Z() * t;
      A.ScaledCoordinates(Value(), t, v[0], v[1], v[2]);
      assert v[..] == [v[0], v[1], v[2]];
      ok := true;
    }

    /** vector_addition(v, t): the vector part plus t into v. */
    method VectorAdditionTo(v: array<real>, t: real) returns (ok: bool)
      requires Valid() && v.Length == 3
      modifies v
      ensures ok
      ensures v[..] == Q.VectorPart(A.VectorAdd(Value(), t))
    {
      v[0] := X() + t;
      v[1] := Y() + t;
      v[2] := Z() + t;
      ok := true;
    }

    /** vector_subtraction(v, t): the vector part minus t into v. */
    method VectorSubtractionTo(v: array<real>, t: real) returns (ok: bool)
      requires Valid() && v.Length == 3
      modifies v
      ensures ok
      ensures v[..] == Q.VectorPart(A.VectorSub(Value(), t))
    {
      v[0] := X() - t;
      v[1] := Y() - t;
      v[2] := Z() - t;
      ok := true;
    }

    /** vector_division(v, t): refused for t = 0, otherwise the vector part over t into v. */
    method VectorDivisionTo(v: array<real>, t: real) returns (ok: bool)
      requires Valid() && v.Length == 3
      modifies v
      ensures ok <==> t != 0.0
      ensures ok ==> v[..] == Q.VectorPart(A.VectorDiv(Value(), t))
      ensures !ok ==> v[..] == old(v[..])
    {
      if t == 0.0 {
        return false;
      }
      v[0] := X() / t;
      v[1] := Y() / t;
      v[2] := Z() / t;
      ok := true;
    }

    /** vector_multiplication(v, t[3]): the elementwise product into v. */
    method VectorMultiplicationArray(v: array<real>, t: seq<real>) returns (ok: bool)
      requires Valid() && v.Length == 3 && |t| == 3
      modifies v
      ensures ok
      ensures v[..] == Q.VectorPart(A.VectorMulEach(Value(), t))
    {
      v[0] := X() * t[0];
      v[1] := Y() * t[1];
      v[2] := Z() * t[2];
      A.ProductCoordinates(Value(), t, v[0], v[1], v[2]);
      assert v[..] == [v[0], v[1], v[2]];
      ok := true;
    }

    /** vector_addition(v, t[3]): the elementwise sum into v. */
    method VectorAdditionArray(v: array<real>, t: seq<real>) returns (ok: bool)
      requires Valid() && v.Length == 3 && |t| == 3
      modifies v
      ensures ok
      ensures v[..] == Q.VectorPart(A.VectorAddEach(Value(), t))
    {
      v[0] := X() + t[0];
      v[1] := Y() + t[1];
      v[2] := Z() + t[2];
      ok := true;
    }

    /** vector_subtraction(v, t[3]): the elementwise difference into v. */
    method VectorSubtractionArray(v: array<real>, t: seq<real>) returns (ok: bool)
      requires Valid() && v.Length == 3 && |t| == 3
      modifies v
      ensures ok
      ensures v[..] == Q.VectorPart(A.VectorSubEach(Value(), t))
    {
      v[0] := X() - t[0];
      v[1] := Y() - t[1];
      v[2] := Z() - t[2];
      ok := true;
    }

    /**
     * vector_division(v, t[3]): every divisor is checked first; a single
     * zero refuses the call before v is written.
     */
    method VectorDivisionArray(v: array<real>, t: seq<real>) returns (ok: bool)
      requires Valid() && v.Length == 3 && |t| == 3
      modifies v
      ensures ok <==> 0.0 !in t
      ensures ok ==> v[..] == Q.VectorPart(A.VectorDivEach(Value(), t))
      ensures !ok ==> v[..] == old(v[..])
    {
      var i := 0;
      while i < 3
        invariant 0 <= i <= 3
        invariant forall k :: 0 <= k < i ==> t[k] != 0.0
      {
        if t[i] == 0.0 {
          return false;
        }
        i := i + 1;
      }
      v[0] := X() / t[0];
      v[1] := Y() / t[1];
      v[2] := Z() / t[2];
      ok := true;
    }
  }

  // ---------------------------------------------------------------------
  // Operations returning a new quaternion
  // ---------------------------------------------------------------------

  /**
   * hamilton_product(q): the sixteen-term component formula. It agrees with
   * the scalar/vector formula of the quat11 variant.
   */
  function HamiltonProduct(p: Q.Quat, q: Q.Quat): (h: Q.Quat)
    ensures h == A.Hamilton(p, q)
  {
    var a1, a2, b1, b2 := p.r, q.r, p.x, q.x;
    var c1, c2, d1, d2 := p.y, q.y, p.z, q.z;
    var a12, b12, c12, d12 := a1 * a2, b1 * b2, c1 * c2, d1 * d2;
    var r_val := a12 - b12 - c12 - d12;
    var b_val := a1 * b2 + b1 * a2 + c1 * d2 - d1 * c2;
    var c_val := a1 * c2 - b1 * d2 + c1 * a2 + d1 * b2;
    var d_val := a1 * d2 + b1 * c2 - c1 * b2 + d1 * a2;
    ComponentFormIsHamilton(p, q, r_val, b_val, c_val, d_val);
    Q.Quat(r_val, b_val, c_val, d_val)
  }

  /** The four coefficients hamilton_product computes form the Hamilton product. */
  lemma ComponentFormIsHamilton(p: Q.Quat, q: Q.Quat, r_val: real, b_val: real, c_val: real, d_val: real)
    requires r_val == p.r * q.r - p.x * q.x - p.y * q.y - p.z * q.z
    requires b_val == p.r * q.x + p.x * q.r + p.y * q.z - p.z * q.y
    requires c_val == p.r * q.y - p.x * q.z + p.y * q.r + p.z * q.x
    requires d_val == p.r * q.z + p.x * q.y - p.y * q.x + p.z * q.r
    ensures Q.Quat(r_val, b_val, c_val, d_val) == A.Hamilton(p, q)
  {
    var m := A.Mul(p, q);
    assert m.r == r_val && m.x == b_val && m.y == c_val && m.z == d_val;
    A.HamiltonExpanded(p, q);
  }

  /** The product is associative and has the identity (1, 0, 0, 0) on both sides. */
  lemma HamiltonProductLaws(p: Q.Quat, q: Q.Quat, s: Q.Quat)
    ensures HamiltonProduct(HamiltonProduct(p, q), s) == HamiltonProduct(p, HamiltonProduct(q, s))
    ensures HamiltonProduct(A.One(), p) == p && HamiltonProduct(p, A.One()) == p
  {
    A.HamiltonAssociative(p, q, s);
    A.HamiltonIdentity(p);
  }

  /** conjugate(): the vector part negated; q times its conjugate is the real det(q). */
  function Conjugate(q: Q.Quat): (c: Q.Quat)
    ensures c == A.Conj(q)
    ensures HamiltonProduct(q, c) == A.Real(A.Det(q)) && HamiltonProduct(c, q) == A.Real(A.Det(q))
  {
    A.HamiltonConjIsDet(q);
    var a1, b1, c1, d1 := q.r, q.x, q.y, q.z;
    Q.Quat(a1, -b1, -c1, -d1)
  }

  /** The conjugate of a product is the product of the conjugates in reverse order. */
  lemma ConjugateOfProduct(p: Q.Quat, q: Q.Quat)
    ensures Conjugate(HamiltonProduct(p, q)) == HamiltonProduct(Conjugate(q), Conjugate(p))
    ensures Conjugate(Conjugate(p)) == p
  {
    A.ConjReversesProduct(p, q);
  }

  /** determinant(): r² + x² + y² + z², never negative, zero only at the zero quaternion. */
  function Determinant(q: Q.Quat): (d: real)
    ensures d == A.Det(q)
    ensures d >= 0.0
    ensures d == 0.0 <==> q == A.Zero()
  {
    A.DetZeroIff(q);
    var a2 := q.r * q.r;
    var b2 := q.x * q.x;
    var c2 := q.y * q.y;
    var d2 := q.z * q.z;
    a2 + b2 + c2 + d2
  }

  /** det(): another name for determinant; the conjugate does not change it. */
  function Det(q: Q.Quat): (d: real)
    ensures d == A.Det(q)
    ensures d == Determinant(Conjugate(q))
  {
    A.DetConj(q);
    Determinant(q)
  }

  /** operator+: coefficientwise sum. */
  function Plus(p: Q.Quat, q: Q.Quat): (s: Q.Quat)
    ensures s == A.Sum(p, q)
  {
    Q.FromScalarAndVector(p.r + q.r, Q.VectorPart(A.VectorAddEach(p, Q.VectorPart(q))))
  }

  /** operator-: coefficientwise difference. */
  function Minus(p: Q.Quat, q: Q.Quat): (d: Q.Quat)
    ensures d == A.Difference(p, q)
  {
    Q.FromScalarAndVector(p.r - q.r, Q.VectorPart(A.VectorSubEach(p, Q.VectorPart(q))))
  }

  /** operator- undoes operator+, and operator+ is commutative. */
  lemma PlusMinus(p: Q.Quat, q: Q.Quat)
    ensures Minus(Plus(p, q), q) == p && Plus(Minus(p, q), q) == p
    ensures Plus(p, q) == Plus(q, p)
  {
    A.SumDifference(p, q);
    A.SumDifference(q, p);
  }

  /** operator*(q): the Hamilton product. */
  function TimesQuat(p: Q.Quat, q: Q.Quat): (h: Q.Quat)
    ensures h == A.Hamilton(p, q)
  {
    HamiltonProduct(p, q)
  }

  /** operator*(r): every coefficient multiplied by r, the product with the real quaternion r. */
  function TimesScalar(q: Q.Quat, r: real): (s: Q.Quat)
    ensures s == A.Scale(q, r)
    ensures s == HamiltonProduct(q, A.Real(r)) && s == HamiltonProduct(A.Real(r), q)
  {
    A.HamiltonByReal(q, r);
    Q.FromScalarAndVector(q.r * r, Q.VectorPart(A.VectorMul(q, r)))
  }

  /**
   * inversed(), as written: the scalar is conjugate().scalar() / det, the
   * vector part is the receiver's own vector over det, so the result is q/det(q).
   */
  function Inversed(q: Q.Quat): (v: Q.Quat)
    requires A.Det(q) != 0.0
    ensures v == A.Scale(q, 1.0 / A.Det(q))
  {
    var inv_mag2 := 1.0 / Det(q);
    var spart := Conjugate(q).r * inv_mag2;
    Q.FromScalarAndVector(spart, Q.VectorPart(A.VectorMul(q, inv_mag2)))
  }

  /** inversed() with the vector part taken from the conjugate: a two-sided inverse. */
  function InversedCorrected(q: Q.Quat): (v: Q.Quat)
    requires A.Det(q) != 0.0
    ensures v == A.Inverse(q)
    ensures HamiltonProduct(q, v) == A.One() && HamiltonProduct(v, q) == A.One()
  {
    A.InverseIsInverse(q);
    var inv_mag2 := 1.0 / Det(q);
    var conj := Conjugate(q);
    Q.FromScalarAndVector(conj.r * inv_mag2, Q.VectorPart(A.VectorMul(conj, inv_mag2)))
  }

  /**
   * power(i), as written: result starts at q and is multiplied by q on the
   * left i times, so it is q^(i+1).
   */
  method Power(q: Q.Quat, i: nat) returns (result: Q.Quat)
    ensures result == A.Pow(q, i + 1)
  {
    result := q;
    A.PowOne(q);
    var j := 0;
    while j < i
      invariant j <= i
      invariant result == A.Pow(q, j + 1)
    {
      A.PowCommutes(q, j + 1);
      result := HamiltonProduct(q, result);
      j := j + 1;
    }
  }

  /**
   * power(i) with the loop counted from 1, which the tests' power(2) ==
   * squared expects: q^i for i ≥ 1, and q itself for i = 0.
   */
  method PowerCorrected(q: Q.Quat, i: nat) returns (result: Q.Quat)
    ensures i >= 1 ==> result == A.Pow(q, i)
    ensures i == 0 ==> result == q
  {
    result := q;
    A.PowOne(q);
    var j := 1;
    while j < i
      invariant 1 <= j <= if i == 0 then 1 else i
      invariant result == A.Pow(q, j)
    {
      A.PowCommutes(q, j);
      result := HamiltonProduct(q, result);
      j := j + 1;
    }
  }

  /**
   * For q = (2, −2, 3, −4) the tests expect power(2) to be q² = (−25, −8, 12, −16);
   * the loop as written yields q³ = (−166, 34, −51, 68).
   */
  lemma PowerTwoIsCube()
    ensures A.Pow(Q.Quat(2.0, -2.0, 3.0, -4.0), 2) == Q.Quat(-25.0, -8.0, 12.0, -16.0)
    ensures A.Pow(Q.Quat(2.0, -2.0, 3.0, -4.0), 3) == Q.Quat(-166.0, 34.0, -51.0, 68.0)
  {
    var q := Q.Quat(2.0, -2.0, 3.0, -4.0);
    A.PowTwo(q);
    A.HamiltonExpanded(q, q);
    var q2 := Q.Quat(-25.0, -8.0, 12.0, -16.0);
    A.HamiltonExpanded(q2, q);
  }

  /**
   * For q = (2, −2, 3, −4), det 33: inversed() as written is q/33, not the
   * (2, 2, −3, 4)/33 the tests expect, and its product with q has scalar
   * −25/33 rather than 1.
   */
  lemma InversedIsNotInverse()
    ensures Inversed(Q.Quat(2.0, -2.0, 3.0, -4.0)) == Q.Quat(2.0 / 33.0, -2.0 / 33.0, 3.0 / 33.0, -4.0 / 33.0)
    ensures HamiltonProduct(Q.Quat(2.0, -2.0, 3.0, -4.0), Inversed(Q.Quat(2.0, -2.0, 3.0, -4.0))).r == -25.0 / 33.0
  {
    var q := Q.Quat(2.0, -2.0, 3.0, -4.0);
    assert A.Det(q) == 33.0;
    var w := Inversed(q);
    assert w == A.Scale(q, 1.0 / 33.0);
    A.HamiltonExpanded(q, w);
  }

  /**
   * Inverting twice gives back q for the as-written inversed() as well as for
   * the corrected one, so a round-trip test cannot expose the missing negation.
   */
  lemma InversedRoundTrip(q: Q.Quat)
    requires A.Det(q) != 0.0
    ensures A.Det(Inversed(q)) != 0.0 && Inversed(Inversed(q)) == q
    ensures A.Det(InversedCorrected(q)) != 0.0 && InversedCorrected(InversedCorrected(q)) == q
  {
    A.ReciprocalScaleInvolutive(q);
    A.InverseInvolutive(q);
  }

  /** For the same q the corrected inverse is the (2, 2, −3, 4)/33 the tests expect. */
  lemma InversedCorrectedExample()
    ensures InversedCorrected(Q.Quat(2.0, -2.0, 3.0, -4.0)) == Q.Quat(2.0 / 33.0, 2.0 / 33.0, -3.0 / 33.0, 4.0 / 33.0)
  {
    var q := Q.Quat(2.0, -2.0, 3.0, -4.0);
    assert A.Det(q) == 33.0;
  }

  /** The examples of test_quaternion.cpp for the value-returning operations. */
  lemma OperatorExamples()
    ensures HamiltonProduct(Q.Quat(2.0, -2.0, 3.0, -4.0), Q.Quat(1.0, -2.0, 5.0, -6.0)) == Q.Quat(-41.0, -4.0, 9.0, -20.0)
    ensures Conjugate(Q.Quat(2.0, -2.0, 3.0, -4.0)) == Q.Quat(2.0, 2.0, -3.0, 4.0)
    ensures Plus(Q.Quat(2.0, -2.0, 3.0, -4.0), Q.Quat(1.0, -2.0, 5.0, -6.0)) == Q.Quat(3.0, -4.0, 8.0, -10.0)
    ensures Minus(Q.Quat(2.0, -2.0, 3.0, -4.0), Q.Quat(1.0, -2.0, 5.0, -6.0)) == Q.Quat(1.0, 0.0, -2.0, 2.0)
    ensures TimesScalar(Q.Quat(2.0, -2.0, 3.0, -4.0), 2.0) == Q.Quat(4.0, -4.0, 6.0, -8.0)
    ensures Determinant(Q.Quat(2.0, -2.0, 3.0, -4.0)) == 33.0
  {
  }
}
