/**
 * The declarations of quaternion.h (namespace quat11): the status codes every
 * operation returns, the tags of a quaternion component, the tagged component
 * itself and the quaternion value with its six constructors.
 *
 * The C++ class is generic over a scalar type T; here the scalar is `real`,
 * which is what every test example of the modelled operations exercises
 * (small integers and their quotients).
 */
module QuatTypes {

  /** QUATERNION_FLAGS: the status code returned by every quat11 operation. */
  datatype Flag = Success | SizeError | IndexError | ArgError

  /** The numeric values the enum gives the flags; only SUCCESS has code 1. */
  function Code(f: Flag): (c: nat)
    ensures 1 <= c <= 4
    ensures c == 1 <==> f == Success
  {
    match f
    case Success => 1
    case SizeError => 2
    case IndexError => 3
    case ArgError => 4
  }

  /** QUATERNION_BASE: which coefficient a component stands for. */
  datatype Base = ScalarBase | I | J | K

  /** quat_c: a coefficient value labelled with a base. */
  datatype Component = Component(base: Base, r: real)

  /**
   * A quaternion r + x·i + y·j + z·k; the fields are coeffs[0..3] of the C++
   * class, in that order.
   */
  datatype Quat = Quat(r: real, x: real, y: real, z: real)

  /** The four coefficients in storage order (r, x, y, z). */
  function Coeffs(q: Quat): (c: seq<real>)
    ensures |c| == 4
  {
    [q.r, q.x, q.y, q.z]
  }

  /** The vector part (x, y, z), i.e. coeffs[1..3]. */
  function VectorPart(q: Quat): (v: seq<real>)
    ensures |v| == 3 && v == Coeffs(q)[1..]
  {
    [q.x, q.y, q.z]
  }

  /** The tag get_component attaches to index i. */
  function BaseAt(i: nat): Base
    requires i < 4
  {
    [ScalarBase, I, J, K][i]
  }

  // ---------------------------------------------------------------------
  // The six constructors
  // ---------------------------------------------------------------------

  /** quaternion(): scalar zero and all-ones vector part. */
  function Default(): (q: Quat)
    ensures Coeffs(q) == [0.0, 1.0, 1.0, 1.0]
  {
    Quat(0.0, 1.0, 1.0, 1.0)
  }

  /** quaternion(x, y, z, w): stored positionally as (r, x, y, z). */
  function FromScalars(c0: real, c1: real, c2: real, c3: real): (q: Quat)
    ensures Coeffs(q) == [c0, c1, c2, c3]
  {
    Quat(c0, c1, c2, c3)
  }

  /** quaternion(const T c[4]): copies c[0..3]. */
  function FromArray(c: seq<real>): (q: Quat)
    requires |c| == 4
    ensures Coeffs(q) == c
  {
    Quat(c[0], c[1], c[2], c[3])
  }

  /** quaternion(T c1, quat_c qc2, quat_c qc3, quat_c qc4): the tags are not looked at. */
  function FromScalarAndComponents(c1: real, qc2: Component, qc3: Component, qc4: Component): (q: Quat)
    ensures Coeffs(q) == [c1, qc2.r, qc3.r, qc4.r]
  {
    Quat(c1, qc2.r, qc3.r, qc4.r)
  }

  /** quaternion(quat_c c1, …, quat_c qc4): c1.r is the scalar whatever c1's tag. */
  function FromComponents(c1: Component, qc2: Component, qc3: Component, qc4: Component): (q: Quat)
    ensures Coeffs(q) == [c1.r, qc2.r, qc3.r, qc4.r]
  {
    Quat(c1.r, qc2.r, qc3.r, qc4.r)
  }

  /** quaternion(T c1, T cs[3]): scalar plus vector part. */
  function FromScalarAndVector(c1: real, cs: seq<real>): (q: Quat)
    requires |cs| == 3
    ensures q.r == c1 && VectorPart(q) == cs
  {
    Quat(c1, cs[0], cs[1], cs[2])
  }

  // ---------------------------------------------------------------------
  // Facts about construction
  // ---------------------------------------------------------------------

  /** Reading the coefficients back and re-building gives the same quaternion. */
  lemma ArrayRoundTrip(q: Quat)
    ensures FromArray(Coeffs(q)) == q
  {
  }

  /** Splitting into scalar and vector part and re-building is the identity. */
  lemma ScalarVectorRoundTrip(q: Quat)
    ensures FromScalarAndVector(q.r, VectorPart(q)) == q
  {
  }

  /**
   * Tags never matter: the four-component constructor with any tag on its
   * first argument agrees with the scalar-plus-three-components one.
   */
  lemma ComponentTagsIgnored(b: Base, c1: real, qc2: Component, qc3: Component, qc4: Component)
    ensures FromComponents(Component(b, c1), qc2, qc3, qc4) == FromScalarAndComponents(c1, qc2, qc3, qc4)
  {
  }

  /** The examples of quat_tsts.cpp for the constructors. */
  lemma ConstructorExamples()
    ensures Default().r == 0.0 && VectorPart(Default()) == [1.0, 1.0, 1.0]
    ensures FromScalars(2.0, 3.0, 4.0, 5.0) == Quat(2.0, 3.0, 4.0, 5.0)
    ensures FromArray([2.0, 3.0, 4.0, 5.0]) == Quat(2.0, 3.0, 4.0, 5.0)
    ensures FromComponents(Component(ScalarBase, 2.0), Component(I, 3.0), Component(J, 4.0), Component(K, 5.0))
         == Quat(2.0, 3.0, 4.0, 5.0)
    ensures FromScalarAndComponents(2.0, Component(I, 3.0), Component(J, 4.0), Component(K, 5.0))
         == Quat(2.0, 3.0, 4.0, 5.0)
    ensures FromScalarAndVector(2.0, [3.0, 4.0, 5.0]) == Quat(2.0, 3.0, 4.0, 5.0)
  {
  }
}
