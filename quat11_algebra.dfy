/**
 * The formulas quaternion.cpp computes — dot product, cross product, the
 * Hamilton product in scalar/vector form, conjugate, determinant — as pure
 * functions, and the algebraic laws that hold of them.
 *
 * The methods of quaternion.cpp (module Quat11) are proved against these
 * functions, and the value-returning operations of quaternion.hpp (module
 * QuatFloat) are shown to agree with them.
 */
module Quat11Algebra {
  import opened QuatTypes

  // ---------------------------------------------------------------------
  // Vector formulas
  // ---------------------------------------------------------------------

  /** vector_dot(v, t): t[0]v[0] + t[1]v[1] + t[2]v[2]. */
  function Dot(v: seq<real>, t: seq<real>): real
    requires |v| == 3 && |t| == 3
  {
    t[0] * v[0] + t[1] * v[1] + t[2] * v[2]
  }

  /** vector_cross: the 3D cross product v × t. */
  function Cross(v: seq<real>, t: seq<real>): (c: seq<real>)
    requires |v| == 3 && |t| == 3
    ensures |c| == 3
  {
    [v[1] * t[2] - v[2] * t[1],
     v[2] * t[0] - v[0] * t[2],
     v[0] * t[1] - v[1] * t[0]]
  }

  /** The cross product is orthogonal to both of its factors. */
  lemma CrossOrthogonal(v: seq<real>, t: seq<real>)
    requires |v| == 3 && |t| == 3
    ensures Dot(Cross(v, t), v) == 0.0 && Dot(Cross(v, t), t) == 0.0
  {
  }

  /** The dot product does not depend on the order of its operands. */
  lemma DotSymmetric(v: seq<real>, t: seq<real>)
    requires |v| == 3 && |t| == 3
    ensures Dot(v, t) == Dot(t, v)
  {
  }

  /** A vector dotted with itself is a sum of squares. */
  lemma DotSelfNonNegative(v: seq<real>)
    requires |v| == 3
    ensures Dot(v, v) >= 0.0
  {
  }

  /** The cross product is anti-commutative: v × t = −(t × v). */
  lemma CrossAntiCommutative(v: seq<real>, t: seq<real>)
    requires |v| == 3 && |t| == 3
    ensures forall k :: 0 <= k < 3 ==> Cross(v, t)[k] == -Cross(t, v)[k]
  {
  }

  // ---------------------------------------------------------------------
  // Quaternion formulas
  // ---------------------------------------------------------------------

  /** The multiplicative identity 1 + 0i + 0j + 0k. */
  function One(): Quat { Quat(1.0, 0.0, 0.0, 0.0) }

  /** The zero quaternion. */
  function Zero(): Quat { Quat(0.0, 0.0, 0.0, 0.0) }

  /** The real quaternion k + 0i + 0j + 0k. */
  function Real(k: real): Quat { Quat(k, 0.0, 0.0, 0.0) }

  /** Scalar part of the Hamilton product: s_a s_b − a·b. */
  function HamiltonScalar(qa: Quat, qb: Quat): real
  {
    qa.r * qb.r - Dot(VectorPart(qa), VectorPart(qb))
  }

  /** Vector part of the Hamilton product: s_a b + s_b a + a × b. */
  function HamiltonVector(qa: Quat, qb: Quat): (v: seq<real>)
    ensures |v| == 3
  {
    var a, b := VectorPart(qa), VectorPart(qb);
    var c := Cross(a, b);
    [qa.r * b[0] + qb.r * a[0] + c[0],
     qa.r * b[1] + qb.r * a[1] + c[1],
     qa.r * b[2] + qb.r * a[2] + c[2]]
  }

  /** The Hamilton product in the scalar/vector form of the doc-comment of hamilton_product. */
  function Hamilton(qa: Quat, qb: Quat): Quat
  {
    FromScalarAndVector(HamiltonScalar(qa, qb), HamiltonVector(qa, qb))
  }

  /** conjugate: keep the scalar, negate the vector part. */
  function Conj(q: Quat): Quat
  {
    Quat(q.r, -q.x, -q.y, -q.z)
  }

  /** determinant: the sum of the squares of the four coefficients. */
  function Det(q: Quat): (d: real)
    ensures d >= 0.0
  {
    q.r * q.r + q.x * q.x + q.y * q.y + q.z * q.z
  }

  /** add: coefficientwise sum. */
  function Sum(p: Quat, q: Quat): Quat
  {
    Quat(p.r + q.r, p.x + q.x, p.y + q.y, p.z + q.z)
  }

  /** subtract: coefficientwise difference. */
  function Difference(p: Quat, q: Quat): Quat
  {
    Quat(p.r - q.r, p.x - q.x, p.y - q.y, p.z - q.z)
  }

  /** product(T r): every coefficient multiplied by k. */
  function Scale(q: Quat, k: real): Quat
  {
    Quat(q.r * k, q.x * k, q.y * k, q.z * k)
  }

  /** q^n as the left-folded product q·q·…·q (n factors), with q^0 the identity. */
  function Pow(q: Quat, n: nat): Quat
  {
    if n == 0 then One() else Hamilton(Pow(q, n - 1), q)
  }

  // ---------------------------------------------------------------------
  // The Hamilton product written out
  // ---------------------------------------------------------------------

  /** The sixteen-term component form of the product. */
  function Mul(a: Quat, b: Quat): Quat
  {
    Quat(a.r * b.r - a.x * b.x - a.y * b.y - a.z * b.z,
         a.r * b.x + a.x * b.r + a.y * b.z - a.z * b.y,
         a.r * b.y - a.x * b.z + a.y * b.r + a.z * b.x,
         a.r * b.z + a.x * b.y - a.y * b.x + a.z * b.r)
  }

  /** The scalar half of hamilton_product is the r-coefficient of the component form. */
  lemma HamiltonScalarExpanded(a: Quat, b: Quat)
    ensures HamiltonScalar(a, b) == Mul(a, b).r
  {
    assert Dot(VectorPart(a), VectorPart(b)) == b.x * a.x + b.y * a.y + b.z * a.z;
    assert b.x * a.x == a.x * b.x && b.y * a.y == a.y * b.y && b.z * a.z == a.z * b.z;
  }

  /** The vector half of hamilton_product is the (x, y, z) part of the component form. */
  lemma HamiltonVectorExpanded(a: Quat, b: Quat)
    ensures HamiltonVector(a, b) == VectorPart(Mul(a, b))
  {
    var va, vb := VectorPart(a), VectorPart(b);
    var c := Cross(va, vb);
    assert va[0] == a.x && va[1] == a.y && va[2] == a.z;
    assert vb[0] == b.x && vb[1] == b.y && vb[2] == b.z;
    assert c[0] == a.y * b.z - a.z * b.y;
    assert c[1] == a.z * b.x - a.x * b.z;
    assert c[2] == a.x * b.y - a.y * b.x;
    assert b.r * a.x == a.x * b.r && b.r * a.y == a.y * b.r && b.r * a.z == a.z * b.r;
    assert HamiltonVector(a, b)[0] == Mul(a, b).x;
    assert HamiltonVector(a, b)[1] == Mul(a, b).y;
    assert HamiltonVector(a, b)[2] == Mul(a, b).z;
  }

  /** The scalar/vector form of hamilton_product is the sixteen-term component form. */
  lemma HamiltonExpanded(a: Quat, b: Quat)
    ensures Hamilton(a, b) == Mul(a, b)
  {
    HamiltonScalarExpanded(a, b);
    HamiltonVectorExpanded(a, b);
  }

  // ---------------------------------------------------------------------
  // Associativity, proved one coefficient at a time over plain reals
  // ---------------------------------------------------------------------

  lemma AssocR(pr: real, px: real, py: real, pz: real, qr: real, qx: real, qy: real, qz: real,
               ar: real, ax: real, ay: real, az: real, br: real, bx: real, bY: real, bz: real,
               cr: real, cx: real, cy: real, cz: real)
    requires pr == ar*br - ax*bx - ay*bY - az*bz
    requires px == ar*bx + ax*br + ay*bz - az*bY
    requires py == ar*bY - ax*bz + ay*br + az*bx
    requires pz == ar*bz + ax*bY - ay*bx + az*br
    requires qr == br*cr - bx*cx - bY*cy - bz*cz
    requires qx == br*cx + bx*cr + bY*cz - bz*cy
    requires qy == br*cy - bx*cz + bY*cr + bz*cx
    requires qz == br*cz + bx*cy - bY*cx + bz*cr
    ensures pr*cr - px*cx - py*cy - pz*cz == ar*qr - ax*qx - ay*qy - az*qz
  {
    assert pr*cr == (ar*br - ax*bx - ay*bY - az*bz)*cr;
    assert ar*qr == ar*(br*cr - bx*cx - bY*cy - bz*cz);
    assert px*cx == (ar*bx + ax*br + ay*bz - az*bY)*cx;
    assert ax*qx == ax*(br*cx + bx*cr + bY*cz - bz*cy);
    assert py*cy == (ar*bY - ax*bz + ay*br + az*bx)*cy;
    assert ay*qy == ay*(br*cy - bx*cz + bY*cr + bz*cx);
    assert pz*cz == (ar*bz + ax*bY - ay*bx + az*br)*cz;
    assert az*qz == az*(br*cz + bx*cy - bY*cx + bz*cr);
  }

  lemma AssocX(pr: real, px: real, py: real, pz: real, qr: real, qx: real, qy: real, qz: real,
               ar: real, ax: real, ay: real, az: real, br: real, bx: real, bY: real, bz: real,
               cr: real, cx: real, cy: real, cz: real)
    requires pr == ar*br - ax*bx - ay*bY - az*bz
    requires px == ar*bx + ax*br + ay*bz - az*bY
    requires py == ar*bY - ax*bz + ay*br + az*bx
    requires pz == ar*bz + ax*bY - ay*bx + az*br
    requires qr == br*cr - bx*cx - bY*cy - bz*cz
    requires qx == br*cx + bx*cr + bY*cz - bz*cy
    requires qy == br*cy - bx*cz + bY*cr + bz*cx
    requires qz == br*cz + bx*cy - bY*cx + bz*cr
    ensures pr*cx + px*cr + py*cz - pz*cy == ar*qx + ax*qr + ay*qz - az*qy
  {
    assert pr*cx == (ar*br - ax*bx - ay*bY - az*bz)*cx;
    assert ar*qx == ar*(br*cx + bx*cr + bY*cz - bz*cy);
    assert px*cr == (ar*bx + ax*br + ay*bz - az*bY)*cr;
    assert ax*qr == ax*(br*cr - bx*cx - bY*cy - bz*cz);
    assert py*cz == (ar*bY - ax*bz + ay*br + az*bx)*cz;
    assert ay*qz == ay*(br*cz + bx*cy - bY*cx + bz*cr);
    assert pz*cy == (ar*bz + ax*bY - ay*bx + az*br)*cy;
    assert az*qy == az*(br*cy - bx*cz + bY*cr + bz*cx);
  }

  lemma AssocY(pr: real, px: real, py: real, pz: real, qr: real, qx: real, qy: real, qz: real,
               ar: real, ax: real, ay: real, az: real, br: real, bx: real, bY: real, bz: real,
               cr: real, cx: real, cy: real, cz: real)
    requires pr == ar*br - ax*bx - ay*bY - az*bz
    requires px == ar*bx + ax*br + ay*bz - az*bY
    requires py == ar*bY - ax*bz + ay*br + az*bx
    requires pz == ar*bz + ax*bY - ay*bx + az*br
    requires qr == br*cr - bx*cx - bY*cy - bz*cz
    requires qx == br*cx + bx*cr + bY*cz - bz*cy
    requires qy == br*cy - bx*cz + bY*cr + bz*cx
    requires qz == br*cz + bx*cy - bY*cx + bz*cr
    ensures pr*cy - px*cz + py*cr + pz*cx == ar*qy - ax*qz + ay*qr + az*qx
  {
    assert pr*cy == (ar*br - ax*bx - ay*bY - az*bz)*cy;
    assert ar*qy == ar*(br*cy - bx*cz + bY*cr + bz*cx);
    assert px*cz == (ar*bx + ax*br + ay*bz - az*bY)*cz;
    assert ax*qz == ax*(br*cz + bx*cy - bY*cx + bz*cr);
    assert py*cr == (ar*bY - ax*bz + ay*br + az*bx)*cr;
    assert ay*qr == ay*(br*cr - bx*cx - bY*cy - bz*cz);
    assert pz*cx == (ar*bz + ax*bY - ay*bx + az*br)*cx;
    assert az*qx == az*(br*cx + bx*cr + bY*cz - bz*cy);
  }

  lemma AssocZ(pr: real, px: real, py: real, pz: real, qr: real, qx: real, qy: real, qz: real,
               ar: real, ax: real, ay: real, az: real, br: real, bx: real, bY: real, bz: real,
               cr: real, cx: real, cy: real, cz: real)
    requires pr == ar*br - ax*bx - ay*bY - az*bz
    requires px == ar*bx + ax*br + ay*bz - az*bY
    requires py == ar*bY - ax*bz + ay*br + az*bx
    requires pz == ar*bz + ax*bY - ay*bx + az*br
    requires qr == br*cr - bx*cx - bY*cy - bz*cz
    requires qx == br*cx + bx*cr + bY*cz - bz*cy
    requires qy == br*cy - bx*cz + bY*cr + bz*cx
    requires qz == br*cz + bx*cy - bY*cx + bz*cr
    ensures pr*cz + px*cy - py*cx + pz*cr == ar*qz + ax*qy - ay*qx + az*qr
  {
    assert pr*cz == (ar*br - ax*bx - ay*bY - az*bz)*cz;
    assert ar*qz == ar*(br*cz + bx*cy - bY*cx + bz*cr);
    assert px*cy == (ar*bx + ax*br + ay*bz - az*bY)*cy;
    assert ax*qy == ax*(br*cy - bx*cz + bY*cr + bz*cx);
    assert py*cx == (ar*bY - ax*bz + ay*br + az*bx)*cx;
    assert ay*qx == ay*(br*cx + bx*cr + bY*cz - bz*cy);
    assert pz*cr == (ar*bz + ax*bY - ay*bx + az*br)*cr;
    assert az*qr == az*(br*cr - bx*cx - bY*cy - bz*cz);
  }

  lemma AssocAtR(a: Quat, b: Quat, c: Quat, p: Quat, q: Quat)
    requires p == Hamilton(a, b) && q == Hamilton(b, c)
    ensures Hamilton(p, c).r == Hamilton(a, q).r
  {
    HamiltonExpanded(a, b); HamiltonExpanded(b, c); HamiltonExpanded(p, c); HamiltonExpanded(a, q);
    var Quat(pr, px, py, pz) := p;
    var Quat(qr, qx, qy, qz) := q;
    var Quat(ar, ax, ay, az) := a;
    var Quat(br, bx, bY, bz) := b;
    var Quat(cr, cx, cy, cz) := c;
    AssocR(pr, px, py, pz, qr, qx, qy, qz, ar, ax, ay, az, br, bx, bY, bz, cr, cx, cy, cz);
  }

  lemma AssocAtX(a: Quat, b: Quat, c: Quat, p: Quat, q: Quat)
    requires p == Hamilton(a, b) && q == Hamilton(b, c)
    ensures Hamilton(p, c).x == Hamilton(a, q).x
  {
    HamiltonExpanded(a, b); HamiltonExpanded(b, c); HamiltonExpanded(p, c); HamiltonExpanded(a, q);
    var Quat(pr, px, py, pz) := p;
    var Quat(qr, qx, qy, qz) := q;
    var Quat(ar, ax, ay, az) := a;
    var Quat(br, bx, bY, bz) := b;
    var Quat(cr, cx, cy, cz) := c;
    AssocX(pr, px, py, pz, qr, qx, qy, qz, ar, ax, ay, az, br, bx, bY, bz, cr, cx, cy, cz);
  }

  lemma AssocAtY(a: Quat, b: Quat, c: Quat, p: Quat, q: Quat)
    requires p == Hamilton(a, b) && q == Hamilton(b, c)
    ensures Hamilton(p, c).y == Hamilton(a, q).y
  {
    HamiltonExpanded(a, b); HamiltonExpanded(b, c); HamiltonExpanded(p, c); HamiltonExpanded(a, q);
    var Quat(pr, px, py, pz) := p;
    var Quat(qr, qx, qy, qz) := q;
    var Quat(ar, ax, ay, az) := a;
    var Quat(br, bx, bY, bz) := b;
    var Quat(cr, cx, cy, cz) := c;
    AssocY(pr, px, py, pz, qr, qx, qy, qz, ar, ax, ay, az, br, bx, bY, bz, cr, cx, cy, cz);
  }

  lemma AssocAtZ(a: Quat, b: Quat, c: Quat, p: Quat, q: Quat)
    requires p == Hamilton(a, b) && q == Hamilton(b, c)
    ensures Hamilton(p, c).z == Hamilton(a, q).z
  {
    HamiltonExpanded(a, b); HamiltonExpanded(b, c); HamiltonExpanded(p, c); HamiltonExpanded(a, q);
    var Quat(pr, px, py, pz) := p;
    var Quat(qr, qx, qy, qz) := q;
    var Quat(ar, ax, ay, az) := a;
    var Quat(br, bx, bY, bz) := b;
    var Quat(cr, cx, cy, cz) := c;
    AssocZ(pr, px, py, pz, qr, qx, qy, qz, ar, ax, ay, az, br, bx, bY, bz, cr, cx, cy, cz);
  }

  /** The Hamilton product is associative. */
  lemma HamiltonAssociative(a: Quat, b: Quat, c: Quat)
    ensures Hamilton(Hamilton(a, b), c) == Hamilton(a, Hamilton(b, c))
  {
    var p, q := Hamilton(a, b), Hamilton(b, c);
    AssocAtR(a, b, c, p, q);
    AssocAtX(a, b, c, p, q);
    AssocAtY(a, b, c, p, q);
    AssocAtZ(a, b, c, p, q);
  }

  // ---------------------------------------------------------------------
  // Identity, conjugate, determinant
  // ---------------------------------------------------------------------

  /** One is a two-sided identity of the Hamilton product. */
  lemma HamiltonIdentity(q: Quat)
    ensures Hamilton(One(), q) == q && Hamilton(q, One()) == q
  {
    HamiltonExpanded(One(), q);
    HamiltonExpanded(q, One());
  }

  /** The product is not commutative: i·j = k but j·i = −k. */
  lemma HamiltonNotCommutative()
    ensures Hamilton(Quat(0.0, 1.0, 0.0, 0.0), Quat(0.0, 0.0, 1.0, 0.0)) == Quat(0.0, 0.0, 0.0, 1.0)
    ensures Hamilton(Quat(0.0, 0.0, 1.0, 0.0), Quat(0.0, 1.0, 0.0, 0.0)) == Quat(0.0, 0.0, 0.0, -1.0)
  {
    HamiltonExpanded(Quat(0.0, 1.0, 0.0, 0.0), Quat(0.0, 0.0, 1.0, 0.0));
    HamiltonExpanded(Quat(0.0, 0.0, 1.0, 0.0), Quat(0.0, 1.0, 0.0, 0.0));
  }

  /** Multiplying by a real quaternion, on either side, is scaling. */
  lemma HamiltonByReal(q: Quat, k: real)
    ensures Hamilton(q, Real(k)) == Scale(q, k)
    ensures Hamilton(Real(k), q) == Scale(q, k)
  {
    HamiltonExpanded(q, Real(k));
    HamiltonExpanded(Real(k), q);
  }

  /** A scale factor on either operand can be pulled out of the product. */
  lemma HamiltonScale(p: Quat, q: Quat, k: real)
    ensures Hamilton(p, Scale(q, k)) == Scale(Hamilton(p, q), k)
    ensures Hamilton(Scale(p, k), q) == Scale(Hamilton(p, q), k)
  {
    HamiltonByReal(q, k);
    HamiltonByReal(p, k);
    HamiltonByReal(Hamilton(p, q), k);
    HamiltonAssociative(p, q, Real(k));
    HamiltonAssociative(Real(k), p, q);
  }

  /** Real quaternions multiply like their scalars. */
  lemma RealProduct(j: real, k: real)
    ensures Hamilton(Real(j), Real(k)) == Real(j * k)
  {
    HamiltonByReal(Real(j), k);
  }

  /** Conjugating twice gives back the quaternion. */
  lemma ConjInvolutive(q: Quat)
    ensures Conj(Conj(q)) == q
  {
  }

  lemma ConjReversesR(pr: real, px: real, py: real, pz: real, qr: real, qx: real, qy: real, qz: real,
                       cr: real, cx: real, cy: real, cz: real, dr: real, dx: real, dy: real, dz: real,
                       m: real, n: real)
    requires cr == qr && cx == -qx && cy == -qy && cz == -qz
    requires dr == pr && dx == -px && dy == -py && dz == -pz
    requires m == pr*qr - px*qx - py*qy - pz*qz
    requires n == cr*dr - cx*dx - cy*dy - cz*dz
    ensures m == n
  {
  }

  lemma ConjReversesAtR(p: Quat, q: Quat)
    ensures Conj(Mul(p, q)).r == Mul(Conj(q), Conj(p)).r
  {
    var Quat(pr, px, py, pz) := p;
    var Quat(qr, qx, qy, qz) := q;
    var Quat(cr, cx, cy, cz) := Quat(qr, -qx, -qy, -qz);
    var Quat(dr, dx, dy, dz) := Quat(pr, -px, -py, -pz);
    assert Conj(q) == Quat(cr, cx, cy, cz) && Conj(p) == Quat(dr, dx, dy, dz);
    ConjReversesR(pr, px, py, pz, qr, qx, qy, qz, cr, cx, cy, cz, dr, dx, dy, dz,
                   Mul(p, q).r, Mul(Quat(cr, cx, cy, cz), Quat(dr, dx, dy, dz)).r);
  }

  lemma ConjReversesX(pr: real, px: real, py: real, pz: real, qr: real, qx: real, qy: real, qz: real,
                       cr: real, cx: real, cy: real, cz: real, dr: real, dx: real, dy: real, dz: real,
                       m: real, n: real)
    requires cr == qr && cx == -qx && cy == -qy && cz == -qz
    requires dr == pr && dx == -px && dy == -py && dz == -pz
    requires m == pr*qx + px*qr + py*qz - pz*qy
    requires n == cr*dx + cx*dr + cy*dz - cz*dy
    ensures -m == n
  {
  }

  lemma ConjReversesAtX(p: Quat, q: Quat)
    ensures Conj(Mul(p, q)).x == Mul(Conj(q), Conj(p)).x
  {
    var Quat(pr, px, py, pz) := p;
    var Quat(qr, qx, qy, qz) := q;
    var Quat(cr, cx, cy, cz) := Quat(qr, -qx, -qy, -qz);
    var Quat(dr, dx, dy, dz) := Quat(pr, -px, -py, -pz);
    assert Conj(q) == Quat(cr, cx, cy, cz) && Conj(p) == Quat(dr, dx, dy, dz);
    ConjReversesX(pr, px, py, pz, qr, qx, qy, qz, cr, cx, cy, cz, dr, dx, dy, dz,
                   Mul(p, q).x, Mul(Quat(cr, cx, cy, cz), Quat(dr, dx, dy, dz)).x);
  }

  lemma ConjReversesY(pr: real, px: real, py: real, pz: real, qr: real, qx: real, qy: real, qz: real,
                       cr: real, cx: real, cy: real, cz: real, dr: real, dx: real, dy: real, dz: real,
                       m: real, n: real)
    requires cr == qr && cx == -qx && cy == -qy && cz == -qz
    requires dr == pr && dx == -px && dy == -py && dz == -pz
    requires m == pr*qy - px*qz + py*qr + pz*qx
    requires n == cr*dy - cx*dz + cy*dr + cz*dx
    ensures -m == n
  {
  }

  lemma ConjReversesAtY(p: Quat, q: Quat)
    ensures Conj(Mul(p, q)).y == Mul(Conj(q), Conj(p)).y
  {
    var Quat(pr, px, py, pz) := p;
    var Quat(qr, qx, qy, qz) := q;
    var Quat(cr, cx, cy, cz) := Quat(qr, -qx, -qy, -qz);
    var Quat(dr, dx, dy, dz) := Quat(pr, -px, -py, -pz);
    assert Conj(q) == Quat(cr, cx, cy, cz) && Conj(p) == Quat(dr, dx, dy, dz);
    ConjReversesY(pr, px, py, pz, qr, qx, qy, qz, cr, cx, cy, cz, dr, dx, dy, dz,
                   Mul(p, q).y, Mul(Quat(cr, cx, cy, cz), Quat(dr, dx, dy, dz)).y);
  }

  lemma ConjReversesZ(pr: real, px: real, py: real, pz: real, qr: real, qx: real, qy: real, qz: real,
                       cr: real, cx: real, cy: real, cz: real, dr: real, dx: real, dy: real, dz: real,
                       m: real, n: real)
    requires cr == qr && cx == -qx && cy == -qy && cz == -qz
    requires dr == pr && dx == -px && dy == -py && dz == -pz
    requires m == pr*qz + px*qy - py*qx + pz*qr
    requires n == cr*dz + cx*dy - cy*dx + cz*dr
    ensures -m == n
  {
  }

  lemma ConjReversesAtZ(p: Quat, q: Quat)
    ensures Conj(Mul(p, q)).z == Mul(Conj(q), Conj(p)).z
  {
    var Quat(pr, px, py, pz) := p;
    var Quat(qr, qx, qy, qz) := q;
    var Quat(cr, cx, cy, cz) := Quat(qr, -qx, -qy, -qz);
    var Quat(dr, dx, dy, dz) := Quat(pr, -px, -py, -pz);
    assert Conj(q) == Quat(cr, cx, cy, cz) && Conj(p) == Quat(dr, dx, dy, dz);
    ConjReversesZ(pr, px, py, pz, qr, qx, qy, qz, cr, cx, cy, cz, dr, dx, dy, dz,
                   Mul(p, q).z, Mul(Quat(cr, cx, cy, cz), Quat(dr, dx, dy, dz)).z);
  }

  /** The conjugate of a product is the product of the conjugates in reverse order. */
  lemma ConjReversesProduct(p: Quat, q: Quat)
    ensures Conj(Hamilton(p, q)) == Hamilton(Conj(q), Conj(p))
  {
    HamiltonExpanded(p, q);
    HamiltonExpanded(Conj(q), Conj(p));
    ConjReversesAtR(p, q);
    ConjReversesAtX(p, q);
    ConjReversesAtY(p, q);
    ConjReversesAtZ(p, q);
  }

  lemma ConjProductReals(r: real, x: real, y: real, z: real)
    ensures r*r - x*(-x) - y*(-y) - z*(-z) == r*r + x*x + y*y + z*z
    ensures r*(-x) + x*r + y*(-z) - z*(-y) == 0.0
    ensures r*(-y) - x*(-z) + y*r + z*(-x) == 0.0
    ensures r*(-z) + x*(-y) - y*(-x) + z*r == 0.0
    ensures r*r - (-x)*x - (-y)*y - (-z)*z == r*r + x*x + y*y + z*z
    ensures r*x + (-x)*r + (-y)*z - (-z)*y == 0.0
    ensures r*y - (-x)*z + (-y)*r + (-z)*x == 0.0
    ensures r*z + (-x)*y - (-y)*x + (-z)*r == 0.0
  {
  }

  /** A quaternion times its conjugate is the real quaternion det, from either side. */
  lemma HamiltonConjIsDet(q: Quat)
    ensures Hamilton(q, Conj(q)) == Real(Det(q))
    ensures Hamilton(Conj(q), q) == Real(Det(q))
  {
    HamiltonExpanded(q, Conj(q));
    HamiltonExpanded(Conj(q), q);
    var Quat(r, x, y, z) := q;
    ConjProductReals(r, x, y, z);
  }

  /** The determinant as a sum of four Times-products. */
  lemma DetAsProducts(q: Quat)
    ensures Det(q) == Times(q.r, q.r) + Times(q.x, q.x) + Times(q.y, q.y) + Times(q.z, q.z)
  {
  }

  /** The determinant is zero exactly for the zero quaternion. */
  lemma DetZeroIff(q: Quat)
    ensures Det(q) == 0.0 <==> q == Zero()
  {
    DetAsProducts(q);
    SquareNonNegative(q.r); SquareNonNegative(q.x); SquareNonNegative(q.y); SquareNonNegative(q.z);
    if q != Zero() {
      if q.r != 0.0 { SquarePositive(q.r); }
      else if q.x != 0.0 { SquarePositive(q.x); }
      else if q.y != 0.0 { SquarePositive(q.y); }
      else { SquarePositive(q.z); }
    } else {
      assert Times(q.r, q.r) == Times(0.0, 0.0);
      assert Times(q.x, q.x) == Times(0.0, 0.0);
      assert Times(q.y, q.y) == Times(0.0, 0.0);
      assert Times(q.z, q.z) == Times(0.0, 0.0);
    }
  }

  /** Real multiplication behind a name, so that squares can be reasoned about as products. */
  function Times(a: real, b: real): real { a * b }

  lemma ProductOfPositives(a: real, b: real)
    requires a > 0.0 && b > 0.0
    ensures Times(a, b) > 0.0
  {
  }

  lemma ProductOfNegatives(a: real, b: real)
    requires a < 0.0 && b < 0.0
    ensures Times(a, b) > 0.0
  {
  }

  lemma SquarePositive(a: real)
    requires a != 0.0
    ensures Times(a, a) > 0.0
  {
    if a > 0.0 { ProductOfPositives(a, a); } else { ProductOfNegatives(a, a); }
  }

  lemma SquareNonNegative(a: real)
    ensures Times(a, a) >= 0.0
  {
    if a != 0.0 { SquarePositive(a); } else { assert Times(a, a) == Times(0.0, 0.0); }
  }

  /** Conjugation keeps the determinant. */
  lemma DetConj(q: Quat)
    ensures Det(Conj(q)) == Det(q)
  {
  }

  // ---------------------------------------------------------------------
  // The inverse
  // ---------------------------------------------------------------------

  /** conj(q)/det(q), the inverse every nonzero quaternion has. */
  function Inverse(q: Quat): Quat
    requires Det(q) != 0.0
  {
    Scale(Conj(q), 1.0 / Det(q))
  }

  /** Inverse(q) is a two-sided inverse of q under the Hamilton product. */
  lemma InverseIsInverse(q: Quat)
    requires Det(q) != 0.0
    ensures Hamilton(q, Inverse(q)) == One()
    ensures Hamilton(Inverse(q), q) == One()
  {
    var d := Det(q);
    HamiltonScale(q, Conj(q), 1.0 / d);
    HamiltonScale(Conj(q), q, 1.0 / d);
    HamiltonConjIsDet(q);
    assert Scale(Real(d), 1.0 / d) == One();
  }

  /** Scaling every coefficient by k scales the determinant by k². */
  lemma DetScale(q: Quat, k: real)
    ensures Det(Scale(q, k)) == k * k * Det(q)
  {
    var Quat(r, x, y, z) := q;
    assert (r * k) * (r * k) == k * k * (r * r);
    assert (x * k) * (x * k) == k * k * (x * x);
    assert (y * k) * (y * k) == k * k * (y * y);
    assert (z * k) * (z * k) == k * k * (z * z);
  }

  /** Scaling twice is scaling by the product of the factors. */
  lemma ScaleScale(q: Quat, a: real, b: real)
    ensures Scale(Scale(q, a), b) == Scale(q, a * b)
  {
    var Quat(r, x, y, z) := q;
    assert (r * a) * b == r * (a * b) && (x * a) * b == x * (a * b);
    assert (y * a) * b == y * (a * b) && (z * a) * b == z * (a * b);
  }

  /** Conjugation commutes with scaling. */
  lemma ConjScale(q: Quat, k: real)
    ensures Conj(Scale(q, k)) == Scale(Conj(q), k)
  {
    var Quat(r, x, y, z) := q;
    assert -(x * k) == (-x) * k && -(y * k) == (-y) * k && -(z * k) == (-z) * k;
  }

  /**
   * Inverting twice gives back q: the inverse of a nonzero quaternion has
   * determinant 1/det(q), so it is nonzero too and can be inverted again.
   */
  lemma InverseInvolutive(q: Quat)
    requires Det(q) != 0.0
    ensures Det(Inverse(q)) == 1.0 / Det(q)
    ensures Det(Inverse(q)) != 0.0 && Inverse(Inverse(q)) == q
  {
    var d := Det(q);
    var k := 1.0 / d;
    assert k * d == 1.0;
    DetScale(Conj(q), k);
    DetConj(q);
    assert Det(Inverse(q)) == k * k * d == k;
    assert 1.0 / k == d;
    ConjScale(Conj(q), k);
    ConjInvolutive(q);
    assert Conj(Inverse(q)) == Scale(q, k);
    ScaleScale(q, k, d);
    assert Scale(q, 1.0) == q;
  }

  /**
   * The same round trip for q/det(q), the value inversed() computes as
   * written: dividing by the determinant twice also gives back q, so a
   * round trip cannot tell that value from the true inverse.
   */
  lemma ReciprocalScaleInvolutive(q: Quat)
    requires Det(q) != 0.0
    ensures Det(Scale(q, 1.0 / Det(q))) == 1.0 / Det(q)
    ensures Det(Scale(q, 1.0 / Det(q))) != 0.0
    ensures Scale(Scale(q, 1.0 / Det(q)), 1.0 / Det(Scale(q, 1.0 / Det(q)))) == q
  {
    var d := Det(q);
    var k := 1.0 / d;
    assert k * d == 1.0;
    DetScale(q, k);
    assert Det(Scale(q, k)) == k * k * d == k;
    assert 1.0 / k == d;
    ScaleScale(q, k, d);
    assert Scale(q, 1.0) == q;
  }

  /** Sum and Difference undo each other, and Sum is commutative. */
  lemma SumDifference(p: Quat, q: Quat)
    ensures Difference(Sum(p, q), q) == p
    ensures Sum(Difference(p, q), q) == p
    ensures Sum(p, q) == Sum(q, p)
  {
  }

  // ---------------------------------------------------------------------
  // Powers
  // ---------------------------------------------------------------------

  /** q^1 is q. */
  lemma PowOne(q: Quat)
    ensures Pow(q, 1) == q
  {
    HamiltonIdentity(q);
  }

  /** q^2 is q·q. */
  lemma PowTwo(q: Quat)
    ensures Pow(q, 2) == Hamilton(q, q)
  {
    PowOne(q);
  }

  /** q commutes with each of its powers, so folding from the left gives the same powers. */
  lemma {:induction false} PowCommutes(q: Quat, n: nat)
    ensures Hamilton(q, Pow(q, n)) == Hamilton(Pow(q, n), q)
  {
    if n == 0 {
      HamiltonIdentity(q);
    } else {
      var p := Pow(q, n - 1);
      calc {
        Hamilton(q, Pow(q, n));
        Hamilton(q, Hamilton(p, q));
        { HamiltonAssociative(q, p, q); }
        Hamilton(Hamilton(q, p), q);
        { PowCommutes(q, n - 1); }
        Hamilton(Hamilton(p, q), q);
        Hamilton(Pow(q, n), q);
      }
    }
  }

  /** q^(m+n) = q^m · q^n. */
  lemma {:induction false} PowAdd(q: Quat, m: nat, n: nat)
    ensures Pow(q, m + n) == Hamilton(Pow(q, m), Pow(q, n))
  {
    if n == 0 {
      HamiltonIdentity(Pow(q, m));
    } else {
      calc {
        Pow(q, m + n);
        Hamilton(Pow(q, m + n - 1), q);
        { PowAdd(q, m, n - 1); }
        Hamilton(Hamilton(Pow(q, m), Pow(q, n - 1)), q);
        { HamiltonAssociative(Pow(q, m), Pow(q, n - 1), q); }
        Hamilton(Pow(q, m), Hamilton(Pow(q, n - 1), q));
        Hamilton(Pow(q, m), Pow(q, n));
      }
    }
  }

  // ---------------------------------------------------------------------
  // The elementwise operations on the vector part
  // ---------------------------------------------------------------------

  /** q with t multiplied into each vector coefficient. */
  function VectorMul(q: Quat, t: real): Quat
  {
    Quat(q.r, q.x * t, q.y * t, q.z * t)
  }

  /** q with t added to each vector coefficient. */
  function VectorAdd(q: Quat, t: real): Quat
  {
    Quat(q.r, q.x + t, q.y + t, q.z + t)
  }

  /** q with t subtracted from each vector coefficient. */
  function VectorSub(q: Quat, t: real): Quat
  {
    Quat(q.r, q.x - t, q.y - t, q.z - t)
  }

  /** q with each vector coefficient divided by a nonzero t. */
  function VectorDiv(q: Quat, t: real): Quat
    requires t != 0.0
  {
    Quat(q.r, q.x / t, q.y / t, q.z / t)
  }

  /** q with its vector coefficients multiplied by t[0], t[1], t[2]. */
  function VectorMulEach(q: Quat, t: seq<real>): Quat
    requires |t| == 3
  {
    Quat(q.r, q.x * t[0], q.y * t[1], q.z * t[2])
  }

  /** q with t[0], t[1], t[2] added to its vector coefficients. */
  function VectorAddEach(q: Quat, t: seq<real>): Quat
    requires |t| == 3
  {
    Quat(q.r, q.x + t[0], q.y + t[1], q.z + t[2])
  }

  /** q with t[0], t[1], t[2] subtracted from its vector coefficients. */
  function VectorSubEach(q: Quat, t: seq<real>): Quat
    requires |t| == 3
  {
    Quat(q.r, q.x - t[0], q.y - t[1], q.z - t[2])
  }

  /** q with its vector coefficients divided by the nonzero t[0], t[1], t[2]. */
  function VectorDivEach(q: Quat, t: seq<real>): Quat
    requires |t| == 3 && 0.0 !in t
  {
    Quat(q.r, q.x / t[0], q.y / t[1], q.z / t[2])
  }

  /** Adding and subtracting the same amount undo each other. */
  lemma VectorAddSubInverse(q: Quat, t: real, ts: seq<real>)
    requires |ts| == 3
    ensures VectorSub(VectorAdd(q, t), t) == q && VectorAdd(VectorSub(q, t), t) == q
    ensures VectorSubEach(VectorAddEach(q, ts), ts) == q && VectorAddEach(VectorSubEach(q, ts), ts) == q
  {
  }

  /** Dividing by a nonzero t undoes multiplying by it, and the other way round. */
  lemma VectorMulDivInverse(q: Quat, t: real)
    requires t != 0.0
    ensures VectorDiv(VectorMul(q, t), t) == q && VectorMul(VectorDiv(q, t), t) == q
  {
    var Quat(r, x, y, z) := q;
    MulDivReal(x, t);
    MulDivReal(y, t);
    MulDivReal(z, t);
    assert VectorMul(q, t) == Quat(r, x * t, y * t, z * t);
    assert VectorDiv(q, t) == Quat(r, x / t, y / t, z / t);
    assert VectorDiv(Quat(r, x * t, y * t, z * t), t) == Quat(r, x * t / t, y * t / t, z * t / t);
    assert VectorMul(Quat(r, x / t, y / t, z / t), t) == Quat(r, x / t * t, y / t * t, z / t * t);
  }

  /** The same for the elementwise forms with a divisor vector free of zeros. */
  lemma VectorMulDivEachInverse(q: Quat, ts: seq<real>)
    requires |ts| == 3 && 0.0 !in ts
    ensures VectorDivEach(VectorMulEach(q, ts), ts) == q && VectorMulEach(VectorDivEach(q, ts), ts) == q
  {
    var Quat(r, x, y, z) := q;
    var t0, t1, t2 := ts[0], ts[1], ts[2];
    MulDivReal(x, t0);
    MulDivReal(y, t1);
    MulDivReal(z, t2);
    assert VectorMulEach(q, ts) == Quat(r, x * t0, y * t1, z * t2);
    assert VectorDivEach(q, ts) == Quat(r, x / t0, y / t1, z / t2);
    assert VectorDivEach(Quat(r, x * t0, y * t1, z * t2), ts) == Quat(r, x * t0 / t0, y * t1 / t1, z * t2 / t2);
    assert VectorMulEach(Quat(r, x / t0, y / t1, z / t2), ts) == Quat(r, x / t0 * t0, y / t1 * t1, z / t2 * t2);
  }

  lemma MulDivReal(a: real, t: real)
    requires t != 0.0
    ensures a * t / t == a && a / t * t == a
  {
  }

  /** Three products assembled into a vector are the vector part of VectorMulEach. */
  lemma ProductCoordinates(q: Quat, t: seq<real>, a: real, b: real, c: real)
    requires |t| == 3
    requires a == q.x * t[0] && b == q.y * t[1] && c == q.z * t[2]
    ensures [a, b, c] == VectorPart(VectorMulEach(q, t))
  {
    assert VectorMulEach(q, t) == Quat(q.r, a, b, c);
  }

  /** Three products by t assembled into a vector are the vector part of VectorMul. */
  lemma ScaledCoordinates(q: Quat, t: real, a: real, b: real, c: real)
    requires a == q.x * t && b == q.y * t && c == q.z * t
    ensures [a, b, c] == VectorPart(VectorMul(q, t))
  {
    assert VectorMul(q, t) == Quat(q.r, a, b, c);
  }

  /** Scaling the vector part by t is the product with t on the vector part only. */
  lemma VectorMulIsScaleOfVector(q: Quat, t: real)
    ensures VectorPart(VectorMul(q, t)) == VectorPart(Scale(q, t))
    ensures VectorMul(q, t).r == q.r
  {
  }

  // ---------------------------------------------------------------------
  // Test vectors of the repository
  // ---------------------------------------------------------------------

  /** (9,2,7)·(4,8,10) = 122 and (2,3,4)×(5,6,7) = (−3,6,−3). */
  lemma VectorExamples()
    ensures Dot([9.0, 2.0, 7.0], [4.0, 8.0, 10.0]) == 122.0
    ensures Cross([2.0, 3.0, 4.0], [5.0, 6.0, 7.0]) == [-3.0, 6.0, -3.0]
  {
  }

  /** (2,−2,3,−4)·(1,−2,5,−6) = (−41,−4,9,−20); its square is (−25,−8,12,−16); its determinant 33. */
  lemma ProductExamples()
    ensures Hamilton(Quat(2.0, -2.0, 3.0, -4.0), Quat(1.0, -2.0, 5.0, -6.0)) == Quat(-41.0, -4.0, 9.0, -20.0)
    ensures Pow(Quat(2.0, -2.0, 3.0, -4.0), 2) == Quat(-25.0, -8.0, 12.0, -16.0)
    ensures Det(Quat(2.0, -2.0, 3.0, -4.0)) == 33.0
    ensures Conj(Quat(2.0, -2.0, 3.0, -4.0)) == Quat(2.0, 2.0, -3.0, 4.0)
  {
    var q := Quat(2.0, -2.0, 3.0, -4.0);
    HamiltonExpanded(q, Quat(1.0, -2.0, 5.0, -6.0));
    PowTwo(q);
    HamiltonExpanded(q, q);
  }
}
