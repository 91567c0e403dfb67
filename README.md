# Quaternion algebra, modelled in Dafny

This project models a small C++ quaternion library that comes in two variants.

- **`quat11`** (quaternion.h, quaternion.cpp) is generic over a scalar type `T`.
  - Every operation writes its result into a caller-supplied buffer or reference.
  - Every operation returns a `QUATERNION_FLAGS` status code.
  - The vector-part operations are built on a generic `apply(…, fn, out)`.
  - The Hamilton product is computed as `(s_a s_b − a·b, s_a b + s_b a + a×b)`.
- **`quat`** (quaternion.hpp) is a `float` class with value-returning operators.
  - It has in-place vector operations that update its private `coeffs[4]`.
  - It has const overloads that write into a caller array.
  - Its Hamilton product is written out component by component.

The scalar is Dafny's exact `real` in both variants. Every test example of the modelled operations uses small integers and their quotients.

`get_component` in quat11 returns `ARG_ERROR` for an index above 3, not the declared `INDEX_ERROR` (quaternion.cpp:454 against quaternion.h:52). The model keeps ARG_ERROR, as written. tests/quat_tsts.cpp:71 also asserts ARG_ERROR.

Files:

- `quaternion_h.dfy` (module `QuatTypes`)
  - the status flags and component tags;
  - the tagged component `quat_c`;
  - the value `Quat(r, x, y, z)`;
  - the six quat11 constructors as functions.
- `quat11_algebra.dfy` (module `Quat11Algebra`)
  - the reference algebra both variants are proved against: dot and cross product, the Hamilton product, conjugate, determinant, the true inverse, sums, scaling, powers and the elementwise vector operations;
  - the laws about these: associativity, identity, conjugate reverses a product, `q·conj(q) = det(q)`, `det = 0` exactly at zero, a two-sided inverse, `q^(m+n) = q^m q^n`, and the round trips of the vector operations.
- `quaternion_cpp.dfy` (module `Quat11`)
  - every `quat11` operation as a method;
  - each output buffer is an `array<real>`;
  - each status code is a `Flag` result.
- `quaternion_hpp.dfy` (module `QuatFloat`)
  - the `quat::quaternion` class, with a `coeffs: array<real>` field that the mutating methods update;
  - the value-returning operators as functions.

## Model

| member | source | states |
|---|---|---|
| QuatTypes.Code | quaternion.h:49-54 | every flag's code lies in 1..4, and SUCCESS is the only flag with code 1 |
| QuatTypes.Default | quaternion.h:80-82 | the default quaternion has coefficients exactly (0, 1, 1, 1) |
| QuatTypes.FromScalars | quaternion.h:84 | the four scalars are stored positionally as (r, x, y, z) |
| QuatTypes.FromArray | quaternion.h:85 | the array constructor copies c[0..3] in order |
| QuatTypes.FromScalarAndComponents | quaternion.h:88-90 | the scalar is stored first; only the `.r` of each component is kept and its tag is ignored |
| QuatTypes.FromComponents | quaternion.h:92-94 | the first component's `.r` becomes the scalar, whatever its tag |
| QuatTypes.FromScalarAndVector | quaternion.h:95 | the scalar is c1 and the vector part is cs[0..2] |
| QuatTypes.ArrayRoundTrip | quaternion.h:85 | rebuilding from the stored coefficients gives back the same quaternion |
| QuatTypes.ScalarVectorRoundTrip | quaternion.h:95 | splitting into scalar and vector and rebuilding is the identity |
| QuatTypes.ComponentTagsIgnored | quaternion.h:88-94 | the two component constructors agree whatever tag the first component carries |
| QuatTypes.ConstructorExamples | tests/quat_tsts.cpp:78-194 | the test suite's constructor examples, (0,1,1,1) and (2,3,4,5) |
| Quat11Algebra.CrossOrthogonal | quaternion.cpp:182-193 | a × t is orthogonal to both a and t |
| Quat11Algebra.CrossAntiCommutative | quaternion.cpp:189-191 | swapping the operands of the cross product negates every coordinate |
| Quat11Algebra.DotSymmetric | quaternion.cpp:178-181 | the dot product does not depend on operand order |
| Quat11Algebra.DotSelfNonNegative | quaternion.cpp:178-181 | v · v is never negative |
| Quat11Algebra.HamiltonExpanded | quaternion.cpp:195-200 | the scalar/vector form of the product equals the 16-term component form |
| Quat11Algebra.HamiltonAssociative | quaternion.cpp:202-248 | the Hamilton product is associative |
| Quat11Algebra.HamiltonIdentity | quaternion.cpp:202-248 | (1,0,0,0) is a two-sided identity |
| Quat11Algebra.HamiltonNotCommutative | quaternion.cpp:202-248 | i·j = k but j·i = −k |
| Quat11Algebra.HamiltonByReal | quaternion.cpp:365-369 | multiplying by a real quaternion on either side scales all four coefficients |
| Quat11Algebra.HamiltonScale | quaternion.cpp:365-369 | scaling either factor scales the product |
| Quat11Algebra.RealProduct | quaternion.cpp:202-248 | the product of two real quaternions is the real product |
| Quat11Algebra.ConjInvolutive | quaternion.cpp:249-268 | conjugating twice gives back the quaternion |
| Quat11Algebra.ConjReversesProduct | quaternion.cpp:249-268 | conj(p·q) = conj(q)·conj(p) |
| Quat11Algebra.HamiltonConjIsDet | quaternion.cpp:412-428 | q·conj(q) and conj(q)·q are both the real quaternion det(q) |
| Quat11Algebra.DetAsProducts | quaternion.cpp:422-426 | det is the sum of the four squares |
| Quat11Algebra.DetZeroIff | quaternion.cpp:412-428 | det(q) = 0 exactly when q is the zero quaternion |
| Quat11Algebra.DetConj | quaternion.cpp:412-428 | the conjugate has the same determinant |
| Quat11Algebra.InverseIsInverse | quaternion.cpp:302-331 | when det ≠ 0, conj(q)/det(q) is a two-sided inverse; this is the inverse the doc-comment names |
| Quat11Algebra.SumDifference | quaternion.cpp:336-351 | subtracting undoes adding and vice versa, and addition is commutative |
| Quat11Algebra.PowOne | quaternion.cpp:370-380 | q^1 = q |
| Quat11Algebra.PowTwo | quaternion.cpp:381-393 | q^2 = q·q |
| Quat11Algebra.PowCommutes | quaternion.cpp:370-380 | q commutes with each of its powers, so folding left or right gives the same power |
| Quat11Algebra.PowAdd | quaternion.cpp:370-380 | q^(m+n) = q^m · q^n |
| Quat11Algebra.VectorAddSubInverse | quaternion.cpp:124-158 | adding then subtracting the same scalar or vector operand restores the quaternion, and so does the reverse order |
| Quat11Algebra.VectorMulDivInverse | quaternion.cpp:119-140 | for a nonzero t, dividing the vector part by t undoes multiplying it by t, and vice versa |
| Quat11Algebra.VectorMulDivEachInverse | quaternion.cpp:142-167 | the same round trip with a vector of nonzero divisors |
| Quat11Algebra.VectorMulIsScaleOfVector | quaternion.cpp:119-123 | vector multiplication scales x, y, z and keeps r |
| Quat11Algebra.VectorExamples | tests/quat_tsts.cpp:370-408 | (9,2,7)·(4,8,10) = 122 and (2,3,4)×(5,6,7) = (−3,6,−3) |
| Quat11Algebra.ProductExamples | tests/quat_tsts.cpp:414-433 | (2,−2,3,−4)(1,−2,5,−6) = (−41,−4,9,−20), the square is (−25,−8,12,−16), det = 33, and the conjugate is (2,2,−3,4) |
| Quat11.Scalar | quaternion.cpp:26-29 | returns SUCCESS and coeffs[0] |
| Quat11.Vector | quaternion.cpp:30-35 | returns SUCCESS and writes coeffs[1..3] into v |
| Quat11.GetComponent | quaternion.cpp:436-456 | an index i below 4 gives SUCCESS and (SCALAR_BASE/I/J/K, coeffs[i]); any other index gives ARG_ERROR and leaves c unchanged |
| Quat11.ApplyScalar | quaternion.cpp:36-49 | out[k] = fn(coord k, t) for k = 0..2 |
| Quat11.ApplyVector | quaternion.cpp:50-61 | out[k] = fn(coord k, t[k]) for k = 0..2 |
| Quat11.ApplyQuat | quaternion.cpp:62-91 | fn is applied to all four pairs of coefficients |
| Quat11.ApplyScalarQuat | quaternion.cpp:92-117 | fn(·, k) is applied to all four coefficients |
| Quat11.VectorMultiplicationScalar | quaternion.cpp:119-123 | out is the receiver's vector part times t |
| Quat11.VectorAdditionScalar | quaternion.cpp:124-128 | out is the receiver's vector part plus t |
| Quat11.VectorSubtractionScalar | quaternion.cpp:129-133 | out is the receiver's vector part minus t |
| Quat11.VectorDivisionScalar | quaternion.cpp:134-140 | ARG_ERROR exactly when t = 0, with out unchanged; otherwise out is the vector part divided by t |
| Quat11.VectorMultiplicationArray | quaternion.cpp:142-146 | out[k] = coord k · t[k] |
| Quat11.VectorAdditionArray | quaternion.cpp:147-152 | out[k] = coord k + t[k] |
| Quat11.VectorSubtractionArray | quaternion.cpp:153-158 | out[k] = coord k − t[k] |
| Quat11.VectorDivisionArray | quaternion.cpp:159-167 | ARG_ERROR exactly when some t[k] is 0, with out unchanged, because every divisor is checked before any write; otherwise out[k] = coord k / t[k] |
| Quat11.VectorDotPair | quaternion.cpp:177-181 | the result is the dot product of v and t |
| Quat11.VectorDot | quaternion.cpp:169-176 | the result is the receiver's vector part dotted with t |
| Quat11.VectorCross | quaternion.cpp:182-193 | out is the receiver's vector part crossed with t |
| Quat11.HamiltonProduct | quaternion.cpp:202-248 | the result is (s_a s_b − a·b, s_a b + s_b a + a×b), the Hamilton product |
| Quat11.CombineVectorParts | quaternion.cpp:242-245 | after the loop, tout[i] = s_a b[i] + s_b a[i] + cross_ab[i] for every i |
| Quat11.Conjugate | quaternion.cpp:249-268 | the result keeps the scalar and negates the vector part, so q + conj(q) = 2r |
| Quat11.Add | quaternion.cpp:336-341 | the coefficientwise sum; subtracting p from it gives back q |
| Quat11.Subtract | quaternion.cpp:346-351 | the coefficientwise difference; adding p to it gives back q |
| Quat11.ProductQuat | quaternion.cpp:356-360 | the Hamilton product |
| Quat11.ProductScalar | quaternion.cpp:365-369 | all four coefficients scaled by r, which equals multiplying by the real quaternion r |
| Quat11.Power | quaternion.cpp:370-380 | for i ≥ 1, the left-folded product of i copies of q; for i = 0, q itself |
| Quat11.Squared | quaternion.cpp:381-393 | q·q, which is power(2) |
| Quat11.Determinant | quaternion.cpp:412-428 | the sum of squares; never negative, and zero exactly at the zero quaternion |
| Quat11.Det | quaternion.cpp:429-431 | the determinant, which equals q·conj(q) |
| Quat11.Inversed | quaternion.cpp:302-331 | as written: (r, x, y, z)/det, with the receiver's vector not negated |
| Quat11.InversedCorrected | quaternion.cpp:302-331 | conj(q)/det(q), a two-sided inverse |
| Quat11.InversedIsNotInverse | tests/quat_tsts.cpp:653-670 | for (2,−2,3,−4), det is 33, the as-written result is not the inverse, and the expected value is (2,2,−3,4)/33 |
| QuatFloat.Quaternion.Default | quaternion.hpp:273 | a default object holds {0, 1, 1, 1} |
| QuatFloat.Quaternion.FromScalars | quaternion.hpp:33-34 | the four scalars are stored positionally |
| QuatFloat.Quaternion.FromArray | quaternion.hpp:35 | c[0..3] is copied in order |
| QuatFloat.Quaternion.FromScalarAndComponents | quaternion.hpp:36-38 | the scalar plus the `.r` of each component |
| QuatFloat.Quaternion.FromScalarAndVector | quaternion.hpp:39-40 | the scalar plus cs[0..2] |
| QuatFloat.Quaternion.Scalar | quaternion.hpp:41 | coeffs[0] |
| QuatFloat.Quaternion.R | quaternion.hpp:130 | coeffs[0] |
| QuatFloat.Quaternion.X | quaternion.hpp:131 | coeffs[1] |
| QuatFloat.Quaternion.Y | quaternion.hpp:132 | coeffs[2] |
| QuatFloat.Quaternion.Z | quaternion.hpp:133 | coeffs[3] |
| QuatFloat.Quaternion.Vector | quaternion.hpp:42-46 | writes (x, y, z) into v |
| QuatFloat.Quaternion.GetComponent | quaternion.hpp:254-270 | true exactly for i ≤ 3, with (N/I/J/K, coeffs[i]); otherwise false and c unchanged |
| QuatFloat.Quaternion.VectorMultiplication | quaternion.hpp:47-52 | multiplies coeffs[1..3] by t in place and leaves the scalar alone |
| QuatFloat.Quaternion.VectorAddition | quaternion.hpp:53-58 | adds t to coeffs[1..3] in place |
| QuatFloat.Quaternion.VectorSubtraction | quaternion.hpp:59-64 | subtracts t from coeffs[1..3] in place |
| QuatFloat.Quaternion.VectorDivision | quaternion.hpp:65-72 | false exactly when t = 0, leaving every coefficient unchanged; otherwise divides coeffs[1..3] by t |
| QuatFloat.Quaternion.VectorMultiplicationTo | quaternion.hpp:74-79 | v is the vector part times t |
| QuatFloat.Quaternion.VectorAdditionTo | quaternion.hpp:80-85 | v is the vector part plus t |
| QuatFloat.Quaternion.VectorSubtractionTo | quaternion.hpp:86-91 | v is the vector part minus t |
| QuatFloat.Quaternion.VectorDivisionTo | quaternion.hpp:92-99 | false exactly when t = 0, with v untouched; otherwise v is the vector part divided by t |
| QuatFloat.Quaternion.VectorMultiplicationArray | quaternion.hpp:101-106 | v[k] = coord k · t[k] |
| QuatFloat.Quaternion.VectorAdditionArray | quaternion.hpp:107-112 | v[k] = coord k + t[k] |
| QuatFloat.Quaternion.VectorSubtractionArray | quaternion.hpp:113-118 | v[k] = coord k − t[k] |
| QuatFloat.Quaternion.VectorDivisionArray | quaternion.hpp:119-128 | false exactly when some t[k] is 0, with v untouched, because the loop checks every divisor first; otherwise v[k] = coord k / t[k] |
| QuatFloat.HamiltonProduct | quaternion.hpp:135-154 | the component formula equals the scalar/vector Hamilton product of the quat11 variant |
| QuatFloat.HamiltonProductLaws | quaternion.hpp:135-154 | the product is associative, with identity (1,0,0,0) |
| QuatFloat.Conjugate | quaternion.hpp:155-161 | (r, −x, −y, −z), whose product with q on either side is the real quaternion det(q) |
| QuatFloat.ConjugateOfProduct | quaternion.hpp:155-161 | conj(p·q) = conj(q)·conj(p), and conjugation is an involution |
| QuatFloat.Determinant | quaternion.hpp:242-248 | the sum of squares; never negative, and zero exactly at zero |
| QuatFloat.Det | quaternion.hpp:249 | the determinant, unchanged by conjugation |
| QuatFloat.Plus | quaternion.hpp:191-197 | the coefficientwise sum |
| QuatFloat.Minus | quaternion.hpp:202-208 | the coefficientwise difference |
| QuatFloat.PlusMinus | quaternion.hpp:191-208 | `-` undoes `+`, `+` undoes `-`, and `+` is commutative |
| QuatFloat.TimesQuat | quaternion.hpp:213-215 | operator* on quaternions is the Hamilton product |
| QuatFloat.TimesScalar | quaternion.hpp:220-224 | operator* on a real scales all four coefficients, the same as multiplying by the real quaternion on either side |
| QuatFloat.Inversed | quaternion.hpp:178-186 | as written: (r, x, y, z)/det |
| QuatFloat.InversedCorrected | quaternion.hpp:178-186 | conj(q)/det(q), a two-sided inverse |
| QuatFloat.Power | quaternion.hpp:225-231 | as written: the loop runs i times starting from q, giving q^(i+1) |
| QuatFloat.PowerCorrected | quaternion.hpp:225-231 | q^i for i ≥ 1 and q for i = 0, as in the quat11 variant |
| QuatFloat.PowerTwoIsCube | tests/test_quaternion.cpp:466-473 | for (2,−2,3,−4), power(2) as written is the cube (−166,34,−51,68), not the square (−25,−8,12,−16) the test expects |
| QuatFloat.InversedIsNotInverse | tests/test_quaternion.cpp:478-485 | for (2,−2,3,−4) the as-written inverse is (2,−2,3,−4)/33, whose product with q has scalar part −25/33, not 1 |
| Quat11Algebra.InverseInvolutive | quaternion.cpp:302-331 | the true inverse of a nonzero q has determinant 1/det(q) ≠ 0, and inverting it again gives back q |
| Quat11Algebra.ReciprocalScaleInvolutive | quaternion.cpp:324-325 | the as-written value q/det(q) has determinant 1/det(q) ≠ 0, and applying it twice also gives back q |
| Quat11Algebra.DetScale | quaternion.cpp:422-426 | scaling every coefficient by k scales det by k² |
| QuatFloat.InversedRoundTrip | quaternion.hpp:178-186 | inverting twice gives back every nonzero q, for both the as-written and the corrected inversed() |
| QuatFloat.InversedCorrectedExample | tests/test_quaternion.cpp:478-485 | the corrected inverse of (2,−2,3,−4) is (2,2,−3,4)/33, as the test expects |
| QuatFloat.OperatorExamples | tests/test_quaternion.cpp:349-437 | the test examples for product, conjugate, +, −, scalar * and det |

## Left out

- Floating point. Both variants are modelled over exact reals. The `float` rounding of the `quat` variant, and the float-cast expected values in the tests, are not modelled.
- `norm`, `magnitude` and `normalized` (quaternion.cpp:273-297, 398-406 and 432-434; quaternion.hpp:166-173, 236 and 250) are not modelled, because they need a square root.
- Stream printing (`operator<<`) and the logging macros are not modelled, because they are output only.
- `std::function` is modelled as a Dafny function value of type `(real, real) --> real`, with the precondition the lambda needs (a nonzero divisor for division).
- The `res != SUCCESS` early returns inside quat11 methods are not modelled. Every callee in the core always returns SUCCESS, so those branches are dead.
- Aliasing is not modelled:
  - Operand arrays `t[3]` are passed as sequences, so the model cannot alias an operand with the output buffer.
  - Quaternion operands and `quaternion &out` are values.
  - In particular, the `power` loop passes `accumulant` both as the receiver and as `out` (quaternion.cpp:376). This is modelled as reassignment. That is faithful because `hamilton_product` reads every input before it assigns `out`.
  - Quat11.Squared assumes `out` does not alias the receiver. A call `q.squared(q)` would make the second `product(r2, out)` (quaternion.cpp:385-389) multiply the already-squared receiver by q, giving q³. The model does not capture that.
- Quat11.CombineVectorParts: the `tout` loop of `hamilton_product` (quaternion.cpp:243-245) is a separate method called from `Quat11.HamiltonProduct`, rather than written inline.
- Quat11.Inversed: requires det ≠ 0. By DetZeroIff, det is 0 only for the zero quaternion. For it the source computes `inv_mag2 = 1/0`, which is infinite, and then every coefficient is `0 * inf`, which is NaN (quaternion.cpp:320-326). Those are non-finite values that exact reals cannot represent.
- QuatFloat.Inversed: requires det ≠ 0, for the same reason. The zero quaternion gives NaN coefficients (quaternion.hpp:180-185).
- Quat11.InversedCorrected and QuatFloat.InversedCorrected: require det ≠ 0, for the same reason.
- The default constructors of `quat_c` (quaternion.h:71, quaternion.hpp:26) leave their fields uninitialised, so they are not modelled.
- The repository's unsigned `power` exponent and `std::size_t` index are modelled as `nat`, so wrap-around is not modelled.
- tests/test_quaternion.cpp calls `vector_dot`, `vector_cross` and `SCALAR_BASE` on the `quat` class, but quaternion.hpp does not declare them. Those tests are used only for the example values they share with quaternion.hpp.

## Findings

| source | as written | input that shows it | evidently intended | confidence | as-written member | corrected member |
|---|---|---|---|---|---|---|
| quaternion.cpp:324-325 | the vector part of `inversed` is the receiver's vector times 1/det, not the conjugate's | (2,−2,3,−4): gives (2,−2,3,−4)/33, and q times it is not 1 | conj(q)/det(q) = (2,2,−3,4)/33, as tests/quat_tsts.cpp:666-669 expects | high (not executed) | Quat11.InversedIsNotInverse | Quat11.InversedCorrected |
| quaternion.hpp:183-184 | the same: `vector_multiplication(vs, inv_mag2)` scales the receiver's vector part | (2,−2,3,−4): gives (2,−2,3,−4)/33, and q times it has scalar part −25/33 | (2,2,−3,4)/33, as tests/test_quaternion.cpp:481-484 expects | high (not executed) | QuatFloat.InversedIsNotInverse | QuatFloat.InversedCorrected |
| quaternion.hpp:225-231 | `power(i)` starts from q and multiplies i more times, giving q^(i+1) | (2,−2,3,−4), i = 2: gives (−166,34,−51,68) | q^i, so that power(2) equals squared (−25,−8,12,−16), as tests/test_quaternion.cpp:466-473 expects | high (not executed) | QuatFloat.PowerTwoIsCube | QuatFloat.PowerCorrected |

A round trip cannot detect either `inversed` finding. As written, `inversed` returns q/det(q), and applying that twice also gives back every nonzero q (Quat11Algebra.ReciprocalScaleInvolutive, QuatFloat.InversedRoundTrip). The true inverse round-trips in the same way (Quat11Algebra.InverseInvolutive). Only a product with q, or a comparison with conj(q)/det(q), tells them apart.
