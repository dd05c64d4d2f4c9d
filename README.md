# Capsule raycast of the Isetta engine, modelled and proved in Dafny

This project models the analytic ray tests of the engine's `CapsuleCollider`
(`Isetta/IsettaEngine/Collisions/CapsuleCollider.cpp`, lines 33-144). It covers three routines:

- **RaycastSphere** solves the ray–sphere quadratic `t^2 + 2 b t + c = 0`. It has two early rejects:
  - the origin is outside the sphere and the ray points away;
  - there is no real root.

  Otherwise it reports the near root, or the far root when the near one is behind the origin. The hit point is `origin + t * direction` and the normal is `point - center`.
- **GetWorldCapsule** chooses the capsule's world rotation and its non-uniform scale matrix, according to the axis the capsule runs along:
  - the world rotation times `zRot90` for X, unchanged for Y, and times `xRot90` for Z;
  - the axis entry of the scale is the world scale on that axis;
  - the two cross entries both take the larger of the two cross-axis world scales. That larger value is also the radius factor the routine returns.
- **Raycast** places the two cap-sphere centres `p0` and `p1` on either side of the world centre. It then solves the line–cylinder quadratic `a t^2 + b t + c = 0`. The axis parameter `tkMin` of the near root decides the result:
  - below 0: the `p0` cap sphere answers;
  - above 1: the `p1` cap sphere answers;
  - otherwise: a hit on the cylindrical side.

  A ray parallel to the axis (`a == 0`) is answered by the two cap spheres.

Each routine is a method that follows the code statement by statement, with one exception. Raycast's branch for a ray parallel to the axis (lines 110-120) is the corrected `RaycastParallel`, not the code as written; see "## Findings". The out-parameters become results, and the record behind `hitInfo` is an input returned unchanged on a miss. Each method is proved equal to a pure specification function: `SphereCast`, `CapsuleFrame` or `CapsuleCast`. The lemmas in `capsule_properties.dfy` are about those functions.

Modules:
- `RealMath` (real_math.dfy), `Vectors` (vectors.dfy), `Matrices` (matrices.dfy) and `Rays` (rays.dfy) hold the math and the ray/hit records the core uses.
- `CapsuleCollider` (capsule_collider.dfy) holds the three routines and their specification functions.
- `CapsuleProperties` (capsule_properties.dfy) holds the proved properties and two worked scenarios.
- `CapsuleFindings` (capsule_findings.dfy) holds the parallel-ray branch as it is written.

Arithmetic is over the reals. The engine's square root is a parameter `sqrt`. Lemmas that need it require `IsSqrt(sqrt)`: for every `x >= 0`, `sqrt(x) >= 0` and `sqrt(x)^2 == x`. The worked scenarios need only `sqrt(1) = 1` or `sqrt(4) = 2`, which `SqrtOfSquare` derives from `IsSqrt`.

### Behaviours of the code worth knowing

Apart from the parallel branch, the model follows the code in each case.

- **Cap offset.** The cap centres lie the full `height - 2 radius` from the world centre, scaled and rotated, not half of it (lines 87-91). For an upright capsule of radius 1 and height 4 at the origin, the cap centres are `(0, -2, 0)` and `(0, 2, 0)`, so each cap reaches 3 units from the centre. A ray from `(0, 5, 0)` straight down is parallel to the axis. The corrected parallel branch reports the top cap at `(0, 3, 0)` after 2; `TopCapHitFromAbove` proves this. The code as written tests the bottom cap twice. It reports either that cap's hit at `(0, -1, 0)` after 6 or the unwritten default record, depending on that record's distance; `AsWrittenFromAbove` proves the case of a default distance 0.
- **Order of scale and rotation.** Raycast forms `rot * scale * (0, height - 2 radius, 0)`, so the scale acts before the rotation. For an X or Z capsule, the Y entry of the scale matrix is the cross-section factor, so the long axis is stretched by that factor rather than by the world scale along the capsule's axis. `AxisOffsetAlongAxis` states this.
- **Side hits behind the origin.** The side branch never rejects a negative `tmin`. A ray from `(5, 0, 0)` along `+X`, pointing away from the upright capsule, is reported as a hit at distance -6 at `(-1, 0, 0)`. `SideHitBehindOrigin` proves this.
- **Zero-length axis.** When `height == 2 radius`, or the scale collapses the axis, `p0 == p1` and the code divides by zero. `CapsuleCast` and `Raycast` therefore require `NonDegenerate`.
- **The swap.** `std::swap(tmin, tmax)` never fires, because `a > 0` whenever it is reached. `RootsNeverSwap` proves this.

## Model

| member | source | states |
|---|---|---|
| CapsuleCollider.RaycastSphere | Isetta/IsettaEngine/Collisions/CapsuleCollider.cpp:33-52 | It returns true exactly when neither early reject applies (`c > 0 && b > 0`, or `b^2 - c < 0`). On a miss `hitInfo` is left as it was. On a hit the record holds the selected root, `origin + t * direction` and `point - center`, and the result equals `SphereCast`. |
| CapsuleProperties.SphereCastDistanceNonNegative | Isetta/IsettaEngine/Collisions/CapsuleCollider.cpp:39-48 | A reported sphere hit never has a negative distance. |
| CapsuleProperties.OnSphereIffRoot | Isetta/IsettaEngine/Collisions/CapsuleCollider.cpp:36-38 | For a unit direction, the ray point at `t` lies on the sphere if and only if `t` solves `t^2 + 2 b t + c = 0` with the code's `b` and `c`. |
| CapsuleProperties.SphereCastOnSurface | Isetta/IsettaEngine/Collisions/CapsuleCollider.cpp:36-50 | For a unit direction, a reported hit point lies on the sphere: its squared distance from the centre equals `radius^2`. |
| CapsuleProperties.SphereCastIsFirstHit | Isetta/IsettaEngine/Collisions/CapsuleCollider.cpp:36-51 | For a unit direction, the routine hits if and only if the sphere is met at some distance `t >= 0`. The distance it reports is at most every such `t`, so it is the first contact ahead of the origin. |
| CapsuleProperties.SphereCastFromInsideExits | Isetta/IsettaEngine/Collisions/CapsuleCollider.cpp:39-48 | From an origin strictly inside the sphere (`c < 0`), the routine always hits. It reports the far root `-b + sqrt(b^2 - c)`, the exit point. |
| CapsuleCollider.GetWorldCapsule | Isetta/IsettaEngine/Collisions/CapsuleCollider.cpp:53-82 | For each axis it gives the rotation (world rotation times `zRot90` for X, alone for Y, times `xRot90` for Z), the diagonal scale matrix and the factor `max` of the two cross-axis scales. The result equals `CapsuleFrame`. |
| CapsuleProperties.CrossSectionStaysRound | Isetta/IsettaEngine/Collisions/CapsuleCollider.cpp:58-81 | The chosen scale is diagonal. Along the capsule's axis it is the world scale on that axis. Both cross entries equal the returned factor. That factor is at least each cross-axis world scale and equals one of them. |
| CapsuleProperties.CapsuleRotationFollowsDirection | Isetta/IsettaEngine/Collisions/CapsuleCollider.cpp:56-74 | The chosen rotation takes the canonical Y axis to the world image of the configured local axis. |
| CapsuleProperties.CapCentresSymmetric | Isetta/IsettaEngine/Collisions/CapsuleCollider.cpp:87-93 | The cap centres are symmetric about the world centre (`p0 + p1 == 2 * center`), and `p1 - p0 == 2 * dir`. |
| CapsuleProperties.AxisOffsetAlongAxis | Isetta/IsettaEngine/Collisions/CapsuleCollider.cpp:85-91 | `dir` is the world image of the configured local axis times the full `height - 2 radius`, times the Y entry of the chosen scale. That entry is the Y scale for a Y capsule and the cross-section factor for X and Z. |
| CapsuleCollider.Raycast | Isetta/IsettaEngine/Collisions/CapsuleCollider.cpp:83-144 | On a miss `hitInfo` is left as it was. The result equals `CapsuleCast`. |
| CapsuleProperties.CapsuleCastBranches | Isetta/IsettaEngine/Collisions/CapsuleCollider.cpp:110-143 | `a == 0` goes to the parallel branch. With `a != 0`, a negative discriminant is a miss. Otherwise the near root's axis parameter selects the `p0` sphere (below 0), the `p1` sphere (above 1) or the side hit at `tmin`. |
| CapsuleProperties.RootsNeverSwap | Isetta/IsettaEngine/Collisions/CapsuleCollider.cpp:122-128 | With `a != 0` and a non-negative discriminant, `tmin <= tmax` already holds before the swap, so the ordered pair is `(tmin, tmax)` as computed. |
| CapsuleProperties.SideHitOnCylinder | Isetta/IsettaEngine/Collisions/CapsuleCollider.cpp:94-139 | The side hit is at distance `tmin` and at `ray.GetPoint(tmin)`. Its normal leads from the point's projection `p0 + to * tkMin` on the axis to the point. The normal is perpendicular to the axis and has squared length `(radius * radiusScale)^2`, so the point lies on the cylinder's surface. |
| CapsuleProperties.AlongAxisIsParallel | Isetta/IsettaEngine/Collisions/CapsuleCollider.cpp:97-108 | A ray direction that is a multiple `k` of `p1 - p0` gives `m == k`, `q == 0` and `a == 0`, so the parallel branch runs. |
| CapsuleCollider.RaycastParallel | Isetta/IsettaEngine/Collisions/CapsuleCollider.cpp:110-120 | The parallel branch as intended: on a miss `hitInfo` is left as it was, and the result equals `ParallelCast` (test `p0`, then `p1`, fail if either misses, keep the nearer hit). |
| CapsuleProperties.ParallelCastIsNearerCap | Isetta/IsettaEngine/Collisions/CapsuleCollider.cpp:110-120 | The parallel branch hits if and only if both cap spheres are hit. It reports one of the two hits, at a distance no greater than either and never negative. |
| CapsuleProperties.TopCapHitFromAbove | Isetta/IsettaEngine/Collisions/CapsuleCollider.cpp:87-120 | With the corrected parallel branch, an upright capsule of radius 1 and height 4 at the origin, hit by a ray from `(0, 5, 0)` straight down, is hit on the top cap at `(0, 3, 0)` after 2, with normal `(0, 1, 0)`. |
| CapsuleProperties.SideHitBehindOrigin | Isetta/IsettaEngine/Collisions/CapsuleCollider.cpp:122-143 | The same capsule, hit by a ray from `(5, 0, 0)` pointing away along `+X`, gives a side hit at distance -6, at `(-1, 0, 0)`, with normal `(-1, 0, 0)`. |
| CapsuleFindings.RaycastParallelAsWritten | Isetta/IsettaEngine/Collisions/CapsuleCollider.cpp:110-120 | The parallel branch as written: both sphere tests are on `p0`, and the result is compared with the unwritten `bHit`. On a miss `hitInfo` is left as it was, and the result equals `ParallelCastAsWritten`. |
| CapsuleFindings.AsWrittenReportsUnwrittenRecord | Isetta/IsettaEngine/Collisions/CapsuleCollider.cpp:110-120 | Suppose both caps are hit and the unwritten record holds a negative distance. The code then reports that record, while the intended branch reports a cap hit that differs from it. |
| CapsuleFindings.AsWrittenIgnoresSecondCap | Isetta/IsettaEngine/Collisions/CapsuleCollider.cpp:110-114 | When the `p0` cap is hit and the `p1` cap is missed, the code reports a hit, while the intended branch reports none. |
| CapsuleFindings.AsWrittenFromAbove | Isetta/IsettaEngine/Collisions/CapsuleCollider.cpp:110-120 | For the ray from above and an unwritten record of distance 0, the code reports the unwritten record. The intended branch reports the top-cap hit at `(0, 3, 0)` after 2. |

## Left out

- `CapsuleCollider::Update` (lines 16-32) is left out: it only debug-draws.
- The code after the branches that end Raycast (lines 145-183) can never run, so it is not modelled.
- `INTERSECTION_TEST(CapsuleCollider)` (line 186) is left out: the macro's expansion is not part of this model.
- The `maxDistance` parameter is left out: neither routine reads it.
- IEEE single-precision effects are not modelled: rounding, NaN and infinities, and the exact `a == 0.0f` test under rounding. The model computes over the reals.
- Math::Util::Sqrt is not modelled: it is the `sqrt` parameter, constrained by `IsSqrt` where needed. Math::Util::Max is taken as the usual maximum.
- Math::Matrix4 is reduced to its 3x3 linear part. Every product in the code is applied to a direction with `w = 0`, so translation never enters. The matrix type itself is not part of this model.
- The world rotation, world scale and `GetWorldCenter()` are inputs (`WorldTransform`). The Transform system behind them is not part of this model.
- `zRot90` and `xRot90` are not shown in the source. The model takes them to be the right-handed quarter turns about Z and X. Only `CapsuleRotationFollowsDirection` and `AxisOffsetAlongAxis` (through `LocalAxis`) depend on those values.
- `Raycast` and `CapsuleCast` require `NonDegenerate`: the code divides by `|p1 - p0|^2` without a guard, and the model does not give that division a meaning.
- Graphics/LightComponent.cpp (rendering and resource glue) and IsettaTestbed/Level/ExampleLevel.h (a level declaration) contain no collision logic and are not modelled.
- The default contents of a freshly constructed `RaycastHit` are not known from the source. The intended branch never reads them. The as-written branch takes the unwritten record as the parameter `bHit`.

## Findings

| source | as written | input that shows it | evidently intended | confidence | as-written member | corrected member |
|---|---|---|---|---|---|---|
| Isetta/IsettaEngine/Collisions/CapsuleCollider.cpp:112-118 | The parallel branch tests the `p0` sphere twice, both times into `aHit`. It then compares `aHit` with `bHit`, which was never written, and may return `bHit`. | Upright capsule (radius 1, height 4, origin), ray from `(0, 5, 0)` with direction `(0, -1, 0)`, and a `bHit` of distance 0. The code reports `bHit`. With a `bHit` of negative distance, it reports `bHit` whenever both caps are hit. | The second test is on `p1` into `bHit`, and the nearer of the two cap hits is returned. This gives the top-cap hit at `(0, 3, 0)` after 2. | not executed | CapsuleFindings.RaycastParallelAsWritten (AsWrittenFromAbove, AsWrittenReportsUnwrittenRecord) | CapsuleCollider.RaycastParallel (ParallelCastIsNearerCap) |
