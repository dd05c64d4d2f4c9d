/** What the capsule raycast promises, proved about the specification functions of
    CapsuleCollider (and so, through the methods' postconditions, about the methods). */
module CapsuleProperties {
  import opened RealMath
  import opened Vectors
  import opened Matrices
  import opened Rays
  import opened CapsuleCollider

  // ---------------------------------------------------------------------------------------
  // Facts about the sphere quadratic t^2 + 2 b t + c = 0 and its roots -b -+ s, s^2 = b^2 - c

  lemma SelectedRootNonNeg(b: real, c: real, s: real)
    requires 0.0 <= s && s * s == b * b - c && !(c > 0.0 && b > 0.0)
    ensures 0.0 <= (if -b - s < 0.0 then -b + s else -b - s)
  {
    if -b - s < 0.0 && b > 0.0 {
      SquareLe(s, b);
    }
  }

  lemma SphereRootsAreRoots(b: real, c: real, s: real)
    requires s * s == b * b - c
    ensures (-b - s) * (-b - s) + 2.0 * b * (-b - s) + c == 0.0
    ensures (-b + s) * (-b + s) + 2.0 * b * (-b + s) + c == 0.0
  {
  }

  lemma OnlySphereRoots(b: real, c: real, s: real, t: real)
    requires 0.0 <= s && s * s == b * b - c && t * t + 2.0 * b * t + c == 0.0
    ensures t == -b - s || t == -b + s
  {
    assert (t + b - s) * (t + b + s) == 0.0;
    ZeroProduct(t + b - s, t + b + s);
  }

  lemma RootNeedsDiscriminant(b: real, c: real, t: real)
    requires t * t + 2.0 * b * t + c == 0.0
    ensures 0.0 <= b * b - c
  {
    assert b * b - c == (t + b) * (t + b);
    SquareNonNeg(t + b);
  }

  lemma NoRootAhead(b: real, c: real, t: real)
    requires 0.0 < c && 0.0 < b && 0.0 <= t
    ensures t * t + 2.0 * b * t + c != 0.0
  {
    MulNonNeg(t, t);
    MulNonNeg(b, t);
  }

  // ---------------------------------------------------------------------------------------
  // RaycastSphere

  /** `p` lies on the sphere of the given centre and radius. */
  predicate OnSphere(center: Vector3, radius: real, p: Vector3) {
    var d := Sub(p, center);
    Dot(d, d) == radius * radius
  }

  /** For a unit direction, the ray point at `t` lies on the sphere exactly when `t` solves
      the quadratic whose coefficients the code computes. */
  lemma OnSphereIffRoot(center: Vector3, radius: real, ray: Ray, t: real)
    requires Dot(ray.direction, ray.direction) == 1.0
    ensures OnSphere(center, radius, ray.GetPoint(t))
        <==> t * t + 2.0 * SphereB(center, ray) * t + SphereC(center, radius, ray) == 0.0
  {
    var to := Sub(ray.origin, center);
    assert Sub(ray.GetPoint(t), center) == Add(to, Scale(ray.direction, t));
    DotAlongLine(to, ray.direction, t);
  }

  /** Whenever RaycastSphere reports a hit, the reported distance is not negative: the early
      reject removes the case where both roots lie behind the origin. */
  lemma SphereCastDistanceNonNegative(sqrt: real -> real, center: Vector3, radius: real, ray: Ray)
    requires IsSqrt(sqrt)
    ensures SphereCast(sqrt, center, radius, ray).Some? ==> 0.0 <= SphereCast(sqrt, center, radius, ray).value.distance
  {
    var b, c := SphereB(center, ray), SphereC(center, radius, ray);
    if !SphereRejects(b, c) {
      SelectedRootNonNeg(b, c, sqrt(SphereDiscriminant(b, c)));
    }
  }

  /** With a unit direction, a reported hit point lies on the sphere. */
  lemma SphereCastOnSurface(sqrt: real -> real, center: Vector3, radius: real, ray: Ray)
    requires IsSqrt(sqrt) && Dot(ray.direction, ray.direction) == 1.0
    ensures SphereCast(sqrt, center, radius, ray).Some? ==> OnSphere(center, radius, SphereCast(sqrt, center, radius, ray).value.point)
  {
    var b, c := SphereB(center, ray), SphereC(center, radius, ray);
    if !SphereRejects(b, c) {
      var t := SphereDistance(sqrt, b, c);
      SphereRootsAreRoots(b, c, sqrt(SphereDiscriminant(b, c)));
      OnSphereIffRoot(center, radius, ray, t);
    }
  }

  /** With a unit direction, RaycastSphere hits exactly when some point of the ray at a
      non-negative distance lies on the sphere, and it reports the nearest such point. */
  lemma SphereCastIsFirstHit(sqrt: real -> real, center: Vector3, radius: real, ray: Ray)
    requires IsSqrt(sqrt) && Dot(ray.direction, ray.direction) == 1.0
    ensures SphereCast(sqrt, center, radius, ray).Some?
        <==> exists t :: 0.0 <= t && OnSphere(center, radius, ray.GetPoint(t))
    ensures SphereCast(sqrt, center, radius, ray).Some? ==>
      forall t :: 0.0 <= t && OnSphere(center, radius, ray.GetPoint(t)) ==>
        SphereCast(sqrt, center, radius, ray).value.distance <= t
  {
    var h := SphereCast(sqrt, center, radius, ray);
    var b, c := SphereB(center, ray), SphereC(center, radius, ray);
    if h.Some? {
      var s := sqrt(SphereDiscriminant(b, c));
      SphereCastDistanceNonNegative(sqrt, center, radius, ray);
      SphereCastOnSurface(sqrt, center, radius, ray);
      assert ray.GetPoint(h.value.distance) == h.value.point;
      forall t | 0.0 <= t && OnSphere(center, radius, ray.GetPoint(t))
        ensures h.value.distance <= t
      {
        OnSphereIffRoot(center, radius, ray, t);
        OnlySphereRoots(b, c, s, t);
      }
    } else {
      forall t | 0.0 <= t
        ensures !OnSphere(center, radius, ray.GetPoint(t))
      {
        OnSphereIffRoot(center, radius, ray, t);
        if t * t + 2.0 * b * t + c == 0.0 {
          RootNeedsDiscriminant(b, c, t);
          NoRootAhead(b, c, t);
        }
      }
    }
  }

  /** A ray whose origin is strictly inside the sphere hits it at the far (exit) root. */
  lemma SphereCastFromInsideExits(sqrt: real -> real, center: Vector3, radius: real, ray: Ray)
    requires IsSqrt(sqrt) && SphereC(center, radius, ray) < 0.0
    ensures SphereCast(sqrt, center, radius, ray).Some?
    ensures SphereCast(sqrt, center, radius, ray).value.distance
         == -SphereB(center, ray) + sqrt(SphereDiscriminant(SphereB(center, ray), SphereC(center, radius, ray)))
  {
    var b, c := SphereB(center, ray), SphereC(center, radius, ray);
    SquareNonNeg(b);
    var s := sqrt(SphereDiscriminant(b, c));
    if b < 0.0 {
      SquareLt(s, -b);
    }
  }

  // ---------------------------------------------------------------------------------------
  // GetWorldCapsule

  /** The component of `v` along the local axis `d`. */
  function AxisComponent(v: Vector3, d: Direction): real {
    match d
    case XAxis => v.x
    case YAxis => v.y
    case ZAxis => v.z
  }

  /** The diagonal entries of a matrix. */
  function DiagonalOf(m: Matrix3): Vector3 {
    Vector3(m.row0.x, m.row1.y, m.row2.z)
  }

  /** All entries off the diagonal are zero. */
  predicate IsDiagonal(m: Matrix3) {
    && m.row0.y == 0.0 && m.row0.z == 0.0
    && m.row1.x == 0.0 && m.row1.z == 0.0
    && m.row2.x == 0.0 && m.row2.y == 0.0
  }

  /** The scale GetWorldCapsule chooses is diagonal; along the capsule's axis it is the world
      scale on that axis, and on both cross axes it is the returned factor, which is the
      larger of the two cross-axis world scales. */
  lemma CrossSectionStaysRound(d: Direction, worldRotation: Matrix3, s: Vector3)
    ensures var f := CapsuleFrame(d, worldRotation, s);
      && IsDiagonal(f.scale)
      && AxisComponent(DiagonalOf(f.scale), d) == AxisComponent(s, d)
      && (forall e :: e != d ==> AxisComponent(DiagonalOf(f.scale), e) == f.radiusScale)
      && (forall e :: e != d ==> AxisComponent(s, e) <= f.radiusScale)
      && (exists e :: e != d && AxisComponent(s, e) == f.radiusScale)
  {
    var f := CapsuleFrame(d, worldRotation, s);
    forall e | e != d
      ensures AxisComponent(DiagonalOf(f.scale), e) == f.radiusScale
      ensures AxisComponent(s, e) <= f.radiusScale
    {
    }
    match d
    case XAxis =>
      assert AxisComponent(s, if s.y < s.z then ZAxis else YAxis) == f.radiusScale;
    case YAxis =>
      assert AxisComponent(s, if s.x < s.z then ZAxis else XAxis) == f.radiusScale;
    case ZAxis =>
      assert AxisComponent(s, if s.x < s.y then YAxis else XAxis) == f.radiusScale;
  }

  /** The local axis that `zRot90` (for X) or `xRot90` (for Z) brings the canonical Y axis
      onto; the sign follows the right-handed convention of the two constants. */
  function LocalAxis(d: Direction): Vector3 {
    match d
    case XAxis => Vector3(-1.0, 0.0, 0.0)
    case YAxis => Up
    case ZAxis => Vector3(0.0, 0.0, 1.0)
  }

  /** The rotation GetWorldCapsule chooses turns the capsule's canonical Y axis onto the
      world image of the configured local axis. */
  lemma CapsuleRotationFollowsDirection(d: Direction, worldRotation: Matrix3, s: Vector3)
    ensures Apply(CapsuleFrame(d, worldRotation, s).rotation, Up) == Apply(worldRotation, LocalAxis(d))
  {
    match d
    case XAxis => ApplyMul(worldRotation, ZRot90, Up);
    case YAxis =>
    case ZAxis => ApplyMul(worldRotation, XRot90, Up);
  }

  // ---------------------------------------------------------------------------------------
  // Raycast: the capsule's segment

  /** The two cap centres are symmetric about the world centre, `2 * dir` apart. */
  lemma CapCentresSymmetric(capsule: Capsule, transform: WorldTransform)
    ensures Add(P0(capsule, transform), P1(capsule, transform)) == Scale(transform.center, 2.0)
    ensures Sub(P1(capsule, transform), P0(capsule, transform))
         == Scale(AxisOffset(capsule, FrameOf(capsule, transform)), 2.0)
  {
  }

  /** `dir` runs along the world image of the configured axis, and its length is the full
      `height - 2 radius` times the Y entry of the scale matrix. Because the code applies the
      scale before the rotation, that entry is the world Y scale for a Y capsule and the
      cross-section factor, not the long-axis scale, for X and Z capsules. */
  lemma AxisOffsetAlongAxis(capsule: Capsule, transform: WorldTransform)
    ensures var f := FrameOf(capsule, transform);
      AxisOffset(capsule, f)
        == Scale(Apply(transform.rotation, LocalAxis(capsule.direction)), AxisLength(capsule, f))
  {
    var f := FrameOf(capsule, transform);
    FrameScaleDiagonal(capsule.direction, transform.rotation, transform.scale);
    AxisOffsetOfDiagonalFrame(capsule, f);
    CapsuleRotationFollowsDirection(capsule.direction, transform.rotation, transform.scale);
  }

  /** The scale of the frame is diagonal, and its Y entry is the world Y scale for a Y
      capsule and the cross-section factor otherwise. */
  lemma FrameScaleDiagonal(d: Direction, worldRotation: Matrix3, s: Vector3)
    ensures var f := CapsuleFrame(d, worldRotation, s);
      && IsDiagonal(f.scale)
      && DiagonalOf(f.scale).y == if d == YAxis then s.y else f.radiusScale
  {
  }

  /** The length of `dir` for a frame with a diagonal scale: the scale's Y entry times the
      full `height - 2 radius`. */
  function AxisLength(capsule: Capsule, f: Frame): real {
    DiagonalOf(f.scale).y * (capsule.height - 2.0 * capsule.radius)
  }

  /** For a frame with a diagonal scale, `dir` is the frame's rotated Y axis times the scale's
      Y entry times `height - 2 radius`. */
  lemma AxisOffsetOfDiagonalFrame(capsule: Capsule, f: Frame)
    requires IsDiagonal(f.scale)
    ensures AxisOffset(capsule, f)
         == Scale(Apply(f.rotation, Up), AxisLength(capsule, f))
  {
    var u := Diagonal(Splat(capsule.height - 2.0 * capsule.radius));
    ApplyMul(Mul(f.rotation, f.scale), u, Up);
    SplatOnUp(capsule.height - 2.0 * capsule.radius);
    ApplyMul(f.rotation, f.scale, Scale(Up, capsule.height - 2.0 * capsule.radius));
    DiagonalOnAxis(capsule, f);
    ApplyScale(f.rotation, Up, AxisLength(capsule, f));
  }

  lemma SplatOnUp(k: real)
    ensures Apply(Diagonal(Splat(k)), Up) == Scale(Up, k)
  {
  }

  lemma DiagonalOnAxis(capsule: Capsule, f: Frame)
    requires IsDiagonal(f.scale)
    ensures Apply(f.scale, Scale(Up, capsule.height - 2.0 * capsule.radius))
         == Scale(Up, AxisLength(capsule, f))
  {
  }

  // ---------------------------------------------------------------------------------------
  // Raycast: the line–cylinder quadratic

  /** Both roots the code computes solve `a t^2 + b t + c = 0`. */
  lemma CylinderRootsAreRoots(a: real, b: real, c: real, s: real)
    requires a != 0.0 && s * s == Discriminant(a, b, c)
    ensures var t := LowRoot(a, b, s); a * t * t + b * t + c == 0.0
    ensures var t := HighRoot(a, b, s); a * t * t + b * t + c == 0.0
  {
  }

  /** With `a > 0` the code's `tmin` never exceeds its `tmax`, so its swap never fires. */
  lemma LowRootFirst(a: real, b: real, s: real)
    requires 0.0 < a && 0.0 <= s
    ensures LowRoot(a, b, s) <= HighRoot(a, b, s)
  {
    var k := 0.5 / a;
    MulNonNeg(s, k);
    assert HighRoot(a, b, s) - LowRoot(a, b, s) == 2.0 * (s * k);
  }

  /** The ray meets the infinite cylinder in two ordered roots and the conditional swap is
      dead code: `Roots` returns the low root first, unswapped. */
  lemma RootsNeverSwap(sqrt: real -> real, p0: Vector3, p1: Vector3, worldRadius: real, ray: Ray)
    requires IsSqrt(sqrt) && Dot(Sub(p1, p0), Sub(p1, p0)) != 0.0
    requires var cyl := CylinderOf(p0, p1, worldRadius, ray);
      cyl.a != 0.0 && 0.0 <= Discriminant(cyl.a, cyl.b, cyl.c)
    ensures var cyl := CylinderOf(p0, p1, worldRadius, ray);
      var s := sqrt(Discriminant(cyl.a, cyl.b, cyl.c));
      && Roots(sqrt, cyl.a, cyl.b, cyl.c) == (LowRoot(cyl.a, cyl.b, s), HighRoot(cyl.a, cyl.b, s))
      && LowRoot(cyl.a, cyl.b, s) <= HighRoot(cyl.a, cyl.b, s)
  {
    var cyl := CylinderOf(p0, p1, worldRadius, ray);
    DotSelfNonNeg(cyl.q);
    LowRootFirst(cyl.a, cyl.b, sqrt(Discriminant(cyl.a, cyl.b, cyl.c)));
  }

  /** A hit on the cylindrical side lies on the infinite cylinder of radius `worldRadius`
      around the axis: its normal is perpendicular to `p1 - p0`, has length `worldRadius`,
      and leads from the point's projection `p0 + to * tkMin` on the axis to the point. */
  lemma SideHitOnCylinder(sqrt: real -> real, p0: Vector3, p1: Vector3, worldRadius: real, ray: Ray)
    requires IsSqrt(sqrt) && Dot(Sub(p1, p0), Sub(p1, p0)) != 0.0
    requires var cyl := CylinderOf(p0, p1, worldRadius, ray);
      cyl.a != 0.0 && 0.0 <= Discriminant(cyl.a, cyl.b, cyl.c)
    ensures var cyl := CylinderOf(p0, p1, worldRadius, ray);
      var tmin := Roots(sqrt, cyl.a, cyl.b, cyl.c).0;
      var tkMin := AxisParameter(tmin, cyl.m, cyl.n);
      var h := SideHit(ray, p0, cyl.to, tmin, tkMin);
      && h.distance == tmin
      && h.point == ray.GetPoint(tmin)
      && h.point == Add(Add(p0, Scale(cyl.to, tkMin)), h.normal)
      && Dot(h.normal, cyl.to) == 0.0
      && Dot(h.normal, h.normal) == worldRadius * worldRadius
  {
    var cyl := CylinderOf(p0, p1, worldRadius, ray);
    RootsNeverSwap(sqrt, p0, p1, worldRadius, ray);
    var t := Roots(sqrt, cyl.a, cyl.b, cyl.c).0;
    SideNormalSplits(ray, p0, cyl.to, cyl.m, cyl.n, t);
    SideNormalPerpendicular(p0, p1, worldRadius, ray, t);
    SideNormalLength(p0, p1, worldRadius, ray, sqrt(Discriminant(cyl.a, cyl.b, cyl.c)));
  }

  /** The side normal is the perpendicular offset `r` plus `t` times the perpendicular
      direction `q`. */
  lemma SideNormalSplits(ray: Ray, p0: Vector3, to: Vector3, m: real, n: real, t: real)
    ensures SideHit(ray, p0, to, t, AxisParameter(t, m, n)).normal
         == Add(Sub(Sub(ray.origin, p0), Scale(to, n)), Scale(Sub(ray.direction, Scale(to, m)), t))
  {
    SideNormalSplitsX(ray, p0, to, m, n, t);
    SideNormalSplitsY(ray, p0, to, m, n, t);
    SideNormalSplitsZ(ray, p0, to, m, n, t);
  }

  lemma SideNormalSplitsX(ray: Ray, p0: Vector3, to: Vector3, m: real, n: real, t: real)
    ensures SideHit(ray, p0, to, t, AxisParameter(t, m, n)).normal.x
         == Add(Sub(Sub(ray.origin, p0), Scale(to, n)), Scale(Sub(ray.direction, Scale(to, m)), t)).x
  {
    SplitOffset(ray.origin.x, ray.direction.x, p0.x, to.x, m, n, t);
  }

  lemma SideNormalSplitsY(ray: Ray, p0: Vector3, to: Vector3, m: real, n: real, t: real)
    ensures SideHit(ray, p0, to, t, AxisParameter(t, m, n)).normal.y
         == Add(Sub(Sub(ray.origin, p0), Scale(to, n)), Scale(Sub(ray.direction, Scale(to, m)), t)).y
  {
    SplitOffset(ray.origin.y, ray.direction.y, p0.y, to.y, m, n, t);
  }

  lemma SideNormalSplitsZ(ray: Ray, p0: Vector3, to: Vector3, m: real, n: real, t: real)
    ensures SideHit(ray, p0, to, t, AxisParameter(t, m, n)).normal.z
         == Add(Sub(Sub(ray.origin, p0), Scale(to, n)), Scale(Sub(ray.direction, Scale(to, m)), t)).z
  {
    SplitOffset(ray.origin.z, ray.direction.z, p0.z, to.z, m, n, t);
  }

  /** SideNormalSplits for one coordinate. */
  lemma SplitOffset(o: real, d: real, p: real, w: real, m: real, n: real, t: real)
    ensures (o + d * t) - (p + w * AxisParameter(t, m, n)) == ((o - p) - w * n) + (d - w * m) * t
  {
  }

  lemma SideNormalPerpendicular(p0: Vector3, p1: Vector3, worldRadius: real, ray: Ray, t: real)
    requires Dot(Sub(p1, p0), Sub(p1, p0)) != 0.0
    ensures var cyl := CylinderOf(p0, p1, worldRadius, ray);
      Dot(Add(cyl.r, Scale(cyl.q, t)), cyl.to) == 0.0
  {
    var cyl := CylinderOf(p0, p1, worldRadius, ray);
    PerpendicularPart(cyl.o, cyl.to);
    PerpendicularPart(ray.direction, cyl.to);
    DotAddScale(cyl.r, cyl.q, t, cyl.to);
  }

  lemma SideNormalLength(p0: Vector3, p1: Vector3, worldRadius: real, ray: Ray, s: real)
    requires Dot(Sub(p1, p0), Sub(p1, p0)) != 0.0
    requires var cyl := CylinderOf(p0, p1, worldRadius, ray);
      cyl.a != 0.0 && s * s == Discriminant(cyl.a, cyl.b, cyl.c)
    ensures var cyl := CylinderOf(p0, p1, worldRadius, ray);
      var v := Add(cyl.r, Scale(cyl.q, LowRoot(cyl.a, cyl.b, s)));
      Dot(v, v) == worldRadius * worldRadius
  {
    var cyl := CylinderOf(p0, p1, worldRadius, ray);
    DotAlongLine(cyl.r, cyl.q, LowRoot(cyl.a, cyl.b, s));
    DotSymmetric(cyl.r, cyl.q);
    CylinderRootsAreRoots(cyl.a, cyl.b, cyl.c, s);
  }

  /** Raycast when the ray is not parallel to the axis: no root means a miss; otherwise the
      axis parameter of the near root sends the query to the p0 cap sphere (below 0), to the
      p1 cap sphere (above 1), or to the cylindrical side. */
  lemma CapsuleCastBranches(sqrt: real -> real, capsule: Capsule, transform: WorldTransform, ray: Ray)
    requires IsSqrt(sqrt) && NonDegenerate(capsule, transform)
    ensures var p0, p1 := P0(capsule, transform), P1(capsule, transform);
      var radius := WorldRadius(capsule, transform);
      var cyl := CylinderOf(p0, p1, radius, ray);
      cyl.a == 0.0 ==> CapsuleCast(sqrt, capsule, transform, ray) == ParallelCast(sqrt, p0, p1, radius, ray)
    ensures var p0, p1 := P0(capsule, transform), P1(capsule, transform);
      var radius := WorldRadius(capsule, transform);
      var cyl := CylinderOf(p0, p1, radius, ray);
      cyl.a != 0.0 && Discriminant(cyl.a, cyl.b, cyl.c) < 0.0 ==> CapsuleCast(sqrt, capsule, transform, ray) == None
    ensures var p0, p1 := P0(capsule, transform), P1(capsule, transform);
      var radius := WorldRadius(capsule, transform);
      var cyl := CylinderOf(p0, p1, radius, ray);
      cyl.a != 0.0 && 0.0 <= Discriminant(cyl.a, cyl.b, cyl.c) ==>
        var tmin := LowRoot(cyl.a, cyl.b, sqrt(Discriminant(cyl.a, cyl.b, cyl.c)));
        var tkMin := AxisParameter(tmin, cyl.m, cyl.n);
        var h := CapsuleCast(sqrt, capsule, transform, ray);
        && (tkMin < 0.0 ==> h == SphereCast(sqrt, p0, radius, ray))
        && (tkMin > 1.0 ==> h == SphereCast(sqrt, p1, radius, ray))
        && (0.0 <= tkMin <= 1.0 ==> h == Some(SideHit(ray, p0, cyl.to, tmin, tkMin)))
  {
    var p0, p1 := P0(capsule, transform), P1(capsule, transform);
    var radius := WorldRadius(capsule, transform);
    var cyl := CylinderOf(p0, p1, radius, ray);
    if cyl.a != 0.0 && 0.0 <= Discriminant(cyl.a, cyl.b, cyl.c) {
      RootsNeverSwap(sqrt, p0, p1, radius, ray);
    }
  }

  lemma QuotientOfMultiple(k: real, d: real)
    requires d != 0.0
    ensures (k * d) / d == k
  {
  }

  /** A ray whose direction is a multiple `k` of the axis `p1 - p0` has no perpendicular
      component: `m = k`, `q = 0` and so `a = 0`, which sends Raycast to its parallel branch. */
  lemma AlongAxisIsParallel(p0: Vector3, p1: Vector3, worldRadius: real, ray: Ray, k: real)
    requires Dot(Sub(p1, p0), Sub(p1, p0)) != 0.0 && ray.direction == Scale(Sub(p1, p0), k)
    ensures CylinderOf(p0, p1, worldRadius, ray).m == k
    ensures CylinderOf(p0, p1, worldRadius, ray).q == Zero
    ensures CylinderOf(p0, p1, worldRadius, ray).a == 0.0
  {
    var to := Sub(p1, p0);
    DotScaleRight(to, to, k);
    QuotientOfMultiple(k, Dot(to, to));
    assert CylinderOf(p0, p1, worldRadius, ray).m == k;
    SubSelf(ray.direction);
  }

  /** The parallel-ray branch (as evidently intended) hits only when both cap spheres are
      hit, and then reports the nearer of the two hits, at a non-negative distance. */
  lemma ParallelCastIsNearerCap(sqrt: real -> real, p0: Vector3, p1: Vector3, worldRadius: real, ray: Ray)
    requires IsSqrt(sqrt)
    ensures var h := ParallelCast(sqrt, p0, p1, worldRadius, ray);
      var h0, h1 := SphereCast(sqrt, p0, worldRadius, ray), SphereCast(sqrt, p1, worldRadius, ray);
      && (h.Some? <==> h0.Some? && h1.Some?)
      && (h.Some? ==>
            && (h == h0 || h == h1)
            && h.value.distance <= h0.value.distance
            && h.value.distance <= h1.value.distance
            && 0.0 <= h.value.distance)
  {
    SphereCastDistanceNonNegative(sqrt, p0, worldRadius, ray);
    SphereCastDistanceNonNegative(sqrt, p1, worldRadius, ray);
  }

  // ---------------------------------------------------------------------------------------
  // Concrete scenarios

  /** An object at the origin, unrotated and unscaled. */
  const Unmoved: WorldTransform := WorldTransform(Zero, Identity, Vector3(1.0, 1.0, 1.0))

  /** A Y capsule of radius 1 and height 4. */
  const Upright: Capsule := Capsule(1.0, 4.0, YAxis)

  // Each step below is a lemma of its own with a single conclusion: the solver handles these
  // concrete real computations one at a time far better than all at once.

  lemma UnmovedAxisLength()
    ensures AxisLength(Upright, FrameOf(Upright, Unmoved)) == 2.0
  {
  }

  lemma UnmovedKeepsUp()
    ensures Apply(Unmoved.rotation, LocalAxis(YAxis)) == Up
  {
  }

  /** The code puts the cap centres the full `height - 2 radius` = 2 away from the centre. */
  lemma UnmovedAxisOffset()
    ensures AxisOffset(Upright, FrameOf(Upright, Unmoved)) == Vector3(0.0, 2.0, 0.0)
  {
    AxisOffsetAlongAxis(Upright, Unmoved);
    UnmovedAxisLength();
    UnmovedKeepsUp();
  }

  lemma UnmovedP0()
    ensures P0(Upright, Unmoved) == Vector3(0.0, -2.0, 0.0)
  {
    UnmovedAxisOffset();
  }

  lemma UnmovedP1()
    ensures P1(Upright, Unmoved) == Vector3(0.0, 2.0, 0.0)
  {
    UnmovedAxisOffset();
  }

  lemma UnmovedWorldRadius()
    ensures WorldRadius(Upright, Unmoved) == 1.0
  {
  }

  lemma UnmovedNonDegenerate()
    ensures NonDegenerate(Upright, Unmoved)
  {
    UnmovedP0();
    UnmovedP1();
    UnmovedAxisSquared(P0(Upright, Unmoved), P1(Upright, Unmoved));
  }

  lemma UnmovedAxisSquared(p0: Vector3, p1: Vector3)
    requires p0 == Vector3(0.0, -2.0, 0.0) && p1 == Vector3(0.0, 2.0, 0.0)
    ensures Dot(Sub(p1, p0), Sub(p1, p0)) == 16.0
  {
  }

  /** A ray from (0, 5, 0) straight down. */
  const FromAbove: Ray := Ray(Vector3(0.0, 5.0, 0.0), Vector3(0.0, -1.0, 0.0))

  lemma AxisFromCentres(p0: Vector3, p1: Vector3)
    requires p0 == Vector3(0.0, -2.0, 0.0) && p1 == Vector3(0.0, 2.0, 0.0)
    ensures Sub(p1, p0) == Vector3(0.0, 4.0, 0.0)
  {
  }

  lemma QuarterAxisDown()
    ensures Scale(Vector3(0.0, 4.0, 0.0), -0.25) == FromAbove.direction
  {
  }

  lemma FromAboveAlongAxis(p0: Vector3, p1: Vector3)
    requires p0 == Vector3(0.0, -2.0, 0.0) && p1 == Vector3(0.0, 2.0, 0.0)
    ensures FromAbove.direction == Scale(Sub(p1, p0), -0.25)
  {
    AxisFromCentres(p0, p1);
    QuarterAxisDown();
  }

  lemma FromAboveBottomCapTerms()
    ensures SphereB(Vector3(0.0, -2.0, 0.0), FromAbove) == -7.0
    ensures SphereC(Vector3(0.0, -2.0, 0.0), 1.0, FromAbove) == 48.0
  {
  }

  lemma FromAboveTopCapTerms()
    ensures SphereB(Vector3(0.0, 2.0, 0.0), FromAbove) == -3.0
    ensures SphereC(Vector3(0.0, 2.0, 0.0), 1.0, FromAbove) == 8.0
  {
  }

  lemma FromAboveLower()
    ensures FromAbove.GetPoint(6.0) == Vector3(0.0, -1.0, 0.0)
  {
    PointOnVerticalRay(FromAbove, 5.0, -1.0, 6.0);
  }

  lemma FromAboveUpper()
    ensures FromAbove.GetPoint(2.0) == Vector3(0.0, 3.0, 0.0)
  {
    PointOnVerticalRay(FromAbove, 5.0, -1.0, 2.0);
  }

  /** A point on a ray that runs along the Y axis. */
  lemma PointOnVerticalRay(ray: Ray, y: real, dy: real, t: real)
    requires ray == Ray(Vector3(0.0, y, 0.0), Vector3(0.0, dy, 0.0))
    ensures ray.GetPoint(t) == Vector3(0.0, y + dy * t, 0.0)
  {
  }

  /** A sphere cast with known `b`, `c` and selected root `t` hits at `ray.GetPoint(t)`. */
  lemma SphereCastHits(sqrt: real -> real, center: Vector3, radius: real, ray: Ray, b: real, c: real, t: real)
    requires SphereB(center, ray) == b && SphereC(center, radius, ray) == c
    requires !SphereRejects(b, c) && SphereDistance(sqrt, b, c) == t
    ensures SphereCast(sqrt, center, radius, ray)
         == Some(RaycastHit(t, ray.GetPoint(t), Sub(ray.GetPoint(t), center)))
  {
  }

  lemma BottomCapRoot(sqrt: real -> real)
    requires sqrt(1.0) == 1.0
    ensures !SphereRejects(-7.0, 48.0) && SphereDistance(sqrt, -7.0, 48.0) == 6.0
  {
    assert SphereDiscriminant(-7.0, 48.0) == 1.0;
  }

  lemma TopCapRoot(sqrt: real -> real)
    requires sqrt(1.0) == 1.0
    ensures !SphereRejects(-3.0, 8.0) && SphereDistance(sqrt, -3.0, 8.0) == 2.0
  {
    assert SphereDiscriminant(-3.0, 8.0) == 1.0;
  }

  lemma FromAboveBottomCap(sqrt: real -> real)
    requires sqrt(1.0) == 1.0
    ensures SphereCast(sqrt, Vector3(0.0, -2.0, 0.0), 1.0, FromAbove)
         == Some(RaycastHit(6.0, Vector3(0.0, -1.0, 0.0), Vector3(0.0, 1.0, 0.0)))
  {
    FromAboveBottomCapTerms();
    BottomCapRoot(sqrt);
    SphereCastHits(sqrt, Vector3(0.0, -2.0, 0.0), 1.0, FromAbove, -7.0, 48.0, 6.0);
    FromAboveLower();
    assert Sub(Vector3(0.0, -1.0, 0.0), Vector3(0.0, -2.0, 0.0)) == Vector3(0.0, 1.0, 0.0);
  }

  lemma FromAboveTopCap(sqrt: real -> real)
    requires sqrt(1.0) == 1.0
    ensures SphereCast(sqrt, Vector3(0.0, 2.0, 0.0), 1.0, FromAbove)
         == Some(RaycastHit(2.0, Vector3(0.0, 3.0, 0.0), Vector3(0.0, 1.0, 0.0)))
  {
    FromAboveTopCapTerms();
    TopCapRoot(sqrt);
    SphereCastHits(sqrt, Vector3(0.0, 2.0, 0.0), 1.0, FromAbove, -3.0, 8.0, 2.0);
    FromAboveUpper();
    assert Sub(Vector3(0.0, 3.0, 0.0), Vector3(0.0, 2.0, 0.0)) == Vector3(0.0, 1.0, 0.0);
  }

  /** The parallel branch on the cap centres (0, -2, 0) and (0, 2, 0): the bottom cap is hit
      after 6 and the top cap after 2, and the top-cap hit is kept. */
  lemma FromAboveCaps(sqrt: real -> real)
    requires sqrt(1.0) == 1.0
    ensures ParallelCast(sqrt, Vector3(0.0, -2.0, 0.0), Vector3(0.0, 2.0, 0.0), 1.0, FromAbove)
         == Some(RaycastHit(2.0, Vector3(0.0, 3.0, 0.0), Vector3(0.0, 1.0, 0.0)))
  {
    FromAboveBottomCap(sqrt);
    FromAboveTopCap(sqrt);
    BothCapsHit(sqrt, Vector3(0.0, -2.0, 0.0), Vector3(0.0, 2.0, 0.0), 1.0, FromAbove,
      RaycastHit(6.0, Vector3(0.0, -1.0, 0.0), Vector3(0.0, 1.0, 0.0)),
      RaycastHit(2.0, Vector3(0.0, 3.0, 0.0), Vector3(0.0, 1.0, 0.0)));
  }

  /** The parallel branch when both cap spheres are hit and the p1 hit is not farther. */
  lemma BothCapsHit(sqrt: real -> real, p0: Vector3, p1: Vector3, worldRadius: real, ray: Ray,
                    h0: RaycastHit, h1: RaycastHit)
    requires SphereCast(sqrt, p0, worldRadius, ray) == Some(h0)
    requires SphereCast(sqrt, p1, worldRadius, ray) == Some(h1)
    requires h1.distance <= h0.distance
    ensures ParallelCast(sqrt, p0, p1, worldRadius, ray) == Some(h1)
  {
  }

  /** The upright capsule at the origin, hit from straight above: the ray is parallel to the
      axis, so the corrected parallel branch answers; both cap spheres are hit, and the
      nearer, the top cap, is reported at (0, 3, 0) after distance 2 (the cap centre is at
      height 2, not 1). The code as written answers differently: see
      CapsuleFindings.AsWrittenFromAbove. Only `sqrt(1) = 1` is used. */
  lemma TopCapHitFromAbove(sqrt: real -> real)
    requires sqrt(1.0) == 1.0
    ensures NonDegenerate(Upright, Unmoved)
    ensures CapsuleCast(sqrt, Upright, Unmoved, FromAbove)
         == Some(RaycastHit(2.0, Vector3(0.0, 3.0, 0.0), Vector3(0.0, 1.0, 0.0)))
  {
    UnmovedNonDegenerate();
    UnmovedP0();
    UnmovedP1();
    UnmovedWorldRadius();
    FromAboveAlongAxis(P0(Upright, Unmoved), P1(Upright, Unmoved));
    AlongAxisIsParallel(P0(Upright, Unmoved), P1(Upright, Unmoved), WorldRadius(Upright, Unmoved), FromAbove, -0.25);
    FromAboveCaps(sqrt);
  }

  /** A ray from (5, 0, 0) pointing away from the capsule along +X. */
  const Away: Ray := Ray(Vector3(5.0, 0.0, 0.0), Vector3(1.0, 0.0, 0.0))

  lemma AwayOffset(p0: Vector3)
    requires p0 == Vector3(0.0, -2.0, 0.0)
    ensures Sub(Away.origin, p0) == Vector3(5.0, 2.0, 0.0)
  {
  }

  lemma AwayAxialParameters(to: Vector3, o: Vector3, d: Vector3)
    requires to == Vector3(0.0, 4.0, 0.0) && o == Vector3(5.0, 2.0, 0.0) && d == Vector3(1.0, 0.0, 0.0)
    ensures Dot(to, to) == 16.0
    ensures Dot(to, d) / Dot(to, to) == 0.0
    ensures Dot(to, o) / Dot(to, to) == 0.5
  {
  }

  lemma AwayPerpendicularDirection(to: Vector3, d: Vector3)
    requires to == Vector3(0.0, 4.0, 0.0) && d == Vector3(1.0, 0.0, 0.0)
    ensures Sub(d, Scale(to, 0.0)) == Vector3(1.0, 0.0, 0.0)
  {
  }

  lemma AwayPerpendicularOffset(to: Vector3, o: Vector3)
    requires to == Vector3(0.0, 4.0, 0.0) && o == Vector3(5.0, 2.0, 0.0)
    ensures Sub(o, Scale(to, 0.5)) == Vector3(5.0, 0.0, 0.0)
  {
  }

  lemma AwayCoefficients(q: Vector3, r: Vector3)
    requires q == Vector3(1.0, 0.0, 0.0) && r == Vector3(5.0, 0.0, 0.0)
    ensures Dot(q, q) == 1.0
    ensures 2.0 * Dot(q, r) == 10.0
    ensures Dot(r, r) - Square(1.0) == 24.0
  {
  }

  lemma AwayDirection()
    ensures Away.direction == Vector3(1.0, 0.0, 0.0)
  {
  }

  /** The line–cylinder terms for the ray pointing away: `m = 0`, `n = 1/2`, and the
      quadratic `t^2 + 10 t + 24 = 0`. */
  lemma AwayCylinder(p0: Vector3, p1: Vector3)
    requires p0 == Vector3(0.0, -2.0, 0.0) && p1 == Vector3(0.0, 2.0, 0.0)
    requires Dot(Sub(p1, p0), Sub(p1, p0)) == 16.0
    ensures CylinderOf(p0, p1, 1.0, Away) == AwayTerms
  {
    var to, o := Sub(p1, p0), Sub(Away.origin, p0);
    AxisFromCentres(p0, p1);
    AwayOffset(p0);
    AwayDirection();
    AwayAxialParameters(to, o, Away.direction);
    AwayPerpendicularDirection(to, Away.direction);
    AwayPerpendicularOffset(to, o);
    AwayCoefficients(Sub(Away.direction, Scale(to, 0.0)), Sub(o, Scale(to, 0.5)));
  }

  lemma AwayRoots(sqrt: real -> real)
    requires sqrt(4.0) == 2.0
    ensures Roots(sqrt, 1.0, 10.0, 24.0) == (-6.0, -4.0)
  {
    assert Discriminant(1.0, 10.0, 24.0) == 4.0;
  }

  lemma AwayAxisParameter()
    ensures AxisParameter(-6.0, 0.0, 0.5) == 0.5
  {
  }

  lemma AwayPoint()
    ensures Away.GetPoint(-6.0) == Vector3(-1.0, 0.0, 0.0)
  {
    assert Away == Ray(Vector3(5.0, 0.0, 0.0), Vector3(1.0, 0.0, 0.0));
  }

  lemma AwayFoot()
    ensures Add(Vector3(0.0, -2.0, 0.0), Scale(Vector3(0.0, 4.0, 0.0), 0.5)) == Zero
  {
  }

  lemma AwaySideHit()
    ensures SideHit(Away, Vector3(0.0, -2.0, 0.0), Vector3(0.0, 4.0, 0.0), -6.0, 0.5)
         == RaycastHit(-6.0, Vector3(-1.0, 0.0, 0.0), Vector3(-1.0, 0.0, 0.0))
  {
    AwayPoint();
    AwayFoot();
  }

  /** The side branch does not reject a negative `tmin`: a ray that starts beside the upright
      capsule and points away from it is reported as a hit 6 units behind its origin. Only
      `sqrt(4) = 2` is used. */
  lemma SideHitBehindOrigin(sqrt: real -> real)
    requires sqrt(4.0) == 2.0
    ensures NonDegenerate(Upright, Unmoved)
    ensures CapsuleCast(sqrt, Upright, Unmoved, Away)
         == Some(RaycastHit(-6.0, Vector3(-1.0, 0.0, 0.0), Vector3(-1.0, 0.0, 0.0)))
  {
    AwayFromUpright();
    AwayNearRoot(sqrt);
    SideBranchTaken(sqrt, Upright, Unmoved, Away, AwayTerms, -6.0);
    AwayHit();
  }

  lemma AwayNearRoot(sqrt: real -> real)
    requires sqrt(4.0) == 2.0
    ensures AwayTerms.a != 0.0 && 0.0 <= Discriminant(AwayTerms.a, AwayTerms.b, AwayTerms.c)
    ensures Roots(sqrt, AwayTerms.a, AwayTerms.b, AwayTerms.c).0 == -6.0
    ensures 0.0 <= AxisParameter(-6.0, AwayTerms.m, AwayTerms.n) <= 1.0
  {
    AwayRoots(sqrt);
    AwayAxisParameter();
  }

  lemma AwayHit()
    ensures SideHit(Away, P0(Upright, Unmoved), AwayTerms.to, -6.0, AxisParameter(-6.0, AwayTerms.m, AwayTerms.n))
         == RaycastHit(-6.0, Vector3(-1.0, 0.0, 0.0), Vector3(-1.0, 0.0, 0.0))
  {
    UnmovedP0();
    AwayAxisParameter();
    AwaySideHit();
  }

  /** The line–cylinder terms of `Away` against the upright capsule. */
  const AwayTerms: Cylinder := Cylinder(Vector3(0.0, 4.0, 0.0), Vector3(5.0, 2.0, 0.0), 0.0, 0.5,
                                        Vector3(1.0, 0.0, 0.0), Vector3(5.0, 0.0, 0.0), 1.0, 10.0, 24.0)

  lemma AwayFromUpright()
    ensures NonDegenerate(Upright, Unmoved)
    ensures CylinderOf(P0(Upright, Unmoved), P1(Upright, Unmoved), WorldRadius(Upright, Unmoved), Away) == AwayTerms
  {
    UnmovedNonDegenerate();
    UnmovedP0();
    UnmovedP1();
    UnmovedWorldRadius();
    UnmovedAxisSquared(P0(Upright, Unmoved), P1(Upright, Unmoved));
    AwayCylinder(P0(Upright, Unmoved), P1(Upright, Unmoved));
  }

  /** Raycast takes its side branch once the cylinder terms, the near root and its axis
      parameter are known. */
  lemma SideBranchTaken(sqrt: real -> real, capsule: Capsule, transform: WorldTransform, ray: Ray,
                        cyl: Cylinder, tmin: real)
    requires NonDegenerate(capsule, transform)
    requires CylinderOf(P0(capsule, transform), P1(capsule, transform), WorldRadius(capsule, transform), ray) == cyl
    requires cyl.a != 0.0 && 0.0 <= Discriminant(cyl.a, cyl.b, cyl.c)
    requires Roots(sqrt, cyl.a, cyl.b, cyl.c).0 == tmin
    requires 0.0 <= AxisParameter(tmin, cyl.m, cyl.n) <= 1.0
    ensures CapsuleCast(sqrt, capsule, transform, ray)
         == Some(SideHit(ray, P0(capsule, transform), cyl.to, tmin, AxisParameter(tmin, cyl.m, cyl.n)))
  {
  }
}
