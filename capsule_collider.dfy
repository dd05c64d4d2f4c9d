/** Collisions/CapsuleCollider.cpp: the capsule's world-space frame and its analytic raycast.
    Each of the three source functions is a method that mirrors the code statement by
    statement and delivers its out-parameters as results; beside each stands the pure
    function that specifies it, which the lemmas in CapsuleProperties are about. The one
    exception is Raycast's branch for a ray parallel to the axis: it runs the corrected
    RaycastParallel, not the code as written, which CapsuleFindings models. */
module CapsuleCollider {
  import opened RealMath
  import opened Vectors
  import opened Matrices
  import opened Rays

  /** The local axis the capsule's long axis runs along. */
  datatype Direction = XAxis | YAxis | ZAxis

  /** The collider's own parameters: `height` counts both hemispherical caps. */
  datatype Capsule = Capsule(radius: real, height: real, direction: Direction)

  /** What the collider reads from its transform: GetWorldCenter(), the world rotation as a
      matrix and the world scale. */
  datatype WorldTransform = WorldTransform(center: Vector3, rotation: Matrix3, scale: Vector3)

  /** The three out-values of GetWorldCapsule. */
  datatype Frame = Frame(rotation: Matrix3, scale: Matrix3, radiusScale: real)

  // ---------------------------------------------------------------------------------------
  // RaycastSphere

  /** `b`: the ray direction projected on the offset from the sphere's centre. */
  function SphereB(center: Vector3, ray: Ray): real {
    Dot(Sub(ray.origin, center), ray.direction)
  }

  /** `c`: the squared distance of the origin from the centre, less the squared radius. */
  function SphereC(center: Vector3, radius: real, ray: Ray): real {
    var to := Sub(ray.origin, center);
    Dot(to, to) - radius * radius
  }

  /** The discriminant `b^2 - c` of `t^2 + 2 b t + c = 0`, over four. */
  function SphereDiscriminant(b: real, c: real): real {
    b * b - c
  }

  /** The two early rejects: origin outside and pointing away, or no real root. */
  predicate SphereRejects(b: real, c: real) {
    (c > 0.0 && b > 0.0) || SphereDiscriminant(b, c) < 0.0
  }

  /** The near root `-b - sqrt(b^2 - c)`, or the far root when the near one is negative. */
  function SphereDistance(sqrt: real -> real, b: real, c: real): real
  {
    var s := sqrt(SphereDiscriminant(b, c));
    if -b - s < 0.0 then -b + s else -b - s
  }

  /** The specification of RaycastSphere: the hit it writes, or None when it returns false. */
  function SphereCast(sqrt: real -> real, center: Vector3, radius: real, ray: Ray): Option<RaycastHit>
  {
    var b := SphereB(center, ray);
    var c := SphereC(center, radius, ray);
    if SphereRejects(b, c) then None
    else
      var t := SphereDistance(sqrt, b, c);
      var pt := ray.GetPoint(t);
      Some(RaycastHit(t, pt, Sub(pt, center)))
  }

  /** CapsuleCollider::RaycastSphere. `hitInfo` is the record behind the out-pointer on
      entry; `hitOut` is that record on exit. The unused `maxDistance` is left out. */
  method RaycastSphere(sqrt: real -> real, center: Vector3, radius: real, ray: Ray, hitInfo: RaycastHit)
    returns (hit: bool, hitOut: RaycastHit)
    ensures hit <==> !SphereRejects(SphereB(center, ray), SphereC(center, radius, ray))
    ensures !hit ==> hitOut == hitInfo
    ensures hit ==> (hitOut.point == ray.GetPoint(hitOut.distance)
                  && hitOut.normal == Sub(hitOut.point, center)
                  && hitOut.distance == SphereDistance(sqrt, SphereB(center, ray), SphereC(center, radius, ray)))
    ensures SphereCast(sqrt, center, radius, ray) == if hit then Some(hitOut) else None
  {
    var b := SphereB(center, ray);
    var c := SphereC(center, radius, ray);
    if c > 0.0 && b > 0.0 {
      return false, hitInfo;
    }
    var discrim := SphereDiscriminant(b, c);
    if discrim < 0.0 {
      return false, hitInfo;
    }
    discrim := sqrt(discrim);
    var t := -b - discrim;
    if t < 0.0 {
      t := -b + discrim;
    }
    var pt := ray.GetPoint(t);
    hit, hitOut := true, RaycastHit(t, pt, Sub(pt, center));
  }

  // ---------------------------------------------------------------------------------------
  // GetWorldCapsule

  /** The specification of GetWorldCapsule. */
  function CapsuleFrame(direction: Direction, worldRotation: Matrix3, s: Vector3): Frame {
    match direction
    case XAxis =>
      var max := Max(s.y, s.z);
      Frame(Mul(worldRotation, ZRot90), Diagonal(Vector3(s.x, max, max)), max)
    case YAxis =>
      var max := Max(s.x, s.z);
      Frame(worldRotation, Diagonal(Vector3(max, s.y, max)), max)
    case ZAxis =>
      var max := Max(s.x, s.y);
      Frame(Mul(worldRotation, XRot90), Diagonal(Vector3(max, max, s.z)), max)
  }

  /** CapsuleCollider::GetWorldCapsule: the rotation and the scale matrix it writes through
      its two out-pointers, and the radius factor it returns. */
  method GetWorldCapsule(direction: Direction, transform: WorldTransform)
    returns (rotation: Matrix3, scale: Matrix3, max: real)
    ensures direction == XAxis ==> rotation == Mul(transform.rotation, ZRot90)
    ensures direction == YAxis ==> rotation == transform.rotation
    ensures direction == ZAxis ==> rotation == Mul(transform.rotation, XRot90)
    ensures direction == XAxis ==> (max == Max(transform.scale.y, transform.scale.z)
                                 && scale == Diagonal(Vector3(transform.scale.x, max, max)))
    ensures direction == YAxis ==> (max == Max(transform.scale.x, transform.scale.z)
                                 && scale == Diagonal(Vector3(max, transform.scale.y, max)))
    ensures direction == ZAxis ==> (max == Max(transform.scale.x, transform.scale.y)
                                 && scale == Diagonal(Vector3(max, max, transform.scale.z)))
    ensures Frame(rotation, scale, max) == CapsuleFrame(direction, transform.rotation, transform.scale)
  {
    var rot := transform.rotation;
    var s := transform.scale;
    match direction {
      case XAxis =>
        rot := Mul(rot, ZRot90);
        max := Max(s.y, s.z);
        scale := Diagonal(Vector3(s.x, max, max));
      case YAxis =>
        max := Max(s.x, s.z);
        scale := Diagonal(Vector3(max, s.y, max));
      case ZAxis =>
        rot := Mul(rot, XRot90);
        max := Max(s.x, s.y);
        scale := Diagonal(Vector3(max, max, s.z));
    }
    rotation := rot;
  }

  // ---------------------------------------------------------------------------------------
  // Raycast

  /** `dir`: rot * scale * Scale(height - 2 radius) applied to the direction (0, 1, 0). */
  function AxisOffset(capsule: Capsule, frame: Frame): Vector3 {
    Apply(Mul(Mul(frame.rotation, frame.scale), Diagonal(Splat(capsule.height - 2.0 * capsule.radius))), Up)
  }

  /** The frame the raycast works in. */
  function FrameOf(capsule: Capsule, transform: WorldTransform): Frame {
    CapsuleFrame(capsule.direction, transform.rotation, transform.scale)
  }

  /** The cap-sphere centres `p0 = centre - dir` and `p1 = centre + dir`. */
  function P0(capsule: Capsule, transform: WorldTransform): Vector3 {
    Sub(transform.center, AxisOffset(capsule, FrameOf(capsule, transform)))
  }

  function P1(capsule: Capsule, transform: WorldTransform): Vector3 {
    Add(transform.center, AxisOffset(capsule, FrameOf(capsule, transform)))
  }

  /** `radius * radiusScale`: the capsule radius in world units. */
  function ScaledRadius(radius: real, radiusScale: real): real {
    radius * radiusScale
  }

  /** The world radius of the capsule. */
  function WorldRadius(capsule: Capsule, transform: WorldTransform): real {
    ScaledRadius(capsule.radius, FrameOf(capsule, transform).radiusScale)
  }

  /** The code divides by the squared length of `p1 - p0`; a capsule whose two cap centres
      coincide makes that a division by zero, which the source does not guard. */
  predicate NonDegenerate(capsule: Capsule, transform: WorldTransform) {
    var to := Sub(P1(capsule, transform), P0(capsule, transform));
    Dot(to, to) != 0.0
  }

  /** The line–cylinder terms: the axis `to`, the origin offset `o`, the axial parameters `m`
      and `n` of direction and origin, their perpendicular parts `q` and `r`, and the
      coefficients of `a t^2 + b t + c = 0` for the ray meeting the infinite cylinder. */
  datatype Cylinder = Cylinder(to: Vector3, o: Vector3, m: real, n: real, q: Vector3, r: Vector3,
                               a: real, b: real, c: real)

  function CylinderOf(p0: Vector3, p1: Vector3, worldRadius: real, ray: Ray): Cylinder
    requires Dot(Sub(p1, p0), Sub(p1, p0)) != 0.0
  {
    var to := Sub(p1, p0);
    var o := Sub(ray.origin, p0);
    var m := Dot(to, ray.direction) / Dot(to, to);
    var n := Dot(to, o) / Dot(to, to);
    var q := Sub(ray.direction, Scale(to, m));
    var r := Sub(o, Scale(to, n));
    Cylinder(to, o, m, n, q, r, Dot(q, q), 2.0 * Dot(q, r), Dot(r, r) - Square(worldRadius))
  }

  /** The discriminant `b^2 - 4 a c`. */
  function Discriminant(a: real, b: real, c: real): real {
    b * b - 4.0 * a * c
  }

  /** The root `-(b + sqrt d) * (0.5 / a)` the code calls `tmin` before its swap. */
  function LowRoot(a: real, b: real, sqrtDiscrim: real): real
    requires a != 0.0
  {
    -(b + sqrtDiscrim) * (0.5 / a)
  }

  /** The root `(-b + sqrt d) * (0.5 / a)` the code calls `tmax` before its swap. */
  function HighRoot(a: real, b: real, sqrtDiscrim: real): real
    requires a != 0.0
  {
    (-b + sqrtDiscrim) * (0.5 / a)
  }

  /** `tkMin = tmin * m + n`: where the ray point at `tmin` projects on the axis, as a
      fraction of `p1 - p0` measured from `p0`. */
  function AxisParameter(t: real, m: real, n: real): real {
    t * m + n
  }

  /** The two roots `-(b + sqrt d) / 2a` and `(-b + sqrt d) / 2a`, in the order the code puts
      them after its conditional swap. */
  function Roots(sqrt: real -> real, a: real, b: real, c: real): (real, real)
    requires a != 0.0
  {
    var sqrtDiscrim := sqrt(Discriminant(a, b, c));
    var tmin := LowRoot(a, b, sqrtDiscrim);
    var tmax := HighRoot(a, b, sqrtDiscrim);
    if tmin > tmax then (tmax, tmin) else (tmin, tmax)
  }

  /** The hit on the cylindrical side: at `tmin`, with the normal from the point's projection
      `p0 + to * tkMin` on the axis to the point. */
  function SideHit(ray: Ray, p0: Vector3, to: Vector3, tmin: real, tkMin: real): RaycastHit {
    var pt := ray.GetPoint(tmin);
    RaycastHit(tmin, pt, Sub(pt, Add(p0, Scale(to, tkMin))))
  }

  /** The specification of the branch for a ray parallel to the axis (`a == 0`), as evidently
      intended: test the p0 cap, then the p1 cap, fail if either misses, and keep the nearer
      hit (the p1 hit on a tie, as the code's `else` does). */
  function ParallelCast(sqrt: real -> real, p0: Vector3, p1: Vector3, worldRadius: real, ray: Ray): Option<RaycastHit>
  {
    var aHit := SphereCast(sqrt, p0, worldRadius, ray);
    var bHit := SphereCast(sqrt, p1, worldRadius, ray);
    if aHit.None? || bHit.None? then None
    else if aHit.value.distance < bHit.value.distance then aHit
    else bHit
  }

  /** The branch of Raycast for a ray parallel to the axis, with the second sphere test on
      `p1` into `bHit` (the code tests `p0` twice; see RaycastParallelAsWritten). */
  method RaycastParallel(sqrt: real -> real, p0: Vector3, p1: Vector3, worldRadius: real, ray: Ray,
                         hitInfo: RaycastHit)
    returns (hit: bool, hitOut: RaycastHit)
    ensures !hit ==> hitOut == hitInfo
    ensures ParallelCast(sqrt, p0, p1, worldRadius, ray) == if hit then Some(hitOut) else None
  {
    var okA, aHit := RaycastSphere(sqrt, p0, worldRadius, ray, Blank);
    if !okA {
      return false, hitInfo;
    }
    var okB, bHit := RaycastSphere(sqrt, p1, worldRadius, ray, Blank);
    if !okB {
      return false, hitInfo;
    }
    if aHit.distance < bHit.distance {
      hitOut := aHit;
    } else {
      hitOut := bHit;
    }
    hit := true;
  }

  /** The specification of Raycast: the hit it writes, or None when it returns false. */
  function CapsuleCast(sqrt: real -> real, capsule: Capsule, transform: WorldTransform, ray: Ray): Option<RaycastHit>
    requires NonDegenerate(capsule, transform)
  {
    var p0 := P0(capsule, transform);
    var p1 := P1(capsule, transform);
    var radius := WorldRadius(capsule, transform);
    var cyl := CylinderOf(p0, p1, radius, ray);
    if cyl.a == 0.0 then ParallelCast(sqrt, p0, p1, radius, ray)
    else if Discriminant(cyl.a, cyl.b, cyl.c) < 0.0 then None
    else
      var tmin := Roots(sqrt, cyl.a, cyl.b, cyl.c).0;
      var tkMin := AxisParameter(tmin, cyl.m, cyl.n);
      if tkMin < 0.0 then SphereCast(sqrt, p0, radius, ray)
      else if tkMin > 1.0 then SphereCast(sqrt, p1, radius, ray)
      else Some(SideHit(ray, p0, cyl.to, tmin, tkMin))
  }

  /** CapsuleCollider::Raycast (the code up to its first return on every path). The unused
      `maxDistance` is left out. */
  method Raycast(sqrt: real -> real, capsule: Capsule, transform: WorldTransform, ray: Ray, hitInfo: RaycastHit)
    returns (hit: bool, hitOut: RaycastHit)
    requires NonDegenerate(capsule, transform)
    ensures !hit ==> hitOut == hitInfo
    ensures CapsuleCast(sqrt, capsule, transform, ray) == if hit then Some(hitOut) else None
  {
    var rot, scale, radiusScale := GetWorldCapsule(capsule.direction, transform);
    var worldRadius := ScaledRadius(capsule.radius, radiusScale);
    assert worldRadius == WorldRadius(capsule, transform);
    var dir := Apply(Mul(Mul(rot, scale), Diagonal(Splat(capsule.height - 2.0 * capsule.radius))), Up);
    var p0 := Sub(transform.center, dir);
    var p1 := Add(transform.center, dir);

    var to := Sub(p1, p0);
    var o := Sub(ray.origin, p0);

    var toDir := Dot(to, ray.direction);
    var toO := Dot(to, o);
    var toDot := Dot(to, to);

    var m := toDir / toDot;
    var n := toO / toDot;

    var q := Sub(ray.direction, Scale(to, m));
    var r := Sub(o, Scale(to, n));

    var a := Dot(q, q);
    var b := 2.0 * Dot(q, r);
    var c := Dot(r, r) - Square(worldRadius);
    assert p0 == P0(capsule, transform) && p1 == P1(capsule, transform);
    assert CylinderOf(p0, p1, worldRadius, ray) == Cylinder(to, o, m, n, q, r, a, b, c);

    if a == 0.0 {
      hit, hitOut := RaycastParallel(sqrt, p0, p1, worldRadius, ray, hitInfo);
      return;
    }

    var discrim := Discriminant(a, b, c);
    if discrim < 0.0 {
      return false, hitInfo;
    }
    var sqrtDiscrim := sqrt(discrim);
    var tmin := LowRoot(a, b, sqrtDiscrim);
    var tmax := HighRoot(a, b, sqrtDiscrim);
    if tmin > tmax {
      tmin, tmax := tmax, tmin;
    }

    var tkMin := AxisParameter(tmin, m, n);
    if tkMin < 0.0 {
      hit, hitOut := RaycastSphere(sqrt, p0, worldRadius, ray, hitInfo);
    } else if tkMin > 1.0 {
      hit, hitOut := RaycastSphere(sqrt, p1, worldRadius, ray, hitInfo);
    } else {
      var pt := ray.GetPoint(tmin);
      hit, hitOut := true, RaycastHit(tmin, pt, Sub(pt, Add(p0, Scale(to, tkMin))));
    }
  }
}
