/** The ray and hit record of Collisions/Ray.h (not part of this model beyond what the
    capsule raycast reads and writes). */
module Rays {
  import opened Vectors

  datatype Option<T> = None | Some(value: T)

  /** A ray; callers are expected to pass a unit-length direction, which nothing enforces. */
  datatype Ray = Ray(origin: Vector3, direction: Vector3) {
    /** Ray::GetPoint(t) = origin + direction * t */
    function GetPoint(t: real): Vector3 {
      Add(origin, Scale(direction, t))
    }
  }

  /** The record RaycastHitCtor fills: parametric distance, world point, unnormalised normal. */
  datatype RaycastHit = RaycastHit(distance: real, point: Vector3, normal: Vector3)

  /** A default-constructed record. The record type is not part of this model, so its
      contents here are an assumption. */
  const Blank: RaycastHit := RaycastHit(0.0, Zero, Zero)
}
