/** The branch of CapsuleCollider::Raycast for a ray parallel to the capsule's axis, as the
    code is written: both sphere tests are made on `p0`, both into `aHit`, and the result
    is compared with `bHit`, a record that nothing has written. The rest of the model uses
    the intended branch, CapsuleCollider.RaycastParallel; this module only sets the two
    side by side. */
module CapsuleFindings {
  import opened RealMath
  import opened Vectors
  import opened Rays
  import opened CapsuleCollider
  import opened CapsuleProperties

  /** What the branch as written reports. `bHit` is whatever the default-constructed record
      holds (the record type is not part of this model), so it is a parameter. The p1
      cap never enters. */
  function ParallelCastAsWritten(sqrt: real -> real, p0: Vector3, worldRadius: real, ray: Ray,
                                 bHit: RaycastHit): Option<RaycastHit>
  {
    var aHit := SphereCast(sqrt, p0, worldRadius, ray);
    if aHit.None? then None
    else if aHit.value.distance < bHit.distance then aHit
    else Some(bHit)
  }

  /** The branch statement by statement: the second test repeats the first on `p0`, and
      the short-circuit `||` skips it when the first misses. */
  method RaycastParallelAsWritten(sqrt: real -> real, p0: Vector3, worldRadius: real, ray: Ray,
                                  hitInfo: RaycastHit, bHit: RaycastHit)
    returns (hit: bool, hitOut: RaycastHit)
    ensures !hit ==> hitOut == hitInfo
    ensures ParallelCastAsWritten(sqrt, p0, worldRadius, ray, bHit) == if hit then Some(hitOut) else None
  {
    var ok, aHit := RaycastSphere(sqrt, p0, worldRadius, ray, Blank);
    if ok {
      ok, aHit := RaycastSphere(sqrt, p0, worldRadius, ray, aHit);
    }
    if !ok {
      return false, hitInfo;
    }
    if aHit.distance < bHit.distance {
      hitOut := aHit;
    } else {
      hitOut := bHit;
    }
    hit := true;
  }

  /** Whenever both caps are hit and the unwritten record holds a negative distance, the
      code reports that record itself, while the intended branch reports a real cap hit
      with a distance of at least zero. */
  lemma AsWrittenReportsUnwrittenRecord(sqrt: real -> real, p0: Vector3, p1: Vector3, worldRadius: real,
                                        ray: Ray, bHit: RaycastHit)
    requires IsSqrt(sqrt)
    requires SphereCast(sqrt, p0, worldRadius, ray).Some? && SphereCast(sqrt, p1, worldRadius, ray).Some?
    requires bHit.distance < 0.0
    ensures ParallelCastAsWritten(sqrt, p0, worldRadius, ray, bHit) == Some(bHit)
    ensures ParallelCast(sqrt, p0, p1, worldRadius, ray).Some?
    ensures ParallelCast(sqrt, p0, p1, worldRadius, ray) != Some(bHit)
  {
    SphereCastDistanceNonNegative(sqrt, p0, worldRadius, ray);
    ParallelCastIsNearerCap(sqrt, p0, p1, worldRadius, ray);
  }

  /** A ray that hits the p0 cap and misses the p1 cap: the code reports a hit where the
      intended branch, which needs both caps, reports none. */
  lemma AsWrittenIgnoresSecondCap(sqrt: real -> real, p0: Vector3, p1: Vector3, worldRadius: real,
                                  ray: Ray, bHit: RaycastHit)
    requires SphereCast(sqrt, p0, worldRadius, ray).Some? && SphereCast(sqrt, p1, worldRadius, ray).None?
    ensures ParallelCastAsWritten(sqrt, p0, worldRadius, ray, bHit).Some?
    ensures ParallelCast(sqrt, p0, p1, worldRadius, ray) == None
  {
  }

  /** The upright capsule hit from straight above, with an unwritten record of distance 0:
      the bottom cap is hit after 6, which is not below 0, so the code reports the unwritten
      record; the intended branch reports the top cap after 2. */
  lemma AsWrittenFromAbove(sqrt: real -> real)
    requires sqrt(1.0) == 1.0
    ensures ParallelCastAsWritten(sqrt, Vector3(0.0, -2.0, 0.0), 1.0, FromAbove, Blank) == Some(Blank)
    ensures ParallelCast(sqrt, Vector3(0.0, -2.0, 0.0), Vector3(0.0, 2.0, 0.0), 1.0, FromAbove)
         == Some(RaycastHit(2.0, Vector3(0.0, 3.0, 0.0), Vector3(0.0, 1.0, 0.0)))
  {
    FromAboveBottomCap(sqrt);
    FromAboveCaps(sqrt);
  }
}
