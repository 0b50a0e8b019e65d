// The angle-parallel predicate of src/lib/slicer/utils/directions_parallel.ts.

module DirectionsParallel {
  /** The tolerance EPSILON the source refers to without defining it: any positive constant. */
  const EPSILON: real := 0.00001

  /** Math.PI, written as the shortest decimal that rounds to that binary64 value. */
  const PI: real := 3.141592653589793

  function Abs(x: real): (r: real)
    ensures r >= 0.0 && (r == x || r == -x)
  {
    if x < 0.0 then -x else x
  }

  /**
   * Two directions are parallel when their angles differ by less than the
   * tolerance, or by a half turn within the tolerance; the tolerance is the
   * optional `maxDiff` (default 0) widened by EPSILON.
   */
  predicate Parallel(angle1: real, angle2: real, maxDiff: real := 0.0)
  {
    var diff := Abs(angle1 - angle2);
    var tolerance := maxDiff + EPSILON;
    diff < tolerance || Abs(diff - PI) < tolerance
  }

  /** The predicate does not depend on the order of its two angles. */
  lemma ParallelSymmetric(angle1: real, angle2: real, maxDiff: real)
    ensures Parallel(angle1, angle2, maxDiff) <==> Parallel(angle2, angle1, maxDiff)
  {
    assert Abs(angle1 - angle2) == Abs(angle2 - angle1);
  }

  /** With a non-negative tolerance (the default is 0) every angle is parallel to itself. */
  lemma ParallelReflexive(angle: real, maxDiff: real)
    requires maxDiff >= 0.0
    ensures Parallel(angle, angle, maxDiff)
  {
  }

  /** Opposite directions, a half turn apart, count as parallel. */
  lemma ParallelHalfTurn(angle: real, maxDiff: real)
    requires maxDiff >= 0.0
    ensures Parallel(angle, angle + PI, maxDiff)
    ensures Parallel(angle + PI, angle, maxDiff)
  {
    assert Abs(angle - (angle + PI)) == PI;
    assert Abs((angle + PI) - angle) == PI;
  }

  /** Raising the tolerance never turns a parallel pair into a non-parallel one. */
  lemma ParallelMonotone(angle1: real, angle2: real, maxDiff1: real, maxDiff2: real)
    requires maxDiff1 <= maxDiff2
    requires Parallel(angle1, angle2, maxDiff1)
    ensures Parallel(angle1, angle2, maxDiff2)
  {
  }

  /** Angles further apart than the tolerance, and not a half turn apart within it, are not parallel. */
  lemma NotParallel(angle1: real, angle2: real, maxDiff: real)
    requires Abs(angle1 - angle2) >= maxDiff + EPSILON
    requires Abs(Abs(angle1 - angle2) - PI) >= maxDiff + EPSILON
    ensures !Parallel(angle1, angle2, maxDiff)
  {
  }
}
