// The few three.js value types the slicer and the infill use, reduced to
// their arithmetic: a 3-vector, a plane (unit-free normal and constant) and
// an axis-aligned box.

module Three {
  datatype Vector3 = Vector3(x: real, y: real, z: real)

  function Dot(a: Vector3, b: Vector3): real
  {
    a.x * b.x + a.y * b.y + a.z * b.z
  }

  function Sub(a: Vector3, b: Vector3): Vector3
  {
    Vector3(a.x - b.x, a.y - b.y, a.z - b.z)
  }

  /** Squared Euclidean distance; ordering by it is ordering by distanceTo. */
  function DistanceSq(a: Vector3, b: Vector3): (r: real)
    ensures r >= 0.0
  {
    var d := Sub(a, b);
    d.x * d.x + d.y * d.y + d.z * d.z
  }

  /** Plane.normal · p + Plane.constant = 0. */
  datatype Plane = Plane(normal: Vector3, constant: real)

  /** Plane.distanceToPoint: the signed distance scaled by |normal|. */
  function DistanceToPoint(plane: Plane, p: Vector3): real
  {
    Dot(plane.normal, p) + plane.constant
  }

  /** Box3, given by its two corners. */
  datatype Box3 = Box3(min: Vector3, max: Vector3)
}
