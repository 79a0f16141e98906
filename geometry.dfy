/// The nalgebra points the renderer takes and stores. Their `f32` components are modelled
/// as exact reals: no rounding is modelled.
module Geometry {
  datatype Point3 = Point3(x: real, y: real, z: real)

  /** A homogeneous position or an RGBA colour. */
  datatype Point4 = Point4(x: real, y: real, z: real, w: real)

  /** The Cartesian point a homogeneous position with w = 1 stands for. */
  function Cartesian(q: Point4): Point3
  {
    Point3(q.x, q.y, q.z)
  }

  /** `Point4::new(p.x, p.y, p.z, 1.0)`: a position lifted to homogeneous coordinates. */
  function Homogeneous(p: Point3): (q: Point4)
    ensures q.w == 1.0 && Cartesian(q) == p
  {
    Point4(p.x, p.y, p.z, 1.0)
  }

  /** `p + Vector3::new(dx, dy, dz)`. */
  function Translate(p: Point3, dx: real, dy: real, dz: real): (q: Point3)
    ensures q.x - p.x == dx && q.y - p.y == dy && q.z - p.z == dz
  {
    Point3(p.x + dx, p.y + dy, p.z + dz)
  }
}
