/** Three-component vectors, as the three-element arrays the canvas controls use
    for pointer positions and aggregate signals. Arithmetic is exact over `real`. */
module Vectors {

  datatype Vec3 = Vec3(x: real, y: real, z: real)

  /** `v3zero` */
  const Zero := Vec3(0.0, 0.0, 0.0)

  /** `v3add` */
  function Add(a: Vec3, b: Vec3): Vec3 {
    Vec3(a.x + b.x, a.y + b.y, a.z + b.z)
  }

  /** `v3sub` */
  function Sub(a: Vec3, b: Vec3): Vec3 {
    Vec3(a.x - b.x, a.y - b.y, a.z - b.z)
  }

  /** `v3scale` and the matrix library's `vec3.scale` */
  function Scale(a: Vec3, k: real): Vec3 {
    Vec3(a.x * k, a.y * k, a.z * k)
  }

  /** `v3cross` */
  function Cross(a: Vec3, b: Vec3): Vec3 {
    Vec3(a.y * b.z - a.z * b.y, a.z * b.x - a.x * b.z, a.x * b.y - a.y * b.x)
  }

  /** `v3dot` */
  function Dot(a: Vec3, b: Vec3): real {
    a.x * b.x + a.y * b.y + a.z * b.z
  }

  /** Squared Euclidean length. */
  function NormSq(a: Vec3): real {
    Dot(a, a)
  }
}
