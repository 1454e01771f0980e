/** The few glm value types the engine passes around; floats are modelled as reals. */
module Glm {

  datatype Vec2 = Vec2(x: real, y: real)
  datatype Vec3 = Vec3(x: real, y: real, z: real)
  datatype Vec4 = Vec4(x: real, y: real, z: real, w: real)

  /** A 4x4 matrix stored, as in glm, column by column. */
  datatype Mat4 = Mat4(c0: Vec4, c1: Vec4, c2: Vec4, c3: Vec4)

  /** `glm::vec3(a)`: all three components equal to `a`. */
  function Splat3(a: real): Vec3 {
    Vec3(a, a, a)
  }

  function Times(v: Vec4, k: real): Vec4 {
    Vec4(v.x * k, v.y * k, v.z * k, v.w * k)
  }

  /** `glm::scale(m, v)`: m multiplied on the right by diag(v.x, v.y, v.z, 1). */
  function Scale(m: Mat4, v: Vec3): (r: Mat4)
    ensures r.c3 == m.c3
  {
    Mat4(Times(m.c0, v.x), Times(m.c1, v.y), Times(m.c2, v.z), m.c3)
  }

  /** Scaling by (1,1,1), the default outline scale, leaves the matrix as it is. */
  lemma ScaleByOneIsIdentity(m: Mat4)
    ensures Scale(m, Splat3(1.0)) == m
  {
  }
}
