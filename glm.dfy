/** The glm vector types the core uses, over exact reals (float rounding is
    not modelled). */
module Glm {

  datatype Vec2 = Vec2(x: real, y: real)

  datatype Vec3 = Vec3(x: real, y: real, z: real)

  datatype Vec4 = Vec4(x: real, y: real, z: real, w: real)

  const Zero2: Vec2 := Vec2(0.0, 0.0)

  const Zero3: Vec3 := Vec3(0.0, 0.0, 0.0)

  const Zero4: Vec4 := Vec4(0.0, 0.0, 0.0, 0.0)

  /** glm::vec4(v, w) */
  function Extend(v: Vec3, w: real): (e: Vec4)
  {
    Vec4(v.x, v.y, v.z, w)
  }

  /** glm::dot(a - b, a - b) */
  function DistSquared(a: Vec3, b: Vec3): (d: real)
    ensures d >= 0.0
    ensures a == b ==> d == 0.0
  {
    (a.x - b.x) * (a.x - b.x) + (a.y - b.y) * (a.y - b.y) + (a.z - b.z) * (a.z - b.z)
  }

  /** (a + b) * 0.5f */
  function Mid(a: Vec2, b: Vec2): (m: Vec2)
  {
    Vec2((a.x + b.x) * 0.5, (a.y + b.y) * 0.5)
  }
}
