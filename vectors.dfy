/** Three- and two-component vectors over exact reals, standing in for glm::vec3 and
    glm::vec2. The interaction code only adds, subtracts, scales and takes dot
    products, so exact reals are a faithful abstraction of the float arithmetic. */
module Vectors {

  datatype Vec3 = Vec3(x: real, y: real, z: real)

  datatype Vec2 = Vec2(u: real, v: real)

  const Zero3: Vec3 := Vec3(0.0, 0.0, 0.0)

  const Zero2: Vec2 := Vec2(0.0, 0.0)

  function Add(a: Vec3, b: Vec3): Vec3 {
    Vec3(a.x + b.x, a.y + b.y, a.z + b.z)
  }

  function Sub(a: Vec3, b: Vec3): Vec3 {
    Vec3(a.x - b.x, a.y - b.y, a.z - b.z)
  }

  function Scale(a: Vec3, k: real): Vec3 {
    Vec3(a.x * k, a.y * k, a.z * k)
  }

  function Dot(a: Vec3, b: Vec3): real {
    a.x * b.x + a.y * b.y + a.z * b.z
  }

  /** Squared length, which is never negative. */
  function LengthSq(a: Vec3): (r: real)
    ensures r >= 0.0
  {
    assert a.x * a.x >= 0.0 && a.y * a.y >= 0.0 && a.z * a.z >= 0.0;
    Dot(a, a)
  }
}
