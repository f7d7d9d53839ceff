/** The engine's small value types (vector3df, dimension2df, aabbox3df) with
    coordinates as integers in thousandths, and scaling by the world-unit
    factor BS, which is kept abstract as the parameter `bs`. */
module Geometry {

  datatype Vec3 = Vec3(x: int, y: int, z: int)

  datatype Size2 = Size2(width: int, height: int)

  /** An axis-aligned box given by its two corners. */
  datatype Box = Box(minEdge: Vec3, maxEdge: Vec3)

  function ScaleVec(v: Vec3, bs: int): (r: Vec3) {
    Vec3(v.x * bs, v.y * bs, v.z * bs)
  }

  function ScaleSize(s: Size2, bs: int): (r: Size2) {
    Size2(s.width * bs, s.height * bs)
  }

  function ScaleBox(b: Box, bs: int): (r: Box) {
    Box(ScaleVec(b.minEdge, bs), ScaleVec(b.maxEdge, bs))
  }
}
