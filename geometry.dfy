/** The vector arithmetic of the engine (glam's `Vec2` and `Vec3`) over exact
    reals. */
module Geometry {

  datatype Vec2 = Vec2(x: real, y: real)
  datatype Vec3 = Vec3(x: real, y: real, z: real)

  const Zero2: Vec2 := Vec2(0.0, 0.0)

  function Add2(a: Vec2, b: Vec2): Vec2 { Vec2(a.x + b.x, a.y + b.y) }
  function Sub2(a: Vec2, b: Vec2): Vec2 { Vec2(a.x - b.x, a.y - b.y) }
  function Scale2(v: Vec2, k: real): Vec2 { Vec2(k * v.x, k * v.y) }
  function Dot2(a: Vec2, b: Vec2): real { a.x * b.x + a.y * b.y }

  /** `a.rotate(b)`: rotates `a` by the angle of `b` and scales it by the
      length of `b` (complex multiplication). */
  function Rotate(a: Vec2, b: Vec2): Vec2 { Vec2(a.x * b.x - a.y * b.y, a.y * b.x + a.x * b.y) }

  /** `v` turned a quarter turn clockwise: the right-hand side of travel. */
  function RightNormal(v: Vec2): Vec2 { Vec2(v.y, -v.x) }

  /** `v.extend(0.)`. */
  function Extend(v: Vec2): Vec3 { Vec3(v.x, v.y, 0.0) }

  function Add3(a: Vec3, b: Vec3): Vec3 { Vec3(a.x + b.x, a.y + b.y, a.z + b.z) }

  function Min(a: real, b: real): real { if a <= b then a else b }
  function Max(a: real, b: real): real { if a >= b then a else b }

  /** `v.max(lo).min(hi)`, one component of glam's `clamp`. */
  function Clamp(v: real, lo: real, hi: real): (r: real)
    requires lo <= hi
    ensures lo <= r <= hi
    ensures lo <= v <= hi ==> r == v
    ensures v < lo ==> r == lo
    ensures v > hi ==> r == hi
  {
    Min(Max(v, lo), hi)
  }

  /** `Vec3::clamp(v, lo, hi)`, component-wise. */
  function Clamp3(v: Vec3, lo: Vec3, hi: Vec3): (r: Vec3)
    requires lo.x <= hi.x && lo.y <= hi.y && lo.z <= hi.z
    ensures lo.x <= r.x <= hi.x && lo.y <= r.y <= hi.y && lo.z <= r.z <= hi.z
    ensures lo.x <= v.x <= hi.x && lo.y <= v.y <= hi.y && lo.z <= v.z <= hi.z ==> r == v
  {
    Vec3(Clamp(v.x, lo.x, hi.x), Clamp(v.y, lo.y, hi.y), Clamp(v.z, lo.z, hi.z))
  }

  /** Rotating a unit vector by a unit vector gives a unit vector. */
  lemma RotateKeepsUnit(a: Vec2, b: Vec2)
    requires Dot2(a, a) == 1.0 && Dot2(b, b) == 1.0
    ensures Dot2(Rotate(a, b), Rotate(a, b)) == 1.0
  {
  }

  /** The component of `Rotate(a, b)` along the right-hand normal of `a` is
      `-b.y` times the squared length of `a`. */
  lemma RotateAlongRightNormal(a: Vec2, b: Vec2)
    ensures Dot2(Rotate(a, b), RightNormal(a)) == -b.y * Dot2(a, a)
  {
  }

  /** The component of `Rotate(a, b)` along `a` is `b.x` times the squared
      length of `a`. */
  lemma RotateAlongAxis(a: Vec2, b: Vec2)
    ensures Dot2(Rotate(a, b), a) == b.x * Dot2(a, a)
  {
  }
}
