/** Vectors, rotations and the few pieces of engine maths the three path tools use.
    Coordinates and times are exact reals.  The interpolation formulas of the 3D engine are
    kept abstract where they involve trigonometry or square roots: they enter the model as
    fields of an `Engine` value, and only their end-point behaviour is modelled. */
module Geometry {

  datatype Vec3 = Vec3(x: real, y: real, z: real)

  /** A rotation quaternion (the engine's `Quaternion`). */
  datatype Quat = Quat(x: real, y: real, z: real, w: real)

  /** Euler angles in radians (the engine's `Euler`). */
  datatype Euler = Euler(x: real, y: real, z: real)

  /** The foreign maths the tools call into and that the model does not compute:
      the inner branch of spherical interpolation, conversions between Euler angles and
      quaternions, and Euclidean distance. */
  datatype Engine = Engine(
    slerpInterior: (Quat, Quat, real) -> Quat,
    quaternionFromEuler: Euler -> Quat,
    eulerFromQuaternion: Quat -> Euler,
    distance: (Vec3, Vec3) -> real)

  function Add(a: Vec3, b: Vec3): (r: Vec3)
    ensures r.x - a.x == b.x && r.y - a.y == b.y && r.z - a.z == b.z
  {
    Vec3(a.x + b.x, a.y + b.y, a.z + b.z)
  }

  /** Componentwise linear interpolation `a + (b - a) * t`, as `Vector3.lerpVectors` computes it. */
  function Lerp(a: Vec3, b: Vec3, t: real): (r: Vec3)
    ensures t == 0.0 ==> r == a
    ensures t == 1.0 ==> r == b
  {
    Vec3(a.x + (b.x - a.x) * t, a.y + (b.y - a.y) * t, a.z + (b.z - a.z) * t)
  }

  /** Spherical interpolation as `Quaternion.slerp` performs it: the factors 0 and 1 return
      the start and the end unchanged; every other factor goes to the engine's formula. */
  function Slerp(engine: Engine, a: Quat, b: Quat, t: real): (r: Quat)
    ensures t == 0.0 ==> r == a
    ensures t == 1.0 ==> r == b
  {
    if t == 0.0 then a else if t == 1.0 then b else engine.slerpInterior(a, b, t)
  }

  /** `Math.min` on two reals. */
  function Min(a: real, b: real): (r: real)
    ensures r <= a && r <= b
    ensures r == a || r == b
  {
    if a <= b then a else b
  }

  /** `Math.max` on two reals. */
  function Max(a: real, b: real): (r: real)
    ensures a <= r && b <= r
    ensures r == a || r == b
  {
    if a <= b then b else a
  }

  /** `Math.max(lo, Math.min(hi, v))`: the value limited to the range from `lo` to `hi`. */
  function Clamp(lo: real, hi: real, v: real): (r: real)
    requires lo <= hi
    ensures lo <= r <= hi
    ensures lo <= v <= hi ==> r == v
    ensures v < lo ==> r == lo
    ensures hi < v ==> r == hi
  {
    Max(lo, Min(hi, v))
  }
}
