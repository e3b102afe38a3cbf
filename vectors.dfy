// Three-component vectors over the reals, standing in for Unity's Vector3, and the
// engine's numeric routines that the model does not interpret.

module Vectors {

  datatype Vec3 = Vec3(x: real, y: real, z: real)

  datatype Vec2 = Vec2(x: real, y: real)

  const Zero := Vec3(0.0, 0.0, 0.0)
  const Up := Vec3(0.0, 1.0, 0.0)
  const Right := Vec3(1.0, 0.0, 0.0)
  const Forward := Vec3(0.0, 0.0, 1.0)

  function Add(a: Vec3, b: Vec3): Vec3 {
    Vec3(a.x + b.x, a.y + b.y, a.z + b.z)
  }

  function Sub(a: Vec3, b: Vec3): Vec3 {
    Vec3(a.x - b.x, a.y - b.y, a.z - b.z)
  }

  function Scale(a: Vec3, k: real): Vec3 {
    Vec3(a.x * k, a.y * k, a.z * k)
  }

  function Dot(a: Vec3, b: Vec3): real {
    a.x * b.x + a.y * b.y + a.z * b.z
  }

  function Max(a: real, b: real): real {
    if a >= b then a else b
  }

  /** The floating-point routines of the engine, left uninterpreted: `Normalize` is
      `Vector3.normalized`, `Magnitude` is `Vector3.magnitude`, `Sqrt` is `Mathf.Sqrt`,
      `Cos` is `Mathf.Cos`, `Deg2Rad` is `Mathf.Deg2Rad` and `ClampMagnitude` is
      `Vector2.ClampMagnitude`. */
  datatype MathOps = MathOps(
    Normalize: Vec3 -> Vec3,
    Magnitude: Vec3 -> real,
    Sqrt: real -> real,
    Cos: real -> real,
    Deg2Rad: real,
    ClampMagnitude: (Vec2, real) -> Vec2)

  /** The one numeric fact the jump needs: a square root is never negative. */
  ghost predicate SqrtNonNegative(m: MathOps) {
    forall a :: 0.0 <= a ==> 0.0 <= m.Sqrt(a)
  }
}
