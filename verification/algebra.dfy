/**
 * The vector, matrix and quaternion values the toolkit takes from its maths
 * library. Two-, four-component vectors and colours are plain records of
 * numbers. Three-component vectors, quaternions and matrices are terms: a
 * literal, or an operation of the library applied to other terms, and the
 * library's arithmetic stays uninterpreted. Two equal terms denote equal
 * values, but two distinct terms may denote the same value: where the
 * toolkit compares such vectors (welding's `==`, the zero-normal test of
 * loading), the model tells apart terms the program would find equal.
 * Single-precision floats are modelled as `real`; rounding is not modelled.
 */
module Algebra {

  /** A `Vector2`. */
  datatype Vec2 = Vec2(x: real, y: real)

  /** A `Vector4`. */
  datatype Vec4 = Vec4(x: real, y: real, z: real, w: real)

  /** An angle produced by `MathHelper.DegreesToRadians`. */
  datatype Radians = DegreesToRadians(degrees: real)

  /** A `Vector3`: a literal, or the result of a library operation. */
  datatype Vec3 =
    | Vec3(x: real, y: real, z: real)
    | Add(a: Vec3, b: Vec3)                  // a + b
    | Sub(a: Vec3, b: Vec3)                  // a - b
    | Scale(v: Vec3, s: real)                // v * s
    | Normalized(v: Vec3)                    // v.Normalized()
    | RotatedBy(v: Vec3, q: Quat)            // Vector3.Transform(v, q)
    | TransformedBy(v: Vec3, m: Mat4)        // Vector3.Transform(v, m)

  /** A `Quaternion`. */
  datatype Quat =
    | QuatIdentity
    | FromAxisAngle(axis: Vec3, angle: Radians)
    | QuatMul(a: Quat, b: Quat)              // a * b

  /** A `Matrix4`. */
  datatype Mat4 =
    | Identity
    | ZeroMatrix                             // default(Matrix4)
    | LookAt(eye: Vec3, target: Vec3, up: Vec3)
    | PerspectiveFieldOfView(fovy: Radians, aspect: real, near: real, far: real)
    | Orthographic(width: real, height: real, near: real, far: real)
    | RotationX(angle: real)
    | RotationY(angle: real)
    | MatMul(a: Mat4, b: Mat4)               // a * b

  const Zero3: Vec3 := Vec3(0.0, 0.0, 0.0)
  const UnitY: Vec3 := Vec3(0.0, 1.0, 0.0)

  /** A byte, as stored in `System.Drawing.Color` channels. */
  type Byte = b: int | 0 <= b < 256

  /** A `System.Drawing.Color`. */
  datatype Color = Color(r: Byte, g: Byte, b: Byte, a: Byte)

  /** A `System.Drawing.Rectangle`. */
  datatype Rectangle = Rectangle(x: int, y: int, width: int, height: int)

  const Int32Min: int := -0x8000_0000
  const Int32Max: int := 0x7fff_ffff

  /** A C# `int` sum or product: the exact value wrapped into the 32-bit two's-complement range. */
  function WrapInt32(v: int): (r: int)
    ensures Int32Min <= r <= Int32Max
    ensures (r - v) % 0x1_0000_0000 == 0
    ensures Int32Min <= v <= Int32Max ==> r == v
  {
    if Int32Min <= v <= Int32Max then v else (v - Int32Min) % 0x1_0000_0000 + Int32Min
  }
}
