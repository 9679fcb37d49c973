/** Values shared by the scene and the view code.

    Floating-point vectors become vectors over `real`; no rounding is
    modelled. Matrices are kept opaque: a model matrix is the value built
    from the scale, the three rotation angles and the translation it was
    made of, and a projection matrix is the value built from its
    parameters. The model only ever relies on "the same arguments give the
    same matrix", never on the converse. */
module Geometry {

  datatype Vec2 = Vec2(u: real, v: real)
  datatype Vec3 = Vec3(x: real, y: real, z: real)
  datatype Vec4 = Vec4(r: real, g: real, b: real, a: real)

  /** The arguments of one model-matrix construction: scale, rotation in
      degrees about X, Y and Z, and translation. The matrix built from them
      is Translate * RotateX * RotateY * RotateZ * Scale. */
  datatype Transform = Transform(scale: Vec3, rx: real, ry: real, rz: real, position: Vec3)

  /** The parameters of a projection matrix; angles are in degrees. */
  datatype Projection =
    | Perspective(fovDegrees: real, aspect: real, near: real, far: real)
    | Ortho(left: real, right: real, bottom: real, top: real, near: real, far: real)

  /** An opaque 4x4 matrix. `External` stands for a matrix computed by code
      outside this model (the light-space matrix handed to both passes). */
  datatype Mat4 =
    | ModelMatrix(transform: Transform)
    | ProjectionMatrix(projection: Projection)
    | External(id: int)

  /** What one shader uniform can hold. */
  datatype UniformValue =
    | IntValue(i: int)
    | FloatValue(f: real)
    | Vec2Value(v2: Vec2)
    | Vec3Value(v3: Vec3)
    | Vec4Value(v4: Vec4)
    | MatValue(m: Mat4)
    | SamplerValue(unit: int)

  /** A boolean passed to an integer uniform setter becomes 0 or 1. */
  function BoolValue(b: bool): UniformValue
  {
    IntValue(if b then 1 else 0)
  }
}
