/**
 * The scene-graph quantities the controller copies around. They are never
 * computed with here: a pose is an opaque value, and a 4x4 transform matrix is
 * represented by its decomposition into translation, rotation and scale.
 */
module Geometry {

  datatype Vector3 = Vector3(x: real, y: real, z: real)

  datatype Quaternion = Quaternion(x: real, y: real, z: real, w: real)

  /** A rigid transform with scale, i.e. the matrix `Matrix4.compose(position, orientation, scale)`. */
  datatype Transform = Transform(position: Vector3, orientation: Quaternion, scale: Vector3)

  const Origin: Vector3 := Vector3(0.0, 0.0, 0.0)
  const UnitScale: Vector3 := Vector3(1.0, 1.0, 1.0)
  const IdentityRotation: Quaternion := Quaternion(0.0, 0.0, 0.0, 1.0)

  /** The identity matrix, which a freshly created mesh carries. */
  const Identity: Transform := Transform(Origin, IdentityRotation, UnitScale)
}
