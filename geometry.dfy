/**
 * The engine's vector and transform values. The source computes them in
 * 32-bit floating point; here they are exact reals.
 */
module Geometry {

  /** A two-dimensional vector (the engine's `Vec2`). */
  datatype Vec2 = Vec2(x: real, y: real)

  /** The translation part of the engine's `Transform::from_xyz(x, y, z)`; `z` is the draw depth. */
  datatype Transform = Transform(x: real, y: real, z: real)
}
