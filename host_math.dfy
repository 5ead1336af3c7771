/**
  What the placement engine takes from its host: JavaScript's `Math`
  object and three.js' orientation helper. Sine and cosine are
  floating-point transcendental functions and the orientation is
  library code, so the model takes them as opaque function values
  supplied by the caller; nothing is assumed about them unless a lemma
  asks for it in its `requires`.
 */
module HostMath {

  /** A point or direction in the scene's 3D space. */
  datatype Vec3 = Vec3(x: real, y: real, z: real)

  /** A rotation, as three.js stores it. */
  datatype Quaternion = Quaternion(x: real, y: real, z: real, w: real)

  /**
    `sin` and `cos` stand for `Math.sin` and `Math.cos`; `alignUp(v)`
    stands for normalising `v` and then asking three.js for the
    shortest-arc rotation that carries the up axis (0, 1, 0) onto it.
   */
  datatype Library = Library(sin: real -> real, cos: real -> real, alignUp: Vec3 -> Quaternion)

  /** `Math.PI`, written as that double's shortest decimal. */
  const PI: real := 3.141592653589793
}
