/**
 * The transform algebra the skinner is written against.
 *
 * A transform is a TRS triple: a rotation quaternion, a position and a
 * component-wise (possibly non-uniform) scale. The floating-point operations
 * on it (composition, inversion) and the conversion of a rotation and a
 * translation into a dual quaternion come from libraries outside the model,
 * so they are not defined here: a skinner is given them as a `TransformOps`
 * value and every property below holds whatever those operations compute.
 */
module Transforms {

  /** A quaternion (x, y, z, w). */
  type Quat = q: seq<real> | |q| == 4 witness [0.0, 0.0, 0.0, 1.0]

  /** A 3-vector (x, y, z), used for positions and scales. */
  type Vec3 = v: seq<real> | |v| == 3 witness [0.0, 0.0, 0.0]

  /** A dual quaternion: the real (rotation) half, then the dual (translation) half. */
  type DualQuat = d: seq<real> | |d| == 8 witness [0.0, 0.0, 0.0, 1.0, 0.0, 0.0, 0.0, 0.0]

  datatype Transform = Transform(rot: Quat, pos: Vec3, scl: Vec3)

  const QuatIdentity: Quat := [0.0, 0.0, 0.0, 1.0]
  const QuatZero: Quat := [0.0, 0.0, 0.0, 0.0]
  const Vec3Zero: Vec3 := [0.0, 0.0, 0.0]
  const Vec3One: Vec3 := [1.0, 1.0, 1.0]

  /** What a freshly constructed transform holds: no rotation, no translation, unit scale. */
  const Identity: Transform := Transform(QuatIdentity, Vec3Zero, Vec3One)

  /** The dual quaternion of the identity rigid motion. */
  const DualQuatIdentity: DualQuat := QuatIdentity + QuatZero

  /**
   * The operations the skinner uses:
   *   mul(a, b)                      -- b applied in a's local frame (parent-child composition)
   *   invert(t)                      -- the inverse transform
   *   fromRotationTranslation(q, p)  -- the dual quaternion of rotation q followed by translation p
   */
  datatype TransformOps = TransformOps(
    mul: (Transform, Transform) -> Transform,
    invert: Transform -> Transform,
    fromRotationTranslation: (Quat, Vec3) -> DualQuat)

  /** The identity transform is a left unit of composition. */
  ghost predicate IdentityIsLeftUnit(ops: TransformOps) {
    forall t :: ops.mul(Identity, t) == t
  }

  /**
   * An idealised algebra, with exact arithmetic: the identity is a left unit,
   * composing a transform with its inverse gives the identity, and the
   * identity converts to the identity dual quaternion. Floating-point
   * transforms satisfy these only up to rounding.
   */
  ghost predicate Idealised(ops: TransformOps) {
    && IdentityIsLeftUnit(ops)
    && (forall t :: ops.mul(t, ops.invert(t)) == Identity)
    && ops.fromRotationTranslation(QuatIdentity, Vec3Zero) == DualQuatIdentity
  }
}
