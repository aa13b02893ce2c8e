/**
 * The six-degree-of-freedom value that a link state stores four times
 * (pose, velocity, acceleration, wrench), and the deprecated value type
 * returned by the legacy getters.
 *
 * The rotation is kept as the roll, pitch and yaw angles that
 * `Rot().Euler()` reports; quaternion arithmetic is not modelled.
 */
module IgnMath {

  /** ignition::math::Vector3d, with doubles as reals. */
  datatype Vector3 = Vector3(x: real, y: real, z: real)

  const ZeroVector := Vector3(0.0, 0.0, 0.0)

  /** ignition::math::Pose3d: a position and a rotation (as Euler angles). */
  datatype Pose3 = Pose3(pos: Vector3, rot: Vector3) {

    /** The six components in the order the text form lists them:
        x, y, z, then the rotations about X, Y and Z. */
    function Components(): seq<real> {
      [pos.x, pos.y, pos.z, rot.x, rot.y, rot.z]
    }
  }

  /** Pose3d::Zero: zero translation and the identity rotation. */
  const Zero := Pose3(ZeroVector, ZeroVector)

  lemma ComponentsDetermineValue(p: Pose3, q: Pose3)
    ensures p.Components() == q.Components() <==> p == q
  {
  }

  /** A value is Zero exactly when each of its six components is 0. */
  lemma ZeroIffComponentsZero(p: Pose3)
    ensures p == Zero <==> forall k :: 0 <= k < 6 ==> p.Components()[k] == 0.0
  {
    if forall k :: 0 <= k < 6 ==> p.Components()[k] == 0.0 {
      ComponentsDetermineValue(p, Zero);
      assert p.Components() == Zero.Components();
    }
  }

  /** gazebo::math::Vector3, the deprecated vector type. */
  datatype LegacyVector3 = LegacyVector3(x: real, y: real, z: real)

  /** gazebo::math::Pose, the deprecated pose type returned by the Get* twins. */
  datatype LegacyPose = LegacyPose(pos: LegacyVector3, rot: LegacyVector3)

  /** Conversion from the canonical value to the deprecated type. */
  function ToLegacy(p: Pose3): LegacyPose {
    LegacyPose(LegacyVector3(p.pos.x, p.pos.y, p.pos.z),
               LegacyVector3(p.rot.x, p.rot.y, p.rot.z))
  }

  /** Conversion from the deprecated type back to the canonical value. */
  function FromLegacy(l: LegacyPose): (p: Pose3)
    ensures ToLegacy(p) == l
  {
    Pose3(Vector3(l.pos.x, l.pos.y, l.pos.z), Vector3(l.rot.x, l.rot.y, l.rot.z))
  }

  /** The two representations carry the same information. */
  lemma LegacyRoundTrip(p: Pose3, l: LegacyPose)
    ensures FromLegacy(ToLegacy(p)) == p
    ensures ToLegacy(FromLegacy(l)) == l
  {
  }
}
