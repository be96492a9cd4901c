/** Orientation math: the two quaternion formulas of the driver, a
    reference definition of them as products of single-axis rotations, and
    the placement of a controller's local offset in the head's frame.
    Cosine and sine are left uninterpreted: they are carried by a `Trig`
    record.  The facts assumed about them are cos 0 = 1 and sin 0 = 0
    (`TrigOk`), and, as a hypothesis of `PlacementKeepsHorizontalDistance`
    only, cos² + sin² = 1 for the angle concerned. */
module Geometry {

  datatype Trig = Trig(cos: real -> real, sin: real -> real)

  predicate TrigOk(m: Trig) {
    m.cos(0.0) == 1.0 && m.sin(0.0) == 0.0
  }

  datatype Vec3 = Vec3(x: real, y: real, z: real)

  datatype Quat = Quat(w: real, x: real, y: real, z: real)

  const Identity := Quat(1.0, 0.0, 0.0, 0.0)

  datatype TrackingResult = RunningOK | RunningOutOfRange

  /** The fields of the runtime's pose record that the driver fills in. */
  datatype DriverPose = DriverPose(
    poseIsValid: bool,
    result: TrackingResult,
    deviceIsConnected: bool,
    qWorldFromDriverRotation: Quat,
    qDriverFromHeadRotation: Quat,
    vecPosition: Vec3,
    qRotation: Quat)

  function Add(a: Vec3, b: Vec3): Vec3 {
    Vec3(a.x + b.x, a.y + b.y, a.z + b.z)
  }

  /** Hamilton product. */
  function Mul(p: Quat, q: Quat): Quat {
    Quat(p.w * q.w - p.x * q.x - p.y * q.y - p.z * q.z,
         p.w * q.x + p.x * q.w + p.y * q.z - p.z * q.y,
         p.w * q.y - p.x * q.z + p.y * q.w + p.z * q.x,
         p.w * q.z + p.x * q.y - p.y * q.x + p.z * q.w)
  }

  /** Rotation by angle `a` about the quaternion's x, y and z axes. */
  function AboutX(m: Trig, a: real): Quat { Quat(m.cos(a * 0.5), m.sin(a * 0.5), 0.0, 0.0) }
  function AboutY(m: Trig, a: real): Quat { Quat(m.cos(a * 0.5), 0.0, m.sin(a * 0.5), 0.0) }
  function AboutZ(m: Trig, a: real): Quat { Quat(m.cos(a * 0.5), 0.0, 0.0, m.sin(a * 0.5)) }

  /** The head's quaternion terms from the half-angle cosines and sines,
      term for term as the head driver writes them (t0/t1 from yaw, t2/t3
      from roll, t4/t5 from pitch). */
  function HeadTerms(t0: real, t1: real, t2: real, t3: real, t4: real, t5: real): Quat {
    Quat(t0 * t2 * t4 + t1 * t3 * t5,
         t0 * t3 * t4 - t1 * t2 * t5,
         t0 * t2 * t5 + t1 * t3 * t4,
         t1 * t2 * t4 - t0 * t3 * t5)
  }

  function HeadRotation(m: Trig, yaw: real, pitch: real, roll: real): (q: Quat)
    ensures TrigOk(m) && yaw == 0.0 && pitch == 0.0 && roll == 0.0 ==> q == Identity
  {
    HeadTerms(m.cos(yaw * 0.5), m.sin(yaw * 0.5), m.cos(roll * 0.5), m.sin(roll * 0.5),
              m.cos(pitch * 0.5), m.sin(pitch * 0.5))
  }

  /** A controller's quaternion terms, term for term as the controller
      driver writes them. */
  function ControllerTerms(cR: real, sR: real, cP: real, sP: real, cY: real, sY: real): Quat {
    Quat(cR * cP * cY + sR * sP * sY,
         sR * cP * cY - cR * sP * sY,
         cR * sP * cY + sR * cP * sY,
         -sR * sP * cY + cR * cP * sY)
  }

  function ControllerRotation(m: Trig, roll: real, pitch: real, yaw: real): (q: Quat)
    ensures TrigOk(m) && roll == 0.0 && pitch == 0.0 && yaw == 0.0 ==> q == Identity
  {
    ControllerTerms(m.cos(roll * 0.5), m.sin(roll * 0.5), m.cos(pitch * 0.5), m.sin(pitch * 0.5),
                    m.cos(yaw * 0.5), m.sin(yaw * 0.5))
  }

  /** A rotation about z followed by one about y, multiplied out. */
  lemma MulZY(cz: real, sz: real, cy: real, sy: real)
    ensures Mul(Quat(cz, 0.0, 0.0, sz), Quat(cy, 0.0, sy, 0.0)) == Quat(cz * cy, -(sz * sy), cz * sy, sz * cy)
  {
  }

  /** The head's terms are the product of a rotation about z (yaw), one
      about y (pitch) and one about x (roll). */
  lemma HeadTermsAreProduct(cy: real, sy: real, cr: real, sr: real, cp: real, sp: real)
    ensures HeadTerms(cy, sy, cr, sr, cp, sp)
         == Mul(Mul(Quat(cy, 0.0, 0.0, sy), Quat(cp, 0.0, sp, 0.0)), Quat(cr, sr, 0.0, 0.0))
  {
    MulZY(cy, sy, cp, sp);
  }

  /** The controller's terms are the head's terms written in another order. */
  lemma TermsAgree(cy: real, sy: real, cr: real, sr: real, cp: real, sp: real)
    ensures HeadTerms(cy, sy, cr, sr, cp, sp) == ControllerTerms(cr, sr, cp, sp, cy, sy)
  {
  }

  /** The head formula is the composition yaw (about z), then pitch (about
      y), then roll (about x). */
  lemma HeadRotationIsComposition(m: Trig, yaw: real, pitch: real, roll: real)
    ensures HeadRotation(m, yaw, pitch, roll)
         == Mul(Mul(AboutZ(m, yaw), AboutY(m, pitch)), AboutX(m, roll))
  {
    HeadTermsAreProduct(m.cos(yaw * 0.5), m.sin(yaw * 0.5), m.cos(roll * 0.5), m.sin(roll * 0.5),
                        m.cos(pitch * 0.5), m.sin(pitch * 0.5));
  }

  /** Both arrangements of terms agree on every input ... */
  lemma HeadAndControllerRotationAgree(m: Trig, yaw: real, pitch: real, roll: real)
    ensures HeadRotation(m, yaw, pitch, roll) == ControllerRotation(m, roll, pitch, yaw)
  {
    TermsAgree(m.cos(yaw * 0.5), m.sin(yaw * 0.5), m.cos(roll * 0.5), m.sin(roll * 0.5),
               m.cos(pitch * 0.5), m.sin(pitch * 0.5));
  }

  /** ... so the controller formula is the same composition of the same axes. */
  lemma ControllerRotationIsComposition(m: Trig, roll: real, pitch: real, yaw: real)
    ensures ControllerRotation(m, roll, pitch, yaw)
         == Mul(Mul(AboutZ(m, yaw), AboutY(m, pitch)), AboutX(m, roll))
  {
    HeadAndControllerRotationAgree(m, yaw, pitch, roll);
    HeadRotationIsComposition(m, yaw, pitch, roll);
  }

  /** A controller's local offset turned about the vertical axis by the
      head's front direction and moved to the head's position. */
  function PlaceInHeadFrame(m: Trig, local: Vec3, frontDire: real, origin: Vec3): (p: Vec3)
    ensures p.y == local.y + origin.y
    ensures TrigOk(m) && frontDire == 0.0 ==> p == Add(local, origin)
  {
    var c, s := m.cos(frontDire), m.sin(frontDire);
    Vec3(local.x * c + local.z * s + origin.x,
         local.y + origin.y,
         local.z * c - local.x * s + origin.z)
  }

  /** Where cos and sin of the front direction lie on the unit circle, the
      turn keeps the horizontal distance from the head. */
  lemma PlacementKeepsHorizontalDistance(m: Trig, local: Vec3, frontDire: real, origin: Vec3)
    requires m.cos(frontDire) * m.cos(frontDire) + m.sin(frontDire) * m.sin(frontDire) == 1.0
    ensures var p := PlaceInHeadFrame(m, local, frontDire, origin);
            (p.x - origin.x) * (p.x - origin.x) + (p.z - origin.z) * (p.z - origin.z)
            == local.x * local.x + local.z * local.z
  {
    var c, s := m.cos(frontDire), m.sin(frontDire);
    var x, z := local.x, local.z;
    calc {
      (x * c + z * s) * (x * c + z * s) + (z * c - x * s) * (z * c - x * s);
      x * x * (c * c + s * s) + z * z * (c * c + s * s);
      x * x + z * z;
    }
  }
}
