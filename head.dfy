/** The head-mounted display device.  Each tick its pose callback applies
    the cursor (while the cursor is locked), the calibration keys and the
    movement keys to the head's fields in place, then reports the pose. */
module Head {
  import opened Types
  import opened Geometry

  /** Vertical movement step per tick (the arrow keys use the same 0.01,
      written as a literal to keep their products with cos and sin linear). */
  const MoveStep: real := 0.01

  datatype HeadState = HeadState(
    head_yaw: real,
    head_pitch: real,
    head_roll: real,
    x: real,
    y: real,
    z: real,
    frontDire: real)

  /** Cursor step: while the cursor is locked, its offset from the screen
      centre turns pitch and roll; nothing else moves. */
  function Aim(s: HeadState, mouseIsLocked: bool, input: Input): (r: HeadState)
    ensures r.(head_pitch := s.head_pitch, head_roll := s.head_roll) == s
    ensures mouseIsLocked ==>
              r.head_pitch == s.head_pitch + input.cursorDx * 0.01 &&
              r.head_roll == s.head_roll + input.cursorDy * 0.01
    ensures !mouseIsLocked ==> r == s
  {
    if mouseIsLocked
    then s.(head_pitch := s.head_pitch + input.cursorDx * 0.01,
            head_roll := s.head_roll + input.cursorDy * 0.01)
    else s
  }

  /** END: yaw back to zero, front direction captured from pitch. */
  function Centre(s: HeadState, input: Input): (r: HeadState)
    ensures input.keyEnd ==> r.head_yaw == 0.0 && r.frontDire == s.head_pitch
    ensures !input.keyEnd ==> r == s
    ensures r.(head_yaw := s.head_yaw, frontDire := s.frontDire) == s
  {
    if input.keyEnd then s.(head_yaw := 0.0, frontDire := s.head_pitch) else s
  }

  /** A movement key: while held, the position moves by (dx, dy, dz). */
  function Move(s: HeadState, held: bool, dx: real, dy: real, dz: real): (r: HeadState)
    ensures held ==> r.x == s.x + dx && r.y == s.y + dy && r.z == s.z + dz
    ensures !held ==> r == s
    ensures r.(x := s.x, y := s.y, z := s.z) == s
  {
    if held then s.(x := s.x + dx, y := s.y + dy, z := s.z + dz) else s
  }

  /** The four arrow keys, in the driver's order, with c and sn the cosine
      and sine of the current pitch.  They move in the horizontal plane
      only; opposite keys held together cancel out. */
  function MoveLevel(s: HeadState, input: Input, c: real, sn: real): (r: HeadState)
    ensures r.(x := s.x, z := s.z) == s
    ensures !input.keyUp && !input.keyDown && !input.keyLeft && !input.keyRight ==> r == s
    ensures input.keyUp && !input.keyDown && !input.keyLeft && !input.keyRight ==>
              r.x == s.x - 0.01 * sn && r.z == s.z - 0.01 * c
    ensures input.keyUp == input.keyDown && input.keyLeft == input.keyRight ==>
              r.x == s.x && r.z == s.z
  {
    var up := Move(s, input.keyUp, -0.01 * sn, 0.0, -0.01 * c);
    var down := Move(up, input.keyDown, 0.01 * sn, 0.0, 0.01 * c);
    var left := Move(down, input.keyLeft, -0.01 * c, 0.0, 0.01 * sn);
    Move(left, input.keyRight, 0.01 * c, 0.0, -0.01 * sn)
  }

  /** All six movement keys: the arrows, then PRIOR (up) and NEXT (down).
      The height changes by one step per held key, and PRIOR with NEXT
      cancel out. */
  function MoveAll(s: HeadState, input: Input, c: real, sn: real): (r: HeadState)
    ensures r.(x := s.x, y := s.y, z := s.z) == s
    ensures r.x == MoveLevel(s, input, c, sn).x && r.z == MoveLevel(s, input, c, sn).z
    ensures r.y == s.y + (if input.keyPrior then MoveStep else 0.0)
                       - (if input.keyNext then MoveStep else 0.0)
  {
    var level := MoveLevel(s, input, c, sn);
    var prior := Move(level, input.keyPrior, 0.0, MoveStep, 0.0);
    Move(prior, input.keyNext, 0.0, -MoveStep, 0.0)
  }

  /** HOME: the position back to the origin, nothing else changed. */
  function Home(s: HeadState, input: Input): (r: HeadState)
    ensures r.(x := s.x, y := s.y, z := s.z) == s
    ensures input.keyHome ==> r.x == 0.0 && r.y == 0.0 && r.z == 0.0
    ensures !input.keyHome ==> r == s
  {
    if input.keyHome then s.(x := 0.0, y := 0.0, z := 0.0) else s
  }

  /** The state change of one pose callback.  The cursor drives pitch and
      roll; yaw is only ever reset; END captures the front direction; the
      movement keys move along the (new) pitch; HOME, applied last, zeroes
      the position. */
  function HeadStep(m: Trig, s: HeadState, mouseIsLocked: bool, input: Input): (r: HeadState)
    ensures r.head_yaw == 0.0 || r.head_yaw == s.head_yaw
    ensures input.keyEnd ==> r.head_yaw == 0.0 && r.frontDire == r.head_pitch
    ensures !input.keyEnd ==> r.head_yaw == s.head_yaw && r.frontDire == s.frontDire
    ensures mouseIsLocked ==>
              (r.head_pitch == s.head_pitch + input.cursorDx * 0.01 &&
               r.head_roll == s.head_roll + input.cursorDy * 0.01)
    ensures !mouseIsLocked ==> r.head_pitch == s.head_pitch && r.head_roll == s.head_roll
    ensures input.keyHome ==> r.x == 0.0 && r.y == 0.0 && r.z == 0.0
    ensures !input.keyHome ==>
              r.y == s.y + (if input.keyPrior then MoveStep else 0.0) - (if input.keyNext then MoveStep else 0.0)
    ensures (!input.keyHome && !input.keyUp && !input.keyDown && !input.keyLeft && !input.keyRight)
              ==> r.x == s.x && r.z == s.z
  {
    var aimed := Centre(Aim(s, mouseIsLocked, input), input);
    Home(MoveAll(aimed, input, m.cos(aimed.head_pitch), m.sin(aimed.head_pitch)), input)
  }

  /** The pose reported from the head's (updated) state. */
  function HeadPose(m: Trig, s: HeadState): (p: DriverPose)
    ensures p.poseIsValid && p.result == RunningOK && p.deviceIsConnected
    ensures p.qWorldFromDriverRotation == Identity && p.qDriverFromHeadRotation == Identity
    ensures p.vecPosition == Vec3(s.x, s.y, s.z)
    ensures p.qRotation == HeadRotation(m, s.head_yaw, s.head_pitch, s.head_roll)
    ensures (TrigOk(m) && s.head_yaw == 0.0 && s.head_pitch == 0.0 && s.head_roll == 0.0)
              ==> p.qRotation == Identity
  {
    DriverPose(true, RunningOK, true, Identity, Identity,
               Vec3(s.x, s.y, s.z), HeadRotation(m, s.head_yaw, s.head_pitch, s.head_roll))
  }

  /** Holding HOME puts the reported head position at the origin whatever
      else is held. */
  lemma HomeReportsOrigin(m: Trig, s: HeadState, mouseIsLocked: bool, input: Input)
    requires input.keyHome
    ensures HeadPose(m, HeadStep(m, s, mouseIsLocked, input)).vecPosition == Vec3(0.0, 0.0, 0.0)
  {
  }

  class DeviceDriver {
    var head_yaw: real
    var head_pitch: real
    var head_roll: real
    var x: real
    var y: real
    var z: real
    var frontDire: real

    function State(): HeadState
      reads this
    {
      HeadState(head_yaw, head_pitch, head_roll, x, y, z, frontDire)
    }

    /** The angles start at zero; position and front direction are left
        uninitialised by the driver, so they are given here. */
    constructor (x0: real, y0: real, z0: real, frontDire0: real)
      ensures State() == HeadState(0.0, 0.0, 0.0, x0, y0, z0, frontDire0)
    {
      head_yaw, head_pitch, head_roll := 0.0, 0.0, 0.0;
      x, y, z, frontDire := x0, y0, z0, frontDire0;
    }

    /** The arrow keys, moving along and across the pitch whose cosine and
        sine are given. */
    method MoveAlongPitch(input: Input, cos_pitch: real, sin_pitch: real)
      modifies this`x, this`z
      ensures State() == MoveLevel(old(State()), input, cos_pitch, sin_pitch)
    {
      if input.keyUp {
        z := z + -0.01 * cos_pitch;
        x := x + -0.01 * sin_pitch;
      }
      if input.keyDown {
        z := z + 0.01 * cos_pitch;
        x := x + 0.01 * sin_pitch;
      }
      if input.keyLeft {
        x := x + -0.01 * cos_pitch;
        z := z - -0.01 * sin_pitch;
      }
      if input.keyRight {
        x := x + 0.01 * cos_pitch;
        z := z - 0.01 * sin_pitch;
      }
    }

    /** The cursor (while locked) and the END key. */
    method TurnAndCentre(mouseIsLocked: bool, input: Input)
      modifies this
      ensures State() == Centre(Aim(old(State()), mouseIsLocked, input), input)
    {
      if mouseIsLocked {
        head_pitch := head_pitch + input.cursorDx * 0.01;
        head_roll := head_roll + input.cursorDy * 0.01;
      }
      if input.keyEnd {
        head_yaw := 0.0;
        frontDire := head_pitch;
      }
    }

    method GetPose(m: Trig, mouseIsLocked: bool, input: Input) returns (pose: DriverPose)
      modifies this
      ensures State() == HeadStep(m, old(State()), mouseIsLocked, input)
      ensures pose == HeadPose(m, State())
    {
      TurnAndCentre(mouseIsLocked, input);
      var cos_pitch := m.cos(head_pitch);
      var sin_pitch := m.sin(head_pitch);
      MoveAlongPitch(input, cos_pitch, sin_pitch);
      if input.keyPrior {
        y := y + MoveStep;
      }
      if input.keyNext {
        y := y + -MoveStep;
      }
      if input.keyHome {
        x, y, z := 0.0, 0.0, 0.0;
      }
      pose := DriverPose(true, RunningOK, true, Identity, Identity,
                         Vec3(x, y, z), HeadRotation(m, head_yaw, head_pitch, head_roll));
    }
  }
}
