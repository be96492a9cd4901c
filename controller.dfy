/** A hand controller.  The server hands it the latest decoded message
    (position, rotation delta, trackpad, click, trigger); each tick its pose
    callback applies the calibration keys, accumulates the stored rotation
    delta into its angles and reports a pose placed in the head's frame. */
module Controller {
  import opened Types
  import opened Geometry
  import opened Head

  datatype ControllerState = ControllerState(
    controller_roll: real,
    controller_pitch: real,
    controller_yaw: real,
    posCorrectionValues: Triple,
    rawPosValues: Triple,
    rotDiffValues: Triple,
    trackpadValues: Pair,
    trackpadClicked: bool,
    triggerValue: real)

  const Initial := ControllerState(0.0, 0.0, 0.0, Zero3, Zero3, Zero3, Zero2, false, 0.0)

  /** A new message's values stored as the controller's inputs; the angles
      and the calibration stay as they are. */
  function Receive(s: ControllerState, pos: Triple, rot: Triple, tpv: Pair, tpc: bool, trig: real)
    : (r: ControllerState)
    ensures r.rawPosValues == pos && r.rotDiffValues == rot && r.trackpadValues == tpv
    ensures r.trackpadClicked == tpc && r.triggerValue == trig
    ensures SameCalibration(r, s)
  {
    s.(rawPosValues := pos, rotDiffValues := rot, trackpadValues := tpv,
       trackpadClicked := tpc, triggerValue := trig)
  }

  /** The angles and the position correction: what only the pose callback
      changes. */
  predicate SameCalibration(a: ControllerState, b: ControllerState) {
    a.controller_roll == b.controller_roll && a.controller_pitch == b.controller_pitch &&
    a.controller_yaw == b.controller_yaw && a.posCorrectionValues == b.posCorrectionValues
  }

  /** A later message replaces everything an earlier one stored. */
  lemma LastMessageWins(s: ControllerState, pos: Triple, rot: Triple, tpv: Pair, tpc: bool, trig: real,
                        pos': Triple, rot': Triple, tpv': Pair, tpc': bool, trig': real)
    ensures Receive(Receive(s, pos, rot, tpv, tpc, trig), pos', rot', tpv', tpc', trig')
         == Receive(s, pos', rot', tpv', tpc', trig')
  {
  }

  /** The rotation delta of a controller the message was not meant for: it
      is cleared, so the controller stops turning, and nothing else changes. */
  function WithoutRotDiff(s: ControllerState): (r: ControllerState)
    ensures r.rotDiffValues == Zero3
    ensures Accumulate(r) == r
    ensures r.(rotDiffValues := s.rotDiffValues) == s
  {
    s.(rotDiffValues := Zero3)
  }

  /** HOME captures the current position as the correction and resets the
      angles to the head's front; END resets the angles only.  The message
      values are not touched. */
  function Recentre(s: ControllerState, input: Input, headFront: real): (r: ControllerState)
    ensures (input.keyHome || input.keyEnd) ==>
              r.controller_roll == 0.0 && r.controller_pitch == headFront && r.controller_yaw == 0.0
    ensures (!input.keyHome && !input.keyEnd) ==> r == s
    ensures input.keyHome ==> r.posCorrectionValues == s.rawPosValues
    ensures !input.keyHome ==> r.posCorrectionValues == s.posCorrectionValues
    ensures r.rawPosValues == s.rawPosValues && r.rotDiffValues == s.rotDiffValues
    ensures r.trackpadValues == s.trackpadValues && r.trackpadClicked == s.trackpadClicked
    ensures r.triggerValue == s.triggerValue
  {
    var home :=
      if input.keyHome
      then s.(posCorrectionValues := s.rawPosValues, controller_roll := 0.0,
              controller_yaw := 0.0, controller_pitch := headFront)
      else s;
    if input.keyEnd
    then home.(controller_roll := 0.0, controller_yaw := 0.0, controller_pitch := headFront)
    else home
  }

  /** The stored per-axis delta added to the angles; nothing else changes. */
  function Accumulate(s: ControllerState): (r: ControllerState)
    ensures r.controller_roll == s.controller_roll + s.rotDiffValues[0]
    ensures r.controller_pitch == s.controller_pitch + s.rotDiffValues[1]
    ensures r.controller_yaw == s.controller_yaw + s.rotDiffValues[2]
    ensures r.(controller_roll := s.controller_roll, controller_pitch := s.controller_pitch,
               controller_yaw := s.controller_yaw) == s
  {
    s.(controller_roll := s.controller_roll + s.rotDiffValues[0],
       controller_pitch := s.controller_pitch + s.rotDiffValues[1],
       controller_yaw := s.controller_yaw + s.rotDiffValues[2])
  }

  /** The state change of one pose callback.  After HOME or END the angles
      are this tick's delta away from (0, head front, 0); otherwise they
      grow by the delta.  Only HOME moves the correction, and the message
      values are left as they are. */
  function ControllerStep(s: ControllerState, input: Input, headFront: real): (r: ControllerState)
    ensures (input.keyHome || input.keyEnd) ==>
              (r.controller_roll == s.rotDiffValues[0] &&
               r.controller_pitch == headFront + s.rotDiffValues[1] &&
               r.controller_yaw == s.rotDiffValues[2])
    ensures (!input.keyHome && !input.keyEnd) ==>
              (r.controller_roll == s.controller_roll + s.rotDiffValues[0] &&
               r.controller_pitch == s.controller_pitch + s.rotDiffValues[1] &&
               r.controller_yaw == s.controller_yaw + s.rotDiffValues[2])
    ensures input.keyHome ==> r.posCorrectionValues == s.rawPosValues
    ensures !input.keyHome ==> r.posCorrectionValues == s.posCorrectionValues
    ensures r.rawPosValues == s.rawPosValues && r.rotDiffValues == s.rotDiffValues
    ensures r.trackpadValues == s.trackpadValues && r.trackpadClicked == s.trackpadClicked
    ensures r.triggerValue == s.triggerValue
  {
    Accumulate(Recentre(s, input, headFront))
  }

  /** The controller's position relative to the head before turning: the
      corrected position plus a fixed offset to the side (right of the head
      for index 0, left for index 1), below and in front. */
  function LocalOffset(s: ControllerState, index: int): (v: Vec3)
    ensures s.rawPosValues == s.posCorrectionValues ==>
              v == Vec3(0.2 * (1.0 - 2.0 * index as real), -0.3, -0.3)
  {
    Vec3(s.rawPosValues[0] - s.posCorrectionValues[0] + 0.2 * (1.0 - 2.0 * index as real),
         s.rawPosValues[1] - s.posCorrectionValues[1] - 0.3,
         s.rawPosValues[2] - s.posCorrectionValues[2] - 0.3)
  }

  /** Holding HOME puts the controller at its fixed offset from the head. */
  lemma HomeRecentresOffset(s: ControllerState, input: Input, headFront: real, index: int)
    requires input.keyHome
    ensures LocalOffset(ControllerStep(s, input, headFront), index)
         == Vec3(0.2 * (1.0 - 2.0 * index as real), -0.3, -0.3)
  {
  }

  /** The pose reported from the controller's (updated) state, the head's
      state and the tracking flag. */
  function ControllerPose(m: Trig, s: ControllerState, index: int, head: HeadState, rCtrlIsLocked: bool)
    : (p: DriverPose)
    ensures p.poseIsValid == rCtrlIsLocked
    ensures p.result == RunningOutOfRange <==> !rCtrlIsLocked
    ensures p.deviceIsConnected
    ensures p.qWorldFromDriverRotation == Identity && p.qDriverFromHeadRotation == Identity
    ensures p.vecPosition.y == LocalOffset(s, index).y + head.y
    ensures (TrigOk(m) && head.frontDire == 0.0) ==>
              p.vecPosition == Add(LocalOffset(s, index), Vec3(head.x, head.y, head.z))
    ensures p.qRotation == ControllerRotation(m, s.controller_roll, s.controller_pitch, s.controller_yaw)
    ensures (TrigOk(m) && s.controller_roll == 0.0 && s.controller_pitch == 0.0 && s.controller_yaw == 0.0)
              ==> p.qRotation == Identity
  {
    DriverPose(rCtrlIsLocked, if rCtrlIsLocked then RunningOK else RunningOutOfRange, true,
               Identity, Identity,
               PlaceInHeadFrame(m, LocalOffset(s, index), head.frontDire, Vec3(head.x, head.y, head.z)),
               ControllerRotation(m, s.controller_roll, s.controller_pitch, s.controller_yaw))
  }

  /** The trackpad counts as touched when either axis is off centre. */
  function TrackTouch(tpv: Pair): (b: bool)
    ensures b <==> tpv != Zero2
  {
    tpv[0] != 0.0 || tpv[1] != 0.0
  }

  /** The trigger counts as clicked when it is pressed at all: a released
      trigger (value 0) or a negative reading is off. */
  function TriggerOn(value: real): (b: bool)
    ensures b ==> value != 0.0
    ensures !b <==> value <= 0.0
  {
    value > 0.0
  }

  /** What a controller hands the runtime in one tick. */
  datatype ControllerFrame = ControllerFrame(
    buttonA: bool,
    buttonB: bool,
    trackTouch: bool,
    trackpadClick: bool,
    trackX: real,
    trackY: real,
    triggerOn: bool,
    triggerValue: real,
    pose: DriverPose)

  /** The components reported from the (updated) state. */
  function ControllerOutput(m: Trig, s: ControllerState, index: int, head: HeadState,
                            input: Input, rCtrlIsLocked: bool): (f: ControllerFrame)
    ensures f.buttonA == input.keyZ && f.buttonB == input.keyX
    ensures f.trackTouch <==> s.trackpadValues != Zero2
    ensures f.trackpadClick == s.trackpadClicked
    ensures f.trackX == s.trackpadValues[0] && f.trackY == s.trackpadValues[1]
    ensures f.triggerOn <==> 0.0 < s.triggerValue
    ensures f.triggerValue == s.triggerValue
    ensures f.pose.poseIsValid == rCtrlIsLocked
  {
    ControllerFrame(input.keyZ, input.keyX, TrackTouch(s.trackpadValues), s.trackpadClicked,
                    s.trackpadValues[0], s.trackpadValues[1],
                    TriggerOn(s.triggerValue), s.triggerValue,
                    ControllerPose(m, s, index, head, rCtrlIsLocked))
  }

  class ControllerDriver {
    const controllerIndex: int
    const head: DeviceDriver
    var controller_roll: real
    var controller_pitch: real
    var controller_yaw: real
    const posCorrectionValues: array<real>
    const rawPosValues: array<real>
    const rotDiffValues: array<real>
    const trackpadValues: array<real>
    var trackpadClicked: bool
    var triggerValue: real

    /** The arrays have their C sizes and are four separate buffers. */
    ghost predicate Valid() {
      posCorrectionValues.Length == 3 && rawPosValues.Length == 3 &&
      rotDiffValues.Length == 3 && trackpadValues.Length == 2 &&
      posCorrectionValues != rawPosValues && posCorrectionValues != rotDiffValues &&
      posCorrectionValues != trackpadValues && rawPosValues != rotDiffValues &&
      rawPosValues != trackpadValues && rotDiffValues != trackpadValues
    }

    ghost function Repr(): set<object> {
      {this, posCorrectionValues, rawPosValues, rotDiffValues, trackpadValues}
    }

    ghost function State(): ControllerState
      requires Valid()
      reads this, posCorrectionValues, rawPosValues, rotDiffValues, trackpadValues
    {
      ControllerState(controller_roll, controller_pitch, controller_yaw,
                      posCorrectionValues[..], rawPosValues[..], rotDiffValues[..],
                      trackpadValues[..], trackpadClicked, triggerValue)
    }

    /** A controller with the given index, posed relative to `head`. */
    constructor (index: int, head: DeviceDriver)
      ensures Valid() && fresh(Repr())
      ensures controllerIndex == index && this.head == head
      ensures State() == Initial
    {
      controllerIndex := index;
      this.head := head;
      controller_roll, controller_pitch, controller_yaw := 0.0, 0.0, 0.0;
      posCorrectionValues := new real[3] [0.0, 0.0, 0.0];
      rawPosValues := new real[3] [0.0, 0.0, 0.0];
      rotDiffValues := new real[3] [0.0, 0.0, 0.0];
      trackpadValues := new real[2] [0.0, 0.0];
      trackpadClicked, triggerValue := false, 0.0;
    }

    method SetInputValues(pos: Triple, rot: Triple, tpv: Pair, tpc: bool, trig: real)
      requires Valid()
      modifies rawPosValues, rotDiffValues, trackpadValues, this`trackpadClicked, this`triggerValue
      ensures State() == Receive(old(State()), pos, rot, tpv, tpc, trig)
    {
      for i := 0 to 3
        invariant forall j :: 0 <= j < i ==> rawPosValues[j] == pos[j] && rotDiffValues[j] == rot[j]
        invariant trackpadValues[..] == old(trackpadValues[..])
      {
        rawPosValues[i] := pos[i];
        rotDiffValues[i] := rot[i];
      }
      for i := 0 to 2
        invariant forall j :: 0 <= j < i ==> trackpadValues[j] == tpv[j]
        invariant rawPosValues[..] == pos && rotDiffValues[..] == rot
      {
        trackpadValues[i] := tpv[i];
      }
      assert trackpadValues[..] == tpv;
      trackpadClicked := tpc;
      triggerValue := trig;
    }

    method SetRotDiffNone()
      requires Valid()
      modifies rotDiffValues
      ensures State() == WithoutRotDiff(old(State()))
    {
      rotDiffValues[0] := 0.0;
      rotDiffValues[1] := 0.0;
      rotDiffValues[2] := 0.0;
      assert rotDiffValues[..] == Zero3;
    }

    /** The correction captured from the current position. */
    method CaptureCorrection()
      requires Valid()
      modifies posCorrectionValues
      ensures posCorrectionValues[..] == rawPosValues[..]
    {
      forall i | 0 <= i < 3 {
        posCorrectionValues[i] := rawPosValues[i];
      }
    }

    /** The calibration keys. */
    method Recalibrate(input: Input, headFront: real)
      requires Valid()
      modifies this`controller_roll, this`controller_pitch, this`controller_yaw, posCorrectionValues
      ensures State() == Recentre(old(State()), input, headFront)
    {
      if input.keyHome {
        CaptureCorrection();
        controller_roll, controller_yaw := 0.0, 0.0;
        controller_pitch := headFront;
      }
      if input.keyEnd {
        controller_roll, controller_yaw := 0.0, 0.0;
        controller_pitch := headFront;
      }
    }

    /** The stored delta added to the angles. */
    method Turn()
      requires Valid()
      modifies this`controller_roll, this`controller_pitch, this`controller_yaw
      ensures State() == Accumulate(old(State()))
    {
      controller_roll := controller_roll + rotDiffValues[0];
      controller_pitch := controller_pitch + rotDiffValues[1];
      controller_yaw := controller_yaw + rotDiffValues[2];
    }

    /** The corrected position with its fixed offset, turned by the head's
        front direction and moved to the head's position. */
    method Place(m: Trig, head_front: real) returns (position: Vec3)
      requires Valid()
      ensures position
           == PlaceInHeadFrame(m, LocalOffset(State(), controllerIndex), head_front, Vec3(head.x, head.y, head.z))
    {
      var x := rawPosValues[0] - posCorrectionValues[0] + 0.2 * (1.0 - 2.0 * controllerIndex as real);
      var y := rawPosValues[1] - posCorrectionValues[1] - 0.3;
      var z := rawPosValues[2] - posCorrectionValues[2] - 0.3;
      position := Vec3(x * m.cos(head_front) + z * m.sin(head_front) + head.x,
                       y + head.y,
                       z * m.cos(head_front) - x * m.sin(head_front) + head.z);
    }

    method GetPose(m: Trig, input: Input, rCtrlIsLocked: bool) returns (pose: DriverPose)
      requires Valid()
      modifies this`controller_roll, this`controller_pitch, this`controller_yaw, posCorrectionValues
      ensures State() == ControllerStep(old(State()), input, head.frontDire)
      ensures pose == ControllerPose(m, State(), controllerIndex, head.State(), rCtrlIsLocked)
    {
      var head_front := head.frontDire;
      Recalibrate(input, head_front);
      var position := Place(m, head_front);
      Turn();
      var cR, sR := m.cos(controller_roll * 0.5), m.sin(controller_roll * 0.5);
      var cP, sP := m.cos(controller_pitch * 0.5), m.sin(controller_pitch * 0.5);
      var cY, sY := m.cos(controller_yaw * 0.5), m.sin(controller_yaw * 0.5);
      pose := DriverPose(rCtrlIsLocked, if rCtrlIsLocked then RunningOK else RunningOutOfRange, true,
                         Identity, Identity, position, ControllerTerms(cR, sR, cP, sP, cY, sY));
    }

    /** One tick: the components read from the stored message values, then
        the pose. */
    method RunFrame(m: Trig, input: Input, rCtrlIsLocked: bool) returns (f: ControllerFrame)
      requires Valid()
      modifies this`controller_roll, this`controller_pitch, this`controller_yaw, posCorrectionValues
      ensures State() == ControllerStep(old(State()), input, head.frontDire)
      ensures f == ControllerOutput(m, State(), controllerIndex, head.State(), input, rCtrlIsLocked)
    {
      var trackX, trackY := trackpadValues[0], trackpadValues[1];
      var trackTouch := trackX != 0.0 || trackY != 0.0;
      var triggerOn := triggerValue > 0.0;
      var pose := GetPose(m, input, rCtrlIsLocked);
      f := ControllerFrame(input.keyZ, input.keyX, trackTouch, trackpadClicked, trackX, trackY,
                           triggerOn, triggerValue, pose);
    }
  }
}
