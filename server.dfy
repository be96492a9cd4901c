/** The server driver's frame callback: consume a pending message from the
    shared buffer and route it to a controller, run the head and both
    controllers, hand the buffer back, then update the two toggles (cursor
    lock on the middle button, controller tracking on right Ctrl). */
module Server {
  import opened Types
  import opened Geometry
  import opened RotationDelta
  import opened EdgeToggle
  import opened SharedBuffer
  import opened Head
  import opened Controller

  /** Everything a tick reads or writes. */
  datatype ServerState = ServerState(
    head: HeadState,
    right: ControllerState,
    left: ControllerState,
    preControllerRot: Triple,
    sharedRam: seq<char>,
    mouse: Toggle,
    rCtrl: Toggle)

  /** What one tick hands the runtime. */
  datatype Frame = Frame(headPose: DriverPose, right: ControllerFrame, left: ControllerFrame)

  /** The values a message can set on a controller. */
  predicate SameInputs(a: ControllerState, b: ControllerState) {
    a.rawPosValues == b.rawPosValues && a.rotDiffValues == b.rotDiffValues &&
    a.trackpadValues == b.trackpadValues && a.trackpadClicked == b.trackpadClicked &&
    a.triggerValue == b.triggerValue
  }

  /** `c` holds the message's values and the delta `d`. */
  predicate Delivered(c: ControllerState, msg: Message, d: Triple) {
    c.rawPosValues == msg.translation && c.rotDiffValues == d && c.trackpadValues == msg.trackpad &&
    c.trackpadClicked == msg.clicked && c.triggerValue == msg.trigger
  }

  /** `b` holds the position, trackpad and trigger values `a` holds. */
  predicate KeepsValues(a: ControllerState, b: ControllerState) {
    a.rawPosValues == b.rawPosValues && a.trackpadValues == b.trackpadValues &&
    a.trackpadClicked == b.trackpadClicked && a.triggerValue == b.triggerValue
  }

  /** A message with id 0 is stored in the right controller and clears
      the left controller's rotation delta; id 1 is the mirror image; any
      other id reaches neither.  Routing never moves a controller's angles
      or its calibration. */
  function Route(msg: Message, d: Triple, right: ControllerState, left: ControllerState)
    : (r: (ControllerState, ControllerState))
    ensures SameCalibration(r.0, right) && SameCalibration(r.1, left)
    ensures msg.id == 0.0 ==>
              Delivered(r.0, msg, d) && r.1.rotDiffValues == Zero3 && KeepsValues(r.1, left)
    ensures msg.id == 1.0 ==>
              Delivered(r.1, msg, d) && r.0.rotDiffValues == Zero3 && KeepsValues(r.0, right)
    ensures msg.id != 0.0 && msg.id != 1.0 ==> r == (right, left)
  {
    if msg.id == 0.0 then
      (Receive(right, msg.translation, d, msg.trackpad, msg.clicked, msg.trigger), WithoutRotDiff(left))
    else if msg.id == 1.0 then
      (WithoutRotDiff(right), Receive(left, msg.translation, d, msg.trackpad, msg.clicked, msg.trigger))
    else
      (right, left)
  }

  /** The first step of a tick: a pending buffer is parsed, and a message
      is stored in the controller its id names, with the rotation delta
      from the previous sample; the sample is remembered whatever the id. */
  function Consume(s: ServerState, parse: string -> ParseResult): (r: ServerState)
    requires |s.sharedRam| >= 2
    ensures r.head == s.head && r.sharedRam == s.sharedRam
    ensures r.mouse == s.mouse && r.rCtrl == s.rCtrl
  {
    if !IsPending(s.sharedRam) then s
    else match parse(CString(s.sharedRam))
      case ParseError => s
      case Parsed(msg) =>
        var routed := Route(msg, RotDeltas(s.preControllerRot, msg.rotation), s.right, s.left);
        s.(preControllerRot := msg.rotation, right := routed.0, left := routed.1)
  }

  /** The head, then both controllers, each run once: the head with the
      cursor lock as it stands, the controllers with the head's new front
      direction.  The buffer, the sample and the toggles are not touched. */
  function RunDevices(m: Trig, s: ServerState, input: Input): (r: ServerState)
    ensures r.head == HeadStep(m, s.head, s.mouse.isLocked, input)
    ensures r.right == ControllerStep(s.right, input, r.head.frontDire)
    ensures r.left == ControllerStep(s.left, input, r.head.frontDire)
    ensures r.(head := s.head, right := s.right, left := s.left) == s
  {
    var head := HeadStep(m, s.head, s.mouse.isLocked, input);
    s.(head := head,
       right := ControllerStep(s.right, input, head.frontDire),
       left := ControllerStep(s.left, input, head.frontDire))
  }

  /** The buffer handed back to the producer if it held a message: it is
      free afterwards, and only the buffer changes. */
  function HandBack(s: ServerState): (r: ServerState)
    requires |s.sharedRam| >= 2
    ensures |r.sharedRam| == |s.sharedRam| && !IsPending(r.sharedRam)
    ensures IsPending(s.sharedRam) ==> r.sharedRam[1] == Nul && r.sharedRam[2..] == s.sharedRam[2..]
    ensures !IsPending(s.sharedRam) ==> r == s
    ensures r.(sharedRam := s.sharedRam) == s
  {
    s.(sharedRam := AfterTick(s.sharedRam))
  }

  /** The two toggles' edge checks: each flips exactly on a rising edge of
      its input and latches the input; nothing else changes. */
  function Toggles(s: ServerState, input: Input): (r: ServerState)
    ensures r.mouse.isLocked != s.mouse.isLocked <==> input.mouseMid && !s.mouse.onIsContinuing
    ensures r.mouse.onIsContinuing == input.mouseMid
    ensures r.rCtrl.isLocked != s.rCtrl.isLocked <==> input.rControl && !s.rCtrl.onIsContinuing
    ensures r.rCtrl.onIsContinuing == input.rControl
    ensures r.(mouse := s.mouse, rCtrl := s.rCtrl) == s
  {
    s.(mouse := Step(s.mouse, input.mouseMid), rCtrl := Step(s.rCtrl, input.rControl))
  }

  /** The state after one tick. */
  function Next(m: Trig, s: ServerState, input: Input, parse: string -> ParseResult): (r: ServerState)
    requires |s.sharedRam| >= 2
    ensures |r.sharedRam| == |s.sharedRam|
  {
    Toggles(HandBack(RunDevices(m, Consume(s, parse), input)), input)
  }

  /** The frame reported from the devices' new states, with the tracking
      flag as it stood before this tick's toggle update. */
  function Emitted(m: Trig, head: HeadState, right: ControllerState, left: ControllerState,
                   input: Input, rCtrlWasLocked: bool): (f: Frame)
    ensures f.headPose.poseIsValid && f.headPose.vecPosition == Vec3(head.x, head.y, head.z)
    ensures f.right.pose.poseIsValid == rCtrlWasLocked && f.left.pose.poseIsValid == rCtrlWasLocked
    ensures f.right.pose.vecPosition.y == LocalOffset(right, 0).y + head.y
    ensures f.left.pose.vecPosition.y == LocalOffset(left, 1).y + head.y
  {
    Frame(HeadPose(m, head),
          ControllerOutput(m, right, 0, head, input, rCtrlWasLocked),
          ControllerOutput(m, left, 1, head, input, rCtrlWasLocked))
  }

  /** The consumer's side of the handshake: after every tick the buffer is
      free.  A pending buffer is handed back with a terminator at position
      1 whether or not its text parsed; a free buffer is left untouched and
      no message reaches the controllers. */
  lemma ConsumerHandshake(m: Trig, s: ServerState, input: Input, parse: string -> ParseResult)
    requires |s.sharedRam| >= 2
    ensures var r := Next(m, s, input, parse);
            && !IsPending(r.sharedRam)
            && (IsPending(s.sharedRam) ==>
                  r.sharedRam[0] == Free && r.sharedRam[1] == Nul && r.sharedRam[2..] == s.sharedRam[2..])
            && (!IsPending(s.sharedRam) ==>
                  r.sharedRam == s.sharedRam && r.preControllerRot == s.preControllerRot &&
                  SameInputs(r.right, s.right) && SameInputs(r.left, s.left))
  {
  }

  /** Each toggle flips exactly when its input is held now and was not
      held on the previous tick, and its latch then holds the input. */
  lemma TogglesFlipOnRisingEdge(m: Trig, s: ServerState, input: Input, parse: string -> ParseResult)
    requires |s.sharedRam| >= 2
    ensures var r := Next(m, s, input, parse);
            && (r.mouse.isLocked != s.mouse.isLocked <==> input.mouseMid && !s.mouse.onIsContinuing)
            && r.mouse.onIsContinuing == input.mouseMid
            && (r.rCtrl.isLocked != s.rCtrl.isLocked <==> input.rControl && !s.rCtrl.onIsContinuing)
            && r.rCtrl.onIsContinuing == input.rControl
  {
  }

  /** The head runs with the cursor lock from before this tick's toggle
      update, and the controllers with the head's new front direction. */
  lemma DevicesUseStateBeforeToggles(m: Trig, s: ServerState, input: Input, parse: string -> ParseResult)
    requires |s.sharedRam| >= 2
    ensures var r := Next(m, s, input, parse);
            && r.head == HeadStep(m, s.head, s.mouse.isLocked, input)
            && r.right == ControllerStep(Consume(s, parse).right, input, r.head.frontDire)
            && r.left == ControllerStep(Consume(s, parse).left, input, r.head.frontDire)
  {
  }

  /** A message with id 0 goes to the right controller and clears only the
      left controller's rotation delta; id 1 is the mirror image; any other
      id reaches neither controller.  In every case the sample becomes the
      previous sample of the next message. */
  lemma RoutesById(m: Trig, s: ServerState, input: Input, parse: string -> ParseResult, msg: Message)
    requires |s.sharedRam| >= 2 && IsPending(s.sharedRam)
    requires parse(CString(s.sharedRam)) == Parsed(msg)
    ensures var r := Next(m, s, input, parse);
            var d := RotDeltas(s.preControllerRot, msg.rotation);
            && r.preControllerRot == msg.rotation
            && (msg.id == 0.0 ==>
                  SameInputs(r.right, Receive(s.right, msg.translation, d, msg.trackpad, msg.clicked, msg.trigger)) &&
                  SameInputs(r.left, WithoutRotDiff(s.left)))
            && (msg.id == 1.0 ==>
                  SameInputs(r.left, Receive(s.left, msg.translation, d, msg.trackpad, msg.clicked, msg.trigger)) &&
                  SameInputs(r.right, WithoutRotDiff(s.right)))
            && (msg.id != 0.0 && msg.id != 1.0 ==> SameInputs(r.right, s.right) && SameInputs(r.left, s.left))
  {
  }

  /** Without a new message (buffer free, or text that does not parse) the
      controllers keep their stored values, so each again turns by its
      stored delta unless a calibration key is held. */
  lemma NoMessageKeepsDeltas(m: Trig, s: ServerState, input: Input, parse: string -> ParseResult)
    requires |s.sharedRam| >= 2
    requires !IsPending(s.sharedRam) || parse(CString(s.sharedRam)) == ParseError
    ensures var r := Next(m, s, input, parse);
            && r.preControllerRot == s.preControllerRot
            && SameInputs(r.right, s.right) && SameInputs(r.left, s.left)
            && (!input.keyHome && !input.keyEnd ==> TurnedBy(s.right, r.right, 1) && TurnedBy(s.left, r.left, 1))
  {
  }

  /** `b` is `a` after n turns by `a`'s stored delta. */
  predicate TurnedBy(a: ControllerState, b: ControllerState, n: nat) {
    b.controller_roll == a.controller_roll + n as real * a.rotDiffValues[0] &&
    b.controller_pitch == a.controller_pitch + n as real * a.rotDiffValues[1] &&
    b.controller_yaw == a.controller_yaw + n as real * a.rotDiffValues[2] &&
    b.rotDiffValues == a.rotDiffValues
  }

  /** The controller poses report the tracking flag from before this
      tick's edge check, so a right Ctrl press shows one tick late. */
  lemma TrackingToggleShowsNextTick(m: Trig, s: ServerState, input: Input, parse: string -> ParseResult)
    requires |s.sharedRam| >= 2
    requires input.rControl && !s.rCtrl.onIsContinuing
    ensures var r := Next(m, s, input, parse);
            Emitted(m, r.head, r.right, r.left, input, s.rCtrl.isLocked).right.pose.poseIsValid
            != r.rCtrl.isLocked
  {
  }

  /** A sequence of ticks. */
  function Ticks(m: Trig, s: ServerState, inputs: seq<Input>, parse: string -> ParseResult): (r: ServerState)
    requires |s.sharedRam| >= 2
    ensures |r.sharedRam| == |s.sharedRam|
    decreases |inputs|
  {
    if inputs == [] then s else Ticks(m, Next(m, s, inputs[0], parse), inputs[1..], parse)
  }

  function MiddleButton(inputs: seq<Input>): (ons: seq<bool>)
    ensures |ons| == |inputs| && forall i :: 0 <= i < |inputs| ==> ons[i] == inputs[i].mouseMid
  {
    seq(|inputs|, i requires 0 <= i < |inputs| => inputs[i].mouseMid)
  }

  function RightCtrl(inputs: seq<Input>): (ons: seq<bool>)
    ensures |ons| == |inputs| && forall i :: 0 <= i < |inputs| ==> ons[i] == inputs[i].rControl
  {
    seq(|inputs|, i requires 0 <= i < |inputs| => inputs[i].rControl)
  }

  /** Over many ticks the cursor lock runs exactly the edge check on the
      middle button's history ... */
  lemma {:induction false} TicksRunMouseToggle(m: Trig, s: ServerState, inputs: seq<Input>, parse: string -> ParseResult)
    requires |s.sharedRam| >= 2
    ensures Ticks(m, s, inputs, parse).mouse == Run(s.mouse, MiddleButton(inputs))
    decreases |inputs|
  {
    if inputs != [] {
      TicksRunMouseToggle(m, Next(m, s, inputs[0], parse), inputs[1..], parse);
      assert MiddleButton(inputs)[1..] == MiddleButton(inputs[1..]);
    }
  }

  /** ... and controller tracking the edge check on right Ctrl's history. */
  lemma {:induction false} TicksRunTrackingToggle(m: Trig, s: ServerState, inputs: seq<Input>, parse: string -> ParseResult)
    requires |s.sharedRam| >= 2
    ensures Ticks(m, s, inputs, parse).rCtrl == Run(s.rCtrl, RightCtrl(inputs))
    decreases |inputs|
  {
    if inputs != [] {
      TicksRunTrackingToggle(m, Next(m, s, inputs[0], parse), inputs[1..], parse);
      assert RightCtrl(inputs)[1..] == RightCtrl(inputs[1..]);
    }
  }

  /** Holding the middle button for any number of ticks, starting from a
      released button, flips the cursor lock exactly once. */
  lemma HoldingMiddleButtonFlipsOnce(m: Trig, s: ServerState, inputs: seq<Input>, parse: string -> ParseResult)
    requires |s.sharedRam| >= 2 && !s.mouse.onIsContinuing
    requires |inputs| >= 1 && forall i :: 0 <= i < |inputs| ==> inputs[i].mouseMid
    ensures Ticks(m, s, inputs, parse).mouse == Toggle(!s.mouse.isLocked, true)
  {
    TicksRunMouseToggle(m, s, inputs, parse);
    HeldInputFlipsOnce(s.mouse, MiddleButton(inputs));
  }

  /** Holding right Ctrl for any number of ticks, starting from a released
      key, flips controller tracking exactly once. */
  lemma HoldingRightCtrlFlipsOnce(m: Trig, s: ServerState, inputs: seq<Input>, parse: string -> ParseResult)
    requires |s.sharedRam| >= 2 && !s.rCtrl.onIsContinuing
    requires |inputs| >= 1 && forall i :: 0 <= i < |inputs| ==> inputs[i].rControl
    ensures Ticks(m, s, inputs, parse).rCtrl == Toggle(!s.rCtrl.isLocked, true)
  {
    TicksRunTrackingToggle(m, s, inputs, parse);
    HeldInputFlipsOnce(s.rCtrl, RightCtrl(inputs));
  }

  /** While no message arrives and no calibration key is held, each
      controller turns by its stored delta on every tick. */
  lemma {:induction false} DeltasKeepTurning(m: Trig, s: ServerState, inputs: seq<Input>, parse: string -> ParseResult)
    requires |s.sharedRam| >= 2 && !IsPending(s.sharedRam)
    requires forall i :: 0 <= i < |inputs| ==> !inputs[i].keyHome && !inputs[i].keyEnd
    ensures var r := Ticks(m, s, inputs, parse);
            TurnedBy(s.right, r.right, |inputs|) && TurnedBy(s.left, r.left, |inputs|)
    decreases |inputs|
  {
    if inputs != [] {
      var r := Next(m, s, inputs[0], parse);
      ConsumerHandshake(m, s, inputs[0], parse);
      NoMessageKeepsDeltas(m, s, inputs[0], parse);
      DeltasKeepTurning(m, r, inputs[1..], parse);
      var t := Ticks(m, r, inputs[1..], parse);
      assert Ticks(m, s, inputs, parse) == t;
      TurnedByOneMore(s.right, r.right, t.right, |inputs|);
      TurnedByOneMore(s.left, r.left, t.left, |inputs|);
    }
  }

  /** One turn followed by n - 1 more is n turns. */
  lemma TurnedByOneMore(a: ControllerState, b: ControllerState, c: ControllerState, n: nat)
    requires n >= 1 && TurnedBy(a, b, 1) && TurnedBy(b, c, n - 1)
    ensures TurnedBy(a, c, n)
  {
  }

  class ServerDriver {
    const head: DeviceDriver
    const right: ControllerDriver
    const left: ControllerDriver
    const preControllerRot: array<real>
    const sharedRam: array<char>
    var mouseIsLocked: bool
    var mouseMidOnIsContinuing: bool
    var rCtrlIsLocked: bool
    var rCtrlOnIsCOntinuing: bool

    /** Both controllers are posed relative to the one head, the right one
        has index 0 and the left one index 1, and no two parts share a
        buffer. */
    ghost predicate Valid() {
      right.Valid() && left.Valid() &&
      right.head == head && left.head == head &&
      right.controllerIndex == 0 && left.controllerIndex == 1 &&
      preControllerRot.Length == 3 && sharedRam.Length >= 2 &&
      right.Repr() !! left.Repr() &&
      preControllerRot !in right.Repr() && preControllerRot !in left.Repr() &&
      sharedRam !in right.Repr() && sharedRam !in left.Repr()
    }

    ghost function Repr(): set<object> {
      {this, head, preControllerRot, sharedRam} + right.Repr() + left.Repr()
    }

    ghost function State(): ServerState
      requires Valid()
      reads this, head, right, right.posCorrectionValues, right.rawPosValues, right.rotDiffValues,
        right.trackpadValues, left, left.posCorrectionValues, left.rawPosValues, left.rotDiffValues,
        left.trackpadValues, preControllerRot, sharedRam
    {
      ServerState(head.State(), right.State(), left.State(), preControllerRot[..], sharedRam[..],
                  Toggle(mouseIsLocked, mouseMidOnIsContinuing), Toggle(rCtrlIsLocked, rCtrlOnIsCOntinuing))
    }

    /** Creates the head and both controllers over a shared buffer with the
        given contents.  The head's position and front direction start as
        given; the cursor starts unlocked and tracking on. */
    constructor (x0: real, y0: real, z0: real, frontDire0: real, ram: seq<char>)
      requires |ram| >= 2
      ensures Valid() && fresh(Repr())
      ensures head.State() == HeadState(0.0, 0.0, 0.0, x0, y0, z0, frontDire0)
      ensures right.State() == Initial && left.State() == Initial
      ensures preControllerRot[..] == Zero3 && sharedRam[..] == ram
      ensures !mouseIsLocked && !mouseMidOnIsContinuing && rCtrlIsLocked && !rCtrlOnIsCOntinuing
    {
      var pre := new real[3] [0.0, 0.0, 0.0];
      var buf := new char[|ram|] (i requires 0 <= i < |ram| => ram[i]);
      assert buf[..] == ram;
      var h := new DeviceDriver(x0, y0, z0, frontDire0);
      var r := new ControllerDriver(0, h);
      var l := new ControllerDriver(1, h);
      head, right, left, preControllerRot, sharedRam := h, r, l, pre, buf;
      mouseIsLocked, mouseMidOnIsContinuing := false, false;
      rCtrlIsLocked, rCtrlOnIsCOntinuing := true, false;
    }

    /** A decoded message delivered by its id. */
    method RouteMessage(msg: Message, controllerRotDiff: Triple)
      requires Valid()
      modifies right.Repr(), left.Repr()
      ensures (right.State(), left.State()) == Route(msg, controllerRotDiff, old(right.State()), old(left.State()))
    {
      if msg.id == 0.0 {
        right.SetInputValues(msg.translation, controllerRotDiff, msg.trackpad, msg.clicked, msg.trigger);
        left.SetRotDiffNone();
      } else if msg.id == 1.0 {
        left.SetInputValues(msg.translation, controllerRotDiff, msg.trackpad, msg.clicked, msg.trigger);
        right.SetRotDiffNone();
      }
    }

    /** The message in a pending buffer, parsed and routed. */
    method ConsumeMessage(parse: string -> ParseResult)
      requires Valid() && sharedRam[0] != Free
      modifies preControllerRot, right.Repr(), left.Repr()
      ensures State() == Consume(old(State()), parse)
    {
      var json := CString(sharedRam[..]);
      match parse(json)
      case ParseError =>
      case Parsed(msg) =>
        var controllerRotDiff: Triple :=
          [RotDelta(preControllerRot[0], msg.rotation[0]),
           RotDelta(preControllerRot[1], msg.rotation[1]),
           RotDelta(preControllerRot[2], msg.rotation[2])];
        forall i | 0 <= i < 3 {
          preControllerRot[i] := msg.rotation[i];
        }
        assert preControllerRot[..] == msg.rotation;
        RouteMessage(msg, controllerRotDiff);
    }

    /** The buffer handed back to the producer. */
    method Release()
      requires Valid()
      modifies sharedRam
      ensures State() == old(State()).(sharedRam := Released(old(sharedRam[..])))
    {
      sharedRam[1] := Nul;
      sharedRam[0] := Free;
    }

    /** The two rising-edge toggles. */
    method UpdateToggles(input: Input)
      requires Valid()
      modifies this`mouseIsLocked, this`mouseMidOnIsContinuing, this`rCtrlIsLocked, this`rCtrlOnIsCOntinuing
      ensures State() == Toggles(old(State()), input)
    {
      var mouseMidIsOn := input.mouseMid;
      if mouseMidIsOn && !mouseMidOnIsContinuing {
        mouseIsLocked := !mouseIsLocked;
      }
      mouseMidOnIsContinuing := mouseMidIsOn;
      var rCtrlIsOn := input.rControl;
      if rCtrlIsOn && !rCtrlOnIsCOntinuing {
        rCtrlIsLocked := !rCtrlIsLocked;
      }
      rCtrlOnIsCOntinuing := rCtrlIsOn;
    }

    /** The head's frame callback. */
    method RunHead(m: Trig, input: Input) returns (headPose: DriverPose)
      requires Valid()
      modifies head
      ensures State() == old(State()).(head := HeadStep(m, old(head.State()), mouseIsLocked, input))
      ensures headPose == HeadPose(m, head.State())
    {
      headPose := head.GetPose(m, mouseIsLocked, input);
    }

    /** The right, then the left controller's frame callback. */
    method RunControllers(m: Trig, input: Input) returns (rightFrame: ControllerFrame, leftFrame: ControllerFrame)
      requires Valid()
      modifies right, right.posCorrectionValues, left, left.posCorrectionValues
      ensures State() == old(State()).(right := ControllerStep(old(right.State()), input, head.frontDire),
                                       left := ControllerStep(old(left.State()), input, head.frontDire))
      ensures rightFrame == ControllerOutput(m, right.State(), 0, head.State(), input, rCtrlIsLocked)
      ensures leftFrame == ControllerOutput(m, left.State(), 1, head.State(), input, rCtrlIsLocked)
    {
      rightFrame := right.RunFrame(m, input, rCtrlIsLocked);
      leftFrame := left.RunFrame(m, input, rCtrlIsLocked);
    }

    /** The head, then the right and the left controller, each run once. */
    method Run(m: Trig, input: Input) returns (headPose: DriverPose, rightFrame: ControllerFrame,
                                               leftFrame: ControllerFrame)
      requires Valid()
      modifies head, right, right.posCorrectionValues, left, left.posCorrectionValues
      ensures State() == RunDevices(m, old(State()), input)
      ensures Frame(headPose, rightFrame, leftFrame)
           == Emitted(m, head.State(), right.State(), left.State(), input, rCtrlIsLocked)
    {
      headPose := RunHead(m, input);
      rightFrame, leftFrame := RunControllers(m, input);
    }

    /** Everything after the message: the devices, the buffer handed back
        if it held a message, then the toggles. */
    method FinishTick(m: Trig, input: Input, shramhasdata: bool) returns (f: Frame)
      requires Valid() && shramhasdata == (sharedRam[0] != Free)
      modifies Repr()
      ensures State() == Toggles(HandBack(RunDevices(m, old(State()), input)), input)
      ensures f == Emitted(m, head.State(), right.State(), left.State(), input, old(rCtrlIsLocked))
    {
      var headPose, rightFrame, leftFrame := Run(m, input);
      ghost var s1 := State();
      if shramhasdata {
        Release();
      }
      assert State() == HandBack(s1);
      UpdateToggles(input);
      f := Frame(headPose, rightFrame, leftFrame);
    }

    /** The server's frame callback: a pending message consumed, then the
        devices, the buffer handed back and the toggles.  The controllers
        report the tracking flag as it stood before the toggles ran. */
    method Tick(m: Trig, input: Input, parse: string -> ParseResult) returns (f: Frame)
      requires Valid()
      modifies Repr()
      ensures State() == Next(m, old(State()), input, parse)
      ensures f == Emitted(m, head.State(), right.State(), left.State(), input, old(rCtrlIsLocked))
    {
      ghost var s0 := State();
      var shramhasdata := sharedRam[0] != Free;
      if shramhasdata {
        ConsumeMessage(parse);
      }
      assert State() == Consume(s0, parse);
      f := FinishTick(m, input, shramhasdata);
    }
  }
}
