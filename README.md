# VRDriverForDesktop: a verified model of the driver's per-tick state machine

VRDriverForDesktop is an OpenVR driver that turns a desktop into a "VR
headset". Keyboard and mouse drive a virtual head-mounted display (HMD). Two
virtual hand controllers are fed by a companion program, which writes one
JSON pose message at a time into a shared-memory buffer. This project models
`Driver/src/driver.cpp`, the driver's core, in Dafny. It follows the shape of
the C++ code:

- **Server** (`server.dfy`, class `ServerDriver`). This is the server's frame
  callback (`CServerDriver_ForDesktop::RunFrame`). `Tick` runs one frame:
  1. If byte 0 of the shared buffer is not `'x'`, it parses the
     NUL-terminated text.
  2. It turns the message's absolute rotation into a per-axis delta,
     `fmod(cur - prev, 90) / 360`, using C's truncating `fmod`.
  3. It remembers the sample in `preControllerRot`.
  4. It routes the message by `id`: 0 goes to the right controller and 1 to
     the left. The other controller's rotation delta is cleared. Any other id
     reaches neither controller.
  5. It runs the head, then both controllers.
  6. If byte 0 was not `'x'` at the start of the tick (whether or not the
     text parsed), it hands the buffer back by writing `'\0'` at position 1
     and then `'x'` at position 0.
  7. It updates two rising-edge toggles: the cursor lock (middle mouse
     button) and controller tracking (right Ctrl).

  The pure function `Next` specifies the tick. It is built from the phases
  `Consume`, `RunDevices`, `HandBack` and `Toggles`. `Tick` is proved to
  compute `Next`. The lemmas about `Next` and about `Ticks` (many ticks in a
  row) state the driver's promises.
- **Head** (`head.dfy`, class `DeviceDriver`). This is the HMD's pose callback.
  - While the cursor is locked, the cursor offset turns pitch and roll.
  - END resets yaw and captures the front direction.
  - The arrow keys move along and across the pitch. PRIOR and NEXT move up
    and down.
  - HOME zeroes the position.
  - The pose carries the yaw/pitch/roll quaternion.

  The method `GetPose` is proved against `HeadStep` and `HeadPose`.
- **Controller** (`controller.dfy`, class `ControllerDriver`). These are the
  controller callbacks.
  - `setInputValues` and `setRotDiffNone` store message values in the
    controller's arrays.
  - `GetPose` applies HOME (position correction and angle reset) and END
    (angle reset). It places the corrected position with its fixed offset in
    the head's frame, and accumulates the stored delta into the angles.
  - `RunFrame` also reports buttons (Z and X), trackpad touch and click, and
    the trigger.

  Each method is proved against a pure function (`Receive`, `WithoutRotDiff`,
  `ControllerStep`, `ControllerPose`, `ControllerOutput`).
- **Supporting modules**:
  - `types.dfy`: message, parse result and the per-tick input record.
  - `geometry.dfy`: the quaternion formulas, a Hamilton-product reference for
    them, and the placement in the head frame.
  - `rotation_delta.dfy`: C `fmod` and the rotation delta.
  - `edge_toggle.dfy`: the rising-edge toggle.
  - `shared_buffer.dfy`: the consumer side of the buffer handshake.

Cosine and sine are passed in as a `Trig` record of functions. The facts
used about them are cos 0 = 1 and sin 0 = 0 (`TrigOk`), and, in
`PlacementKeepsHorizontalDistance` only, cos² + sin² = 1 at the front
direction, taken as a hypothesis of that lemma. The keyboard, mouse
and cursor state read during a tick is passed in as an `Input` record. The
JSON parser is a parameter `parse` applied to the buffer's C string.
Arithmetic is on exact reals.

Four behaviours of the code are easy to misread. The model follows the code:

- **One quaternion formula, not two.** The head formula (`driver.cpp:414-426`)
  and the controller formula (`driver.cpp:629-640`) are written with
  different term orders and variable names. They are the same composition:
  a rotation about z by yaw, then about y by pitch, then about x by roll
  (`HeadAndControllerRotationAgree`, `ControllerRotationIsComposition`).
- **The rotation delta is not periodic in general** under a 90° shift of a
  sample. C's `fmod` keeps the sign of the dividend. The delta is periodic
  when the current sample moves up by whole periods and the difference stays
  non-negative (`RotDeltaPeriodic`). It is not periodic in general
  (`RotDeltaNotPeriodicAcrossZero`).
- **HOME does not put a controller at zero.** It gives the controller the
  fixed local offset (0.2·(1 − 2·index), −0.3, −0.3) (`HomeRecentresOffset`).
  That offset is turned by the head's front direction before the head's
  position is added (`PlaceInHeadFrame`).
- **The tracking flag shows one tick late.** The poses report the tracking
  flag from before this tick's right-Ctrl check, because the toggles run
  after the devices (`TrackingToggleShowsNextTick`).

## Model

| member | source | states |
|---|---|---|
| Geometry.HeadRotation | Driver/src/driver.cpp:413-426 | the head quaternion from yaw, pitch and roll half-angles; it is the identity when all three angles are zero |
| Geometry.ControllerRotation | Driver/src/driver.cpp:627-640 | the controller quaternion from roll, pitch and yaw half-angles; it is the identity when all three angles are zero |
| Geometry.HeadTermsAreProduct | Driver/src/driver.cpp:422-426 | the head's four quaternion terms equal the Hamilton product (about z) × (about y) × (about x) of the half-angle rotations |
| Geometry.TermsAgree | Driver/src/driver.cpp:636-640 | the controller's terms are, reordered, the head's terms with yaw, roll and pitch in the same roles |
| Geometry.HeadRotationIsComposition | Driver/src/driver.cpp:413-426 | the head orientation is yaw about z, then pitch about y, then roll about x |
| Geometry.HeadAndControllerRotationAgree | Driver/src/driver.cpp:627-640 | for every angle triple, the controller formula gives the same quaternion as the head formula (lines 413-426) |
| Geometry.ControllerRotationIsComposition | Driver/src/driver.cpp:627-640 | the controller orientation is the same z-y-x composition as the head's |
| Geometry.PlaceInHeadFrame | Driver/src/driver.cpp:619-621 | the world position of a local offset: the vertical coordinate is offset y plus head y; with front direction 0 the position is offset plus head position |
| Geometry.PlacementKeepsHorizontalDistance | Driver/src/driver.cpp:619-621 | when cos² + sin² = 1, the turn keeps the horizontal distance from the head |
| RotationDelta.Trunc | Driver/src/driver.cpp:831-836 | truncation toward zero: it lies within 1 of its argument, on the zero side |
| RotationDelta.FMod90 | Driver/src/driver.cpp:831-836 | C `fmod(a, 90)`: the result lies strictly between -90 and 90, has the sign of `a`, differs from `a` by a multiple of 90, and equals `a` when `a` is already in range |
| RotationDelta.RotDelta | Driver/src/driver.cpp:831-836 | the delta is 0 for equal samples and lies strictly between -1/4 and 1/4; it has the sign of the difference; it is (cur − prev)/360 when the difference is within ±90 |
| RotationDelta.RotDeltas | Driver/src/driver.cpp:831-836 | per-axis deltas of two samples: the delta of each axis is zero for equal samples and bounded by ±1/4 |
| RotationDelta.FModShiftUp | Driver/src/driver.cpp:831-836 | adding whole periods of 90 to a non-negative dividend leaves `fmod` unchanged |
| RotationDelta.FModShiftDown | Driver/src/driver.cpp:831-836 | subtracting whole periods from a non-positive dividend leaves `fmod` unchanged |
| RotationDelta.RotDeltaPeriodic | Driver/src/driver.cpp:831-836 | shifting the current sample by k·90 leaves the delta unchanged while the difference stays non-negative |
| RotationDelta.RotDeltaNotPeriodicAcrossZero | Driver/src/driver.cpp:831-836 | shifting the previous sample by 90 changes a delta of 10/360 into -80/360 |
| RotationDelta.RotDeltaOfNineDegrees | Driver/src/driver.cpp:831-836 | samples 9 degrees apart give a delta of 9/360 |
| EdgeToggle.Run | Driver/src/driver.cpp:880-884 | the toggle after a sequence of ticks: unchanged after none, and the latch holds the last input (the flips are counted in `FlipsOncePerRisingEdge`) |
| EdgeToggle.Step | Driver/src/driver.cpp:879-884 | the mode flips if and only if the input is on and was not on the previous tick; the latch takes the input |
| EdgeToggle.FlipsOncePerRisingEdge | Driver/src/driver.cpp:879-884 | after any input history, the mode has flipped once per rising edge (parity), and the latch holds the last input |
| EdgeToggle.HeldHasNoRisingEdge | Driver/src/driver.cpp:879-884 | an input held throughout, after it was already held, has no rising edge |
| EdgeToggle.HeldInputFlipsOnce | Driver/src/driver.cpp:879-884 | holding an input for n ≥ 1 ticks, starting released, flips the mode exactly once |
| EdgeToggle.HeldForThreeTicks | Driver/src/driver.cpp:879-884 | held for three ticks, the mode flips after the first tick and stays flipped after the second and third |
| SharedBuffer.CString | Driver/src/driver.cpp:810 | the text up to the first NUL is a prefix of the buffer with no NUL in it, followed by a NUL or the buffer's end |
| SharedBuffer.Released | Driver/src/driver.cpp:863-867 | the handed-back buffer keeps its length, is free, has a NUL at 1 and the rest unchanged; its text is "x" |
| SharedBuffer.AfterTick | Driver/src/driver.cpp:863-867 | at the end of a tick the buffer is free; a pending buffer is released, a free one is untouched |
| SharedBuffer.AfterTickIdempotent | Driver/src/driver.cpp:863-867 | handing back twice is handing back once |
| Head.Aim | Driver/src/driver.cpp:361-366 | only pitch and roll change; while the cursor is locked they grow by the cursor offset × 0.01; otherwise nothing changes |
| Head.Centre | Driver/src/driver.cpp:368-373 | END sets yaw to 0 and the front direction to the pitch; only those two fields change; without END nothing changes |
| Head.Move | Driver/src/driver.cpp:378-401 | a held key moves the position by the given step; only the position changes; a released key changes nothing |
| Head.MoveLevel | Driver/src/driver.cpp:378-394 | the arrow keys change only x and z; no arrow key changes nothing; UP alone moves by −0.01·(sin, cos) of the pitch; opposite keys held together cancel |
| Head.MoveAll | Driver/src/driver.cpp:378-401 | only the position changes; x and z are those of the arrow keys; y changes by +0.01 for PRIOR and −0.01 for NEXT |
| Head.Home | Driver/src/driver.cpp:403-407 | HOME sets the position to the origin and changes nothing else; without HOME nothing changes |
| Head.HeadStep | Driver/src/driver.cpp:361-407 | yaw only ever resets to 0; END sets yaw 0 and front direction := new pitch, otherwise both are unchanged; a locked cursor adds its offset × 0.01 to pitch and roll, otherwise they are unchanged; HOME zeroes the position; otherwise y moves by ±0.01 for PRIOR/NEXT, and without arrow keys x and z are unchanged |
| Head.HeadPose | Driver/src/driver.cpp:349-428 | the head pose is valid, running and connected, with identity frame rotations, the head's position, the rotation `HeadRotation` of the head's yaw, pitch and roll, and the identity rotation at zero angles |
| Head.HomeReportsOrigin | Driver/src/driver.cpp:403-411 | with HOME held, the reported head position is the origin, whatever else is held |
| Head.DeviceDriver.constructor | Driver/src/driver.cpp:444 | angles start at 0; position and front direction are given |
| Head.DeviceDriver.MoveAlongPitch | Driver/src/driver.cpp:378-394 | the arrow keys update x and z in place exactly as `MoveLevel` |
| Head.DeviceDriver.TurnAndCentre | Driver/src/driver.cpp:361-373 | the cursor and END update the angles and front direction in place exactly as `Aim` then `Centre` |
| Head.DeviceDriver.GetPose | Driver/src/driver.cpp:349-428 | the new head state is `HeadStep` of the old one and the returned pose is `HeadPose` of the new state |
| Controller.Receive | Driver/src/driver.cpp:691-703 | raw position, delta, trackpad, click and trigger take the message's values; the angles and the correction are unchanged |
| Controller.LastMessageWins | Driver/src/driver.cpp:691-703 | a second message overwrites everything the first one stored |
| Controller.WithoutRotDiff | Driver/src/driver.cpp:705-707 | the delta becomes zero, so accumulating no longer turns the controller; nothing else changes |
| Controller.Recentre | Driver/src/driver.cpp:604-612 | after HOME or END the angles are (0, head front, 0); without either nothing changes; only HOME sets the correction to the raw position; message values are untouched |
| Controller.Accumulate | Driver/src/driver.cpp:623-625 | each angle grows by its stored delta; nothing else changes |
| Controller.ControllerStep | Driver/src/driver.cpp:602-625 | after HOME or END the angles are (Δroll, head front + Δpitch, Δyaw); otherwise each angle grows by its stored delta; only HOME sets the correction to the raw position; message values are unchanged |
| Controller.LocalOffset | Driver/src/driver.cpp:614-617 | when the correction equals the raw position, the offset is (0.2·(1 − 2·index), −0.3, −0.3) |
| Controller.HomeRecentresOffset | Driver/src/driver.cpp:604-617 | after HOME the local offset is the fixed offset for the controller's index |
| Controller.ControllerPose | Driver/src/driver.cpp:585-642 | validity equals the tracking flag; the result is out-of-range if and only if tracking is off; connected; identity frame rotations; vertical position = offset y + head y; with front direction 0 the position is offset + head position; the rotation is the identity at zero angles |
| Controller.TrackTouch | Driver/src/driver.cpp:657-660 | the trackpad is touched if and only if it is off centre |
| Controller.TriggerOn | Driver/src/driver.cpp:668 | the trigger is on exactly when its value is positive; on implies a non-zero value |
| Controller.ControllerOutput | Driver/src/driver.cpp:645-674 | A and B are the Z and X keys; touch iff the trackpad is off centre; the click, axes and trigger value pass through; trigger on iff its value is > 0; pose validity is the tracking flag |
| Controller.ControllerDriver.constructor | Driver/src/driver.cpp:713-721 | a controller with the given index and head, every value zero and not clicked |
| Controller.ControllerDriver.SetInputValues | Driver/src/driver.cpp:691-703 | raw position, rotation delta, trackpad, click and trigger are replaced by the arguments, nothing else changes |
| Controller.ControllerDriver.SetRotDiffNone | Driver/src/driver.cpp:705-707 | only the rotation delta changes, to zero |
| Controller.ControllerDriver.CaptureCorrection | Driver/src/driver.cpp:605 | the correction becomes a copy of the raw position |
| Controller.ControllerDriver.Recalibrate | Driver/src/driver.cpp:602-612 | HOME and END update correction and angles in place exactly as `Recentre` |
| Controller.ControllerDriver.Turn | Driver/src/driver.cpp:623-625 | the angles grow by the stored delta, exactly as `Accumulate` |
| Controller.ControllerDriver.Place | Driver/src/driver.cpp:614-621 | the reported position is the local offset placed in the head frame |
| Controller.ControllerDriver.GetPose | Driver/src/driver.cpp:585-642 | the new controller state is `ControllerStep` of the old one, and the pose is `ControllerPose` of the new state |
| Controller.ControllerDriver.RunFrame | Driver/src/driver.cpp:645-674 | the new state is `ControllerStep` of the old one, and the reported components are `ControllerOutput` of the new state |
| Server.Route | Driver/src/driver.cpp:839-849 | id 0: the right controller holds the message and delta, the left keeps its values with a zero delta; id 1 is the mirror image; any other id changes neither; the angles and correction of both are never changed |
| Server.Consume | Driver/src/driver.cpp:805-851 | consuming a message leaves the head, the buffer and both toggles untouched |
| Server.RunDevices | Driver/src/driver.cpp:853-861 | the head takes `HeadStep` with the current cursor lock, both controllers `ControllerStep` with the head's new front direction; buffer, sample and toggles are unchanged |
| Server.HandBack | Driver/src/driver.cpp:863-867 | the buffer keeps its length and is free afterwards; a pending one gets a NUL at 1 with the rest unchanged, a free one is untouched; nothing else changes |
| Server.Toggles | Driver/src/driver.cpp:880-896 | each toggle flips exactly on a rising edge of its input and latches the input; nothing else changes |
| Server.Next | Driver/src/driver.cpp:805-897 | one tick keeps the buffer's length |
| Server.Emitted | Driver/src/driver.cpp:854-861 | the head pose is valid at the head's position; both controller poses carry the tracking flag and are at offset y + head y vertically |
| Server.ConsumerHandshake | Driver/src/driver.cpp:806-867 | after every tick the buffer is free; a pending buffer has its NUL at 1 and the rest unchanged, whether or not it parsed; a free buffer is untouched and no controller input or sample changes |
| Server.TogglesFlipOnRisingEdge | Driver/src/driver.cpp:879-896 | each toggle flips if and only if its input is on and was not on before; each latch takes its input |
| Server.DevicesUseStateBeforeToggles | Driver/src/driver.cpp:853-896 | the head runs with the cursor lock from before this tick's toggles; the controllers run with the head's new front direction |
| Server.RoutesById | Driver/src/driver.cpp:831-850 | id 0: the right controller gets the message and the delta, and the left loses its delta; id 1 is the mirror image; any other id changes neither; the sample is remembered in every case |
| Server.NoMessageKeepsDeltas | Driver/src/driver.cpp:807-850 | without a parsed message, sample and controller inputs are kept, and each controller turns once more by its stored delta (lines 623-625) unless HOME or END is held |
| Server.TrackingToggleShowsNextTick | Driver/src/driver.cpp:892-896 | on a right-Ctrl rising edge, this tick's controller validity (line 587) differs from the new tracking flag |
| Server.Ticks | Driver/src/driver.cpp:805-897 | any number of ticks keeps the buffer's length |
| Server.TicksRunMouseToggle | Driver/src/driver.cpp:880-884 | over any input history, the cursor lock equals the edge check run on the middle button's inputs |
| Server.TicksRunTrackingToggle | Driver/src/driver.cpp:892-896 | over any input history, the tracking flag equals the edge check run on right Ctrl's inputs |
| Server.HoldingMiddleButtonFlipsOnce | Driver/src/driver.cpp:879-884 | holding the middle button for n ≥ 1 ticks from released flips the cursor lock exactly once |
| Server.HoldingRightCtrlFlipsOnce | Driver/src/driver.cpp:892-896 | holding right Ctrl for n ≥ 1 ticks from released flips tracking exactly once |
| Server.DeltasKeepTurning | Driver/src/driver.cpp:623-625 | starting from a free buffer (line 807), with no calibration key, after n ticks each controller has turned by n times its stored delta |
| Server.ServerDriver.constructor | Driver/src/driver.cpp:767-793 | head, controllers and buffers created fresh, with their initial states, over the given buffer; no previous sample; cursor unlocked and tracking on, as the globals at lines 136-140 start |
| Server.ServerDriver.RouteMessage | Driver/src/driver.cpp:839-850 | both controllers' new states are `Route` of their old states |
| Server.ServerDriver.ConsumeMessage | Driver/src/driver.cpp:808-851 | the new server state is `Consume` of the old one |
| Server.ServerDriver.Release | Driver/src/driver.cpp:863-867 | only the buffer changes, to `Released` of its old contents |
| Server.ServerDriver.UpdateToggles | Driver/src/driver.cpp:879-896 | the new state is `Toggles` of the old one |
| Server.ServerDriver.RunHead | Driver/src/driver.cpp:853-855 | only the head changes, by `HeadStep` with the current cursor lock |
| Server.ServerDriver.RunControllers | Driver/src/driver.cpp:856-861 | only the controllers change, each by `ControllerStep` with the head's front direction |
| Server.ServerDriver.Run | Driver/src/driver.cpp:853-861 | the new state is `RunDevices` of the old one, and the frame is `Emitted` |
| Server.ServerDriver.FinishTick | Driver/src/driver.cpp:853-897 | devices, hand-back and toggles, as `Toggles(HandBack(RunDevices(...)))` |
| Server.ServerDriver.Tick | Driver/src/driver.cpp:805-897 | the new server state is `Next` of the old one, and the frame is `Emitted` with the tracking flag from before the tick |

## Left out

- The watchdog driver and all OpenVR registration and plumbing (`Activate`,
  property containers, display component, serial numbers, logging) are
  left out. They hold no state the tick logic depends on, except the
  head's object id (see below).
- The calling host is not modelled:
  - the `RunFrame` callbacks of the head and controllers only hand the pose
    to the runtime, and the runtime's side of that is not modelled;
  - the event polling loop and `ProcessEvent` (haptics log only) are left
    out;
  - so is re-centring the cursor with `SetCursorPos` while it is locked.
- The operating-system input is not read by the model.
  - `GetAsyncKeyState`, `GetCursorPos` and `GetSystemMetrics` become the
    `Input` record, which holds the key states and the cursor offset from
    the screen centre.
  - Each key is read once per tick. The source polls HOME and END
    separately in the head and in each controller.
- SharedBuffer.CString: a buffer that holds no NUL is taken as the whole
  buffer. In the source (`driver.cpp:810`), the `std::string` constructor
  then reads past the end of the mapped region, which is undefined
  behaviour. The region's size is set in `ShareMem.h`, which is not part of
  this model.
- JSON parsing (picojson and the `GetDoubleValue`, `GetDoubleArry` and
  `GetBoolValue` helpers) is the `parse` parameter. A missing field is not
  modelled: the helpers are not part of this model, so a parsed message is
  taken to carry every field.
- The producer side of the buffer (`ClientApp/src/client.cpp`, the socket
  loop and `comm.print`) and the shared-memory mapping are not part of this
  model. The buffer is an `array<char>` owned by the server.
- Floating point is left out:
  - arithmetic is on exact reals, without IEEE rounding or infinities;
  - `cos` and `sin` are uninterpreted apart from their values at 0.
- `Head.DeviceDriver.GetPose` is modelled as if the head is always active: the
  head's `RunFrame` check that the object id is valid is not modelled.
- `Server.ServerDriver.constructor` models the evidently intended wiring of
  `Init`. It does not model what `driver.cpp:780` does: it calls `setHead` on
  the still-null left controller, so the right controller never gets its
  head. `Cleanup` (`driver.cpp:795-803`), which deletes the right controller
  twice and never the left, is also not modelled.
- The head's position and front direction are uninitialised in the source
  (`driver.cpp:444`). `Head.DeviceDriver.constructor` takes them as
  parameters.
- `rawRotValues` (`driver.cpp:717`) is never written or read, so it is
  omitted.
- The cursor-lock and tracking globals (`driver.cpp:136-140`) are fields of
  `ServerDriver`. The head's pose runs with the cursor lock and the
  controllers' poses with the tracking flag, both as they stand during the
  tick.
