/** Value types shared by every part of the driver model: the fixed-size
    number arrays of the wire message, the decoded message itself, and the
    per-tick record of host input signals. */
module Types {

  /** A C array `double[3]` (translation, rotation, correction, delta). */
  type Triple = s: seq<real> | |s| == 3 witness [0.0, 0.0, 0.0]

  /** A C array `double[2]` (trackpad axes). */
  type Pair = s: seq<real> | |s| == 2 witness [0.0, 0.0]

  const Zero3: Triple := [0.0, 0.0, 0.0]
  const Zero2: Pair := [0.0, 0.0]

  /** One decoded pose message. `id` is read as a double, so any number may
      arrive; only 0.0 and 1.0 select a controller. */
  datatype Message = Message(
    id: real,
    translation: Triple,
    rotation: Triple,
    trackpad: Pair,
    clicked: bool,
    trigger: real)

  /** Outcome of the JSON parser on the text held in the shared buffer. */
  datatype ParseResult = ParseError | Parsed(msg: Message)

  /** The keyboard and mouse state polled during one tick.  `cursorDx` is
      half the screen width minus the cursor's x coordinate, `cursorDy` half
      the screen height minus its y coordinate (both only read while the
      cursor is locked).  Z and X are the controllers' A and B buttons. */
  datatype Input = Input(
    keyEnd: bool,
    keyHome: bool,
    keyUp: bool,
    keyDown: bool,
    keyLeft: bool,
    keyRight: bool,
    keyPrior: bool,
    keyNext: bool,
    keyZ: bool,
    keyX: bool,
    mouseMid: bool,
    rControl: bool,
    cursorDx: real,
    cursorDy: real)
}
