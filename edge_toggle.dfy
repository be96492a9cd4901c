/** A boolean mode flipped on the rising edge of a held input, with the
    latch that remembers whether the input was already held on the previous
    tick.  The server keeps two of these: cursor lock (middle mouse button)
    and controller tracking (right Ctrl). */
module EdgeToggle {

  datatype Toggle = Toggle(isLocked: bool, onIsContinuing: bool)

  /** One tick of the edge check with the input's current value `on`. */
  function Step(t: Toggle, on: bool): (r: Toggle)
    ensures r.onIsContinuing == on
    ensures r.isLocked != t.isLocked <==> on && !t.onIsContinuing
  {
    Toggle(if on && !t.onIsContinuing then !t.isLocked else t.isLocked, on)
  }

  /** The toggle after a sequence of ticks. */
  function Run(t: Toggle, ons: seq<bool>): (r: Toggle)
    ensures ons == [] ==> r == t
    ensures ons != [] ==> r.onIsContinuing == ons[|ons| - 1]
    decreases |ons|
  {
    if ons == [] then t else Run(Step(t, ons[0]), ons[1..])
  }

  /** Number of ticks whose input is held while it was not held before. */
  function RisingEdges(prev: bool, ons: seq<bool>): nat
    decreases |ons|
  {
    if ons == [] then 0
    else (if ons[0] && !prev then 1 else 0) + RisingEdges(ons[0], ons[1..])
  }

  /** The mode has flipped once per rising edge, and the latch holds the
      last input. */
  lemma {:induction false} FlipsOncePerRisingEdge(t: Toggle, ons: seq<bool>)
    ensures Run(t, ons).isLocked
         == (t.isLocked != (RisingEdges(t.onIsContinuing, ons) % 2 == 1))
    ensures Run(t, ons).onIsContinuing == if ons == [] then t.onIsContinuing else ons[|ons| - 1]
    decreases |ons|
  {
    if ons != [] {
      FlipsOncePerRisingEdge(Step(t, ons[0]), ons[1..]);
      if |ons| > 1 {
        assert ons[1..][|ons[1..]| - 1] == ons[|ons| - 1];
      }
    }
  }

  /** An input held on every tick after a tick where it was already held
      has no rising edge. */
  lemma {:induction false} HeldHasNoRisingEdge(ons: seq<bool>)
    requires forall i :: 0 <= i < |ons| ==> ons[i]
    ensures RisingEdges(true, ons) == 0
    decreases |ons|
  {
    if ons != [] {
      HeldHasNoRisingEdge(ons[1..]);
    }
  }

  /** Holding the input for n >= 1 ticks, starting released, flips the mode
      exactly once. */
  lemma HeldInputFlipsOnce(t: Toggle, ons: seq<bool>)
    requires !t.onIsContinuing
    requires |ons| >= 1 && forall i :: 0 <= i < |ons| ==> ons[i]
    ensures Run(t, ons) == Toggle(!t.isLocked, true)
  {
    HeldHasNoRisingEdge(ons[1..]);
    assert RisingEdges(false, ons) == 1;
    FlipsOncePerRisingEdge(t, ons);
  }

  /** Holding for three ticks: flipped after the first and unchanged after
      the second and third. */
  lemma HeldForThreeTicks(t: Toggle)
    requires !t.onIsContinuing
    ensures Step(t, true).isLocked == !t.isLocked
    ensures Step(Step(t, true), true).isLocked == !t.isLocked
    ensures Step(Step(Step(t, true), true), true) == Toggle(!t.isLocked, true)
  {
  }
}
