/** The per-axis rotation delta the server derives from two consecutive
    absolute rotation samples: `fmod(cur - prev, 90.0) / 360.0`, with C's
    `fmod`, whose quotient is truncated toward zero so that the remainder
    keeps the sign of the dividend. */
module RotationDelta {
  import opened Types

  /** Truncation toward zero, as C converts a quotient to an integer. */
  function Trunc(q: real): (t: int)
    ensures 0.0 <= q ==> t as real <= q < t as real + 1.0
    ensures q <= 0.0 ==> t as real - 1.0 < q <= t as real
  {
    if q >= 0.0 then q.Floor else -((-q).Floor)
  }

  ghost predicate IsMultipleOf90(a: real) {
    (a / 90.0).Floor as real == a / 90.0
  }

  /** C's `fmod(a, 90.0)`. */
  function FMod90(a: real): (r: real)
    ensures -90.0 < r < 90.0
    ensures 0.0 <= a ==> 0.0 <= r
    ensures a <= 0.0 ==> r <= 0.0
    ensures IsMultipleOf90(a - r)
    ensures -90.0 < a < 90.0 ==> r == a
  {
    var t := Trunc(a / 90.0);
    assert (a - (a - t as real * 90.0)) / 90.0 == t as real;
    a - t as real * 90.0
  }

  /** The rotation delta of one axis. */
  function RotDelta(prev: real, cur: real): (d: real)
    ensures prev == cur ==> d == 0.0
    ensures -0.25 < d < 0.25
    ensures prev <= cur ==> 0.0 <= d
    ensures cur <= prev ==> d <= 0.0
    ensures -90.0 < cur - prev < 90.0 ==> d == (cur - prev) / 360.0
  {
    FMod90(cur - prev) / 360.0
  }

  /** The deltas of all three axes. */
  function RotDeltas(prev: Triple, cur: Triple): (d: Triple)
    ensures forall i :: 0 <= i < 3 ==> d[i] == RotDelta(prev[i], cur[i])
    ensures prev == cur ==> d == Zero3
    ensures forall i :: 0 <= i < 3 ==> -0.25 < d[i] < 0.25
  {
    [RotDelta(prev[0], cur[0]), RotDelta(prev[1], cur[1]), RotDelta(prev[2], cur[2])]
  }

  /** The floor moves by whole steps: the key fact behind periodicity. */
  lemma FloorShift(q: real, k: int)
    ensures (q + k as real).Floor == q.Floor + k
  {
    var f := q.Floor;
    assert f as real + k as real <= q + k as real < f as real + k as real + 1.0;
  }

  /** Adding any number of whole periods to a non-negative dividend keeps
      `fmod` unchanged ... */
  lemma FModShiftUp(a: real, k: nat)
    requires 0.0 <= a
    ensures FMod90(a + k as real * 90.0) == FMod90(a)
  {
    assert (a + k as real * 90.0) / 90.0 == a / 90.0 + k as real;
    FloorShift(a / 90.0, k);
  }

  /** ... and so does subtracting them from a non-positive one. */
  lemma FModShiftDown(a: real, k: nat)
    requires a <= 0.0
    ensures FMod90(a - k as real * 90.0) == FMod90(a)
  {
    assert (-(a - k as real * 90.0)) / 90.0 == -a / 90.0 + k as real;
    FloorShift(-a / 90.0, k);
  }

  /** The delta is periodic in the current sample as long as the shift does
      not change the sign of the difference. */
  lemma RotDeltaPeriodic(prev: real, cur: real, k: nat)
    requires prev <= cur
    ensures RotDelta(prev, cur + k as real * 90.0) == RotDelta(prev, cur)
  {
    FModShiftUp(cur - prev, k);
    assert cur + k as real * 90.0 - prev == (cur - prev) + k as real * 90.0;
  }

  /** It is not periodic in general: moving the previous sample up by one
      period turns a delta of 10/360 into one of -80/360. */
  lemma RotDeltaNotPeriodicAcrossZero()
    ensures RotDelta(0.0, 10.0) == 10.0 / 360.0
    ensures RotDelta(90.0, 10.0) == -80.0 / 360.0
    ensures RotDelta(0.0, 10.0) != RotDelta(0.0 + 90.0, 10.0)
  {
  }

  /** Two samples 9 degrees apart advance the accumulated angle by 9/360. */
  lemma RotDeltaOfNineDegrees()
    ensures RotDelta(10.0, 19.0) == 9.0 / 360.0
  {
  }
}
