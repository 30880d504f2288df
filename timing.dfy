/**
 * The timing model: dot, dash and word-space durations, in seconds, derived
 * from the speed in words per minute. A zero speed divides by zero in the
 * encoder, so it is excluded; a negative one is allowed and gives negative
 * durations.
 */
module Timing {

  /** Length of a dot tone and of the gap between the symbols of one character. */
  function DotTime(wpm: real): (t: real)
    requires wpm != 0.0
    ensures t * wpm == 1.2
  {
    1.2 / wpm
  }

  /** Length of a dash tone and of the gap after the last symbol of a character. */
  function DashTime(wpm: real): (t: real)
    requires wpm != 0.0
    ensures t * wpm == 3.6
    ensures t == 3.0 * DotTime(wpm)
  {
    3.6 / wpm
  }

  /** Length of the silence for a word space. */
  function SpaceTime(wpm: real): (t: real)
    requires wpm != 0.0
    ensures t * wpm == 12.0
    ensures t == 10.0 * DotTime(wpm)
  {
    12.0 / wpm
  }

  /** Doubling the speed halves all three durations. */
  lemma DoublingSpeedHalvesTimes(wpm: real)
    requires wpm != 0.0
    ensures DotTime(2.0 * wpm) == DotTime(wpm) / 2.0
    ensures DashTime(2.0 * wpm) == DashTime(wpm) / 2.0
    ensures SpaceTime(2.0 * wpm) == SpaceTime(wpm) / 2.0
  {
  }

  /** At a positive speed every duration is positive and they are ordered dot < dash < space. */
  lemma PositiveSpeedOrdersTimes(wpm: real)
    requires wpm > 0.0
    ensures 0.0 < DotTime(wpm) < DashTime(wpm) < SpaceTime(wpm)
  {
  }
}
