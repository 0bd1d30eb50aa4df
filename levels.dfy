/**
 * The rescale from the recorder's average power (a decibel-like reading whose useful
 * range is [-80, 0]) to the displayed level on a 0..120 scale, as computed at the start
 * of `updateDecibels`.
 */
module Levels {

  /** Floor of the assumed metering range (`minDecibels`). */
  const MinDecibels: real := -80.0
  /** Ceiling of the assumed metering range (`maxDecibels`). */
  const MaxDecibels: real := 0.0
  /** Top of the display scale. */
  const DisplayTop: real := 120.0

  function Max(a: real, b: real): real { if a >= b then a else b }

  /** The reading after the floor clamp: `max(minDecibels, averagePower)`. */
  function ScaledPower(averagePower: real): (s: real)
    ensures s >= MinDecibels && s >= averagePower
    ensures s == MinDecibels || s == averagePower
  {
    Max(MinDecibels, averagePower)
  }

  /**
   * The linear map of the clamped reading, before the filter on negative values:
   * (scaled - MinDecibels) / (MaxDecibels - MinDecibels) * DisplayTop, with the three
   * constants written out so that the map stays linear for the solver.
   */
  function Rescaled(averagePower: real): real
  {
    (ScaledPower(averagePower) - (-80.0)) / (0.0 - (-80.0)) * 120.0
  }

  /**
   * The level a tick publishes: the rescaled value, set to 0 when it is negative.
   * Silence (anything at or below the floor) reads 0, the ceiling reads 120, and
   * there is no upper clamp.
   */
  function Level(averagePower: real): (r: real)
    ensures r >= 0.0
    ensures r == 0.0 <==> averagePower <= MinDecibels
    ensures averagePower <= MaxDecibels ==> r <= DisplayTop
    ensures averagePower > MaxDecibels ==> r > DisplayTop
  {
    var v := Rescaled(averagePower);
    if v < 0.0 then 0.0 else v
  }

  /** The filter on negative values never fires: the clamp before the map already rules them out. */
  lemma NegativeFilterInactive(averagePower: real)
    ensures Rescaled(averagePower) >= 0.0
    ensures Level(averagePower) == Rescaled(averagePower)
  {
  }

  /** Above the floor the level is affine in the reading: 1.5 display units per decibel. */
  lemma LevelAffine(averagePower: real)
    ensures Level(averagePower) == (Max(MinDecibels, averagePower) + 80.0) / 80.0 * 120.0
    ensures averagePower >= MinDecibels ==> Level(averagePower) == (averagePower + 80.0) * 1.5
  {
  }

  /** The worked values: -90 and -80 read 0, -20 reads 90, 0 reads 120, 5 reads 127.5. */
  lemma LevelExamples()
    ensures Level(-90.0) == 0.0 && Level(-80.0) == 0.0
    ensures Level(-20.0) == 90.0
    ensures Level(0.0) == 120.0
    ensures Level(5.0) == 127.5
  {
  }

  /** A louder reading never gives a lower level; above the floor it gives a strictly higher one. */
  lemma LevelMonotone(p1: real, p2: real)
    requires p1 <= p2
    ensures Level(p1) <= Level(p2)
    ensures MinDecibels <= p1 < p2 ==> Level(p1) < Level(p2)
  {
  }

  /** The reading that a level stands for, when it is read back off the display scale. */
  function PowerFor(level: real): (p: real)
    requires level >= 0.0
    ensures p >= MinDecibels
    ensures level <= DisplayTop ==> p <= MaxDecibels
  {
    level / 1.5 + MinDecibels
  }

  /** On readings at or above the floor, `Level` and `PowerFor` are inverse to each other. */
  lemma LevelRoundTrip(averagePower: real, level: real)
    ensures averagePower >= MinDecibels ==> PowerFor(Level(averagePower)) == averagePower
    ensures level >= 0.0 ==> Level(PowerFor(level)) == level
  {
  }
}
