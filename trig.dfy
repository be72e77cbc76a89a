/** The watch SDK's fixed-point trigonometry, as far as the engine relies on it.
    A full turn is TRIG_MAX_ANGLE; sine and cosine are scaled by TRIG_MAX_RATIO.
    The lookup tables themselves belong to the SDK: the model takes them as
    function values. It assumes their ranges (`RatiosInRange`) and, at the
    Kaaba latitude, the bounds `Bearing.KaabaBelow45` and, for a 32-bit
    `long`, `Bearing.KaabaTanBelowHalf`. */
module Trig {

  const TRIG_MAX_ANGLE: int := 0x10000
  const TRIG_MAX_RATIO: int := 0xffff

  /** The SDK's `sin_lookup`, `cos_lookup` and `atan2_lookup`. */
  datatype Lookups = Lookups(sin: int -> int, cos: int -> int, atan2: (int, int) -> int)

  /** Every sine and cosine the SDK returns lies in [-TRIG_MAX_RATIO, TRIG_MAX_RATIO]. */
  ghost predicate RatiosInRange(t: Lookups)
  {
    && (forall x :: -TRIG_MAX_RATIO <= t.sin(x) <= TRIG_MAX_RATIO)
    && (forall x :: -TRIG_MAX_RATIO <= t.cos(x) <= TRIG_MAX_RATIO)
  }
}
