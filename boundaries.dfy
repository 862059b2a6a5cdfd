/**
 * The boundary record configuring a DeBouncer and the `defaultBoundaries`
 * helper that fills it in.
 */
module DelayBoundaries {

  /**
   * `IBoundaries`: the largest and smallest delay, and the noise threshold
   * below which a delay is skipped, all in milliseconds. The record itself
   * carries any values; the DeBouncer normalises them when it is built.
   */
  datatype Boundaries = Boundaries(maxDelayMs: int, minDelayMs: int, delayNoiseMs: int)

  /**
   * The documented shape of the boundaries a DeBouncer works with: the
   * maximum is not negative, the minimum lies between 0 and the maximum,
   * and the noise threshold does not exceed the maximum. Nothing floors the
   * noise threshold at 0.
   */
  predicate IsNormal(b: Boundaries) {
    0 <= b.minDelayMs <= b.maxDelayMs && b.delayNoiseMs <= b.maxDelayMs
  }

  /**
   * `defaultBoundaries`: every override lands verbatim in its field; the
   * defaults are 3000, 0 and 40 milliseconds.
   */
  function DefaultBoundaries(maxDelayMsOverride: int := 3000, minDelayMsOverride: int := 0,
                             delayNoiseMsOverride: int := 40): Boundaries
  {
    Boundaries(maxDelayMsOverride, minDelayMsOverride, delayNoiseMsOverride)
  }

  /** With no arguments the defaults are 3000, 0 and 40, already in normal form. */
  lemma DefaultBoundariesValues()
    ensures DefaultBoundaries().maxDelayMs == 3000
    ensures DefaultBoundaries().minDelayMs == 0
    ensures DefaultBoundaries().delayNoiseMs == 40
    ensures IsNormal(DefaultBoundaries())
  {
  }

  /**
   * `defaultBoundaries` clamps nothing: its result is in normal form exactly
   * when the overrides already are, and it hands the overrides back unchanged.
   */
  lemma DefaultBoundariesNoClamping(maxDelayMs: int, minDelayMs: int, delayNoiseMs: int)
    ensures IsNormal(DefaultBoundaries(maxDelayMs, minDelayMs, delayNoiseMs))
        <==> 0 <= minDelayMs <= maxDelayMs && delayNoiseMs <= maxDelayMs
    ensures var b := DefaultBoundaries(maxDelayMs, minDelayMs, delayNoiseMs);
      b.maxDelayMs == maxDelayMs && b.minDelayMs == minDelayMs && b.delayNoiseMs == delayNoiseMs
  {
  }
}
