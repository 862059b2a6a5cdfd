/**
 * Delay strategies: the `IDebounceStrategy` capability and its exponential
 * implementation, which shortens the delay as calls grow further apart.
 */
module DebounceStrategies {
  import opened Numbers

  /**
   * `IDebounceStrategy.nextDelayMs`: the raw delay for a call at `nowTimeMs`
   * whose predecessor was at `latestDebounceTimeMs`. A total function value,
   * so every strategy is pure and deterministic.
   */
  type DebounceStrategy = (int, int) -> int

  /**
   * What is known of `floor(p0 * e^(k * frequency))` with `k = -0.0025`:
   * at frequency 0 it is `p0` itself, for a non-negative `p0` it lies in
   * `[0, p0]` and never grows with the frequency, and for a negative `p0` it
   * lies in `[p0, 0]`.
   */
  ghost predicate IsDecayFactor(f: (int, nat) -> int) {
    && (forall p0 :: f(p0, 0) == p0)
    && (forall p0, frequency :: p0 >= 0 ==> 0 <= f(p0, frequency) <= p0)
    && (forall p0, frequency :: p0 < 0 ==> p0 <= f(p0, frequency) <= 0)
    && (forall p0, near: nat, far: nat :: p0 >= 0 && near <= far ==> f(p0, far) <= f(p0, near))
  }

  type DecayFactor = f: (int, nat) -> int | IsDecayFactor(f)
    witness (p0: int, frequency: nat) => if frequency == 0 || p0 < 0 then p0 else 0

  /**
   * `Math.floor(p0 * Math.pow(Math.E, -0.0025 * frequency))`. The floating
   * point exponential is not modelled; only the facts of `IsDecayFactor`
   * are known about it.
   */
  const ExponentialDecay: DecayFactor

  /**
   * The frequency of the exponential strategy: the distance in milliseconds
   * from the previous call, taken as 0 when the clock looks reversed.
   */
  function Frequency(nowTimeMs: int, latestDebounceTimeMs: int): (frequency: nat)
    ensures latestDebounceTimeMs <= nowTimeMs ==> frequency == nowTimeMs - latestDebounceTimeMs
    ensures nowTimeMs <= latestDebounceTimeMs ==> frequency == 0
  {
    nowTimeMs - Min(nowTimeMs, latestDebounceTimeMs)
  }

  /**
   * `ExponentialDebounceStrategy`: a reference delay `p0` (2000 ms unless
   * given) that decays exponentially with the frequency of calls.
   */
  datatype ExponentialDebounceStrategy = ExponentialDebounceStrategy(p0: int := 2000) {

    function NextDelayMs(nowTimeMs: int, latestDebounceTimeMs: int): (delayMs: int)
      ensures p0 >= 0 ==> 0 <= delayMs <= p0
      ensures p0 < 0 ==> p0 <= delayMs <= 0
      ensures nowTimeMs <= latestDebounceTimeMs ==> delayMs == p0
    {
      ExponentialDecay(p0, Frequency(nowTimeMs, latestDebounceTimeMs))
    }

    /** The strategy as the capability a DeBouncer is built with. */
    function AsStrategy(): DebounceStrategy {
      NextDelayMs
    }
  }

  /**
   * The delay depends on the two timestamps only through their distance:
   * shifting both by the same amount changes nothing.
   */
  lemma NextDelayDependsOnGapOnly(s: ExponentialDebounceStrategy, nowTimeMs: int,
                                  latestDebounceTimeMs: int, shift: int)
    ensures s.NextDelayMs(nowTimeMs + shift, latestDebounceTimeMs + shift)
         == s.NextDelayMs(nowTimeMs, latestDebounceTimeMs)
  {
  }

  /**
   * For a non-negative reference delay a larger gap between two calls
   * never yields a larger delay.
   */
  lemma NextDelayNonIncreasingInGap(s: ExponentialDebounceStrategy,
                                    nearNowMs: int, nearLatestMs: int,
                                    farNowMs: int, farLatestMs: int)
    requires s.p0 >= 0
    requires nearNowMs - nearLatestMs <= farNowMs - farLatestMs
    ensures s.NextDelayMs(farNowMs, farLatestMs) <= s.NextDelayMs(nearNowMs, nearLatestMs)
  {
  }
}
