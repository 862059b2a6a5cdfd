/**
 * The debounce coordinator. It keeps a single "latest token" slot and the
 * time of the latest call; every new call cancels the token in the slot,
 * installs a fresh one and computes how long the caller should wait.
 */
module DeBouncers {
  import opened Numbers
  import opened CancellationTokens
  import opened DelayBoundaries
  import opened DebounceStrategies

  /**
   * The normalisation the DeBouncer constructor applies to its boundaries,
   * which realises the contract documented on `IBoundaries`.
   */
  function Normalize(b: Boundaries): (n: Boundaries)
    ensures IsNormal(n)
    ensures b.maxDelayMs >= 0 ==> n.maxDelayMs == b.maxDelayMs
    ensures b.maxDelayMs < 0 ==> n.maxDelayMs == 0
    ensures 0 <= b.minDelayMs <= n.maxDelayMs ==> n.minDelayMs == b.minDelayMs
    ensures b.minDelayMs < 0 ==> n.minDelayMs == 0
    ensures b.minDelayMs > n.maxDelayMs ==> n.minDelayMs == n.maxDelayMs
    ensures b.delayNoiseMs <= n.maxDelayMs ==> n.delayNoiseMs == b.delayNoiseMs
    ensures b.delayNoiseMs > n.maxDelayMs ==> n.delayNoiseMs == n.maxDelayMs
  {
    var maxDelayMs := Max(b.maxDelayMs, 0);
    Boundaries(maxDelayMs, Min(Max(b.minDelayMs, 0), maxDelayMs), Min(b.delayNoiseMs, maxDelayMs))
  }

  /** Normalisation leaves a record alone exactly when it is already in normal form. */
  lemma NormalizeFixesExactlyNormal(b: Boundaries)
    ensures Normalize(b) == b <==> IsNormal(b)
    ensures Normalize(Normalize(b)) == Normalize(b)
  {
  }

  /** A negative noise threshold is kept as it is, not raised to 0. */
  lemma NormalizeKeepsNegativeNoise(b: Boundaries)
    requires b.delayNoiseMs < 0
    ensures Normalize(b).delayNoiseMs == b.delayNoiseMs
  {
  }

  /** The raw delay bounded by the maximum first and by the minimum after it. */
  function BoundedDelay(rawDelayMs: int, b: Boundaries): (delayMs: int)
    ensures delayMs >= b.minDelayMs
    ensures IsNormal(b) ==> b.minDelayMs <= delayMs <= b.maxDelayMs
    ensures b.minDelayMs <= rawDelayMs <= b.maxDelayMs ==> delayMs == rawDelayMs
    ensures IsNormal(b) && rawDelayMs >= b.maxDelayMs ==> delayMs == b.maxDelayMs
    ensures rawDelayMs <= b.minDelayMs ==> delayMs == b.minDelayMs
  {
    Max(Min(rawDelayMs, b.maxDelayMs), b.minDelayMs)
  }

  /** Bounding never reverses the order of two raw delays. */
  lemma BoundedDelayMonotone(b: Boundaries, lowMs: int, highMs: int)
    requires lowMs <= highMs
    ensures BoundedDelay(lowMs, b) <= BoundedDelay(highMs, b)
  {
  }

  /** Whether a call waits: only for a positive delay that reaches the noise threshold. */
  predicate Suspends(delayMs: int, delayNoiseMs: int) {
    delayMs > 0 && delayMs >= delayNoiseMs
  }

  /** With a maximum of 0 no call ever waits, whatever the strategy says. */
  lemma ZeroMaxNeverSuspends(b: Boundaries, rawDelayMs: int)
    requires IsNormal(b) && b.maxDelayMs == 0
    ensures !Suspends(BoundedDelay(rawDelayMs, b), b.delayNoiseMs)
  {
  }

  /**
   * With the exponential strategy a larger gap between two calls never
   * makes the bounded delay larger: for a non-negative reference delay
   * under any boundaries, and for any reference delay under normalised
   * boundaries, where a negative one always yields the minimum.
   */
  lemma BoundedExponentialDelayNonIncreasingInGap(s: ExponentialDebounceStrategy, b: Boundaries,
                                                  nearNowMs: int, nearLatestMs: int,
                                                  farNowMs: int, farLatestMs: int)
    requires s.p0 >= 0 || IsNormal(b)
    requires nearNowMs - nearLatestMs <= farNowMs - farLatestMs
    ensures BoundedDelay(s.NextDelayMs(farNowMs, farLatestMs), b)
         <= BoundedDelay(s.NextDelayMs(nearNowMs, nearLatestMs), b)
  {
  }

  class DeBouncer {
    const debounceStrategy: DebounceStrategy
    /** The normalised `#maxDelayMs`, `#minDelayMs` and `#delayNoise`. */
    const boundaries: Boundaries
    var latestToken: CancellationToken
    var latestDebounceTimeMs: int
    /** Every token `Debounce` has returned, oldest first. */
    ghost var issued: seq<CancellationToken>

    /**
     * The coordinator's invariant: its boundaries are in normal form, the
     * latest token is the last one issued, and every token issued before
     * the latest has been cancelled.
     */
    ghost predicate Valid()
      reads this, latestToken, issued
    {
      && IsNormal(boundaries)
      && (issued != [] ==> latestToken == issued[|issued| - 1])
      && (forall i :: 0 <= i < |issued| - 1 ==> issued[i].cancelled)
    }

    constructor (debounceStrategy: DebounceStrategy, boundaries: Boundaries := DefaultBoundaries())
      ensures Valid() && fresh(latestToken)
      ensures this.debounceStrategy == debounceStrategy
      ensures this.boundaries == Normalize(boundaries)
      ensures !latestToken.cancelled && latestDebounceTimeMs == 0 && issued == []
    {
      this.debounceStrategy := debounceStrategy;
      this.boundaries := Normalize(boundaries);
      latestToken := new CancellationToken();
      latestDebounceTimeMs := 0;
      issued := [];
    }

    /**
     * `#nextDelayMs`: asks the strategy for the delay of a call at
     * `nowTimeMs`, measured from the previous call, records `nowTimeMs` as
     * the latest call time and bounds the delay.
     */
    method NextDelayMs(nowTimeMs: int) returns (delayMs: int)
      modifies this`latestDebounceTimeMs
      ensures latestDebounceTimeMs == nowTimeMs
      ensures delayMs == BoundedDelay(debounceStrategy(nowTimeMs, old(latestDebounceTimeMs)), boundaries)
    {
      var previousTimeMs := latestDebounceTimeMs;
      latestDebounceTimeMs := nowTimeMs;
      delayMs := debounceStrategy(nowTimeMs, previousTimeMs);
      delayMs := Min(delayMs, boundaries.maxDelayMs);
      delayMs := Max(delayMs, boundaries.minDelayMs);
    }

    /**
     * The synchronous part of `debounce`, up to the wait: supersedes the
     * latest call, installs and returns a fresh token, and says how long to
     * wait and whether to wait at all. The caller reads the token after the
     * wait, by which time later calls may have cancelled it.
     */
    method Debounce(nowTimeMs: int) returns (token: CancellationToken, delayMs: int, suspends: bool)
      requires Valid()
      modifies this, latestToken
      ensures Valid()
      ensures fresh(token) && !token.cancelled
      ensures latestToken == token && issued == old(issued) + [token]
      ensures old(latestToken).cancelled
      ensures forall i :: 0 <= i < |old(issued)| ==> old(issued)[i].cancelled
      ensures latestDebounceTimeMs == nowTimeMs
      ensures delayMs == BoundedDelay(debounceStrategy(nowTimeMs, old(latestDebounceTimeMs)), boundaries)
      ensures boundaries.minDelayMs <= delayMs <= boundaries.maxDelayMs
      ensures suspends == Suspends(delayMs, boundaries.delayNoiseMs)
      ensures boundaries.maxDelayMs == 0 ==> !suspends
    {
      latestToken.Cancel();
      var currentToken := new CancellationToken();
      latestToken := currentToken;
      issued := issued + [currentToken];
      delayMs := NextDelayMs(nowTimeMs);
      suspends := delayMs > 0 && delayMs >= boundaries.delayNoiseMs;
      token := currentToken;
    }

    /**
     * `tryCancel`: cancels the latest token and nothing else, so that every
     * token ever issued is cancelled afterwards. A second call changes nothing.
     */
    method TryCancel()
      requires Valid()
      modifies latestToken
      ensures Valid() && unchanged(this) && latestToken.cancelled
      ensures forall i :: 0 <= i < |issued| ==> issued[i].cancelled
      ensures old(latestToken.cancelled) ==> unchanged(latestToken)
    {
      latestToken.Cancel();
    }
  }
}
