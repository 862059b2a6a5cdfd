/**
 * The call sequences of the repository's tests, as sequential client code:
 * each `Debounce` is the synchronous start of a `debounce()` call and each
 * read of a token is what the caller sees once its wait is over.
 */
module DeBouncerScenarios {
  import opened CancellationTokens
  import opened DelayBoundaries
  import opened DebounceStrategies
  import opened DeBouncers

  /** A token cancelled any number of times is cancelled, and only if cancelled at least once. */
  method CancelRepeatedly(times: nat) returns (isCancelled: bool)
    ensures isCancelled == (times > 0)
  {
    var token := new CancellationToken();
    for i := 0 to times
      invariant token.cancelled == (i > 0)
    {
      token.Cancel();
    }
    isCancelled := token.IsCancelled();
  }

  /** What the callers holding `tokens` observe: for each, whether it was cancelled. */
  method Observe(tokens: seq<CancellationToken>) returns (cancelled: seq<bool>)
    ensures |cancelled| == |tokens|
    ensures forall i :: 0 <= i < |tokens| ==> cancelled[i] == tokens[i].cancelled
  {
    cancelled := [];
    for i := 0 to |tokens|
      invariant |cancelled| == i
      invariant forall j :: 0 <= j < i ==> cancelled[j] == tokens[j].cancelled
    {
      cancelled := cancelled + [tokens[i].IsCancelled()];
    }
  }

  /**
   * Calls issued back to back, none awaited before the next starts, at the
   * given times. Every returned token but the last is cancelled by its
   * successor, and the last one is the DeBouncer's latest.
   */
  method IssueBackToBack(d: DeBouncer, times: seq<int>) returns (tokens: seq<CancellationToken>)
    requires d.Valid()
    modifies d, d.latestToken
    ensures d.Valid() && |tokens| == |times|
    ensures d.issued == old(d.issued) + tokens
    ensures times == [] ==> d.latestToken == old(d.latestToken)
    ensures times != [] ==> d.latestToken == tokens[|tokens| - 1] && !d.latestToken.cancelled
    ensures d.latestToken == old(d.latestToken) || fresh(d.latestToken)
  {
    tokens := [];
    for i := 0 to |times|
      invariant d.Valid() && |tokens| == i
      invariant d.issued == old(d.issued) + tokens
      invariant i == 0 ==> d.latestToken == old(d.latestToken)
      invariant i > 0 ==> d.latestToken == tokens[i - 1] && !d.latestToken.cancelled
      invariant d.latestToken == old(d.latestToken) || fresh(d.latestToken)
    {
      var token, _, _ := d.Debounce(times[i]);
      tokens := tokens + [token];
    }
  }

  /**
   * Calls each awaited and checked before the next one starts: none of
   * them is ever seen cancelled.
   */
  method SequentialCalls(strategy: DebounceStrategy, b: Boundaries, times: seq<int>)
    returns (cancelled: seq<bool>)
    ensures |cancelled| == |times|
    ensures forall i :: 0 <= i < |times| ==> !cancelled[i]
  {
    var d := new DeBouncer(strategy, b);
    cancelled := [];
    for i := 0 to |times|
      invariant d.Valid() && fresh(d.latestToken)
      invariant |cancelled| == i
      invariant forall j :: 0 <= j < i ==> !cancelled[j]
    {
      var token, _, _ := d.Debounce(times[i]);
      var seen := token.IsCancelled();
      cancelled := cancelled + [seen];
    }
  }

  /** Calls issued back to back: only the last one issued is left uncancelled. */
  method BackToBackCalls(strategy: DebounceStrategy, b: Boundaries, times: seq<int>)
    returns (cancelled: seq<bool>)
    ensures |cancelled| == |times|
    ensures forall i :: 0 <= i < |times| ==> cancelled[i] == (i != |times| - 1)
  {
    var d := new DeBouncer(strategy, b);
    var tokens := IssueBackToBack(d, times);
    assert d.issued == tokens;
    cancelled := Observe(tokens);
  }

  /** Calls issued back to back and then `tryCancel`: every one of them is cancelled. */
  method BackToBackThenTryCancel(strategy: DebounceStrategy, b: Boundaries, times: seq<int>)
    returns (cancelled: seq<bool>)
    ensures |cancelled| == |times|
    ensures forall i :: 0 <= i < |times| ==> cancelled[i]
  {
    var d := new DeBouncer(strategy, b);
    var tokens := IssueBackToBack(d, times);
    assert d.issued == tokens;
    d.TryCancel();
    cancelled := Observe(tokens);
  }

  /**
   * Calls issued back to back, then `tryCancel`, then one more call at
   * `lastTimeMs`: every earlier call is cancelled and the new one is not.
   */
  method TryCancelThenDebounceAgain(strategy: DebounceStrategy, b: Boundaries, times: seq<int>,
                                    lastTimeMs: int)
    returns (cancelled: seq<bool>)
    ensures |cancelled| == |times| + 1
    ensures forall i :: 0 <= i < |times| ==> cancelled[i]
    ensures !cancelled[|times|]
  {
    var d := new DeBouncer(strategy, b);
    var tokens := IssueBackToBack(d, times);
    assert d.issued == tokens;
    d.TryCancel();
    var last, _, _ := d.Debounce(lastTimeMs);
    cancelled := Observe(tokens + [last]);
  }

  /**
   * Two DeBouncers with the same exponential strategy and boundaries, each
   * called at `startMs` and again after a gap: the one with the larger gap
   * waits no longer on its second call, and neither waits longer than the
   * normalised maximum.
   */
  method DelaysAfterGaps(s: ExponentialDebounceStrategy, b: Boundaries, startMs: int,
                         nearGapMs: int, farGapMs: int)
    returns (nearDelayMs: int, farDelayMs: int)
    requires nearGapMs <= farGapMs
    ensures farDelayMs <= nearDelayMs <= Normalize(b).maxDelayMs
    ensures Normalize(b).minDelayMs <= farDelayMs
  {
    var near := new DeBouncer(s.AsStrategy(), b);
    var _, _, _ := near.Debounce(startMs);
    var _, nearMs, _ := near.Debounce(startMs + nearGapMs);
    nearDelayMs := nearMs;
    var far := new DeBouncer(s.AsStrategy(), b);
    var _, _, _ := far.Debounce(startMs);
    var _, farMs, _ := far.Debounce(startMs + farGapMs);
    farDelayMs := farMs;
    BoundedExponentialDelayNonIncreasingInGap(s, Normalize(b), startMs + nearGapMs, startMs, startMs + farGapMs, startMs);
  }
}
