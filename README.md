# de-bouncer, modelled in Dafny

A model of the de-bouncer library's core: the `DeBouncer` coordinator, the
`CancellationToken` it hands to each call, the `IBoundaries` record with
`defaultBoundaries`, and the exponential delay strategy.

A `debounce()` call does several things before its only `await`, all as one
synchronous step. It cancels the token held as latest. It installs a fresh
token as the new latest. It asks the strategy for a delay based on the time
since the previous call and records the current time. It bounds the delay by
the maximum and then by the minimum. It decides whether to wait: only when the
delay is positive and reaches the noise threshold. The model covers this step
as `DeBouncer.Debounce(nowTimeMs)`. That method returns the token, the bounded
delay and whether the call waits. Callers read the token's flag after any
number of later `Debounce` and `TryCancel` steps. A ghost sequence `issued`
records every token returned so far. The coordinator's invariant `Valid()`
says that every issued token except the latest is cancelled.

Files, one module each:

- `numbers.dfy` (`Numbers`): `Math.min` and `Math.max`.
- `cancellation_token.dfy` (`CancellationTokens`): the token class. Its one
  field is set by `Cancel`. `IsCancelled` is a `function`, so reading it
  cannot change anything.
- `boundaries.dfy` (`DelayBoundaries`): the `Boundaries` record,
  `DefaultBoundaries` with defaults 3000/0/40, and `IsNormal`. `IsNormal` is
  the documented shape of boundaries after normalisation.
- `debounce_strategies.dfy` (`DebounceStrategies`): the strategy capability
  and `ExponentialDebounceStrategy`.
- `de_bouncer.dfy` (`DeBouncers`): boundary normalisation, the delay clamp,
  the suspend decision and the `DeBouncer` class.
- `scenarios.dfy` (`DeBouncerScenarios`): the call sequences of the
  repository's tests, written as client methods. Each has a contract saying
  which tokens end up cancelled.

A strategy is a total function value `(int, int) -> int`, so it is pure and
deterministic. Timestamps and delays are integer milliseconds. The current
time is a parameter of `Debounce`.

The exponential strategy computes `floor(P0 * e^(-0.0025 * frequency))`. The
model represents this by `ExponentialDecay`, a constant of the subset type
`DecayFactor`. Only the facts in `IsDecayFactor` are known about it:
- the value at frequency 0 is `P0`;
- for `P0 >= 0` the value lies in `[0, P0]` and does not grow as the frequency grows;
- for `P0 < 0` the value lies in `[P0, 0]`.

The subset type's witness is a step function, which shows these facts can all
hold together.

The doc comment on `delayNoiseMs` (src/boundaries.ts:16-21) only caps the
threshold at the maximum, and so does the code (src/de-bouncer.ts:104).
Nothing floors it at 0, so a negative threshold stays negative
(`NormalizeKeepsNegativeNoise`). A zero delay still never waits, because
waiting also needs a positive delay.

## Model

| member | source | states |
|---|---|---|
| `CancellationTokens.CancellationToken.constructor` | src/cancellation-token.ts:1-2 | a fresh token is not cancelled |
| `CancellationTokens.CancellationToken.Cancel` | src/cancellation-token.ts:11-17 | afterwards the token is cancelled; on an already cancelled token it changes nothing (idempotent) |
| `DelayBoundaries.DefaultBoundariesValues` | src/boundaries.ts:31-35 | with no arguments the defaults are max 3000, min 0, noise 40, and they are already in normal form |
| `DelayBoundaries.DefaultBoundariesNoClamping` | src/boundaries.ts:31-41 | each override is copied unchanged into its field; the result is in normal form exactly when the overrides already are, so nothing is clamped here |
| `DebounceStrategies.Frequency` | src/debounce-strategies.ts:19 | the frequency is never negative; it is `now - last` when `last <= now` and 0 when `last >= now` |
| `DebounceStrategies.ExponentialDebounceStrategy.NextDelayMs` | src/debounce-strategies.ts:10-22 | for `P0 >= 0` the delay is in `[0, P0]`, for `P0 < 0` in `[P0, 0]`; when the previous call is at or after `now` the delay is exactly `P0` |
| `DebounceStrategies.NextDelayDependsOnGapOnly` | src/debounce-strategies.ts:17-21 | the delay depends on the timestamps only through their difference: shifting both changes nothing |
| `DebounceStrategies.NextDelayNonIncreasingInGap` | src/debounce-strategies.ts:10-20 | for `P0 >= 0` a larger gap between calls never yields a larger delay |
| `DeBouncers.Normalize` | src/de-bouncer.ts:99-104 | the result is in normal form; a negative max becomes 0; a negative min becomes 0; a min above the max becomes the max; a noise above the max becomes the max; values already in range are kept |
| `DeBouncers.NormalizeFixesExactlyNormal` | src/boundaries.ts:1-22 | normalisation leaves a record unchanged if and only if it already has the documented shape, and normalising twice is the same as once |
| `DeBouncers.NormalizeKeepsNegativeNoise` | src/de-bouncer.ts:104 | a negative noise threshold is not floored at 0 |
| `DeBouncers.BoundedDelay` | src/de-bouncer.ts:143-144 | with normal boundaries the delay lies in `[min, max]`; a raw delay already in range is kept; one at or above the max becomes the max; one at or below the min becomes the min |
| `DeBouncers.BoundedDelayMonotone` | src/de-bouncer.ts:143-144 | bounding keeps the order of two raw delays |
| `DeBouncers.ZeroMaxNeverSuspends` | src/de-bouncer.ts:99-121 | with a maximum of 0 no call ever waits, whatever the strategy returns |
| `DeBouncers.BoundedExponentialDelayNonIncreasingInGap` | src/__tests__/de-bouncer.test.ts:174-202 | with the exponential strategy, a larger gap between calls never gives a larger bounded delay: for `P0 >= 0` under any boundaries, and for every `P0` under normalised boundaries (a negative `P0` always yields the minimum) |
| `DeBouncers.DeBouncer.constructor` | src/de-bouncer.ts:93-105 | keeps the strategy, stores the normalised boundaries, starts with an uncancelled latest token, latest call time 0 and no issued tokens |
| `DeBouncers.DeBouncer.NextDelayMs` | src/de-bouncer.ts:138-145 | records `now` as the latest call time; returns the strategy's delay for `(now, previous time)`, bounded by max and then min |
| `DeBouncers.DeBouncer.Debounce` | src/de-bouncer.ts:114-124 | cancels the token that was latest on entry and every token issued earlier; returns a fresh uncancelled token that becomes the latest; records `now`; the delay is the bounded strategy delay in `[min, max]`; the call waits exactly when the delay is positive and at least the noise; never waits when the max is 0; keeps `Valid()` |
| `DeBouncers.DeBouncer.TryCancel` | src/de-bouncer.ts:130-132 | cancels the latest token so every issued token is cancelled; leaves the latest token's identity and the call time unchanged; a second call changes nothing |
| `DeBouncerScenarios.CancelRepeatedly` | src/__tests__/cancellation-token.test.ts:22-31 | a token cancelled `n` times reads as cancelled exactly when `n > 0`, without failing |
| `DeBouncerScenarios.Observe` | src/__tests__/de-bouncer.test.ts:27-34 | a plain read of each token's flag, in order: the value on which each test's tracker counts a bounce or a pass |
| `DeBouncerScenarios.IssueBackToBack` | src/__tests__/de-bouncer.test.ts:88-96 | issuing calls back to back appends their tokens to the issued ones, and the last token is the uncancelled latest |
| `DeBouncerScenarios.SequentialCalls` | src/__tests__/de-bouncer.test.ts:54-79 | calls checked before the next one starts are never seen cancelled |
| `DeBouncerScenarios.BackToBackCalls` | src/__tests__/de-bouncer.test.ts:81-107 | after back-to-back calls every token but the last is cancelled, and the last is not |
| `DeBouncerScenarios.BackToBackThenTryCancel` | src/__tests__/de-bouncer.test.ts:110-136 | back-to-back calls followed by `tryCancel` leave every token cancelled |
| `DeBouncerScenarios.TryCancelThenDebounceAgain` | src/__tests__/de-bouncer.test.ts:138-172 | after `tryCancel`, the earlier calls are cancelled and one more call returns an uncancelled token |
| `DeBouncerScenarios.DelaysAfterGaps` | src/__tests__/de-bouncer.test.ts:174-218 | of two coordinators with the same exponential strategy (any `P0`), each called twice, the one with the larger gap waits no longer on its second call; neither waits longer than the normalised maximum |

## Left out

- `DebounceStrategies.ExponentialDebounceStrategy.NextDelayMs`: the exact value `floor(P0 * e^(-0.0025 * frequency))` is stated only at frequency 0; elsewhere only bounds and monotonicity are known, because the floating-point exponential is not modelled.
- `DeBouncerScenarios.DelaysAfterGaps`: states "no larger" where the test at src/__tests__/de-bouncer.test.ts:174-202 expects "strictly smaller". The strict decrease depends on the actual values of the exponential, which are not modelled.
- The strategy interface is a function type, not an object type with a method. The interface has only one member, a function-typed `nextDelayMs`.
- The `delay()` timer built on `setTimeout` (src/de-bouncer.ts:148-154) is host scheduling. The model keeps only the decision to wait (`suspends`) and how long (`delayMs`).
- The wall clock (src/de-bouncer.ts:134-136) is not modelled: the current time is the `nowTimeMs` parameter.
- Promises and the event loop are not modelled. Concurrent calls become a sequence of atomic `Debounce`/`TryCancel` steps, with tokens read later. Real parallelism is not modelled.
- JavaScript numbers become unbounded integers. Fractional milliseconds, NaN, Infinity and floating-point rounding are not modelled.
- Wall-clock timing in the tests (src/__tests__/de-bouncer.test.ts:174-218) is not modelled. Only the logical content remains: the delay is at most the maximum, and it does not grow as the gap grows.
- src/de-bouncer.ts:1-83 repeats the strategy, boundary and token declarations of the other three files. Each concept is modelled once.
- The tests build `DeBouncer` with numbers (for example src/__tests__/de-bouncer.test.ts:56). That does not match the constructor at src/de-bouncer.ts:96. The scenarios use the constructor as written: any strategy and any boundaries.
- No constant or zero-delay strategy exists in the source, so none is modelled. Any pure function can serve as a strategy.
- The example React application and the bundler configuration are not part of this model.
