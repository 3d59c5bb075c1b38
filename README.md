# Retry policies and the retry loop

A model of the retry core of a small TypeScript library. A *policy* owns a retry
counter and decides whether another attempt is allowed and how long to wait
before it; `retryer` drives an operation against a policy: count an attempt,
invoke the operation, return its value on success, and on failure ask the policy
whether to go on, returning nothing (`undefined`) when it may not.

- `errors.dfy` (`Errors`): what a failed call throws — a falsy value, or an object
  with an optional `response` carrying an optional `status` — and the rule that a
  status of 400 or more is fatal.
- `constant_policy.dfy` (`ConstantPolicies`): class `ConstantPolicy`, fixed wait,
  fatal errors refused.
- `expo_policy.dfy` (`ExpoPolicies`): class `ExpoPolicy`, wait `initWaitTime ^ retryCount`
  (integer power `Pow`), fatal errors refused.
- `policies.dfy` (`Policies`): class `SLAPolicy` (exponential wait, decision on the
  budget alone) and the `Ipolicy` interface as the closed union `Policy` over the
  three classes, with dispatching `CurrentWait`, `ShouldRetry`, `IncrementTry` and
  the error-free `CanRetry`.
- `retryer.dfy` (`Retrying`): the loop as a method over a policy object and an
  operation given as a function from call index to outcome (`Ok(v)` or `Fail(err)`),
  proved against the recursive specification `Run`; lemmas characterise `Run`
  completely (which invocations happen, what is returned) and derive the
  behaviours the tests check.

The policies are classes whose `IncrementTry` updates `retryCount` in place; their
queries are functions reading the object. The loop is a `while true` method with
`return`s, terminating because `maxTries - retryCount` shrinks on every round it
goes on.

The retryer tests assert that a `delay` function was called between attempts
(test/retryer.spec.ts:40, test/retryer_test.ts:33), but src/retryer.ts never
computes a wait or calls a delay; the model follows the code and has no delay. The
decision the loop asks for is discussed under "## Findings".

## Model

| member | source | states |
|---|---|---|
| `Errors.IsFatal` | src/ConstantPolicy.ts:14 | a thrown value is fatal exactly when it is truthy, has a `response`, and that response has a `status` of at least 400; a falsy value, a missing response or a missing status is not fatal |
| `ConstantPolicies.ConstantPolicy.constructor` | src/ConstantPolicy.ts:5-8 | fields take the arguments (defaults 5 and 500), `maxTime == maxTries * initWaitTime`, `retryCount == 0` |
| `ConstantPolicies.ConstantPolicy.CurrentWait` | src/ConstantPolicy.ts:9-11 | the wait is the configured unit; `IncrementTry` leaves it unchanged, so it is the same at every count |
| `ConstantPolicies.ConstantPolicy.ShouldRetry` | src/ConstantPolicy.ts:13-20 | a fatal error is refused whatever the budget; any other is retried exactly when `retryCount < maxTries` |
| `ConstantPolicies.ConstantPolicy.IncrementTry` | src/ConstantPolicy.ts:21-23 | `retryCount` grows by exactly 1, the other fields are unchanged, the wait is unchanged, and a refusal stays a refusal |
| `ConstantPolicies.ConstantPolicyScenario` | test/ipolicy_test.ts:4-16 | the default policy waits 500 and advertises 2500; budget 0 refuses at once; budget 1 allows, then refuses after one attempt |
| `ExpoPolicies.Pow` | src/ExpoPolicy.ts:10 | integer `Math.pow`: exponent 0 gives 1 (also for base 0), exponent 1 gives the base, a positive base never gives less than 1, base 0 gives 0 from exponent 1 on, a negative base gives a positive power for even and a negative one for odd exponents |
| `ExpoPolicies.PowAdd` | src/ExpoPolicy.ts:10 | the exponent law `initWaitTime ^ (m + n) == initWaitTime ^ m * initWaitTime ^ n`: the wait at count m + n is the wait at count m times `initWaitTime ^ n` |
| `ExpoPolicies.ExpoPolicy.constructor` | src/ExpoPolicy.ts:5-8 | fields take the arguments, `maxTime == maxTries * initWaitTime`, `retryCount == 0`, and the first wait is 1 |
| `ExpoPolicies.ExpoPolicy.CurrentWait` | src/ExpoPolicy.ts:9-11 | the wait is 1 before any attempt, `initWaitTime` after one, and one more factor of `initWaitTime` per further attempt |
| `ExpoPolicies.ExpoPolicy.ShouldRetry` | src/ExpoPolicy.ts:13-20 | a fatal error is refused whatever the budget; any other is retried exactly when `retryCount < maxTries` |
| `ExpoPolicies.ExpoPolicy.IncrementTry` | src/ExpoPolicy.ts:21-23 | `retryCount` grows by exactly 1, the other fields are unchanged, the wait is multiplied by `initWaitTime`, and a refusal stays a refusal |
| `ExpoPolicies.ExpoPolicyScenario` | test/ipolicy_test.ts:17-29 | the default policy's first wait is 1 and it advertises 2500; budget 0 refuses at once; budget 1 allows, then refuses, with wait 500 |
| `Policies.SLAPolicy.constructor` | src/Ipolicy.ts:12-15 | fields take the arguments, `maxTime == maxTries * initWaitTime`, `retryCount == 0`, first wait 1 |
| `Policies.SLAPolicy.CurrentWait` | src/Ipolicy.ts:16-18 | the wait is 1 before any attempt and one more factor of `initWaitTime` per attempt |
| `Policies.SLAPolicy.ShouldRetry` | src/Ipolicy.ts:19-24 | with no error to look at, a retry is allowed exactly when `retryCount < maxTries` |
| `Policies.SLAPolicy.IncrementTry` | src/Ipolicy.ts:25-27 | `retryCount` grows by exactly 1, the other fields are unchanged, the wait is multiplied by `initWaitTime`, a refusal stays a refusal |
| `Policies.SLAAgreesWithExpo` | src/Ipolicy.ts:16-24 | an SLAPolicy and an ExpoPolicy in the same state wait the same time and decide alike on every non-fatal error |
| `Policies.SLAPolicyScenario` | src/Ipolicy.ts:12-27 | the default SLAPolicy waits 1 at first, advertises 2500 and allows a retry; budget 1 refuses after one attempt |
| `Policies.CurrentWait` | src/Ipolicy.ts:4 | `currentWait()` of any policy: the unit for a constant policy, `initWaitTime ^ retryCount` for the other two |
| `Policies.ShouldRetry` | src/Ipolicy.ts:5 | `shouldRetry(err)` of any policy is `Allows`: budget left and, unless the policy ignores errors, the error not fatal |
| `Policies.CanRetry` | src/retryer.ts:9 | the error-free decision is the budget check, equal to `shouldRetry` on every non-fatal error and to `SLAPolicy.shouldRetry()` |
| `Policies.IncrementTry` | src/Ipolicy.ts:6 | `incrementTry()` of any policy raises its count by exactly 1 and keeps `maxTries`, `maxTime` and `initWaitTime` |
| `Policies.RefusalIsFinal` | src/ConstantPolicy.ts:16-23 | once a non-fatal error is refused at some count, it is refused at every later count |
| `Retrying.Run` | src/retryer.ts:4-13 | the loop's run from call k makes more than k calls; a present result is the value of the last call, which succeeded, and an absent result means the last call failed |
| `Retrying.Retryer` | src/retryer.ts:3-14 | the loop returns what `Run` predicts, and the policy's counter has grown by exactly the number of invocations |
| `Retrying.RetryerAsWritten` | src/retryer.ts:3-14 | the loop with the error-free decision returns what `Run` predicts for a policy that ignores errors, counting one attempt per invocation |
| `Retrying.RunCharacterized` | src/retryer.ts:4-13 | a run makes at least one invocation, every invocation but the last failed and was allowed a retry, the last one succeeded or was refused, and the result is the last success's value or absent |
| `Retrying.RunCallsUnique` | src/retryer.ts:4-13 | conversely, any count of invocations meeting those conditions is the run's count, and the result follows from the last outcome |
| `Retrying.RunBounded` | src/retryer.ts:4-13 | a run makes at most `max(1, maxTries - retryCount)` invocations, so the loop always ends with these policies |
| `Retrying.ExhaustionCalls` | src/retryer.ts:4-13 | when every invocation fails with an error not refused for its kind, the result is absent after exactly `max(1, maxTries - retryCount)` invocations |
| `Retrying.FirstSuccessReturned` | src/retryer.ts:6-7 | a first invocation that succeeds is the only one and its value is returned |
| `Retrying.FatalStopsAtOnce` | src/retryer.ts:8-10 | a fatal first failure under an error-classifying policy ends the loop after one invocation with no value |
| `Retrying.SuccessScenario` | test/retryer.spec.ts:16-26 | with `ConstantPolicy(2, 0)` a succeeding call runs once, its value is returned, and the policy still allows a retry |
| `Retrying.TransientScenario` | test/retryer.spec.ts:30-42 | with `ConstantPolicy(2, 0)` a call that always throws a plain error runs exactly twice and nothing is returned |
| `Retrying.FatalScenario` | test/retryer.spec.ts:43-54 | with `ConstantPolicy(2, 0)` a call that always throws status 500 runs exactly once and nothing is returned |
| `Retrying.FatalScenarioAsWritten` | src/retryer.ts:9 | under the error-free decision the same status-500 call runs twice |

## Findings

| source | as written | input that shows it | evidently intended | confidence | as-written member | corrected member |
|---|---|---|---|---|---|---|
| src/retryer.ts:9 | after a failure the loop asks `policy.canRetry()`, which no policy defines and which is given no error, so the error's classification cannot take part in the decision | `ConstantPolicy(2, 0)` with a call that always throws `{response: {status: 500}}`: under the budget-only decision the call runs twice | ask `policy.shouldRetry(error)` with the caught error, so a fatal error stops the loop after one call, as test/retryer.spec.ts:43-53 expects | not executed; the name `canRetry` is read as the budget check the policy tests use under that name | `Retrying.RetryerAsWritten`, `Retrying.FatalScenarioAsWritten` | `Retrying.Retryer`, `Retrying.FatalScenario` |

## Left out

- Asynchrony: `await`, promises and the operation's own suspension are not modelled; an invocation's outcome is the value `op(i)`. As written, `return fn()` hands back an unawaited promise, so a rejection would escape the `try`; the model treats every failure as caught.
- The delay between attempts: the loop as written never calls `currentWait` or a delay function (`src/delay` is not part of this model), so the model has none.
- `src/command.ts` and `src/callAxios.ts`: wrappers that forward a bound payload to a callable; they become the operation function `op`.
- JavaScript numbers are modelled as unbounded integers and `Math.pow` as integer power: no floating-point rounding, overflow to `Infinity`, `NaN` or non-integer arguments.
- JavaScript truthiness and coercion beyond the cases that matter: a falsy thrown value, an object without `response`, and a response with or without a numeric `status` (a non-numeric status compared with `>=` is not modelled).
- Policies other than the three classes: the interface is a closed union, so a user policy that always allows a retry (for which the loop would not end) cannot be passed.
- Retrying.RetryerAsWritten: reads `policy.canRetry()` as the budget check; taken literally, no policy defines that member, so the TypeScript does not compile and, run as JavaScript, the first failure would throw a TypeError out of the `catch`. That path is not modelled.
- The test files call `canRetry()` on the policies and construct a `Command` class that `src/command.ts` does not export; those calls are read as the error-free decision and the operation function.
