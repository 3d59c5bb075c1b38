/*
 * src/retryer.ts: the retry loop. Each round counts an attempt on the policy,
 * invokes the operation, returns its value on success and, on failure, asks the
 * policy whether to go on; when it may not, the loop returns no value.
 *
 * The operation is a total function from the call index to an outcome: the i-th
 * invocation (counting from 0) yields op(i). Waiting between attempts is not part
 * of the loop as written and is not modelled.
 *
 * Which decision is modelled: src/retryer.ts:9 asks `policy.canRetry()`, a member
 * no policy has, and passes it no error. `Retryer` models the loop with the
 * decision the policies do expose, `shouldRetry(error)` on the caught error,
 * which the retryer's own tests expect (a fatal error stops after one call).
 * `RetryerAsWritten` keeps the error-free reading, the budget check `CanRetry`.
 */
module Retrying {
  import opened Errors
  import opened Policies
  import ConstantPolicies

  /** What one invocation of the operation does: return a value or throw. */
  datatype Outcome<T> = Ok(value: T) | Fail(error: Error)

  /** The operation: its i-th invocation yields op(i). */
  type Operation<T> = nat -> Outcome<T>

  /** How a run of the loop ends: the value returned (None is `undefined`) and the number of invocations. */
  datatype Trace<T> = Trace(result: Option<T>, calls: nat)

  /** The measure that shrinks with every round the loop goes on. */
  function Budget(maxTries: int, count: int): nat
  {
    if count < maxTries then maxTries - count else 0
  }

  /**
   * The loop's run from invocation k on, for a policy whose counter stood at
   * `start` when the loop began and whose decision is `Allows(ignoresErrors, maxTries, _, _)`.
   * Before invocation k the counter is raised to start + k + 1; a failure is
   * retried exactly when the policy allows it at that count.
   */
  function Run<T>(op: Operation<T>, ignoresErrors: bool, maxTries: int, start: nat, k: nat): (t: Trace<T>)
    ensures k < t.calls
    ensures t.result.Some? ==> op(t.calls - 1) == Ok(t.result.value)
    ensures t.result.None? ==> op(t.calls - 1).Fail?
    decreases Budget(maxTries, start + k)
  {
    match op(k)
    case Ok(v) => Trace(Some(v), k + 1)
    case Fail(err) =>
      if Allows(ignoresErrors, maxTries, start + k + 1, err) then Run(op, ignoresErrors, maxTries, start, k + 1)
      else Trace(None, k + 1)
  }

  /** What the outcome of the last invocation makes the loop return. */
  function ResultOf<T>(outcome: Outcome<T>): Option<T>
  {
    match outcome
    case Ok(v) => Some(v)
    case Fail(_) => None
  }

  /** Invocation j failed and the policy, at counter start + j + 1, allowed another. */
  predicate Retried<T>(op: Operation<T>, ignoresErrors: bool, maxTries: int, start: nat, j: nat)
  {
    op(j).Fail? && Allows(ignoresErrors, maxTries, start + j + 1, op(j).error)
  }

  /** The loop stops after invocation n - 1: it succeeded, or the policy refused its failure. */
  predicate Stops<T>(op: Operation<T>, ignoresErrors: bool, maxTries: int, start: nat, n: nat)
    requires n > 0
  {
    !Retried(op, ignoresErrors, maxTries, start, n - 1)
  }

  /**
   * A run from k makes n > k invocations where every invocation before the last
   * was retried and the last one stops the loop; the result is the last outcome's
   * value when it succeeded and absent when it failed.
   */
  lemma {:induction false} RunCharacterized<T>(op: Operation<T>, ignoresErrors: bool, maxTries: int, start: nat, k: nat)
    ensures var t := Run(op, ignoresErrors, maxTries, start, k);
      k < t.calls
      && (forall j :: k <= j < t.calls - 1 ==> Retried(op, ignoresErrors, maxTries, start, j))
      && Stops(op, ignoresErrors, maxTries, start, t.calls)
      && t.result == ResultOf(op(t.calls - 1))
    decreases Budget(maxTries, start + k)
  {
    if Retried(op, ignoresErrors, maxTries, start, k) {
      RunCharacterized(op, ignoresErrors, maxTries, start, k + 1);
    }
  }

  /**
   * The converse: any n > k whose invocations before the last are all retried and
   * whose last stops the loop is the number of invocations the run makes.
   */
  lemma {:induction false} RunCallsUnique<T>(op: Operation<T>, ignoresErrors: bool, maxTries: int, start: nat, k: nat, n: nat)
    requires k < n
    requires forall j :: k <= j < n - 1 ==> Retried(op, ignoresErrors, maxTries, start, j)
    requires Stops(op, ignoresErrors, maxTries, start, n)
    ensures Run(op, ignoresErrors, maxTries, start, k) == Trace(ResultOf(op(n - 1)), n)
    decreases n - k
  {
    if k < n - 1 {
      assert Retried(op, ignoresErrors, maxTries, start, k);
      RunCallsUnique(op, ignoresErrors, maxTries, start, k + 1, n);
    }
  }

  /** The loop never runs more than max(k + 1, maxTries - start) invocations. */
  lemma {:induction false} RunBounded<T>(op: Operation<T>, ignoresErrors: bool, maxTries: int, start: nat, k: nat)
    ensures var t := Run(op, ignoresErrors, maxTries, start, k);
      k < t.calls && (t.calls <= k + 1 || t.calls <= maxTries - start)
    decreases Budget(maxTries, start + k)
  {
    if Retried(op, ignoresErrors, maxTries, start, k) {
      RunBounded(op, ignoresErrors, maxTries, start, k + 1);
    }
  }

  /**
   * When every invocation fails with an error the policy does not refuse for its
   * kind, the loop gives up with no value after exactly max(k + 1, maxTries - start)
   * invocations: the budget alone decides.
   */
  lemma {:induction false} ExhaustionCalls<T>(op: Operation<T>, ignoresErrors: bool, maxTries: int, start: nat, k: nat)
    requires forall j :: op(j).Fail? && (ignoresErrors || !IsFatal(op(j).error))
    ensures var t := Run(op, ignoresErrors, maxTries, start, k);
      t.result == None && t.calls == if maxTries - start > k + 1 then maxTries - start else k + 1
    decreases Budget(maxTries, start + k)
  {
    if Retried(op, ignoresErrors, maxTries, start, k) {
      ExhaustionCalls(op, ignoresErrors, maxTries, start, k + 1);
    }
  }

  /** A first invocation that succeeds is the only one, and its value is returned. */
  lemma FirstSuccessReturned<T>(op: Operation<T>, ignoresErrors: bool, maxTries: int, start: nat)
    requires op(0).Ok?
    ensures Run(op, ignoresErrors, maxTries, start, 0) == Trace(Some(op(0).value), 1)
  {
  }

  /** A fatal first failure stops a policy that classifies errors after one invocation, with no value. */
  lemma FatalStopsAtOnce<T>(op: Operation<T>, maxTries: int, start: nat)
    requires op(0).Fail? && IsFatal(op(0).error)
    ensures Run(op, false, maxTries, start, 0) == Trace(None, 1)
  {
  }

  /**
   * `retryer(fn, policy)` with the decision `shouldRetry(error)`: returns what Run
   * predicts, and the policy has counted exactly one attempt per invocation.
   */
  method Retryer<T>(op: Operation<T>, policy: Policy) returns (result: Option<T>)
    modifies policy.Target()
    ensures var t := Run(op, policy.IgnoresErrors(), old(MaxTries(policy)), old(RetryCount(policy)), 0);
      result == t.result && RetryCount(policy) == old(RetryCount(policy)) + t.calls
    ensures MaxTries(policy) == old(MaxTries(policy)) && MaxTime(policy) == old(MaxTime(policy))
    ensures InitWaitTime(policy) == old(InitWaitTime(policy))
  {
    ghost var start, maxTries := RetryCount(policy), MaxTries(policy);
    ghost var ignoresErrors := policy.IgnoresErrors();
    var k: nat := 0;
    while true
      invariant RetryCount(policy) == start + k
      invariant MaxTries(policy) == maxTries && MaxTime(policy) == old(MaxTime(policy))
      invariant InitWaitTime(policy) == old(InitWaitTime(policy))
      invariant Run(op, ignoresErrors, maxTries, start, 0) == Run(op, ignoresErrors, maxTries, start, k)
      decreases Budget(maxTries, start + k)
    {
      IncrementTry(policy);
      match op(k)
      case Ok(v) =>
        return Some(v);
      case Fail(err) =>
        if !ShouldRetry(policy, err) {
          return None;
        }
      k := k + 1;
    }
  }

  /** `retryer(fn, policy)` as written: after a failure it asks only the error-free `canRetry()`. */
  method RetryerAsWritten<T>(op: Operation<T>, policy: Policy) returns (result: Option<T>)
    modifies policy.Target()
    ensures var t := Run(op, true, old(MaxTries(policy)), old(RetryCount(policy)), 0);
      result == t.result && RetryCount(policy) == old(RetryCount(policy)) + t.calls
    ensures MaxTries(policy) == old(MaxTries(policy)) && MaxTime(policy) == old(MaxTime(policy))
    ensures InitWaitTime(policy) == old(InitWaitTime(policy))
  {
    ghost var start, maxTries := RetryCount(policy), MaxTries(policy);
    var k: nat := 0;
    while true
      invariant RetryCount(policy) == start + k
      invariant MaxTries(policy) == maxTries && MaxTime(policy) == old(MaxTime(policy))
      invariant InitWaitTime(policy) == old(InitWaitTime(policy))
      invariant Run(op, true, maxTries, start, 0) == Run(op, true, maxTries, start, k)
      decreases Budget(maxTries, start + k)
    {
      IncrementTry(policy);
      match op(k)
      case Ok(v) =>
        return Some(v);
      case Fail(_) =>
        if !CanRetry(policy) {
          return None;
        }
      k := k + 1;
    }
  }

  /** An operation that always returns the same value. */
  function Succeeding<T>(v: T): Operation<T>
  {
    (_: nat) => Ok(v)
  }

  /** An operation that always throws the same error. */
  function Failing<T>(err: Error): Operation<T>
  {
    (_: nat) => Fail(err)
  }

  /**
   * A call that succeeds under ConstantPolicy(2, 0) is invoked once, its value is
   * returned, and the policy still allows a retry afterwards.
   */
  method SuccessScenario() returns (result: Option<string>, calls: nat, stillAllowed: bool)
    ensures result == Some("API call successful") && calls == 1 && stillAllowed
  {
    var policy := new ConstantPolicies.ConstantPolicy(2, 0);
    var op := Succeeding("API call successful");
    FirstSuccessReturned(op, false, 2, 0);
    result := Retryer(op, Constant(policy));
    calls := policy.retryCount;
    stillAllowed := policy.ShouldRetry(Thrown(None));
  }

  /** A call that always throws a plain error is invoked twice under ConstantPolicy(2, 0), and nothing is returned. */
  method TransientScenario() returns (result: Option<string>, calls: nat)
    ensures result == None && calls == 2
  {
    var policy := new ConstantPolicies.ConstantPolicy(2, 0);
    var op: Operation<string> := Failing(PlainError);
    ExhaustionCalls(op, false, 2, 0, 0);
    result := Retryer(op, Constant(policy));
    calls := policy.retryCount;
  }

  /** A call that always throws a status-500 error is invoked once under ConstantPolicy(2, 0), and nothing is returned. */
  method FatalScenario() returns (result: Option<string>, calls: nat)
    ensures result == None && calls == 1
  {
    var policy := new ConstantPolicies.ConstantPolicy(2, 0);
    var op: Operation<string> := Failing(ServerError);
    FatalStopsAtOnce(op, 2, 0);
    result := Retryer(op, Constant(policy));
    calls := policy.retryCount;
  }

  /**
   * The same status-500 call under the loop as written: the error-free decision
   * retries it, so it is invoked twice instead of once.
   */
  method FatalScenarioAsWritten() returns (result: Option<string>, calls: nat)
    ensures result == None && calls == 2
  {
    var policy := new ConstantPolicies.ConstantPolicy(2, 0);
    var op: Operation<string> := Failing(ServerError);
    ExhaustionCalls(op, true, 2, 0, 0);
    result := RetryerAsWritten(op, Constant(policy));
    calls := policy.retryCount;
  }
}
