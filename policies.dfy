/*
 * src/Ipolicy.ts: the policy interface and SLAPolicy, which waits like ExpoPolicy
 * but decides on the retry budget alone, whatever was thrown.
 *
 * The interface is a closed union over the three policy classes of the library;
 * the functions and the method below dispatch on it, so a retry loop can drive
 * any of them.
 */
module Policies {
  import opened Errors
  import opened ConstantPolicies
  import opened ExpoPolicies

  class SLAPolicy {
    var maxTime: int
    var maxTries: int
    var initWaitTime: int
    /** Attempts counted so far; only IncrementTry changes it. */
    var retryCount: nat

    /** `new SLAPolicy(maxTries = 5, initWaitTime = 500)`; no argument is validated. */
    constructor (maxTries: int := 5, initWaitTime: int := 500)
      ensures this.maxTries == maxTries && this.initWaitTime == initWaitTime
      ensures maxTime == maxTries * initWaitTime
      ensures retryCount == 0
      ensures CurrentWait() == 1
    {
      this.maxTries := maxTries;
      this.initWaitTime := initWaitTime;
      maxTime := maxTries * initWaitTime;
      retryCount := 0;
    }

    /** The wait before the next attempt, growing by a factor of the unit per attempt. */
    function CurrentWait(): (wait: int)
      reads this
      ensures retryCount == 0 ==> wait == 1
      ensures retryCount > 0 ==> wait == initWaitTime * Pow(initWaitTime, retryCount - 1)
    {
      Pow(initWaitTime, retryCount)
    }

    /** Takes no error: another attempt is allowed exactly while budget remains. */
    function ShouldRetry(): (retry: bool)
      reads this
      ensures retry <==> retryCount < maxTries
    {
      if retryCount < maxTries then true else false
    }

    /** Counts one more attempt and changes nothing else. */
    method IncrementTry()
      modifies this`retryCount
      ensures retryCount == old(retryCount) + 1
      ensures maxTries == old(maxTries) && maxTime == old(maxTime) && initWaitTime == old(initWaitTime)
      ensures CurrentWait() == old(CurrentWait()) * initWaitTime
      ensures !old(ShouldRetry()) ==> !ShouldRetry()
    {
      retryCount := retryCount + 1;
    }
  }

  /**
   * SLAPolicy and ExpoPolicy in the same state wait the same time, and they take
   * the same decision on every error that is not fatal.
   */
  lemma SLAAgreesWithExpo(sla: SLAPolicy, expo: ExpoPolicy, err: Error)
    requires sla.maxTries == expo.maxTries && sla.initWaitTime == expo.initWaitTime
    requires sla.retryCount == expo.retryCount
    ensures sla.CurrentWait() == expo.CurrentWait()
    ensures !IsFatal(err) ==> sla.ShouldRetry() == expo.ShouldRetry(err)
  {
  }

  /** Any object implementing the policy interface of the library. */
  datatype Policy = Constant(constant: ConstantPolicy) | Expo(expo: ExpoPolicy) | Sla(sla: SLAPolicy)
  {
    /** The object whose fields the policy's operations read and update. */
    function Target(): object
    {
      match this
      case Constant(p) => p
      case Expo(p) => p
      case Sla(p) => p
    }

    /** Whether the retry decision ignores the error passed to it. */
    predicate IgnoresErrors()
    {
      Sla?
    }
  }

  /**
   * The decision every policy takes once its counter is retryCount: retry while
   * retryCount < maxTries, except that a fatal error stops at once unless the
   * policy ignores errors.
   */
  predicate Allows(ignoresErrors: bool, maxTries: int, retryCount: int, err: Error)
  {
    (ignoresErrors || !IsFatal(err)) && retryCount < maxTries
  }

  function MaxTries(p: Policy): int
    reads p.Target()
  {
    match p
    case Constant(c) => c.maxTries
    case Expo(e) => e.maxTries
    case Sla(s) => s.maxTries
  }

  function MaxTime(p: Policy): int
    reads p.Target()
  {
    match p
    case Constant(c) => c.maxTime
    case Expo(e) => e.maxTime
    case Sla(s) => s.maxTime
  }

  function InitWaitTime(p: Policy): int
    reads p.Target()
  {
    match p
    case Constant(c) => c.initWaitTime
    case Expo(e) => e.initWaitTime
    case Sla(s) => s.initWaitTime
  }

  function RetryCount(p: Policy): nat
    reads p.Target()
  {
    match p
    case Constant(c) => c.retryCount
    case Expo(e) => e.retryCount
    case Sla(s) => s.retryCount
  }

  /** `policy.currentWait()`: the unit for a constant policy, unit^retryCount otherwise. */
  function CurrentWait(p: Policy): (wait: int)
    reads p.Target()
    ensures p.Constant? ==> wait == InitWaitTime(p)
    ensures !p.Constant? ==> wait == Pow(InitWaitTime(p), RetryCount(p))
  {
    match p
    case Constant(c) => c.CurrentWait()
    case Expo(e) => e.CurrentWait()
    case Sla(s) => s.CurrentWait()
  }

  /** `policy.shouldRetry(err)`, dispatched to the policy's own rule. */
  function ShouldRetry(p: Policy, err: Error): (retry: bool)
    reads p.Target()
    ensures retry == Allows(p.IgnoresErrors(), MaxTries(p), RetryCount(p), err)
  {
    match p
    case Constant(c) => c.ShouldRetry(err)
    case Expo(e) => e.ShouldRetry(err)
    case Sla(s) => s.ShouldRetry()
  }

  /**
   * The error-free decision `policy.canRetry()` that src/retryer.ts:9 calls: the
   * budget check alone, which is SLAPolicy's rule and every policy's rule for a
   * thrown value that is not fatal.
   */
  function CanRetry(p: Policy): (retry: bool)
    reads p.Target()
    ensures retry <==> RetryCount(p) < MaxTries(p)
    ensures forall err :: !IsFatal(err) ==> retry == ShouldRetry(p, err)
    ensures p.Sla? ==> retry == p.sla.ShouldRetry()
  {
    RetryCount(p) < MaxTries(p)
  }

  /** `policy.incrementTry()`: one more attempt counted, every other field kept. */
  method IncrementTry(p: Policy)
    modifies p.Target()
    ensures RetryCount(p) == old(RetryCount(p)) + 1
    ensures MaxTries(p) == old(MaxTries(p)) && MaxTime(p) == old(MaxTime(p))
    ensures InitWaitTime(p) == old(InitWaitTime(p))
  {
    match p
    case Constant(c) => c.IncrementTry();
    case Expo(e) => e.IncrementTry();
    case Sla(s) => s.IncrementTry();
  }

  /** After a refusal on a non-fatal error, every later counter value is refused too. */
  lemma RefusalIsFinal(ignoresErrors: bool, maxTries: int, retryCount: int, later: int, err: Error)
    requires !IsFatal(err) && !Allows(ignoresErrors, maxTries, retryCount, err)
    requires retryCount <= later
    ensures !Allows(ignoresErrors, maxTries, later, err)
  {
  }

  /** The defaults of an SLAPolicy: wait 1, advertised 2500, retry allowed at first. */
  method SLAPolicyScenario() returns (wait: int, maxTime: int, retries: bool, oneAfter: bool)
    ensures wait == 1 && maxTime == 2500 && retries && !oneAfter
  {
    var pol := new SLAPolicy();
    var pol1 := new SLAPolicy(1);
    wait, maxTime, retries := pol.CurrentWait(), pol.maxTime, pol.ShouldRetry();
    pol1.IncrementTry();
    oneAfter := pol1.ShouldRetry();
  }
}
