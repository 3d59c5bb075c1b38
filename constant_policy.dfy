/*
 * src/ConstantPolicy.ts: a retry policy that waits the same time before every
 * retry and refuses fatal errors.
 */
module ConstantPolicies {
  import opened Errors

  class ConstantPolicy {
    var maxTime: int
    var maxTries: int
    var initWaitTime: int
    /** Attempts counted so far; only IncrementTry changes it. */
    var retryCount: nat

    /** `new ConstantPolicy(maxTries = 5, initWaitTime = 500)`; no argument is validated. */
    constructor (maxTries: int := 5, initWaitTime: int := 500)
      ensures this.maxTries == maxTries && this.initWaitTime == initWaitTime
      ensures maxTime == maxTries * initWaitTime
      ensures retryCount == 0
    {
      this.maxTries := maxTries;
      this.initWaitTime := initWaitTime;
      maxTime := maxTries * initWaitTime;
      retryCount := 0;
    }

    /** The wait before the next attempt: the configured unit, at every count. */
    function CurrentWait(): (wait: int)
      reads this
      ensures wait == initWaitTime
    {
      initWaitTime
    }

    /** Fatal errors are never retried; any other error is retried while budget remains. */
    function ShouldRetry(err: Error): (retry: bool)
      reads this
      ensures IsFatal(err) ==> !retry
      ensures !IsFatal(err) ==> (retry <==> retryCount < maxTries)
    {
      if IsFatal(err) then false
      else if retryCount < maxTries then true
      else false
    }

    /** Counts one more attempt and changes nothing else. */
    method IncrementTry()
      modifies this`retryCount
      ensures retryCount == old(retryCount) + 1
      ensures maxTries == old(maxTries) && maxTime == old(maxTime) && initWaitTime == old(initWaitTime)
      ensures CurrentWait() == old(CurrentWait())
      ensures forall err :: !old(ShouldRetry(err)) ==> !ShouldRetry(err)
    {
      retryCount := retryCount + 1;
    }
  }

  /**
   * The default policy waits 500 and advertises a total of 2500; a budget of zero
   * refuses before any attempt; a budget of one allows once and refuses after one
   * attempt.
   */
  method ConstantPolicyScenario() returns (wait: int, maxTime: int, defaultRetries: bool,
                                           zeroRetries: bool, oneBefore: bool, oneAfter: bool)
    ensures wait == 500 && maxTime == 2500
    ensures defaultRetries && !zeroRetries
    ensures oneBefore && !oneAfter
  {
    var pol := new ConstantPolicy();
    var pol0 := new ConstantPolicy(0);
    var pol1 := new ConstantPolicy(1);
    wait, maxTime := pol.CurrentWait(), pol.maxTime;
    defaultRetries := pol.ShouldRetry(NoError);
    zeroRetries := pol0.ShouldRetry(NoError);
    oneBefore := pol1.ShouldRetry(NoError);
    pol1.IncrementTry();
    oneAfter := pol1.ShouldRetry(NoError);
  }
}
