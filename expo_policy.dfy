/*
 * src/ExpoPolicy.ts: a retry policy whose wait grows as `initWaitTime ^ retryCount`
 * and which refuses fatal errors.
 */
module ExpoPolicies {
  import opened Errors

  /** `Math.pow(base, exponent)` on integers, for a counter that is never negative. */
  function Pow(base: int, exponent: nat): (power: int)
    ensures exponent == 0 ==> power == 1
    ensures exponent == 1 ==> power == base
    ensures base >= 1 ==> power >= 1
    ensures base == 0 && exponent > 0 ==> power == 0
    ensures base < 0 && exponent % 2 == 0 ==> power > 0
    ensures base < 0 && exponent % 2 == 1 ==> power < 0
  {
    if exponent == 0 then 1 else base * Pow(base, exponent - 1)
  }

  /** Powers add their exponents: the wait at count m + n is the wait at count m times base^n. */
  lemma {:induction false} PowAdd(base: int, m: nat, n: nat)
    ensures Pow(base, m + n) == Pow(base, m) * Pow(base, n)
  {
    if n > 0 {
      PowAdd(base, m, n - 1);
      var a, b := Pow(base, m), Pow(base, n - 1);
      assert Pow(base, m + n) == base * (a * b);
      assert Pow(base, n) == base * b;
      MulRotate(base, a, b);
    }
  }

  /** Reordering a product of three factors. */
  lemma MulRotate(x: int, y: int, z: int)
    ensures x * (y * z) == y * (x * z)
  {
  }

  class ExpoPolicy {
    var maxTime: int
    var maxTries: int
    var initWaitTime: int
    /** Attempts counted so far; only IncrementTry changes it. */
    var retryCount: nat

    /** `new ExpoPolicy(maxTries = 5, initWaitTime = 500)`; no argument is validated. */
    constructor (maxTries: int := 5, initWaitTime: int := 500)
      ensures this.maxTries == maxTries && this.initWaitTime == initWaitTime
      ensures maxTime == maxTries * initWaitTime
      ensures retryCount == 0
      ensures CurrentWait() == 1
    {
      this.maxTries := maxTries;
      this.initWaitTime := initWaitTime;
      maxTime := maxTries * initWaitTime;
      retryCount := 0;
    }

    /**
     * The wait before the next attempt: 1 before any attempt, the configured unit
     * after the first, and one more factor of it per further attempt.
     */
    function CurrentWait(): (wait: int)
      reads this
      ensures retryCount == 0 ==> wait == 1
      ensures retryCount == 1 ==> wait == initWaitTime
      ensures retryCount > 0 ==> wait == initWaitTime * Pow(initWaitTime, retryCount - 1)
    {
      assert Pow(initWaitTime, 0) == 1;
      Pow(initWaitTime, retryCount)
    }

    /** Fatal errors are never retried; any other error is retried while budget remains. */
    function ShouldRetry(err: Error): (retry: bool)
      reads this
      ensures IsFatal(err) ==> !retry
      ensures !IsFatal(err) ==> (retry <==> retryCount < maxTries)
    {
      if IsFatal(err) then false
      else if retryCount < maxTries then true
      else false
    }

    /** Counts one more attempt, which multiplies the wait by the unit, and changes nothing else. */
    method IncrementTry()
      modifies this`retryCount
      ensures retryCount == old(retryCount) + 1
      ensures maxTries == old(maxTries) && maxTime == old(maxTime) && initWaitTime == old(initWaitTime)
      ensures CurrentWait() == old(CurrentWait()) * initWaitTime
      ensures forall err :: !old(ShouldRetry(err)) ==> !ShouldRetry(err)
    {
      retryCount := retryCount + 1;
    }
  }

  /**
   * The default policy starts at a wait of 1 and advertises 2500; a budget of zero
   * refuses before any attempt; a budget of one allows once and refuses after one
   * attempt, when its wait has become the unit.
   */
  method ExpoPolicyScenario() returns (wait: int, maxTime: int, defaultRetries: bool,
                                       zeroRetries: bool, oneBefore: bool, oneAfter: bool, waitAfter: int)
    ensures wait == 1 && maxTime == 2500
    ensures defaultRetries && !zeroRetries
    ensures oneBefore && !oneAfter && waitAfter == 500
  {
    var pol := new ExpoPolicy();
    var pol0 := new ExpoPolicy(0);
    var pol1 := new ExpoPolicy(1);
    wait, maxTime := pol.CurrentWait(), pol.maxTime;
    defaultRetries := pol.ShouldRetry(NoError);
    zeroRetries := pol0.ShouldRetry(NoError);
    oneBefore := pol1.ShouldRetry(NoError);
    pol1.IncrementTry();
    oneAfter := pol1.ShouldRetry(NoError);
    waitAfter := pol1.CurrentWait();
  }
}
