/** The retry loop and its doubling, saturating backoff. */
module Retry {
  import opened Prelude

  /** Nanoseconds; the largest duration is 2^64 - 1 seconds and 999,999,999 ns. */
  const DURATION_MAX: nat := 0xFFFF_FFFF_FFFF_FFFF * 1_000_000_000 + 999_999_999

  type Duration = d: nat | d <= DURATION_MAX

  datatype RetryPolicy = RetryPolicy(maxAttempts: nat, initialBackoff: Duration, maxBackoff: Duration)

  function CheckedDouble(d: Duration): Option<Duration> {
    if 2 * d <= DURATION_MAX then Some(2 * d) else None
  }

  function NextBackoff(current: Duration, max: Duration): Duration {
    if current == 0 || max == 0 then 0
    else
      var doubled := match CheckedDouble(current) case Some(d) => d case None => max;
      Min(doubled, max)
  }

  function Pow2(n: nat): nat { if n == 0 then 1 else 2 * Pow2(n - 1) }

  /** The `n`-th wait in closed form, with no overflow in sight. */
  function Wait(policy: RetryPolicy, n: nat): nat {
    if n == 0 then policy.initialBackoff else Min(policy.initialBackoff * Pow2(n), policy.maxBackoff)
  }

  lemma DoublingGrows(x: nat, n: nat)
    ensures x * Pow2(n) >= x && x * Pow2(n + 1) == 2 * (x * Pow2(n))
    decreases n
  {
    if n != 0 {
      DoublingGrows(x, n - 1);
    }
  }

  /** One step of the saturating recurrence, through the overflow branch too. */
  lemma NextWait(policy: RetryPolicy, n: nat)
    ensures Wait(policy, n) <= DURATION_MAX
    ensures NextBackoff(Wait(policy, n), policy.maxBackoff) == Wait(policy, n + 1)
  {
    DoublingGrows(policy.initialBackoff, n);
  }

  function Sum(s: seq<nat>): nat { if s == [] then 0 else Sum(s[..|s| - 1]) + s[|s| - 1] }

  predicate Retries<T, E>(r: Result<T, E>, shouldRetry: E -> bool) { r.Err? && shouldRetry(r.error) }

  function Outcomes<T, E>(outcome: nat -> Result<T, E>, attempts: nat): (r: seq<Result<T, E>>)
    ensures |r| == attempts && forall i :: 0 <= i < attempts ==> r[i] == outcome(i)
  {
    seq(attempts, i requires 0 <= i < attempts => outcome(i))
  }

  /**
   A complete run of the retry loop: every call but the last failed retryably,
   the last one did not or used up the attempts, and the pauses follow the
   backoff.
   */
  ghost predicate RetryRun<T, E>(policy: RetryPolicy, results: seq<Result<T, E>>, shouldRetry: E -> bool,
                                 waits: seq<nat>) {
    && 1 <= |results| <= Max(policy.maxAttempts, 1)
    && (forall i :: 0 <= i < |results| - 1 ==> Retries(results[i], shouldRetry))
    && (|results| == Max(policy.maxAttempts, 1) || !Retries(results[|results| - 1], shouldRetry))
    && |waits| == |results| - 1
    && (forall n :: 0 <= n < |waits| ==> waits[n] == Wait(policy, n))
  }

  /**
   Run an operation whose `i`-th call answers `outcome(i)`. The clauses fix the
   number of calls: every call but the last failed retryably, and the last one
   succeeded, failed for good, or used up the attempts. `waits` lists the pause
   after each failed call; a pause of zero is not slept.
   */
  method RetryIf<T, E>(policy: RetryPolicy, outcome: nat -> Result<T, E>, shouldRetry: E -> bool)
    returns (result: Result<T, E>, attempts: nat, waits: seq<nat>)
    ensures 1 <= attempts <= Max(policy.maxAttempts, 1)
    ensures result == outcome(attempts - 1)
    ensures forall i :: 0 <= i < attempts - 1 ==> Retries(outcome(i), shouldRetry)
    ensures attempts == Max(policy.maxAttempts, 1) || !Retries(result, shouldRetry)
    ensures |waits| == attempts - 1 && forall n :: 0 <= n < |waits| ==> waits[n] == Wait(policy, n)
    ensures RetryRun(policy, Outcomes(outcome, attempts), shouldRetry, waits)
  {
    var maxAttempts := Max(policy.maxAttempts, 1);
    var backoff := policy.initialBackoff;
    attempts, waits := 0, [];
    while true
      invariant attempts < maxAttempts
      invariant forall i :: 0 <= i < attempts ==> Retries(outcome(i), shouldRetry)
      invariant |waits| == attempts && forall n :: 0 <= n < |waits| ==> waits[n] == Wait(policy, n)
      invariant backoff == Wait(policy, attempts)
      decreases maxAttempts - attempts
    {
      result := outcome(attempts);
      attempts := attempts + 1;
      match result
      case Ok(_) => break;
      case Err(error) =>
        if attempts < maxAttempts && shouldRetry(error) {
          waits := waits + [backoff];
          NextWait(policy, attempts - 1);
          backoff := NextBackoff(backoff, policy.maxBackoff);
        } else {
          break;
        }
    }
    OutcomesRun(policy, outcome, shouldRetry, attempts, waits);
  }

  lemma OutcomesRun<T, E>(policy: RetryPolicy, outcome: nat -> Result<T, E>, shouldRetry: E -> bool, attempts: nat,
                          waits: seq<nat>)
    requires 1 <= attempts <= Max(policy.maxAttempts, 1)
    requires forall i :: 0 <= i < attempts - 1 ==> Retries(outcome(i), shouldRetry)
    requires attempts == Max(policy.maxAttempts, 1) || !Retries(outcome(attempts - 1), shouldRetry)
    requires |waits| == attempts - 1 && forall n :: 0 <= n < |waits| ==> waits[n] == Wait(policy, n)
    ensures RetryRun(policy, Outcomes(outcome, attempts), shouldRetry, waits)
  {
  }

  /** Whatever the results, the time spent waiting is bounded by the policy. */
  lemma {:induction false} TotalWait(policy: RetryPolicy, waits: seq<nat>)
    requires forall n :: 0 <= n < |waits| ==> waits[n] == Wait(policy, n)
    ensures waits != [] ==> Sum(waits) <= policy.initialBackoff + (|waits| - 1) * policy.maxBackoff
  {
    if |waits| > 1 {
      TotalWait(policy, waits[..|waits| - 1]);
    } else if |waits| == 1 {
      assert waits[..0] == [];
    }
  }

  /** Once a wait reaches the cap, every later one equals it. */
  lemma WaitsSaturate(policy: RetryPolicy, n: nat, m: nat)
    requires 0 < n <= m && Wait(policy, n) == policy.maxBackoff
    ensures Wait(policy, m) == policy.maxBackoff
  {
    if n < m {
      WaitsSaturate(policy, n, m - 1);
      DoublingGrows(policy.initialBackoff, m - 1);
    }
  }
}
