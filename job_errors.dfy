/**
 * What the job processor knows about a thrown value: its message, whether the failure is
 * worth retrying, and how long to wait before the retry.
 */
module JobErrors {
  import opened Wrappers
  import opened Text

  /**
   * A thrown value. `ErrorObject` is an `Error` instance (it may carry extra `code` and
   * `status` properties); `PlainObject` is any other object, with a string `message` or
   * without one; `Primitive` is a thrown string, number, `null` or `undefined`.
   */
  datatype Thrown =
    | ErrorObject(message: string, code: Option<string>, status: Option<int>)
    | PlainObject(messageField: Option<string>, code: Option<string>, status: Option<int>)
    | Primitive

  /** `new Error(m)`. */
  function Raised(m: string): Thrown {
    ErrorObject(m, None, None)
  }

  /** `isJobError`: an object whose `message` is a string. */
  predicate IsJobError(e: Thrown)
  {
    e.ErrorObject? || (e.PlainObject? && e.messageField.Some?)
  }

  /** `error instanceof Error ? error.message : 'Unknown error'`. */
  function ErrorMessage(e: Thrown): (m: string)
    ensures e.ErrorObject? ==> m == e.message
    ensures !e.ErrorObject? ==> m == "Unknown error"
  {
    if e.ErrorObject? then e.message else "Unknown error"
  }

  const NetworkTimeoutCode := "NETWORK_TIMEOUT"
  const ConnectionReset := "ECONNRESET"
  const TimedOut := "ETIMEDOUT"

  /** A present 5xx status (a falsy status of 0 is below the range anyway). */
  predicate IsServerStatus(status: Option<int>) {
    status.Some? && 500 <= status.value < 600
  }

  /** `isRetryableError`. */
  predicate IsRetryableError(e: Thrown) {
    IsJobError(e)
    && (e.code == Some(NetworkTimeoutCode)
        || IsServerStatus(e.status)
        || Contains(MessageOf(e), ConnectionReset)
        || Contains(MessageOf(e), TimedOut))
  }

  /** The message of a job error (the string `isRetryableError` searches). */
  function MessageOf(e: Thrown): string
    requires IsJobError(e)
  {
    if e.ErrorObject? then e.message else e.messageField.value
  }

  /**
   * Retryability, case by case: only objects with a string message qualify, and among them
   * exactly the network-timeout code, a 5xx status, or a message mentioning a reset or a timed-out connection.
   */
  lemma RetryableCases(e: Thrown)
    ensures !IsJobError(e) ==> !IsRetryableError(e)
    ensures e.Primitive? ==> !IsRetryableError(e)
    ensures IsJobError(e) && e.code == Some(NetworkTimeoutCode) ==> IsRetryableError(e)
    ensures IsJobError(e) && e.status.Some? && 500 <= e.status.value < 600 ==> IsRetryableError(e)
    ensures IsJobError(e) && e.code != Some(NetworkTimeoutCode) && !IsServerStatus(e.status)
            && !Contains(MessageOf(e), ConnectionReset) && !Contains(MessageOf(e), TimedOut)
            ==> !IsRetryableError(e)
  {
  }

  /** A message wrapped around `ECONNRESET` or `ETIMEDOUT` makes any job error retryable. */
  lemma MessageMentionRetryable(e: Thrown, before: string, after: string)
    requires IsJobError(e)
    requires MessageOf(e) == before + ConnectionReset + after || MessageOf(e) == before + TimedOut + after
    ensures IsRetryableError(e)
  {
    ContainsInfix(before, ConnectionReset, after);
    ContainsInfix(before, TimedOut, after);
  }

  /** `2 ** n`. */
  function Pow2(n: nat): (r: nat)
    ensures r >= 1
    decreases n
  {
    if n == 0 then 1 else 2 * Pow2(n - 1)
  }

  lemma {:induction false} Pow2Monotone(a: nat, b: nat)
    requires a <= b
    ensures Pow2(a) <= Pow2(b)
    decreases b
  {
    if a < b {
      Pow2Monotone(a, b - 1);
    }
  }

  const BaseDelay := 1000
  const MaxDelay := 30000

  /** `Math.min(1000 * Math.pow(2, retryCount), 30000)`, in milliseconds. */
  function Backoff(retryCount: nat): (delay: nat)
    ensures BaseDelay <= delay <= MaxDelay
  {
    if BaseDelay * Pow2(retryCount) < MaxDelay then BaseDelay * Pow2(retryCount) else MaxDelay
  }

  /** The delay doubles from one second until it reaches the thirty-second cap, and never decreases. */
  lemma BackoffSchedule(r: nat)
    ensures Backoff(0) == 1000 && Backoff(1) == 2000 && Backoff(2) == 4000
    ensures Backoff(3) == 8000 && Backoff(4) == 16000
    ensures Backoff(r + 5) == MaxDelay
    ensures Backoff(r) <= Backoff(r + 1)
    ensures Backoff(r + 1) == MaxDelay || Backoff(r + 1) == 2 * Backoff(r)
  {
    assert Pow2(1) == 2 && Pow2(2) == 4 && Pow2(3) == 8 && Pow2(4) == 16 && Pow2(5) == 32;
    Pow2Monotone(5, r + 5);
    Pow2Monotone(r, r + 1);
  }

  /** No occurrence of `sub` is possible when one of its characters is missing. */
  lemma AbsentCharExcludes(s: string, sub: string, i: nat)
    requires i < |sub| && sub[i] !in s
    ensures !Contains(s, sub)
  {
    if Contains(s, sub) {
      ContainedCharOccurs(s, sub, i);
      assert false;
    }
  }

  /** No occurrence of `sub` is possible when its first two characters never stand side by side. */
  lemma AbsentPairExcludes(s: string, sub: string)
    requires |sub| >= 2
    requires forall k :: 0 <= k < |s| - 1 && s[k] == sub[0] ==> s[k + 1] != sub[1]
    ensures !Contains(s, sub)
  {
    if Contains(s, sub) {
      ContainedPairOccurs(s, sub);
      assert false;
    }
  }
}
