/** The `circuit_breaker` decorator of src/ShiroSightUtilities/circuit_breaker.py:
    a bounded retry loop around an asynchronous operation, with a deadline
    on every attempt.

    The wrapped operation is given as `op`, the outcome of its k-th
    invocation (k counted from 0). A deadline that elapses is the outcome
    `Timeout`, and so is a `TimeoutError` the operation raises itself
    (`asyncio.TimeoutError` is `TimeoutError` from Python 3.11 on, so the
    same `except` catches both); any other exception is `Fail` with its
    text. Every invocation
    receives the same arguments, so the operation is fully described by
    the sequence of its outcomes. */
module CircuitBreaker {
  import opened Common

  const DefaultMaxAttempts := 100
  const DefaultTimeout := 30
  const DefaultErrorMessage := "Operation failed"

  /** What one invocation of the wrapped operation does. */
  datatype Outcome<T> = Success(value: T) | Timeout | Fail(message: string)

  /** What the wrapper raises: Python's `TimeoutError`, or a plain `Exception`. */
  datatype WrapperError = TimeoutError(message: string) | OperationError(message: string)

  /** What a call of the decorated function gives its caller. */
  datatype Call<T> = Returned(value: T) | Raised(error: WrapperError)

  function TimeoutText(timeout: int): string {
    "Operation timed out after " + IntToString(timeout) + " seconds"
  }

  function ExhaustedText(errorMessage: string, lastFailure: string): string {
    errorMessage + ": " + lastFailure
  }

  function MaxAttemptsText(maxAttempts: int): string {
    "Maximum number of attempts (" + IntToString(maxAttempts) + ") exceeded"
  }

  /** The retry loop from the state `attempts` on (`attempts` is also the
      index of the next invocation, since only failures let the loop go on).
      Gives the call's result and the total number of invocations. */
  function Retry<T>(op: nat -> Outcome<T>, maxAttempts: int, timeout: int, errorMessage: string,
                    attempts: nat): (Call<T>, nat)
    decreases if attempts < maxAttempts then maxAttempts - attempts else 0
  {
    if attempts >= maxAttempts then
      (Raised(OperationError(MaxAttemptsText(maxAttempts))), attempts)
    else
      match op(attempts)
      case Success(v) => (Returned(v), attempts + 1)
      case Timeout => (Raised(TimeoutError(TimeoutText(timeout))), attempts + 1)
      case Fail(m) =>
        if attempts + 1 >= maxAttempts then
          (Raised(OperationError(ExhaustedText(errorMessage, m))), attempts + 1)
        else
          Retry(op, maxAttempts, timeout, errorMessage, attempts + 1)
  }

  /** The decorated function `wrapper`: invokes `op` until it succeeds, times
      out, or has failed `maxAttempts` times. */
  method Wrapper<T>(op: nat -> Outcome<T>, maxAttempts: int, timeout: int, errorMessage: string)
    returns (r: Call<T>, invocations: nat)
    ensures (r, invocations) == Retry(op, maxAttempts, timeout, errorMessage, 0)
    ensures maxAttempts <= 0 ==> invocations == 0 && r == Raised(OperationError(MaxAttemptsText(maxAttempts)))
    ensures maxAttempts > 0 ==> 1 <= invocations <= maxAttempts
  {
    var attempts: nat := 0;
    invocations := 0;
    while attempts < maxAttempts
      invariant invocations == attempts
      invariant maxAttempts > 0 ==> attempts < maxAttempts
      invariant Retry(op, maxAttempts, timeout, errorMessage, 0) == Retry(op, maxAttempts, timeout, errorMessage, attempts)
      decreases maxAttempts - attempts
    {
      var outcome := op(attempts);
      invocations := invocations + 1;
      match outcome {
        case Success(v) =>
          r := Returned(v);
          return;
        case Timeout =>
          r := Raised(TimeoutError(TimeoutText(timeout)));
          return;
        case Fail(m) =>
          attempts := attempts + 1;
          if attempts >= maxAttempts {
            r := Raised(OperationError(ExhaustedText(errorMessage, m)));
            return;
          }
      }
    }
    r := Raised(OperationError(MaxAttemptsText(maxAttempts)));
  }

  /** All invocations before the `k`-th failed with a non-timeout error. */
  ghost predicate FailsBefore<T>(op: nat -> Outcome<T>, k: nat) {
    forall i: nat :: i < k ==> op(i).Fail?
  }

  /** Failures before the `k`-th invocation only move the counter on. */
  lemma {:induction false} RetrySkipsFailures<T>(op: nat -> Outcome<T>, maxAttempts: int, timeout: int,
                                                 errorMessage: string, a: nat, k: nat)
    requires a <= k < maxAttempts
    requires FailsBefore(op, k)
    ensures Retry(op, maxAttempts, timeout, errorMessage, a) == Retry(op, maxAttempts, timeout, errorMessage, k)
    decreases k - a
  {
    if a < k {
      assert op(a).Fail?;
      RetrySkipsFailures(op, maxAttempts, timeout, errorMessage, a + 1, k);
    }
  }

  /** k non-timeout failures (k < maxAttempts) followed by a success: the
      wrapper returns that value unchanged, after exactly k + 1 invocations. */
  lemma SucceedsAfterFailures<T>(op: nat -> Outcome<T>, maxAttempts: int, timeout: int,
                                 errorMessage: string, k: nat, v: T)
    requires k < maxAttempts
    requires FailsBefore(op, k) && op(k) == Success(v)
    ensures Retry(op, maxAttempts, timeout, errorMessage, 0) == (Returned(v), k + 1)
  {
    RetrySkipsFailures(op, maxAttempts, timeout, errorMessage, 0, k);
  }

  /** The text of a timeout with the default limit. */
  lemma DefaultTimeoutText()
    ensures "Operation timed out after " + IntToString(DefaultTimeout) + " seconds"
         == "Operation timed out after 30 seconds"
  {
    assert DigitChar(3) == '3' && DigitChar(0) == '0';
    assert Pad(3, 1) == Pad(0, 0) + [DigitChar(3)] == "3";
    assert Pad(30, 2) == Pad(3, 1) + [DigitChar(0)] == "30";
    assert NumDigits(30) == 2;
    assert IntToString(DefaultTimeout) == "30";
  }

  /** A timeout on any attempt is fatal: `TimeoutError` is raised at once and
      the operation is not invoked again. */
  lemma TimeoutIsFatal<T>(op: nat -> Outcome<T>, maxAttempts: int, timeout: int,
                          errorMessage: string, k: nat)
    requires k < maxAttempts
    requires FailsBefore(op, k) && op(k) == Timeout
    ensures Retry(op, maxAttempts, timeout, errorMessage, 0)
         == (Raised(TimeoutError("Operation timed out after " + IntToString(timeout) + " seconds")), k + 1)
  {
    RetrySkipsFailures(op, maxAttempts, timeout, errorMessage, 0, k);
  }

  /** When every attempt fails, the operation is invoked exactly
      `maxAttempts` times and the raised text is the caller's label followed
      by the last failure's text. */
  lemma ExhaustsAttempts<T>(op: nat -> Outcome<T>, maxAttempts: int, timeout: int, errorMessage: string)
    requires maxAttempts > 0
    requires FailsBefore(op, maxAttempts)
    ensures Retry(op, maxAttempts, timeout, errorMessage, 0)
         == (Raised(OperationError(errorMessage + ": " + op(maxAttempts - 1).message)), maxAttempts)
  {
    RetrySkipsFailures(op, maxAttempts, timeout, errorMessage, 0, maxAttempts - 1);
  }

  /** The outcome of a call is decided by its last invocation, and every
      earlier invocation failed: the counter moves only on non-timeout
      failures and the number of invocations never exceeds `maxAttempts`. */
  lemma {:induction false} RetryShape<T>(op: nat -> Outcome<T>, maxAttempts: int, timeout: int,
                                         errorMessage: string, a: nat)
    requires FailsBefore(op, a)
    requires a < maxAttempts
    ensures var (r, n) := Retry(op, maxAttempts, timeout, errorMessage, a);
      a < n <= maxAttempts && FailsBefore(op, n - 1) &&
      match r
      case Returned(v) => op(n - 1) == Success(v)
      case Raised(TimeoutError(_)) => op(n - 1).Timeout?
      case Raised(OperationError(msg)) =>
        n == maxAttempts && op(n - 1).Fail? && msg == ExhaustedText(errorMessage, op(n - 1).message)
    decreases maxAttempts - a
  {
    if op(a).Fail? && a + 1 < maxAttempts {
      RetryShape(op, maxAttempts, timeout, errorMessage, a + 1);
    }
  }
}
