/** The backoff executor of lib/utils/retry.ts: `retryWithBackoff(fn, maxRetries, baseDelay)`.

    The wrapped operation is an oracle: `fn(k)` is what the k-th invocation (counting from 0)
    resolves to. Sleeping is not modelled; every delay actually waited is recorded instead. */
module Retry {
  import opened Common

  /** What a rejected call carries, as far as the executor looks at it: the `status` and `code`
      properties (absent ones are `None`) and the message a caller may report. */
  datatype CallError = CallError(status: Option<int>, code: Option<int>, message: string)

  /** `error?.status === 503 || error?.code === 503`. */
  predicate IsOverloaded(e: CallError)
  {
    e.status == Some(503) || e.code == Some(503)
  }

  /** What one invocation of the wrapped operation resolves to. */
  datatype Outcome<T> = Success(value: T) | Failure(error: CallError)

  /** How `retryWithBackoff` settles: with a value, or by throwing. `Threw(None)` is the throw of
      the never-assigned `lastError`, i.e. `undefined`. */
  datatype RetryResult<T> = Returned(value: T) | Threw(error: Option<CallError>)

  /** A whole run: how it settled, how many times `fn` was invoked, and the delays waited in order. */
  datatype Run<T> = Run(result: RetryResult<T>, calls: nat, waits: seq<nat>)

  const DefaultMaxRetries: int := 3
  const DefaultBaseDelay: nat := 1000

  function Pow2(k: nat): (r: nat)
    ensures r >= 1
  {
    if k == 0 then 1 else 2 * Pow2(k - 1)
  }

  /** `baseDelay * Math.pow(2, attempt)`; exact in floating point for the exponents that occur. */
  function Delay(baseDelay: nat, attempt: nat): nat
  {
    baseDelay * Pow2(attempt)
  }

  /** The delays `baseDelay * 2^i` for `from <= i < from + n`, in order. */
  function Delays(baseDelay: nat, from: nat, n: nat): (r: seq<nat>)
    ensures |r| == n
    ensures forall i :: 0 <= i < n ==> r[i] == Delay(baseDelay, from + i)
    decreases n
  {
    if n == 0 then [] else [Delay(baseDelay, from)] + Delays(baseDelay, from + 1, n - 1)
  }

  /** How one settled invocation is passed on when the loop stops on it. */
  function Settle<T>(o: Outcome<T>): RetryResult<T>
  {
    match o
    case Success(v) => Returned(v)
    case Failure(e) => Threw(Some(e))
  }

  /** The loop of `retryWithBackoff` from iteration `attempt` on, with `lastError` holding what the
      variable of that name holds there. */
  function RunFrom<T>(fn: nat -> Outcome<T>, maxRetries: int, baseDelay: nat, attempt: nat,
                      lastError: Option<CallError>): Run<T>
    decreases maxRetries - attempt
  {
    if attempt >= maxRetries then Run(Threw(lastError), 0, [])
    else
      match fn(attempt)
      case Success(v) => Run(Returned(v), 1, [])
      case Failure(e) =>
        if IsOverloaded(e) && attempt < maxRetries - 1 then
          var rest := RunFrom(fn, maxRetries, baseDelay, attempt + 1, Some(e));
          Run(rest.result, rest.calls + 1, [Delay(baseDelay, attempt)] + rest.waits)
        else
          Run(Threw(Some(e)), 1, [])
  }

  /** The run of `retryWithBackoff(fn, maxRetries, baseDelay)`. */
  function Retry<T>(fn: nat -> Outcome<T>, maxRetries: int, baseDelay: nat): Run<T>
  {
    RunFrom(fn, maxRetries, baseDelay, 0, None)
  }

  /** The loop, imperatively: it leaves by `return` on a success, by `continue` after waiting on
      a 503 that is not the last attempt, and by `throw` otherwise. */
  method RetryWithBackoff<T>(fn: nat -> Outcome<T>, maxRetries: int, baseDelay: nat)
    returns (result: RetryResult<T>, calls: nat, waits: seq<nat>)
    ensures Run(result, calls, waits) == Retry(fn, maxRetries, baseDelay)
  {
    var lastError: Option<CallError> := None;
    calls, waits := 0, [];
    var attempt: nat := 0;
    while attempt < maxRetries
      invariant calls == attempt
      invariant attempt > 0 ==> attempt < maxRetries
      invariant var rest := RunFrom(fn, maxRetries, baseDelay, attempt, lastError);
        Retry(fn, maxRetries, baseDelay) == Run(rest.result, rest.calls + calls, waits + rest.waits)
      decreases maxRetries - attempt
    {
      var outcome := fn(attempt);
      calls := calls + 1;
      match outcome {
        case Success(v) =>
          result := Returned(v);
          return;
        case Failure(e) =>
          lastError := Some(e);
          if IsOverloaded(e) {
            var delay := Delay(baseDelay, attempt);
            if attempt < maxRetries - 1 {
              waits := waits + [delay];
              attempt := attempt + 1;
              continue;
            }
          }
          result := Threw(Some(e));
          return;
      }
    }
    result := Threw(lastError);
  }

  /** Stepping the loop from `attempt` through a run of 503s up to the attempt `k` that ends it. */
  lemma {:induction false} RunFromStopsAt<T>(fn: nat -> Outcome<T>, maxRetries: int, baseDelay: nat,
                                             attempt: nat, lastError: Option<CallError>, k: nat)
    requires attempt <= k < maxRetries
    requires forall i :: attempt <= i < k ==> fn(i).Failure? && IsOverloaded(fn(i).error)
    requires k == maxRetries - 1 || !(fn(k).Failure? && IsOverloaded(fn(k).error))
    ensures RunFrom(fn, maxRetries, baseDelay, attempt, lastError)
         == Run(Settle(fn(k)), k - attempt + 1, Delays(baseDelay, attempt, k - attempt))
    decreases k - attempt
  {
    if attempt < k {
      RunFromStopsAt(fn, maxRetries, baseDelay, attempt + 1, Some(fn(attempt).error), k);
    }
  }

  /** The executor stops at the first attempt `k` that is not a 503 failure, or at the last allowed
      attempt: it has then invoked `fn` exactly `k + 1` times, waited `baseDelay * 2^i` for each
      `i < k` and no more, and settles as attempt `k` did. This covers returning the first success
      unchanged, rethrowing a non-503 error at once, and throwing the last 503 error once
      `maxRetries` attempts are used up. */
  lemma RetryStopsAt<T>(fn: nat -> Outcome<T>, maxRetries: int, baseDelay: nat, k: nat)
    requires k < maxRetries
    requires forall i :: 0 <= i < k ==> fn(i).Failure? && IsOverloaded(fn(i).error)
    requires k == maxRetries - 1 || !(fn(k).Failure? && IsOverloaded(fn(k).error))
    ensures Retry(fn, maxRetries, baseDelay) == Run(Settle(fn(k)), k + 1, Delays(baseDelay, 0, k))
  {
    RunFromStopsAt(fn, maxRetries, baseDelay, 0, None, k);
  }

  /** Whatever the outcomes, `fn` is invoked at most `maxRetries` times and at least once when
      `maxRetries > 0`; one wait separates consecutive invocations, the i-th being
      `baseDelay * 2^i`; and the run settles as its last invocation did. */
  lemma RetryBounds<T>(fn: nat -> Outcome<T>, maxRetries: int, baseDelay: nat)
    requires maxRetries > 0
    ensures var r := Retry(fn, maxRetries, baseDelay);
      && 1 <= r.calls <= maxRetries
      && r.waits == Delays(baseDelay, 0, r.calls - 1)
      && r.result == Settle(fn(r.calls - 1))
  {
    var k: nat := 0;
    while k < maxRetries - 1 && fn(k).Failure? && IsOverloaded(fn(k).error)
      invariant k < maxRetries
      invariant forall i :: 0 <= i < k ==> fn(i).Failure? && IsOverloaded(fn(i).error)
      decreases maxRetries - k
    {
      k := k + 1;
    }
    RetryStopsAt(fn, maxRetries, baseDelay, k);
  }

  /** With no attempts allowed, `fn` is never invoked and the unassigned `lastError` is thrown. */
  lemma RetryNoAttempts<T>(fn: nat -> Outcome<T>, maxRetries: int, baseDelay: nat)
    requires maxRetries <= 0
    ensures Retry(fn, maxRetries, baseDelay) == Run(Threw(None), 0, [])
  {
  }

  /** With the defaults, two 503 failures and then a success: the success value is returned after
      three invocations, with waits of 1000 and then 2000. */
  lemma RetryDefaultsTwoOverloadsThenSuccess<T>(fn: nat -> Outcome<T>, e0: CallError, e1: CallError, v: T)
    requires fn(0) == Failure(e0) && IsOverloaded(e0)
    requires fn(1) == Failure(e1) && IsOverloaded(e1)
    requires fn(2) == Success(v)
    ensures Retry(fn, DefaultMaxRetries, DefaultBaseDelay) == Run(Returned(v), 3, [1000, 2000])
  {
    RetryStopsAt(fn, DefaultMaxRetries, DefaultBaseDelay, 2);
    assert Delays(DefaultBaseDelay, 0, 2) == [1000, 2000];
  }

  /** With the defaults and three 503 failures, the third error is thrown after three invocations
      and two waits; the 4000 computed on the last attempt is never waited. */
  lemma RetryDefaultsAllOverloaded<T>(fn: nat -> Outcome<T>)
    requires forall i :: 0 <= i < 3 ==> fn(i).Failure? && IsOverloaded(fn(i).error)
    ensures Retry(fn, DefaultMaxRetries, DefaultBaseDelay) == Run(Threw(Some(fn(2).error)), 3, [1000, 2000])
  {
    RetryStopsAt(fn, DefaultMaxRetries, DefaultBaseDelay, 2);
    assert Delays(DefaultBaseDelay, 0, 2) == [1000, 2000];
  }
}
