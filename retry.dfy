/**
  The frontend's `retry` helper: call an async function up to `maxRetries + 1`
  times, stop at the first success, rethrow at once an error `shouldRetry`
  declines, and between attempts call `onRetry` and wait, doubling the wait when
  backoff is on. The function's outcome on each call is given by the call's
  index; `onRetry`, the `shouldRetry` consultations and the waits are recorded
  in a log instead of being performed.
*/
module Retry {
  import opened Wrappers
  import opened FrontendErrors

  /** What the returned promise does: resolve with a value or reject with an error
      (`Primitive` stands for `undefined`). */
  datatype RetryResult<T> = Resolved(value: T) | Rejected(error: Thrown)

  datatype RetryEvent =
    | Consulted(attempt: nat)
    | OnRetry(attempt: nat, error: Thrown)
    | Sleep(ms: int)

  datatype RetryRun<T> = RetryRun(result: RetryResult<T>, log: seq<RetryEvent>, calls: nat)

  /** The options as given; `None` is an option left out. */
  datatype RetryOptions = RetryOptions(
    maxRetries: Option<int>,
    retryDelay: Option<int>,
    backoff: Option<bool>,
    shouldRetry: Option<Thrown -> bool>)

  datatype Settings = Settings(maxRetries: int, retryDelay: int, backoff: bool, shouldRetry: Thrown -> bool)

  const DefaultMaxRetries := 3
  const DefaultRetryDelay := 1000

  /** The default `shouldRetry`: the error is a network error. */
  predicate DefaultShouldRetry(error: Thrown) {
    IsNetworkError(error) == Some(true)
  }

  /** `{...defaultOptions, ...options}`: each option given overrides its default. */
  function Effective(options: RetryOptions): (s: Settings)
    ensures s.maxRetries == (if options.maxRetries.Some? then options.maxRetries.value else 3)
    ensures s.retryDelay == (if options.retryDelay.Some? then options.retryDelay.value else 1000)
    ensures s.backoff == (options.backoff.None? || options.backoff.value)
    ensures options.shouldRetry.None? ==> s.shouldRetry == DefaultShouldRetry
    ensures options.shouldRetry.Some? ==> s.shouldRetry == options.shouldRetry.value
  {
    Settings(
      options.maxRetries.GetOr(DefaultMaxRetries),
      options.retryDelay.GetOr(DefaultRetryDelay),
      options.backoff.GetOr(true),
      options.shouldRetry.GetOr(DefaultShouldRetry))
  }

  function Pow2(n: nat): (p: nat)
    ensures p >= 1
  {
    if n == 0 then 1 else 2 * Pow2(n - 1)
  }

  /** The wait after failed attempt `attempt`: `retryDelay * 2^attempt` with backoff. */
  function Delay(s: Settings, attempt: nat): int {
    if s.backoff then s.retryDelay * Pow2(attempt) else s.retryDelay
  }

  /** With backoff each wait is twice the one before; without, all waits are equal. */
  lemma DelayDoubles(s: Settings, attempt: nat)
    ensures Delay(s, 0) == s.retryDelay
    ensures s.backoff ==> Delay(s, attempt + 1) == 2 * Delay(s, attempt)
    ensures !s.backoff ==> Delay(s, attempt + 1) == Delay(s, attempt)
  {
  }

  /** The run from attempt `attempt` on, once the attempts before it have failed and
      been retried. */
  function RunFrom<T>(fn: nat -> Completion<T>, s: Settings, attempt: nat): RetryRun<T>
    requires attempt <= s.maxRetries
    decreases s.maxRetries - attempt
  {
    match fn(attempt)
    case Returned(v) => RetryRun(Resolved(v), [], attempt + 1)
    case Threw(e) =>
      if attempt == s.maxRetries then RetryRun(Rejected(e), [], attempt + 1)
      else if !s.shouldRetry(e) then RetryRun(Rejected(e), [Consulted(attempt)], attempt + 1)
      else
        var rest := RunFrom(fn, s, attempt + 1);
        RetryRun(rest.result, [Consulted(attempt), OnRetry(attempt + 1, e), Sleep(Delay(s, attempt))] + rest.log, rest.calls)
  }

  /** The whole run; with a negative `maxRetries` the loop never runs and the
      `undefined` last error is thrown. */
  function Run<T>(fn: nat -> Completion<T>, s: Settings): RetryRun<T> {
    if s.maxRetries < 0 then RetryRun(Rejected(Primitive), [], 0) else RunFrom(fn, s, 0)
  }

  /** `retry`: the `for` loop over attempts. */
  method Retry<T>(fn: nat -> Completion<T>, s: Settings) returns (result: RetryResult<T>, log: seq<RetryEvent>, calls: nat)
    ensures RetryRun(result, log, calls) == Run(fn, s)
  {
    log := [];
    calls := 0;
    var lastError := Primitive;
    var attempt := 0;
    while attempt <= s.maxRetries
      invariant 0 <= attempt
      invariant attempt == 0 || attempt <= s.maxRetries
      invariant calls == attempt
      invariant attempt == 0 ==> log == [] && lastError == Primitive
      invariant attempt <= s.maxRetries ==>
        var rest := RunFrom(fn, s, attempt);
        Run(fn, s) == RetryRun(rest.result, log + rest.log, rest.calls)
      decreases s.maxRetries - attempt
    {
      var outcome := fn(attempt);
      calls := calls + 1;
      if outcome.Returned? {
        assert log + [] == log;
        return Resolved(outcome.value), log, calls;
      }
      lastError := outcome.error;
      if attempt == s.maxRetries {
        assert log + [] == log;
        assert Run(fn, s) == RetryRun(Rejected(lastError), log, calls);
        break;
      }
      if !s.shouldRetry(outcome.error) {
        log := log + [Consulted(attempt)];
        return Rejected(outcome.error), log, calls;
      }
      ghost var rest := RunFrom(fn, s, attempt + 1);
      var step := [Consulted(attempt), OnRetry(attempt + 1, outcome.error), Sleep(Delay(s, attempt))];
      assert (log + step) + rest.log == log + (step + rest.log);
      log := log + step;
      attempt := attempt + 1;
    }
    result := Rejected(lastError);
  }

  /** `fn` is called at least once and at most `maxRetries + 1` times (never with a
      negative `maxRetries`), and no more often than up to its first success. */
  lemma {:induction false} CallsBounded<T>(fn: nat -> Completion<T>, s: Settings, attempt: nat)
    requires attempt <= s.maxRetries
    ensures attempt < RunFrom(fn, s, attempt).calls <= s.maxRetries + 1
    ensures RunFrom(fn, s, attempt).result.Resolved? ==> fn(RunFrom(fn, s, attempt).calls - 1).Returned?
    decreases s.maxRetries - attempt
  {
    if fn(attempt).Threw? && attempt < s.maxRetries && s.shouldRetry(fn(attempt).error) {
      CallsBounded(fn, s, attempt + 1);
    }
  }

  /** Every attempt before `k` failed with an error `shouldRetry` accepted. */
  predicate RetriedBefore<T>(fn: nat -> Completion<T>, s: Settings, k: nat) {
    forall j :: 0 <= j < k ==> fn(j).Threw? && s.shouldRetry(fn(j).error)
  }

  /** The run from `attempt` when every attempt from there to `k` failed and was
      retried: the log is one `[Consulted, OnRetry, Sleep]` triple per retried attempt
      followed by the run from `k`. */
  lemma {:induction false} RunThrough<T>(fn: nat -> Completion<T>, s: Settings, attempt: nat, k: nat)
    requires attempt <= k <= s.maxRetries
    requires RetriedBefore(fn, s, k)
    ensures var here := RunFrom(fn, s, attempt);
      var there := RunFrom(fn, s, k);
      && here.result == there.result && here.calls == there.calls
      && |here.log| == 3 * (k - attempt) + |there.log|
      && here.log[3 * (k - attempt)..] == there.log
      && forall j :: attempt <= j < k ==>
           here.log[3 * (j - attempt)..3 * (j - attempt) + 3]
             == [Consulted(j), OnRetry(j + 1, fn(j).error), Sleep(Delay(s, j))]
    decreases k - attempt
  {
    if attempt < k {
      RunThrough(fn, s, attempt + 1, k);
      var here := RunFrom(fn, s, attempt);
      var next := RunFrom(fn, s, attempt + 1);
      var step := [Consulted(attempt), OnRetry(attempt + 1, fn(attempt).error), Sleep(Delay(s, attempt))];
      assert here.log == step + next.log;
      forall j | attempt <= j < k
        ensures here.log[3 * (j - attempt)..3 * (j - attempt) + 3]
                == [Consulted(j), OnRetry(j + 1, fn(j).error), Sleep(Delay(s, j))]
      {
        if j > attempt {
          assert here.log[3 * (j - attempt)..3 * (j - attempt) + 3]
              == next.log[3 * (j - attempt - 1)..3 * (j - attempt - 1) + 3];
        }
      }
    }
  }

  /** The first success is returned at once: after `k` retried failures, a success on
      attempt `k` resolves with its value after `k + 1` calls, with `onRetry(j + 1, e)`
      and a wait of `Delay(j)` after each failed attempt `j`. */
  lemma FirstSuccessReturned<T>(fn: nat -> Completion<T>, s: Settings, k: nat)
    requires 0 <= k <= s.maxRetries
    requires RetriedBefore(fn, s, k)
    requires fn(k).Returned?
    ensures Run(fn, s).result == Resolved(fn(k).value)
    ensures Run(fn, s).calls == k + 1
    ensures |Run(fn, s).log| == 3 * k
    ensures forall j :: 0 <= j < k ==>
      Run(fn, s).log[3 * j..3 * j + 3] == [Consulted(j), OnRetry(j + 1, fn(j).error), Sleep(Delay(s, j))]
  {
    RunThrough(fn, s, 0, k);
  }

  /** An error `shouldRetry` declines on a non-final attempt is rethrown at once. */
  lemma DeclinedErrorRethrown<T>(fn: nat -> Completion<T>, s: Settings, k: nat)
    requires 0 <= k < s.maxRetries
    requires RetriedBefore(fn, s, k)
    requires fn(k).Threw? && !s.shouldRetry(fn(k).error)
    ensures Run(fn, s).result == Rejected(fn(k).error)
    ensures Run(fn, s).calls == k + 1
    ensures |Run(fn, s).log| == 3 * k + 1 && Run(fn, s).log[3 * k] == Consulted(k)
  {
    RunThrough(fn, s, 0, k);
  }

  /** A failure of the final attempt is thrown without consulting `shouldRetry` and
      without a further `onRetry` or wait. */
  lemma FinalFailureThrown<T>(fn: nat -> Completion<T>, s: Settings)
    requires 0 <= s.maxRetries
    requires RetriedBefore(fn, s, s.maxRetries)
    requires fn(s.maxRetries).Threw?
    ensures Run(fn, s).result == Rejected(fn(s.maxRetries).error)
    ensures Run(fn, s).calls == s.maxRetries + 1
    ensures |Run(fn, s).log| == 3 * s.maxRetries
    ensures Consulted(s.maxRetries) !in Run(fn, s).log
  {
    RunThrough(fn, s, 0, s.maxRetries);
    var log := Run(fn, s).log;
    forall i | 0 <= i < |log|
      ensures log[i] != Consulted(s.maxRetries)
    {
      var j := i / 3;
      assert 0 <= j < s.maxRetries && 3 * j <= i < 3 * j + 3;
      var triple := [Consulted(j), OnRetry(j + 1, fn(j).error), Sleep(Delay(s, j))];
      assert log[3 * j..3 * j + 3] == triple;
      assert log[i] == triple[i - 3 * j];
    }
  }
}
