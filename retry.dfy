/**
  `withRetry`: call an asynchronous operation until it succeeds, sleeping
  between failed attempts with exponential backoff, and rethrow the last
  error once the retries are used up. The operation is foreign: the model
  takes the outcome of its k-th call (0-based) as `fn(k)`, and the sleeps
  are reported as the sequence of delays requested, not waited for.
*/
module Retry {
  import opened Wrappers

  const DefaultRetries: int := 2
  const DefaultBaseDelayMs: int := 200

  /** `options.retries ?? 2` and `options.baseDelayMs ?? 200`. */
  function OrDefault(option: Option<int>, default: int): (v: int)
    ensures option.Some? ==> v == option.value
    ensures option.None? ==> v == default
  {
    if option.Some? then option.value else default
  }

  /** `Math.pow(2, k)` for a whole `k`. */
  function Pow2(k: nat): (p: nat)
    ensures p >= 1
  {
    if k == 0 then 1 else 2 * Pow2(k - 1)
  }

  /** `baseDelayMs * Math.pow(2, attempt)`. */
  function Delay(baseDelayMs: int, attempt: nat): int {
    baseDelayMs * Pow2(attempt)
  }

  /** What a run of `withRetry` did: its outcome, how many times it called `fn`, and the delays it slept for. */
  datatype RetryRun<T, E> = RetryRun(outcome: Result<T, E>, calls: nat, delays: seq<int>)

  /** The run from attempt `attempt` on. */
  function RunFrom<T, E>(fn: nat -> Result<T, E>, retries: int, baseDelayMs: int, attempt: nat): RetryRun<T, E>
    decreases if retries > attempt then retries - attempt else 0
  {
    if fn(attempt).Success? then RetryRun(fn(attempt), attempt + 1, [])
    else if attempt >= retries then RetryRun(fn(attempt), attempt + 1, [])
    else
      var rest := RunFrom(fn, retries, baseDelayMs, attempt + 1);
      RetryRun(rest.outcome, rest.calls, [Delay(baseDelayMs, attempt)] + rest.delays)
  }

  /** How many calls a run makes when every call fails. */
  function MaxCalls(retries: int): nat {
    if retries > 0 then retries + 1 else 1
  }

  /** The backoff schedule for failed attempts `lo` up to (not including) `hi`. */
  function Schedule(baseDelayMs: int, lo: nat, hi: nat): (s: seq<int>)
    requires lo <= hi
    ensures |s| == hi - lo
    ensures forall k :: 0 <= k < |s| ==> s[k] == Delay(baseDelayMs, lo + k)
    decreases hi - lo
  {
    if lo == hi then [] else [Delay(baseDelayMs, lo)] + Schedule(baseDelayMs, lo + 1, hi)
  }

  /**
    From attempt `attempt`: a run succeeds with the first successful call
    and makes no call after it; otherwise it fails with the error of its last
    call after `retries + 1` calls in all; between calls it sleeps for the
    backoff schedule.
  */
  lemma {:induction false} RunFromFacts<T, E>(fn: nat -> Result<T, E>, retries: int, baseDelayMs: int, attempt: nat)
    requires attempt < MaxCalls(retries)
    ensures var r := RunFrom(fn, retries, baseDelayMs, attempt);
      attempt < r.calls <= MaxCalls(retries)
      && r.outcome == fn(r.calls - 1)
      && (forall k :: attempt <= k < r.calls - 1 ==> fn(k).Failure?)
      && (r.outcome.Failure? ==> r.calls == MaxCalls(retries))
      && r.delays == Schedule(baseDelayMs, attempt, r.calls - 1)
    decreases if retries > attempt then retries - attempt else 0
  {
    if fn(attempt).Failure? && attempt < retries {
      RunFromFacts(fn, retries, baseDelayMs, attempt + 1);
    }
  }

  /** `withRetry(fn, { retries, baseDelayMs })`, as a specification. */
  function WithRetrySpec<T, E>(fn: nat -> Result<T, E>, retries: Option<int>, baseDelayMs: Option<int>): RetryRun<T, E> {
    RunFrom(fn, OrDefault(retries, DefaultRetries), OrDefault(baseDelayMs, DefaultBaseDelayMs), 0)
  }

  /**
    The promises of `withRetry`: the result of the first successful call, with
    `fn` not called again; at most `retries + 1` calls; after that many
    failures the last error is rethrown; the delay after failed attempt `k`
    is `baseDelayMs * 2^k`.
  */
  lemma WithRetryPromises<T, E>(fn: nat -> Result<T, E>, retries: Option<int>, baseDelayMs: Option<int>)
    ensures var r := WithRetrySpec(fn, retries, baseDelayMs);
      var n := OrDefault(retries, DefaultRetries);
      1 <= r.calls <= MaxCalls(n)
      && r.outcome == fn(r.calls - 1)
      && (forall k :: 0 <= k < r.calls - 1 ==> fn(k).Failure?)
      && (r.outcome.Failure? ==> r.calls == MaxCalls(n))
      && |r.delays| == r.calls - 1
      && (forall k :: 0 <= k < |r.delays| ==> r.delays[k] == Delay(OrDefault(baseDelayMs, DefaultBaseDelayMs), k))
  {
    RunFromFacts(fn, OrDefault(retries, DefaultRetries), OrDefault(baseDelayMs, DefaultBaseDelayMs), 0);
  }

  /** With the defaults, an operation that always fails is called 3 times, with sleeps of 200 and 400 ms, 600 ms in all. */
  lemma DefaultsSleep600<T, E>(fn: nat -> Result<T, E>)
    requires forall k :: fn(k).Failure?
    ensures var r := WithRetrySpec(fn, None, None);
      r.calls == 3 && r.delays == [200, 400] && r.delays[0] + r.delays[1] == 600 && r.outcome == fn(2)
  {
    RunFromFacts(fn, DefaultRetries, DefaultBaseDelayMs, 0);
    var r := WithRetrySpec(fn, None, None);
    assert r.delays[0] == Delay(200, 0) && r.delays[1] == Delay(200, 1);
  }

  /** The `withRetry` loop. */
  method WithRetry<T, E>(fn: nat -> Result<T, E>, options: RetryOptions)
    returns (outcome: Result<T, E>, calls: nat, delays: seq<int>)
    ensures RetryRun(outcome, calls, delays) == WithRetrySpec(fn, options.retries, options.baseDelayMs)
  {
    var retries := OrDefault(options.retries, DefaultRetries);
    var baseDelayMs := OrDefault(options.baseDelayMs, DefaultBaseDelayMs);
    var attempt: nat := 0;
    delays := [];
    while true
      invariant var whole := RunFrom(fn, retries, baseDelayMs, 0);
        var rest := RunFrom(fn, retries, baseDelayMs, attempt);
        whole == RetryRun(rest.outcome, rest.calls, delays + rest.delays)
      decreases if retries > attempt then retries - attempt else 0
    {
      var result := fn(attempt);
      if result.Success? {
        return result, attempt + 1, delays;
      }
      if attempt >= retries {
        return result, attempt + 1, delays;
      }
      var delay := baseDelayMs * Pow2(attempt);
      delays := delays + [delay];
      attempt := attempt + 1;
    }
  }

  /** `options`: each field may be left out. */
  datatype RetryOptions = RetryOptions(retries: Option<int>, baseDelayMs: Option<int>)
}
