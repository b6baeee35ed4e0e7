/**
 * The fixed-delay retry wrapper around the scraper's page fetch
 * (`createRetryHttpClient`): the base client is called once, then called
 * again after a fixed sleep for as long as the latest answer is a failure
 * with a retryable status code and attempts remain.
 */
module RetryHttpClient {
  import opened Common

  /** What one page fetch answers: success flag, HTTP status (0 for a network error) and body. */
  datatype FetchResult = FetchResult(success: bool, statusCode: int, html: Option<string>)

  datatype RetryConfig = RetryConfig(maxRetries: int, retryDelayMs: int, retryableStatusCodes: seq<int>)

  /** A `Partial<RetryConfig>`: each field may be left out. */
  datatype PartialRetryConfig =
    PartialRetryConfig(maxRetries: Option<int>, retryDelayMs: Option<int>, retryableStatusCodes: Option<seq<int>>)

  const DefaultMaxRetries: int := 3
  const DefaultRetryDelayMs: int := 60000
  /** 429 Too Many Requests, 503 Service Unavailable, and 0 for a network error. */
  const DefaultRetryableStatusCodes: seq<int> := [429, 503, 0]
  const DefaultRetryConfig: RetryConfig :=
    RetryConfig(DefaultMaxRetries, DefaultRetryDelayMs, DefaultRetryableStatusCodes)

  /** The supplied value of a field, or the default when it was left out. */
  function Override<T>(given: Option<T>, default: T): T {
    if given.Some? then given.value else default
  }

  /** `{ ...DEFAULT_RETRY_CONFIG, ...config }`. */
  function MergeConfig(config: Option<PartialRetryConfig>): RetryConfig {
    if config.None? then DefaultRetryConfig
    else
      var p := config.value;
      RetryConfig(
        Override(p.maxRetries, DefaultMaxRetries),
        Override(p.retryDelayMs, DefaultRetryDelayMs),
        Override(p.retryableStatusCodes, DefaultRetryableStatusCodes))
  }

  /** A partial configuration replaces exactly the fields it supplies; the rest keep their defaults. */
  lemma MergeOverridesSuppliedFields(p: PartialRetryConfig)
    ensures var c := MergeConfig(Some(p));
      && (p.maxRetries.Some? ==> c.maxRetries == p.maxRetries.value)
      && (p.maxRetries.None? ==> c.maxRetries == 3)
      && (p.retryDelayMs.Some? ==> c.retryDelayMs == p.retryDelayMs.value)
      && (p.retryDelayMs.None? ==> c.retryDelayMs == 60000)
      && (p.retryableStatusCodes.Some? ==> c.retryableStatusCodes == p.retryableStatusCodes.value)
      && (p.retryableStatusCodes.None? ==> c.retryableStatusCodes == [429, 503, 0])
  {
  }

  /** No configuration and an empty one both give the defaults; a complete one is taken as it is. */
  lemma MergeDefaults(c: RetryConfig)
    ensures MergeConfig(None) == MergeConfig(Some(PartialRetryConfig(None, None, None))) == DefaultRetryConfig
    ensures MergeConfig(Some(PartialRetryConfig(Some(c.maxRetries), Some(c.retryDelayMs), Some(c.retryableStatusCodes)))) == c
  {
  }

  /** The wrapper hands `r` back without retrying: it succeeded, or its status is not retryable. */
  predicate IsFinal(config: RetryConfig, r: FetchResult) {
    r.success || r.statusCode !in config.retryableStatusCodes
  }

  /** The most calls of the base client one fetch can make: `maxRetries`, but never fewer than one. */
  function CallLimit(config: RetryConfig): (n: nat)
    ensures n >= 1 && n >= config.maxRetries
  {
    if config.maxRetries >= 1 then config.maxRetries else 1
  }

  /**
   * `fetchWithRateLimit(url)` of the wrapped client. The base client is the
   * oracle `base`: `base(k)` is what its `k`-th call (from 0) answers for this
   * url. Besides the answer, the method reports how many base calls it made and
   * the sleeps it requested, in order.
   */
  method FetchWithRateLimit(config: RetryConfig, base: nat -> FetchResult)
    returns (r: FetchResult, calls: nat, sleeps: seq<int>)
    ensures 1 <= calls <= CallLimit(config)
    ensures r == base(calls - 1)
    ensures forall k :: 0 <= k < calls - 1 ==> !base(k).success && base(k).statusCode in config.retryableStatusCodes
    ensures calls < CallLimit(config) ==> IsFinal(config, r)
    ensures |sleeps| == calls - 1 && forall k :: 0 <= k < |sleeps| ==> sleeps[k] == config.retryDelayMs
  {
    var attempt := 0;
    var lastResult := base(0);
    calls, sleeps := 1, [];
    while attempt < config.maxRetries - 1
      invariant 0 <= attempt && calls == attempt + 1 <= CallLimit(config)
      invariant lastResult == base(attempt)
      invariant forall k :: 0 <= k < attempt ==> !IsFinal(config, base(k))
      invariant |sleeps| == attempt && forall k :: 0 <= k < |sleeps| ==> sleeps[k] == config.retryDelayMs
      decreases config.maxRetries - attempt
    {
      if IsFinal(config, lastResult) {
        return lastResult, calls, sleeps;
      }
      attempt := attempt + 1;
      sleeps := sleeps + [config.retryDelayMs];
      lastResult := base(attempt);
      calls := calls + 1;
    }
    r := lastResult;
  }

  /** The number of base calls a fetch makes, defined directly: the first final answer, or the limit. */
  function CallsNeeded(config: RetryConfig, base: nat -> FetchResult, k: nat): (n: nat)
    requires k < CallLimit(config)
    ensures k < n <= CallLimit(config)
    decreases CallLimit(config) - k
  {
    if k + 1 == CallLimit(config) || IsFinal(config, base(k)) then k + 1
    else CallsNeeded(config, base, k + 1)
  }

  /**
   * The method's contract pins the number of calls down completely: any count
   * that satisfies it is the one `CallsNeeded` defines.
   */
  lemma {:induction false} CallsDetermined(config: RetryConfig, base: nat -> FetchResult, calls: nat, k: nat)
    requires k < calls <= CallLimit(config)
    requires forall i :: 0 <= i < calls - 1 ==> !IsFinal(config, base(i))
    requires calls < CallLimit(config) ==> IsFinal(config, base(calls - 1))
    ensures CallsNeeded(config, base, k) == calls
    decreases CallLimit(config) - k
  {
    if k + 1 < calls {
      assert !IsFinal(config, base(k));
      CallsDetermined(config, base, calls, k + 1);
    }
  }

  /** With the default configuration a fetch makes between one and three base calls and sleeps 60 s before each retry. */
  method DefaultFetch(base: nat -> FetchResult) returns (r: FetchResult, calls: nat, sleeps: seq<int>)
    ensures 1 <= calls <= 3
    ensures r == base(calls - 1)
    ensures forall k :: 0 <= k < |sleeps| ==> sleeps[k] == 60000
    ensures calls < 3 ==> r.success || r.statusCode !in [429, 503, 0]
  {
    r, calls, sleeps := FetchWithRateLimit(MergeConfig(None), base);
  }
}
