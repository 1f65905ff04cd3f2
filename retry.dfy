/**
 * The configuration half of the retry agent in src/agents/retry.rs: the
 * back-off strategies, the delay before each retry and the failure
 * predicate. The attempt loop itself runs an inner agent and lives with
 * the other agents in module Agents.
 */
module Retry {
  import opened Prelude
  import opened Text

  /** Back-off strategies, with durations in whole milliseconds. */
  datatype RetryStrategy =
    | Fixed(delay: nat)
    | Linear(initial: nat, increment: nat, max: nat)

  /**
   * Everything a retry agent holds besides its inner agent. A `None`
   * condition means the built-in failure test.
   */
  datatype RetryConfig = RetryConfig(
    maxRetries: nat,
    strategy: RetryStrategy,
    retryCondition: Option<string -> bool>,
    name: string,
    verbose: bool)

  /** `RetryAgent::new`: three retries one second apart, named after the inner agent. */
  function NewRetryConfig(innerName: string): (c: RetryConfig)
    ensures c.maxRetries == 3 && c.strategy == Fixed(1000)
    ensures c.retryCondition.None? && !c.verbose
    ensures c.name == "Retry[" + innerName + "]"
  {
    RetryConfig(3, Fixed(1000), None, "Retry[" + innerName + "]", false)
  }

  function WithMaxRetries(c: RetryConfig, max: nat): RetryConfig
  {
    c.(maxRetries := max)
  }

  function WithStrategy(c: RetryConfig, strategy: RetryStrategy): RetryConfig
  {
    c.(strategy := strategy)
  }

  function WithRetryCondition(c: RetryConfig, condition: string -> bool): RetryConfig
  {
    c.(retryCondition := Some(condition))
  }

  function WithVerbose(c: RetryConfig, verbose: bool): RetryConfig
  {
    c.(verbose := verbose)
  }

  /** The wait, in milliseconds, after failed attempt number `attempt` (counted from 0). */
  function CalculateDelay(strategy: RetryStrategy, attempt: nat): (d: nat)
    ensures strategy.Linear? ==> d <= strategy.max
    ensures strategy.Linear? ==> d <= strategy.initial + strategy.increment * attempt
    ensures strategy.Linear? ==> d == strategy.max || d == strategy.initial + strategy.increment * attempt
  {
    match strategy
    case Fixed(delay) => delay
    case Linear(initial, increment, max) =>
      var grown := initial + increment * attempt;
      if grown <= max then grown else max
  }

  /**
   * The sleep that precedes attempt `attempt` of a run: none before the
   * first attempt, and the delay for index `attempt - 1` before every
   * later one.
   */
  function DelayBefore(strategy: RetryStrategy, attempt: nat): (r: Option<nat>)
    ensures attempt == 0 <==> r.None?
    ensures attempt > 0 ==> r == Some(CalculateDelay(strategy, attempt - 1))
  {
    if attempt == 0 then None else Some(CalculateDelay(strategy, attempt - 1))
  }

  /** A fixed strategy waits the same time before every retry. */
  lemma FixedIsConstant(delay: nat, i: nat, j: nat)
    ensures CalculateDelay(Fixed(delay), i) == CalculateDelay(Fixed(delay), j) == delay
  {
  }

  /** A linear strategy never waits less before a later retry, and never more than its cap. */
  lemma {:induction false} LinearIsMonotone(initial: nat, increment: nat, max: nat, i: nat, j: nat)
    requires i <= j
    ensures CalculateDelay(Linear(initial, increment, max), i) <= CalculateDelay(Linear(initial, increment, max), j) <= max
  {
    MulMonotone(increment, i, j);
  }

  lemma MulMonotone(k: nat, i: nat, j: nat)
    requires i <= j
    ensures k * i <= k * j
  {
  }

  /** Once the linear growth passes the cap, every later delay is the cap. */
  lemma LinearSaturates(initial: nat, increment: nat, max: nat, i: nat, j: nat)
    requires i <= j && initial + increment * i >= max
    ensures CalculateDelay(Linear(initial, increment, max), j) == max
  {
    MulMonotone(increment, i, j);
  }

  /** The keywords whose presence, in any case, marks an output as failed. */
  const FailureWords: seq<string> := ["error", "failed", "exception"]

  /** The built-in failure test: an empty output or one mentioning a failure word. */
  predicate DefaultShouldRetry(output: string)
  {
    output == []
    || Contains(Lower(output), "error")
    || Contains(Lower(output), "failed")
    || Contains(Lower(output), "exception")
  }

  /** Whether an output counts as a failure, so that another attempt follows. */
  predicate ShouldRetry(c: RetryConfig, output: string)
  {
    match c.retryCondition
    case Some(condition) => condition(output)
    case None => DefaultShouldRetry(output)
  }

  /**
   * A configured condition decides alone; otherwise an output counts as a
   * failure exactly when it is empty or mentions a failure word in any case.
   */
  lemma ShouldRetryMeaning(c: RetryConfig, output: string)
    ensures c.retryCondition.Some? ==> (ShouldRetry(c, output) <==> c.retryCondition.value(output))
    ensures c.retryCondition.None? ==>
      (ShouldRetry(c, output) <==> output == [] || exists w :: w in FailureWords && Contains(Lower(output), w))
  {
    assert Contains(Lower(output), FailureWords[0]) ==> exists w :: w in FailureWords && Contains(Lower(output), w);
    assert Contains(Lower(output), FailureWords[1]) ==> exists w :: w in FailureWords && Contains(Lower(output), w);
    assert Contains(Lower(output), FailureWords[2]) ==> exists w :: w in FailureWords && Contains(Lower(output), w);
  }

  /** The failure word is found whatever its case in the output. */
  lemma ErrorInAnyCase(c: RetryConfig)
    requires c.retryCondition.None?
    ensures ShouldRetry(c, "Error: temporary failure")
    ensures ShouldRetry(c, "")
  {
    var low := Lower("Error: temporary failure");
    assert low[0..5] == "error";
    ContainsAt(low, "error", 0);
  }

  /** A success message carries none of the failure words. */
  lemma SuccessNotRetried(c: RetryConfig)
    requires c.retryCondition.None?
    ensures !ShouldRetry(c, "Success: " + "test")
  {
    assert "Success: " + "test" == "Success: test";
    NoFailureWord("Success: test", "success: test");
  }

  lemma NoFailureWord(output: string, low: string)
    requires output != [] && low == Lower(output)
    requires 'r' !in low && 'f' !in low && 'x' !in low
    ensures !DefaultShouldRetry(output)
  {
    MissingCharNotContained(low, "error", 1);
    MissingCharNotContained(low, "failed", 0);
    MissingCharNotContained(low, "exception", 1);
  }
}
