/**
 * The retry policy wrapped around every outbound call: which failures are
 * retried, how many times, and with which back-off. The network is an
 * abstract function from the attempt number to that attempt's outcome.
 */
module Retry {
  import opened Wrappers

  /** The exception classes the policy distinguishes. */
  datatype FailureKind = IOFailure | VertxFailure | OtherFailure

  /** A Java throwable: its class, its `toString()` text, and its cause (null is None). */
  datatype Throwable = Throwable(kind: FailureKind, text: string, cause: Option<Throwable>)

  /** `t instanceof IOException || t instanceof VertxException`. */
  predicate Retryable(t: Throwable)
  {
    t.kind == IOFailure || t.kind == VertxFailure
  }

  /** The configured `retry.count` and `retry.interval` (milliseconds). */
  datatype RetryConfig = RetryConfig(count: int, interval: int)

  /** `Duration.ofSeconds(5).toMillis()`. */
  const DEFAULT_BACKOFF_MILLIS: int := 5000

  /** No retry at all, or at most `times` retries with the given initial back-off. */
  datatype RetryPlan = NoRetry | RetryUpTo(times: nat, backOffMillis: int)

  /** The plan `wrapAsyncCall` builds from the configuration. */
  function Plan(c: RetryConfig): (p: RetryPlan)
    ensures p.NoRetry? <==> c.count <= 0
    ensures p.RetryUpTo? ==> p.times == c.count && p.backOffMillis > 0
    ensures p.RetryUpTo? && c.interval > 0 ==> p.backOffMillis == c.interval
    ensures p.RetryUpTo? && c.interval <= 0 ==> p.backOffMillis == DEFAULT_BACKOFF_MILLIS
  {
    if c.count > 0 then
      RetryUpTo(c.count, if c.interval <= 0 then DEFAULT_BACKOFF_MILLIS else c.interval)
    else NoRetry
  }

  function MaxRetries(p: RetryPlan): nat
  {
    match p
    case NoRetry => 0
    case RetryUpTo(n, _) => n
  }

  /** The outcome that reaches the caller and how many attempts were made. */
  datatype Attempted<T> = Attempted(outcome: Result<T, Throwable>, attempts: nat)

  /** Attempt `i` and, on a retryable failure while retries remain, the following ones. */
  function RunFrom<T>(p: RetryPlan, attempt: nat -> Result<T, Throwable>, i: nat): Attempted<T>
    decreases if i < MaxRetries(p) then MaxRetries(p) - i else 0
  {
    match attempt(i)
    case Ok(v) => Attempted(Ok(v), i + 1)
    case Err(t) =>
      if Retryable(t) && i < MaxRetries(p) then RunFrom(p, attempt, i + 1)
      else Attempted(Err(t), i + 1)
  }

  /** The subscription to the retried call: attempts 0, 1, ... as the plan allows. */
  function Run<T>(p: RetryPlan, attempt: nat -> Result<T, Throwable>): Attempted<T>
  {
    RunFrom(p, attempt, 0)
  }

  /** Every attempt before the last ended in a retryable failure. */
  predicate RetriedBefore<T>(attempt: nat -> Result<T, Throwable>, from: nat, last: nat)
  {
    forall j :: from <= j < last ==> attempt(j).Err? && Retryable(attempt(j).error)
  }

  /** Why the last attempt was the last: it succeeded, its failure is not retried, or retries ran out. */
  predicate Stops<T>(p: RetryPlan, o: Result<T, Throwable>, attempts: nat)
  {
    o.Ok? || !Retryable(o.error) || attempts == MaxRetries(p) + 1
  }

  lemma {:induction false} RunFromFacts<T>(p: RetryPlan, attempt: nat -> Result<T, Throwable>, i: nat)
    requires i <= MaxRetries(p)
    ensures var r := RunFrom(p, attempt, i);
      i < r.attempts <= MaxRetries(p) + 1
      && r.outcome == attempt(r.attempts - 1)
      && RetriedBefore(attempt, i, r.attempts - 1)
      && Stops(p, r.outcome, r.attempts)
    decreases MaxRetries(p) - i
  {
    match attempt(i)
    case Ok(v) =>
    case Err(t) =>
      if Retryable(t) && i < MaxRetries(p) {
        RunFromFacts(p, attempt, i + 1);
      }
  }

  /**
   * What the caller sees: between one and `MaxRetries + 1` attempts, the last
   * attempt's outcome, retryable failures before it, and a reason to stop.
   */
  lemma RunCharacterized<T>(p: RetryPlan, attempt: nat -> Result<T, Throwable>)
    ensures var r := Run(p, attempt);
      1 <= r.attempts <= MaxRetries(p) + 1
      && r.outcome == attempt(r.attempts - 1)
      && RetriedBefore(attempt, 0, r.attempts - 1)
      && Stops(p, r.outcome, r.attempts)
  {
    RunFromFacts(p, attempt, 0);
  }

  /** The characterization fixes the number of attempts: it is a complete specification of `Run`. */
  lemma RunUnique<T>(p: RetryPlan, attempt: nat -> Result<T, Throwable>, n: nat)
    requires 1 <= n <= MaxRetries(p) + 1
    requires RetriedBefore(attempt, 0, n - 1)
    requires Stops(p, attempt(n - 1), n)
    ensures Run(p, attempt).attempts == n
  {
    RunCharacterized(p, attempt);
  }

  /** `count <= 0`: exactly one attempt, whatever it yields. */
  lemma NoRetrySingleAttempt<T>(c: RetryConfig, attempt: nat -> Result<T, Throwable>)
    requires c.count <= 0
    ensures Run(Plan(c), attempt) == Attempted(attempt(0), 1)
  {
    RunCharacterized(Plan(c), attempt);
  }

  /**
   * `count > 0` and every attempt fails retryably: `count + 1` attempts, and
   * the last failure is the outcome, taken as reaching the handler unwrapped.
   */
  lemma AllFailingExhausts<T>(c: RetryConfig, attempt: nat -> Result<T, Throwable>)
    requires c.count > 0
    requires forall j: nat :: attempt(j).Err? && Retryable(attempt(j).error)
    ensures Run(Plan(c), attempt) == Attempted(attempt(c.count), c.count + 1)
  {
    RunCharacterized(Plan(c), attempt);
  }

  /** A success (any HTTP status) or a non-retryable failure on the first attempt ends the call. */
  lemma FirstFinalOutcomeStops<T>(p: RetryPlan, attempt: nat -> Result<T, Throwable>)
    requires attempt(0).Ok? || !Retryable(attempt(0).error)
    ensures Run(p, attempt) == Attempted(attempt(0), 1)
  {
    RunCharacterized(p, attempt);
  }
}
