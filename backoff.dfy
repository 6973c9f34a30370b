/**
 * Retry delay computation and the integer `min` helper of package `api`
 * (api/spacex.go). The random jitter is an injected integer; in the source it
 * is `raw * 0.25 * (2u - 1)` for a uniform `u` in [0, 1).
 */
module Backoff {

  /** `min(a, b)`: the smaller of two integers. */
  function Min(a: int, b: int): (r: int)
    ensures r <= a && r <= b
    ensures r == a || r == b
  {
    if a < b then a else b
  }

  function Abs(x: int): nat { if x < 0 then -x else x }

  /** The un-jittered delay before retry number `attempt + 1`: one more `baseDelay` per attempt. */
  function RawDelay(attempt: nat, baseDelay: int): int {
    if attempt == 0 then baseDelay else RawDelay(attempt - 1, baseDelay) + baseDelay
  }

  /** The raw delay is `baseDelay * (attempt + 1)`, at least `baseDelay` when that is non-negative. */
  lemma {:induction false} RawDelayIsLinear(attempt: nat, baseDelay: int)
    ensures RawDelay(attempt, baseDelay) == baseDelay * (attempt + 1)
    ensures baseDelay >= 0 ==> RawDelay(attempt, baseDelay) >= baseDelay
  {
    if attempt > 0 {
      RawDelayIsLinear(attempt - 1, baseDelay);
    }
  }

  /** The jitter the source can draw for a raw delay: at most a quarter of it either way. */
  predicate JitterWithin(raw: int, jitter: int) {
    4 * Abs(jitter) <= Abs(raw)
  }

  /**
   * `calculateBackoffDelay(attempt, baseDelay, maxDelay)`: the raw delay plus
   * jitter, clamped from above to `maxDelay` (and only from above).
   */
  function CalculateBackoffDelay(attempt: nat, baseDelay: int, maxDelay: int, jitter: int): (d: int)
    ensures d <= maxDelay && d <= RawDelay(attempt, baseDelay) + jitter
    ensures d == maxDelay || d == RawDelay(attempt, baseDelay) + jitter
  {
    var delay := RawDelay(attempt, baseDelay) + jitter;
    if delay > maxDelay then maxDelay else delay
  }

  /**
   * With admissible jitter the delay is at most `maxDelay` and at least
   * three quarters of the raw delay or `maxDelay`, whichever is smaller;
   * hence it is never negative when both durations are non-negative.
   */
  lemma BackoffBounds(attempt: nat, baseDelay: int, maxDelay: int, jitter: int)
    requires JitterWithin(RawDelay(attempt, baseDelay), jitter)
    requires baseDelay >= 0
    ensures var d := CalculateBackoffDelay(attempt, baseDelay, maxDelay, jitter);
      && d <= maxDelay
      && 4 * d >= Min(3 * RawDelay(attempt, baseDelay), 4 * maxDelay)
      && (maxDelay >= 0 ==> d >= 0)
  {
    RawDelayIsLinear(attempt, baseDelay);
  }
}
