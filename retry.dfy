/**
 * The attempt loop shared by every fetch function of package `api`, as a
 * specification. The outside world is an oracle: one `Observation` per
 * attempt, one jitter value per attempt, and the attempt at whose start the
 * request context is first seen to be done. A run yields the result, the
 * delays that would be slept (in order) and the number of attempts that got
 * past the cancellation check.
 *
 * The fetch functions differ in three ways, collected in `Policy`: the retry
 * budget and delays, whether they consult a context, and what a failure to
 * construct the request does.
 */
module Retry {
  import opened Wrappers
  import opened Backoff

  newtype byte = x: int | 0 <= x < 256

  /** How many bytes of an undecodable body the final error message quotes. */
  const BodyPrefixLimit: nat := 200

  /** The first `n` bytes of `body`, or all of it when it is shorter. */
  function Prefix(body: seq<byte>, n: nat): seq<byte>
    decreases n
  {
    if n == 0 || |body| == 0 then [] else [body[0]] + Prefix(body[1..], n - 1)
  }

  /** `Prefix` is Go's `body[:min(n, len(body))]`. */
  lemma {:induction false} PrefixIsSlice(body: seq<byte>, n: nat)
    ensures Prefix(body, n) == body[..Min(n, |body|)]
    decreases n
  {
    if n > 0 && |body| > 0 {
      PrefixIsSlice(body[1..], n - 1);
    }
  }

  /** One HTTP response as the loop sees it. */
  datatype Response<T> = Response(
    status: int,
    retryAfter: Option<int>, // `Retry-After` as parsed by time.ParseDuration(h + "s"); None if absent or unparsable
    body: seq<byte>,         // what io.ReadAll returned
    readOk: bool,            // whether io.ReadAll succeeded
    decoded: Option<T>)      // the value this attempt's body decodes to on its own; None on a decode error

  /** What one attempt observes once past the cancellation check. */
  datatype Observation<T> =
    | RequestError            // http.NewRequest failed
    | TransportError          // the client's Do (or http.Get) failed
    | Got(response: Response<T>)

  datatype StatusClass = Retryable | Rejected | Accepted

  /** 429 and 5xx are worth retrying; 2xx is read and decoded; anything else is final. */
  function ClassifyStatus(status: int): (c: StatusClass)
    ensures c == Retryable <==> status == 429 || 500 <= status < 600
    ensures c == Accepted <==> 200 <= status < 300
    ensures c == Rejected <==> status != 429 && !(200 <= status < 300) && !(500 <= status < 600)
  {
    if status == 429 || (status >= 500 && status < 600) then Retryable
    else if status < 200 || status >= 300 then Rejected
    else Accepted
  }

  /** The errors a fetch can return, one per distinct message of the source. */
  datatype FetchError =
    | Cancelled                                            // ctx.Err()
    | MarshalFailed                                        // "failed to marshal query"
    | RequestFailed                                        // "failed to create request", no retry
    | RequestFailedAfter(attempts: int)                    // "failed to create request after %d attempts"
    | TransportFailedAfter(attempts: int)                  // "HTTP request failed after %d attempts"
    | StatusAfter(status: int, attempts: int, body: seq<byte>) // "API returned status %d after %d attempts: %s"
    | StatusRejected(status: int, body: seq<byte>)         // "API returned status %d: %s"
    | ReadFailedAfter(attempts: int)                       // "failed to read response body after %d attempts"
    | DecodeFailedAfter(attempts: int, bodyPrefix: seq<byte>) // "failed to parse JSON after %d attempts ... Response: %s"
    | RetriesExhausted                                     // "unexpected error: max retries exceeded"
    | Wrapped(context: string, inner: FetchError)          // fmt.Errorf("<context>: %w", err)

  /** The errors that end a run only because the retry budget is spent. */
  predicate IsBudgetError(e: FetchError) {
    e.RequestFailedAfter? || e.TransportFailedAfter? || e.StatusAfter? || e.ReadFailedAfter? || e.DecodeFailedAfter?
  }

  /** What a failure to construct the request does. */
  datatype RequestErrorRule =
    | RetryRequestError   // retried with backoff, reported as a request-creation failure at the end
    | AsTransportError    // indistinguishable from a transport failure (http.Get)
    | FatalRequestError   // returned at once

  datatype Policy = Policy(
    retries: int,          // attempts are numbered 0..retries
    baseDelay: int,
    maxDelay: int,
    honoursCancel: bool,
    onRequestError: RequestErrorRule)

  /** An attempt either ends the call or asks for a sleep before the next one. */
  datatype Step<T> = Done(result: Result<T, FetchError>) | Sleep(delay: int)

  function BackoffFor(p: Policy, attempt: nat, jitter: int): int {
    CalculateBackoffDelay(attempt, p.baseDelay, p.maxDelay, jitter)
  }

  /** One iteration of the loop body, after the cancellation check. */
  function Attempt<T>(p: Policy, attempt: nat, o: Observation<T>, jitter: int): Step<T>
  {
    var last := attempt == p.retries;
    var backoff := BackoffFor(p, attempt, jitter);
    match o
    case RequestError =>
      (match p.onRequestError
       case RetryRequestError =>
         if last then Done(Failure(RequestFailedAfter(p.retries + 1))) else Sleep(backoff)
       case AsTransportError =>
         if last then Done(Failure(TransportFailedAfter(p.retries + 1))) else Sleep(backoff)
       case FatalRequestError => Done(Failure(RequestFailed)))
    case TransportError =>
      if last then Done(Failure(TransportFailedAfter(p.retries + 1))) else Sleep(backoff)
    case Got(resp) =>
      if resp.status == 429 || (500 <= resp.status < 600) then
        if last then Done(Failure(StatusAfter(resp.status, p.retries + 1, resp.body)))
        else Sleep(if resp.retryAfter.Some? then resp.retryAfter.value else backoff)
      else if resp.status < 200 || resp.status >= 300 then Done(Failure(StatusRejected(resp.status, resp.body)))
      else if !resp.readOk then
        if last then Done(Failure(ReadFailedAfter(p.retries + 1))) else Sleep(backoff)
      else if resp.decoded.None? then
        if last then Done(Failure(DecodeFailedAfter(p.retries + 1, Prefix(resp.body, BodyPrefixLimit))))
        else Sleep(backoff)
      else Done(Success(resp.decoded.value))
  }

  /** What one attempt can and cannot do. */
  lemma AttemptFacts<T>(p: Policy, attempt: nat, o: Observation<T>, jitter: int)
    ensures var s := Attempt(p, attempt, o, jitter);
      // the last attempt never sleeps
      && (attempt == p.retries ==> s.Done?)
      // an attempt never reports cancellation or exhaustion itself
      && (s.Done? ==> s.result != Failure(Cancelled) && s.result != Failure(RetriesExhausted))
      // budget errors happen on the last attempt only, and quote the full attempt count
      && (s.Done? && s.result.Failure? && IsBudgetError(s.result.error) ==>
            attempt == p.retries && s.result.error.attempts == p.retries + 1)
      // a value comes only from a decoded 2xx body
      && (s.Done? && s.result.Success? ==>
            && o.Got? && ClassifyStatus(o.response.status) == Accepted && o.response.readOk
            && o.response.decoded == Some(s.result.value))
  {
  }

  /** The status classes as one attempt treats them: rejected ends the call, retryable sleeps unless it is the last attempt. */
  lemma StatusClassInAttempt<T>(p: Policy, attempt: nat, resp: Response<T>, jitter: int)
    ensures ClassifyStatus(resp.status) == Rejected ==>
      Attempt(p, attempt, Got(resp), jitter) == Done(Failure(StatusRejected(resp.status, resp.body)))
    ensures ClassifyStatus(resp.status) == Retryable && attempt != p.retries ==>
      Attempt(p, attempt, Got(resp), jitter)
        == Sleep(if resp.retryAfter.Some? then resp.retryAfter.value else BackoffFor(p, attempt, jitter))
    ensures ClassifyStatus(resp.status) == Retryable && attempt == p.retries ==>
      Attempt(p, attempt, Got(resp), jitter) == Done(Failure(StatusAfter(resp.status, p.retries + 1, resp.body)))
  {
  }

  /** A decode failure quotes the body it could not decode, cut to its first 200 bytes. */
  lemma DecodeFailureQuotesPrefix<T>(p: Policy, attempt: nat, o: Observation<T>, jitter: int)
    requires Attempt(p, attempt, o, jitter).Done?
    requires Attempt(p, attempt, o, jitter).result.Failure?
    requires Attempt(p, attempt, o, jitter).result.error.DecodeFailedAfter?
    ensures o.Got? && 200 <= o.response.status < 300 && o.response.readOk && o.response.decoded.None?
    ensures Attempt(p, attempt, o, jitter).result.error.bodyPrefix
      == o.response.body[..Min(BodyPrefixLimit, |o.response.body|)]
  {
    PrefixIsSlice(o.response.body, BodyPrefixLimit);
  }

  /**
   * The outcome of a fetch: its result, the sleeps between attempts, and
   * `sent`, the number of attempts that got past the cancellation check
   * (including those whose request could not be built).
   */
  datatype Trace<T> = Trace(result: Result<T, FetchError>, delays: seq<int>, sent: nat)

  /** Cancellation is checked at the start of an attempt, and only by policies that have a context. */
  predicate CancelledAt(p: Policy, cancelAt: Option<nat>, attempt: nat) {
    p.honoursCancel && cancelAt == Some(attempt)
  }

  /** The loop from attempt `attempt` on. */
  function Run<T>(p: Policy, cancelAt: Option<nat>, obs: seq<Observation<T>>, jitters: seq<int>, attempt: nat): Trace<T>
    requires |obs| > p.retries && |jitters| > p.retries
    decreases p.retries + 1 - attempt
  {
    if attempt > p.retries then Trace(Failure(RetriesExhausted), [], attempt)
    else if CancelledAt(p, cancelAt, attempt) then Trace(Failure(Cancelled), [], attempt)
    else match Attempt(p, attempt, obs[attempt], jitters[attempt])
      case Done(r) => Trace(r, [], attempt + 1)
      case Sleep(d) =>
        var rest := Run(p, cancelAt, obs, jitters, attempt + 1);
        Trace(rest.result, [d] + rest.delays, rest.sent)
  }

  /** A run preceded by sleeps already taken: what a loop still has to do, seen from its start. */
  function Prefixed<T>(delays: seq<int>, t: Trace<T>): Trace<T> {
    Trace(t.result, delays + t.delays, t.sent)
  }

  /** One attempt past the cancellation check decides the run from it: it ends there, or sleeps and goes on. */
  lemma RunStep<T>(p: Policy, cancelAt: Option<nat>, obs: seq<Observation<T>>, jitters: seq<int>, attempt: nat, step: Step<T>)
    requires |obs| > p.retries && |jitters| > p.retries
    requires attempt <= p.retries && !CancelledAt(p, cancelAt, attempt)
    requires step == Attempt(p, attempt, obs[attempt], jitters[attempt])
    ensures step.Done? ==> Run(p, cancelAt, obs, jitters, attempt) == Trace(step.result, [], attempt + 1)
    ensures step.Sleep? ==>
      Run(p, cancelAt, obs, jitters, attempt) == Prefixed([step.delay], Run(p, cancelAt, obs, jitters, attempt + 1))
  {
  }

  /** A whole fetch: the loop from attempt 0. */
  function Fetch<T>(p: Policy, cancelAt: Option<nat>, obs: seq<Observation<T>>, jitters: seq<int>): Trace<T>
    requires |obs| > p.retries && |jitters| > p.retries
  {
    Run(p, cancelAt, obs, jitters, 0)
  }

  /** Attempts `0..k-1` were each entered (not cancelled) and each ended in a sleep. */
  predicate RetriedBefore<T>(p: Policy, cancelAt: Option<nat>, obs: seq<Observation<T>>, jitters: seq<int>, k: nat)
    requires k <= |obs| && k <= |jitters|
  {
    forall i :: 0 <= i < k ==> !CancelledAt(p, cancelAt, i) && Attempt(p, i, obs[i], jitters[i]).Sleep?
  }

  /** Whether a run stopped without finishing an attempt (cancelled, or never started). */
  predicate Stopped<T>(r: Result<T, FetchError>) {
    r == Failure(Cancelled) || r == Failure(RetriesExhausted)
  }

  /**
   * The shape of every run from attempt `attempt`: it sends at most up to the
   * last attempt, sleeps exactly once per attempt it does not end on, each
   * sleep is the one that attempt asked for, and a run that is not stopped
   * ends with the result of its last attempt.
   */
  lemma {:induction false} RunShape<T>(p: Policy, cancelAt: Option<nat>, obs: seq<Observation<T>>, jitters: seq<int>, attempt: nat)
    requires |obs| > p.retries && |jitters| > p.retries
    requires attempt <= p.retries + 1
    ensures var t := Run(p, cancelAt, obs, jitters, attempt);
      && attempt <= t.sent <= p.retries + 1
      && (t.result == Failure(RetriesExhausted) <==> attempt == p.retries + 1)
      && (t.result == Failure(Cancelled) ==> CancelledAt(p, cancelAt, t.sent) && t.sent <= p.retries)
      && |t.delays| == t.sent - attempt - (if Stopped(t.result) then 0 else 1)
      && (!Stopped(t.result) ==> Attempt(p, t.sent - 1, obs[t.sent - 1], jitters[t.sent - 1]) == Done(t.result))
      && (forall i :: 0 <= i < |t.delays| ==>
            Attempt(p, attempt + i, obs[attempt + i], jitters[attempt + i]) == Sleep(t.delays[i]))
    decreases p.retries + 1 - attempt
  {
    if attempt <= p.retries && !CancelledAt(p, cancelAt, attempt) {
      var s := Attempt(p, attempt, obs[attempt], jitters[attempt]);
      if s.Sleep? {
        RunShape(p, cancelAt, obs, jitters, attempt + 1);
        var rest := Run(p, cancelAt, obs, jitters, attempt + 1);
        var t := Run(p, cancelAt, obs, jitters, attempt);
        assert t.delays == [s.delay] + rest.delays;
        forall i | 0 <= i < |t.delays|
          ensures Attempt(p, attempt + i, obs[attempt + i], jitters[attempt + i]) == Sleep(t.delays[i])
        {
          if i > 0 {
            assert t.delays[i] == rest.delays[i - 1];
            assert attempt + i == (attempt + 1) + (i - 1);
          }
        }
      }
    }
  }

  /**
   * Budget: a fetch makes at most `retries + 1` attempts and sleeps at most
   * `retries` times; it ends in "max retries exceeded" exactly when the
   * budget is negative, so that error is unreachable for any budget the
   * configuration validator accepts.
   */
  lemma FetchBudget<T>(p: Policy, cancelAt: Option<nat>, obs: seq<Observation<T>>, jitters: seq<int>)
    requires |obs| > p.retries && |jitters| > p.retries
    ensures var t := Fetch(p, cancelAt, obs, jitters);
      && (p.retries >= 0 ==> t.sent <= p.retries + 1 && |t.delays| <= p.retries)
      && (p.retries < 0 ==> t.sent == 0 && t.delays == [])
      && (t.result == Failure(RetriesExhausted) <==> p.retries < 0)
  {
    if p.retries >= 0 {
      RunShape(p, cancelAt, obs, jitters, 0);
    }
  }

  /**
   * Every budget error is raised on the final attempt, after exactly
   * `retries + 1` attempts and `retries` sleeps, and a decode failure quotes
   * the first 200 bytes (at most) of the last body received.
   */
  lemma FinalFailure<T>(p: Policy, cancelAt: Option<nat>, obs: seq<Observation<T>>, jitters: seq<int>)
    requires |obs| > p.retries && |jitters| > p.retries
    requires p.retries >= 0
    ensures var t := Fetch(p, cancelAt, obs, jitters);
      && (t.result.Failure? && IsBudgetError(t.result.error) ==>
            t.sent == p.retries + 1 && t.result.error.attempts == p.retries + 1 && |t.delays| == p.retries)
      && (t.result.Failure? && t.result.error.DecodeFailedAfter? ==>
            && obs[p.retries].Got?
            && t.result.error.bodyPrefix
               == obs[p.retries].response.body[..Min(BodyPrefixLimit, |obs[p.retries].response.body|)])
  {
    var t := Fetch(p, cancelAt, obs, jitters);
    RunShape(p, cancelAt, obs, jitters, 0);
    if t.result.Failure? && IsBudgetError(t.result.error) {
      var k := t.sent - 1;
      AttemptFacts(p, k, obs[k], jitters[k]);
      if t.result.error.DecodeFailedAfter? {
        DecodeFailureQuotesPrefix(p, k, obs[k], jitters[k]);
      }
    }
  }

  /** Attempts that are retried contribute their sleeps and otherwise leave the rest of the run unchanged. */
  lemma {:induction false} RunAfterRetries<T>(p: Policy, cancelAt: Option<nat>, obs: seq<Observation<T>>, jitters: seq<int>, a: nat, k: nat)
    requires |obs| > p.retries && |jitters| > p.retries
    requires a <= k <= p.retries + 1
    requires RetriedBefore(p, cancelAt, obs, jitters, k)
    ensures var t, u := Run(p, cancelAt, obs, jitters, a), Run(p, cancelAt, obs, jitters, k);
      t.result == u.result && t.sent == u.sent && |t.delays| == k - a + |u.delays| && t.delays[k - a..] == u.delays
    decreases k - a
  {
    if a < k {
      assert !CancelledAt(p, cancelAt, a) && Attempt(p, a, obs[a], jitters[a]).Sleep?;
      RunAfterRetries(p, cancelAt, obs, jitters, a + 1, k);
      var t, v := Run(p, cancelAt, obs, jitters, a), Run(p, cancelAt, obs, jitters, a + 1);
      assert t.delays == [Attempt(p, a, obs[a], jitters[a]).delay] + v.delays;
      assert t.delays[k - a..] == v.delays[k - (a + 1)..];
    }
  }

  /**
   * After `k` retried attempts, the first attempt that does not sleep ends
   * the call with its own result, having made `k + 1` attempts and slept `k`
   * times.
   */
  lemma EndsAtFirstDone<T>(p: Policy, cancelAt: Option<nat>, obs: seq<Observation<T>>, jitters: seq<int>, k: nat)
    requires |obs| > p.retries && |jitters| > p.retries
    requires k <= p.retries
    requires RetriedBefore(p, cancelAt, obs, jitters, k)
    requires !CancelledAt(p, cancelAt, k) && Attempt(p, k, obs[k], jitters[k]).Done?
    ensures var t := Fetch(p, cancelAt, obs, jitters);
      t.result == Attempt(p, k, obs[k], jitters[k]).result && t.sent == k + 1 && |t.delays| == k
  {
    RunAfterRetries(p, cancelAt, obs, jitters, 0, k);
  }

  /**
   * Cancellation seen at the start of attempt `k` returns at once: no
   * request for attempt `k` is sent and no further attempt is made.
   */
  lemma CancelledBeforeSending<T>(p: Policy, cancelAt: Option<nat>, obs: seq<Observation<T>>, jitters: seq<int>, k: nat)
    requires |obs| > p.retries && |jitters| > p.retries
    requires k <= p.retries
    requires RetriedBefore(p, cancelAt, obs, jitters, k)
    requires CancelledAt(p, cancelAt, k)
    ensures var t := Fetch(p, cancelAt, obs, jitters);
      t.result == Failure(Cancelled) && t.sent == k && |t.delays| == k
  {
    RunAfterRetries(p, cancelAt, obs, jitters, 0, k);
  }

  /**
   * A status outside 2xx that is neither 429 nor 5xx ends the call on the
   * attempt that sees it; on the first attempt (a 404, say) that is one
   * request and no sleep.
   */
  lemma RejectedStatusIsFinal<T>(p: Policy, cancelAt: Option<nat>, obs: seq<Observation<T>>, jitters: seq<int>)
    requires |obs| > p.retries && |jitters| > p.retries
    requires p.retries >= 0 && !CancelledAt(p, cancelAt, 0)
    requires obs[0].Got? && ClassifyStatus(obs[0].response.status) == Rejected
    ensures Fetch(p, cancelAt, obs, jitters)
      == Trace(Failure(StatusRejected(obs[0].response.status, obs[0].response.body)), [], 1)
  {
  }

  /** An accepted, readable, decodable response after `k` retried attempts returns its value. */
  lemma SucceedsAfterRetries<T>(p: Policy, cancelAt: Option<nat>, obs: seq<Observation<T>>, jitters: seq<int>, k: nat, v: T)
    requires |obs| > p.retries && |jitters| > p.retries
    requires k <= p.retries
    requires RetriedBefore(p, cancelAt, obs, jitters, k) && !CancelledAt(p, cancelAt, k)
    requires obs[k].Got? && 200 <= obs[k].response.status < 300
    requires obs[k].response.readOk && obs[k].response.decoded == Some(v)
    ensures var t := Fetch(p, cancelAt, obs, jitters);
      t.result == Success(v) && t.sent == k + 1 && |t.delays| == k
  {
    EndsAtFirstDone(p, cancelAt, obs, jitters, k);
  }

  /**
   * A 429 or 5xx followed by a good response: one sleep, whose length is the
   * `Retry-After` value when there is one (taken as is, even beyond
   * `maxDelay`) and the computed backoff otherwise.
   */
  lemma RetryThenSuccess<T>(p: Policy, cancelAt: Option<nat>, obs: seq<Observation<T>>, jitters: seq<int>, v: T)
    requires |obs| > p.retries && |jitters| > p.retries
    requires p.retries >= 1 && !CancelledAt(p, cancelAt, 0) && !CancelledAt(p, cancelAt, 1)
    requires obs[0].Got? && ClassifyStatus(obs[0].response.status) == Retryable
    requires obs[1].Got? && 200 <= obs[1].response.status < 300
    requires obs[1].response.readOk && obs[1].response.decoded == Some(v)
    ensures Fetch(p, cancelAt, obs, jitters) == Trace(Success(v), [
      match obs[0].response.retryAfter
      case Some(d) => d
      case None => BackoffFor(p, 0, jitters[0])], 2)
  {
    var second := Run(p, cancelAt, obs, jitters, 1);
    assert Attempt(p, 1, obs[1], jitters[1]) == Done(Success(v));
    assert second == Trace(Success(v), [], 2);
  }

  /**
   * A transport failure on every attempt: `retries` sleeps, each the backoff
   * of its attempt, then a transport error after `retries + 1` attempts.
   */
  lemma PersistentTransportFailure<T>(p: Policy, cancelAt: Option<nat>, obs: seq<Observation<T>>, jitters: seq<int>)
    requires |obs| > p.retries && |jitters| > p.retries
    requires p.retries >= 0
    requires forall i :: 0 <= i <= p.retries ==> !CancelledAt(p, cancelAt, i) && obs[i] == TransportError
    ensures var t := Fetch(p, cancelAt, obs, jitters);
      && t.result == Failure(TransportFailedAfter(p.retries + 1))
      && t.sent == p.retries + 1
      && |t.delays| == p.retries
      && forall i :: 0 <= i < p.retries ==> t.delays[i] == BackoffFor(p, i, jitters[i])
  {
    assert RetriedBefore(p, cancelAt, obs, jitters, p.retries);
    EndsAtFirstDone(p, cancelAt, obs, jitters, p.retries);
    RunShape(p, cancelAt, obs, jitters, 0);
  }
}
