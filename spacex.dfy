/**
 * The older revision of package `api` (api/spacex.go): no context, a fixed
 * budget of 5 retries (6 attempts) with delays from 200 ms to 5 s, and
 * `http.Get` for plain fetches, so a request that cannot be built fails like
 * a transport error there.
 */
module ApiSpaceX {
  import opened Wrappers
  import opened Model
  import opened Retry
  import Backoff
  import Reindex
  import opened Configuration

  const MaxRetries: int := 5
  const BaseDelay: int := 200 * Millisecond
  const MaxDelay: int := 5_000 * Millisecond

  /** `fetchFromAPI`: no cancellation, request errors surface through http.Get as transport errors. */
  function GetPolicy(): Policy {
    Policy(MaxRetries, BaseDelay, MaxDelay, false, AsTransportError)
  }

  /** `fetchLaunchesWithQuery`: no cancellation, a request that cannot be built ends the call. */
  function QueryPolicy(): Policy {
    Policy(MaxRetries, BaseDelay, MaxDelay, false, FatalRequestError)
  }

  /** One pass of the loop body of `fetchFromAPI`: the call ends with a result, or the loop sleeps and tries again. */
  method TryOnce<T>(attempt: nat, o: Observation<T>, jitter: int) returns (step: Step<T>)
    ensures step == Attempt(GetPolicy(), attempt, o, jitter)
  {
    match o {
      case RequestError =>
        if attempt == MaxRetries {
          return Done(Failure(TransportFailedAfter(MaxRetries + 1)));
        }
        step := Sleep(Backoff.CalculateBackoffDelay(attempt, BaseDelay, MaxDelay, jitter));
      case TransportError =>
        if attempt == MaxRetries {
          return Done(Failure(TransportFailedAfter(MaxRetries + 1)));
        }
        step := Sleep(Backoff.CalculateBackoffDelay(attempt, BaseDelay, MaxDelay, jitter));
      case Got(resp) =>
        if resp.status == 429 || (resp.status >= 500 && resp.status < 600) {
          if attempt == MaxRetries {
            return Done(Failure(StatusAfter(resp.status, MaxRetries + 1, resp.body)));
          }
          if resp.retryAfter.Some? {
            step := Sleep(resp.retryAfter.value);
          } else {
            step := Sleep(Backoff.CalculateBackoffDelay(attempt, BaseDelay, MaxDelay, jitter));
          }
        } else if resp.status < 200 || resp.status >= 300 {
          return Done(Failure(StatusRejected(resp.status, resp.body)));
        } else if !resp.readOk {
          if attempt == MaxRetries {
            return Done(Failure(ReadFailedAfter(MaxRetries + 1)));
          }
          step := Sleep(Backoff.CalculateBackoffDelay(attempt, BaseDelay, MaxDelay, jitter));
        } else if resp.decoded.None? {
          if attempt == MaxRetries {
            var prefix := resp.body[..Backoff.Min(200, |resp.body|)];
            PrefixIsSlice(resp.body, BodyPrefixLimit);
            return Done(Failure(DecodeFailedAfter(MaxRetries + 1, prefix)));
          }
          step := Sleep(Backoff.CalculateBackoffDelay(attempt, BaseDelay, MaxDelay, jitter));
        } else {
          return Done(Success(resp.decoded.value));
        }
    }
  }

  /** `fetchFromAPI`: GET with the fixed retry budget, decoding the body into `T`. */
  method FetchFromAPI<T>(obs: seq<Observation<T>>, jitters: seq<int>)
    returns (r: Result<T, FetchError>, delays: seq<int>, sent: nat)
    requires |obs| > MaxRetries && |jitters| > MaxRetries
    ensures Trace(r, delays, sent) == Fetch(GetPolicy(), None, obs, jitters)
  {
    ghost var p := GetPolicy();
    delays := [];
    var attempt: nat := 0;
    while attempt <= MaxRetries
      invariant attempt <= MaxRetries + 1
      invariant Fetch(p, None, obs, jitters) == Prefixed(delays, Run(p, None, obs, jitters, attempt))
    {
      var step := TryOnce(attempt, obs[attempt], jitters[attempt]);
      RunStep(p, None, obs, jitters, attempt, step);
      if step.Done? {
        return step.result, delays, attempt + 1;
      }
      delays := delays + [step.delay];
      attempt := attempt + 1;
    }
    return Failure(RetriesExhausted), delays, attempt;
  }

  /** One pass of the loop body of `fetchLaunchesWithQuery`. */
  method TryQueryOnce(attempt: nat, o: Observation<LaunchDocs>, jitter: int) returns (step: Step<LaunchDocs>)
    ensures step == Attempt(QueryPolicy(), attempt, o, jitter)
  {
    match o {
      case RequestError =>
        return Done(Failure(RequestFailed));
      case TransportError =>
        if attempt == MaxRetries {
          return Done(Failure(TransportFailedAfter(MaxRetries + 1)));
        }
        step := Sleep(Backoff.CalculateBackoffDelay(attempt, BaseDelay, MaxDelay, jitter));
      case Got(resp) =>
        if resp.status == 429 || (resp.status >= 500 && resp.status < 600) {
          if attempt == MaxRetries {
            return Done(Failure(StatusAfter(resp.status, MaxRetries + 1, resp.body)));
          }
          if resp.retryAfter.Some? {
            step := Sleep(resp.retryAfter.value);
          } else {
            step := Sleep(Backoff.CalculateBackoffDelay(attempt, BaseDelay, MaxDelay, jitter));
          }
        } else if resp.status < 200 || resp.status >= 300 {
          return Done(Failure(StatusRejected(resp.status, resp.body)));
        } else if !resp.readOk {
          if attempt == MaxRetries {
            return Done(Failure(ReadFailedAfter(MaxRetries + 1)));
          }
          step := Sleep(Backoff.CalculateBackoffDelay(attempt, BaseDelay, MaxDelay, jitter));
        } else if resp.decoded.None? {
          if attempt == MaxRetries {
            var prefix := resp.body[..Backoff.Min(200, |resp.body|)];
            PrefixIsSlice(resp.body, BodyPrefixLimit);
            return Done(Failure(DecodeFailedAfter(MaxRetries + 1, prefix)));
          }
          step := Sleep(Backoff.CalculateBackoffDelay(attempt, BaseDelay, MaxDelay, jitter));
        } else {
          return Done(Success(resp.decoded.value));
        }
    }
  }

  /**
   * `fetchLaunchesWithQuery`: POST the marshalled query with the fixed
   * budget and return the `docs` of the decoded envelope.
   */
  method FetchLaunchesWithQuery(marshalOk: bool, obs: seq<Observation<LaunchDocs>>, jitters: seq<int>)
    returns (r: Result<seq<Launch>, FetchError>, delays: seq<int>, sent: nat)
    requires |obs| > MaxRetries && |jitters| > MaxRetries
    ensures !marshalOk ==> r == Failure(MarshalFailed) && delays == [] && sent == 0
    ensures marshalOk ==>
      var t := Fetch(QueryPolicy(), None, obs, jitters);
      && delays == t.delays && sent == t.sent
      && r == (if t.result.Success? then Success(t.result.value.docs) else Failure(t.result.error))
  {
    delays := [];
    if !marshalOk {
      return Failure(MarshalFailed), delays, 0;
    }
    ghost var p := QueryPolicy();
    var attempt: nat := 0;
    while attempt <= MaxRetries
      invariant attempt <= MaxRetries + 1
      invariant Fetch(p, None, obs, jitters) == Prefixed(delays, Run(p, None, obs, jitters, attempt))
    {
      var step := TryQueryOnce(attempt, obs[attempt], jitters[attempt]);
      RunStep(p, None, obs, jitters, attempt, step);
      if step.Done? {
        return (if step.result.Success? then Success(step.result.value.docs) else Failure(step.result.error)), delays, attempt + 1;
      }
      delays := delays + [step.delay];
      attempt := attempt + 1;
    }
    return Failure(RetriesExhausted), delays, attempt;
  }

  /** `GetAllCrewMembers`: fetch every crew member and re-key them by id; the fetch error is returned as is. */
  method GetAllCrewMembers(obs: seq<Observation<seq<Crew>>>, jitters: seq<int>)
    returns (crew: Result<map<string, Crew>, FetchError>, delays: seq<int>, sent: nat)
    requires |obs| > MaxRetries && |jitters| > MaxRetries
    ensures var t := Fetch(GetPolicy(), None, obs, jitters);
      && delays == t.delays && sent == t.sent
      && (t.result.Failure? ==> crew == Failure(t.result.error))
      && (t.result.Success? ==> crew == Success(Reindex.Indexed(t.result.value, CrewKey)))
  {
    var fetched;
    fetched, delays, sent := FetchFromAPI(obs, jitters);
    if fetched.Failure? {
      return Failure(fetched.error), delays, sent;
    }
    var crewMap := Reindex.IndexById(fetched.value, CrewKey);
    crew := Success(crewMap);
  }

  /**
   * The fixed budget: at most six requests and five sleeps, every sleep at
   * most 5 s unless a `Retry-After` header asked for longer, and "max retries
   * exceeded" is never the outcome.
   */
  lemma FixedBudget<T>(obs: seq<Observation<T>>, jitters: seq<int>)
    requires |obs| > MaxRetries && |jitters| > MaxRetries
    ensures var t := Fetch(GetPolicy(), None, obs, jitters);
      && t.sent <= 6 && |t.delays| <= 5
      && t.result != Failure(RetriesExhausted) && t.result != Failure(Cancelled)
      && forall i :: 0 <= i < |t.delays| && !(obs[i].Got? && obs[i].response.retryAfter.Some?) ==>
           t.delays[i] <= MaxDelay
  {
    FetchBudget(GetPolicy(), None, obs, jitters);
    RunShape(GetPolicy(), None, obs, jitters, 0);
  }
}
