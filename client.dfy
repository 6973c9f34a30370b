/**
 * The configurable revision of package `api` (api/client.go): a SpaceX and a
 * NASA client that share one `Config`, honour a request context and retry
 * with the configured budget and delays.
 *
 * Each fetch takes the oracle described in module `Retry` and returns, beside
 * the Go return values, the delays it would have slept and the number of
 * attempts that got past the cancellation check.
 */
module ApiClient {
  import opened Wrappers
  import opened Model
  import opened Retry
  import Backoff
  import opened Configuration
  import Reindex

  /** `calculateBackoffDelay` of a client: agrees with the parameterised revision on the configured delays. */
  function CalculateBackoffDelay(cfg: Config, attempt: nat, jitter: int): (d: int)
    ensures d == Backoff.CalculateBackoffDelay(attempt, cfg.baseDelay, cfg.maxDelay, jitter)
  {
    Backoff.RawDelayIsLinear(attempt, cfg.baseDelay);
    var delay := cfg.baseDelay * (attempt + 1) + jitter;
    if delay > cfg.maxDelay then cfg.maxDelay else delay
  }

  /** Under a configuration the validator accepts, every backoff delay is positive and at most `MaxDelay`. */
  lemma ValidatedBackoffIsPositive(cfg: Config, attempt: nat, jitter: int)
    requires Validate(cfg) == None
    requires Backoff.JitterWithin(Backoff.RawDelay(attempt, cfg.baseDelay), jitter)
    ensures 0 < CalculateBackoffDelay(cfg, attempt, jitter) <= cfg.maxDelay
  {
    Backoff.BackoffBounds(attempt, cfg.baseDelay, cfg.maxDelay, jitter);
    Backoff.RawDelayIsLinear(attempt, cfg.baseDelay);
  }

  /** `fetchFromAPI` / `fetchFromAPINASA`: a failed request construction is retried like a transport failure. */
  function ClientPolicy(cfg: Config): Policy {
    Policy(cfg.retries, cfg.baseDelay, cfg.maxDelay, true, RetryRequestError)
  }

  /** `fetchLaunchesWithQuery`: a failed request construction ends the call. */
  function QueryPolicy(cfg: Config): Policy {
    Policy(cfg.retries, cfg.baseDelay, cfg.maxDelay, true, FatalRequestError)
  }

  /**
   * A request that cannot be built: `fetchFromAPI` retries it with backoff and
   * reports it only on the last attempt, `fetchLaunchesWithQuery` returns at once.
   */
  lemma RequestErrorRules<T>(cfg: Config, attempt: nat, jitter: int)
    ensures attempt != cfg.retries ==>
      Attempt<T>(ClientPolicy(cfg), attempt, RequestError, jitter) == Sleep(CalculateBackoffDelay(cfg, attempt, jitter))
    ensures attempt == cfg.retries ==>
      Attempt<T>(ClientPolicy(cfg), attempt, RequestError, jitter) == Done(Failure(RequestFailedAfter(cfg.retries + 1)))
    ensures Attempt<T>(QueryPolicy(cfg), attempt, RequestError, jitter) == Done(Failure(RequestFailed))
  {
  }

  /** A first request that cannot be built ends a query after one attempt, but only delays a plain fetch. */
  lemma FirstRequestErrorContrast<T>(cfg: Config, cancelAt: Option<nat>, obs: seq<Observation<T>>, jitters: seq<int>)
    requires |obs| > cfg.retries && |jitters| > cfg.retries
    requires cfg.retries >= 0 && cancelAt != Some(0) && obs[0] == RequestError
    ensures Fetch(QueryPolicy(cfg), cancelAt, obs, jitters) == Trace(Failure(RequestFailed), [], 1)
    ensures cfg.retries > 0 ==>
      Fetch(ClientPolicy(cfg), cancelAt, obs, jitters)
        == Prefixed([CalculateBackoffDelay(cfg, 0, jitters[0])], Run(ClientPolicy(cfg), cancelAt, obs, jitters, 1))
  {
    RequestErrorRules<T>(cfg, 0, jitters[0]);
  }

  /**
   * One pass of the loop body of `fetchFromAPI` after the cancellation check:
   * the call ends with a result, or the loop sleeps and tries again.
   */
  method TryOnce<T>(cfg: Config, attempt: nat, o: Observation<T>, jitter: int) returns (step: Step<T>)
    ensures step == Attempt(ClientPolicy(cfg), attempt, o, jitter)
  {
    match o {
      case RequestError =>
        if attempt == cfg.retries {
          return Done(Failure(RequestFailedAfter(cfg.retries + 1)));
        }
        step := Sleep(CalculateBackoffDelay(cfg, attempt, jitter));
      case TransportError =>
        if attempt == cfg.retries {
          return Done(Failure(TransportFailedAfter(cfg.retries + 1)));
        }
        step := Sleep(CalculateBackoffDelay(cfg, attempt, jitter));
      case Got(resp) =>
        if resp.status == 429 || (resp.status >= 500 && resp.status < 600) {
          if attempt == cfg.retries {
            return Done(Failure(StatusAfter(resp.status, cfg.retries + 1, resp.body)));
          }
          if resp.retryAfter.Some? {
            step := Sleep(resp.retryAfter.value);
          } else {
            step := Sleep(CalculateBackoffDelay(cfg, attempt, jitter));
          }
        } else if resp.status < 200 || resp.status >= 300 {
          return Done(Failure(StatusRejected(resp.status, resp.body)));
        } else if !resp.readOk {
          if attempt == cfg.retries {
            return Done(Failure(ReadFailedAfter(cfg.retries + 1)));
          }
          step := Sleep(CalculateBackoffDelay(cfg, attempt, jitter));
        } else if resp.decoded.None? {
          if attempt == cfg.retries {
            var prefix := resp.body[..Backoff.Min(200, |resp.body|)];
            PrefixIsSlice(resp.body, BodyPrefixLimit);
            return Done(Failure(DecodeFailedAfter(cfg.retries + 1, prefix)));
          }
          step := Sleep(CalculateBackoffDelay(cfg, attempt, jitter));
        } else {
          return Done(Success(resp.decoded.value));
        }
    }
  }

  /** `fetchFromAPI`: GET with retries, decoding the body into `T`. */
  method FetchFromAPI<T>(cfg: Config, cancelAt: Option<nat>, obs: seq<Observation<T>>, jitters: seq<int>)
    returns (r: Result<T, FetchError>, delays: seq<int>, sent: nat)
    requires |obs| > cfg.retries && |jitters| > cfg.retries
    ensures Trace(r, delays, sent) == Fetch(ClientPolicy(cfg), cancelAt, obs, jitters)
  {
    ghost var p := ClientPolicy(cfg);
    delays := [];
    var attempt: nat := 0;
    while attempt <= cfg.retries
      invariant attempt == 0 || attempt <= cfg.retries + 1
      invariant Fetch(p, cancelAt, obs, jitters) == Prefixed(delays, Run(p, cancelAt, obs, jitters, attempt))
    {
      if cancelAt == Some(attempt) {
        assert delays + [] == delays;
        return Failure(Cancelled), delays, attempt;
      }
      var step := TryOnce(cfg, attempt, obs[attempt], jitters[attempt]);
      RunStep(p, cancelAt, obs, jitters, attempt, step);
      if step.Done? {
        return step.result, delays, attempt + 1;
      }
      delays := delays + [step.delay];
      attempt := attempt + 1;
    }
    return Failure(RetriesExhausted), delays, attempt;
  }

  /** `fetchFromAPINASA`: the same loop on the NASA client, which holds the same configuration. */
  method FetchFromAPINASA<T>(cfg: Config, cancelAt: Option<nat>, obs: seq<Observation<T>>, jitters: seq<int>)
    returns (r: Result<T, FetchError>, delays: seq<int>, sent: nat)
    requires |obs| > cfg.retries && |jitters| > cfg.retries
    ensures Trace(r, delays, sent) == Fetch(ClientPolicy(cfg), cancelAt, obs, jitters)
  {
    r, delays, sent := FetchFromAPI(cfg, cancelAt, obs, jitters);
  }

  /** One pass of the loop body of `fetchLaunchesWithQuery` after the cancellation check. */
  method TryQueryOnce(cfg: Config, attempt: nat, o: Observation<LaunchDocs>, jitter: int) returns (step: Step<LaunchDocs>)
    ensures step == Attempt(QueryPolicy(cfg), attempt, o, jitter)
  {
    match o {
      case RequestError =>
        return Done(Failure(RequestFailed));
      case TransportError =>
        if attempt == cfg.retries {
          return Done(Failure(TransportFailedAfter(cfg.retries + 1)));
        }
        step := Sleep(CalculateBackoffDelay(cfg, attempt, jitter));
      case Got(resp) =>
        if resp.status == 429 || (resp.status >= 500 && resp.status < 600) {
          if attempt == cfg.retries {
            return Done(Failure(StatusAfter(resp.status, cfg.retries + 1, resp.body)));
          }
          if resp.retryAfter.Some? {
            step := Sleep(resp.retryAfter.value);
          } else {
            step := Sleep(CalculateBackoffDelay(cfg, attempt, jitter));
          }
        } else if resp.status < 200 || resp.status >= 300 {
          return Done(Failure(StatusRejected(resp.status, resp.body)));
        } else if !resp.readOk {
          if attempt == cfg.retries {
            return Done(Failure(ReadFailedAfter(cfg.retries + 1)));
          }
          step := Sleep(CalculateBackoffDelay(cfg, attempt, jitter));
        } else if resp.decoded.None? {
          if attempt == cfg.retries {
            var prefix := resp.body[..Backoff.Min(200, |resp.body|)];
            PrefixIsSlice(resp.body, BodyPrefixLimit);
            return Done(Failure(DecodeFailedAfter(cfg.retries + 1, prefix)));
          }
          step := Sleep(CalculateBackoffDelay(cfg, attempt, jitter));
        } else {
          return Done(Success(resp.decoded.value));
        }
    }
  }

  /**
   * `fetchLaunchesWithQuery`: POST the marshalled query with retries and
   * return the `docs` of the decoded envelope. `marshalOk` is the outcome of
   * json.Marshal on the query.
   */
  method FetchLaunchesWithQuery(cfg: Config, marshalOk: bool, cancelAt: Option<nat>,
                                obs: seq<Observation<LaunchDocs>>, jitters: seq<int>)
    returns (r: Result<seq<Launch>, FetchError>, delays: seq<int>, sent: nat)
    requires |obs| > cfg.retries && |jitters| > cfg.retries
    ensures !marshalOk ==> r == Failure(MarshalFailed) && delays == [] && sent == 0
    ensures marshalOk ==>
      var t := Fetch(QueryPolicy(cfg), cancelAt, obs, jitters);
      && delays == t.delays && sent == t.sent
      && r == (if t.result.Success? then Success(t.result.value.docs) else Failure(t.result.error))
  {
    delays := [];
    if !marshalOk {
      return Failure(MarshalFailed), delays, 0;
    }
    ghost var p := QueryPolicy(cfg);
    var attempt: nat := 0;
    while attempt <= cfg.retries
      invariant attempt == 0 || attempt <= cfg.retries + 1
      invariant Fetch(p, cancelAt, obs, jitters) == Prefixed(delays, Run(p, cancelAt, obs, jitters, attempt))
    {
      if cancelAt == Some(attempt) {
        assert delays + [] == delays;
        return Failure(Cancelled), delays, attempt;
      }
      var step := TryQueryOnce(cfg, attempt, obs[attempt], jitters[attempt]);
      RunStep(p, cancelAt, obs, jitters, attempt, step);
      if step.Done? {
        return (if step.result.Success? then Success(step.result.value.docs) else Failure(step.result.error)), delays, attempt + 1;
      }
      delays := delays + [step.delay];
      attempt := attempt + 1;
    }
    return Failure(RetriesExhausted), delays, attempt;
  }

  /** `GetAllRockets`: fetch every rocket and re-key them by id; a fetch error is wrapped and no map is returned. */
  method GetAllRockets(cfg: Config, cancelAt: Option<nat>, obs: seq<Observation<seq<Rocket>>>, jitters: seq<int>)
    returns (rockets: Result<map<string, Rocket>, FetchError>, delays: seq<int>, sent: nat)
    requires |obs| > cfg.retries && |jitters| > cfg.retries
    ensures var t := Fetch(ClientPolicy(cfg), cancelAt, obs, jitters);
      && delays == t.delays && sent == t.sent
      && (t.result.Failure? ==> rockets == Failure(Wrapped("failed to fetch rockets", t.result.error)))
      && (t.result.Success? ==> rockets == Success(Reindex.Indexed(t.result.value, RocketKey)))
  {
    var fetched;
    fetched, delays, sent := FetchFromAPI(cfg, cancelAt, obs, jitters);
    if fetched.Failure? {
      return Failure(Wrapped("failed to fetch rockets", fetched.error)), delays, sent;
    }
    var rocketMap := Reindex.IndexById(fetched.value, RocketKey);
    rockets := Success(rocketMap);
  }

  /** `GetAllCrewMembers`: fetch every crew member and re-key them by id. */
  method GetAllCrewMembers(cfg: Config, cancelAt: Option<nat>, obs: seq<Observation<seq<Crew>>>, jitters: seq<int>)
    returns (crew: Result<map<string, Crew>, FetchError>, delays: seq<int>, sent: nat)
    requires |obs| > cfg.retries && |jitters| > cfg.retries
    ensures var t := Fetch(ClientPolicy(cfg), cancelAt, obs, jitters);
      && delays == t.delays && sent == t.sent
      && (t.result.Failure? ==> crew == Failure(Wrapped("failed to fetch crew members", t.result.error)))
      && (t.result.Success? ==> crew == Success(Reindex.Indexed(t.result.value, CrewKey)))
  {
    var fetched;
    fetched, delays, sent := FetchFromAPI(cfg, cancelAt, obs, jitters);
    if fetched.Failure? {
      return Failure(Wrapped("failed to fetch crew members", fetched.error)), delays, sent;
    }
    var crewMap := Reindex.IndexById(fetched.value, CrewKey);
    crew := Success(crewMap);
  }

  /** `GetAllLaunchpads`: fetch every launchpad and re-key them by id. */
  method GetAllLaunchpads(cfg: Config, cancelAt: Option<nat>, obs: seq<Observation<seq<Launchpad>>>, jitters: seq<int>)
    returns (launchpads: Result<map<string, Launchpad>, FetchError>, delays: seq<int>, sent: nat)
    requires |obs| > cfg.retries && |jitters| > cfg.retries
    ensures var t := Fetch(ClientPolicy(cfg), cancelAt, obs, jitters);
      && delays == t.delays && sent == t.sent
      && (t.result.Failure? ==> launchpads == Failure(Wrapped("failed to fetch launchpads", t.result.error)))
      && (t.result.Success? ==> launchpads == Success(Reindex.Indexed(t.result.value, LaunchpadKey)))
  {
    var fetched;
    fetched, delays, sent := FetchFromAPI(cfg, cancelAt, obs, jitters);
    if fetched.Failure? {
      return Failure(Wrapped("failed to fetch launchpads", fetched.error)), delays, sent;
    }
    var launchpadMap := Reindex.IndexById(fetched.value, LaunchpadKey);
    launchpads := Success(launchpadMap);
  }

  const EarthEventsEndpoint: string := "https://eonet.gsfc.nasa.gov/api/v3/events"
  const AsteroidFeedEndpoint: string := "https://api.nasa.gov/neo/rest/v1/feed"

  /** The URL `GetEarthEvents` requests: the events endpoint followed verbatim by the query string. */
  function EarthEventsUrl(queryParams: string): (url: string)
    ensures |url| == |EarthEventsEndpoint| + |queryParams|
    ensures url[..|EarthEventsEndpoint|] == EarthEventsEndpoint
    ensures url[|EarthEventsEndpoint|..] == queryParams
  {
    EarthEventsEndpoint + queryParams
  }

  /** The URL `GetAsteroids` requests: the feed endpoint, the query string, then the configured API key. */
  function AsteroidsUrl(queryParams: string, apiKey: string): (url: string)
    ensures |url| == |AsteroidFeedEndpoint| + |queryParams| + |"&api_key="| + |apiKey|
    ensures url[..|AsteroidFeedEndpoint|] == AsteroidFeedEndpoint
    ensures url[|AsteroidFeedEndpoint|..|AsteroidFeedEndpoint| + |queryParams|] == queryParams
    ensures url[|AsteroidFeedEndpoint| + |queryParams|..] == "&api_key=" + apiKey
  {
    AsteroidFeedEndpoint + queryParams + "&api_key=" + apiKey
  }

  /**
   * `GetEarthEvents`: fetch the `{events: [...]}` envelope and return its
   * events; on error an empty list and the wrapped error.
   */
  method GetEarthEvents(cfg: Config, cancelAt: Option<nat>, obs: seq<Observation<NasaEarth>>, jitters: seq<int>)
    returns (events: seq<NasaEarthEvent>, err: Option<FetchError>, delays: seq<int>, sent: nat)
    requires |obs| > cfg.retries && |jitters| > cfg.retries
    ensures var t := Fetch(ClientPolicy(cfg), cancelAt, obs, jitters);
      && delays == t.delays && sent == t.sent
      && (t.result.Failure? ==> events == [] && err == Some(Wrapped("failed to fetch Earth events", t.result.error)))
      && (t.result.Success? ==> events == t.result.value.events && err == None)
  {
    var fetched;
    fetched, delays, sent := FetchFromAPINASA(cfg, cancelAt, obs, jitters);
    if fetched.Failure? {
      return [], Some(Wrapped("failed to fetch Earth events", fetched.error)), delays, sent;
    }
    events, err := fetched.value.events, None;
  }

  /** `GetAsteroids`: fetch the asteroid feed; on error the empty feed and the wrapped error. */
  method GetAsteroids(cfg: Config, cancelAt: Option<nat>, obs: seq<Observation<NasaAsteroid>>, jitters: seq<int>)
    returns (feed: NasaAsteroid, err: Option<FetchError>, delays: seq<int>, sent: nat)
    requires |obs| > cfg.retries && |jitters| > cfg.retries
    ensures var t := Fetch(ClientPolicy(cfg), cancelAt, obs, jitters);
      && delays == t.delays && sent == t.sent
      && (t.result.Failure? ==>
            feed == NasaAsteroid(0, map[]) && err == Some(Wrapped("failed to fetch asteroid data", t.result.error)))
      && (t.result.Success? ==> feed == t.result.value && err == None)
  {
    var fetched;
    fetched, delays, sent := FetchFromAPINASA(cfg, cancelAt, obs, jitters);
    if fetched.Failure? {
      return NasaAsteroid(0, map[]), Some(Wrapped("failed to fetch asteroid data", fetched.error)), delays, sent;
    }
    feed, err := fetched.value, None;
  }
}
