# space-cli in Dafny

A model of the core of space-cli, a Go command-line tool that shows SpaceX
launches. For each launch it can also show the rocket, crew, launchpad, cost,
NASA Earth events and near-Earth asteroids.

The model covers four parts of the program:

- **The HTTP fetch loop.** The program has five copies of this loop, spread
  over two revisions of package `api`. Each copy tries a request up to
  `Retries + 1` times. It treats the responses as follows:
  - 429 and 5xx are retried. A `Retry-After` header sets the sleep when it is
    present; otherwise the sleep is a capped, jittered linear backoff.
  - Other statuses outside 2xx end the call at once.
  - Read failures and decode failures are retried.
  - The last failed attempt reports how many attempts were made.
- **The configuration validator** and the default configuration.
- **The accessors.** They re-key fetched lists by id and wrap errors with
  context.
- **The `launches` command.** It builds the query document from the flags,
  sums launch costs that arrive in any order, shows a launch's status, rocket
  and crew, and tallies hazardous asteroids.

The outside world is a parameter everywhere. An observation sequence gives,
for each attempt, what the attempt sees: a request that could not be built, a
transport failure, or a response with its status, parsed `Retry-After`, body,
read outcome and decoded value. The world also supplies one jitter value per
attempt and the attempt at whose start the request context is first seen to
be done.

Each loop in the source is an imperative `method`, proved equal to one shared
recursive specification, `Retry.Fetch`. That specification is parameterised
by a `Policy`, which records four things:
- the retry budget;
- the delays;
- whether the loop checks a context;
- what a failure to build the request does. `fetchFromAPI` retries it,
  `fetchLaunchesWithQuery` returns it, and the older `http.Get` loop cannot
  tell it apart from a transport error.

`fetchFromAPINASA` (api/client.go:211-298) is the same loop as `fetchFromAPI` (api/client.go:122-209) on a different receiver holding the same configuration. So `ApiClient.FetchFromAPINASA` delegates to `ApiClient.FetchFromAPI` instead of repeating the loop.

The properties of the loops are proved as lemmas about `Retry.Run`.

Modules, one per file:
- `Wrappers`: `Option` and `Result`.
- `Model`: the records.
- `Configuration`: the config and its validator.
- `Backoff`: the backoff delay.
- `Retry`: the attempt loop as a specification.
- `Reindex`: list-to-map by id.
- `ApiClient`: `api/client.go`.
- `ApiSpaceX`: `api/spacex.go`.
- `Launches`: cost, status, crew and asteroid logic of `cmd/launches.go`.
- `LaunchQuery`: `buildLaunchQuery`.

Durations are integers of nanoseconds, as Go's `time.Duration` is.

## Model

| member | source | states |
|---|---|---|
| Configuration.Validate | model/config.go:16-33 | the config is accepted exactly when every bound holds (non-empty key, timeout ≥ 1 s, 1 ≤ retries ≤ 10, base delay ≥ 100 ms, max delay ≥ 1 s); each error is reported exactly when its guard is the first that fails |
| Configuration.DefaultConfig | model/config.go:35-42 | the built-in settings: no NASA API key, a 30 s timeout, 5 retries, a 200 ms base delay and a 5 s maximum delay |
| Configuration.DefaultConfigLacksKey | model/config.go:35-42 | the default config is rejected only for its missing API key, and is within bounds once a key is supplied |
| Configuration.DefaultConfigWithKeyIsValid | model/config.go:35-42 | the default config plus any non-empty key passes validation |
| Configuration.RetriesBoundaries | model/config.go:23-25 | 1 and 10 retries are accepted, 0 and 11 are rejected with the retries error |
| Backoff.Min | api/spacex.go:126-131 | the result is one of the two arguments and no greater than either |
| Backoff.CalculateBackoffDelay | api/spacex.go:113-124 | the delay is the jittered linear delay `base*(attempt+1)+jitter`, capped at `maxDelay` (it equals one of the two and exceeds neither) |
| Backoff.BackoffBounds | api/spacex.go:113-124 | with jitter within ±25 % of the raw delay, the delay is at most `maxDelay`, at least min(¾ of the raw delay, `maxDelay`), and non-negative when `maxDelay` is |
| Backoff.RawDelayIsLinear | api/spacex.go:114 | the raw delay, built by adding the base once per attempt, is `base*(attempt+1)`, and at least the base when the base is non-negative |
| Retry.ClassifyStatus | api/client.go:155-181 | 429 and 5xx are retryable, 2xx is accepted, every other status is rejected (each an iff) |
| Retry.StatusClassInAttempt | api/client.go:155-181 | a rejected status ends the attempt with "API returned status"; a retryable one sleeps for `Retry-After` or the backoff before the last attempt, and on the last ends with the status error quoting retries+1 |
| Retry.PrefixIsSlice | api/client.go:197 | the quoted body prefix is exactly `body[:min(200, len(body))]`, whatever the body length |
| Retry.DecodeFailureQuotesPrefix | api/client.go:183-198 | a JSON parse error comes only from a readable 2xx response that did not decode, and quotes exactly the first min(200, len) bytes of its body |
| Retry.AttemptFacts | api/client.go:132-205 | the last attempt never sleeps; budget errors occur only on the last attempt and quote retries+1; a value comes only from a readable, decoded 2xx response |
| Retry.RunShape | api/client.go:125-208 | from any attempt: attempts made stay within the budget; "max retries exceeded" iff the loop is entered past the last attempt; cancellation only where the context is seen done; one sleep per attempt not ending the call, each the sleep that attempt asked for; an unstopped run ends with its last attempt's result |
| Retry.FetchBudget | api/client.go:125-208 | at most retries+1 attempts and retries sleeps; "max retries exceeded" iff the retry budget is negative, so never for a validated config |
| Retry.FinalFailure | api/client.go:134-198 | every "after %d attempts" error comes after exactly retries+1 attempts and retries sleeps; a decode error quotes exactly the first min(200, len) bytes of the last body |
| Retry.RunAfterRetries | api/client.go:125-206 | attempts that retry only prepend their sleeps; result and attempt count are those of the run after them |
| Retry.EndsAtFirstDone | api/client.go:125-206 | the first attempt that does not retry ends the call with its own result, after k+1 attempts and k sleeps |
| Retry.CancelledBeforeSending | api/client.go:126-130 | a context seen done at attempt k returns the context error after k attempts, with no request for attempt k and no further attempt |
| Retry.RejectedStatusIsFinal | api/client.go:178-181 | a non-retryable non-2xx status on the first attempt returns "API returned status" after one attempt and no sleep |
| Retry.SucceedsAfterRetries | api/client.go:183-205 | a readable, decodable 2xx after k retried attempts returns its value after k+1 attempts |
| Retry.RetryThenSuccess | api/client.go:155-176 | a 429/5xx then a good response sleeps once, for the `Retry-After` value if present (uncapped) and the backoff otherwise |
| Retry.PersistentTransportFailure | api/client.go:143-152 | transport failure on every attempt gives retries sleeps, each its attempt's backoff, then "HTTP request failed after retries+1 attempts" |
| ApiClient.CalculateBackoffDelay | api/client.go:392-403 | the client's delay is the backoff function applied to its configured base and max delays |
| ApiClient.ValidatedBackoffIsPositive | api/client.go:392-403 | under a validated config and jitter within ±25 %, every delay is positive and at most the max delay |
| ApiClient.RequestErrorRules | api/client.go:132-141 | a request that cannot be built sleeps for the backoff in `fetchFromAPI` before the last attempt and reports "failed to create request after retries+1 attempts" on it; in `fetchLaunchesWithQuery` it ends the attempt with the unnumbered error |
| ApiClient.FirstRequestErrorContrast | api/client.go:313-316 | when the first request cannot be built, the query returns that error after one attempt and no sleep, while a plain fetch with retries left sleeps the backoff and carries on from attempt 1 |
| ApiClient.FetchFromAPI | api/client.go:122-209 | the loop's result, sleeps and attempt count are exactly those of the retrying, cancellable specification |
| ApiClient.FetchFromAPINASA | api/client.go:211-298 | the NASA copy of the loop has the same result, sleeps and attempt count as the retrying, cancellable specification |
| ApiClient.FetchLaunchesWithQuery | api/client.go:300-390 | a marshal failure returns at once; otherwise the trace is the cancellable specification with request-building errors fatal, returning the decoded `docs` |
| ApiClient.GetAllRockets | api/client.go:62-74 | on failure the fetch error wrapped with "failed to fetch rockets"; on success the rockets re-keyed by id |
| ApiClient.GetAllCrewMembers | api/client.go:76-88 | on failure the fetch error wrapped with "failed to fetch crew members"; on success the crew re-keyed by id |
| ApiClient.GetAllLaunchpads | api/client.go:90-102 | on failure the fetch error wrapped with "failed to fetch launchpads"; on success the launchpads re-keyed by id |
| ApiClient.EarthEventsUrl | api/client.go:105 | the URL is the events endpoint followed by the query parameters |
| ApiClient.AsteroidsUrl | api/client.go:114 | the URL is the feed endpoint, then the query parameters, then `&api_key=` and the key |
| ApiClient.GetEarthEvents | api/client.go:104-111 | on failure an empty list and the wrapped error; on success the decoded events |
| ApiClient.GetAsteroids | api/client.go:113-120 | on failure the zero feed and the wrapped error; on success the decoded feed |
| ApiSpaceX.FetchFromAPI | api/spacex.go:38-111 | the loop equals the specification with 5 retries, 200 ms to 5 s delays, no context, request errors behaving as transport errors |
| ApiSpaceX.FetchLaunchesWithQuery | api/spacex.go:137-226 | a marshal failure returns at once; otherwise the fixed-budget specification with request-building errors fatal, returning `docs` |
| ApiSpaceX.GetAllCrewMembers | api/spacex.go:15-26 | on failure the fetch error unwrapped; on success the crew re-keyed by id |
| ApiSpaceX.FixedBudget | api/spacex.go:40-44 | at most 6 attempts and 5 sleeps, never cancelled or "max retries exceeded", every sleep without `Retry-After` at most 5 s |
| Reindex.IndexedLookup | api/client.go:69-72 | an id is a key of the map iff some item has it, and maps to the last item with that id |
| Reindex.IndexedKeysMatch | api/client.go:69-72 | every entry of the map is stored under its own id |
| Reindex.IndexById | api/client.go:69-73 | the loop builds the last-write-wins index; keys are exactly the ids present and each entry sits under its own id |
| Launches.TotalCostAppend | cmd/launches.go:187-189 | the total of a concatenation is the sum of the totals |
| Launches.TotalCostPermutation | cmd/launches.go:169-188 | the total is the same for every arrival order of the per-launch costs |
| Launches.TotalCostOfUnknownRockets | cmd/launches.go:174-178 | launches whose rockets are all unknown cost 0 |
| Launches.GetCosts | cmd/launches.go:164-193 | whatever order the workers finish in, the total is the sum over the launches of their rocket's cost (0 if unknown), and the error is nil |
| Launches.StatusOf | cmd/launches.go:76-83 | Unknown iff success is nil, Success iff it is true, Failed iff it is false |
| Launches.RocketName | cmd/launches.go:88 | the rocket's name when its id is known, the empty string otherwise |
| Launches.CrewNamesAppend | cmd/launches.go:95-100 | resolving names distributes over concatenation of crew id lists |
| Launches.CrewNamesBounds | cmd/launches.go:95-100 | never more names than ids; one name per id, in order, when all are known; none when none are known |
| Launches.CrewLine | cmd/launches.go:93-102 | a crew line appears iff the launch has crew and the crew map was fetched, listing the names resolved in order |
| Launches.SumOverRemove | cmd/launches.go:141 | summing over the date buckets does not depend on which bucket is taken first |
| Launches.CountInSplits | cmd/launches.go:142-147 | in one bucket, hazardous plus non-hazardous is the bucket's size |
| Launches.TallySplits | cmd/launches.go:137-155 | over the feed, hazardous plus non-hazardous is the number of asteroids |
| Launches.TallyAsteroids | cmd/launches.go:137-156 | in any map order the two counters are the numbers of hazardous and non-hazardous asteroids, together the total |
| Launches.BuildAsteroidsQueryParams | cmd/launches.go:195-197 | the date appears as both start and end of the window, between the two fixed parameter names |
| LaunchQuery.BuildLaunchQuery | cmd/launches.go:199-237 | the document built step by step, map by map, equals the declarative document whose shape `QueryShape` states |
| LaunchQuery.QueryShape | cmd/launches.go:199-237 | the document has exactly `query` and `options`; `upcoming` always, with the flag; a `date_utc` window iff both dates are set, bounded by the start of the first day and the end of the last; `success: false` iff failed; no other filter; the descending sort always and a limit iff positive, with its value; no other option |
| LaunchQuery.KeyNamesDistinct | cmd/launches.go:199-237 | different keys have different JSON names, so the keyed document stands for the string-keyed map |
| LaunchQuery.StripSuffixOfAppend | cmd/launches.go:212-216 | the fixed time-of-day suffix can be stripped back off a bound |
| LaunchQuery.WindowRoundTrip | cmd/launches.go:212-216 | both bounds of a date window read back as the days they were built from |
| LaunchQuery.FlagsRoundTrip | cmd/launches.go:199-237 | reading the flags back from the document gives the effective flags (date window only when both ends are set, limit only when positive) |
| LaunchQuery.QueryDependsOnlyOnEffective | cmd/launches.go:209-233 | dropping a half-open window or a non-positive limit does not change the document |
| LaunchQuery.SameQueryIffSameEffectiveFlags | cmd/launches.go:199-237 | two flag sets give the same document iff their effective flags agree |
| LaunchQuery.DefaultQuery | cmd/launches_test.go:17-30 | with the test helper's zero flags (limit 0), the document holds only `upcoming: false` and the sort by descending date; the command's own `--limit` default of 200 (cmd/launches.go:242) would add `limit: 200` |
| LaunchQuery.FullQuery | cmd/launches_test.go:102-127 | with every flag set, the document the command's test expects |
| LaunchQuery.JanuaryWindow | cmd/launches_test.go:102-127 | the window for 2024-01-01 to 2024-01-31 runs from `2024-01-01T00:00:00.000Z` to `2024-01-31T23:59:59.999Z` |
| LaunchQuery.IgnoredFlags | cmd/launches_test.go:128-191 | zero or negative limits and a single date leave the default document |

## Left out

- HTTP, JSON marshalling and decoding, `io.ReadAll`, `time.Sleep` and logging are not modelled. Each attempt's outcome is an input, and sleeps are recorded in the returned delays instead of being slept.
- `Retry-After` parsing (`time.ParseDuration(h + "s")`) is not modelled: the header arrives already parsed as an optional duration, and an unparsable header counts as an absent one.
- Backoff.CalculateBackoffDelay: the source computes in `float64` with `rand.Float64()` and truncates to `time.Duration`. The model uses an integer jitter supplied from outside, and the ±25 % bound is a precondition of the lemmas, not something the model ensures.
- ApiClient.FetchFromAPI: on an error the source also returns the partly filled `result` variable; the model returns only the error.
- ApiSpaceX.FetchFromAPI: the same applies; only the error is modelled.
- Json marshalling failure is modelled as a boolean input (`marshalOk`). `api/spacex.go` returns that error unwrapped; the model keeps a single `MarshalFailed` value for both revisions.
- ApiSpaceX.FetchLaunchesWithQuery: when `http.NewRequest` fails, `api/spacex.go:148-151` returns that error bare, while `api/client.go:313-316` wraps it as "failed to create request". The model returns the same `RequestFailed` value for both; it does not tell the bare error from the wrapped one.
- ApiClient.FetchFromAPI, ApiClient.FetchFromAPINASA, ApiSpaceX.FetchFromAPI: the source declares `result` once before the loop (api/client.go:123, api/client.go:212, api/spacex.go:39) and every attempt decodes into it. `json.Unmarshal` can partly fill it on a type error and reuses slice elements, so fields from a failed decode can carry over into a later success. The model returns the later attempt's own decoded value and does not capture this carry-over. The query loops declare `result` per attempt and are unaffected.
- Timeouts of `http.Client` are not modelled; they appear as transport errors.
- The goroutines and channel of `getCosts` are replaced by the order in which their results arrive, an input that is a permutation of the launches. The "Total cost" printout is not modelled.
- The printing in the `launches` command is not modelled: dates, emoji lines, details and the launchpad and weather sections. Only the values those lines display are modelled.
- TallyAsteroids: the minimum and maximum diameters are not modelled, because they use floating point.
- `BuildWeatherEventsQueryParams` (api/client.go:418-420) is not modelled, because it formats floating-point coordinates.
- `GetRocket` and `GetLaunchpad` (api/spacex.go:28-36) are not modelled. Each is one call of `fetchFromAPI` with a URL, and `ApiSpaceX.FetchFromAPI` covers that loop.
- `GetLaunchesWithQuery` (api/client.go:58-60, api/spacex.go:133-135) is not modelled separately. It only supplies the URL to `fetchLaunchesWithQuery`.
- The NASA client's copy of `calculateBackoffDelay` (api/client.go:405-416) is identical to the SpaceX client's, so `ApiClient.CalculateBackoffDelay` stands for both.
- `Config.Validate` has a pointer receiver but does not modify the config; it is modelled as a pure function.
- The JSON object keys of the query document are a `Key` datatype rather than strings; `KeyName` gives each key's JSON name, and distinct keys have distinct names.
- The date formatting with `2006-01-02` is not modelled: dates arrive as already-formatted strings.
- cmd/root.go and cmd/earth.go are not part of this model. They hold cobra command registration, flags and viper configuration-file loading. The `earth` command only fetches and prints.
- cmd/service.go is not part of this model. It holds thin pass-through methods to the clients, `LoadConfiguration` (an environment read, then `Validate`) and `SetupLogger`. The clients' methods and `Validate` it calls are modelled.
- api/nasa.go is not part of this model. It holds `GetNASAAPIKey` (an environment read), the older revision's `GetEarthEvents` and `GetAsteriods` wrappers over `fetchFromAPI`, and a copy of `BuildWeatherEventsQueryParams`. `GetAsteriods` names an undefined `model.NasaAsteriod` type, so that file does not build as written. The newer client's `GetEarthEvents` and `GetAsteroids` are modelled.
- main.go is not part of this model. It sets up the logger, installs a SIGINT/SIGTERM handler that exits, and runs the root command.
