/**
 * Client configuration (model/config.go). Durations are Go `time.Duration`
 * values, i.e. integer nanoseconds.
 */
module Configuration {
  import opened Wrappers

  const Millisecond: int := 1_000_000
  const Second: int := 1_000 * Millisecond

  datatype Config = Config(nasaApiKey: string, timeout: int, retries: int, baseDelay: int, maxDelay: int)

  /** One error per guard of `Validate`, in the order the guards run. */
  datatype ConfigError = MissingApiKey | TimeoutTooShort | RetriesOutOfRange | BaseDelayTooShort | MaxDelayTooShort

  /** The documented bounds: every field meets its minimum and the retry count lies in [1, 10]. */
  predicate WithinBounds(c: Config) {
    && c.nasaApiKey != ""
    && c.timeout >= Second
    && 1 <= c.retries <= 10
    && c.baseDelay >= 100 * Millisecond
    && c.maxDelay >= Second
  }

  /**
   * `Config.Validate`: None plays Go's nil error. The guards run in a fixed
   * order and the first one that fails decides the error.
   */
  function Validate(c: Config): (r: Option<ConfigError>)
    ensures r == None <==> WithinBounds(c)
    ensures r == Some(MissingApiKey) <==> c.nasaApiKey == ""
    ensures r == Some(TimeoutTooShort) <==> c.nasaApiKey != "" && c.timeout < Second
    ensures r == Some(RetriesOutOfRange) <==>
      c.nasaApiKey != "" && c.timeout >= Second && !(1 <= c.retries <= 10)
    ensures r == Some(BaseDelayTooShort) <==>
      c.nasaApiKey != "" && c.timeout >= Second && 1 <= c.retries <= 10 && c.baseDelay < 100 * Millisecond
    ensures r == Some(MaxDelayTooShort) <==>
      && c.nasaApiKey != "" && c.timeout >= Second && 1 <= c.retries <= 10
      && c.baseDelay >= 100 * Millisecond && c.maxDelay < Second
  {
    if c.nasaApiKey == "" then Some(MissingApiKey)
    else if c.timeout < Second then Some(TimeoutTooShort)
    else if c.retries < 1 || c.retries > 10 then Some(RetriesOutOfRange)
    else if c.baseDelay < 100 * Millisecond then Some(BaseDelayTooShort)
    else if c.maxDelay < Second then Some(MaxDelayTooShort)
    else None
  }

  /** `DefaultConfig`: the built-in settings, with no API key. */
  function DefaultConfig(): (c: Config)
    ensures c.nasaApiKey == "" && c.timeout == 30 * Second && c.retries == 5
    ensures c.baseDelay == 200 * Millisecond && c.maxDelay == 5 * Second
  {
    Config(nasaApiKey := "", timeout := 30 * Second, retries := 5,
           baseDelay := 200 * Millisecond, maxDelay := 5 * Second)
  }

  /** The defaults alone are rejected, and for the missing key only. */
  lemma DefaultConfigLacksKey()
    ensures Validate(DefaultConfig()) == Some(MissingApiKey)
    ensures WithinBounds(DefaultConfig().(nasaApiKey := "k"))
  {
  }

  /** The defaults with any non-empty key pass validation. */
  lemma DefaultConfigWithKeyIsValid(key: string)
    requires key != ""
    ensures Validate(DefaultConfig().(nasaApiKey := key)) == None
  {
  }

  /** The retry bound is inclusive at both ends: 1 and 10 pass, 0 and 11 do not. */
  lemma RetriesBoundaries(c: Config)
    requires c.nasaApiKey != "" && c.timeout >= Second
    requires c.baseDelay >= 100 * Millisecond && c.maxDelay >= Second
    ensures Validate(c.(retries := 1)) == None
    ensures Validate(c.(retries := 10)) == None
    ensures Validate(c.(retries := 0)) == Some(RetriesOutOfRange)
    ensures Validate(c.(retries := 11)) == Some(RetriesOutOfRange)
  {
  }
}
