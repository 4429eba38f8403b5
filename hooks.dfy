/** The decision rules the data-fetch hooks hand to the query library: error normalisation,
    the retry predicates, the `enabled` conditions and the cache keys. */
module Hooks {
  import opened OddsTypes
  import opened ApiSpec

  // ---------------------------------------------------------------------------------------
  // Error normalisation

  /** A value a query function may see thrown: a client error, or anything else. */
  datatype Thrown = ClientError(error: OddsApiError) | Foreign

  /** `handleError`: a client error passes through unchanged; anything else becomes a connection error. */
  function HandleError(thrown: Thrown): (e: OddsApiError)
    ensures thrown.ClientError? ==> e == thrown.error
    ensures thrown.Foreign? ==> e.code == ApiConnectionError
  {
    match thrown
    case ClientError(error) => error
    case Foreign => OddsApiError(ApiConnectionError)
  }

  /** What awaiting a client call gives a query function: a value, or a thrown value. */
  datatype Attempt<T> = Returned(value: T) | Threw(thrown: Thrown)

  /** The `try { return await … } catch (error) { throw handleError(error) }` wrapper of the odds,
      live-events and scores query functions: it resolves with the value, or rejects with an
      `OddsApiError` and nothing else. */
  function QueryOutcome<T>(attempt: Attempt<T>): (r: Result<T>)
    ensures attempt.Returned? <==> r.Success?
    ensures r.Success? ==> r.value == attempt.value
    ensures r.Failure? ==> r.error == HandleError(attempt.thrown)
  {
    match attempt
    case Returned(v) => Success(v)
    case Threw(t) => Failure(HandleError(t))
  }

  /** A client outcome as the query function observes it: a resolved value or a thrown client error. */
  function AwaitClient<T>(r: Result<T>): Attempt<T> {
    match r
    case Success(v) => Returned(v)
    case Failure(e) => Threw(ClientError(e))
  }

  /** The wrapper is transparent to everything the client produces, so every code it raises
      (SPORT_DISABLED in particular) reaches the retry predicate intact. */
  lemma QueryPreservesClientOutcome<T>(r: Result<T>)
    ensures QueryOutcome(AwaitClient(r)) == r
  {
  }

  // ---------------------------------------------------------------------------------------
  // Retry

  /** The retry predicate of the odds, live-events and scores queries, comparing the code string. */
  predicate RetrySportQuery(failureCount: int, error: OddsApiError) {
    failureCount < 2 && CodeName(error.code) != "SPORT_DISABLED"
  }

  /** A numeric `retry: n` as the query library reads it: retry while fewer than `n` failures were counted. */
  predicate RetryUpTo(limit: nat, failureCount: int) {
    failureCount < limit
  }

  /** The retry limit of the sports query. */
  const SportsRetryLimit: nat := 2

  /** The sport queries retry exactly as the sports query does, except that SPORT_DISABLED is never retried. */
  lemma RetryRule(failureCount: int, error: OddsApiError)
    ensures RetrySportQuery(failureCount, error) <==>
              RetryUpTo(SportsRetryLimit, failureCount) && error.code != SportDisabled
    ensures error.code == SportDisabled ==> !RetrySportQuery(failureCount, error)
  {
  }

  /** How many times a sport query's function runs when every run fails with `error`, counting from
      `failureCount` failures already recorded (the library passes the failures before the current one). */
  function AttemptsFrom(failureCount: nat, error: OddsApiError): nat
    decreases 2 - failureCount
  {
    if RetrySportQuery(failureCount, error) then 1 + AttemptsFrom(failureCount + 1, error) else 1
  }

  /** A SPORT_DISABLED failure is tried once; any other persistent failure three times. */
  lemma AttemptCount(error: OddsApiError)
    ensures AttemptsFrom(0, error) == if error.code == SportDisabled then 1 else 3
  {
  }

  // ---------------------------------------------------------------------------------------
  // Enabled conditions

  /** `enabled` of the sports query: only the client's configured flag. */
  predicate SportsQueryEnabled(configured: bool) {
    configured
  }

  /** `enabled` of the odds, live-events and scores queries: configured and a non-empty sport key. */
  predicate SportQueryEnabled(configured: bool, sportKey: string) {
    configured && sportKey != ""
  }

  /** An enabled odds, live-events or scores query never fails for a missing key: if its sport is
      enabled the request is issued carrying the client's key, and otherwise the only refusal is
      SPORT_DISABLED. An enabled sports query always issues its request. */
  lemma EnabledQueryPassesKeyGuard<T>(s: ApiState, baseUrl: string, sportKey: string, endpoint: string,
                                      params: seq<(string, ParamValue)>, reply: Reply<T>)
    requires Wf(s)
    ensures SportsQueryEnabled(Configured(s)) ==> GetSportsStep(s, baseUrl, reply).sent.Some?
    ensures SportQueryEnabled(Configured(s), sportKey) ==>
              var f := SportGuardedStep(s, baseUrl, sportKey, endpoint, params, reply);
              && f.result != Fail(ApiKeyRequired)
              && (f.sent.Some? <==> SportConfigOf(s, sportKey).enabled)
              && (f.sent.Some? ==> f.sent.value.params[0] == ("apiKey", Text(s.config.apiKey)))
  {
  }

  // ---------------------------------------------------------------------------------------
  // Query keys

  /** The four queries the hooks issue. */
  datatype Query = Sports | Odds(sportKey: string) | LiveEvents(sportKey: string) | Scores(sportKey: string)

  /** The cache key of each query; the library treats the string key `'sports'` as `['sports']`. */
  function QueryKey(q: Query): (key: seq<string>)
    ensures q.Sports? <==> |key| == 1
    ensures !q.Sports? ==> |key| == 2 && key[1] == q.sportKey
  {
    match q
    case Sports => ["sports"]
    case Odds(k) => ["odds", k]
    case LiveEvents(k) => ["live-events", k]
    case Scores(k) => ["scores", k]
  }

  /** Different queries never share a cache entry. */
  lemma QueryKeysDistinct(p: Query, q: Query)
    ensures QueryKey(p) == QueryKey(q) <==> p == q
  {
  }
}
