/** Values shared by the odds client, its settings store and the data-fetch hooks:
    the persisted configuration record, the error taxonomy and the result wrapper. */
module OddsTypes {

  datatype Option<+T> = None | Some(value: T)

  /** The settings of one sport: whether fetching it is allowed and its polling period in seconds. */
  datatype SportConfig = SportConfig(enabled: bool, refreshInterval: int)

  /** The configuration record `{apiKey, sports, lastUpdated}`.
      A field that is absent or falsy in the stored JSON is the empty string here. */
  datatype Config = Config(apiKey: string, sports: map<string, SportConfig>, lastUpdated: string)

  /** What `getSportConfig` answers for a sport known neither to the configuration nor to the defaults. */
  const UnknownSport := SportConfig(false, 30)

  /** The machine-readable codes an `OddsApiError` carries. */
  datatype ErrorCode =
    | ApiKeyRequired
    | ApiKeyInvalid
    | ApiRateLimit
    | ResourceNotFound
    | ApiConnectionError
    | SportDisabled
    | InitializationError

  /** The string each code is written as, which is what callers compare against. */
  function CodeName(c: ErrorCode): string {
    match c
    case ApiKeyRequired => "API_KEY_REQUIRED"
    case ApiKeyInvalid => "API_KEY_INVALID"
    case ApiRateLimit => "API_RATE_LIMIT"
    case ResourceNotFound => "RESOURCE_NOT_FOUND"
    case ApiConnectionError => "API_CONNECTION_ERROR"
    case SportDisabled => "SPORT_DISABLED"
    case InitializationError => "INITIALIZATION_ERROR"
  }

  /** Comparing code strings is the same as comparing codes. */
  lemma CodeNameInjective(a: ErrorCode, b: ErrorCode)
    ensures CodeName(a) == CodeName(b) <==> a == b
  {
  }

  /** The typed error of the client. Its message is the fixed text for its code, so the code alone is kept. */
  datatype OddsApiError = OddsApiError(code: ErrorCode)

  /** The outcome of a client operation: the value it resolves with, or the error it rejects with. */
  datatype Result<+T> = Success(value: T) | Failure(error: OddsApiError)

  function Fail<T>(code: ErrorCode): Result<T> {
    Failure(OddsApiError(code))
  }
}
