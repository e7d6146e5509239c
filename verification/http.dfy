/**
 * What the API handlers share: the server configuration read from the
 * environment, the error codes they answer with, and the `Bearer` header form.
 */
module Http {
  import opened Wrappers
  import opened Text

  /** Every error code a handler answers with. */
  datatype ErrorCode =
    | MissingAuthorization
    | InvalidAuthorization
    | NotFound
    | MethodNotAllowed
    | InvalidContentType
    | InvalidImageInput
    | InvalidQuery
    | Unknown

  /** A JSON reply, or an error response with its HTTP status and code. */
  datatype ApiResult<+T> = Done(value: T) | Fail(status: int, code: ErrorCode)

  /**
   * A number parsed from text with `+x` or `parseInt`: absent, not a number,
   * or an integer.
   */
  datatype NumParam = Absent | NaN | Num(n: int)

  /** JavaScript truthiness of a parsed number: absent, NaN and 0 are falsy. */
  predicate NumTruthy(p: NumParam) {
    p.Num? && p.n != 0
  }

  /** JavaScript truthiness of an optional string: absent and "" are falsy. */
  predicate Truthy(s: Option<string>) {
    s.Some? && s.value != ""
  }

  /**
   * The environment as the handlers read it.
   * - apiAuthEnabled: API_AUTH_ENABLED, raw
   * - masterKey: MASTER_API_KEY, raw
   * - serverAddress: SERVER_ADDRESS, this node's public address
   * - maxFileSize: Number(MAX_FILE_SIZE); None when it is NaN
   * - maxOutputEdgeEnv: Number(MAX_OUTPUT_IMAGE_EDGE); None when it is NaN
   */
  datatype Config = Config(
    apiAuthEnabled: Option<string>,
    masterKey: Option<string>,
    serverAddress: string,
    maxFileSize: Option<int>,
    maxOutputEdgeEnv: Option<int>)

  /** Upload and resize-and-convert demand a header only when API_AUTH_ENABLED is exactly "true". */
  predicate AuthRequired(cfg: Config) {
    cfg.apiAuthEnabled == Some("true")
  }

  const BearerPrefix: string := "Bearer "

  /** `auth.slice(7)`: the token after "Bearer ". */
  function BearerToken(auth: string): (token: string)
    requires StartsWith(auth, BearerPrefix)
    ensures auth == BearerPrefix + token
  {
    auth[|BearerPrefix|..]
  }

  /** The token is the configured master key (which must be non-empty). */
  predicate IsMaster(cfg: Config, token: string) {
    Truthy(cfg.masterKey) && token == cfg.masterKey.value
  }
}
