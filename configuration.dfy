/**
 * Configuration loading of the advisory service (ose-api/internal/config/config.go).
 *
 * The process environment is a map from variable names to values; `os.Getenv`
 * yields "" for a missing variable. `strconv.Atoi` and `strconv.ParseBool` are
 * abstract partial functions supplied as `Parsers`. Durations are `time.Duration`
 * values: signed 64-bit counts of nanoseconds.
 */
module Configuration {
  import opened Results

  const TWO_TO_63: int := 0x8000_0000_0000_0000
  const TWO_TO_64: int := 0x1_0000_0000_0000_0000

  /** Go's `int` and `int64` on the 64-bit platforms the service targets. */
  type Int64 = x: int | -TWO_TO_63 <= x < TWO_TO_63

  /** Two's-complement wrap-around of a mathematical integer into 64 bits. */
  function Wrap64(x: int): (r: Int64)
    ensures (r - x) % TWO_TO_64 == 0
    ensures -TWO_TO_63 <= x < TWO_TO_63 ==> r == x
  {
    (x + TWO_TO_63) % TWO_TO_64 - TWO_TO_63
  }

  /** `time.Second` in nanoseconds. */
  const SECOND: int := 1_000_000_000

  datatype Config = Config(
    grpcAddress: string,
    httpAddress: string,
    neo4jUri: string,
    neo4jUser: string,
    neo4jPassword: string,
    templatePath: string,
    logLevel: string,
    enableMetrics: bool,
    enableTracing: bool,
    tracingEndpoint: string,
    maxConcurrentRequests: Int64,
    requestTimeout: Int64,
    shutdownTimeout: Int64)

  type Env = map<string, string>

  /** The parsers the loader relies on; `None` stands for a non-nil parse error. */
  datatype Parsers = Parsers(atoi: string -> Option<Int64>, parseBool: string -> Option<bool>)

  /** `os.Getenv`: the value, or "" when the variable is unset. */
  function Getenv(env: Env, key: string): (v: string)
    ensures key !in env ==> v == ""
    ensures key in env ==> v == env[key]
  {
    if key in env then env[key] else ""
  }

  /** `getEnv`: a non-empty value wins over the default. */
  function GetEnv(env: Env, key: string, defaultValue: string): (r: string)
    ensures Getenv(env, key) != "" ==> r == env[key]
    ensures Getenv(env, key) == "" ==> r == defaultValue
    ensures r == "" <==> Getenv(env, key) == "" && defaultValue == ""
  {
    var value := Getenv(env, key);
    if value != "" then value else defaultValue
  }

  /** `getEnvInt`: the parsed value, or the default when the variable is empty or unparsable. */
  function GetEnvInt(env: Env, p: Parsers, key: string, defaultValue: Int64): (r: Int64)
    ensures Getenv(env, key) == "" || p.atoi(Getenv(env, key)).None? ==> r == defaultValue
    ensures Getenv(env, key) != "" && p.atoi(Getenv(env, key)).Some? ==> r == p.atoi(Getenv(env, key)).value
  {
    var value := Getenv(env, key);
    if value != "" && p.atoi(value).Some? then p.atoi(value).value else defaultValue
  }

  /** `getEnvBool`: the parsed value, or the default when the variable is empty or unparsable. */
  function GetEnvBool(env: Env, p: Parsers, key: string, defaultValue: bool): (r: bool)
    ensures Getenv(env, key) == "" || p.parseBool(Getenv(env, key)).None? ==> r == defaultValue
    ensures Getenv(env, key) != "" && p.parseBool(Getenv(env, key)).Some? ==> r == p.parseBool(Getenv(env, key)).value
  {
    var value := Getenv(env, key);
    if value != "" && p.parseBool(value).Some? then p.parseBool(value).value else defaultValue
  }

  /** The errors of `Validate`, each carrying the offending value. */
  datatype ConfigError =
    | GrpcAddressEmpty
    | HttpAddressEmpty
    | MaxConcurrentNotPositive(requests: int)
    | RequestTimeoutNotPositive(timeout: int)
    | InvalidLogLevel(level: string)

  /**
   * `Load`'s error, wrapping the validation failure. `TimeoutOutOfRange` is raised
   * only by the corrected `Load`, for a seconds count whose duration exceeds 64 bits.
   */
  datatype LoadError = ValidationFailed(cause: ConfigError) | TimeoutOutOfRange(seconds: int)

  const VALID_LOG_LEVELS: set<string> := {"debug", "info", "warn", "error"}

  /** `Config.Validate`: five checks, the first failing one reported. */
  function Validate(c: Config): (r: Option<ConfigError>)
    ensures r.None? <==>
              c.grpcAddress != "" && c.httpAddress != "" && c.maxConcurrentRequests > 0
              && c.requestTimeout > 0 && c.logLevel in VALID_LOG_LEVELS
    ensures c.grpcAddress == "" ==> r == Some(GrpcAddressEmpty)
    ensures c.grpcAddress != "" && c.httpAddress == "" ==> r == Some(HttpAddressEmpty)
    ensures c.grpcAddress != "" && c.httpAddress != "" && c.maxConcurrentRequests <= 0 ==>
              r == Some(MaxConcurrentNotPositive(c.maxConcurrentRequests))
    ensures c.grpcAddress != "" && c.httpAddress != "" && c.maxConcurrentRequests > 0 && c.requestTimeout <= 0 ==>
              r == Some(RequestTimeoutNotPositive(c.requestTimeout))
    ensures c.grpcAddress != "" && c.httpAddress != "" && c.maxConcurrentRequests > 0 && c.requestTimeout > 0
              && c.logLevel !in VALID_LOG_LEVELS ==>
              r == Some(InvalidLogLevel(c.logLevel))
    ensures r.Some? && r.value.InvalidLogLevel? ==> r.value.level == c.logLevel && c.requestTimeout > 0
  {
    if c.grpcAddress == "" then Some(GrpcAddressEmpty)
    else if c.httpAddress == "" then Some(HttpAddressEmpty)
    else if c.maxConcurrentRequests <= 0 then Some(MaxConcurrentNotPositive(c.maxConcurrentRequests))
    else if c.requestTimeout <= 0 then Some(RequestTimeoutNotPositive(c.requestTimeout))
    else if c.logLevel !in VALID_LOG_LEVELS then Some(InvalidLogLevel(c.logLevel))
    else None
  }

  const OSE_PREFIX := "OSE_"
  const KEY_GRPC_ADDRESS := OSE_PREFIX + "GRPC_ADDRESS"
  const KEY_HTTP_ADDRESS := OSE_PREFIX + "HTTP_ADDRESS"
  const KEY_NEO4J_URI := OSE_PREFIX + "NEO4J_URI"
  const KEY_NEO4J_USER := OSE_PREFIX + "NEO4J_USER"
  const KEY_NEO4J_PASSWORD := OSE_PREFIX + "NEO4J_PASSWORD"
  const KEY_TEMPLATE_PATH := OSE_PREFIX + "TEMPLATE_PATH"
  const KEY_LOG_LEVEL := OSE_PREFIX + "LOG_LEVEL"
  const KEY_ENABLE_METRICS := OSE_PREFIX + "ENABLE_METRICS"
  const KEY_ENABLE_TRACING := OSE_PREFIX + "ENABLE_TRACING"
  const KEY_TRACING_ENDPOINT := OSE_PREFIX + "TRACING_ENDPOINT"
  const KEY_MAX_CONCURRENT := OSE_PREFIX + "MAX_CONCURRENT"
  const KEY_REQUEST_TIMEOUT := OSE_PREFIX + "REQUEST_TIMEOUT"

  const DEFAULT_GRPC_ADDRESS := ":50051"
  const DEFAULT_HTTP_ADDRESS := ":8080"
  const DEFAULT_NEO4J_URI := "bolt://localhost:7687"
  const DEFAULT_NEO4J_USER := "neo4j"
  const DEFAULT_TEMPLATE_PATH := "./templates"
  const DEFAULT_LOG_LEVEL := "info"
  const DEFAULT_TRACING_ENDPOINT := "localhost:4317"
  const DEFAULT_MAX_CONCURRENT: Int64 := 100
  const DEFAULT_REQUEST_TIMEOUT_SECONDS: Int64 := 30
  const SHUTDOWN_TIMEOUT: Int64 := 30 * SECOND

  /** The seconds count `Load` reads for the request timeout. */
  function RequestTimeoutSeconds(env: Env, p: Parsers): (n: Int64)
    ensures n == DEFAULT_REQUEST_TIMEOUT_SECONDS || p.atoi(Getenv(env, KEY_REQUEST_TIMEOUT)) == Some(n)
    ensures Getenv(env, KEY_REQUEST_TIMEOUT) == "" ==> n == DEFAULT_REQUEST_TIMEOUT_SECONDS
  {
    GetEnvInt(env, p, KEY_REQUEST_TIMEOUT, DEFAULT_REQUEST_TIMEOUT_SECONDS)
  }

  /** The configuration `Load` builds, given the request timeout it stores. */
  function AssembleWith(env: Env, p: Parsers, requestTimeout: Int64): (c: Config)
    ensures c.shutdownTimeout == SHUTDOWN_TIMEOUT && c.requestTimeout == requestTimeout
    ensures c.grpcAddress != "" && c.httpAddress != ""
  {
    Config(
      GetEnv(env, KEY_GRPC_ADDRESS, DEFAULT_GRPC_ADDRESS),
      GetEnv(env, KEY_HTTP_ADDRESS, DEFAULT_HTTP_ADDRESS),
      GetEnv(env, KEY_NEO4J_URI, DEFAULT_NEO4J_URI),
      GetEnv(env, KEY_NEO4J_USER, DEFAULT_NEO4J_USER),
      GetEnv(env, KEY_NEO4J_PASSWORD, ""),
      GetEnv(env, KEY_TEMPLATE_PATH, DEFAULT_TEMPLATE_PATH),
      GetEnv(env, KEY_LOG_LEVEL, DEFAULT_LOG_LEVEL),
      GetEnvBool(env, p, KEY_ENABLE_METRICS, true),
      GetEnvBool(env, p, KEY_ENABLE_TRACING, false),
      GetEnv(env, KEY_TRACING_ENDPOINT, DEFAULT_TRACING_ENDPOINT),
      GetEnvInt(env, p, KEY_MAX_CONCURRENT, DEFAULT_MAX_CONCURRENT),
      requestTimeout,
      SHUTDOWN_TIMEOUT)
  }

  /**
   * `Load` as written: `time.Duration(n) * time.Second` is a 64-bit multiplication,
   * so the stored timeout is the product wrapped around.
   */
  function LoadAsWritten(env: Env, p: Parsers): (r: Result<Config, LoadError>)
    ensures var c := AssembleWith(env, p, Wrap64(RequestTimeoutSeconds(env, p) * SECOND));
      && (r.Err? <==> Validate(c).Some?)
      && (r.Err? ==> r.error == ValidationFailed(Validate(c).value))
      && (r.Ok? ==> r.value == c)
  {
    var c := AssembleWith(env, p, Wrap64(RequestTimeoutSeconds(env, p) * SECOND));
    match Validate(c)
    case Some(e) => Err(ValidationFailed(e))
    case None => Ok(c)
  }

  /**
   * A negative timeout of ten billion seconds wraps to a positive duration and is
   * accepted by `Load` as written, while the corrected `Load` refuses it.
   */
  lemma NegativeTimeoutAcceptedAsWritten(p: Parsers)
    requires p.atoi("-10000000000") == Some(-10_000_000_000)
    ensures var env := map[KEY_REQUEST_TIMEOUT := "-10000000000"];
      && LoadAsWritten(env, p).Ok?
      && LoadAsWritten(env, p).value.requestTimeout == 8_446_744_073_709_551_616
      && Load(env, p).Err?
  {
    var env := map[KEY_REQUEST_TIMEOUT := "-10000000000"];
    assert Getenv(env, KEY_REQUEST_TIMEOUT) == "-10000000000";
    assert KEY_GRPC_ADDRESS !in env && KEY_HTTP_ADDRESS !in env && KEY_LOG_LEVEL !in env;
    assert KEY_MAX_CONCURRENT !in env;
    assert Wrap64(-10_000_000_000 * SECOND) == 8_446_744_073_709_551_616;
  }

  /** The timeout a corrected `Load` stores: the exact product, with no wrap-around. */
  function RequestTimeout(env: Env, p: Parsers): (d: int)
    ensures d > 0 <==> RequestTimeoutSeconds(env, p) > 0
  {
    RequestTimeoutSeconds(env, p) * SECOND
  }

  predicate FitsInt64(x: int) { -TWO_TO_63 <= x < TWO_TO_63 }

  /**
   * `Load` with the intended timeout semantics: the duration is the exact product,
   * and a seconds count whose duration does not fit in 64 bits is refused.
   */
  function Load(env: Env, p: Parsers): (r: Result<Config, LoadError>)
    ensures RequestTimeoutSeconds(env, p) <= 0 ==> r.Err?
    ensures FitsInt64(RequestTimeout(env, p)) ==>
              var c := AssembleWith(env, p, RequestTimeout(env, p));
              && (r.Err? <==> Validate(c).Some?)
              && (r.Err? ==> r.error == ValidationFailed(Validate(c).value))
              && (r.Ok? ==> r.value == c)
    ensures !FitsInt64(RequestTimeout(env, p)) ==> r == Err(TimeoutOutOfRange(RequestTimeoutSeconds(env, p)))
    ensures r.Ok? ==> r.value.requestTimeout == RequestTimeoutSeconds(env, p) * SECOND
  {
    var d := RequestTimeout(env, p);
    if FitsInt64(d) then
      var c := AssembleWith(env, p, d);
      match Validate(c)
      case Some(e) => Err(ValidationFailed(e))
      case None => Ok(c)
    else
      Err(TimeoutOutOfRange(RequestTimeoutSeconds(env, p)))
  }

  /** For every timeout that fits, the corrected `Load` and `Load` as written agree. */
  lemma LoadAgreesWhenNoOverflow(env: Env, p: Parsers)
    requires FitsInt64(RequestTimeoutSeconds(env, p) * SECOND)
    ensures Load(env, p) == LoadAsWritten(env, p)
  {
  }

  /** No configured variable starts with "OSE_". */
  predicate NoOseVariables(env: Env)
  {
    forall k :: k in env ==> |k| < |OSE_PREFIX| || k[..|OSE_PREFIX|] != OSE_PREFIX
  }

  const DEFAULT_CONFIG := Config(
    DEFAULT_GRPC_ADDRESS, DEFAULT_HTTP_ADDRESS, DEFAULT_NEO4J_URI, DEFAULT_NEO4J_USER, "",
    DEFAULT_TEMPLATE_PATH, DEFAULT_LOG_LEVEL, true, false, DEFAULT_TRACING_ENDPOINT,
    DEFAULT_MAX_CONCURRENT, DEFAULT_REQUEST_TIMEOUT_SECONDS * SECOND, SHUTDOWN_TIMEOUT)

  lemma OseVariableUnset(env: Env, name: string)
    requires NoOseVariables(env)
    ensures Getenv(env, OSE_PREFIX + name) == ""
  {
    assert (OSE_PREFIX + name)[..|OSE_PREFIX|] == OSE_PREFIX;
  }

  /** With no OSE_ variables every lookup falls back to its default. */
  lemma DefaultsAssemble(env: Env, p: Parsers)
    requires NoOseVariables(env)
    ensures RequestTimeoutSeconds(env, p) == DEFAULT_REQUEST_TIMEOUT_SECONDS
    ensures AssembleWith(env, p, DEFAULT_REQUEST_TIMEOUT_SECONDS * SECOND) == DEFAULT_CONFIG
  {
    OseVariableUnset(env, "GRPC_ADDRESS");
    OseVariableUnset(env, "HTTP_ADDRESS");
    OseVariableUnset(env, "NEO4J_URI");
    OseVariableUnset(env, "NEO4J_USER");
    OseVariableUnset(env, "NEO4J_PASSWORD");
    OseVariableUnset(env, "TEMPLATE_PATH");
    OseVariableUnset(env, "LOG_LEVEL");
    OseVariableUnset(env, "ENABLE_METRICS");
    OseVariableUnset(env, "ENABLE_TRACING");
    OseVariableUnset(env, "TRACING_ENDPOINT");
    OseVariableUnset(env, "MAX_CONCURRENT");
    OseVariableUnset(env, "REQUEST_TIMEOUT");
  }

  /** With no OSE_ variables the service starts on ":50051" and ":8080", at level "info", 100 requests and 30s. */
  lemma DefaultsLoad(env: Env, p: Parsers)
    requires NoOseVariables(env)
    ensures Load(env, p) == Ok(DEFAULT_CONFIG)
    ensures LoadAsWritten(env, p) == Ok(DEFAULT_CONFIG)
  {
    DefaultsAssemble(env, p);
    assert DEFAULT_LOG_LEVEL in VALID_LOG_LEVELS;
    assert Validate(DEFAULT_CONFIG).None?;
  }

  /** Every loaded configuration satisfies `Validate` and has the fixed 30-second shutdown timeout. */
  lemma LoadedConfigIsValid(env: Env, p: Parsers)
    ensures LoadAsWritten(env, p).Ok? ==>
              Validate(LoadAsWritten(env, p).value).None? && LoadAsWritten(env, p).value.shutdownTimeout == 30 * SECOND
    ensures Load(env, p).Ok? ==>
              Validate(Load(env, p).value).None? && Load(env, p).value.shutdownTimeout == 30 * SECOND
              && Load(env, p).value.requestTimeout > 0
  {
  }
}
