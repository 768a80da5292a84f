/** The configuration gate of study17/src/main/resources/parser.go: a
    decoded `Config` is checked for a server host, a server port in
    1..65535 and a database URL, in that order, and `ParseConfig` hands the
    decoded configuration back only when that check passes. Decoding the
    JSON text itself is not part of this model; its outcome is the input. */
module ConfigParser {
  import opened Wrappers

  datatype ServerConfig = ServerConfig(host: string, port: int)
  datatype DatabaseConfig = DatabaseConfig(url: string, username: string, password: string)
  datatype FeatureFlags = FeatureFlags(enableCache: bool, debugMode: bool)
  datatype Config = Config(server: ServerConfig, database: DatabaseConfig, features: FeatureFlags)

  const MaxPort: int := 65535

  /** The check `validateConfig` failed, and with what. */
  datatype ConfigError = EmptyHost | InvalidPort(port: int) | EmptyDatabaseURL

  /** Why `ParseConfig` returned no configuration. */
  datatype ParseError = DecodeFailed(reason: string) | ValidationFailed(cause: ConfigError)

  /** `validateConfig`: the first of the three checks the configuration
      fails, or none; the credentials and the feature flags are never
      examined. */
  function ValidateConfig(c: Config): (e: Option<ConfigError>)
    ensures e.None? <==> c.server.host != "" && 0 < c.server.port <= MaxPort && c.database.url != ""
    ensures e == Some(EmptyHost) <==> c.server.host == ""
    ensures e.Some? && e.value.InvalidPort? <==>
      c.server.host != "" && !(0 < c.server.port <= MaxPort)
    ensures e.Some? && e.value.InvalidPort? ==> e.value.port == c.server.port
    ensures e == Some(EmptyDatabaseURL) <==>
      c.server.host != "" && 0 < c.server.port <= MaxPort && c.database.url == ""
  {
    if c.server.host == "" then Some(EmptyHost)
    else if c.server.port <= 0 || c.server.port > MaxPort then Some(InvalidPort(c.server.port))
    else if c.database.url == "" then Some(EmptyDatabaseURL)
    else None
  }

  /** Two configurations with the same host, port and URL are judged alike,
      whatever their credentials and feature flags. */
  lemma ValidationIgnoresCredentialsAndFeatures(a: Config, b: Config)
    requires a.server == b.server && a.database.url == b.database.url
    ensures ValidateConfig(a) == ValidateConfig(b)
  {
  }

  /** `ParseConfig` after decoding: a decoding failure is passed on, a
      decoded configuration that fails validation yields no configuration,
      and one that passes is returned unchanged. */
  function ParseConfig(decoded: Result<Config, string>): (r: Result<Config, ParseError>)
    ensures r.Ok? <==> decoded.Ok? && ValidateConfig(decoded.value).None?
    ensures r.Ok? ==> r.value == decoded.value
    ensures decoded.Err? ==> r == Err(DecodeFailed(decoded.error))
    ensures decoded.Ok? && r.Err? ==> r == Err(ValidationFailed(ValidateConfig(decoded.value).value))
  {
    match decoded
    case Err(reason) => Err(DecodeFailed(reason))
    case Ok(config) =>
      match ValidateConfig(config)
      case Some(cause) => Err(ValidationFailed(cause))
      case None => Ok(config)
  }

  /** Whatever `ParseConfig` returns is itself valid, so feeding it back
      through the gate returns it again. */
  lemma ParsedConfigIsStable(decoded: Result<Config, string>)
    requires ParseConfig(decoded).Ok?
    ensures ParseConfig(Ok(ParseConfig(decoded).value)) == ParseConfig(decoded)
    ensures ParseConfig(decoded).value.server.host != ""
    ensures 1 <= ParseConfig(decoded).value.server.port <= MaxPort
  {
  }

  /** The configuration `json.Unmarshal` leaves when the document names no
      field at all: every field keeps Go's zero value. */
  const ZeroConfig: Config :=
    Config(ServerConfig("", 0), DatabaseConfig("", "", ""), FeatureFlags(false, false))

  /** The configuration of the program's own usage example. */
  const ExampleConfig: Config :=
    Config(ServerConfig("localhost", 8080),
           DatabaseConfig("postgres://localhost:5432/mydb", "admin", "secret"),
           FeatureFlags(true, false))

  /** A document that sets nothing is refused for its empty host, the first
      check; the usage example passes the gate unchanged. */
  lemma GateOnSampleDocuments()
    ensures ParseConfig(Ok(ZeroConfig)) == Err(ValidationFailed(EmptyHost))
    ensures ParseConfig(Ok(ExampleConfig)) == Ok(ExampleConfig)
  {
  }
}
