/** The settings record and its programmatic defaults (the values used when no
    environment variable, dotenv entry or settings file supplies one). */
module Config {
  import opened Wrappers
  import opened Text

  datatype Environment = Development | Production

  datatype LoggingLevel = Debug | Info | Warning | Error

  /** The `StrEnum` value of a logging level. */
  function LevelValue(l: LoggingLevel): string {
    match l
    case Debug => "debug"
    case Info => "info"
    case Warning => "warning"
    case Error => "error"
  }

  datatype Logging = Logging(level: LoggingLevel)

  /** Connection settings. `password` is held as the UTF-8 bytes that `quote` encodes. */
  datatype DatabaseSettings = DatabaseSettings(
    url: Option<string>,
    kind: string,
    adapter: string,
    username: string,
    password: seq<byte>,
    host: string,
    port: int,
    name: string)

  datatype BaseConfig = BaseConfig(
    service: string,
    host: string,
    port: int,
    environment: Environment,
    logging: Logging,
    database: DatabaseSettings)

  function DefaultLogging(): Logging {
    Logging(Info)
  }

  function DefaultDatabase(): DatabaseSettings {
    DatabaseSettings(
      None, "postgresql", "psycopg", "username", AsciiBytes("password"),
      "localhost", 5432, "database")
  }

  /** The defaults; `service` has none and must always be supplied. */
  function DefaultConfig(service: string): BaseConfig {
    BaseConfig(service, "0.0.0.0", 8080, Development, DefaultLogging(), DefaultDatabase())
  }
}
