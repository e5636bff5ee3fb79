/**
 * Start-up configuration: `Config::new` overlays the process environment on the
 * values clap parsed from the command line (or its defaults). The environment is a
 * map from variable names to values; clap's result is an input record.
 */
module Configuration {
  import opened Basics
  import opened IntText
  import HandleErrors

  type Env = map<string, string>

  datatype Config = Config(
    logLevel: string,
    port: U16,
    dbUser: string,
    dbPassword: string,
    dbHost: string,
    dbPort: U16,
    dbName: string)

  /** What clap yields when no argument is given: the `default_value` of every field. */
  function CliDefaults(): Config {
    Config("warn", 8080, "omid", "password", "localhost", 5432, "rustwebdev")
  }

  /** `Config::new` either returns a configuration, returns an error, or panics. */
  datatype ConfigOutcome = Loaded(config: Config) | Failed(error: HandleErrors.Error) | Panicked(message: string)

  const API_KEY_PANIC: string := "BadWords API key not set."
  const PASETO_KEY_PANIC: string := "Paseto key not set."
  /** What `env::var(..).unwrap()` panics with when the variable is absent. */
  const NOT_PRESENT_PANIC: string := "called `Result::unwrap()` on an `Err` value: NotPresent"

  /** `env::var(name).unwrap_or(fallback)`. */
  function VarOr(env: Env, name: string, fallback: string): string {
    if name in env then env[name] else fallback
  }

  /** `Config::new`, step by step in the order the source evaluates it. */
  function NewConfig(env: Env, cli: Config): (r: ConfigOutcome)
    ensures r.Panicked? <==>
              "BAD_WORDS_API_KEY" !in env || "PASETO_KEY" !in env ||
              (("PORT" !in env || ParseU16(env["PORT"]).Ok?) && "POSTGRES_PASSWORD" !in env)
    ensures r.Failed? ==> r.error.ParseError?
    ensures r.Loaded? ==> "POSTGRES_PASSWORD" in env && r.config.dbPassword == env["POSTGRES_PASSWORD"]
    ensures r.Loaded? ==> r.config.logLevel == cli.logLevel
  {
    if "BAD_WORDS_API_KEY" !in env then Panicked(API_KEY_PANIC)
    else if "PASETO_KEY" !in env then Panicked(PASETO_KEY_PANIC)
    else
      var port := if "PORT" in env then ParseU16(env["PORT"]) else Ok(8080);
      if port.Err? then Failed(HandleErrors.ParseError(port.error))
      else
        var dbUser := VarOr(env, "POSTGRES_USER", cli.dbUser);
        if "POSTGRES_PASSWORD" !in env then Panicked(NOT_PRESENT_PANIC)
        else
          var dbPassword := env["POSTGRES_PASSWORD"];
          var dbHost := VarOr(env, "POSTGRES_HOST", cli.dbHost);
          var dbPortText := VarOr(env, "POSTGRES_PORT", NatText(cli.dbPort));
          var dbName := VarOr(env, "POSTGRES_DB", cli.dbName);
          match ParseU16(dbPortText)
          case Err(kind) => Failed(HandleErrors.ParseError(kind))
          case Ok(dbPort) => Loaded(Config(cli.logLevel, port.value, dbUser, dbPassword, dbHost, dbPort, dbName))
  }

  /** The moderation key is checked first: without it nothing else is read. */
  lemma MissingApiKeyPanicsFirst(env: Env, cli: Config)
    requires "BAD_WORDS_API_KEY" !in env
    ensures NewConfig(env, cli) == Panicked(API_KEY_PANIC)
  {
  }

  /** The token key is checked second. */
  lemma MissingPasetoKeyPanics(env: Env, cli: Config)
    requires "BAD_WORDS_API_KEY" in env && "PASETO_KEY" !in env
    ensures NewConfig(env, cli) == Panicked(PASETO_KEY_PANIC)
  {
  }

  /** Both keys are present and every value read is well formed. */
  ghost predicate Complete(env: Env) {
    && "BAD_WORDS_API_KEY" in env && "PASETO_KEY" in env && "POSTGRES_PASSWORD" in env
    && ("PORT" in env ==> IsLiteral(env["PORT"], false, 0, U16_MAX))
    && ("POSTGRES_PORT" in env ==> IsLiteral(env["POSTGRES_PORT"], false, 0, U16_MAX))
  }

  /**
   * With a complete environment the configuration loads; every field comes from the
   * environment when set there and from the command line otherwise, except the listening
   * port, whose fallback is 8080 whatever the command line says, and the password, which
   * only the environment supplies. An unset POSTGRES_PORT gives back the command line's
   * port through its `to_string` and `parse`.
   */
  lemma {:induction false} CompleteEnvLoads(env: Env, cli: Config)
    requires Complete(env)
    ensures NewConfig(env, cli).Loaded?
    ensures var c := NewConfig(env, cli).config;
            && c.logLevel == cli.logLevel
            && c.port == (if "PORT" in env then LiteralValue(env["PORT"], false) else 8080)
            && c.dbUser == VarOr(env, "POSTGRES_USER", cli.dbUser)
            && c.dbPassword == env["POSTGRES_PASSWORD"]
            && c.dbHost == VarOr(env, "POSTGRES_HOST", cli.dbHost)
            && c.dbPort == (if "POSTGRES_PORT" in env then LiteralValue(env["POSTGRES_PORT"], false) else cli.dbPort)
            && c.dbName == VarOr(env, "POSTGRES_DB", cli.dbName)
  {
    U16TextRoundTrip(cli.dbPort);
  }

  /** A PORT that is not a u16 literal fails with a parse error, before the password is even looked up. */
  lemma InvalidPortFails(env: Env, cli: Config)
    requires "BAD_WORDS_API_KEY" in env && "PASETO_KEY" in env
    requires "PORT" in env && !IsLiteral(env["PORT"], false, 0, U16_MAX)
    ensures NewConfig(env, cli).Failed?
    ensures NewConfig(env, cli).error == HandleErrors.ParseError(ParseU16(env["PORT"]).error)
    ensures env["PORT"] == "" ==> NewConfig(env, cli).error == HandleErrors.ParseError(Empty)
  {
  }

  /** The password is only ever read from the environment: the command line's value has no effect. */
  lemma CliPasswordUnused(env: Env, cli: Config, password: string)
    ensures NewConfig(env, cli) == NewConfig(env, cli.(dbPassword := password))
  {
  }

  /** A POSTGRES_PORT that is not a u16 literal fails with a parse error, once the password is there. */
  lemma InvalidDbPortFails(env: Env, cli: Config)
    requires "BAD_WORDS_API_KEY" in env && "PASETO_KEY" in env && "POSTGRES_PASSWORD" in env
    requires "PORT" !in env || IsLiteral(env["PORT"], false, 0, U16_MAX)
    requires "POSTGRES_PORT" in env && !IsLiteral(env["POSTGRES_PORT"], false, 0, U16_MAX)
    ensures NewConfig(env, cli) == Failed(HandleErrors.ParseError(ParseU16(env["POSTGRES_PORT"]).error))
  {
  }

  /**
   * With only the two keys and the password set, the configuration is the command line's
   * defaults with the environment's password: the default listening port 8080 and the
   * fallback for an unset PORT coincide.
   */
  lemma {:induction false} MinimalEnvLoadsDefaults(apiKey: string, pasetoKey: string, password: string)
    ensures var env := map["BAD_WORDS_API_KEY" := apiKey, "PASETO_KEY" := pasetoKey, "POSTGRES_PASSWORD" := password];
            NewConfig(env, CliDefaults()) == Loaded(CliDefaults().(dbPassword := password))
  {
    U16TextRoundTrip(CliDefaults().dbPort);
  }

  /** The environment the configuration test sets up (PASETO_KEY stays commented out there). */
  function TestEnv(): Env {
    map["BAD_WORDS_API_KEY" := "yes",
        "POSTGRES_USER" := "user",
        "POSTGRES_PASSWORD" := "pass",
        "POSTGRES_HOST" := "localhost",
        "POSTGRES_PORT" := "5432",
        "POSTGRES_DB" := "rustwebdev"]
  }

  /** The record the configuration test expects. */
  function TestExpected(): Config {
    Config("warn", 8080, "user", "pass", "localhost", 5432, "rustwebdev")
  }

  /** Before the test sets anything, loading panics; with the test's own environment it still panics. */
  lemma TestEnvPanics()
    ensures NewConfig(map[], CliDefaults()).Panicked?
    ensures NewConfig(TestEnv(), CliDefaults()) == Panicked(PASETO_KEY_PANIC)
  {
  }

  /** Once PASETO_KEY is also set, the test's environment yields the record it expects. */
  lemma TestEnvWithPasetoKeyLoads()
    ensures NewConfig(TestEnv()["PASETO_KEY" := "yes"], CliDefaults()) == Loaded(TestExpected())
  {
    DefaultDbPortText();
  }

  /** The text of the default database port, and its parse. */
  lemma DefaultDbPortText()
    ensures NatText(5432) == "5432" && ParseU16("5432") == Ok(5432)
  {
    NatTextStep(5, 4);
    NatTextStep(54, 3);
    NatTextStep(543, 2);
    U16TextRoundTrip(5432);
  }


}
