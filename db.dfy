/*
 * The connection provider: which URL, user and password a connection is
 * opened with, read from the process environment, and whether it opens.
 */
module Db {
  import opened JavaLang

  const DbUrlEnv: string := "DB_URL"
  const DbUserEnv: string := "DB_USER"
  const DbPasswordEnv: string := "DB_PASSWORD"

  const DbPasswordRequired: string := "DB_PASSWORD environment variable is required"

  /** The process environment, as `System.getenv` sees it. */
  type Environment = map<string, string>

  /** The hard-coded fallbacks for the URL and the user (the literals are kept out of the model). */
  datatype Defaults = Defaults(url: string, user: string)

  /** The arguments handed to the driver; a successful connection is identified with them. */
  datatype Settings = Settings(url: string, user: string, password: string)

  /** The JDBC driver's answer to a connection attempt: `None` when it opens, else the exception's message. */
  type Driver = Settings -> Option<string>

  /** `System.getenv(name)`: `null` for an unset variable. */
  function GetEnv(env: Environment, name: string): Option<string> {
    if name in env then Some(env[name]) else None
  }

  /** `value == null || value.isEmpty()` */
  predicate NullOrEmpty(value: Option<string>) {
    value.None? || value.value == ""
  }

  /**
   * The settings `getConnection` would hand to the driver: URL and user fall
   * back to the defaults when unset or empty, the password never does.
   */
  function ResolveSettings(env: Environment, defaults: Defaults): (r: Result<Settings>)
    ensures r.Failure? <==> DbPasswordEnv !in env || env[DbPasswordEnv] == ""
    ensures r.Failure? ==> r.error == DbPasswordRequired
    ensures r.Success? ==> r.value.password == env[DbPasswordEnv] && r.value.password != ""
    ensures r.Success? && DbUrlEnv in env && env[DbUrlEnv] != "" ==> r.value.url == env[DbUrlEnv]
    ensures r.Success? && (DbUrlEnv !in env || env[DbUrlEnv] == "") ==> r.value.url == defaults.url
    ensures r.Success? && DbUserEnv in env && env[DbUserEnv] != "" ==> r.value.user == env[DbUserEnv]
    ensures r.Success? && (DbUserEnv !in env || env[DbUserEnv] == "") ==> r.value.user == defaults.user
  {
    var url := GetEnv(env, DbUrlEnv);
    var user := GetEnv(env, DbUserEnv);
    var password := GetEnv(env, DbPasswordEnv);
    var url' := if NullOrEmpty(url) then defaults.url else url.value;
    var user' := if NullOrEmpty(user) then defaults.user else user.value;
    if NullOrEmpty(password) then Failure(DbPasswordRequired)
    else Success(Settings(url', user', password.value))
  }

  /**
   * `Db.getConnection()`: the password check comes before any attempt to
   * connect, and a driver failure is rethrown with its own message.
   */
  function GetConnection(env: Environment, defaults: Defaults, driver: Driver): (r: Result<Settings>)
    ensures ResolveSettings(env, defaults).Failure? ==> r == Failure(DbPasswordRequired)
    ensures ResolveSettings(env, defaults).Success? ==>
              var s := ResolveSettings(env, defaults).value;
              r == if driver(s).None? then Success(s) else Failure(driver(s).value)
  {
    match ResolveSettings(env, defaults)
    case Failure(e) => Failure(e)
    case Success(s) =>
      match driver(s)
      case None => Success(s)
      case Some(e) => Failure(e)
  }

  /** `Db.testConnection()`: the exception is swallowed and reported as `false`. */
  function TestConnection(env: Environment, defaults: Defaults, driver: Driver): (r: bool)
    ensures r ==> DbPasswordEnv in env && env[DbPasswordEnv] != ""
    ensures !r && ResolveSettings(env, defaults).Success? ==> driver(ResolveSettings(env, defaults).value).Some?
  {
    match GetConnection(env, defaults, driver)
    case Success(_) => true
    case Failure(_) => false
  }

  /**
   * The connection test succeeds exactly when a non-empty password is set and
   * the driver accepts the resolved settings; no driver can make it succeed
   * without a password.
   */
  lemma TestConnectionIff(env: Environment, defaults: Defaults, driver: Driver)
    ensures TestConnection(env, defaults, driver) <==>
              DbPasswordEnv in env && env[DbPasswordEnv] != ""
              && driver(ResolveSettings(env, defaults).value).None?
  {
  }

  /**
   * The password is checked with `isEmpty`, not `trim`: any non-empty blank
   * password (spaces, tabs, control characters) is accepted as given.
   */
  lemma BlankPasswordAccepted(env: Environment, defaults: Defaults)
    requires DbPasswordEnv in env && env[DbPasswordEnv] != "" && IsBlank(env[DbPasswordEnv])
    ensures ResolveSettings(env, defaults).Success?
    ensures ResolveSettings(env, defaults).value.password == env[DbPasswordEnv]
  {
  }
}
