/** The configuration singleton loader: twelve settings resolved once per
    process from the environment (after an optional env file), with fixed
    defaults, exposed through read-only getters. */
module Config {
  import opened Wrappers
  import Text

  /** The process environment: variable name to value. */
  type Env = map<string, string>

  /** Resolves `key`; a variable that is present but empty counts as absent. */
  function GetEnv(env: Env, key: string, default: string): (r: string)
    ensures key in env && env[key] != "" ==> r == env[key]
    ensures key !in env || env[key] == "" ==> r == default
    ensures default != "" ==> r != ""
  {
    if key in env && env[key] != "" then env[key] else default
  }

  /** The twelve settings, in the order the loader resolves them. */
  datatype Setting =
    | ServerEnv | ServerName | ServerHost | ServerPort | ServerBaseApiPrefix
    | DbHost | DbPort | DbUser | DbPassword | DbName | DbSslMode | DbTimezone

  /** The environment variable each setting is read from. */
  function Key(s: Setting): string
  {
    match s
    case ServerEnv => "SERVER_ENV"
    case ServerName => "SERVER_NAME"
    case ServerHost => "SERVER_HOST"
    case ServerPort => "SERVER_PORT"
    case ServerBaseApiPrefix => "SERVER_BASEAPIPREFIX"
    case DbHost => "DB_HOST"
    case DbPort => "DB_PORT"
    case DbUser => "DB_USER"
    case DbPassword => "DB_PASSWORD"
    case DbName => "DB_NAME"
    case DbSslMode => "DB_SSLMODE"
    case DbTimezone => "DB_TIMEZONE"
  }

  /** The value each setting takes when its variable is unset or empty. */
  function Default(s: Setting): string
  {
    match s
    case ServerEnv => "development"
    case ServerName => "MyApp"
    case ServerHost => "0.0.0.0"
    case ServerPort => "8080"
    case ServerBaseApiPrefix => "/api/v1"
    case DbHost => "localhost"
    case DbPort => "5432"
    case DbUser => "postgres"
    case DbPassword => "1234"
    case DbName => "mydatabase"
    case DbSslMode => "disable"
    case DbTimezone => "Asia/Bangkok"
  }

  /** One setting resolved against the environment. */
  function Lookup(env: Env, s: Setting): string
  {
    GetEnv(env, Key(s), Default(s))
  }

  datatype ServerConfig = ServerConfig(env: string, name: string, host: string, port: string, baseApiPrefix: string)

  datatype DatabaseConfig = DatabaseConfig(
    host: string, port: string, user: string, password: string,
    name: string, sslMode: string, timezone: string)

  function ResolveServer(env: Env): ServerConfig
  {
    ServerConfig(Lookup(env, ServerEnv), Lookup(env, ServerName), Lookup(env, ServerHost),
                 Lookup(env, ServerPort), Lookup(env, ServerBaseApiPrefix))
  }

  /** The database settings; the resolved user is never empty, because its
      default is not. */
  function ResolveDatabase(env: Env): (d: DatabaseConfig)
    ensures d.user != ""
    ensures d.user == "postgres" <==> (Key(DbUser) !in env || env[Key(DbUser)] in {"", "postgres"})
  {
    DatabaseConfig(Lookup(env, DbHost), Lookup(env, DbPort), Lookup(env, DbUser), Lookup(env, DbPassword),
                   Lookup(env, DbName), Lookup(env, DbSslMode), Lookup(env, DbTimezone))
  }

  /** The validation step of the loader: an empty database user is refused. */
  const EmptyUserError := "DB_USER cannot be empty"
  /** What a call reports when no configuration was ever stored. */
  const NotLoadedError := "configuration was not loaded"

  /** The loaded configuration. Its fields are constants: nothing can write
      them after construction, so the getters below are its whole interface. */
  class AppEnvConfig {
    const serverCfg: ServerConfig
    const dbCfg: DatabaseConfig

    constructor (serverCfg: ServerConfig, dbCfg: DatabaseConfig)
      ensures this.serverCfg == serverCfg && this.dbCfg == dbCfg
    {
      this.serverCfg := serverCfg;
      this.dbCfg := dbCfg;
    }

    function GetServerEnv(): string { serverCfg.env }
    function GetServerName(): string { serverCfg.name }
    function GetServerHost(): string { serverCfg.host }
    function GetServerPort(): string { serverCfg.port }
    function GetServerBaseApiPrefix(): string { serverCfg.baseApiPrefix }
    function GetDBHost(): string { dbCfg.host }
    function GetDBPort(): string { dbCfg.port }
    function GetDBUser(): string { dbCfg.user }
    function GetDBPassword(): string { dbCfg.password }
    function GetDBName(): string { dbCfg.name }
    function GetDBSSLMode(): string { dbCfg.sslMode }
    function GetDBTimezone(): string { dbCfg.timezone }

    /** The getter that serves setting `s`. */
    function Get(s: Setting): string
    {
      match s
      case ServerEnv => GetServerEnv()
      case ServerName => GetServerName()
      case ServerHost => GetServerHost()
      case ServerPort => GetServerPort()
      case ServerBaseApiPrefix => GetServerBaseApiPrefix()
      case DbHost => GetDBHost()
      case DbPort => GetDBPort()
      case DbUser => GetDBUser()
      case DbPassword => GetDBPassword()
      case DbName => GetDBName()
      case DbSslMode => GetDBSSLMode()
      case DbTimezone => GetDBTimezone()
    }

    /** The connection descriptor handed to the database layer. */
    function GetDBDSN(): string
    {
      "host=" + dbCfg.host + " port=" + dbCfg.port + " user=" + dbCfg.user +
      " password=" + dbCfg.password + " dbname=" + dbCfg.name +
      " sslmode=" + dbCfg.sslMode + " TimeZone=" + dbCfg.timezone
    }
  }

  /** The environment the settings are resolved against. When a non-empty
      path is given and the env file loads, its variables (`dotenv`) are added
      to the process environment, but a variable the process already has,
      even an empty one, is not overridden. A failed load only logs and
      leaves the process environment as it was. */
  function ResolutionEnv(envFilePath: seq<string>, env: Env, dotenv: Option<Env>): (r: Env)
    ensures dotenv.None? ==> r == env
    ensures |envFilePath| == 0 || envFilePath[0] == "" ==> r == env
    ensures r.Keys >= env.Keys && forall k :: k in env ==> r[k] == env[k]
    ensures forall k :: k in r && k !in env ==> dotenv.Some? && k in dotenv.value && r[k] == dotenv.value[k]
    ensures |envFilePath| > 0 && envFilePath[0] != "" && dotenv.Some? ==>
              forall k :: k in dotenv.value && k !in env ==> k in r && r[k] == dotenv.value[k]
  {
    if |envFilePath| > 0 && envFilePath[0] != "" && dotenv.Some? then dotenv.value + env else env
  }

  /** A variable set to "" in the process hides the env file's value for it,
      and then counts as unset: the default applies. */
  lemma ProcessEmptyShadowsFile(fileVars: Env, env: Env)
    requires Key(DbUser) in env && env[Key(DbUser)] == ""
    ensures ResolveDatabase(ResolutionEnv([".env"], env, Some(fileVars))).user == Default(DbUser)
  {
  }

  /** The package-level state behind LoadConfig: `done` is the once-guard,
      `loadedConfig` the package variable it fills. */
  class ConfigLoader {
    var done: bool
    var loadedConfig: AppEnvConfig?

    constructor ()
      ensures !done && loadedConfig == null
    {
      done := false;
      loadedConfig := null;
    }

    /** Runs the load body on the first call only; every call reports what
        the package variable holds afterwards. */
    method LoadConfig(envFilePath: seq<string>, env: Env, dotenv: Option<Env>)
      returns (r: Result<AppEnvConfig, string>)
      modifies this
      ensures done
      ensures old(done) ==> loadedConfig == old(loadedConfig)
      ensures !old(done) ==> loadedConfig != null && fresh(loadedConfig)
      ensures !old(done) ==> loadedConfig.serverCfg == ResolveServer(ResolutionEnv(envFilePath, env, dotenv))
      ensures !old(done) ==> loadedConfig.dbCfg == ResolveDatabase(ResolutionEnv(envFilePath, env, dotenv))
      ensures r == if loadedConfig != null then Ok(loadedConfig) else Err(NotLoadedError)
    {
      var loadErr: Option<string> := None;
      if !done {
        done := true;
        var resolveEnv := env;
        if |envFilePath| > 0 && envFilePath[0] != "" {
          match dotenv {
            case Some(fileVars) => resolveEnv := fileVars + env;
            case None =>  // not found or unreadable: proceed with the process environment
          }
        }
        var serverCfg := ResolveServer(resolveEnv);
        var dbCfg := ResolveDatabase(resolveEnv);
        if dbCfg.user == "" {
          loadErr := Some(EmptyUserError);
        } else {
          loadedConfig := new AppEnvConfig(serverCfg, dbCfg);
        }
      }
      match loadErr {
        case Some(e) => r := Err(e);
        case None =>
          if loadedConfig == null {
            r := Err(NotLoadedError);
          } else {
            r := Ok(loadedConfig);
          }
      }
    }
  }

  /** For every setting: an unset or empty variable yields the default, a
      non-empty one overrides it. */
  lemma DefaultApplication(env: Env, s: Setting, v: string)
    ensures Lookup(env - {Key(s)}, s) == Default(s)
    ensures Lookup(env[Key(s) := ""], s) == Default(s)
    ensures v != "" ==> Lookup(env[Key(s) := v], s) == v
  {
  }

  /** Every default is non-empty, so no resolved setting is ever empty. */
  lemma LookupNeverEmpty(env: Env, s: Setting)
    ensures Lookup(env, s) != ""
  {
  }

  /** The twelve settings read twelve different variables. */
  lemma KeysDistinct(s: Setting, t: Setting)
    requires s != t
    ensures Key(s) != Key(t)
  {
  }

  /** Changing a variable affects only the setting read from it. */
  lemma LookupLocal(env: Env, s: Setting, k: string, v: string)
    requires k != Key(s)
    ensures Lookup(env[k := v], s) == Lookup(env, s)
  {
  }

  /** A configuration built from `env` serves, through its getters, exactly
      the resolved value of each setting. */
  lemma GettersServeResolved(c: AppEnvConfig, env: Env, s: Setting)
    requires c.serverCfg == ResolveServer(env) && c.dbCfg == ResolveDatabase(env)
    ensures c.Get(s) == Lookup(env, s)
  {
  }

  /** The connection descriptor read as a list of `key=value` pairs. */
  function DsnPairs(d: DatabaseConfig): seq<(string, string)>
  {
    [("host", d.host), ("port", d.port), ("user", d.user), ("password", d.password),
     ("dbname", d.name), ("sslmode", d.sslMode), ("TimeZone", d.timezone)]
  }

  /** Reads a `key=value` word; a word without `=` is a key with no value. */
  function ParseWord(w: string): (string, string)
  {
    if '=' in w then Text.SplitFirst(w, '=') else (w, "")
  }

  /** Reads a descriptor: space-separated `key=value` words. */
  function ParseDsn(dsn: string): seq<(string, string)>
  {
    var words := Text.Split(dsn, ' ');
    seq(|words|, i requires 0 <= i < |words| => ParseWord(words[i]))
  }

  predicate SpaceFree(d: DatabaseConfig)
  {
    ' ' !in d.host && ' ' !in d.port && ' ' !in d.user && ' ' !in d.password &&
    ' ' !in d.name && ' ' !in d.sslMode && ' ' !in d.timezone
  }

  /** The descriptor's words, one `key=value` per pair. */
  function DsnWords(d: DatabaseConfig): (ws: seq<string>)
    ensures |ws| == |DsnPairs(d)|
    ensures forall i :: 0 <= i < |ws| ==> ws[i] == DsnPairs(d)[i].0 + "=" + DsnPairs(d)[i].1
  {
    ["host=" + d.host, "port=" + d.port, "user=" + d.user, "password=" + d.password,
     "dbname=" + d.name, "sslmode=" + d.sslMode, "TimeZone=" + d.timezone]
  }

  /** The descriptor is its words joined by single spaces. */
  lemma DsnIsJoin(c: AppEnvConfig)
    ensures c.GetDBDSN() == Text.Join(DsnWords(c.dbCfg), ' ')
  {
    var d := c.dbCfg;
    var ws := DsnWords(d);
    assert ws[..1] + [ws[1]] == ws[..2];
    Text.JoinSnoc(ws[..1], ws[1], ' ');
    assert ws[..2] + [ws[2]] == ws[..3];
    Text.JoinSnoc(ws[..2], ws[2], ' ');
    assert ws[..3] + [ws[3]] == ws[..4];
    Text.JoinSnoc(ws[..3], ws[3], ' ');
    assert ws[..4] + [ws[4]] == ws[..5];
    Text.JoinSnoc(ws[..4], ws[4], ' ');
    assert ws[..5] + [ws[5]] == ws[..6];
    Text.JoinSnoc(ws[..5], ws[5], ' ');
    assert ws[..6] + [ws[6]] == ws;
    Text.JoinSnoc(ws[..6], ws[6], ' ');
    var p := "host=" + d.host;
    assert Text.Join(ws[..1], ' ') == p;
    Glue(p, " port=", d.port);
    p := p + " port=" + d.port;
    Glue(p, " user=", d.user);
    p := p + " user=" + d.user;
    Glue(p, " password=", d.password);
    p := p + " password=" + d.password;
    Glue(p, " dbname=", d.name);
    p := p + " dbname=" + d.name;
    Glue(p, " sslmode=", d.sslMode);
    p := p + " sslmode=" + d.sslMode;
    Glue(p, " TimeZone=", d.timezone);
    p := p + " TimeZone=" + d.timezone;
  }

  /** One step of the format: a literal that starts with a space, then a value. */
  lemma Glue(prefix: string, lit: string, value: string)
    requires |lit| > 0 && lit[0] == ' '
    ensures prefix + lit + value == prefix + [' '] + (lit[1..] + value)
  {
    assert lit == [' '] + lit[1..];
  }

  /** The descriptor carries the seven database settings in the order host,
      port, user, password, dbname, sslmode, TimeZone: reading it back yields
      them, as long as no value contains a space. */
  lemma {:induction false} DsnRoundTrip(c: AppEnvConfig)
    requires SpaceFree(c.dbCfg)
    ensures ParseDsn(c.GetDBDSN()) == DsnPairs(c.dbCfg)
  {
    var pairs := DsnPairs(c.dbCfg);
    var words := DsnWords(c.dbCfg);
    DsnIsJoin(c);
    forall i | 0 <= i < |words|
      ensures ' ' !in words[i]
    {
    }
    Text.SplitJoin(words, ' ');
    forall i | 0 <= i < |words|
      ensures ParseWord(words[i]) == pairs[i]
    {
      Text.SplitFirstGlue(pairs[i].0, pairs[i].1, '=');
      assert words[i] == pairs[i].0 + ['='] + pairs[i].1;
    }
  }

  /** Values with spaces break that reading: two different database settings
      give the same descriptor. */
  lemma DsnNotInjective()
    ensures var a := DatabaseConfig("h port=1", "2", "u", "p", "n", "disable", "UTC");
            var b := DatabaseConfig("h", "1 port=2", "u", "p", "n", "disable", "UTC");
            a != b &&
            (forall x: AppEnvConfig, y: AppEnvConfig :: x.dbCfg == a && y.dbCfg == b ==> x.GetDBDSN() == y.GetDBDSN())
  {
  }

  /** Two loads through one loader: the first always succeeds, even when the
      env file cannot be read, and the second returns the very same
      configuration whatever its arguments and environment. */
  method LoadTwice(path1: seq<string>, env1: Env, dotenv1: Option<Env>,
                   path2: seq<string>, env2: Env, dotenv2: Option<Env>)
    returns (first: Result<AppEnvConfig, string>, second: Result<AppEnvConfig, string>)
    ensures first.Ok? && second == first
    ensures first.value.serverCfg == ResolveServer(ResolutionEnv(path1, env1, dotenv1))
    ensures first.value.dbCfg == ResolveDatabase(ResolutionEnv(path1, env1, dotenv1))
  {
    var loader := new ConfigLoader();
    first := loader.LoadConfig(path1, env1, dotenv1);
    second := loader.LoadConfig(path2, env2, dotenv2);
  }
}
