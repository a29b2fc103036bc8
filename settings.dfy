/** Configuration from the process environment (config/settings.py). The
    environment is passed in as a map from variable names to values. */
module Settings {
  import opened Wrappers
  import opened Text

  type Env = map<string, string>

  datatype DatabaseSettings = DatabaseSettings(host: string, port: int, user: string, password: string, name: string, charset: string)
  datatype ApplicationSettings = ApplicationSettings(environment: string, dryRun: bool, logLevel: string)
  datatype BrevoSettings = BrevoSettings(apiKey: Option<string>, baseUrl: string, languageListId: int, nonLanguageListId: int)
  datatype AppSettings = AppSettings(database: DatabaseSettings, application: ApplicationSettings, brevo: BrevoSettings)

  /** The spellings read as true; anything else present reads as false. */
  const TrueWords: seq<string> := ["1", "true", "yes", "y"]

  /** `os.getenv(name, default)`. */
  function GetEnv(env: Env, name: string, default: string): (v: string)
    ensures name in env ==> v == env[name]
    ensures name !in env ==> v == default
  {
    if name in env then env[name] else default
  }

  /** `_load_boolean`: the default when the variable is unset; otherwise true
      exactly for one of the true spellings, ignoring surrounding space and
      ASCII case. A set but empty variable is false, not the default. */
  function LoadBoolean(env: Env, name: string, default: bool): (b: bool)
    ensures name !in env ==> b == default
    ensures name in env ==> (b <==> Lower(Strip(env[name])) in TrueWords)
  {
    if name !in env then default
    else Lower(Strip(env[name])) in TrueWords
  }

  /** `_load_integer`: the default when the variable is unset, blank or not an
      integer; otherwise its value. */
  function LoadInteger(env: Env, name: string, default: int): (n: int)
    ensures name !in env || Strip(env[name]) == [] ==> n == default
    ensures name in env && ParseInt(env[name]).Some? ==> n == ParseInt(env[name]).value
    ensures name in env && ParseInt(env[name]).None? ==> n == default
  {
    if name !in env || Strip(env[name]) == [] then default
    else match ParseInt(env[name]) {
      case Some(v) => v
      case None => default
    }
  }

  /** A value written by `str(k)` is read back as `k`, whatever the default. */
  lemma LoadIntegerOfIntToString(env: Env, name: string, default: int, k: int)
    requires name in env && env[name] == IntToString(k)
    ensures LoadInteger(env, name, default) == k
  {
    ParseIntOfIntToString(k);
  }

  /** `load_settings`, after `.env` has been merged into the environment. */
  function LoadSettings(env: Env): (s: AppSettings)
    ensures s.brevo.apiKey.Some? <==> "BREVO_API_KEY" in env
    ensures s.brevo.apiKey.Some? ==> s.brevo.apiKey.value == env["BREVO_API_KEY"]
    ensures "APP_DRY_RUN" !in env ==> s.application.dryRun
  {
    AppSettings(
      DatabaseSettings(
        GetEnv(env, "DB_HOST", "127.0.0.1"),
        LoadInteger(env, "DB_PORT", 3306),
        GetEnv(env, "DB_USER", "testizer_user"),
        GetEnv(env, "DB_PASSWORD", "change_me"),
        GetEnv(env, "DB_NAME", "testizer"),
        GetEnv(env, "DB_CHARSET", "utf8mb4")),
      ApplicationSettings(
        GetEnv(env, "APP_ENV", "development"),
        LoadBoolean(env, "APP_DRY_RUN", true),
        GetEnv(env, "APP_LOG_LEVEL", "INFO")),
      BrevoSettings(
        if "BREVO_API_KEY" in env then Some(env["BREVO_API_KEY"]) else None,
        GetEnv(env, "BREVO_BASE_URL", "https://api.brevo.com/v3"),
        LoadInteger(env, "BREVO_LANGUAGE_LIST_ID", 0),
        LoadInteger(env, "BREVO_NON_LANGUAGE_LIST_ID", 0)))
  }

  /** With nothing configured the application runs dry, without an API key,
      against the public Brevo endpoint, and with both list ids 0, so neither
      funnel is synchronised. */
  lemma DefaultSettings()
    ensures LoadSettings(map[]) ==
      AppSettings(
        DatabaseSettings("127.0.0.1", 3306, "testizer_user", "change_me", "testizer", "utf8mb4"),
        ApplicationSettings("development", true, "INFO"),
        BrevoSettings(None, "https://api.brevo.com/v3", 0, 0))
  {
  }

  /** Only the listed spellings turn a flag on: "0" turns the dry-run flag
      off although its default is on, and so does an empty value. */
  lemma LoadBooleanFalseExamples()
    ensures !LoadBoolean(map["APP_DRY_RUN" := "0"], "APP_DRY_RUN", true)
    ensures !LoadBoolean(map["APP_DRY_RUN" := ""], "APP_DRY_RUN", true)
  {
    StripUnpadded("0");
    var l := Lower("0");
    assert |l| == 1 && l[0] == '0';
    assert l == "0";
  }

  /** "true" turns a flag on although its default is off. */
  lemma LoadBooleanTrueExample()
    ensures LoadBoolean(map["TEST_BOOL" := "true"], "TEST_BOOL", false)
  {
    StripUnpadded("true");
    var l := Lower("true");
    assert |l| == 4 && l[0] == 't' && l[1] == 'r' && l[2] == 'u' && l[3] == 'e';
    assert l == "true";
  }
}
