/** The application's configuration loader: it reads a fixed set of
    environment variables once, validates the database URL and anonymous key,
    fills in defaults for the application name and URL, derives the feature
    flags, and either yields a complete `AppConfig` or fails with the first
    validation error. */
module Config {
  import opened Wrappers
  import opened JsStrings

  /** The environment variables the loader reads, each possibly unset. */
  datatype Env = Env(
    supabaseUrl: Option<string>,      // NEXT_PUBLIC_SUPABASE_URL
    supabaseAnonKey: Option<string>,  // NEXT_PUBLIC_SUPABASE_ANON_KEY
    appName: Option<string>,          // NEXT_PUBLIC_APP_NAME
    appUrl: Option<string>,           // NEXT_PUBLIC_APP_URL
    gaId: Option<string>,             // NEXT_PUBLIC_GA_ID
    adminEmail: Option<string>,       // ADMIN_EMAIL
    nodeEnv: Option<string>           // NODE_ENV
  )

  datatype SupabaseSettings = SupabaseSettings(url: string, anonKey: string)
  datatype AppSettings = AppSettings(name: string, url: string)
  datatype Features = Features(analytics: bool, fileUploads: bool, adminPanel: bool)

  /** The validated configuration snapshot. */
  datatype AppConfig = AppConfig(supabase: SupabaseSettings, app: AppSettings, features: Features)

  /** The errors the validators throw; `name` is the label the caller passed
      to the key validator. */
  datatype ConfigError =
    | UrlRequired
    | InvalidUrlFormat
    | KeyRequired(name: string)
    | KeyTooShort(name: string)
  {
    predicate IsUrlError() {
      UrlRequired? || InvalidUrlFormat?
    }

    /** The message of the thrown `Error`. */
    function Message(): string {
      match this
      case UrlRequired => "URL is required"
      case InvalidUrlFormat => "Invalid URL format"
      case KeyRequired(name) => name + " is required"
      case KeyTooShort(name) => name + " appears to be invalid (too short)"
    }
  }

  const DefaultAppName: string := "Live From the Mothership"
  const DefaultAppUrl: string := "http://localhost:3000"
  const AnonKeyLabel: string := "Supabase Anon Key"
  const MinKeyLength: nat := 10
  const ProviderHost: string := "supabase.co"

  /** A URL the loader accepts: set, non-empty, and accepted by the URL parser. */
  predicate AcceptedUrl(url: Option<string>, parsesAsUrl: string -> bool) {
    url.Some? && url.value != [] && parsesAsUrl(url.value)
  }

  /** A key the loader accepts: set and at least `MinKeyLength` UTF-16 code
      units long (which already makes it non-empty). */
  predicate AcceptedKey(key: Option<string>) {
    key.Some? && Utf16Length(key.value) >= MinKeyLength
  }

  /** Validates the database URL. `parsesAsUrl` stands for "the URL
      constructor does not throw"; it is consulted only for a non-empty
      string, and an accepted URL comes back exactly as given. */
  function ValidateUrl(url: Option<string>, parsesAsUrl: string -> bool): (r: Result<string, ConfigError>)
    ensures r.Success? <==> AcceptedUrl(url, parsesAsUrl)
    ensures r.Success? ==> url == Some(r.value)
    ensures !Truthy(url) ==> r == Failure(UrlRequired)
    ensures Truthy(url) && !parsesAsUrl(url.value) ==> r == Failure(InvalidUrlFormat)
  {
    if !Truthy(url) then Failure(UrlRequired)
    else if parsesAsUrl(url.value) then Success(url.value)
    else Failure(InvalidUrlFormat)
  }

  /** Validates a key labelled `name`: a missing or empty key and a key
      shorter than `MinKeyLength` UTF-16 code units are rejected with
      messages naming the label; an accepted key comes back unchanged. */
  function ValidateKey(key: Option<string>, name: string): (r: Result<string, ConfigError>)
    ensures r.Success? <==> AcceptedKey(key)
    ensures r.Success? ==> key == Some(r.value)
    ensures !Truthy(key) ==> r == Failure(KeyRequired(name))
    ensures Truthy(key) && Utf16Length(key.value) < MinKeyLength ==> r == Failure(KeyTooShort(name))
  {
    if !Truthy(key) then Failure(KeyRequired(name))
    else if Utf16Length(key.value) < MinKeyLength then Failure(KeyTooShort(name))
    else Success(key.value)
  }

  /** Builds the configuration object, evaluating its fields in source order:
      the URL first, then the key, then the infallible defaults and flags. */
  function LoadConfig(env: Env, parsesAsUrl: string -> bool): (r: Result<AppConfig, ConfigError>)
    ensures r.Success? <==> AcceptedUrl(env.supabaseUrl, parsesAsUrl) && AcceptedKey(env.supabaseAnonKey)
    ensures !AcceptedUrl(env.supabaseUrl, parsesAsUrl) ==>
              r.Failure? && ValidateUrl(env.supabaseUrl, parsesAsUrl) == Failure(r.error)
    ensures AcceptedUrl(env.supabaseUrl, parsesAsUrl) && !AcceptedKey(env.supabaseAnonKey) ==>
              r.Failure? && ValidateKey(env.supabaseAnonKey, AnonKeyLabel) == Failure(r.error)
    ensures r.Success? ==>
              && env.supabaseUrl == Some(r.value.supabase.url)
              && env.supabaseAnonKey == Some(r.value.supabase.anonKey)
    ensures r.Success? ==>
              && (Truthy(env.appName) ==> r.value.app.name == env.appName.value)
              && (!Truthy(env.appName) ==> r.value.app.name == DefaultAppName)
              && (Truthy(env.appUrl) ==> r.value.app.url == env.appUrl.value)
              && (!Truthy(env.appUrl) ==> r.value.app.url == DefaultAppUrl)
    ensures r.Success? ==>
              && (r.value.features.analytics <==> Truthy(env.gaId))
              && (r.value.features.adminPanel <==> Truthy(env.adminEmail))
              && r.value.features.fileUploads
  {
    var url :- ValidateUrl(env.supabaseUrl, parsesAsUrl);
    var anonKey :- ValidateKey(env.supabaseAnonKey, AnonKeyLabel);
    Success(AppConfig(
      SupabaseSettings(url, anonKey),
      AppSettings(OrElse(env.appName, DefaultAppName), OrElse(env.appUrl, DefaultAppUrl)),
      Features(Truthy(env.gaId), true, Truthy(env.adminEmail))))
  }

  datatype LogLevel = Info | Warning | Failed

  /** One console line: `console.log` (Info), `console.warn` (Warning) or
      `console.error` (Failed). */
  datatype LogEntry = LogEntry(level: LogLevel, message: string)

  /** What the runtime check returns together with the lines it writes. */
  datatype CheckReport = CheckReport(result: bool, log: seq<LogEntry>)

  const ProviderWarning: string := "Warning: Supabase URL does not appear to be valid"
  const ValidatedMessage: string := "\U{2705} Configuration validated successfully"

  predicate HasWarning(log: seq<LogEntry>) {
    exists i :: 0 <= i < |log| && log[i].level == Warning
  }

  /** The advisory runtime check: it warns when the database URL does not
      mention the hosting provider, always reports success, and never fails.
      It writes at most one warning, followed by exactly one success line. */
  function ValidateConfiguration(cfg: AppConfig): (report: CheckReport)
    ensures report.result
    ensures HasWarning(report.log) <==> !ContainsSubstring(cfg.supabase.url, ProviderHost)
    ensures forall i :: 0 <= i < |report.log| && report.log[i].level == Warning ==>
              report.log[i].message == ProviderWarning
    ensures |report.log| > 0 && report.log[|report.log| - 1] == LogEntry(Info, ValidatedMessage)
    ensures |report.log| == if HasWarning(report.log) then 2 else 1
    ensures forall i :: 0 <= i < |report.log| ==> report.log[i].level != Failed
  {
    var warnings := if Includes(cfg.supabase.url, ProviderHost) then [] else [LogEntry(Warning, ProviderWarning)];
    var log := warnings + [LogEntry(Info, ValidatedMessage)];
    assert !Includes(cfg.supabase.url, ProviderHost) ==> log[0].level == Warning;
    CheckReport(true, log)
  }

  /** `process.env.NODE_ENV === 'development'`: a strict comparison, so an
      unset variable or any other spelling gives false. */
  function IsDevelopment(env: Env): (r: bool)
    ensures r <==> env.nodeEnv == Some("development")
  {
    env.nodeEnv == Some("development")
  }

  /** `process.env.NODE_ENV === 'production'`; never holds together with
      `IsDevelopment`. */
  function IsProduction(env: Env): (r: bool)
    ensures r <==> env.nodeEnv == Some("production")
    ensures r ==> !IsDevelopment(env)
  {
    env.nodeEnv == Some("production")
  }
}
