/** Properties of the configuration loader that relate several calls or
    several operations: which error wins, what a loaded configuration looks
    like, which configurations can be loaded at all, how the key length is
    counted, and what the runtime check reports about a loaded configuration. */
module ConfigLemmas {
  import opened Wrappers
  import opened JsStrings
  import opened Config

  /** The shape of every configuration the loader can produce: a parsed,
      non-empty URL, a key of at least `MinKeyLength` code units, non-empty
      application name and URL (a value or its default), and file uploads on. */
  predicate WellFormed(cfg: AppConfig, parsesAsUrl: string -> bool) {
    && AcceptedUrl(Some(cfg.supabase.url), parsesAsUrl)
    && AcceptedKey(Some(cfg.supabase.anonKey))
    && cfg.app.name != []
    && cfg.app.url != []
    && cfg.features.fileUploads
  }

  /** Any non-empty value switches a feature flag on. */
  const FlagValue: string := "1"

  function FlagVariable(on: bool): Option<string> {
    if on then Some(FlagValue) else None
  }

  /** An environment that spells out `cfg` variable by variable. */
  function EnvFor(cfg: AppConfig): Env {
    Env(Some(cfg.supabase.url), Some(cfg.supabase.anonKey),
        Some(cfg.app.name), Some(cfg.app.url),
        FlagVariable(cfg.features.analytics), FlagVariable(cfg.features.adminPanel),
        None)
  }

  /** There is no partial configuration: whatever the loader returns has the
      well-formed shape. */
  lemma LoadedConfigWellFormed(env: Env, parsesAsUrl: string -> bool)
    requires LoadConfig(env, parsesAsUrl).Success?
    ensures WellFormed(LoadConfig(env, parsesAsUrl).value, parsesAsUrl)
  {
  }

  /** Every well-formed configuration is produced by some environment, and
      spelling a loaded configuration back out as an environment loads it
      again unchanged. */
  lemma LoadConfigRoundTrip(cfg: AppConfig, parsesAsUrl: string -> bool)
    requires WellFormed(cfg, parsesAsUrl)
    ensures LoadConfig(EnvFor(cfg), parsesAsUrl) == Success(cfg)
  {
  }

  /** The URL is validated before the key: when both are bad, the error is
      the URL's, whatever the key is. */
  lemma UrlErrorWins(env: Env, parsesAsUrl: string -> bool)
    requires !AcceptedUrl(env.supabaseUrl, parsesAsUrl)
    ensures LoadConfig(env, parsesAsUrl).Failure?
    ensures LoadConfig(env, parsesAsUrl).error.IsUrlError()
    ensures forall key :: LoadConfig(env.(supabaseAnonKey := key), parsesAsUrl) == LoadConfig(env, parsesAsUrl)
  {
  }

  /** A missing or empty URL fails before the URL parser is asked anything:
      the outcome is the same for every parser. */
  lemma MissingUrlIgnoresParser(env: Env, parses1: string -> bool, parses2: string -> bool)
    requires !Truthy(env.supabaseUrl)
    ensures LoadConfig(env, parses1) == LoadConfig(env, parses2) == Failure(UrlRequired)
  {
  }

  /** Only the six variables the configuration object reads matter:
      `NODE_ENV` has no influence on the loaded configuration. */
  lemma NodeEnvIgnored(env: Env, nodeEnv: Option<string>, parsesAsUrl: string -> bool)
    ensures LoadConfig(env.(nodeEnv := nodeEnv), parsesAsUrl) == LoadConfig(env, parsesAsUrl)
  {
  }

  /** The application name and URL never cause a failure: changing them
      changes nothing about whether loading succeeds or which error it raises. */
  lemma AppFieldsNeverFail(env: Env, name: Option<string>, url: Option<string>, parsesAsUrl: string -> bool)
    ensures var r := LoadConfig(env.(appName := name, appUrl := url), parsesAsUrl);
            && r.Success? == LoadConfig(env, parsesAsUrl).Success?
            && (r.Failure? ==> r == LoadConfig(env, parsesAsUrl))
  {
  }

  /** The errors the loader can raise: the two URL errors and the two key
      errors labelled "Supabase Anon Key". */
  predicate LoaderError(e: ConfigError) {
    e.UrlRequired? || e.InvalidUrlFormat? || e == KeyRequired(AnonKeyLabel) || e == KeyTooShort(AnonKeyLabel)
  }

  lemma LoaderRaisesLoaderErrors(env: Env, parsesAsUrl: string -> bool)
    requires LoadConfig(env, parsesAsUrl).Failure?
    ensures LoaderError(LoadConfig(env, parsesAsUrl).error)
  {
  }

  /** A thrown `Error` carries only its message; for the errors the loader
      raises, the message alone tells which check failed. */
  lemma LoaderMessagesDistinct(e1: ConfigError, e2: ConfigError)
    requires LoaderError(e1) && LoaderError(e2)
    requires e1.Message() == e2.Message()
    ensures e1 == e2
  {
  }

  /** For a key made only of characters in the Basic Multilingual Plane, the
      UTF-16 length test is the same as counting characters. */
  lemma BmpKeyLengthIsCharacterCount(key: string)
    requires forall i :: 0 <= i < |key| ==> InBmp(key[i])
    ensures AcceptedKey(Some(key)) <==> |key| >= MinKeyLength
  {
  }

  /** A key of ten or more characters is always accepted unchanged; a key
      rejected as too short has between one and nine characters. */
  lemma KeyLengthBounds(key: string)
    ensures |key| >= MinKeyLength ==> ValidateKey(Some(key), AnonKeyLabel) == Success(key)
    ensures ValidateKey(Some(key), AnonKeyLabel) == Failure(KeyTooShort(AnonKeyLabel)) ==> 0 < |key| < MinKeyLength
  {
  }

  /** `Utf16Length` adds up over concatenation. */
  lemma {:induction false} Utf16LengthAppend(a: string, b: string)
    ensures Utf16Length(a + b) == Utf16Length(a) + Utf16Length(b)
    decreases |a|
  {
    if |a| == 0 {
      assert a + b == b;
    } else {
      assert (a + b)[1..] == a[1..] + b;
      Utf16LengthAppend(a[1..], b);
    }
  }

  /** Five emoji are ten UTF-16 code units, so a five-character key of them
      passes the length check that a five-character ASCII key fails. */
  lemma AstralKeyCountsCodeUnits()
    ensures ValidateKey(Some("\U{1F680}\U{1F680}\U{1F680}\U{1F680}\U{1F680}"), AnonKeyLabel).Success?
    ensures ValidateKey(Some("abcde"), AnonKeyLabel) == Failure(KeyTooShort(AnonKeyLabel))
  {
  }

  /** The runtime check passes every loaded configuration, and warns exactly
      when its URL does not mention the hosting provider. */
  lemma LoadedConfigPassesCheck(env: Env, parsesAsUrl: string -> bool)
    requires LoadConfig(env, parsesAsUrl).Success?
    ensures var report := ValidateConfiguration(LoadConfig(env, parsesAsUrl).value);
            && report.result
            && (HasWarning(report.log) <==> !ContainsSubstring(env.supabaseUrl.value, ProviderHost))
  {
  }

  /** Any URL that mentions the provider's host, wherever it sits, draws no
      warning. */
  lemma ProviderUrlDrawsNoWarning(cfg: AppConfig, pre: string, post: string)
    requires cfg.supabase.url == pre + ProviderHost + post
    ensures !HasWarning(ValidateConfiguration(cfg).log)
    ensures ValidateConfiguration(cfg).log == [LogEntry(Info, ValidatedMessage)]
  {
    var url := cfg.supabase.url;
    assert url[|pre|..|pre| + |ProviderHost|] == ProviderHost;
    assert OccursAt(url, ProviderHost, |pre|);
  }

  /** A URL the parser accepts but that does not mention the provider's host
      still loads; the runtime check then warns but still reports success. */
  lemma ForeignUrlWarnsButPasses(env: Env, parsesAsUrl: string -> bool)
    requires AcceptedUrl(env.supabaseUrl, parsesAsUrl)
    requires !ContainsSubstring(env.supabaseUrl.value, ProviderHost)
    requires AcceptedKey(env.supabaseAnonKey)
    ensures LoadConfig(env, parsesAsUrl).Success?
    ensures var report := ValidateConfiguration(LoadConfig(env, parsesAsUrl).value);
            && report.result
            && report.log == [LogEntry(Warning, ProviderWarning), LogEntry(Info, ValidatedMessage)]
  {
  }

  /** A local Supabase instance's URL, `http://localhost:54321`, does not
      mention the provider's host, so it draws the warning. */
  lemma LocalUrlIsForeign()
    ensures !ContainsSubstring("http://localhost:54321", ProviderHost)
  {
    var url: string := "http://localhost:54321";
    // The provider host contains a 'b'; the URL contains none.
    assert ProviderHost[4] == 'b';
    forall i | 0 <= i && i + |ProviderHost| <= |url|
      ensures !OccursAt(url, ProviderHost, i)
    {
      assert url[i..i + |ProviderHost|][4] == url[i + 4] != 'b';
    }
  }

  /** At most one of the two runtime-environment helpers holds. */
  lemma DevelopmentAndProductionExclusive(env: Env)
    ensures !(IsDevelopment(env) && IsProduction(env))
  {
  }

  /** The two helpers on each kind of `NODE_ENV` value: exact lower-case
      matches select one helper, and an unset variable or any other value,
      such as "test" or "Development", selects neither. */
  lemma RuntimeModeCases(env: Env)
    ensures env.nodeEnv == Some("development") ==> IsDevelopment(env) && !IsProduction(env)
    ensures env.nodeEnv == Some("production") ==> IsProduction(env) && !IsDevelopment(env)
    ensures env.nodeEnv != Some("development") && env.nodeEnv != Some("production") ==>
              !IsDevelopment(env) && !IsProduction(env)
    ensures env.nodeEnv == None ==> !IsDevelopment(env) && !IsProduction(env)
    ensures !IsDevelopment(env.(nodeEnv := Some("test"))) && !IsProduction(env.(nodeEnv := Some("test")))
    ensures !IsDevelopment(env.(nodeEnv := Some("Development"))) && !IsProduction(env.(nodeEnv := Some("Development")))
  {
  }
}
