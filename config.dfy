/** Application settings: the fields the settings object validates, the checks it runs when it
    is built, and the derived n8n address and environment tests. */
module Config {
  import opened Wrappers
  import PyStr

  /** The settings the checks and derived properties read; the other fields only carry values. */
  datatype Settings = Settings(
    environment: string,
    databaseUrl: string,
    redisUrl: string,
    anthropicApiKey: string,
    openaiApiKey: string,
    googleAiApiKey: string,
    jwtSecret: string,
    n8nHost: string,
    n8nPort: int,
    n8nProtocol: string)

  /** The declared defaults; the URLs, keys and secret have none and are given. */
  function WithDefaults(databaseUrl: string, redisUrl: string, anthropicApiKey: string,
                        openaiApiKey: string, googleAiApiKey: string, jwtSecret: string): Settings
  {
    Settings("development", databaseUrl, redisUrl, anthropicApiKey, openaiApiKey, googleAiApiKey,
             jwtSecret, "localhost", 5678, "http")
  }

  const MissingKeys := "Missing required API keys for production environment"
  const BadDatabaseUrl := "Invalid database URL format"
  const BadRedisUrl := "Invalid Redis URL format"

  predicate KeysPresent(s: Settings)
  {
    s.anthropicApiKey != "" && s.openaiApiKey != "" && s.googleAiApiKey != "" && s.jwtSecret != ""
  }

  predicate DatabaseUrlOk(s: Settings)
  {
    PyStr.StartsWith(s.databaseUrl, "postgresql://") || PyStr.StartsWith(s.databaseUrl, "postgres://")
  }

  predicate RedisUrlOk(s: Settings)
  {
    PyStr.StartsWith(s.redisUrl, "redis://")
  }

  /** `_validate_configuration`, run when the settings are built: they are accepted exactly
      when every check passes, and the first check that fails names the error. */
  function Validate(s: Settings): (r: Result<Settings, string>)
    ensures r.Success? <==> (IsProduction(s) ==> KeysPresent(s)) && DatabaseUrlOk(s) && RedisUrlOk(s)
    ensures r.Success? ==> r.value == s
    ensures IsProduction(s) && !KeysPresent(s) ==> r == Failure(MissingKeys)
    ensures (IsProduction(s) ==> KeysPresent(s)) && !DatabaseUrlOk(s) ==> r == Failure(BadDatabaseUrl)
    ensures (IsProduction(s) ==> KeysPresent(s)) && DatabaseUrlOk(s) && !RedisUrlOk(s) ==> r == Failure(BadRedisUrl)
  {
    if s.environment == "production" && !KeysPresent(s) then Failure(MissingKeys)
    else if !DatabaseUrlOk(s) then Failure(BadDatabaseUrl)
    else if !RedisUrlOk(s) then Failure(BadRedisUrl)
    else Success(s)
  }

  /** Outside production the API keys are never consulted. */
  lemma KeysOnlyMatterInProduction(s: Settings, anthropic: string, openai: string, google: string, jwt: string)
    requires !IsProduction(s)
    ensures Validate(s).Success? ==
            Validate(s.(anthropicApiKey := anthropic, openaiApiKey := openai, googleAiApiKey := google,
                        jwtSecret := jwt)).Success?
  {
  }

  /** `n8n_base_url`: "protocol://host:port". */
  function N8nBaseUrl(s: Settings): (url: string)
    ensures PyStr.StartsWith(url, s.n8nProtocol + "://" + s.n8nHost + ":")
    ensures url[|s.n8nProtocol + "://" + s.n8nHost + ":"|..] == PyStr.IntToString(s.n8nPort)
  {
    var prefix := s.n8nProtocol + "://" + s.n8nHost + ":";
    var url := prefix + PyStr.IntToString(s.n8nPort);
    assert url[..|prefix|] == prefix;
    url
  }

  /** With the declared defaults the n8n address is "http://localhost:5678". */
  lemma DefaultN8nBaseUrl(databaseUrl: string, redisUrl: string, anthropicApiKey: string,
                          openaiApiKey: string, googleAiApiKey: string, jwtSecret: string)
    ensures N8nBaseUrl(WithDefaults(databaseUrl, redisUrl, anthropicApiKey, openaiApiKey,
                                    googleAiApiKey, jwtSecret)) == "http://localhost:5678"
  {
    DefaultPortText();
  }

  lemma DefaultPortText()
    ensures PyStr.IntToString(5678) == "5678"
  {
    assert PyStr.DigitChar(5) == '5' && PyStr.DigitChar(6) == '6' &&
           PyStr.DigitChar(7) == '7' && PyStr.DigitChar(8) == '8';
    assert PyStr.NatToString(56) == PyStr.NatToString(5) + ['6'];
    assert PyStr.NatToString(567) == PyStr.NatToString(56) + ['7'];
    assert PyStr.NatToString(5678) == PyStr.NatToString(567) + ['8'];
  }

  /** `is_development`. */
  predicate IsDevelopment(s: Settings)
  {
    s.environment == "development"
  }

  /** `is_production`. */
  predicate IsProduction(s: Settings)
  {
    s.environment == "production"
  }

  /** The two environment tests are exclusive, and the defaults are development. */
  lemma EnvironmentsExclusive(s: Settings)
    ensures !(IsDevelopment(s) && IsProduction(s))
    ensures IsDevelopment(WithDefaults(s.databaseUrl, s.redisUrl, s.anthropicApiKey, s.openaiApiKey,
                                       s.googleAiApiKey, s.jwtSecret))
  {
    if IsDevelopment(s) {
      assert s.environment[0] == 'd';
    }
  }
}
