/** Application settings: read from the environment, checked for the
    credentials the chosen provider needs, rendered with secrets masked, and
    kept as a process-wide instance built on first use. */
module Settings {
  import opened Common

  datatype Settings = Settings(
    jiraUrl: string,
    jiraEmail: Option<string>,
    jiraApiToken: Option<string>,
    cornelisLlmBaseUrl: Option<string>,
    cornelisLlmApiKey: Option<string>,
    cornelisLlmModel: string,
    openaiApiKey: Option<string>,
    anthropicApiKey: Option<string>,
    defaultLlmProvider: string,
    visionLlmProvider: string,
    fallbackEnabled: bool,
    agentLogLevel: string,
    agentMaxIterations: int,
    agentTimeoutSeconds: int,
    statePersistenceEnabled: bool,
    statePersistencePath: string,
    statePersistenceFormat: string,
    logFile: string,
    logLevel: string)

  /** The dataclass defaults. */
  const Default: Settings := Settings(
    "https://cornelisnetworks.atlassian.net", None, None, None, None, "cornelis-default", None, None,
    "cornelis", "cornelis", true, "INFO", 50, 300, true, "./data/sessions", "json", "cornelis_agent.log", "DEBUG")

  /** A boolean flag: true exactly when its text, lower-cased, is `true`. */
  predicate Flag(env: map<string, string>, name: string, default: string)
  {
    Lower(GetenvOr(env, name, default)) == "true"
  }

  /** `int()` of a variable with a default; text that is not an integer
      raises `ValueError`. */
  function IntSetting(env: map<string, string>, name: string, default: string): (r: Result<int>)
    ensures r.Ok? <==> ParseInt(Some(GetenvOr(env, name, default))).Some?
    ensures r.Ok? ==> r.value == ParseInt(Some(GetenvOr(env, name, default))).value
    ensures r.Err? ==> r.msg == "invalid literal for int() with base 10: " + Repr(GetenvOr(env, name, default))
  {
    var text := GetenvOr(env, name, default);
    match ParseInt(Some(text))
    case Some(n) => Ok(n)
    case None => Err("invalid literal for int() with base 10: " + Repr(text))
  }

  /** `Settings.from_env`: every field from its variable or its default;
      the maximum iterations are read before the timeout, so a bad value
      there is the one reported. */
  function FromEnv(env: map<string, string>): (r: Result<Settings>)
    ensures r.Ok? <==> IntSetting(env, "AGENT_MAX_ITERATIONS", "50").Ok? && IntSetting(env, "AGENT_TIMEOUT_SECONDS", "300").Ok?
    ensures IntSetting(env, "AGENT_MAX_ITERATIONS", "50").Err? ==> r == Err(IntSetting(env, "AGENT_MAX_ITERATIONS", "50").msg)
    ensures r.Ok? ==> r.value.agentMaxIterations == IntSetting(env, "AGENT_MAX_ITERATIONS", "50").value
                      && r.value.agentTimeoutSeconds == IntSetting(env, "AGENT_TIMEOUT_SECONDS", "300").value
    ensures r.Ok? ==> (r.value.fallbackEnabled <==> Flag(env, "FALLBACK_ENABLED", "true"))
                      && (r.value.statePersistenceEnabled <==> Flag(env, "STATE_PERSISTENCE_ENABLED", "true"))
    ensures r.Ok? ==> r.value.jiraEmail == Getenv(env, "JIRA_EMAIL") && r.value.jiraApiToken == Getenv(env, "JIRA_API_TOKEN")
                      && r.value.cornelisLlmBaseUrl == Getenv(env, "CORNELIS_LLM_BASE_URL")
                      && r.value.cornelisLlmApiKey == Getenv(env, "CORNELIS_LLM_API_KEY")
                      && r.value.openaiApiKey == Getenv(env, "OPENAI_API_KEY")
                      && r.value.anthropicApiKey == Getenv(env, "ANTHROPIC_API_KEY")
    ensures r.Ok? ==> r.value.defaultLlmProvider == GetenvOr(env, "DEFAULT_LLM_PROVIDER", Default.defaultLlmProvider)
                      && r.value.statePersistenceFormat == GetenvOr(env, "STATE_PERSISTENCE_FORMAT", Default.statePersistenceFormat)
  {
    match IntSetting(env, "AGENT_MAX_ITERATIONS", "50")
    case Err(e) => Err(e)
    case Ok(iterations) =>
      match IntSetting(env, "AGENT_TIMEOUT_SECONDS", "300")
      case Err(e) => Err(e)
      case Ok(timeout) =>
        Ok(Settings(
          GetenvOr(env, "JIRA_URL", "https://cornelisnetworks.atlassian.net"),
          Getenv(env, "JIRA_EMAIL"),
          Getenv(env, "JIRA_API_TOKEN"),
          Getenv(env, "CORNELIS_LLM_BASE_URL"),
          Getenv(env, "CORNELIS_LLM_API_KEY"),
          GetenvOr(env, "CORNELIS_LLM_MODEL", "cornelis-default"),
          Getenv(env, "OPENAI_API_KEY"),
          Getenv(env, "ANTHROPIC_API_KEY"),
          GetenvOr(env, "DEFAULT_LLM_PROVIDER", "cornelis"),
          GetenvOr(env, "VISION_LLM_PROVIDER", "cornelis"),
          Flag(env, "FALLBACK_ENABLED", "true"),
          GetenvOr(env, "AGENT_LOG_LEVEL", "INFO"),
          iterations,
          timeout,
          Flag(env, "STATE_PERSISTENCE_ENABLED", "true"),
          GetenvOr(env, "STATE_PERSISTENCE_PATH", "./data/sessions"),
          GetenvOr(env, "STATE_PERSISTENCE_FORMAT", "json"),
          GetenvOr(env, "LOG_FILE", "cornelis_agent.log"),
          GetenvOr(env, "LOG_LEVEL", "DEBUG")))
  }

  /** With nothing set, the settings are the defaults. */
  lemma FromEmptyEnv()
    ensures FromEnv(map[]) == Ok(Default)
  {
    LowerFixed("true");
    assert NatToString(50) == "50";
    assert NatToString(300) == "300";
    ParseNatRoundTrip(50);
    ParseNatRoundTrip(300);
  }

  /** The credentials the settings need: the Jira ones always, and those of
      the default provider when it is one of the three known providers. */
  predicate HasRequired(s: Settings)
  {
    IsSet(s.jiraEmail) && IsSet(s.jiraApiToken) && HasProviderCredentials(s)
  }

  predicate HasProviderCredentials(s: Settings)
  {
    (s.defaultLlmProvider == "cornelis" ==> IsSet(s.cornelisLlmBaseUrl) && IsSet(s.cornelisLlmApiKey))
    && (s.defaultLlmProvider == "openai" ==> IsSet(s.openaiApiKey))
    && (s.defaultLlmProvider == "anthropic" ==> IsSet(s.anthropicApiKey))
  }

  /** The settings `validate` can find missing. */
  datatype Missing = JiraEmail | JiraApiToken | CornelisBaseUrl | CornelisApiKey | OpenAiApiKey | AnthropicApiKey

  /** The message `validate` records for a missing setting. */
  function Message(m: Missing): string
  {
    match m
    case JiraEmail => "JIRA_EMAIL is required"
    case JiraApiToken => "JIRA_API_TOKEN is required"
    case CornelisBaseUrl => "CORNELIS_LLM_BASE_URL is required for cornelis provider"
    case CornelisApiKey => "CORNELIS_LLM_API_KEY is required for cornelis provider"
    case OpenAiApiKey => "OPENAI_API_KEY is required for openai provider"
    case AnthropicApiKey => "ANTHROPIC_API_KEY is required for anthropic provider"
  }

  function Messages(ms: seq<Missing>): (r: seq<string>)
    ensures |r| == |ms|
  {
    seq(|ms|, i requires 0 <= i < |ms| => Message(ms[i]))
  }

  lemma MessagesAppend(a: seq<Missing>, b: seq<Missing>)
    ensures Messages(a + b) == Messages(a) + Messages(b)
  {
    var ab := a + b;
    var l := Messages(ab);
    var r := Messages(a) + Messages(b);
    forall i | 0 <= i < |l|
      ensures l[i] == r[i]
    {
      if i < |a| {
        assert ab[i] == a[i] && r[i] == Messages(a)[i];
      } else {
        assert ab[i] == b[i - |a|] && r[i] == Messages(b)[i - |a|];
      }
    }
  }

  /** The Jira credentials `validate` finds missing. */
  function JiraChecks(s: Settings): (errors: seq<Missing>)
    ensures errors == [] <==> IsSet(s.jiraEmail) && IsSet(s.jiraApiToken)
    ensures JiraEmail in errors <==> !IsSet(s.jiraEmail)
    ensures JiraApiToken in errors <==> !IsSet(s.jiraApiToken)
    ensures forall m :: m in errors ==> m.JiraEmail? || m.JiraApiToken?
    ensures NoDup(errors) && |errors| <= 2
  {
    (if IsSet(s.jiraEmail) then [] else [JiraEmail]) + (if IsSet(s.jiraApiToken) then [] else [JiraApiToken])
  }

  /** The default provider's credentials `validate` finds missing; an
      unknown provider needs none. */
  function ProviderChecks(s: Settings): (errors: seq<Missing>)
    ensures errors == [] <==> HasProviderCredentials(s)
    ensures CornelisBaseUrl in errors <==> s.defaultLlmProvider == "cornelis" && !IsSet(s.cornelisLlmBaseUrl)
    ensures CornelisApiKey in errors <==> s.defaultLlmProvider == "cornelis" && !IsSet(s.cornelisLlmApiKey)
    ensures OpenAiApiKey in errors <==> s.defaultLlmProvider == "openai" && !IsSet(s.openaiApiKey)
    ensures AnthropicApiKey in errors <==> s.defaultLlmProvider == "anthropic" && !IsSet(s.anthropicApiKey)
    ensures forall m :: m in errors ==> !m.JiraEmail? && !m.JiraApiToken?
    ensures NoDup(errors) && |errors| <= 2
  {
    if s.defaultLlmProvider == "cornelis" then
      (if IsSet(s.cornelisLlmBaseUrl) then [] else [CornelisBaseUrl])
      + (if IsSet(s.cornelisLlmApiKey) then [] else [CornelisApiKey])
    else if s.defaultLlmProvider == "openai" then
      (if IsSet(s.openaiApiKey) then [] else [OpenAiApiKey])
    else if s.defaultLlmProvider == "anthropic" then
      (if IsSet(s.anthropicApiKey) then [] else [AnthropicApiKey])
    else []
  }

  /** What `validate` finds missing, in the order it checks. */
  function ValidationErrors(s: Settings): seq<Missing>
  {
    JiraChecks(s) + ProviderChecks(s)
  }

  /** Nothing is missing exactly when the required settings are present;
      each setting is reported exactly when `validate` checks it and finds
      it unset, and none is reported twice. */
  lemma ValidationErrorsSpec(s: Settings)
    ensures ValidationErrors(s) == [] <==> HasRequired(s)
    ensures JiraEmail in ValidationErrors(s) <==> !IsSet(s.jiraEmail)
    ensures JiraApiToken in ValidationErrors(s) <==> !IsSet(s.jiraApiToken)
    ensures CornelisBaseUrl in ValidationErrors(s) <==> s.defaultLlmProvider == "cornelis" && !IsSet(s.cornelisLlmBaseUrl)
    ensures CornelisApiKey in ValidationErrors(s) <==> s.defaultLlmProvider == "cornelis" && !IsSet(s.cornelisLlmApiKey)
    ensures OpenAiApiKey in ValidationErrors(s) <==> s.defaultLlmProvider == "openai" && !IsSet(s.openaiApiKey)
    ensures AnthropicApiKey in ValidationErrors(s) <==> s.defaultLlmProvider == "anthropic" && !IsSet(s.anthropicApiKey)
    ensures NoDup(ValidationErrors(s)) && |ValidationErrors(s)| <= 4
  {
    var jira := JiraChecks(s);
    var provider := ProviderChecks(s);
    NoDupAppend(jira, provider);
  }

  /** `Settings.validate`: true when nothing is missing, otherwise
      `ValueError` listing every missing setting. */
  method Validate(s: Settings) returns (r: Result<bool>)
    ensures r.Ok? <==> HasRequired(s)
    ensures r.Ok? ==> r.value
    ensures r.Err? ==> r.msg == "Configuration errors: " + Join(Messages(ValidationErrors(s)), ", ")
  {
    var errors := CheckJira(s);
    errors := CheckProvider(s, errors);
    MessagesAppend(JiraChecks(s), ProviderChecks(s));
    ValidationErrorsSpec(s);
    if errors != [] {
      return Err("Configuration errors: " + Join(errors, ", "));
    }
    return Ok(true);
  }

  /** The Jira checks of `validate`. */
  method CheckJira(s: Settings) returns (errors: seq<string>)
    ensures errors == Messages(JiraChecks(s))
  {
    errors := [];
    if !IsSet(s.jiraEmail) {
      errors := errors + [Message(JiraEmail)];
    }
    if !IsSet(s.jiraApiToken) {
      errors := errors + [Message(JiraApiToken)];
    }
  }

  /** The provider checks of `validate`, appended to the errors so far. */
  method CheckProvider(s: Settings, before: seq<string>) returns (errors: seq<string>)
    ensures errors == before + Messages(ProviderChecks(s))
  {
    errors := before;
    if s.defaultLlmProvider == "cornelis" {
      if !IsSet(s.cornelisLlmBaseUrl) {
        errors := errors + [Message(CornelisBaseUrl)];
      }
      if !IsSet(s.cornelisLlmApiKey) {
        errors := errors + [Message(CornelisApiKey)];
      }
    } else if s.defaultLlmProvider == "openai" {
      if !IsSet(s.openaiApiKey) {
        errors := errors + [Message(OpenAiApiKey)];
      }
    } else if s.defaultLlmProvider == "anthropic" {
      if !IsSet(s.anthropicApiKey) {
        errors := errors + [Message(AnthropicApiKey)];
      }
    }
  }

  /** A secret as `to_dict` shows it: `***` when set, null otherwise. */
  function Masked(secret: Option<string>): (j: Json)
    ensures j == JStr("***") <==> IsSet(secret)
    ensures j == JNull <==> !IsSet(secret)
  {
    if IsSet(secret) then JStr("***") else JNull
  }

  function OptionalText(v: Option<string>): Json
  {
    if v.Some? then JStr(v.value) else JNull
  }

  /** `Settings.to_dict`, in its key order. */
  function ToDict(s: Settings): (d: seq<(string, Json)>)
    ensures |d| == 14
    ensures d[2] == ("jira_api_token", Masked(s.jiraApiToken)) && d[4] == ("cornelis_llm_api_key", Masked(s.cornelisLlmApiKey))
    ensures d[6] == ("openai_api_key", Masked(s.openaiApiKey)) && d[7] == ("anthropic_api_key", Masked(s.anthropicApiKey))
  {
    [("jira_url", JStr(s.jiraUrl)),
     ("jira_email", OptionalText(s.jiraEmail)),
     ("jira_api_token", Masked(s.jiraApiToken)),
     ("cornelis_llm_base_url", OptionalText(s.cornelisLlmBaseUrl)),
     ("cornelis_llm_api_key", Masked(s.cornelisLlmApiKey)),
     ("cornelis_llm_model", JStr(s.cornelisLlmModel)),
     ("openai_api_key", Masked(s.openaiApiKey)),
     ("anthropic_api_key", Masked(s.anthropicApiKey)),
     ("default_llm_provider", JStr(s.defaultLlmProvider)),
     ("vision_llm_provider", JStr(s.visionLlmProvider)),
     ("fallback_enabled", JBool(s.fallbackEnabled)),
     ("agent_max_iterations", JInt(s.agentMaxIterations)),
     ("state_persistence_enabled", JBool(s.statePersistenceEnabled)),
     ("state_persistence_format", JStr(s.statePersistenceFormat))]
  }

  /** Whether a secret is set, never its value, shows in the rendering:
      settings that differ only in the values of set secrets render alike. */
  lemma SecretsDoNotShow(a: Settings, b: Settings)
    requires IsSet(a.jiraApiToken) == IsSet(b.jiraApiToken)
    requires IsSet(a.cornelisLlmApiKey) == IsSet(b.cornelisLlmApiKey)
    requires IsSet(a.openaiApiKey) == IsSet(b.openaiApiKey)
    requires IsSet(a.anthropicApiKey) == IsSet(b.anthropicApiKey)
    requires a.(jiraApiToken := None, cornelisLlmApiKey := None, openaiApiKey := None, anthropicApiKey := None)
          == b.(jiraApiToken := None, cornelisLlmApiKey := None, openaiApiKey := None, anthropicApiKey := None)
    ensures ToDict(a) == ToDict(b)
  {
    var a0 := a.(jiraApiToken := None, cornelisLlmApiKey := None, openaiApiKey := None, anthropicApiKey := None);
    var b0 := b.(jiraApiToken := None, cornelisLlmApiKey := None, openaiApiKey := None, anthropicApiKey := None);
    assert a.jiraUrl == a0.jiraUrl == b0.jiraUrl == b.jiraUrl;
  }

  /** The process-wide settings (`_settings`). */
  class SettingsHolder {
    var settings: Option<Settings>

    constructor ()
      ensures settings == None
    {
      settings := None;
    }

    /** `get_settings`: built from the environment on the first call and
        returned unchanged afterwards; a failed build leaves nothing stored. */
    method GetSettings(env: map<string, string>) returns (r: Result<Settings>)
      modifies this
      ensures old(settings).Some? ==> r == Ok(old(settings).value) && settings == old(settings)
      ensures old(settings).None? ==> r == FromEnv(env) && settings == (if r.Ok? then Some(r.value) else None)
    {
      if settings.None? {
        var built := FromEnv(env);
        if built.Err? {
          return built;
        }
        settings := Some(built.value);
      }
      return Ok(settings.value);
    }
  }

  /** Two calls in a row return the same settings, whatever the environment
      holds at the second. */
  method GetSettingsTwice(holder: SettingsHolder, env1: map<string, string>, env2: map<string, string>)
    returns (first: Result<Settings>, second: Result<Settings>)
    modifies holder
    ensures first.Ok? ==> second == first
  {
    first := holder.GetSettings(env1);
    second := holder.GetSettings(env2);
  }
}
