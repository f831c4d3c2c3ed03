/** LLM configuration and the client factory: reading the configuration
    from the environment, choosing the provider and model for a request
    (plain or vision), creating the client, and falling back once to the
    configured fallback provider when creation raises `LLMError`. */
module LlmConfig {
  import opened Common
  import opened LlmBase
  import CornelisLlm
  import LiteLlmClient

  datatype Provider = Cornelis | OpenAi | Anthropic | LiteLlm

  /** The enum's value. */
  function Value(p: Provider): string
  {
    match p
    case Cornelis => "cornelis"
    case OpenAi => "openai"
    case Anthropic => "anthropic"
    case LiteLlm => "litellm"
  }

  /** `LLMProvider(s)`: the provider with that value; any other text raises
      `ValueError`, which is None here. */
  function ParseProvider(s: string): (r: Option<Provider>)
    ensures r.Some? ==> Value(r.value) == s
    ensures r.None? ==> forall p: Provider :: Value(p) != s
  {
    if s == "cornelis" then Some(Cornelis)
    else if s == "openai" then Some(OpenAi)
    else if s == "anthropic" then Some(Anthropic)
    else if s == "litellm" then Some(LiteLlm)
    else None
  }

  lemma ParseValue(p: Provider)
    ensures ParseProvider(Value(p)) == Some(p)
  {
    match p
    case Cornelis =>
    case OpenAi => assert Value(p) != "cornelis";
    case Anthropic => assert Value(p) != "cornelis" && Value(p) != "openai";
    case LiteLlm => assert Value(p) != "cornelis" && Value(p) != "openai" && Value(p) != "anthropic";
  }

  /** `LLMConfig`; the temperature and the timeout (floats) are not part of
      the model. */
  datatype Config = Config(
    provider: Provider,
    model: Option<string>,
    apiKey: Option<string>,
    apiBase: Option<string>,
    maxTokens: Option<int>,
    fallbackEnabled: bool,
    fallbackProvider: Option<Provider>,
    fallbackModel: Option<string>,
    visionProvider: Option<Provider>,
    visionModel: Option<string>,
    extraOptions: map<string, Json>)

  /** The dataclass defaults. */
  const Default: Config := Config(Cornelis, None, None, None, None, true, Some(OpenAi), Some("gpt-4o"), None, None, map[])

  /** The variable naming each provider's model. */
  function ModelVariable(p: Provider): string
  {
    match p
    case Cornelis => "CORNELIS_LLM_MODEL"
    case OpenAi => "OPENAI_MODEL"
    case Anthropic => "ANTHROPIC_MODEL"
    case LiteLlm => "LLM_MODEL"
  }

  /** The model a provider uses when its variable is unset. */
  function DefaultModel(p: Provider): string
  {
    match p
    case Cornelis => "cornelis-default"
    case OpenAi => "gpt-4o"
    case Anthropic => "claude-3-5-sonnet-20241022"
    case LiteLlm => "gpt-4o"
  }

  /** `LLMConfig.from_env`: an unknown primary provider falls back to
      Cornelis; the model comes from the chosen provider's variable;
      fallback is on exactly when the flag reads `true` in any case; an
      empty or unknown vision provider means none. Every other field keeps
      its default. */
  function FromEnv(env: map<string, string>): (c: Config)
    ensures var named := ParseProvider(Lower(GetenvOr(env, "DEFAULT_LLM_PROVIDER", "cornelis")));
            c.provider == if named.Some? then named.value else Cornelis
    ensures c.model == Some(GetenvOr(env, ModelVariable(c.provider), DefaultModel(c.provider)))
    ensures c.fallbackEnabled <==> Lower(GetenvOr(env, "FALLBACK_ENABLED", "true")) == "true"
    ensures c.visionProvider == ParseProvider(Lower(GetenvOr(env, "VISION_LLM_PROVIDER", "")))
    ensures c.visionModel == Getenv(env, "VISION_LLM_MODEL")
    ensures c.(provider := Cornelis, model := None, fallbackEnabled := true, visionProvider := None, visionModel := None) == Default
  {
    var named := ParseProvider(Lower(GetenvOr(env, "DEFAULT_LLM_PROVIDER", "cornelis")));
    var provider := if named.Some? then named.value else Cornelis;
    var model := GetenvOr(env, ModelVariable(provider), DefaultModel(provider));
    var fallback := Lower(GetenvOr(env, "FALLBACK_ENABLED", "true")) == "true";
    var visionText := Lower(GetenvOr(env, "VISION_LLM_PROVIDER", ""));
    var vision := if visionText != "" then ParseProvider(visionText) else None;
    Config(provider, Some(model), None, None, None, fallback, Some(OpenAi), Some("gpt-4o"), vision,
           Getenv(env, "VISION_LLM_MODEL"), map[])
  }

  /** With nothing set, the configuration is the default one with the
      Cornelis default model. */
  lemma FromEmptyEnv()
    ensures FromEnv(map[]) == Default.(model := Some("cornelis-default"))
  {
    LowerFixed("cornelis");
    LowerFixed("true");
  }

  /** The installed client libraries. */
  datatype Packages = Packages(openai: bool, litellm: bool)

  datatype Client = Internal(internal: CornelisLlm.Client) | External(external: LiteLlmClient.Client)

  /** The provider and model a request uses: explicit arguments win; a
      vision request uses the vision settings when a vision provider is
      configured, and the primary ones otherwise. */
  function Select(c: Config, provider: Option<Provider>, model: Option<string>, forVision: bool): (r: (Provider, Option<string>))
    ensures provider.Some? ==> r.0 == provider.value
    ensures IsSet(model) ==> r.1 == model
    ensures provider.None? ==> r.0 == if forVision && c.visionProvider.Some? then c.visionProvider.value else c.provider
    ensures !IsSet(model) ==> r.1 == if forVision && c.visionProvider.Some? then c.visionModel else c.model
  {
    if forVision && c.visionProvider.Some? then
      (if provider.Some? then provider.value else c.visionProvider.value, OrStr(model, c.visionModel))
    else
      (if provider.Some? then provider.value else c.provider, OrStr(model, c.model))
  }

  /** Creating the client for a provider: the Cornelis client for Cornelis,
      the LiteLLM client (with the configured key and base URL) for the
      others. */
  function Create(p: Provider, model: Option<string>, c: Config, env: map<string, string>, pk: Packages): (r: Attempt<Client>)
    ensures r.Made? ==> (r.value.Internal? <==> p == Cornelis)
    ensures p == Cornelis ==> (r.Made? <==> CornelisLlm.New(model, None, None, c.extraOptions, env, pk.openai).Made?)
    ensures p == Cornelis && r.Raised? ==> r.error == CornelisLlm.New(model, None, None, c.extraOptions, env, pk.openai).error
    ensures p != Cornelis ==> (r.Made? <==> pk.litellm)
    ensures p != Cornelis && r.Made? ==>
              r.value.external.model == model && r.value.external.apiKey == c.apiKey && r.value.external.apiBase == c.apiBase
  {
    if p == Cornelis then
      match CornelisLlm.New(model, None, None, c.extraOptions, env, pk.openai)
      case Made(client) => Made(Internal(client))
      case Raised(e) => Raised(e)
    else
      match LiteLlmClient.New(model, c.apiKey, c.apiBase, c.extraOptions, pk.litellm)
      case Made(client) => Made(External(client))
      case Raised(e) => Raised(e)
  }

  /** How `get_llm_client` ends: a client, the `LLMError` it re-raises, or
      a `RecursionError` once its own recursion exhausts the stack. */
  datatype Outcome = Created(client: Client) | NotCreated(error: LlmError) | StackExhausted

  function Lift(a: Attempt<Client>): Outcome
  {
    match a
    case Made(client) => Created(client)
    case Raised(e) => NotCreated(e)
  }

  /** `_create_client` for a fixed configuration, environment and set of
      installed libraries. */
  function CreatorFor(c: Config, env: map<string, string>, pk: Packages): (Provider, Option<string>) -> Attempt<Client>
  {
    (p, m) => Create(p, m, c, env, pk)
  }

  /** `get_llm_client` as written: on `LLMError` it calls itself with the
      fallback provider and model whenever fallback is on and the provider
      it tried is not the fallback provider. `create` is `_create_client`;
      `frames` is the number of nested calls the interpreter's stack still
      allows. */
  function ClientForAsWritten(c: Config, provider: Option<Provider>, model: Option<string>, forVision: bool,
                              create: (Provider, Option<string>) -> Attempt<Client>, frames: nat): (r: Outcome)
    decreases frames
  {
    if frames == 0 then StackExhausted
    else
      var (p, m) := Select(c, provider, model, forVision);
      var a := create(p, m);
      if a.Made? then Created(a.value)
      else if c.fallbackEnabled && Some(p) != c.fallbackProvider then
        ClientForAsWritten(c, c.fallbackProvider, c.fallbackModel, forVision, create, frames - 1)
      else NotCreated(a.error)
  }

  /** With fallback on and no fallback provider, the retry asks for no
      provider, so it tries the configured one again; if that fails, every
      further retry repeats the same call until the stack runs out. */
  lemma {:induction false} RetryRepeats(c: Config, forVision: bool, create: (Provider, Option<string>) -> Attempt<Client>,
                                        frames: nat)
    requires c.fallbackEnabled && c.fallbackProvider.None?
    requires var (p, m) := Select(c, None, c.fallbackModel, forVision); create(p, m).Raised?
    ensures ClientForAsWritten(c, None, c.fallbackModel, forVision, create, frames) == StackExhausted
    decreases frames
  {
    if frames > 0 {
      RetryRepeats(c, forVision, create, frames - 1);
    }
  }

  /** A concrete case: the default configuration without a fallback
      provider, in an environment without the Cornelis endpoint. Creation
      raises, and the as-written factory exhausts the stack instead of
      re-raising the error. */
  lemma FallbackWithoutProviderExhausts(frames: nat)
    ensures var c := Default.(model := Some("cornelis-default"), fallbackProvider := None);
            var create := CreatorFor(c, map[], Packages(true, true));
            ClientForAsWritten(c, None, None, false, create, frames) == StackExhausted
            && ClientFor(c, None, None, false, create)
               == NotCreated(LlmError("CORNELIS_LLM_BASE_URL environment variable not set", Some("cornelis"), None))
  {
    var c := Default.(model := Some("cornelis-default"), fallbackProvider := None);
    var create := CreatorFor(c, map[], Packages(true, true));
    assert Select(c, None, c.fallbackModel, false) == (Cornelis, Some("gpt-4o"));
    assert create(Cornelis, Some("gpt-4o")).Raised?;
    RetryRepeats(c, false, create, frames);
    assert Select(c, None, None, false) == (Cornelis, Some("cornelis-default"));
    assert create(Cornelis, Some("cornelis-default"))
        == Raised(LlmError("CORNELIS_LLM_BASE_URL environment variable not set", Some("cornelis"), None));
    if frames > 0 {
      assert ClientForAsWritten(c, None, None, false, create, frames)
          == ClientForAsWritten(c, None, c.fallbackModel, false, create, frames - 1);
    }
  }

  /** `get_llm_client` as intended: fall back only to a configured fallback
      provider other than the one tried. The retry asks for the fallback
      provider itself, so it never retries again. */
  function ClientFor(c: Config, provider: Option<Provider>, model: Option<string>, forVision: bool,
                     create: (Provider, Option<string>) -> Attempt<Client>): (r: Outcome)
    ensures r.Created? || r.NotCreated?
    ensures var (p, m) := Select(c, provider, model, forVision);
            var first := create(p, m);
            if first.Made? then r == Created(first.value)
            else if c.fallbackEnabled && c.fallbackProvider.Some? && p != c.fallbackProvider.value then
              var (fp, fm) := Select(c, c.fallbackProvider, c.fallbackModel, forVision);
              fp == c.fallbackProvider.value && r == Lift(create(fp, fm))
            else r == NotCreated(first.error)
    decreases if provider.Some? && provider == c.fallbackProvider then 0 else 1
  {
    var (p, m) := Select(c, provider, model, forVision);
    var a := create(p, m);
    if a.Made? then Created(a.value)
    else if c.fallbackEnabled && c.fallbackProvider.Some? && Some(p) != c.fallbackProvider then
      ClientFor(c, c.fallbackProvider, c.fallbackModel, forVision, create)
    else NotCreated(a.error)
  }

  /** With a fallback provider configured, the factory as written and as
      intended agree as soon as the stack allows the one retry. */
  lemma AsWrittenAgrees(c: Config, provider: Option<Provider>, model: Option<string>, forVision: bool,
                        create: (Provider, Option<string>) -> Attempt<Client>, frames: nat)
    requires c.fallbackProvider.Some? && frames >= 2
    ensures ClientForAsWritten(c, provider, model, forVision, create, frames) == ClientFor(c, provider, model, forVision, create)
  {
    var (p, m) := Select(c, provider, model, forVision);
    if !create(p, m).Made? && c.fallbackEnabled && Some(p) != c.fallbackProvider {
      var (fp, fm) := Select(c, c.fallbackProvider, c.fallbackModel, forVision);
      assert Some(fp) == c.fallbackProvider;
      assert ClientForAsWritten(c, c.fallbackProvider, c.fallbackModel, forVision, create, frames - 1)
          == Lift(create(fp, fm));
    }
  }

  /** `config or LLMConfig.from_env()` */
  function Resolve(config: Option<Config>, env: map<string, string>): (c: Config)
    ensures config.Some? ==> c == config.value
    ensures config.None? ==> c == FromEnv(env)
  {
    if config.Some? then config.value else FromEnv(env)
  }

  /** `get_llm_client` (as intended). */
  function GetLlmClient(config: Option<Config>, provider: Option<Provider>, model: Option<string>, forVision: bool,
                        env: map<string, string>, pk: Packages): (r: Outcome)
    ensures r.Created? || r.NotCreated?
    ensures var c := Resolve(config, env);
            r == ClientFor(c, provider, model, forVision, CreatorFor(c, env, pk))
  {
    var c := Resolve(config, env);
    ClientFor(c, provider, model, forVision, CreatorFor(c, env, pk))
  }

  /** `get_vision_client`: the vision provider and model when one is
      configured, exactly the primary client otherwise. */
  function GetVisionClient(config: Option<Config>, env: map<string, string>, pk: Packages): (r: Outcome)
    ensures var c := Resolve(config, env);
            c.visionProvider.Some? && Create(c.visionProvider.value, c.visionModel, c, env, pk).Made? ==>
              r == Created(Create(c.visionProvider.value, c.visionModel, c, env, pk).value)
    ensures var c := Resolve(config, env);
            c.visionProvider.None? ==> r == GetLlmClient(config, None, None, false, env, pk)
  {
    var c := Resolve(config, env);
    VisionSelection(c, CreatorFor(c, env, pk));
    GetLlmClient(config, None, None, true, env, pk)
  }

  /** A vision request uses the vision provider and model when one is
      configured, and is a plain request otherwise. */
  lemma VisionSelection(c: Config, create: (Provider, Option<string>) -> Attempt<Client>)
    ensures c.visionProvider.Some? && create(c.visionProvider.value, c.visionModel).Made? ==>
              ClientFor(c, None, None, true, create) == Created(create(c.visionProvider.value, c.visionModel).value)
    ensures c.visionProvider.None? ==> ClientFor(c, None, None, true, create) == ClientFor(c, None, None, false, create)
  {
  }
}
