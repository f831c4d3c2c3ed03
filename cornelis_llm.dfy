/** The client for the internal OpenAI-compatible endpoint: its
    construction from arguments and environment, the request it sends,
    the vision variant that attaches images to every plain-text user
    message, and which model names count as vision-capable. The endpoint
    itself is the `complete` parameter; the heartbeat thread that waits on
    it is not part of the model. */
module CornelisLlm {
  import opened Common
  import opened LlmBase

  const VisionModels: seq<string> := ["cornelis-vision", "cornelis-multimodal"]
  const VisionPatterns: seq<string> := ["vision", "multimodal", "gpt-4o", "gpt-4-turbo"]

  const Provider: string := "cornelis"

  /** A constructed client: its model, endpoint and key, and the extra
      keyword options it keeps as its config. */
  datatype Client = Client(model: string, baseUrl: string, apiKey: string, options: map<string, Json>)

  /** The model a new client uses: the argument when truthy, else the
      `CORNELIS_LLM_MODEL` variable, else `cornelis-default`. */
  function ModelName(model: Option<string>, env: map<string, string>): (m: string)
    ensures IsSet(model) ==> m == model.value
    ensures !IsSet(model) && "CORNELIS_LLM_MODEL" !in env ==> m == "cornelis-default"
  {
    if IsSet(model) then model.value else GetenvOr(env, "CORNELIS_LLM_MODEL", "cornelis-default")
  }

  /** `CornelisLLM(...)`: the base URL and key come from the arguments or
      else the environment; the client library must be installed, and a
      missing URL is reported before a missing key. */
  function New(model: Option<string>, baseUrl: Option<string>, apiKey: Option<string>, options: map<string, Json>,
               env: map<string, string>, installed: bool): (r: Attempt<Client>)
    ensures r.Made? <==> installed && IsSet(OrStr(baseUrl, Getenv(env, "CORNELIS_LLM_BASE_URL")))
                                   && IsSet(OrStr(apiKey, Getenv(env, "CORNELIS_LLM_API_KEY")))
    ensures r.Raised? ==> r.error.provider == Some(Provider) && r.error.statusCode == None
    ensures !installed ==> r.error.message == "openai package required for CornelisLLM. Run: pip install openai"
    ensures installed && !IsSet(OrStr(baseUrl, Getenv(env, "CORNELIS_LLM_BASE_URL"))) ==>
              r.error.message == "CORNELIS_LLM_BASE_URL environment variable not set"
    ensures installed && IsSet(OrStr(baseUrl, Getenv(env, "CORNELIS_LLM_BASE_URL")))
            && !IsSet(OrStr(apiKey, Getenv(env, "CORNELIS_LLM_API_KEY"))) ==>
              r.error.message == "CORNELIS_LLM_API_KEY environment variable not set"
    ensures r.Made? ==> r.value.model == ModelName(model, env) && r.value.options == options
                        && Some(r.value.baseUrl) == OrStr(baseUrl, Getenv(env, "CORNELIS_LLM_BASE_URL"))
                        && Some(r.value.apiKey) == OrStr(apiKey, Getenv(env, "CORNELIS_LLM_API_KEY"))
  {
    var url := OrStr(baseUrl, Getenv(env, "CORNELIS_LLM_BASE_URL"));
    var key := OrStr(apiKey, Getenv(env, "CORNELIS_LLM_API_KEY"));
    if !installed then
      Raised(LlmError("openai package required for CornelisLLM. Run: pip install openai", Some(Provider), None))
    else if !IsSet(url) then
      Raised(LlmError("CORNELIS_LLM_BASE_URL environment variable not set", Some(Provider), None))
    else if !IsSet(key) then
      Raised(LlmError("CORNELIS_LLM_API_KEY environment variable not set", Some(Provider), None))
    else Made(Client(ModelName(model, env), url.value, key.value, options))
  }

  /** Explicit, non-empty arguments win over the environment, whatever it
      holds. */
  lemma ArgumentsOverrideEnvironment(model: string, baseUrl: string, apiKey: string, options: map<string, Json>,
                                     env: map<string, string>)
    requires model != [] && baseUrl != [] && apiKey != []
    ensures New(Some(model), Some(baseUrl), Some(apiKey), options, env, true) == Made(Client(model, baseUrl, apiKey, options))
  {
  }

  /** The request: the core parameters with the client's model, then the
      caller's keyword arguments, which override any of them. */
  function Params(c: Client, messages: seq<Json>, temperature: Json, maxTokens: Option<int>,
                  kwargs: map<string, Json>): (p: map<string, Json>)
    ensures forall k :: k in kwargs ==> k in p && p[k] == kwargs[k]
    ensures "model" in p && ("model" !in kwargs ==> p["model"] == JStr(c.model))
    ensures "messages" in p && ("messages" !in kwargs ==> p["messages"] == JList(messages))
    ensures "max_tokens" in p <==> (maxTokens.Some? && maxTokens.value != 0) || "max_tokens" in kwargs
    ensures forall k :: k in p <==> k in kwargs || k in CoreParams(JStr(c.model), messages, temperature, maxTokens)
  {
    CoreParams(JStr(c.model), messages, temperature, maxTokens) + kwargs
  }

  /** `chat`: the messages are validated before anything is sent (a
      `ValueError` is not turned into an `LLMError`), then sent as their
      dicts. */
  function Chat(c: Client, ms: seq<Message>, temperature: Json, maxTokens: Option<int>, kwargs: map<string, Json>,
                complete: Completion): (r: ChatOutcome)
    ensures ValidateMessages(ms).Some? ==> r == Rejected(ValidateMessages(ms).value)
    ensures ValidateMessages(ms).None? ==>
              r == Answer(complete(Params(c, ApiMessages(ms), temperature, maxTokens, kwargs)), Provider)
    ensures r.Responded? || r.Rejected? || r.Failed?
  {
    var invalid := ValidateMessages(ms);
    if invalid.Some? then Rejected(invalid.value)
    else Answer(complete(Params(c, ApiMessages(ms), temperature, maxTokens, kwargs)), Provider)
  }

  /** `supports_vision`: a listed vision model, or a name whose lower-case
      form contains one of the vision patterns. */
  function SupportsVision(model: string): bool
  {
    model in VisionModels || AnyIn(VisionPatterns, Lower(model))
  }

  /** The listed models all match a pattern, so the list decides nothing
      the patterns do not. */
  lemma VisionByPattern(model: string)
    ensures SupportsVision(model) == AnyIn(VisionPatterns, Lower(model))
  {
    ListedMatch(model);
  }

  lemma ListedMatch(model: string)
    ensures model in VisionModels ==> AnyIn(VisionPatterns, Lower(model))
  {
    if model == VisionModels[0] {
      Found(model, VisionPatterns, 0, 9);
    } else if model == VisionModels[1] {
      Found(model, VisionPatterns, 1, 9);
    } else {
      assert model !in VisionModels;
    }
  }

  /** A name in lower case that holds pattern `k` at `at` matches. */
  lemma Found(model: string, patterns: seq<string>, k: nat, at: nat)
    requires forall i :: 0 <= i < |model| ==> !IsUpper(model[i])
    requires k < |patterns| && at + |patterns[k]| <= |model| && model[at..at + |patterns[k]|] == patterns[k]
    ensures AnyIn(patterns, Lower(model))
  {
    LowerFixed(model);
    ContainsAt(model, patterns[k], at);
    AnyInAt(patterns, Lower(model), k);
  }

  /** A message as a vision request sends it: every plain-text user message
      carries the text and all the images; any other message is sent as
      its dict. */
  function VisionMessage(m: Message, images: seq<string>): Json
  {
    if IsTextUser(m) then Multimodal(m.content.text, images) else JObj(ToDict(m))
  }

  function VisionMessages(ms: seq<Message>, images: seq<string>): (api: seq<Json>)
    ensures |api| == |ms|
  {
    seq(|ms|, i requires 0 <= i < |ms| => VisionMessage(ms[i], images))
  }

  /** A message is changed by the conversion exactly when it is a
      plain-text user message: every such message, not only the last,
      carries the images. */
  lemma VisionMessagesChange(ms: seq<Message>, images: seq<string>, i: nat)
    requires i < |ms|
    ensures VisionMessages(ms, images)[i] != JObj(ToDict(ms[i])) <==> IsTextUser(ms[i])
    ensures IsTextUser(ms[i]) ==> VisionMessages(ms, images)[i] == Multimodal(ms[i].content.text, images)
  {
    if IsTextUser(ms[i]) {
      MultimodalDiffers(ms[i], images);
    }
  }

  /** `chat_with_vision`: a model without vision support is refused before
      the messages are validated; then each message is converted in turn
      and the request is sent. */
  method ChatWithVision(c: Client, ms: seq<Message>, images: seq<string>, temperature: Json, maxTokens: Option<int>,
                        kwargs: map<string, Json>, complete: Completion) returns (r: ChatOutcome)
    ensures !SupportsVision(c.model) ==> r == VisionUnsupported(c.model)
    ensures SupportsVision(c.model) && ValidateMessages(ms).Some? ==> r == Rejected(ValidateMessages(ms).value)
    ensures SupportsVision(c.model) && ValidateMessages(ms).None? ==>
              r == Answer(complete(Params(c, VisionMessages(ms, images), temperature, maxTokens, kwargs)), Provider)
  {
    if !SupportsVision(c.model) {
      return VisionUnsupported(c.model);
    }
    var invalid := ValidateMessages(ms);
    if invalid.Some? {
      return Rejected(invalid.value);
    }
    var api := ConvertAll(ms, images);
    r := Answer(complete(Params(c, api, temperature, maxTokens, kwargs)), Provider);
  }

  /** The conversion loop of `chat_with_vision`. */
  method ConvertAll(ms: seq<Message>, images: seq<string>) returns (api: seq<Json>)
    ensures api == VisionMessages(ms, images)
  {
    api := [];
    var i := 0;
    while i < |ms|
      invariant 0 <= i <= |ms|
      invariant api == VisionMessages(ms, images)[..i]
    {
      if ms[i].role == "user" && ms[i].content.Text? {
        var parts := ContentParts(ms[i].content.text, images);
        api := api + [JObj(map["role" := JStr("user"), "content" := JList(parts)])];
      } else {
        api := api + [JObj(ToDict(ms[i]))];
      }
      i := i + 1;
    }
  }
}
