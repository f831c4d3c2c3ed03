/** The client for external providers through the LiteLLM library: its
    construction, the request it sends (with the optional key and base
    URL), the vision variant that attaches images to the first plain-text
    user message only, vision support by model name, and the provider a
    model name belongs to. The library call is the `complete` parameter. */
module LiteLlmClient {
  import opened Common
  import opened LlmBase

  const VisionModels: seq<string> := [
    "gpt-4o", "gpt-4o-mini", "gpt-4-turbo", "gpt-4-vision-preview",
    "claude-3-opus-20240229", "claude-3-sonnet-20240229", "claude-3-haiku-20240307", "claude-3-5-sonnet-20241022",
    "gemini-pro-vision", "gemini-1.5-pro", "gemini-1.5-flash"]
  const VisionPatterns: seq<string> := ["vision", "gpt-4o", "gpt-4-turbo", "claude-3", "gemini-1.5"]

  const Provider: string := "litellm"

  /** A constructed client. The model is whatever the caller passed, so it
      may be `None`. */
  datatype Client = Client(model: Option<string>, apiKey: Option<string>, apiBase: Option<string>,
                           options: map<string, Json>)

  /** `LiteLLMClient(...)`: only a missing library makes construction fail. */
  function New(model: Option<string>, apiKey: Option<string>, apiBase: Option<string>, options: map<string, Json>,
               installed: bool): (r: Attempt<Client>)
    ensures r.Made? <==> installed
    ensures r.Raised? ==> r.error == LlmError("litellm package required. Run: pip install litellm", Some(Provider), None)
    ensures r.Made? ==> r.value.model == model && r.value.apiKey == apiKey && r.value.apiBase == apiBase
                        && r.value.options == options
  {
    if !installed then Raised(LlmError("litellm package required. Run: pip install litellm", Some(Provider), None))
    else Made(Client(model, apiKey, apiBase, options))
  }

  function ModelJson(model: Option<string>): Json
  {
    if model.Some? then JStr(model.value) else JNull
  }

  /** The key and base URL, each only when truthy. */
  function Credentials(c: Client): (m: map<string, Json>)
    ensures "api_key" in m <==> IsSet(c.apiKey)
    ensures "api_base" in m <==> IsSet(c.apiBase)
    ensures "api_key" in m ==> m["api_key"] == JStr(c.apiKey.value)
    ensures "api_base" in m ==> m["api_base"] == JStr(c.apiBase.value)
    ensures forall k :: k in m ==> k == "api_key" || k == "api_base"
  {
    var withKey: map<string, Json> := if IsSet(c.apiKey) then map["api_key" := JStr(c.apiKey.value)] else map[];
    if IsSet(c.apiBase) then withKey["api_base" := JStr(c.apiBase.value)] else withKey
  }

  /** The request: the core parameters, the credentials, then the caller's
      keyword arguments, which override any of them. */
  function Params(c: Client, messages: seq<Json>, temperature: Json, maxTokens: Option<int>,
                  kwargs: map<string, Json>): (p: map<string, Json>)
    ensures forall k :: k in kwargs ==> k in p && p[k] == kwargs[k]
    ensures "model" in p && ("model" !in kwargs ==> p["model"] == ModelJson(c.model))
    ensures "messages" in p && ("messages" !in kwargs ==> p["messages"] == JList(messages))
    ensures "max_tokens" in p <==> (maxTokens.Some? && maxTokens.value != 0) || "max_tokens" in kwargs
    ensures "api_key" in p <==> IsSet(c.apiKey) || "api_key" in kwargs
    ensures "api_key" in p && "api_key" !in kwargs ==> p["api_key"] == JStr(c.apiKey.value)
    ensures "api_base" in p <==> IsSet(c.apiBase) || "api_base" in kwargs
    ensures "api_base" in p && "api_base" !in kwargs ==> p["api_base"] == JStr(c.apiBase.value)
  {
    CoreParams(ModelJson(c.model), messages, temperature, maxTokens) + Credentials(c) + kwargs
  }

  /** `chat`: validation first (its `ValueError` is not converted), then
      the request with the messages as their dicts. */
  function Chat(c: Client, ms: seq<Message>, temperature: Json, maxTokens: Option<int>, kwargs: map<string, Json>,
                complete: Completion): (r: ChatOutcome)
    ensures ValidateMessages(ms).Some? ==> r == Rejected(ValidateMessages(ms).value)
    ensures ValidateMessages(ms).None? ==>
              r == Answer(complete(Params(c, ApiMessages(ms), temperature, maxTokens, kwargs)), Provider)
    ensures r.Responded? || r.Rejected? || r.Failed?
  {
    var invalid := ValidateMessages(ms);
    if invalid.Some? then Rejected(invalid.value)
    else Answer(complete(Params(c, ApiMessages(ms), temperature, maxTokens, kwargs)), Provider)
  }

  /** `supports_vision`: a listed model, or a name whose lower-case form
      contains a vision pattern; a client without a model name raises
      `AttributeError` on `.lower()`. */
  function SupportsVision(model: Option<string>): (r: Result<bool>)
    ensures r.Err? <==> model.None?
  {
    if model.None? then Err("AttributeError: 'NoneType' object has no attribute 'lower'")
    else Ok(model.value in VisionModels || AnyIn(VisionPatterns, Lower(model.value)))
  }

  /** Every listed model matches a pattern, so the list decides nothing
      the patterns do not. */
  lemma VisionByPattern(model: string)
    ensures SupportsVision(Some(model)) == Ok(AnyIn(VisionPatterns, Lower(model)))
  {
    ListedMatch(model);
  }

  lemma ListedMatch(model: string)
    ensures model in VisionModels ==> AnyIn(VisionPatterns, Lower(model))
  {
    if model in VisionModels {
      var i :| 0 <= i < |VisionModels| && VisionModels[i] == model;
      ListedMatchAt(i);
    }
  }

  lemma ListedMatchAt(i: nat)
    requires i < |VisionModels|
    ensures AnyIn(VisionPatterns, Lower(VisionModels[i]))
  {
    if i < 4 {
      OpenAiListed(i);
    } else if i < 8 {
      AnthropicListed(i);
    } else {
      GoogleListed(i);
    }
  }

  lemma OpenAiListed(i: nat)
    requires i < 4
    ensures AnyIn(VisionPatterns, Lower(VisionModels[i]))
  {
    if i <= 1 {
      Found(VisionModels[i], VisionPatterns, 1, 0);
    } else if i == 2 {
      Found(VisionModels[i], VisionPatterns, 2, 0);
    } else {
      Found(VisionModels[i], VisionPatterns, 0, 6);
    }
  }

  lemma AnthropicListed(i: nat)
    requires 4 <= i < 8
    ensures AnyIn(VisionPatterns, Lower(VisionModels[i]))
  {
    Found(VisionModels[i], VisionPatterns, 3, 0);
  }

  lemma GoogleListed(i: nat)
    requires 8 <= i < 11
    ensures AnyIn(VisionPatterns, Lower(VisionModels[i]))
  {
    if i == 8 {
      Found(VisionModels[i], VisionPatterns, 0, 11);
    } else {
      Found(VisionModels[i], VisionPatterns, 4, 0);
    }
  }

  /** A name in lower case that holds pattern `k` at `at` matches. */
  lemma Found(model: string, patterns: seq<string>, k: nat, at: nat)
    requires forall i :: 0 <= i < |model| ==> !IsUpper(model[i])
    requires k < |patterns| && at + |patterns[k]| <= |model| && model[at..at + |patterns[k]|] == patterns[k]
    ensures AnyIn(patterns, Lower(model))
  {
    LowerFixed(model);
    ContainsAt(model, patterns[k], at);
    AnyInAt(patterns, Lower(model), k);
  }

  /** The index of the first plain-text user message. */
  function FirstTextUser(ms: seq<Message>): (r: Option<nat>)
    ensures r.Some? ==> r.value < |ms| && IsTextUser(ms[r.value])
    ensures forall j :: 0 <= j < |ms| && (r.None? || j < r.value) ==> !IsTextUser(ms[j])
  {
    if ms == [] then None
    else if IsTextUser(ms[0]) then Some(0)
    else
      var rest := FirstTextUser(ms[1..]);
      if rest.Some? then Some(rest.value + 1) else None
  }

  /** The messages of a vision request: the first plain-text user message
      carries the images, every other message is sent as its dict. */
  function VisionMessages(ms: seq<Message>, images: seq<string>): (api: seq<Json>)
    ensures |api| == |ms|
  {
    seq(|ms|, i requires 0 <= i < |ms| =>
      if FirstTextUser(ms) == Some(i) then Multimodal(ms[i].content.text, images) else JObj(ToDict(ms[i])))
  }

  /** Exactly one message changes, the first plain-text user one, and
      none when there is no such message. */
  lemma VisionMessagesChange(ms: seq<Message>, images: seq<string>, i: nat)
    requires i < |ms|
    ensures VisionMessages(ms, images)[i] != JObj(ToDict(ms[i])) <==> FirstTextUser(ms) == Some(i)
  {
    if FirstTextUser(ms) == Some(i) {
      MultimodalDiffers(ms[i], images);
    }
  }

  /** `chat_with_vision`: the vision check first (raising for a client
      without a model name), then validation, then the conversion and the
      request. */
  method ChatWithVision(c: Client, ms: seq<Message>, images: seq<string>, temperature: Json, maxTokens: Option<int>,
                        kwargs: map<string, Json>, complete: Completion) returns (r: ChatOutcome)
    ensures SupportsVision(c.model).Err? ==> r == Crashed(SupportsVision(c.model).msg)
    ensures SupportsVision(c.model) == Ok(false) ==> r == VisionUnsupported(c.model.value)
    ensures SupportsVision(c.model) == Ok(true) && ValidateMessages(ms).Some? ==> r == Rejected(ValidateMessages(ms).value)
    ensures SupportsVision(c.model) == Ok(true) && ValidateMessages(ms).None? ==>
              r == Answer(complete(Params(c, VisionMessages(ms, images), temperature, maxTokens, kwargs)), Provider)
  {
    var vision := SupportsVision(c.model);
    if vision.Err? {
      return Crashed(vision.msg);
    }
    if !vision.value {
      return VisionUnsupported(c.model.value);
    }
    var invalid := ValidateMessages(ms);
    if invalid.Some? {
      return Rejected(invalid.value);
    }
    var api := ConvertFirst(ms, images);
    r := Answer(complete(Params(c, api, temperature, maxTokens, kwargs)), Provider);
  }

  /** The conversion loop of `chat_with_vision`, with its `images_added`
      flag. */
  method ConvertFirst(ms: seq<Message>, images: seq<string>) returns (api: seq<Json>)
    ensures api == VisionMessages(ms, images)
  {
    api := [];
    var imagesAdded := false;
    var i := 0;
    while i < |ms|
      invariant 0 <= i <= |ms|
      invariant api == VisionMessages(ms, images)[..i]
      invariant imagesAdded <==> FirstTextUser(ms).Some? && FirstTextUser(ms).value < i
    {
      if ms[i].role == "user" && ms[i].content.Text? && !imagesAdded {
        var parts := ContentParts(ms[i].content.text, images);
        api := api + [JObj(map["role" := JStr("user"), "content" := JList(parts)])];
        imagesAdded := true;
      } else {
        api := api + [JObj(ToDict(ms[i]))];
      }
      i := i + 1;
    }
  }

  /** `get_provider`: the provider named by the model's lower-case prefix. */
  function GetProvider(model: string): (r: string)
  {
    ProviderOf(Lower(model))
  }

  /** The prefix checks of `get_provider`, on the lower-cased name. */
  function ProviderOf(m: string): (r: string)
  {
    if StartsWith(m, "gpt") || StartsWith(m, "o1") then "openai"
    else if StartsWith(m, "claude") then "anthropic"
    else if StartsWith(m, "gemini") then "google"
    else if StartsWith(m, "mistral") then "mistral"
    else if StartsWith(m, "llama") then "meta"
    else "unknown"
  }

  /** The known prefixes exclude one another, so each provider is named
      exactly when its prefix is present, whatever the order of the
      checks. */
  lemma ProviderOfSpec(m: string)
    ensures ProviderOf(m) == "openai" <==> StartsWith(m, "gpt") || StartsWith(m, "o1")
    ensures ProviderOf(m) == "anthropic" <==> StartsWith(m, "claude")
    ensures ProviderOf(m) == "google" <==> StartsWith(m, "gemini")
    ensures ProviderOf(m) == "mistral" <==> StartsWith(m, "mistral")
    ensures ProviderOf(m) == "meta" <==> StartsWith(m, "llama")
  {
    if StartsWith(m, "gpt") { assert m[1] == 'p'; }
    if StartsWith(m, "o1") { assert m[0] == 'o'; }
    if StartsWith(m, "claude") { assert m[0] == 'c'; }
    if StartsWith(m, "gemini") { assert m[0] == 'g' && m[1] == 'e'; }
    if StartsWith(m, "mistral") { assert m[0] == 'm'; }
    if StartsWith(m, "llama") { assert m[0] == 'l'; }
  }

  /** The provider does not depend on the model name's case. */
  lemma GetProviderIgnoresCase(model: string)
    ensures GetProvider(Upper(model)) == GetProvider(model)
    ensures GetProvider(Lower(model)) == GetProvider(model)
  {
    LowerUpper(model);
    LowerFixed(Lower(model));
    assert Lower(Lower(model)) == Lower(model);
  }
}
