/** The provider-neutral LLM vocabulary: chat messages (plain or multimodal),
    responses with token usage, the message-list validation every client runs
    before a call, and the text of an `LLMError`. */
module LlmBase {
  import opened Common

  /** A message body: plain text, or a list of content parts (text and
      image parts, each a JSON object). */
  datatype Content = Text(text: string) | Parts(parts: seq<Json>)

  datatype Message = Message(role: string, content: Content)

  /** Python truthiness of a message body: the empty string and the empty
      part list are false. */
  predicate ContentTruthy(c: Content)
  {
    match c
    case Text(t) => t != []
    case Parts(ps) => ps != []
  }

  function ContentJson(c: Content): (j: Json)
    ensures c.Text? ==> j == JStr(c.text)
    ensures c.Parts? ==> j == JList(c.parts)
    ensures Truthy(j) <==> ContentTruthy(c)
  {
    match c
    case Text(t) => JStr(t)
    case Parts(ps) => JList(ps)
  }

  /** `Message.to_dict`: the API form keeps role and content unchanged. */
  function ToDict(m: Message): (d: map<string, Json>)
    ensures d.Keys == {"role", "content"}
    ensures d["role"] == JStr(m.role) && d["content"] == ContentJson(m.content)
  {
    map["role" := JStr(m.role), "content" := ContentJson(m.content)]
  }

  function System(content: string): (m: Message)
    ensures m.role == "system" && m.content == Text(content)
  {
    Message("system", Text(content))
  }

  function User(content: string): (m: Message)
    ensures m.role == "user" && m.content == Text(content)
  {
    Message("user", Text(content))
  }

  function Assistant(content: string): (m: Message)
    ensures m.role == "assistant" && m.content == Text(content)
  {
    Message("assistant", Text(content))
  }

  function TextPart(text: string): Json
  {
    JObj(map["type" := JStr("text"), "text" := JStr(text)])
  }

  function ImagePart(url: string): Json
  {
    JObj(map["type" := JStr("image_url"), "image_url" := JObj(map["url" := JStr(url)])])
  }

  /** `Message.user_with_image`: a user message whose parts are the text
      part followed by one image part. */
  function UserWithImage(text: string, url: string): (m: Message)
    ensures m.role == "user"
    ensures m.content == Parts([TextPart(text), ImagePart(url)])
  {
    Message("user", Parts([TextPart(text), ImagePart(url)]))
  }

  // ---------------------------------------------------------------------
  // Validation
  // ---------------------------------------------------------------------

  predicate ValidRole(role: string)
  {
    role == "system" || role == "user" || role == "assistant"
  }

  predicate ValidMessage(m: Message)
  {
    ValidRole(m.role) && ContentTruthy(m.content)
  }

  /** The `ValueError`s `validate_messages` raises. */
  datatype Invalid =
    | EmptyList
    | BadRole(index: nat, role: string)
    | EmptyContent(index: nat)

  /** The first invalid message at or after index `i`, checking the role
      before the content of each message. */
  function FirstInvalid(ms: seq<Message>, i: nat): (r: Option<Invalid>)
    requires i <= |ms|
    decreases |ms| - i
    ensures r.None? <==> forall j :: i <= j < |ms| ==> ValidMessage(ms[j])
    ensures r.Some? ==> (r.value.BadRole? || r.value.EmptyContent?)
    ensures r.Some? && r.value.BadRole? ==>
      i <= r.value.index < |ms| && r.value.role == ms[r.value.index].role && !ValidRole(r.value.role)
    ensures r.Some? && r.value.EmptyContent? ==>
      i <= r.value.index < |ms| && ValidRole(ms[r.value.index].role) && !ContentTruthy(ms[r.value.index].content)
    ensures r.Some? ==> forall j :: i <= j < r.value.index ==> ValidMessage(ms[j])
  {
    if i == |ms| then None
    else if !ValidRole(ms[i].role) then Some(BadRole(i, ms[i].role))
    else if !ContentTruthy(ms[i].content) then Some(EmptyContent(i))
    else FirstInvalid(ms, i + 1)
  }

  /** `BaseLLM.validate_messages`: `None` when the call returns, otherwise
      the error it raises. */
  function ValidateMessages(ms: seq<Message>): (r: Option<Invalid>)
    ensures ms == [] ==> r == Some(EmptyList)
    ensures r.None? <==> ms != [] && forall j :: 0 <= j < |ms| ==> ValidMessage(ms[j])
  {
    if ms == [] then Some(EmptyList) else FirstInvalid(ms, 0)
  }

  /** Messages built by the role constructors from non-empty text pass
      validation, in any order. */
  lemma {:induction false} ConstructedValid(texts: seq<string>, kinds: seq<nat>)
    requires |texts| == |kinds| > 0
    requires forall j :: 0 <= j < |texts| ==> texts[j] != []
    ensures ValidateMessages(seq(|texts|, j requires 0 <= j < |texts| =>
      if kinds[j] % 3 == 0 then System(texts[j])
      else if kinds[j] % 3 == 1 then User(texts[j])
      else Assistant(texts[j]))).None?
  {
  }

  /** A multimodal user message is valid: its part list is never empty. */
  lemma UserWithImageValid(text: string, url: string)
    ensures ValidMessage(UserWithImage(text, url))
  {
  }

  /** The reported error always names a message that really is invalid,
      and every message before it is valid. */
  lemma ValidateFirst(ms: seq<Message>, k: nat)
    requires ValidateMessages(ms).Some? && !ValidateMessages(ms).value.EmptyList?
    requires k == ValidateMessages(ms).value.index
    ensures k < |ms| && !ValidMessage(ms[k])
    ensures forall j :: 0 <= j < k ==> ValidMessage(ms[j])
  {
  }

  // ---------------------------------------------------------------------
  // Responses and errors
  // ---------------------------------------------------------------------

  datatype LlmResponse = LlmResponse(
    content: string,
    model: string,
    usage: map<string, int>,
    finishReason: Option<string>)

  /** `usage.get(key, 0)` */
  function TokenCount(usage: map<string, int>, key: string): (n: int)
    ensures key !in usage ==> n == 0
    ensures key in usage ==> n == usage[key]
  {
    if key in usage then usage[key] else 0
  }

  function PromptTokens(r: LlmResponse): int { TokenCount(r.usage, "prompt_tokens") }
  function CompletionTokens(r: LlmResponse): int { TokenCount(r.usage, "completion_tokens") }
  function TotalTokens(r: LlmResponse): int { TokenCount(r.usage, "total_tokens") }

  /** A response without usage reports zero tokens of every kind. */
  lemma NoUsageNoTokens(r: LlmResponse)
    requires r.usage == map[]
    ensures PromptTokens(r) == 0 && CompletionTokens(r) == 0 && TotalTokens(r) == 0
  {
  }

  /** An `LLMError`; a provider or status of `None` is `None` here, and the
      falsy values `""` and `0` behave as Python treats them. */
  datatype LlmError = LlmError(message: string, provider: Option<string>, statusCode: Option<int>)

  predicate HasProvider(e: LlmError) { e.provider.Some? && e.provider.value != [] }
  predicate HasStatus(e: LlmError) { e.statusCode.Some? && e.statusCode.value != 0 }

  /** The parts `__str__` joins: the provider tag, the message, the status. */
  function ErrorParts(e: LlmError): seq<string>
  {
    (if HasProvider(e) then ["[" + e.provider.value + "]"] else [])
    + [e.message]
    + (if HasStatus(e) then ["(status=" + Common.Text(JInt(e.statusCode.value)) + ")"] else [])
  }

  /** `LLMError.__str__` */
  function ErrorText(e: LlmError): string
  {
    Join(ErrorParts(e), " ")
  }

  /** The text of an error is its message, preceded by `[provider] ` when a
      provider is set and followed by ` (status=N)` when a status is set. */
  lemma ErrorTextSpec(e: LlmError)
    ensures ErrorText(e) == (if HasProvider(e) then "[" + e.provider.value + "] " else "")
                          + e.message
                          + (if HasStatus(e) then " (status=" + Common.Text(JInt(e.statusCode.value)) + ")" else "")
  {
    var parts := ErrorParts(e);
    var pre: seq<string> := if HasProvider(e) then ["[" + e.provider.value + "]"] else [];
    var post: seq<string> := if HasStatus(e) then ["(status=" + Common.Text(JInt(e.statusCode.value)) + ")"] else [];
    assert parts == pre + [e.message] + post;
    if pre == [] && post == [] {
      assert parts == [e.message];
    } else if pre == [] {
      assert parts == [e.message, post[0]];
      assert Join(parts[1..], " ") == post[0];
    } else if post == [] {
      assert parts == [pre[0], e.message];
      assert Join(parts[1..], " ") == e.message;
    } else {
      assert parts == [pre[0], e.message, post[0]];
      assert parts[1..][1..] == [post[0]];
      assert Join(parts[1..][1..], " ") == post[0];
    }
  }

  /** An error with neither a provider nor a status reads as its message. */
  lemma PlainError(m: string)
    ensures ErrorText(LlmError(m, None, None)) == m
  {
    ErrorTextSpec(LlmError(m, None, None));
  }

  // ---------------------------------------------------------------------
  // What both clients share: request parameters, the multimodal message
  // shape, and reading a completion
  // ---------------------------------------------------------------------

  /** A client constructor's outcome: the client, or the `LLMError` raised. */
  datatype Attempt<T> = Made(value: T) | Raised(error: LlmError)

  /** The first choice of a completion: its text (possibly absent) and why
      generation stopped. */
  datatype Choice = Choice(content: Option<string>, finishReason: Option<string>)

  datatype Usage = Usage(promptTokens: int, completionTokens: int, totalTokens: int)

  /** A completion endpoint's answer. */
  datatype ApiResponse = ApiResponse(choices: seq<Choice>, model: string, usage: Option<Usage>)

  /** A completion call: from the request parameters to the answer, or to
      the text of the exception the endpoint raised. */
  type Completion = map<string, Json> -> Result<ApiResponse>

  /** What a client's `chat` or `chat_with_vision` call ends in. */
  datatype ChatOutcome =
    | Responded(response: LlmResponse)
    | Rejected(invalid: Invalid)            // ValueError from validate_messages
    | VisionUnsupported(model: string)      // NotImplementedError
    | Crashed(message: string)              // any other exception
    | Failed(error: LlmError)

  /** `msg.to_dict()` for every message, as the JSON the request carries. */
  function ApiMessages(ms: seq<Message>): (api: seq<Json>)
    ensures |api| == |ms|
    ensures forall i :: 0 <= i < |ms| ==> api[i] == JObj(ToDict(ms[i]))
  {
    seq(|ms|, i requires 0 <= i < |ms| => JObj(ToDict(ms[i])))
  }

  /** The parameters every request starts from: model, messages and
      temperature, and `max_tokens` only when it is truthy. The
      temperature (a float) is carried as the JSON value the caller gives. */
  function CoreParams(model: Json, messages: seq<Json>, temperature: Json, maxTokens: Option<int>): (p: map<string, Json>)
    ensures "model" in p && p["model"] == model
    ensures "messages" in p && p["messages"] == JList(messages)
    ensures "temperature" in p && p["temperature"] == temperature
    ensures "max_tokens" in p <==> maxTokens.Some? && maxTokens.value != 0
    ensures "max_tokens" in p ==> p["max_tokens"] == JInt(maxTokens.value)
    ensures forall k :: k in p ==> k in {"model", "messages", "temperature", "max_tokens"}
  {
    var base := map["model" := model, "messages" := JList(messages), "temperature" := temperature];
    if maxTokens.Some? && maxTokens.value != 0 then base["max_tokens" := JInt(maxTokens.value)] else base
  }

  /** The image parts of a multimodal message, one per image, in order. */
  function ImageParts(images: seq<string>): (ps: seq<Json>)
    ensures |ps| == |images|
  {
    if images == [] then [] else ImageParts(images[..|images| - 1]) + [ImagePart(images[|images| - 1])]
  }

  lemma {:induction false} ImagePartsAt(images: seq<string>)
    ensures forall i :: 0 <= i < |images| ==> ImageParts(images)[i] == ImagePart(images[i])
  {
    if images != [] {
      ImagePartsAt(images[..|images| - 1]);
    }
  }

  /** The message shape a vision request gives a plain-text user message. */
  function Multimodal(text: string, images: seq<string>): Json
  {
    JObj(map["role" := JStr("user"), "content" := JList([TextPart(text)] + ImageParts(images))])
  }

  /** A user message with plain-text content: the kind a vision request
      may attach images to. */
  predicate IsTextUser(m: Message) { m.role == "user" && m.content.Text? }

  /** Converting a plain-text user message always changes it: its content
      becomes a part list. */
  lemma MultimodalDiffers(m: Message, images: seq<string>)
    requires IsTextUser(m)
    ensures Multimodal(m.content.text, images) != JObj(ToDict(m))
  {
    assert Multimodal(m.content.text, images).fields["content"].JList?;
    assert JObj(ToDict(m)).fields["content"].JStr?;
  }

  /** The text part followed by one image part per image, built by
      appending as the clients do. */
  method ContentParts(text: string, images: seq<string>) returns (parts: seq<Json>)
    ensures parts == [TextPart(text)] + ImageParts(images)
  {
    parts := [TextPart(text)];
    var i := 0;
    while i < |images|
      invariant 0 <= i <= |images|
      invariant parts == [TextPart(text)] + ImageParts(images[..i])
    {
      assert images[..i + 1][..i] == images[..i];
      parts := parts + [ImagePart(images[i])];
      i := i + 1;
    }
    assert images[..i] == images;
  }

  /** The usage dict a client builds: empty without usage, else the three
      counts. */
  function UsageMap(u: Option<Usage>): (m: map<string, int>)
    ensures u.None? ==> m == map[]
    ensures u.Some? ==> m.Keys == {"prompt_tokens", "completion_tokens", "total_tokens"}
  {
    if u.None? then map[]
    else map["prompt_tokens" := u.value.promptTokens, "completion_tokens" := u.value.completionTokens,
             "total_tokens" := u.value.totalTokens]
  }

  /** Reading a completion inside the client's `try`: the first choice's
      text (`''` when absent), the answering model, the usage; an endpoint
      exception, and the `IndexError` of an answer without choices, become
      an `LLMError` tagged with the client's provider. */
  function Answer(r: Result<ApiResponse>, provider: string): (c: ChatOutcome)
    ensures c.Responded? || c.Failed?
    ensures c.Responded? <==> r.Ok? && r.value.choices != []
    ensures c.Failed? ==> c.error.provider == Some(provider) && c.error.statusCode == None
    ensures r.Err? ==> c == Failed(LlmError(r.msg, Some(provider), None))
    ensures c.Responded? ==> c.response.model == r.value.model
                             && c.response.finishReason == r.value.choices[0].finishReason
                             && c.response.content == (if r.value.choices[0].content.Some? then r.value.choices[0].content.value else "")
  {
    if r.Err? then Failed(LlmError(r.msg, Some(provider), None))
    else if r.value.choices == [] then Failed(LlmError("list index out of range", Some(provider), None))
    else
      var choice := r.value.choices[0];
      Responded(LlmResponse(if choice.content.Some? then choice.content.value else "", r.value.model,
                            UsageMap(r.value.usage), choice.finishReason))
  }

  /** The token accessors of an answered call report the endpoint's usage,
      and zero when it reported none. */
  lemma AnswerTokens(r: Result<ApiResponse>, provider: string)
    requires Answer(r, provider).Responded?
    ensures var resp := Answer(r, provider).response;
            if r.value.usage.Some?
            then PromptTokens(resp) == r.value.usage.value.promptTokens
                 && CompletionTokens(resp) == r.value.usage.value.completionTokens
                 && TotalTokens(resp) == r.value.usage.value.totalTokens
            else PromptTokens(resp) == 0 && CompletionTokens(resp) == 0 && TotalTokens(resp) == 0
  {
  }
}
