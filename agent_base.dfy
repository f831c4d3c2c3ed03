/** The agent base: agent responses, the tool registry an agent keeps, tool
    execution, the conversation history, the message list sent to the LLM,
    the bounded ReAct loop, and the JSON-block extraction every agent parser
    uses first. */
module AgentBase {
  import opened Common
  import opened ToolBase
  import opened LlmBase

  // ---------------------------------------------------------------------
  // Configuration and responses
  // ---------------------------------------------------------------------

  /** `AgentConfig`; the sampling temperature and the timeout are not part
      of the model. */
  datatype AgentConfig = AgentConfig(
    name: string,
    description: string,
    instruction: string,
    model: Option<string>,
    maxTokens: Option<int>,
    maxIterations: int)

  datatype AgentResponse = AgentResponse(
    content: string,
    toolCalls: seq<Json>,
    iterations: int,
    success: bool,
    error: Option<string>,
    metadata: map<string, Json>)

  /** `AgentResponse.success_response(content, tool_calls=..., iterations=...)` */
  function SuccessResponse(content: string, toolCalls: seq<Json>, iterations: int): (r: AgentResponse)
    ensures r.success && r.error == None
    ensures r.content == content && r.toolCalls == toolCalls && r.iterations == iterations
  {
    AgentResponse(content, toolCalls, iterations, true, None, map[])
  }

  /** `AgentResponse.error_response(error, tool_calls=..., iterations=...)`:
      no content and the error message set. */
  function ErrorResponse(error: string, toolCalls: seq<Json>, iterations: int): (r: AgentResponse)
    ensures !r.success && r.content == "" && r.error == Some(error)
    ensures r.toolCalls == toolCalls && r.iterations == iterations
  {
    AgentResponse("", toolCalls, iterations, false, Some(error), map[])
  }

  // ---------------------------------------------------------------------
  // Tool registration
  // ---------------------------------------------------------------------

  /** What `register_tool` may be handed: a tool collection (given by what
      its `get_tools` returns), a decorated function, a bare definition, or
      anything else. */
  datatype Registrable =
    | Collection(defs: seq<ToolDefinition>)
    | Decorated(def: ToolDefinition)
    | Definition(def: ToolDefinition)
    | Unregistrable

  /** Registering definitions one after the other; a later definition with
      the same name replaces an earlier one. */
  function RegisterAll(tools: map<string, ToolDefinition>, defs: seq<ToolDefinition>): map<string, ToolDefinition>
  {
    if defs == [] then tools
    else RegisterAll(tools, defs[..|defs| - 1])[defs[|defs| - 1].name := defs[|defs| - 1]]
  }

  function Register(tools: map<string, ToolDefinition>, t: Registrable): map<string, ToolDefinition>
  {
    match t
    case Collection(defs) => RegisterAll(tools, defs)
    case Decorated(d) => tools[d.name := d]
    case Definition(d) => tools[d.name := d]
    case Unregistrable => tools
  }

  predicate NamedIn(defs: seq<ToolDefinition>, n: string)
  {
    exists i :: 0 <= i < |defs| && defs[i].name == n
  }

  lemma {:induction false} NamedInInit(defs: seq<ToolDefinition>, n: string)
    requires defs != []
    ensures NamedIn(defs, n) <==> NamedIn(defs[..|defs| - 1], n) || defs[|defs| - 1].name == n
  {
    var init := defs[..|defs| - 1];
    if NamedIn(defs, n) && defs[|defs| - 1].name != n {
      var i :| 0 <= i < |defs| && defs[i].name == n;
      assert init[i] == defs[i];
    }
    if NamedIn(init, n) {
      var i :| 0 <= i < |init| && init[i].name == n;
      assert defs[i] == init[i];
    }
  }

  /** After registering `defs`, a name is known iff it was known before or
      some definition carries it. */
  lemma {:induction false} RegisterAllKeys(tools: map<string, ToolDefinition>, defs: seq<ToolDefinition>, n: string)
    ensures n in RegisterAll(tools, defs) <==> n in tools || NamedIn(defs, n)
  {
    if defs != [] {
      NamedInInit(defs, n);
      RegisterAllKeys(tools, defs[..|defs| - 1], n);
    }
  }

  /** Names no definition carries keep their old entry. */
  lemma {:induction false} RegisterAllKeeps(tools: map<string, ToolDefinition>, defs: seq<ToolDefinition>, n: string)
    requires n in tools && !NamedIn(defs, n)
    ensures n in RegisterAll(tools, defs) && RegisterAll(tools, defs)[n] == tools[n]
  {
    if defs != [] {
      NamedInInit(defs, n);
      RegisterAllKeeps(tools, defs[..|defs| - 1], n);
    }
  }

  /** The last definition carrying a name is the one kept under it. */
  lemma {:induction false} RegisterAllLastWins(tools: map<string, ToolDefinition>, defs: seq<ToolDefinition>, i: nat)
    requires i < |defs|
    requires forall j :: i < j < |defs| ==> defs[j].name != defs[i].name
    ensures defs[i].name in RegisterAll(tools, defs) && RegisterAll(tools, defs)[defs[i].name] == defs[i]
  {
    if i < |defs| - 1 {
      var init := defs[..|defs| - 1];
      assert init[i] == defs[i];
      assert forall j :: i < j < |init| ==> init[j] == defs[j];
      RegisterAllLastWins(tools, init, i);
    }
  }

  /** Registering a definition under a name that is already taken replaces
      the old definition and leaves every other entry alone. */
  lemma RegisterOverwrites(tools: map<string, ToolDefinition>, d: ToolDefinition, n: string)
    requires d.name in tools
    ensures Register(tools, Definition(d)).Keys == tools.Keys
    ensures Register(tools, Definition(d))[d.name] == d
    ensures n in tools && n != d.name ==> Register(tools, Definition(d))[n] == tools[n]
  {
  }

  // ---------------------------------------------------------------------
  // The ReAct loop's inputs
  // ---------------------------------------------------------------------

  /** One tool call the LLM asks for: the tool's name and its parsed
      arguments (an object, or an empty object when they did not parse). */
  datatype ToolCall = ToolCall(name: string, arguments: Json)

  /** What one `llm.chat` call produced: the tool calls it asks for (none
      makes `content` the answer), a final answer, or an exception. */
  datatype Step = CallTools(calls: seq<ToolCall>, content: string) | Answer(content: string) | Failed(message: string)

  /** `max_iterations or self.config.max_iterations` */
  function IterationLimit(override: Option<int>, config: AgentConfig): (n: int)
    ensures override.Some? && override.value != 0 ==> n == override.value
    ensures override.None? || override.value == 0 ==> n == config.maxIterations
  {
    if override.Some? && override.value != 0 then override.value else config.maxIterations
  }

  function MaxIterationsMessage(limit: int): string
  {
    "Max iterations (" + Common.Text(JInt(limit)) + ") reached"
  }

  /** The entry `_run_with_tools` records for one executed tool call. */
  function CallRecord(c: ToolCall, r: ToolResult): Json
  {
    JObj(map["tool" := JStr(c.name), "arguments" := c.arguments, "result" := JObj(ToolBase.ToDict(r))])
  }

  /** The entries recorded for a round of tool calls against `tools`. */
  function Records(cs: seq<ToolCall>, tools: map<string, ToolDefinition>, call: (ToolDefinition, Json) -> CallOutcome): (r: seq<Json>)
    ensures |r| == |cs|
  {
    if cs == [] then []
    else Records(cs[..|cs| - 1], tools, call) + [CallRecord(cs[|cs| - 1], Execute(tools, cs[|cs| - 1].name, cs[|cs| - 1].arguments, call))]
  }

  /** The two messages one tool call adds: the request, as the assistant,
      and its result, as the user. */
  function CallMessages(c: ToolCall, result: ToolResult, show: Json -> string): seq<Message>
  {
    [Assistant("Tool call: " + c.name + "(" + show(c.arguments) + ")"), User(ResultText(result, show))]
  }

  /** The messages a round of tool calls adds, two per call in order. */
  function Exchange(cs: seq<ToolCall>, tools: map<string, ToolDefinition>, call: (ToolDefinition, Json) -> CallOutcome,
                    show: Json -> string): (m: seq<Message>)
    ensures |m| == 2 * |cs|
  {
    if cs == [] then []
    else
      var c := cs[|cs| - 1];
      Exchange(cs[..|cs| - 1], tools, call, show) + CallMessages(c, Execute(tools, c.name, c.arguments, call), show)
  }

  /** `execute_tool` against a registry: an unknown name is a failure naming
      the tool; a returned ToolResult passes through, any other return
      becomes a success, and an exception becomes a failure with its text. */
  function Execute(tools: map<string, ToolDefinition>, name: string, arguments: Json, call: (ToolDefinition, Json) -> CallOutcome): (r: ToolResult)
    ensures name !in tools ==> r == FailureResult("Unknown tool: " + name, map[])
    ensures name in tools ==> match call(tools[name], arguments)
      case ReturnedTool(t) => r == t
      case Returned(v) => r == SuccessResult(v, map[])
      case Raised(m) => r == FailureResult(m, map[])
  {
    if name !in tools then FailureResult("Unknown tool: " + name, map[])
    else WrapToolCall(call(tools[name], arguments))
  }

  /** The text of a tool's result as fed back to the LLM: its data on
      success, its error otherwise (`show` renders a value as `str` does). */
  function ResultText(r: ToolResult, show: Json -> string): string
  {
    "Tool result: " + (if r.IsSuccess() then show(r.data)
                       else if r.error.Some? then r.error.value else "None")
  }

  // ---------------------------------------------------------------------
  // JSON block extraction
  // ---------------------------------------------------------------------

  /** A closing fence, newline then three backticks, starts at `e`. */
  predicate FenceAt(t: string, e: nat)
  {
    e + 4 <= |t| && t[e] == '\n' && t[e + 1] == '`' && t[e + 2] == '`' && t[e + 3] == '`'
  }

  /** The first closing fence at or after `g` (what the lazy `(.*?)\n```` finds). */
  function FirstFence(t: string, g: nat): (r: Option<nat>)
    requires g <= |t|
    decreases |t| - g
    ensures r.Some? ==> g <= r.value && FenceAt(t, r.value)
    ensures forall e :: g <= e < (if r.Some? then r.value else |t|) ==> !FenceAt(t, e)
  {
    if g + 4 > |t| then None
    else if FenceAt(t, g) then Some(g)
    else FirstFence(t, g + 1)
  }

  predicate OpeningFence(t: string, p: nat)
  {
    p + 7 <= |t| && (t[p..p + 7] == "```json" || t[p..p + 7] == "```JSON")
  }

  predicate AllSpace(t: string, i: nat, j: nat)
    requires i <= j <= |t|
  {
    forall k :: i <= k < j ==> IsSpace(t[k])
  }

  /** The greedy `\s*\n` backtracking: the newline ending the whitespace is
      tried at `k - 1`, `k - 2`, ... down to `lo`, and the first position
      after which a closing fence exists wins. Returns the group's bounds. */
  function Backtrack(t: string, lo: nat, k: nat): (r: Option<(nat, nat)>)
    requires lo <= k <= |t|
    decreases k
    ensures r.Some? ==> lo < r.value.0 <= k && t[r.value.0 - 1] == '\n'
                         && r.value.0 <= r.value.1 && FenceAt(t, r.value.1)
                         && forall e :: r.value.0 <= e < r.value.1 ==> !FenceAt(t, e)
  {
    if k == lo then None
    else if t[k - 1] == '\n' && FirstFence(t, k).Some? then Some((k, FirstFence(t, k).value))
    else Backtrack(t, lo, k - 1)
  }

  /** A match of the fenced-block pattern starting at `p`: the bounds of the
      captured group. */
  function FenceMatchAt(t: string, p: nat): (r: Option<(nat, nat)>)
    requires p <= |t|
    ensures r.Some? ==> OpeningFence(t, p) && p + 7 < r.value.0 <= r.value.1 && FenceAt(t, r.value.1)
                         && AllSpace(t, p + 7, r.value.0) && t[r.value.0 - 1] == '\n'
                         && forall e :: r.value.0 <= e < r.value.1 ==> !FenceAt(t, e)
  {
    if OpeningFence(t, p) then
      var w := SkipSpaces(t, p + 7);
      SkipSpacesAll(t, p + 7);
      Backtrack(t, p + 7, w)
    else None
  }

  lemma {:induction false} SkipSpacesAll(t: string, i: nat)
    requires i <= |t|
    ensures AllSpace(t, i, SkipSpaces(t, i))
    decreases |t| - i
  {
    if i < |t| && IsSpace(t[i]) {
      SkipSpacesAll(t, i + 1);
    }
  }

  /** `re.search`: the leftmost starting position with a match. */
  function FenceSearch(t: string, p: nat): (r: Option<(nat, nat)>)
    requires p <= |t|
    decreases |t| - p
    ensures r.Some? ==> r.value.0 <= r.value.1 <= |t|
  {
    if FenceMatchAt(t, p).Some? then FenceMatchAt(t, p)
    else if p == |t| then None
    else FenceSearch(t, p + 1)
  }

  /** No match starts before the one `re.search` reports. */
  lemma {:induction false} FenceSearchLeftmost(t: string, p: nat, q: nat)
    requires p <= q <= |t|
    requires FenceSearch(t, p).Some?
    requires forall x :: p <= x < q ==> FenceMatchAt(t, x).None?
    ensures q <= |t| && (FenceMatchAt(t, q).Some? ==> FenceSearch(t, p) == FenceMatchAt(t, q))
    decreases q - p
  {
    if p < q {
      FenceSearchLeftmost(t, p + 1, q);
    }
  }

  /** The span from the first `open` to the last `close`, when the close
      comes after the open. */
  function Span(t: string, open: char, close: char): (r: Option<(nat, nat)>)
    ensures r.Some? ==> r.value.0 < r.value.1 <= |t|
    ensures r.Some? ==> t[r.value.0] == open && open !in t[..r.value.0]
    ensures r.Some? ==> t[r.value.1 - 1] == close && close !in t[r.value.1..]
    ensures r.None? ==> open !in t || close !in t || IndexOfChar(t, open) >= LastIndexOfChar(t, close).value
  {
    if open !in t then None
    else
      var s := IndexOfChar(t, open);
      var e := LastIndexOfChar(t, close);
      if e.Some? && e.value > s then Some((s, e.value + 1)) else None
  }

  /** The value `json.loads` gives a candidate, if it parses. */
  function TrySpan(t: string, sp: Option<(nat, nat)>, parse: string -> Option<Json>): Option<Json>
  {
    if sp.Some? && sp.value.0 <= sp.value.1 <= |t| then parse(t[sp.value.0..sp.value.1]) else None
  }

  /** `_extract_json_block`: the fenced ```json block if it parses, else the
      first-'{'-to-last-'}' span if it parses, else the first-'['-to-last-']'
      span if it parses, else nothing. A fenced block holding `null` parses
      to Python's None, which is returned at once. */
  function ExtractJsonBlock(t: string, parse: string -> Option<Json>): (r: Option<Json>)
    ensures t == [] ==> r.None?
  {
    if t == [] then None
    else
      var fenced := TrySpan(t, FenceSearch(t, 0), parse);
      if fenced.Some? then (if fenced.value == JNull then None else fenced)
      else
        var obj := TrySpan(t, Span(t, '{', '}'), parse);
        if obj.Some? then obj
        else TrySpan(t, Span(t, '[', ']'), parse)
  }

  /** Whatever the extraction returns is the parse of a slice of the text:
      the fenced group, or an object span, or an array span, in that order
      of preference. */
  lemma ExtractJsonBlockSource(t: string, parse: string -> Option<Json>)
    requires ExtractJsonBlock(t, parse).Some?
    ensures var v := ExtractJsonBlock(t, parse);
            (FenceSearch(t, 0).Some? && v == parse(t[FenceSearch(t, 0).value.0..FenceSearch(t, 0).value.1]))
            || (Span(t, '{', '}').Some? && v == parse(t[Span(t, '{', '}').value.0..Span(t, '{', '}').value.1])
                && t[Span(t, '{', '}').value.0] == '{')
            || (Span(t, '[', ']').Some? && v == parse(t[Span(t, '[', ']').value.0..Span(t, '[', ']').value.1])
                && t[Span(t, '[', ']').value.0] == '[')
  {
  }

  /** A fenced block that parses wins over any brace span; one that
      parses to `null` gives nothing, without trying the spans. */
  lemma FencedFirst(t: string, parse: string -> Option<Json>)
    requires t != [] && FenceSearch(t, 0).Some?
    requires parse(t[FenceSearch(t, 0).value.0..FenceSearch(t, 0).value.1]).Some?
    ensures var v := parse(t[FenceSearch(t, 0).value.0..FenceSearch(t, 0).value.1]);
            ExtractJsonBlock(t, parse) == if v == Some(JNull) then None else v
  {
  }

  /** Text with no fence and no braces or brackets yields nothing. */
  lemma NoJsonWithoutBrackets(t: string, parse: string -> Option<Json>)
    requires FenceSearch(t, 0).None?
    requires '{' !in t && '[' !in t
    ensures ExtractJsonBlock(t, parse).None?
  {
  }

  /** The response `_run_with_tools` gives from round `iteration` on, with
      `messages` to send and `made` the calls recorded so far: each round
      asks the LLM once; an exception ends the run with its text, an answer
      (or a round with no tool calls) ends it with that content, and a
      round of tool calls records them, appends their exchange and goes on.
      Past the limit the run fails naming it. */
  function RunFrom(tools: map<string, ToolDefinition>, messages: seq<Message>, made: seq<Json>,
                   iteration: int, limit: int, chat: seq<Message> -> Step,
                   call: (ToolDefinition, Json) -> CallOutcome, show: Json -> string): AgentResponse
    decreases limit - iteration
  {
    if iteration >= limit then ErrorResponse(MaxIterationsMessage(limit), made, limit)
    else
      match chat(messages)
      case Failed(m) => ErrorResponse(m, made, iteration + 1)
      case Answer(content) => SuccessResponse(content, made, iteration + 1)
      case CallTools(cs, content) =>
        if cs == [] then SuccessResponse(content, made, iteration + 1)
        else RunFrom(tools, messages + Exchange(cs, tools, call, show), made + Records(cs, tools, call),
                     iteration + 1, limit, chat, call, show)
  }

  /** One round of tool calls hands the run on to the next round. */
  lemma RunFromCalls(tools: map<string, ToolDefinition>, messages: seq<Message>, made: seq<Json>,
                     iteration: int, limit: int, chat: seq<Message> -> Step,
                     call: (ToolDefinition, Json) -> CallOutcome, show: Json -> string)
    requires iteration < limit && chat(messages).CallTools? && chat(messages).calls != []
    ensures var cs := chat(messages).calls;
      RunFrom(tools, messages, made, iteration, limit, chat, call, show)
      == RunFrom(tools, messages + Exchange(cs, tools, call, show), made + Records(cs, tools, call),
                 iteration + 1, limit, chat, call, show)
  {
  }

  /** A round without tool calls ends the run, and so does the limit. */
  lemma RunFromStops(tools: map<string, ToolDefinition>, messages: seq<Message>, made: seq<Json>,
                     iteration: int, limit: int, chat: seq<Message> -> Step,
                     call: (ToolDefinition, Json) -> CallOutcome, show: Json -> string)
    ensures var r := RunFrom(tools, messages, made, iteration, limit, chat, call, show);
      var step := chat(messages);
      && (iteration >= limit ==> r == ErrorResponse(MaxIterationsMessage(limit), made, limit))
      && (iteration < limit && step.Failed? ==> r == ErrorResponse(step.message, made, iteration + 1))
      && (iteration < limit && step.Answer? ==> r == SuccessResponse(step.content, made, iteration + 1))
      && (iteration < limit && step.CallTools? && step.calls == [] ==> r == SuccessResponse(step.content, made, iteration + 1))
  {
  }

  /** A step that ends the run successfully with `content`. */
  predicate Concludes(s: Step, content: string)
  {
    (s.Answer? && s.content == content) || (s.CallTools? && s.calls == [] && s.content == content)
  }

  /** The LLM answers some messages with `content` and no tool calls. */
  ghost predicate Answers(chat: seq<Message> -> Step, content: string)
  {
    exists ms :: Concludes(chat(ms), content)
  }

  /** The LLM raises, for some messages, an exception whose text is `e`. */
  ghost predicate Raises(chat: seq<Message> -> Step, e: string)
  {
    exists ms :: chat(ms) == Step.Failed(e)
  }

  /** The calls recorded before a run are kept as the head of its
      `tool_calls`. */
  lemma {:induction false} RunFromKeeps(tools: map<string, ToolDefinition>, messages: seq<Message>, made: seq<Json>,
                                        iteration: int, limit: int, chat: seq<Message> -> Step,
                                        call: (ToolDefinition, Json) -> CallOutcome, show: Json -> string)
    ensures var r := RunFrom(tools, messages, made, iteration, limit, chat, call, show);
      |made| <= |r.toolCalls| && r.toolCalls[..|made|] == made
    decreases limit - iteration
  {
    if iteration < limit && chat(messages).CallTools? && chat(messages).calls != [] {
      var cs := chat(messages).calls;
      var messages' := messages + Exchange(cs, tools, call, show);
      var made' := made + Records(cs, tools, call);
      var r := RunFrom(tools, messages', made', iteration + 1, limit, chat, call, show);
      assert RunFrom(tools, messages, made, iteration, limit, chat, call, show) == r;
      RunFromKeeps(tools, messages', made', iteration + 1, limit, chat, call, show);
      assert r.toolCalls[..|made'|][..|made|] == made;
    }
  }

  /** A successful run carries the content of an answer the LLM gave
      within the limit, and no error. */
  lemma {:induction false} RunFromSucceeds(tools: map<string, ToolDefinition>, messages: seq<Message>, made: seq<Json>,
                                           iteration: int, limit: int, chat: seq<Message> -> Step,
                                           call: (ToolDefinition, Json) -> CallOutcome, show: Json -> string)
    ensures var r := RunFrom(tools, messages, made, iteration, limit, chat, call, show);
      r.success ==> r.error == None && iteration < r.iterations <= limit && Answers(chat, r.content)
    decreases limit - iteration
  {
    var r := RunFrom(tools, messages, made, iteration, limit, chat, call, show);
    if iteration < limit && r.success {
      var step := chat(messages);
      if step.CallTools? && step.calls != [] {
        var messages' := messages + Exchange(step.calls, tools, call, show);
        var made' := made + Records(step.calls, tools, call);
        assert r == RunFrom(tools, messages', made', iteration + 1, limit, chat, call, show);
        RunFromSucceeds(tools, messages', made', iteration + 1, limit, chat, call, show);
      } else {
        assert Concludes(chat(messages), r.content);
      }
    }
  }

  /** A failed run has no content and carries either the text of an
      exception the LLM raised within the limit or, after the last round,
      the message naming the limit. */
  lemma {:induction false} RunFromFails(tools: map<string, ToolDefinition>, messages: seq<Message>, made: seq<Json>,
                                        iteration: int, limit: int, chat: seq<Message> -> Step,
                                        call: (ToolDefinition, Json) -> CallOutcome, show: Json -> string)
    ensures var r := RunFrom(tools, messages, made, iteration, limit, chat, call, show);
      !r.success ==> r.content == "" && r.error.Some?
                     && ((r.iterations == limit && r.error.value == MaxIterationsMessage(limit))
                         || (iteration < r.iterations <= limit && Raises(chat, r.error.value)))
    decreases limit - iteration
  {
    var r := RunFrom(tools, messages, made, iteration, limit, chat, call, show);
    if iteration < limit && !r.success {
      var step := chat(messages);
      if step.CallTools? && step.calls != [] {
        var messages' := messages + Exchange(step.calls, tools, call, show);
        var made' := made + Records(step.calls, tools, call);
        assert r == RunFrom(tools, messages', made', iteration + 1, limit, chat, call, show);
        RunFromFails(tools, messages', made', iteration + 1, limit, chat, call, show);
      } else {
        assert chat(messages) == Step.Failed(r.error.value);
      }
    } else if !r.success {
      assert r == ErrorResponse(MaxIterationsMessage(limit), made, limit);
    }
  }

  // ---------------------------------------------------------------------
  // The agent
  // ---------------------------------------------------------------------

  /** `BaseAgent`: its configuration, the registered tools and the
      conversation history. The LLM client is a parameter of `RunWithTools`. */
  class Agent {
    const config: AgentConfig
    var tools: map<string, ToolDefinition>
    var conversation: seq<Message>

    /** `__init__`: registers the given tools in order. */
    constructor (config: AgentConfig, given: seq<Registrable>)
      ensures this.config == config
      ensures tools == RegisterEach(map[], given)
      ensures conversation == []
    {
      this.config := config;
      tools := map[];
      conversation := [];
      new;
      var k := 0;
      while k < |given|
        invariant 0 <= k <= |given|
        invariant tools == RegisterEach(map[], given[..k])
        invariant conversation == []
        invariant this.config == config
      {
        RegisterTool(given[k]);
        assert given[..k + 1][..k] == given[..k];
        k := k + 1;
      }
      assert given[..|given|] == given;
    }

    /** `register_tool` */
    method RegisterTool(t: Registrable)
      modifies this
      ensures tools == Register(old(tools), t)
      ensures conversation == old(conversation)
    {
      match t
      case Collection(defs) =>
        var k := 0;
        while k < |defs|
          invariant 0 <= k <= |defs|
          invariant tools == RegisterAll(old(tools), defs[..k])
          invariant conversation == old(conversation)
        {
          tools := tools[defs[k].name := defs[k]];
          assert defs[..k + 1][..k] == defs[..k];
          k := k + 1;
        }
        assert defs[..|defs|] == defs;
      case Decorated(d) => tools := tools[d.name := d];
      case Definition(d) => tools := tools[d.name := d];
      case Unregistrable =>
    }

    /** `execute_tool` */
    function ExecuteTool(name: string, arguments: Json, call: (ToolDefinition, Json) -> CallOutcome): (r: ToolResult)
      reads this
      ensures r == Execute(tools, name, arguments, call)
    {
      Execute(tools, name, arguments, call)
    }

    method ResetConversation()
      modifies this
      ensures conversation == [] && tools == old(tools)
    {
      conversation := [];
    }

    method AddSystemMessage(content: string)
      modifies this
      ensures conversation == old(conversation) + [System(content)] && tools == old(tools)
    {
      conversation := conversation + [System(content)];
    }

    method AddUserMessage(content: string)
      modifies this
      ensures conversation == old(conversation) + [User(content)] && tools == old(tools)
    {
      conversation := conversation + [User(content)];
    }

    method AddAssistantMessage(content: string)
      modifies this
      ensures conversation == old(conversation) + [Assistant(content)] && tools == old(tools)
    {
      conversation := conversation + [Assistant(content)];
    }

    /** `_build_messages`: the system instruction, the history, then the
        user's input. */
    function BuildMessages(userInput: string): (ms: seq<Message>)
      reads this
      ensures |ms| == |conversation| + 2
      ensures ms[0] == System(config.instruction)
      ensures ms[1..|ms| - 1] == conversation
      ensures ms[|ms| - 1] == User(userInput)
    {
      [System(config.instruction)] + conversation + [User(userInput)]
    }

    /** `_run_with_tools`: at most the iteration limit of LLM calls. Each
        round either runs the requested tools and feeds their results back,
        or ends with the answer (success) or the exception (error); running
        out of rounds is an error naming the limit. `chat` stands for the
        LLM, `call` for the tools' functions, `show` for `str` of a value. */
    method RunWithTools(userInput: string, override: Option<int>,
                        chat: seq<Message> -> Step,
                        call: (ToolDefinition, Json) -> CallOutcome,
                        show: Json -> string)
      returns (r: AgentResponse, ghost calls: nat)
      ensures calls <= Max(IterationLimit(override, config), 0)
      ensures r == RunFrom(tools, BuildMessages(userInput), [], 0, IterationLimit(override, config), chat, call, show)
      ensures r.success ==> 1 <= r.iterations == calls && r.error == None
      ensures !r.success ==> r.content == "" && r.error.Some?
      ensures !r.success ==>
                1 <= r.iterations == calls
                || (r.error == Some(MaxIterationsMessage(IterationLimit(override, config)))
                    && r.iterations == IterationLimit(override, config)
                    && calls == Max(IterationLimit(override, config), 0))
    {
      var limit := IterationLimit(override, config);
      var made: seq<Json> := [];
      var messages := BuildMessages(userInput);
      ghost var target := RunFrom(tools, messages, made, 0, limit, chat, call, show);
      calls := 0;
      var iteration := 0;
      while iteration < limit
        invariant 0 <= iteration <= Max(limit, 0)
        invariant calls == iteration
        invariant RunFrom(tools, messages, made, iteration, limit, chat, call, show) == target
      {
        var stop;
        stop, made, messages := Round(messages, made, iteration, limit, chat, call, show);
        calls := calls + 1;
        if stop.Some? {
          return stop.value, calls;
        }
        iteration := iteration + 1;
      }
      RunFromStops(tools, messages, made, iteration, limit, chat, call, show);
      r := ErrorResponse(MaxIterationsMessage(limit), made, limit);
    }

    /** One round of the loop: the LLM's step either ends the run with the
        reference response or runs the tool calls, after which the
        reference run goes on from the next round. */
    method Round(messages0: seq<Message>, made0: seq<Json>, iteration: int, limit: int,
                 chat: seq<Message> -> Step, call: (ToolDefinition, Json) -> CallOutcome, show: Json -> string)
      returns (stop: Option<AgentResponse>, made: seq<Json>, messages: seq<Message>)
      requires iteration < limit
      ensures stop.Some? ==> stop.value == RunFrom(tools, messages0, made0, iteration, limit, chat, call, show)
                             && stop.value.iterations == iteration + 1
                             && (stop.value.success ==> stop.value.error == None)
                             && (!stop.value.success ==> stop.value.content == "" && stop.value.error.Some?)
      ensures stop.None? ==> RunFrom(tools, messages0, made0, iteration, limit, chat, call, show)
                             == RunFrom(tools, messages, made, iteration + 1, limit, chat, call, show)
    {
      var step := chat(messages0);
      RunFromStops(tools, messages0, made0, iteration, limit, chat, call, show);
      made, messages := made0, messages0;
      match step
      case Failed(m) =>
        stop := Some(ErrorResponse(m, made0, iteration + 1));
      case Answer(content) =>
        stop := Some(SuccessResponse(content, made0, iteration + 1));
      case CallTools(cs, content) =>
        if cs == [] {
          stop := Some(SuccessResponse(content, made0, iteration + 1));
        } else {
          RunFromCalls(tools, messages0, made0, iteration, limit, chat, call, show);
          made, messages := RunCalls(cs, made0, messages0, call, show);
          stop := None;
        }
    }

    /** One round of tool calls: each call is executed, recorded, and its
        request and result are appended to the messages. */
    method RunCalls(cs: seq<ToolCall>, made0: seq<Json>, messages0: seq<Message>,
                    call: (ToolDefinition, Json) -> CallOutcome, show: Json -> string)
      returns (made: seq<Json>, messages: seq<Message>)
      ensures made == made0 + Records(cs, tools, call)
      ensures messages == messages0 + Exchange(cs, tools, call, show)
    {
      made, messages := made0, messages0;
      var k := 0;
      while k < |cs|
        invariant 0 <= k <= |cs|
        invariant made == made0 + Records(cs[..k], tools, call)
        invariant messages == messages0 + Exchange(cs[..k], tools, call, show)
      {
        var result := ExecuteTool(cs[k].name, cs[k].arguments, call);
        CallsStep(cs, k, tools, call, show);
        AppendAssoc(made0, Records(cs[..k], tools, call), [CallRecord(cs[k], result)]);
        AppendAssoc(messages0, Exchange(cs[..k], tools, call, show), CallMessages(cs[k], result, show));
        made := made + [CallRecord(cs[k], result)];
        messages := messages + CallMessages(cs[k], result, show);
        k := k + 1;
      }
      assert cs[..|cs|] == cs;
    }
  }

  /** One more call adds its record and its two messages. */
  lemma CallsStep(cs: seq<ToolCall>, k: nat, tools: map<string, ToolDefinition>,
                  call: (ToolDefinition, Json) -> CallOutcome, show: Json -> string)
    requires k < |cs|
    ensures Records(cs[..k + 1], tools, call) ==
      Records(cs[..k], tools, call) + [CallRecord(cs[k], Execute(tools, cs[k].name, cs[k].arguments, call))]
    ensures Exchange(cs[..k + 1], tools, call, show) ==
      Exchange(cs[..k], tools, call, show) + CallMessages(cs[k], Execute(tools, cs[k].name, cs[k].arguments, call), show)
  {
    assert cs[..k + 1][..k] == cs[..k];
  }

  /** Registering each of `given` in turn, as the constructor does. */
  function RegisterEach(tools: map<string, ToolDefinition>, given: seq<Registrable>): map<string, ToolDefinition>
  {
    if given == [] then tools
    else Register(RegisterEach(tools, given[..|given| - 1]), given[|given| - 1])
  }

  /** The message list an agent sends passes validation whenever its
      instruction, its history and the input do. */
  lemma BuildMessagesValid(instruction: string, conversation: seq<Message>, userInput: string)
    requires instruction != [] && userInput != []
    requires forall j :: 0 <= j < |conversation| ==> ValidMessage(conversation[j])
    ensures ValidateMessages([System(instruction)] + conversation + [User(userInput)]).None?
  {
    var ms := [System(instruction)] + conversation + [User(userInput)];
    forall j | 0 <= j < |ms| ensures ValidMessage(ms[j])
    {
      if 0 < j < |ms| - 1 {
        assert ms[j] == conversation[j - 1];
      }
    }
  }
}
