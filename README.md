# A verified model of the Jira planning agents and their tools

This project models, in Dafny, the deterministic core of a Python
toolkit for a product-management team working against Jira. The toolkit
has LLM-driven agents that research a feature, profile the hardware,
scope the work and build a Jira plan of Epics and Stories. A human review
step then approves the plan's tickets and executes them in dependency
order. Command-line utilities query Jira and bulk-update tickets, build
and diff Excel workbooks, draw draw.io diagrams of ticket hierarchies and
org charts, and export plans as CSV.

Each core source file is one module, and two modules are shared:
`Common` holds the small parts of Python's `str`, `os.path`, `int()`,
`repr` and `sorted` that the code relies on, plus the shared tally
helpers, and `StableSort` holds the stable sort by key that Python's
`sorted(..., key=...)` performs. Code that computes values
becomes functions and lemmas. Code that updates objects in place becomes
classes whose methods state the whole new state. Loops become methods
proved against a specification function.

Everything outside the modelled code is a parameter: the Jira server, the
language model, the file system, the spreadsheet library, environment
variables, clocks and fresh ids. Such a parameter is a map, a sequence of
answers, or a function passed in. Python's exceptions are error values:
`Result`, `Option`, or an outcome datatype with a `Raised` case.

## Model

| member | source | states |
|---|---|---|
| Common.Getenv | config/settings.py:74-80 | reading an environment variable gives its value exactly when it is set, and nothing otherwise |
| Common.Strip | agents/feature_plan_builder.py:392 | stripping never lengthens the text and leaves no leading or trailing whitespace, whitespace being Python's `str.isspace` set (the ASCII blanks, U+001C to U+001F, U+0085, U+00A0 and the Unicode spaces and separators) |
| Common.SplitExtOf | tools/plan_export_tools.py:175 | splitting a plain name with one extension gives the name and the dotted extension, and the two parts always rejoin to the path |
| Common.ParseIntRoundTrip | tools/plan_export_tools.py:222-237 | a number written in decimal, with a minus sign when negative, reads back as that number |
| Common.TallySpec | agents/feature_planning_models.py:278-281 | a tally counts each label exactly as often as it occurs, lists each label once, and its counts add up to the number of labels |
| Common.SortedOfSpec | tools/plan_export_tools.py:213 | the sorted names of a set are ascending, without repeats, and hold exactly the set |
| Common.SortedUnique | tools/plan_export_tools.py:213 | two ascending repeat-free lists holding the same names are equal, so the sorted order is unique |
| Common.SortNames | tools/plan_export_tools.py:213 | sorting a set of names gives the reference sorted list |
| Settings.IntSetting | config/settings.py:94-95 | `int(os.getenv(name, default))` succeeds exactly when the text parses as an integer, and then gives that integer; otherwise the ValueError text shows the value as `repr` does |
| Common.ParseIntUnderscore | config/settings.py:94-95 | `int()` accepts single underscores between digits: "1_000" reads as 1000 |
| Common.ParseIntRefuses | config/settings.py:94-95 | a doubled or trailing underscore and a bare sign are not integers |
| Common.ReprPlain | config/settings.py:94-95 | text without quotes, backslashes or line breaks shows between single quotes unchanged |
| Settings.FromEnv | config/settings.py:65-105 | settings are built iff both integer variables parse, the iteration count's error winning; the integers, the two `== 'true'` flags and every optional variable come from the environment as the constructor reads them |
| Settings.FromEmptyEnv | config/settings.py:31-105 | with no variable set the settings are the class defaults |
| Settings.MessagesAppend | config/settings.py:117-136 | the messages of two lists of missing settings, in order, are the messages of each |
| Settings.JiraChecks | config/settings.py:119-123 | the Jira checks report nothing iff email and token are set; each is reported iff it is unset, at most once |
| Settings.ProviderChecks | config/settings.py:125-136 | each provider key is reported iff that provider is the default one and the key is unset; an unknown provider needs nothing; no Jira setting is reported here |
| Settings.ValidationErrorsSpec | config/settings.py:117-136 | nothing is missing iff the required settings are present; each setting is reported exactly when it is checked and unset, without repetition, at most four in all |
| Settings.Validate | config/settings.py:107-143 | validate returns true iff the required settings are present, and otherwise raises ValueError whose text is `Configuration errors: ` and the messages joined by `, ` |
| Settings.CheckJira | config/settings.py:117-123 | the Jira check appends exactly the messages of the Jira checks |
| Settings.CheckProvider | config/settings.py:125-136 | the provider check appends exactly the messages of the provider checks to the errors so far |
| Settings.Masked | config/settings.py:150-155 | a secret shows as `***` iff it is set and as null iff it is not |
| Settings.ToDict | config/settings.py:145-162 | to_dict has its fourteen keys in order, with the four secrets masked |
| Settings.SecretsDoNotShow | config/settings.py:145-162 | settings that differ only in the values of set secrets render to the same dictionary |
| Settings.SettingsHolder.GetSettings | config/settings.py:169-179 | the first call builds the settings from the environment and stores them; later calls return the stored settings unchanged |
| Settings.GetSettingsTwice | config/settings.py:169-179 | two calls in a row return the same settings whatever the environment holds at the second |
| LlmBase.ContentJson | llm/base.py:33-41 | text content is sent as the string, part lists as the list, and the JSON is truthy iff the content is |
| LlmBase.ToDict | llm/base.py:36-41 | to_dict has exactly the keys role and content, with the message's own values |
| LlmBase.System | llm/base.py:43-46 | Message.system makes a system message with that text |
| LlmBase.User | llm/base.py:48-51 | Message.user makes a user message with that text |
| LlmBase.Assistant | llm/base.py:53-56 | Message.assistant makes an assistant message with that text |
| LlmBase.UserWithImage | llm/base.py:58-76 | user_with_image makes a user message whose parts are the text part then the image part |
| LlmBase.FirstInvalid | llm/base.py:209-214 | the first message failing the role check or then the content check is reported with its index; none iff every message is valid; every earlier message is valid |
| LlmBase.ValidateMessages | llm/base.py:196-214 | an empty list is refused; otherwise validation passes iff every message has a known role and truthy content |
| LlmBase.ConstructedValid | llm/base.py:43-56 | messages made by the role constructors from non-empty texts pass validation in any order |
| LlmBase.UserWithImageValid | llm/base.py:58-76 | a user_with_image message is always valid |
| LlmBase.ValidateFirst | llm/base.py:209-214 | the index reported names a message that really is invalid, and all before it are valid |
| LlmBase.TokenCount | llm/base.py:98-110 | a token count is the usage entry when present and 0 otherwise |
| LlmBase.NoUsageNoTokens | llm/base.py:93-110 | a response without usage reports zero prompt, completion and total tokens |
| LlmBase.ErrorTextSpec | llm/base.py:230-236 | the text of an error is `[provider] ` when a provider is set, the message, and ` (status=N)` when a status is set |
| LlmBase.PlainError | llm/base.py:230-236 | an error without provider and status reads as its message |
| LlmBase.ApiMessages | llm/cornelis_llm.py:136 | the API messages are each message's dict, in order |
| LlmBase.CoreParams | llm/cornelis_llm.py:140-146 | every request starts from model, messages and temperature, with `max_tokens` iff it is truthy, and no other key |
| LlmBase.ImageParts | llm/cornelis_llm.py:250-254 | one image part per image |
| LlmBase.ImagePartsAt | llm/cornelis_llm.py:250-254 | the image parts carry the images in order |
| LlmBase.MultimodalDiffers | llm/cornelis_llm.py:247-255 | converting a plain-text user message always changes it, since its content becomes a part list |
| LlmBase.ContentParts | llm/cornelis_llm.py:249-254 | the parts are the text part followed by one image part per image |
| LlmBase.UsageMap | llm/cornelis_llm.py:186-192 | the usage dict is empty without usage and otherwise has exactly the three token keys |
| LlmBase.Answer | llm/cornelis_llm.py:177-206 | a reply with at least one choice gives its text (`''` when absent), model and finish reason; an exception or a reply without choices becomes an LLMError with the client's provider and no status |
| LlmBase.AnswerTokens | llm/litellm_client.py:152-171 | the token accessors of an answered call report the endpoint's usage, and zero without usage |
| LlmConfig.ParseProvider | llm/config.py:30-35 | `LLMProvider(s)` gives the provider whose value is exactly `s`, and no provider when none has that value (the ValueError) |
| LlmConfig.ParseValue | llm/config.py:30-35 | every provider's value parses back to that provider |
| LlmConfig.FromEnv | llm/config.py:76-131 | an unknown primary provider falls back to Cornelis; the model is the chosen provider's variable or its default; fallback is on iff FALLBACK_ENABLED lower-cased is `true`; the vision provider is parsed from VISION_LLM_PROVIDER (empty or unknown: none); every other field keeps its default |
| LlmConfig.FromEmptyEnv | llm/config.py:55-131 | with no variable set the configuration is the default one with model `cornelis-default` |
| LlmConfig.Select | llm/config.py:159-165 | an explicit provider or a truthy model wins; otherwise a vision request with a configured vision provider uses the vision settings, and any other request the primary ones |
| LlmConfig.Create | llm/config.py:173-186 | the Cornelis provider builds the internal client and raises exactly its construction error; the other providers build the LiteLLM client with the configured key and base, failing only when the package is missing |
| LlmConfig.RetryRepeats | llm/config.py:190-199 | with fallback on and no fallback provider, a failing creation is retried with no provider, so the same call repeats until the stack is exhausted |
| LlmConfig.FallbackWithoutProviderExhausts | llm/config.py:190-200 | for the default configuration without a fallback provider and no Cornelis endpoint, the factory as written exhausts the stack while the intended one re-raises the endpoint error |
| LlmConfig.ClientFor | llm/config.py:173-200 | a created client is returned; a failure falls back once to a configured fallback provider other than the one tried, asking for that provider itself; otherwise the error is re-raised |
| LlmConfig.AsWrittenAgrees | llm/config.py:190-199 | with a fallback provider configured, the factory as written equals the intended one given room for the one retry |
| LlmConfig.Resolve | llm/config.py:155-157 | a given configuration is used, otherwise the one read from the environment |
| LlmConfig.GetLlmClient | llm/config.py:134-200 | the factory resolves the configuration and then behaves as ClientFor with the provider's constructor |
| LlmConfig.GetVisionClient | llm/config.py:203-213 | with a vision provider configured the vision client is returned when it can be made; without one the result is exactly the plain client |
| LlmConfig.VisionSelection | llm/config.py:160-165 | a vision request uses the vision provider and model when one is configured and is a plain request otherwise |
| CornelisLlm.ModelName | llm/cornelis_llm.py:86 | a truthy model argument is used; otherwise CORNELIS_LLM_MODEL, with default `cornelis-default` |
| CornelisLlm.New | llm/cornelis_llm.py:58-108 | construction succeeds iff the package is installed and both the base URL and the key are truthy from argument or environment; a missing package, then a missing URL, then a missing key raise their messages with provider `cornelis` |
| CornelisLlm.ArgumentsOverrideEnvironment | llm/cornelis_llm.py:84-86 | non-empty model, URL and key arguments win over any environment |
| CornelisLlm.Params | llm/cornelis_llm.py:139-149 | the request holds the client's model, the messages and the temperature, `max_tokens` iff it is truthy or passed, and every keyword argument overrides them |
| CornelisLlm.Chat | llm/cornelis_llm.py:110-206 | invalid messages are refused before anything is sent; otherwise the request carries the messages' dicts and its reply or error is returned |
| CornelisLlm.VisionByPattern | llm/cornelis_llm.py:324-338 | the listed vision models all contain a pattern, so support is decided by the patterns on the lower-cased name |
| CornelisLlm.ListedMatch | llm/cornelis_llm.py:52-56 | each listed vision model matches one of the vision patterns |
| CornelisLlm.VisionMessagesChange | llm/cornelis_llm.py:245-257 | a message is changed by the conversion iff it is a plain-text user message, and every such message carries the text and all the images |
| CornelisLlm.ChatWithVision | llm/cornelis_llm.py:208-322 | a model without vision support is refused first, then invalid messages; otherwise the converted messages are sent |
| CornelisLlm.ConvertAll | llm/cornelis_llm.py:245-257 | the conversion loop yields exactly VisionMessages |
| LiteLlmClient.New | llm/litellm_client.py:71-101 | construction fails only when the library is missing, with its message and provider `litellm`; otherwise the client keeps the model, key, base and options it was given |
| LiteLlmClient.Credentials | llm/litellm_client.py:140-143 | the key and the base URL are sent iff each is truthy, with their values, and nothing else is added here |
| LiteLlmClient.Params | llm/litellm_client.py:131-146 | the request holds model, messages and temperature, `max_tokens` iff truthy, the truthy credentials, and every keyword argument overrides them |
| LiteLlmClient.Chat | llm/litellm_client.py:103-175 | validation comes first and its error is not converted; otherwise the messages' dicts are sent and the reply or error returned |
| LiteLlmClient.SupportsVision | llm/litellm_client.py:272-288 | the support check raises iff the client has no model name |
| LiteLlmClient.VisionByPattern | llm/litellm_client.py:272-288 | every listed model matches a pattern, so support is decided by the patterns on the lower-cased name |
| LiteLlmClient.ListedMatch | llm/litellm_client.py:54-69 | each listed vision model contains one of the vision patterns |
| LiteLlmClient.ListedMatchAt | llm/litellm_client.py:54-69 | the listed model at each index contains one of the vision patterns |
| LiteLlmClient.OpenAiListed | llm/litellm_client.py:55-59 | the OpenAI entries of the list match a pattern |
| LiteLlmClient.AnthropicListed | llm/litellm_client.py:60-64 | the Anthropic entries of the list match a pattern |
| LiteLlmClient.GoogleListed | llm/litellm_client.py:65-68 | the Google entries of the list match a pattern |
| LiteLlmClient.FirstTextUser | llm/litellm_client.py:214-226 | the index found is a plain-text user message and no earlier message is one; none iff there is no such message |
| LiteLlmClient.VisionMessagesChange | llm/litellm_client.py:214-230 | exactly one message changes, the first plain-text user message, and none when there is no such message |
| LiteLlmClient.ChatWithVision | llm/litellm_client.py:177-270 | the vision check comes first (a client without model name raises), then validation, then the request with the converted messages |
| LiteLlmClient.ConvertFirst | llm/litellm_client.py:213-230 | the loop with its `images_added` flag yields exactly VisionMessages |
| LiteLlmClient.ProviderOfSpec | llm/litellm_client.py:289-312 | each provider is named exactly when the lower-cased name starts with its prefix (`gpt` or `o1`, `claude`, `gemini`, `mistral`, `llama`) |
| LiteLlmClient.GetProviderIgnoresCase | llm/litellm_client.py:289-312 | the provider does not depend on the case of the model name |
| ToolBase.SuccessResult | tools/base.py:50-54 | `ToolResult.success` is a success, not an error, with the data and metadata and no error |
| ToolBase.FailureResult | tools/base.py:55-59 | `ToolResult.failure` is an error, not a success, with the message and metadata and no data |
| ToolBase.StatusExclusive | tools/base.py:60-67 | no result is both a success and an error |
| ToolBase.ToDict | tools/base.py:69-83 | to_dict always has the status; data iff it is not None, error iff it is truthy, metadata iff it is non-empty; no other key |
| ToolBase.ToSchema | tools/base.py:103-116 | the schema has type and description, `enum` iff values are listed and `default` iff a default is set; no other key |
| ToolBase.RequiredNames | tools/base.py:134-160 | a name is required iff some required parameter carries it |
| ToolBase.PropertiesOfKeys | tools/base.py:134-160 | the properties hold a key for every parameter name and only those |
| ToolBase.PropertiesOfLastWins | tools/base.py:134-160 | each property is the schema of the last parameter with that name |
| ToolBase.ToFunctionSchema | tools/base.py:134-160 | the function schema keeps name and description, and its properties and required list are those of the parameters |
| ToolBase.NonNoneArgs | tools/base.py:290-293 | the arguments kept are exactly those other than NoneType |
| ToolBase.JsonTypeOfSpec | tools/base.py:273-301 | Optional[X] maps like X, lists and dicts map to array and object, and every type maps to one of the six JSON types |
| ToolBase.JsonTypeOfInRange | tools/base.py:273-301 | every hint maps to one of the six JSON type names |
| ToolBase.FirstDocumentedLineSpec | tools/base.py:310-318 | the line used is the first that documents the parameter; none is used only when no line does |
| ToolBase.ExtractParamDescription | tools/base.py:304-320 | without a docstring there is no description; otherwise it comes from the first documenting line, and is absent when none documents the parameter |
| ToolBase.ParamDescription | tools/base.py:228-237 | an explicit override wins, else the docstring's description; an empty one gives `The <name> parameter`, so a description is never empty |
| ToolBase.ToolParams | tools/base.py:215-240 | `self` and `cls` are skipped, every other parameter appears, and a parameter is required iff it has no default |
| ToolBase.BuildToolDefinition | tools/base.py:206-249 | the name and description fall back to the function's name and the stripped first docstring line; the parameters are ToolParams |
| ToolBase.WrapToolCall | tools/base.py:252-270 | a returned ToolResult passes through, any other value is a success carrying it, and an exception is a failure with its text |
| ToolBase.RegistryOfSpec | tools/base.py:336-344 | exactly the public attributes carrying a definition are registered, each under its own name, and the registration order lists each once |
| ToolBase.BaseTool.constructor | tools/base.py:331-344 | a new collection registers the attributes as RegistryOf says |
| ToolBase.BaseTool.GetTools | tools/base.py:346-348 | get_tools returns the registered definitions in registration order |
| ToolBase.BaseTool.GetTool | tools/base.py:350-352 | get_tool finds a definition iff its name is registered |
| ToolBase.BaseTool.Execute | tools/base.py:354-373 | an unknown name fails with `Unknown tool: <name>`; otherwise the undecorated function's return comes back as it is and an exception becomes a failure |
| ToolBase.BaseTool.ToFunctionSchemas | tools/base.py:375-377 | one function schema per registered tool, in order |
| AgentBase.SuccessResponse | agents/base.py:76-80 | a success response carries the content, the tool calls and the iteration count, with no error |
| AgentBase.ErrorResponse | agents/base.py:81-83 | an error response has no content, the error message, and the tool calls and iteration count given |
| AgentBase.NamedInInit | agents/base.py:130-133 | a name is carried by a list of definitions iff the list without its last carries it or the last does |
| AgentBase.RegisterAllKeys | agents/base.py:130-133 | after registering a collection, a name is known iff it was known before or some definition carries it |
| AgentBase.RegisterAllKeeps | agents/base.py:130-133 | names no definition carries keep their old entry |
| AgentBase.RegisterAllLastWins | agents/base.py:130-133 | the last definition carrying a name is the one kept under it |
| AgentBase.RegisterOverwrites | agents/base.py:140 | registering a definition under a taken name replaces that entry and leaves every other entry alone |
| AgentBase.IterationLimit | agents/base.py:247 | a truthy override is the limit, otherwise the configured maximum |
| AgentBase.Execute | agents/base.py:149-172 | an unknown name fails with `Unknown tool: <name>`; a returned ToolResult passes through, any other return becomes a success, and an exception a failure with its text |
| AgentBase.FirstFence | agents/base.py:363 | the lazy group ends at the first closing fence at or after its start |
| AgentBase.Backtrack | agents/base.py:363 | the greedy `\s*` gives back characters one at a time and the first newline after which a closing fence exists starts the group, which ends at the first fence |
| AgentBase.FenceMatchAt | agents/base.py:363 | a match at a position is an opening fence with its tag, whitespace up to a newline, and a group ending at the first following closing fence |
| AgentBase.SkipSpacesAll | agents/base.py:363 | the characters skipped as `\s*` are all whitespace |
| AgentBase.FenceSearch | agents/base.py:363 | the bounds `re.search` returns lie inside the text |
| AgentBase.FenceSearchLeftmost | agents/base.py:363 | no match starts before the one `re.search` reports |
| AgentBase.Span | agents/base.py:372-379 | the span runs from the first opening character to the last closing one, exists only when the close comes after the open, and is absent otherwise |
| AgentBase.ExtractJsonBlock | agents/base.py:359-360 | empty text yields nothing |
| AgentBase.ExtractJsonBlockSource | agents/base.py:349-385 | whatever is returned is the parse of the fenced group, or of the object span, or of the array span |
| AgentBase.FencedFirst | agents/base.py:363-368 | a fenced block that parses wins over any brace span; one holding `null` yields nothing at once, as `json.loads` returns None |
| AgentBase.NoJsonWithoutBrackets | agents/base.py:359-385 | text without a fence, braces or brackets yields nothing |
| AgentBase.Agent.constructor | agents/base.py:96-120 | a new agent keeps its configuration, has the given tools registered in order and an empty conversation |
| AgentBase.Agent.RegisterTool | agents/base.py:122-143 | register_tool updates the registry as Register says and leaves the conversation alone |
| AgentBase.Agent.ExecuteTool | agents/base.py:149-172 | execute_tool is Execute over the agent's registry |
| AgentBase.Agent.ResetConversation | agents/base.py:174-176 | the conversation is emptied and the registry kept |
| AgentBase.Agent.AddSystemMessage | agents/base.py:178-180 | a system message is appended to the conversation |
| AgentBase.Agent.AddUserMessage | agents/base.py:182-184 | a user message is appended to the conversation |
| AgentBase.Agent.AddAssistantMessage | agents/base.py:186-190 | an assistant message is appended to the conversation |
| AgentBase.Agent.BuildMessages | agents/base.py:203-224 | the messages are the system instruction, the history, then the user's input |
| AgentBase.Agent.RunWithTools | agents/base.py:226-342 | the response is the reference run `RunFrom` from the built messages: each round asks the LLM once, an exception ends the run with its text, an answer or a round without tool calls ends it with that content, a round of tool calls records each call with its result and appends its request and result messages; at most the iteration limit of LLM calls, and past it `Max iterations (N) reached` |
| AgentBase.RunFromKeeps | agents/base.py:297-301 | the tool calls recorded in earlier rounds stay, in order, at the head of the run's `tool_calls` |
| AgentBase.RunFromSucceeds | agents/base.py:313-327 | a successful run has no error, ends within the limit and carries the content of an answer the LLM gave |
| AgentBase.RunFromFails | agents/base.py:329-342 | a failed run has no content and carries either the text of an exception the LLM raised within the limit or, with `iterations` the limit, the message naming the limit |
| AgentBase.Agent.RunCalls | agents/base.py:282-309 | one round of tool calls records each call with its result and appends its request and result messages, in order |
| AgentBase.CallsStep | agents/base.py:282-309 | one more tool call adds its record and its two messages |
| AgentBase.BuildMessagesValid | agents/base.py:203-224 | the messages an agent sends pass validation whenever its instruction, history and input do |
| Session.NewRecord | state/session.py:32-71 | a fresh session has the given id, project and workflow, its creation and update timestamps from two separate clock readings, step `init`, and no completed steps and no errors |
| Session.AppendNewSpec | state/session.py:78-82 | marking a step keeps the list duplicate-free, adds the step, keeps every earlier entry in place, and marking it again changes nothing |
| Session.MarkAllSpec | state/session.py:78-82 | marking steps in turn leaves exactly the old steps and the marked ones, each once |
| Session.JsonLen | state/session.py:120 | `len` of a list value is its length and of a null, boolean or number raises |
| Session.SummaryOf | state/session.py:112-126 | get_summary succeeds iff the plan's `releases` entry has a length; it counts approved and executed items, reports errors iff there are any, and copies `total_tickets` with default 0 |
| Session.SummaryOfNew | state/session.py:112-126 | the summary of a fresh session plans no releases and no tickets, has no errors and is at step `init` |
| Session.SessionState.FromDict | state/session.py:108-110 | from_dict takes every field from the record, so the session's record is the one given |
| Session.SessionState.Create | state/session.py:25-71 | a new session's record is the fresh record for its id, its two clock readings, project and workflow |
| Session.SessionState.UpdateTimestamp | state/session.py:74-76 | only the update time changes |
| Session.SessionState.MarkStepComplete | state/session.py:78-82 | the step is appended when absent and the update time set; nothing else changes |
| Session.SessionState.SetCurrentStep | state/session.py:84-87 | the current step and the update time change, nothing else |
| Session.SessionState.AddError | state/session.py:89-92 | the error is appended and the update time set; nothing else changes |
| Session.SessionState.AddConversation | state/session.py:94-101 | one entry with role, content and a clock reading is appended and the update time set |
| Session.SessionState.GetSummary | state/session.py:112-126 | get_summary is SummaryOf of the session's record |
| Persistence.Backend.Save | state/persistence.py:75-96 | save stores the session's record under its id and reports true, or reports false and changes nothing when the write fails |
| Persistence.Backend.Load | state/persistence.py:98-122 | load returns a new session iff a record is stored under the id, and that session's record is the stored one |
| Persistence.Backend.Delete | state/persistence.py:124-145 | delete removes the id (an absent one too) and reports true, or false with nothing changed when the write fails |
| Persistence.Backend.ListSessions | state/persistence.py:147-159 | every stored id is listed once |
| Persistence.SeqOfSet | state/persistence.py:455-458 | a listing of a set holds each member once |
| Persistence.FirstHolding | state/persistence.py:442-447 | the index found is the first backend holding the id; none holds it before |
| Persistence.AllIds | state/persistence.py:453-458 | an id is in the union iff some backend holds it |
| Persistence.Store.Save | state/persistence.py:438-440 | every backend is asked to save, and the save succeeds iff every backend's does |
| Persistence.Store.Load | state/persistence.py:442-447 | the first backend in order holding the session supplies it; none holds it gives None |
| Persistence.Store.Delete | state/persistence.py:449-451 | every backend is asked to delete, and the delete succeeds iff every backend's does |
| Persistence.Store.ListSessions | state/persistence.py:453-458 | the listing is the union of the backends' ids, each once |
| Persistence.ParseKind | state/persistence.py:416-427 | `json`, `sqlite` and `both` select their backends, and every other name raises `Unknown persistence type: <name>` |
| Persistence.GetPersistence | state/persistence.py:402-427 | `json` and `sqlite` give one new backend over that storage's existing sessions and writability; `both` gives two distinct new backends, JSON first and SQLite second; any other name raises `Unknown persistence type: <name>` |
| SessionManagement.WithoutNoDup | state/session.py:258-260 | deleting a key keeps the cache order duplicate-free |
| SessionManagement.SummariesOf | state/session.py:242-244 | without persistence, the listing is each cached session's summary in cache order |
| SessionManagement.SessionManager.CreateSession | state/session.py:145-177 | the new session is cached under its id, becomes current, and is saved by every writable backend when persistence is configured |
| SessionManagement.SessionManager.GetSession | state/session.py:179-200 | a cached session is returned as it is; otherwise the first backend holding it supplies a new session, and none gives None with the cache unchanged |
| SessionManagement.SessionManager.SaveSession | state/session.py:202-223 | the given session, else the current one, is stamped and cached; with neither there is nothing to save and nothing changes |
| SessionManagement.SessionManager.Cache | state/session.py:218 | the session is stored under its id and the current session is unchanged |
| SessionManagement.SessionManager.ListSessions | state/session.py:225-246 | with persistence every id some backend holds is listed once; without it the cached sessions' summaries are listed in cache order |
| SessionManagement.SessionManager.DeleteSession | state/session.py:248-266 | the cache entry goes; the result is persistence's answer, or true without persistence; the current session stays |
| SessionManagement.SessionManager.ResumeSession | state/session.py:268-285 | a session found in the cache or in persistence becomes current; otherwise the current session stays |
| JiraTools.JiraConnection.constructor | tools/jira_tools.py:49-76 | a fresh module holds no cached connection |
| JiraTools.JiraConnection.GetJira | tools/jira_tools.py:49-76 | without the Jira utilities get_jira fails; the first successful connection is cached and every later call returns it; a failed connection caches nothing |
| JiraTools.GetJiraTwice | tools/jira_tools.py:49-76 | once connected, a second call returns the same connection and keeps it cached |
| JiraTools.LinkedKey | tools/jira_tools.py:755-759 | a link leads to its outward issue if present, else to its inward one |
| JiraTools.Traversal.constructor | tools/jira_tools.py:740-741 | the traversal starts with no visited key and no collected ticket |
| JiraTools.Traversal.Traverse | tools/jira_tools.py:743-778 | traverse stops past the depth bound, on a visited key or at the limit; otherwise it visits the key; the collected list only grows, at most to the limit, and recorded depths never change |
| JiraTools.Traversal.Descend | tools/jira_tools.py:753-762 | the walk over an issue's links keeps the collected prefix, the limit and the recorded depths |
| JiraTools.GetRelatedTickets | tools/jira_tools.py:712-778 | without the utilities a failure with no tickets; a failed connection gives `Failed to get related tickets for <key>: <exception text>` and no tickets; otherwise a success listing the collected keys with count and root; the keys are distinct and at most `limit` |
| JiraTools.TraverseWithinDepth | tools/jira_tools.py:743-778 | every collected ticket was reached within the hierarchy depth, and the root at depth 0 |
| JiraTools.ExtractDescription | tools/jira_tools.py:815-839 | a falsy value gives "", a string comes back unchanged, a document gives its paragraph texts joined by newlines, anything else its string form |
| JiraTools.ExtractDescriptionRoundTrip | tools/jira_tools.py:391-404 | the document create_ticket writes for a description reads back as that description |
| JiraTools.FilterVersions | tools/jira_tools.py:216-228 | a version is kept iff its released flag is wanted and, when a pattern is given, its name matches |
| JiraTools.InsertByNameSpec | tools/jira_tools.py:240-241 | inserting a version into a name-ordered list keeps it ordered and adds exactly that version |
| JiraTools.SortByNameSpec | tools/jira_tools.py:240-241 | the sort orders by name and is a permutation of its input |
| JiraTools.VersionJson | tools/jira_tools.py:230-238 | a release dict holds exactly id, name, description, released, releaseDate, startDate and archived; a missing description reads `''`, a missing date None and a missing archived flag False |
| JiraTools.VersionsJson | tools/jira_tools.py:230-238 | one release dict per kept version, in order, each as VersionJson renders it |
| JiraTools.GetReleases | tools/jira_tools.py:192-253 | a failed connection or lookup gives `Failed to get releases for <key>: <exception text>` and no releases; otherwise the success data is the release dicts of the kept versions sorted by name, with their count as metadata |
| JiraTools.GetReleasesSpec | tools/jira_tools.py:214-243 | the releases are ordered by name and are exactly the kept versions |
| JiraTools.TicketOptions | tools/jira_tools.py:391-425 | create_ticket's six optional fields have distinct keys, none of them project, summary or issue type |
| JiraTools.WithOptionalOther | tools/jira_tools.py:391-425 | a key that no optional field names keeps its value |
| JiraTools.WithOptionalAt | tools/jira_tools.py:391-425 | an optional field is set iff its argument is present, to its value |
| JiraTools.TicketFieldsOptional | tools/jira_tools.py:391-416 | description, assignee, components, fix versions and labels are sent iff truthy; the description as a document |
| JiraTools.TicketFieldsBase | tools/jira_tools.py:385-389 | every ticket carries the given project, summary and issue type |
| JiraTools.CreateTicketFields | tools/jira_tools.py:385-428 | custom fields are applied last: each overrides its key and every other built field stays |
| JiraTools.CreatedDescriptionReadsBack | tools/jira_tools.py:385-428 | a description not overridden by a custom field reads back as given |
| JiraTools.ChooseTransition | tools/jira_tools.py:526-534 | no transition without a status; otherwise the first whose name equals the status ignoring case, and none only when no name does |
| JiraUtils.CaseMapSpec | jira_utils.py:735-745 | the lowercase lookup knows a form iff some server name has it, and maps it to such a name |
| JiraUtils.CanonicalTypesOk | jira_utils.py:735-756 | the issue types resolve iff every name is known ignoring case; the result has one canonical name per input, in input order, equal to it up to case |
| JiraUtils.CanonicalTypesErr | jira_utils.py:746-753 | a failure reads `Issue type "<name>" not found. Available: <known names, sorted, joined by ", ">` for the first unknown name |
| JiraUtils.CanonicalTypesErrExtends | jira_utils.py:746-753 | a failure on a prefix is the failure of the whole list |
| JiraUtils.NormalizeIssueTypes | jira_utils.py:719-756 | no names give None; otherwise the canonical names in input order, or the failure on the first unknown name, whose text ends with the sorted known names |
| JiraUtils.SortStatusesOk | jira_utils.py:776-812 | the includes are the canonical forms of the unmarked names and the excludes those of the `^`-marked ones, each in argument order |
| JiraUtils.SortStatusesErrExtends | jira_utils.py:776-812 | a failure on a prefix is the failure of the whole list |
| JiraUtils.NormalizeStatuses | jira_utils.py:759-821 | no names give None; an unknown name fails with `Status "<name>" not found. Available: <known statuses, sorted>`; without excludes a plain list, otherwise the include/exclude pair |
| JiraUtils.CaseMapCanonical | jira_utils.py:776-790 | every canonical name is the server's own spelling of that lowercase form |
| JiraUtils.StatusJqlEmpty | jira_utils.py:824-858 | the status clause is empty exactly when no status is named |
| JiraUtils.StatusJqlFormats | jira_utils.py:824-858 | a list and an include-only dict give the same IN clause; excludes add a NOT IN clause joined by AND after the includes |
| JiraUtils.GlobStar | jira_utils.py:1339 | `*` matches every name |
| JiraUtils.GlobLiteral | jira_utils.py:1339 | a pattern without wildcards matches only itself |
| JiraUtils.AnyGlobSpec | jira_utils.py:1339-1345 | some pattern of the list matches iff one of them does |
| JiraUtils.OnlyExclusions | jira_utils.py:1334-1347 | a pattern of exclusions alone matches exactly the names no exclusion matches |
| JiraUtils.IncludeExclude | jira_utils.py:1324-1347 | `a,^b` matches the names matching a and not b |
| JiraUtils.PairIncludesExcludes | jira_utils.py:1331-1332 | an unmarked part is an include and a `^` part an exclude without its mark |
| JiraUtils.Pad | jira_utils.py:956-957 | a date field is written in at least its width of digits, exactly that width when it fits, with the value of the number |
| JiraUtils.MdyRoundTrip | jira_utils.py:951-953 | a date written as MM-DD-YYYY parses back to that date |
| JiraUtils.UnconvertedRemains | jira_utils.py:951-953 | text after a date's four-digit year is refused with `unconverted data remains: <rest>` |
| JiraUtils.SpacePaddedDay | jira_utils.py:951-953 | a day of one digit after a space, as `%d` allows, is read as that day |
| JiraUtils.NoMatchAtStart | jira_utils.py:951-953 | text not opening with a digit is refused with `time data <repr> does not match format '%m-%d-%Y'`, in double quotes when it holds only single ones |
| JiraUtils.MonthAlts | jira_utils.py:951 | each `%m` alternative that matches reads as a month from 1 to 12 |
| JiraUtils.DayAlts | jira_utils.py:951 | each `%d` alternative that matches reads as a day from 1 to 31 |
| JiraUtils.ParseMdy | jira_utils.py:951-953 | a date strptime accepts has a month from 1 to 12 and a day from 1 to 31 |
| JiraUtils.DateRangeRoundTrip | jira_utils.py:940-961 | a range of two existing MM-DD-YYYY dates gives the created-between clause of the same dates as YYYY-MM-DD |
| JiraUtils.RangeIsNoKeyword | jira_utils.py:918-940 | text that is not a keyword and holds a colon is read as a range |
| JiraUtils.ParseEndMdy | jira_utils.py:951-953 | each end written as MM-DD-YYYY parses to its date |
| JiraUtils.KeywordsAnyCase | jira_utils.py:918-931 | the keyword `week` is recognised in any case and gives the seven-day clause |
| JiraUtils.Trim | jira_utils.py:2200-2204 | the issues kept are a prefix of those fetched, at most `limit` of them when a limit is set |
| JiraUtils.FetchFromSpec | jira_utils.py:2136-2204 | the fetch returns the listed issues in order, cut to the limit: nothing lost or repeated |
| JiraUtils.FetchTickets | jira_utils.py:2136-2204 | the paging loop returns FetchFrom's result; each page asks for between 1 and 100 issues, never more than the limit, and the first page has no token |
| JiraUtils.TallySpec | jira_utils.py:2460-2528 | each row is counted once as a success or an error, each error has its entry, a dry run calls Jira for nothing and a real run for each keyed row in order |
| JiraUtils.DryRunFailures | jira_utils.py:2460-2470 | in a dry run the errors are exactly the rows without a key |
| JiraUtils.BulkUpdate | jira_utils.py:2388-2547 | no rows and no operation end early; otherwise the first `max_updates` rows (all when 0) are tallied |
| JiraUtils.BulkCounts | jira_utils.py:2419-2421 | successes plus errors equal the rows processed, and a dry run updates no ticket |
| JiraUtils.PositionRoundTrip | jira_utils.py:3280-3288 | `row,column` written as two numbers is accepted as that position |
| JiraUtils.PositionNeedsOneComma | jira_utils.py:3280-3288 | a position with no comma, or more than one, is refused |
| JiraUtils.GadgetColor | jira_utils.py:3290-3297 | a colour is accepted in any case and stored lowercased; any other colour is refused |
| JiraAnalyst.ParseInput | agents/jira_analyst.py:99-110 | a string is the project key with full scope; a dict gives its key (else the agent's) and scope (else full); a missing key or other input is an error |
| JiraAnalyst.ParseInputDefaults | agents/jira_analyst.py:99-110 | an empty dict falls back to the agent's own key, and a bare key behaves as a dict naming it |
| JiraAnalyst.Request | agents/jira_analyst.py:112-122 | the request opens with `Analyze the Jira project "`, holds the rendered key and scope, and ends with the fixed five-step instructions and the release-planning focus line |
| JiraAnalyst.Run | agents/jira_analyst.py:87-124 | a rejected input is an error response with no LLM call; otherwise the tool loop answers within the iteration bound |
| JiraAnalyst.UnreleasedSpec | agents/jira_analyst.py:196 | the unreleased count counts exactly the releases without a truthy released flag |
| JiraAnalyst.ErrorLinesCount | agents/jira_analyst.py:158-191 | one labelled error per failed call, so errors exist iff a call failed |
| JiraAnalyst.AnalyzeProject | agents/jira_analyst.py:126-202 | each field keeps its default unless its call succeeded; each failure adds its error; the summary counts releases, unreleased, components and issue types and flags errors |
| JiraAnalyst.PicksSpec | agents/jira_analyst.py:256-267 | each ticket position is picked for its own group exactly once, in increasing order |
| JiraAnalyst.BucketsSpec | agents/jira_analyst.py:256-267 | the groups are exactly the tags that occur; a group lists the keys of its tickets in ticket order |
| JiraAnalyst.GroupTickets | agents/jira_analyst.py:256-267 | the ticket loop builds by_type and by_status as Buckets specifies |
| JiraAnalyst.File | agents/jira_analyst.py:259-261 | a step creates the group when new and appends the key to it |
| JiraAnalyst.ReleaseDataSpec | agents/jira_analyst.py:241-267 | the ticket count is the number of tickets, and each ticket is filed under its own type and status (Unknown when missing) and no other |
| JiraAnalyst.GetReleaseStructure | agents/jira_analyst.py:204-271 | a failed release listing yields only its error; otherwise one entry per release, in order |
| PmAgent.DedupSnoc | pm_agent.py:374-381 | a further record is kept exactly when its key is non-empty and not yet taken |
| PmAgent.DedupKeys | pm_agent.py:368-381 | the merged keys are non-empty and distinct, and are exactly the input's non-empty keys not already seen |
| PmAgent.DedupFirstWins | pm_agent.py:368-381 | each merged record is the first input record with its key, in input order |
| PmAgent.MergeRelated | pm_agent.py:368-381 | the merge succeeds iff every root's traversal does, and then holds the deduplicated records of all roots in root order |
| PmAgent.FirstLevelKeys | pm_agent.py:412 | the first-level keys are exactly the keys of depth-1 merged records |
| PmAgent.FirstLevelKeysDistinct | pm_agent.py:412 | with distinct merged keys the first-level keys are distinct |
| PmAgent.SheetTitle | pm_agent.py:468 | a sheet title is the first 31 characters of its name, the whole name when shorter |
| PmAgent.DataRows | pm_agent.py:524 | a copied sheet reports its rows minus the header, never below zero |
| PmAgent.SucceededKeys | pm_agent.py:416-442 | the keys that get a sheet are exactly the first-level keys whose child fetch did not raise, in order |
| PmAgent.SucceededKeysSnoc | pm_agent.py:416-442 | one more key gets a sheet exactly when its fetch succeeded |
| PmAgent.AssembleWorkbook | pm_agent.py:414-536 | the workbook is `Tickets` followed by one sheet per succeeded key with its truncated title and data-row count, and the total counts all data rows |
| PmAgent.OutputFileNameSpec | pm_agent.py:323-333 | the name always ends in `.xlsx`; an explicit name keeps or gains that suffix; otherwise one key or the keys joined by `_`; naming twice changes nothing |
| PmAgent.CmdBuildExcelMap | pm_agent.py:280-567 | the keys are uppercased and the output named by OutputFileName; the exit status is 1, with no sheets, when openpyxl is missing, the connection or the project validation fails, or a root's traversal raises, and 0 otherwise; then the records are the merge's and the sheets are `Tickets` followed by one sheet per succeeded first-level key, with its title and data rows |
| PmAgent.UpperAll | pm_agent.py:307 | each key uppercased, in order |
| PmAgent.SummaryIndexSpec | pm_agent.py:600-604 | the fold column is the first header whose stripped lowercase text is `summary`, and none is found only when there is none |
| PmAgent.LongestCellIndex | pm_agent.py:605-608 | otherwise the first of the first n cells holding a longest cell |
| PmAgent.FoldColumn | pm_agent.py:600-608 | the fold column is a column of the header |
| PmAgent.RepairRowPreservesText | pm_agent.py:594-629 | an over-long row keeps its comma-joined text and changes only the fold column; a short row is kept and padded with empty cells |
| PmAgent.FoldKeepsText | pm_agent.py:612-619 | folding cells into one column keeps the joined text and the cells on either side |
| PmAgent.RepairCsvRow | pm_agent.py:594-629 | a row is repaired as RepairRow says, and counts as changed iff its width differs from the header's |
| PmAgent.ValidateAndRepairCsv | pm_agent.py:570-638 | an empty file is left alone; otherwise every data row is repaired to the header's width and the file is rewritten iff some row did not fit |
| ExcelTools.KeysOf | tools/excel_tools.py:96-97 | a single key string is treated as a one-key list; a list is kept |
| ExcelTools.MapSummary | tools/excel_tools.py:228-245 | the returned summary holds exactly the output file, sheet count, total rows, depth-1 count, related count and the root keys as a list of strings in order |
| ExcelTools.BuildExcelMap | tools/excel_tools.py:67-266 | keys are uppercased; a missing Jira utility, a missing openpyxl, a failed connection or a failing traversal raises the `TypeError` of calling `ToolResult.error`, which is the field default None; otherwise the result is a success whose records are the merge's, whose sheets are `Tickets` followed by one sheet per succeeded first-level key with its title and data rows, and whose summary counts those sheets and rows |
| ExcelTools.ConcatExcel | tools/excel_tools.py:267-310 | merge-sheet and add-sheet call their routine, any other method calls neither; success reports the output, input count and method, every other path raises |
| ExcelTools.DiffExcel | tools/excel_tools.py:375-405 | the diff routine is called iff exactly two inputs are given; its output path is returned, every other path raises |
| ExcelUtils.HeadersOfSpec | excel_utils.py:161-162 | the i-th header is the `str()` text of the i-th header cell, a zero or `False` included, or `Column_<i+1>` when that cell is empty (None) |
| ExcelUtils.RowUpTo | excel_utils.py:171-174 | a row dict has exactly the headers of its first cells as keys |
| ExcelUtils.RowUpToValue | excel_utils.py:171-174 | a cell under a header that occurs once carries that cell's value |
| ExcelUtils.DataOf | excel_utils.py:158-190 | rows and formats stay as many as each other, never more than the data rows |
| ExcelUtils.ReadSheetData | excel_utils.py:133-190 | the read loop computes SheetDataOf: headers from the first row, then the data rows |
| ExcelUtils.ReadRow | excel_utils.py:169-187 | one data row's cells under their headers, up to the header's width, with their formats |
| ExcelUtils.DataOfSnoc | excel_utils.py:166-187 | one more row is kept, cut to the header's width, unless all its cells are empty |
| ExcelUtils.DataOfParallel | excel_utils.py:169-187 | rows and formats have the same keys, and a row holds only header columns |
| ExcelUtils.DataOfKeepsRows | excel_utils.py:166-167 | no row that is not all empty is dropped |
| ExcelUtils.OutRow | excel_utils.py:471-478 | an output row has the row's value under each union column, empty where it lacks the column |
| ExcelUtils.MergedRowsShape | excel_utils.py:465-481 | the merged sheet has one row per data row of every file, each as wide as the union |
| ExcelUtils.UnionColumnsSpec | excel_utils.py:432-448 | the union columns are distinct, contain every file's headers, and start with the first file's columns in order |
| ExcelUtils.FirstFailure | excel_utils.py:436-437 | there is no load failure iff every file loads |
| ExcelUtils.ConcatMergeSheet | excel_utils.py:408-517 | fails with the first file that cannot be loaded; otherwise the union columns, every row of every file on them, and their count |
| ExcelUtils.LoadStep | excel_utils.py:436-442 | reading one more file appends its sheet data |
| ExcelUtils.AddColumns | excel_utils.py:445-448 | the header loop appends each header not yet seen, and seen is the set of those listed |
| ExcelUtils.WriteMergedRows | excel_utils.py:462-481 | phase 2 writes MergedRows and counts the rows |
| ExcelUtils.SheetBase | excel_utils.py:555-556 | a sheet's base name has at most 31 characters |
| ExcelUtils.SuffixedInjective | excel_utils.py:561-563 | different suffixes give different names |
| ExcelUtils.FreeSuffix | excel_utils.py:560-562 | the suffix chosen is the smallest from 2 whose name is free |
| ExcelUtils.UniqueNameSpec | excel_utils.py:559-564 | an unused base is kept; a used one becomes `base[:28]_n` for the smallest free n >= 2; the name is never one already used |
| ExcelUtils.NameSheets | excel_utils.py:546-564 | the naming loop computes SheetNames |
| ExcelUtils.Name | excel_utils.py:555-564 | one file's sheet name is UniqueName of its base |
| ExcelUtils.SheetNamesDistinct | excel_utils.py:546-564 | all sheet names differ |
| ExcelUtils.SheetNameForm | excel_utils.py:555-564 | each name is the file's base when free, else the first free suffixed form |
| ExcelUtils.SheetNamesPrefix | excel_utils.py:548-564 | later files never rename earlier ones |
| ExcelUtils.ConcatAddSheetSpec | excel_utils.py:520-627 | succeeds iff every file loads; then one distinctly named sheet per file with all its rows |
| ExcelUtils.FitWidth | excel_utils.py:404 | a width is two more than the longest text, clamped to 10..50 |
| ExcelUtils.AutoFitColumns | excel_utils.py:385-405 | one width per column, from the longest text among the first 101 rows |
| ExcelUtils.ColumnMaxSpec | excel_utils.py:396-402 | the sampled maximum bounds every sampled text and is reached by one, or is 0 |
| ExcelUtils.ColumnMaxIgnoresLater | excel_utils.py:399 | rows after the 101st never change a width |
| ExcelUtils.LastIndexLast | excel_utils.py:723-725 | a repeated header key maps to its last occurrence |
| ExcelUtils.HeaderLookupSpec | excel_utils.py:723-731 | a category is found iff some header's stripped lowercase text is its key, at the last such header |
| ExcelUtils.Label | excel_utils.py:739-742 | a value counts under its stripped text, and under `(blank)` when it is empty, false (a zero included) or blank, so the label is never empty |
| ExcelUtils.InsertSpec | excel_utils.py:746 | inserting keeps the table ordered by count descending then value, and adds exactly that entry |
| ExcelUtils.SortCountsSpec | excel_utils.py:746 | the sorted table is ordered and holds exactly the counted entries |
| ExcelUtils.CreateDashboard | excel_utils.py:690-829 | one table per category whose column exists, in category order; no sheet when none exists |
| ExcelUtils.CountColumn | excel_utils.py:736-743 | the counting loop tallies the column's labels |
| ExcelUtils.DashboardTable | excel_utils.py:736-814 | each table belongs to a category whose column exists and carries its title; its total is the number of data rows; it is sorted by count then value; and an entry is in it exactly when its value is a label of that column and its count is the number of rows with that label |
| ExcelUtils.RStripSlash | excel_utils.py:890 | trailing slashes removed, nothing else |
| ExcelUtils.ConvertedPath | excel_utils.py:878-884 | the output path always ends in `.xlsx` |
| ExcelUtils.ConvertLinks | excel_utils.py:890-920 | a cell is linked iff a base URL is given, its header is `key` and its value non-empty; the link is base, `/browse/`, value |
| ExcelUtils.KeyColumn | excel_utils.py:1027-1034 | the key column is `key`, `Key` or `KEY` if present, else the first union column, none only when there are no columns |
| ExcelUtils.BlankKeyIndexedAsWritten | excel_utils.py:1050-1058 | as written, a row whose key cell is empty gets the key `None` and is indexed |
| ExcelUtils.RowKey | excel_utils.py:1050-1058 | corrected: a row's key is its key cell's `str()` text (a zero reads `0`), and empty (not indexed) when there is no key column, the column's name is empty, or the key cell is empty |
| ExcelUtils.RowKeyCorrects | excel_utils.py:1050-1058 | the corrected and as-written keys differ exactly on rows with a named key column whose key cell is empty |
| ExcelUtils.CompareText | excel_utils.py:1070-1071 | a cell compares as its text when it is true and as the empty text otherwise, so an empty cell, a zero and an empty text compare equal |
| ExcelUtils.IndexKeys | excel_utils.py:1048-1058 | the index holds exactly the non-empty row keys |
| ExcelUtils.IndexKeyCell | excel_utils.py:1048-1058 | every indexed row carries its key in the key column, the later duplicate winning |
| ExcelUtils.KeyOrderSpec | excel_utils.py:1064 | the keys are visited once each, exactly the indexed ones |
| ExcelUtils.ChangeLine | excel_utils.py:1070-1073 | a column is reported iff the two sides read differently |
| ExcelUtils.ChangesEmpty | excel_utils.py:1068-1075 | no change is listed iff every union column reads the same |
| ExcelUtils.FromA | excel_utils.py:1064-1091 | A's keys are each removed, changed or same, and changed plus same are the keys also in B |
| ExcelUtils.FromB | excel_utils.py:1094-1101 | B's added keys are those not in A |
| ExcelUtils.DiffPairCounts | excel_utils.py:1043-1111 | removed, changed and same count A's keys once each; added, changed and same count B's |
| ExcelUtils.ChangedIff | excel_utils.py:1068-1083 | a shared key is CHANGED iff some union column differs after falsy values read as empty |
| ExcelUtils.DiffOutput | excel_utils.py:1005-1008 | the diff output path always ends in `.xlsx` |
| ExcelUtils.AllPairs | excel_utils.py:1043 | n files give n - 1 comparisons, none for fewer than two |
| ExcelUtils.DiffFiles | excel_utils.py:970-1201 | fails at the first unloadable file; otherwise each consecutive pair compared on the key column |
| ExcelUtils.LoadSheets | excel_utils.py:1010-1022 | every file read in turn, failing at the first that cannot be loaded |
| ExcelUtils.ComparePairs | excel_utils.py:1043-1111 | the pair loop computes AllPairs' entries and summaries |
| DrawioUtilities.LookupSpec | drawio_utilities.py:87-127 | a colour-table lookup gives the entry for the key when there is one, the default otherwise |
| DrawioUtilities.GetBoxColor | drawio_utilities.py:226-246 | depth 0 gets the root fill whatever the link; otherwise the fill of the lowercased stripped link, white when unknown or empty |
| DrawioUtilities.GetStrokeColor | drawio_utilities.py:249-263 | the colour of the lowercased stripped link, grey when unknown or empty |
| DrawioUtilities.ColorsDependOnLinkKey | drawio_utilities.py:226-263 | links equal up to case and surrounding whitespace get the same colours, and an empty link reads like an unknown one |
| DrawioUtilities.LookupDependsOnKey | drawio_utilities.py:243-263 | a lookup in a table without an empty key gives the default for the empty link |
| DrawioUtilities.TablesKeysNonEmpty | drawio_utilities.py:87-122 | no colour table has an entry for the empty relationship |
| DrawioUtilities.ColorsInRange | drawio_utilities.py:226-263 | every colour is the table's entry for the normalised link or a default |
| DrawioUtilities.FirstMatchingGroup | drawio_utilities.py:167-171 | the first keyword group with a keyword inside the text; none only when no group has one |
| DrawioUtilities.GetStatusEmoji | drawio_utilities.py:152-172 | an empty status gets the default badge; otherwise the badge of the first group, in table order, with a keyword inside the lowercased stripped status, else the default |
| DrawioUtilities.BlockedTakesPrecedence | drawio_utilities.py:141-172 | a status mentioning blocked always shows the blocked badge |
| DrawioUtilities.UnmatchedStatusIsNeutral | drawio_utilities.py:140-172 | a status with no keyword of any group shows the default badge |
| DrawioUtilities.DepthOf | drawio_utilities.py:213-217 | a row's depth is its parsed depth cell, 0 when missing or unparsable |
| DrawioUtilities.ResolveInputPath | drawio_utilities.py:193-198 | the given path if it exists, else that path plus `.csv` when it exists and the name lacked the extension, else not found |
| DrawioUtilities.LoadTickets | drawio_utilities.py:179-223 | the load succeeds iff both key and depth columns exist, naming the first missing one; each row is kept with its depth converted |
| DrawioUtilities.AtDepthSnoc | drawio_utilities.py:283-286 | a further ticket joins only its own depth's row |
| DrawioUtilities.AtDepthMembers | drawio_utilities.py:283-286 | a depth's row holds exactly the tickets of that depth |
| DrawioUtilities.AtDepthNoDupKeys | drawio_utilities.py:283-286 | with distinct keys a row repeats no key |
| DrawioUtilities.AtDepthAbsent | drawio_utilities.py:283-286 | a depth no ticket has has an empty row |
| DrawioUtilities.GroupByDepth | drawio_utilities.py:283-286 | by_depth has exactly the tickets' depths, each mapped to its tickets in order |
| DrawioUtilities.SortedDepths | drawio_utilities.py:298-310 | the sorted depths are the tickets' depths, ascending, each once |
| DrawioUtilities.MaxRowWidthIsMax | drawio_utilities.py:298-307 | max_width is at least every row's width and equals one of them |
| DrawioUtilities.RowsCentred | drawio_utilities.py:314-315 | every row is centred on the widest: equal margins either side, never less than the page margin |
| DrawioUtilities.RowPositionsKeys | drawio_utilities.py:319-321 | a row writes a position for each of its keys and keeps the others |
| DrawioUtilities.RowPositionsAt | drawio_utilities.py:319-321 | box i of a row sits i steps of 220 from the row's start |
| DrawioUtilities.RowPositionsOutside | drawio_utilities.py:319-321 | a row leaves other keys' positions alone |
| DrawioUtilities.PositionsOfAt | drawio_utilities.py:310-321 | the i-th ticket of depth d is at row d's height, i steps of 220 from the row's start |
| DrawioUtilities.PositionsOfKeys | drawio_utilities.py:310-321 | exactly the tickets whose depth is laid out get a position |
| DrawioUtilities.LayOut | drawio_utilities.py:298-321 | the two layout loops compute the widest row and the positions |
| DrawioUtilities.MeasureRows | drawio_utilities.py:298-307 | the first loop computes the widest row |
| DrawioUtilities.PlaceRows | drawio_utilities.py:310-321 | the second loop computes every row's positions |
| DrawioUtilities.PlaceRow | drawio_utilities.py:319-321 | the inner loop places one row's boxes 220 apart |
| DrawioUtilities.DisplaySummary | drawio_utilities.py:371-382 | the box summary is at most 40 characters, and a short summary without `(via ` is shown stripped and whole |
| DrawioUtilities.CellIdsKeys | drawio_utilities.py:364-387 | every ticket key has a cell id |
| DrawioUtilities.CellIdsSpec | drawio_utilities.py:364-387 | a key's id is 2 plus the index of its last ticket |
| DrawioUtilities.PlaceVertices | drawio_utilities.py:364-429 | one vertex per ticket with ids from 2 in ticket order, each at its key's position |
| DrawioUtilities.ExplicitEdgesOf | drawio_utilities.py:445-485 | explicit-mode edges are numbered consecutively |
| DrawioUtilities.ExplicitStepFacts | drawio_utilities.py:448-485 | a turn adds at most one edge, never a self-loop and never a triple already drawn |
| DrawioUtilities.AskedTriplesSound | drawio_utilities.py:448-464 | every asked-for triple is asked for by some ticket |
| DrawioUtilities.AskedTriplesComplete | drawio_utilities.py:448-464 | every triple a ticket asks for is among the asked-for triples |
| DrawioUtilities.ExplicitEdgesTriples | drawio_utilities.py:445-485 | the triples drawn in explicit mode are exactly those the tickets ask for |
| DrawioUtilities.ExplicitEdgesDistinct | drawio_utilities.py:445-485 | no two explicit edges share a triple and none is a self-loop |
| DrawioUtilities.BlankSourceNoIncomingEdge | drawio_utilities.py:450-454 | with distinct keys a ticket with a blank from_key gets no incoming explicit edge |
| DrawioUtilities.ExplicitTurn | drawio_utilities.py:448-485 | one turn with the source's checks computes ExplicitStep and keeps `created_edges` equal to the drawn triples |
| DrawioUtilities.ExplicitEdges | drawio_utilities.py:445-485 | the explicit-mode loop computes ExplicitEdgesOf |
| DrawioUtilities.RowEdgesSound | drawio_utilities.py:505-530 | each fallback row edge leaves the parent and enters a ticket of the row that has a cell, labelled with its link |
| DrawioUtilities.RowEdgesComplete | drawio_utilities.py:505-530 | every ticket of the row that has a cell gets an edge from the parent |
| DrawioUtilities.FallbackEdgesSound | drawio_utilities.py:487-530 | fallback edges are numbered consecutively, each into a laid-out ticket from the first ticket one level up |
| DrawioUtilities.FallbackStepKeeps | drawio_utilities.py:487-530 | a turn keeps the edges drawn before it |
| DrawioUtilities.FallbackStepComplete | drawio_utilities.py:487-530 | the turn for a ticket's depth draws its fallback edge |
| DrawioUtilities.FallbackEdgesComplete | drawio_utilities.py:487-530 | every laid-out ticket with a cell and a parent cell gets its fallback edge |
| DrawioUtilities.RowEdges | drawio_utilities.py:505-530 | the inner fallback loop computes RowEdgesOf |
| DrawioUtilities.ParentIdOf | drawio_utilities.py:494-503 | the parent is the first ticket of the previous level, by its cell id |
| DrawioUtilities.FallbackEdges | drawio_utilities.py:487-530 | the fallback loop over sorted depths computes FallbackEdgesOf |
| DrawioUtilities.DrawEdges | drawio_utilities.py:443-530 | explicit mode when any from_key is non-blank, fallback mode otherwise |
| DrawioUtilities.PageHeightBounds | drawio_utilities.py:349 | the page reaches below every row, exactly one row below the deepest |
| DrawioUtilities.LayOutTickets | drawio_utilities.py:283-321 | grouping, sorting and both layout loops give every ticket a position |
| DrawioUtilities.CreateDrawioXml | drawio_utilities.py:266-538 | no tickets fail; otherwise the page is the widest row plus margins, vertices get ids from 2 at their positions, and the edges are DiagramEdges |
| DrawioTools.NewlineFormRoundTrip | tools/drawio_tools.py:520-523 | `Name\nTitle` parses back to the stripped name and title |
| DrawioTools.DashFormRoundTrip | tools/drawio_tools.py:525-528 | `Name - Title` parses back to the stripped name and title when the name has no dash and neither part a newline |
| DrawioTools.ParenFormRoundTrip | tools/drawio_tools.py:530-533 | `Name (Title)` parses back to the stripped name and title when the name has no parenthesis and neither part a newline or dash |
| DrawioTools.ParenSplitOf | tools/drawio_tools.py:531-533 | the `Name (Title)` pattern finds the name and the title |
| DrawioTools.IndexOfAt | tools/drawio_tools.py:525-528 | the separator search finds the first occurrence |
| DrawioTools.AreasMatchingMembers | tools/drawio_tools.py:603-609 | an area is listed iff some table entry naming it has its keyword in the title |
| DrawioTools.AreasMatchingAppend | tools/drawio_tools.py:603-609 | areas come out in keyword-table order |
| DrawioTools.ExtractAreas | tools/drawio_tools.py:574-613 | no areas exactly for an empty title |
| DrawioTools.ExtractAreasSpec | tools/drawio_tools.py:574-613 | an area is listed iff it belongs to a keyword in the lowercased title, or it is General and none matched |
| DrawioTools.EdgeCellsMembers | tools/drawio_tools.py:110-120 | every edge comes from a non-root cell with both ends, and every such cell gives one |
| DrawioTools.NodeMapSpec | tools/drawio_tools.py:110-136 | the node ids are, without repetition, exactly the ids of valued non-edge cells |
| DrawioTools.NodeMapLast | tools/drawio_tools.py:121-136 | a node is built from the last node cell with its id |
| DrawioTools.CollectCells | tools/drawio_tools.py:82-136 | the cell loop over every diagram computes the node order, the nodes and the edges |
| DrawioTools.HierarchySpec | tools/drawio_tools.py:139-149 | the hierarchy's keys are exactly the sources of edges joining two nodes, each mapped to its non-empty reports |
| DrawioTools.ReportsMembers | tools/drawio_tools.py:139-149 | a report is the target of a joining edge from its manager |
| DrawioTools.ManagerIdSpec | tools/drawio_tools.py:146-153 | a node's manager is the source of the last joining edge into it; none iff no joining edge enters it |
| DrawioTools.LinkedKeepsNames | tools/drawio_tools.py:150-153 | linking managers changes no id, name or title |
| DrawioTools.LinkManagers | tools/drawio_tools.py:139-153 | the hierarchy loop computes the hierarchy and the linked nodes |
| DrawioTools.ManagerOfStep | tools/drawio_tools.py:146-153 | one more edge sets its target's manager when it joins two nodes and changes no other |
| DrawioTools.RootsSpec | tools/drawio_tools.py:155-159 | the roots are exactly the nodes no joining edge enters |
| DrawioTools.RootsMembers | tools/drawio_tools.py:155-159 | the roots are the nodes without a manager, in node order |
| DrawioTools.BuildTeam | tools/drawio_tools.py:543-571 | build_team returns TeamOf's team and appends its sub-teams to the outer list |
| DrawioTools.MembersOfStep | tools/drawio_tools.py:550-567 | a report who leads no one is a member; a lead already on the path fails; else its sub-teams are built |
| DrawioTools.MembersErrPropagates | tools/drawio_tools.py:550-567 | a failure in the reports loop is the call's failure |
| DrawioTools.BuildTeams | tools/drawio_tools.py:539-571 | _build_teams over the roots computes TeamsOf |
| DrawioTools.TeamOfClosed | tools/drawio_tools.py:543-571 | a team is its lead's at the call's depth, after a post-order list of its sub-teams |
| DrawioTools.TeamsOfPostOrder | tools/drawio_tools.py:539-571 | every sub-team is appended before its parent's team, and the list ends with the last root's team |
| DrawioTools.TeamOfAcyclic | tools/drawio_tools.py:543-571 | build_team succeeds on an acyclic hierarchy |
| DrawioTools.TeamsOfAcyclic | tools/drawio_tools.py:539-571 | _build_teams succeeds whenever the hierarchy is acyclic |
| DrawioTools.TeamOfCycle | tools/drawio_tools.py:543-571 | a cycle reachable from the lead makes build_team fail, as the unbounded recursion does |
| DrawioTools.TeamsOfCycle | tools/drawio_tools.py:539-571 | _build_teams fails when a cycle is reachable from a root |
| DrawioTools.ParseOrgChart | tools/drawio_tools.py:51-181 | a missing file and unreadable XML fail with their messages; otherwise it succeeds iff the teams build, with the node list `ChartNodeList`, the hierarchy, the roots, the teams and the counts of the cells |
| DrawioTools.ChartNodeAt | tools/drawio_tools.py:121-165 | each listed node, in the order its id first appeared, is built from the last node cell with that id (name and title parsed from its cleaned value) and carries as manager the source of the last edge joining another node to it, with that node's name |
| DrawioTools.ChartFacts | tools/drawio_tools.py:139-162 | the node order lists every node once, the roots are the nodes no joining edge enters, and linking managers does not change the teams |
| DrawioTools.NodeMapFresh | tools/drawio_tools.py:129-136 | collected nodes carry no manager yet |
| DrawioTools.PersonFor | tools/drawio_tools.py:227-238 | a person is a lead iff it has a report, direct_reports is its number of reports, and its areas come from its title |
| DrawioTools.AddAreas | tools/drawio_tools.py:241-248 | the area loop appends the person's entry under each area |
| DrawioTools.GetResponsibilities | tools/drawio_tools.py:187-263 | the result is the by-person, by-area and team-lead views of the nodes |
| DrawioTools.ByPersonKeys | tools/drawio_tools.py:218-238 | a name has an entry iff a node carries it; nameless nodes never do |
| DrawioTools.ByPersonLast | tools/drawio_tools.py:232-238 | a name's entry is that of the last node carrying it |
| DrawioTools.TeamLeadsSpec | tools/drawio_tools.py:250-255 | the team leads are exactly the named nodes with at least one report, each with its number of reports |
| DrawioTools.ByAreaSound | tools/drawio_tools.py:241-248 | every entry under an area belongs to a named node whose areas include it |
| DrawioTools.ByAreaComplete | tools/drawio_tools.py:241-248 | every named node is listed under each of its areas |
| DrawioTools.AddToAreasSound | tools/drawio_tools.py:241-248 | after adding, an entry under an area is the new one or was there before |
| DrawioTools.AddToAreasComplete | tools/drawio_tools.py:241-248 | adding appends the new entry under every listed area |
| DrawioTools.AddToAreasKeeps | tools/drawio_tools.py:241-248 | adding never drops an entry |
| PlanExport.PlanJsonToRows | tools/plan_export_tools.py:81-168 | the row loop produces exactly the reference rows of the plan: each Epic's row followed by its Stories' rows, Epics in plan order |
| PlanExport.AppendStoryRows | tools/plan_export_tools.py:137-166 | the inner loop appends one Story row per Story of the Epic, in Story order, after the rows already built |
| PlanExport.PlanRowsLength | tools/plan_export_tools.py:104-166 | the row count is the number of Epics plus the number of Stories |
| PlanExport.PlanRowsPrefix | tools/plan_export_tools.py:104-166 | rows are built Epic by Epic, so the rows of the first Epics are a prefix of all rows |
| PlanExport.PlanRowsLayout | tools/plan_export_tools.py:104-166 | Epic i's row, with issue type Epic and depth 0, sits right after the rows of the Epics before it, and the row of its k-th Story, with issue type Story, depth 1 and the Epic's summary as parent, follows at offset 1 + k |
| PlanExport.PlanRowsTypes | tools/plan_export_tools.py:107-161 | there are exactly as many Epic rows as Epics and as many Story rows as Stories |
| PlanExport.ResolveOutputPathSpec | tools/plan_export_tools.py:171-176 | an explicit output path wins; otherwise the result starts with the input path without its extension and ends in .csv for the csv format and .xlsx for any other |
| PlanExport.ResolveReplacesExtension | tools/plan_export_tools.py:171-176 | an input name.ext gives name.csv or name.xlsx |
| PlanExport.ExtraKeysSpec | tools/plan_export_tools.py:209-213 | a column is an extra column exactly when it is not a base column and some row has it |
| PlanExport.PadSpec | tools/plan_export_tools.py:261-265 | padding keeps every existing cell and adds exactly the missing columns, each empty |
| PlanExport.MaxDepthSpec | tools/plan_export_tools.py:219-224 | every row's depth is at most the maximum depth, and some row reaches it unless it is 0 |
| PlanExport.DepthColumns | tools/plan_export_tools.py:226 | n depth columns, the i-th named for depth i |
| PlanExport.Without | tools/plan_export_tools.py:227-229 | filtering out a name keeps exactly the other names |
| PlanExport.ContentFields | tools/plan_export_tools.py:227 | the content columns are the base columns other than key |
| PlanExport.WritePlanCsv | tools/plan_export_tools.py:183-273 | no rows give the base header alone; the indented format with some row's depth set writes the depth-column layout and leaves the rows unchanged; otherwise every row is padded in place to the flat columns, which are written with each row's cells |
| PlanExport.AnyDepthOf | tools/plan_export_tools.py:218 | the scan reports whether some row has a non-empty depth |
| PlanExport.PadRows | tools/plan_export_tools.py:263-265 | the padding loop turns every row, in place, into its padded row |
| PlanExport.WriteIndented | tools/plan_export_tools.py:218-256 | the indented branch gives exactly the reference indented table |
| PlanExport.ScanMaxDepth | tools/plan_export_tools.py:219-224 | the depth scan gives the reference maximum depth, passing over rows whose depth cannot be read |
| PlanExport.RebuildRows | tools/plan_export_tools.py:232-248 | the rebuild loop gives the reference rebuilt row of each row |
| PlanExport.FlatLayout | tools/plan_export_tools.py:209-270 | the flat columns are distinct and cover every column of every row, and each written cell is the row's own value under that column, or empty where the row had none |
| PlanExport.WriteRowsSpec | tools/plan_export_tools.py:250-270 | writing rows succeeds exactly when every row's keys are columns, and then writes each row's cells in column order |
| PlanExport.NewRowKeys | tools/plan_export_tools.py:233-248 | a rebuilt row has exactly the depth columns, the column of its own depth, the content columns and the extras |
| PlanExport.NewRowCells | tools/plan_export_tools.py:240-247 | in a rebuilt row a depth column not shadowed by an extra holds the key-or-summary label at the row's own depth and is empty elsewhere; a content or extra column holds the row's own value |
| PlanExport.IndentedLayout | tools/plan_export_tools.py:218-253 | with no negative depth the indented write succeeds with the depth-column header, one line per row, and in line i the depth cells are empty except the row's own depth, which holds its label |
| PlanExport.LaidOutOk | tools/plan_export_tools.py:232-253 | when every depth lies below the number of depth columns and is not negative, every rebuilt row fits the columns and the write succeeds |
| PlanExport.LaidOutLayout | tools/plan_export_tools.py:232-253 | the indented layout's header, line count and depth cells, for any number of depth columns above every row's depth |
| PlanExport.NegativeDepthErr | tools/plan_export_tools.py:237-253 | a row whose depth is negative gets a depth column outside the header, and the indented write fails |
| PlanExport.LaidOutErr | tools/plan_export_tools.py:237-253 | the same failure for any number of depth columns |
| FeaturePlanningModels.ConfidenceCountsSpec | agents/feature_planning_models.py:91-96 | the confidence summary always has the keys high, medium and low first, lists each confidence once, counts each exactly as often as it occurs among the findings, and its counts add up to the number of findings |
| FeaturePlanningModels.ResearchReport.constructor | agents/feature_planning_models.py:59-81 | a new report is empty, with the zeroed high/medium/low summary |
| FeaturePlanningModels.ResearchReport.AllFindings | agents/feature_planning_models.py:83-89 | all findings are the specifications, then the implementations, then the internal knowledge, each block unchanged and in its own order |
| FeaturePlanningModels.ResearchReport.RecomputeConfidenceSummary | agents/feature_planning_models.py:91-96 | the summary becomes the recount of all findings and no other field changes |
| FeaturePlanningModels.ResearchReport.ToDict | agents/feature_planning_models.py:98-114 | serialising recounts first, so the dict's summary matches the findings; the other fields are copied unchanged |
| FeaturePlanningModels.BlockingCount | agents/feature_planning_models.py:286-287 | the blocking count is at most the number of questions, and is zero exactly when no question is blocking |
| FeaturePlanningModels.ReportOfSpec | agents/feature_planning_models.py:264-288 | with no items the report is the bare zero total, and only then; otherwise each of the three tallies adds up to the number of items and blocking questions are at most the total questions, which equals the number of open questions |
| FeaturePlanningModels.FeatureScope.constructor | agents/feature_planning_models.py:221-251 | a new scope has empty text, empty category lists and no confidence report |
| FeaturePlanningModels.FeatureScope.AllItems | agents/feature_planning_models.py:253-262 | all items are the six category lists joined in the fixed order, so their number is the sum of the six lengths |
| FeaturePlanningModels.FeatureScope.RecomputeConfidenceReport | agents/feature_planning_models.py:264-288 | the report becomes the tally of all items and open questions, and nothing else changes |
| FeaturePlanningModels.TallyItems | agents/feature_planning_models.py:272-285 | one pass over the items fills the confidence, complexity and category tallies exactly as the reference tally of each projection |
| FeaturePlanningModels.FeatureScope.ToDict | agents/feature_planning_models.py:290-311 | serialising recomputes the report first, so the dict's report matches the items; the other fields are copied unchanged |
| FeaturePlanningModels.StoryTotalSpec | agents/feature_planning_models.py:415-418 | the story total counts exactly the stories of all Epics and adds up over any split of the Epic list |
| FeaturePlanningModels.JiraPlan.constructor | agents/feature_planning_models.py:391-409 | a new plan keeps its project key and feature name and has no Epics, no summary and no report |
| FeaturePlanningModels.JiraPlan.TotalStories | agents/feature_planning_models.py:415-418 | the total number of stories is the length of all the Epics' stories joined |
| FeaturePlanningModels.JiraPlan.TotalTickets | agents/feature_planning_models.py:411-420 | total tickets equal the Epics plus all stories, so never fewer than the Epics |
| FeaturePlanningModels.PhasesAfter | agents/feature_planning_models.py:477-482 | after marking, the phase is complete and the completed phases are exactly the old ones plus this phase |
| FeaturePlanningModels.PhasesAfterSpec | agents/feature_planning_models.py:477-482 | marking a phase twice is the same as marking it once, and a duplicate-free phase list stays duplicate-free |
| FeaturePlanningModels.FeaturePlanningState.constructor | agents/feature_planning_models.py:440-475 | a new state keeps its request and project key, starts in the `init` phase, and has no completed phases and no errors |
| FeaturePlanningModels.FeaturePlanningState.MarkPhaseComplete | agents/feature_planning_models.py:477-482 | the phase joins the completed phases once, stops being current only if it was current, and nothing else changes |
| FeaturePlanBuilder.Keywords | agents/feature_plan_builder.py:55-63 | every category has a non-empty list of component keywords, none of them empty |
| FeaturePlanBuilder.CategoryItems | agents/feature_plan_builder.py:252-259 | the scope's six item lists, keyed in the fixed order firmware, driver, tool, test, integration, documentation |
| FeaturePlanBuilder.MatchComponentSpec | agents/feature_plan_builder.py:317-333 | no component is matched exactly when no component name contains a keyword of the category; otherwise the match is the name of the first matching component in list order, and it is never empty |
| FeaturePlanBuilder.BuildHeadLines | agents/feature_plan_builder.py:357-361 | the overview heading, the description when non-empty, and the rationale section only when the rationale is non-empty |
| FeaturePlanBuilder.AppendLists | agents/feature_plan_builder.py:363-371 | a dependencies section with one BLOCKED_BY line per dependency, and an acceptance-criteria section with one checkbox line per criterion, each only when it has entries |
| FeaturePlanBuilder.AppendSection | agents/feature_plan_builder.py:364-366 | appending a section adds its heading and then one marked line per entry, in entry order, after the existing lines |
| FeaturePlanBuilder.BuildDescriptionLines | agents/feature_plan_builder.py:356-377 | the Story description lines are the head, the optional dependency and criteria sections, and the upper-cased confidence and complexity footers, exactly as the reference description |
| FeaturePlanBuilder.StoryOfSpec | agents/feature_plan_builder.py:339-401 | a Story has exactly the three labels feature-planning, confidence-lower and complexity-lower, the stripped prefixed title (Untitled when absent), confidence medium and complexity M by default, the item's criteria and dependencies, and a component exactly when one matches |
| FeaturePlanBuilder.StoryFromItem | agents/feature_plan_builder.py:339-401 | building a Story from an item gives the reference Story |
| FeaturePlanBuilder.StoriesOfSpec | agents/feature_plan_builder.py:279-283 | there is one Story per item, and the j-th Story is the Story of the j-th item |
| FeaturePlanBuilder.EpicOfSpec | agents/feature_plan_builder.py:265-283 | an Epic has one Story per item in item order, each Story's parent summary is the Epic's summary, that summary is the bracketed feature name cut to 50 characters followed by the category title, and the labels are exactly feature-planning |
| FeaturePlanBuilder.BuildEpic | agents/feature_plan_builder.py:265-283 | building an Epic gives the reference Epic of its category and items |
| FeaturePlanBuilder.BuildStories | agents/feature_plan_builder.py:278-283 | the Story loop produces exactly the reference Story list |
| FeaturePlanBuilder.PlanEpicsSpec | agents/feature_plan_builder.py:252-285 | there is one Epic per non-empty category, in category order, and no other; the k-th Epic is the Epic of the k-th non-empty category |
| FeaturePlanBuilder.BuildEpics | agents/feature_plan_builder.py:261-285 | the category loop produces exactly the reference Epic list |
| FeaturePlanBuilder.FetchedComponents | agents/feature_plan_builder.py:304-315 | the fetched component list is non-empty only when the result data is a dict with a components entry |
| FeaturePlanBuilder.FeaturePlanBuilderAgent.constructor | agents/feature_plan_builder.py:84-113 | a new agent has no cached components and has made no fetch |
| FeaturePlanBuilder.FeaturePlanBuilderAgent.GetJiraComponents | agents/feature_plan_builder.py:299-315 | the first call fetches once and caches the result, an empty list on any failure; later calls return the cache without fetching, and after any call the cache is set |
| FeaturePlanBuilder.FeaturePlanBuilderAgent.BuildPlan | agents/feature_plan_builder.py:222-293 | the new plan keeps the project key and feature name, its Epics are the reference Epics of the scope's categories with the cached components, its confidence report is the report of those Epics, and the component cache is set |
| FeaturePlanBuilder.LowerConfidences | agents/feature_plan_builder.py:538 | one lower-cased confidence per Story, in Story order |
| FeaturePlanBuilder.UpperComplexities | agents/feature_plan_builder.py:540 | one upper-cased complexity per Story, in Story order |
| FeaturePlanBuilder.WithDependencies | agents/feature_plan_builder.py:542-543 | the number of Stories with dependencies is at most the number of Stories |
| FeaturePlanBuilder.PlanReportSpec | agents/feature_plan_builder.py:528-551 | the report's Epic count is the number of Epics, its Story count is the plan's Story total, each tally adds up to that total, and the Stories with dependencies are at most that total |
| FeaturePlanBuilder.CountStories | agents/feature_plan_builder.py:536-543 | the inner loop's counters are the reference counters of all Stories seen so far followed by this Epic's Stories |
| FeaturePlanBuilder.BuildConfidenceReport | agents/feature_plan_builder.py:528-551 | the nested loop over Epics and Stories gives exactly the reference report |
| ScopingAgent.BusNames | agents/scoping_agent.py:306-311 | the bus names in order, defaulting to Unknown; a bus that is not a dict raises |
| ScopingAgent.BusItemsSpec | agents/scoping_agent.py:310-348 | bus k contributes its register-access item then its initialisation item, and the second depends on the first |
| ScopingAgent.BusStep | agents/scoping_agent.py:310-348 | one more dict bus adds its name and its two items |
| ScopingAgent.ScopeFromHwProfile | agents/scoping_agent.py:300-372 | two firmware items per bus, then one driver item depending on every firmware item; nothing else changes; it raises where the buses cannot be read |
| ScopingAgent.AddBusItems | agents/scoping_agent.py:310-348 | the items of each bus are appended as it is read, so a bad bus raises after the earlier buses' items were added |
| ScopingAgent.AddStandardItems | agents/scoping_agent.py:374-484 | one tool, two test and two documentation items and the two standard assumptions are appended; the unit tests depend on every firmware item; nothing else changes |
| ScopingAgent.AddPlannedItems | agents/scoping_agent.py:183-188 | the hardware items when a profile is given, then the standard items |
| ScopingAgent.Scope | agents/scoping_agent.py:159-194 | the feature name cut to 100 characters, the planned items, the standard assumptions, no questions, the summary line and the confidence report over those items |
| ScopingAgent.Finish | agents/scoping_agent.py:190-192 | the summary and the confidence report are computed over the gathered items, which stay as they were |
| ScopingAgent.BusItemsCategory | agents/scoping_agent.py:320-338 | every bus item is a firmware item |
| ScopingAgent.PlannedCategoriesMatch | agents/scoping_agent.py:159-194 | the deterministic scope files every item under its own category |
| ScopingAgent.BusItemsDependencies | agents/scoping_agent.py:341 | within the firmware items every dependency names one of them |
| ScopingAgent.DependenciesResolveWithProfile | agents/scoping_agent.py:300-484 | with a hardware profile every dependency of every item names an item of the same scope |
| ScopingAgent.ItemsAfterFirmwareResolve | agents/scoping_agent.py:350-474 | the driver and unit tests depend on firmware items; the rest on the driver, the tool and the API document |
| ScopingAgent.DanglingDriverWithoutProfile | agents/scoping_agent.py:392 | without a hardware profile some item depends on a driver item that is not in the scope |
| ScopingAgent.PlannedItemCount | agents/scoping_agent.py:159-194 | five standard items, plus two per bus and the driver when a profile is given |
| ScopingAgent.BuildSummary | agents/scoping_agent.py:487-506 | the summary line is SummaryOf the scope's items, name and questions |
| ScopingAgent.SumOverAll | agents/scoping_agent.py:491-493 | the per-category counts add up to the number of items |
| ScopingAgent.SummaryCategoriesSpec | agents/scoping_agent.py:489-497 | the summary lists each category once, ascending, with its non-zero number of items, and the counts add up to the total |
| ScopingAgent.SummaryText | agents/scoping_agent.py:534 | a falsy summary reads as empty, a string is cut to 500 characters, and a truthy number, boolean or object raises; exactly those raise |
| ScopingAgent.CollectAssumptions | agents/scoping_agent.py:536-538 | the assumption loop computes AssumptionsOf |
| ScopingAgent.AssumptionsOfSpec | agents/scoping_agent.py:536-538 | no assumption is blank or padded, and a list of non-blank strings is kept whole, stripped |
| ScopingAgent.ItemOfErr | agents/scoping_agent.py:554-563 | reading an item raises exactly for a non-string complexity or a truthy non-string confidence |
| ScopingAgent.ItemOfOk | agents/scoping_agent.py:554-563 | a read item has its list's category, an upper-case complexity and a lower-case confidence, defaulting to M and medium |
| ScopingAgent.ReadDictsSpec | agents/scoping_agent.py:551-553 | one result per dict element, in order, and failure exactly when one dict fails |
| ScopingAgent.ReadDictsErrStays | agents/scoping_agent.py:551-566 | once a prefix fails the whole list fails with the same error |
| ScopingAgent.ItemsOfSpec | agents/scoping_agent.py:550-566 | one item per dict element, in order, each read by ItemOf; the list raises exactly when one of them does |
| ScopingAgent.CollectItems | agents/scoping_agent.py:551-566 | the loop over one item list computes ItemsOf |
| ScopingAgent.CollectCategories | agents/scoping_agent.py:550-566 | the loop over the six lists computes CategoriesUpTo |
| ScopingAgent.CategoriesUpToMatch | agents/scoping_agent.py:541-566 | every item read from the JSON block sits in the list of its own category |
| ScopingAgent.ItemsOfCategory | agents/scoping_agent.py:557 | every item read from one list carries that list's category |
| ScopingAgent.QuestionOf | agents/scoping_agent.py:568-580 | a dict gives a question with its truthy blocking flag; a non-blank string a stripped non-blocking one; anything else is skipped |
| ScopingAgent.CollectQuestions | agents/scoping_agent.py:568-580 | the question loop computes QuestionsOf |
| ScopingAgent.StringQuestionsNeverBlock | agents/scoping_agent.py:575-580 | only dict questions can block: blocking questions never outnumber dicts |
| ScopingAgent.JsonScopeCategories | agents/scoping_agent.py:531-583 | a scope read from JSON files every item under the category of its list |
| ScopingAgent.ParseScope | agents/scoping_agent.py:513-583 | an empty answer gives an empty scope; a non-dict block falls back to Markdown; a dict gives the JSON scope or its error |
| ScopingAgent.FillScope | agents/scoping_agent.py:531-583 | the JSON branch writes the summary, assumptions, items and questions, then the report over them |
| ScopingAgent.ReadJsonScope | agents/scoping_agent.py:531-580 | the JSON branch's loops compute JsonScope |
| ScopingAgent.SectionIndex | agents/scoping_agent.py:748-775 | the position of an item list among the six by attribute name, none for any other name |
| ScopingAgent.SaveItem | agents/scoping_agent.py:748-775 | an item is appended to the named list; another name changes nothing |
| ScopingAgent.SaveItemKeepsCategories | agents/scoping_agent.py:748-775 | saving keeps every list to its own category |
| ReviewAgent.ReviewItem.constructor | agents/review_agent.py:37-48 | a new item carries its id, type, action and data, is pending, and has no modification, result or error |
| ReviewAgent.ReviewItem.EffectiveData | agents/review_agent.py:62-67 | the modified data when it is a non-empty dict, else the original data |
| ReviewAgent.ReviewSession.constructor | agents/review_agent.py:68-75 | a new session has its id and creation time and no items |
| ReviewAgent.ReviewSession.AddItem | agents/review_agent.py:76-77 | the item is appended and the others stay |
| ReviewAgent.ReviewSession.ByStatus | agents/review_agent.py:79-86 | get_by_status returns only session items with that status, and no more than there are items |
| ReviewAgent.ReviewSession.Summary | agents/review_agent.py:114-124 | the summary's total is the number of items |
| ReviewAgent.HavingMembers | agents/review_agent.py:85-86 | every item with the status is in the filtered list |
| ReviewAgent.HavingDisjoint | agents/review_agent.py:85-86 | no item is in two status filters |
| ReviewAgent.SummaryBounded | agents/review_agent.py:114-124 | pending, approved, rejected and executed together never exceed the total |
| ReviewAgent.TicketEntries | agents/review_agent.py:249-266 | one ticket entry per ticket of the release |
| ReviewAgent.ReleaseEntries | agents/review_agent.py:236-266 | a release entry followed by its tickets' entries |
| ReviewAgent.CreateSessionFromPlan | agents/review_agent.py:215-269 | the session holds one fresh pending item per entry of the plan, numbered from 1 across releases and tickets; it fails where iterating the plan raises |
| ReviewAgent.AppendItems | agents/review_agent.py:234-267 | two numbered runs of items with no item in common form one run |
| ReviewAgent.NewItems | agents/review_agent.py:234-267 | one fresh pending item per entry, numbered from the given counter |
| ReviewAgent.ItemIdInjective | agents/review_agent.py:238-253 | distinct numbers give distinct ids whatever the item types |
| ReviewAgent.SessionIdsDistinct | agents/review_agent.py:215-269 | the items of a session built from a plan carry distinct ids |
| ReviewAgent.FirstIndex | agents/review_agent.py:308-312 | the first position holding the value; none iff it does not occur |
| ReviewAgent.Decide | agents/review_agent.py:298-330 | found iff some item has the id; the first such item gets the status and nothing else changes |
| ReviewAgent.ApproveItem | agents/review_agent.py:298-313 | the first item with the id is approved, reporting whether it was found; nothing else changes |
| ReviewAgent.RejectItem | agents/review_agent.py:315-330 | the first item with the id is rejected, reporting whether it was found; nothing else changes |
| ReviewAgent.Overlay | agents/review_agent.py:351 | the merged dict has the keys of both, the modifications winning |
| ReviewAgent.ModifyItem | agents/review_agent.py:332-355 | the first item with the id gets the overlaid data and the modified status; its original data and every other item stay |
| ReviewAgent.EffectiveAfterModify | agents/review_agent.py:62-67 | after a modification the effective data is the overlay |
| ReviewAgent.ApproveAll | agents/review_agent.py:357-371 | every pending item is approved, the others keep their status, and the count is the number that were pending |
| ReviewAgent.ReviewAll | agents/review_agent.py:287-296 | every pending item takes the status the approval callback gives it; the others stay |
| ReviewAgent.InsertByKeySpec | agents/review_agent.py:392-400 | inserting by sort key keeps the list sorted and adds exactly that item |
| ReviewAgent.SortForExecutionSpec | agents/review_agent.py:392-400 | the execution order is sorted by key and is a permutation of the items to run |
| ReviewAgent.SortedByKeyRanks | agents/review_agent.py:392-398 | in that order releases come before epics and epics before other tickets |
| ReviewAgent.ToExecute | agents/review_agent.py:386-389 | only approved or modified items are run |
| ReviewAgent.ToExecuteMembers | agents/review_agent.py:386-389 | every approved or modified item is run |
| ReviewAgent.ExecuteItem | agents/review_agent.py:425-476 | the result names the item; only creating a release or a ticket can succeed, and a failure carries no data |
| ReviewAgent.Settle | agents/review_agent.py:408-421 | a successful item is executed with its result, a failed one failed with its error; its modification stays |
| ReviewAgent.ExecuteInOrder | agents/review_agent.py:406-421 | one result per item in order, each the execution of its effective data; items not run are untouched |
| ReviewAgent.ExecuteApproved | agents/review_agent.py:373-423 | approved and modified items run in key order and each ends executed or failed with its own result; items in other states are unchanged |
| PlanningAgent.MatchComponent | agents/planning_agent.py:383-407 | the first component, in list order, whose lowercased name occurs in the lowercased text is returned; otherwise the keyword groups decide; the result is always one of the components, and None iff nothing is named and no group finds one |
| PlanningAgent.ByKeywordGroupSound | agents/planning_agent.py:392-405 | a keyword-group match names a group whose keyword occurs in the text and whose name the returned component contains |
| PlanningAgent.FirstLead | agents/planning_agent.py:422-424 | the index of the first lead, with no lead before it; None iff nobody is a lead |
| PlanningAgent.MatchAssigneeSpec | agents/planning_agent.py:409-428 | the assignee comes from the first related area (substring either way, case-insensitive) that has people: its first lead, else its first person |
| PlanningAgent.MatchAssigneeNone | agents/planning_agent.py:409-428 | when no related area has people there is no assignee |
| PlanningAgent.ReleaseDateSpec | agents/planning_agent.py:264-269 | the release date is the date of the first timeline item whose context contains the version, else None |
| PlanningAgent.CreatePlan | agents/planning_agent.py:217-315 | the plan holds one release per roadmap version that is non-empty and not an existing Jira release, built as ReleasesFor specifies, and the summary text of its counts |
| PlanningAgent.FindReleaseDate | agents/planning_agent.py:264-269 | the timeline loop returns exactly ReleaseDate |
| PlanningAgent.ReleaseTickets | agents/planning_agent.py:277-308 | a release's tickets are its tracking Epic followed by one Story per non-empty feature |
| PlanningAgent.ReleasesForSpec | agents/planning_agent.py:247-262 | no planned release is named after an empty version or an existing release; every other version, repeats included, gives exactly one release, in roadmap order |
| PlanningAgent.StoriesForSpec | agents/planning_agent.py:288-308 | one Story per non-empty feature, in order: summary the first 100 characters, description the text, fix versions [version], no parent, assignee as matched for the matched component, and components the matched component alone when it is a non-empty name, else none |
| PlanningAgent.ReleaseTicketsSpec | agents/planning_agent.py:277-308 | every ticket of a release has fix_versions [version]; the first is the Epic `Release <v> Implementation`, labelled `release-tracking`, with no component or assignee, and the rest are Stories |
| PlanningAgent.CountsBounded | agents/planning_agent.py:430-452 | total_tickets is the number of tickets of all releases and the Epic and Story counts together never exceed it |
| PlanningAgent.PlanCountsExact | agents/planning_agent.py:430-452 | a created plan counts one Epic per release and its total is Epics plus Stories |
| PlanningAgent.SummaryTextInjective | agents/planning_agent.py:430-452 | the summary text reports the four counts faithfully: equal summaries come from equal release, ticket, Epic and Story counts |
| PlanningAgent.PlanJson | agents/planning_agent.py:113-120 | to_dict reports total_releases = number of releases and total_tickets = number of tickets across releases |
| ResearchAgent.Words | agents/research_agent.py:296 | the tokens of `re.split(r'[^a-zA-Z0-9]+', …)` are non-empty runs of ASCII letters and digits |
| ResearchAgent.Candidates | agents/research_agent.py:297 | a token is a candidate iff it has at least two characters and is not a stop word |
| ResearchAgent.ExtractKeywords | agents/research_agent.py:273-307 | the keywords are the distinct candidates of the lowercased text in first-occurrence order |
| ResearchAgent.Dedup | agents/research_agent.py:299-305 | the `seen`-set loop yields exactly the distinct list |
| ResearchAgent.KeywordsSpec | agents/research_agent.py:296-305 | every keyword is a lowercase alphanumeric token of the text, at least two long and not a stop word; none repeats; every such token is a keyword |
| ResearchAgent.WordsOfLower | agents/research_agent.py:296 | the tokens of a lowercased text contain no upper-case letter |
| ResearchAgent.KeywordsFirstOccurrence | agents/research_agent.py:299-305 | keywords appear in the order of their first occurrence among the candidates |
| ResearchAgent.DistinctOrder | agents/research_agent.py:299-305 | the deduplicated list is ordered by first occurrence |
| ResearchAgent.KeywordsIdempotent | agents/research_agent.py:296-305 | extracting keywords from the space-joined keywords returns the same list |
| ResearchAgent.WordsOfJoin | agents/research_agent.py:296 | splitting space-joined alphanumeric words returns the words |
| ResearchAgent.OverviewOf | agents/research_agent.py:461-480 | the overview's total equals specs + implementations + internal findings, and the high-confidence count is at most the total |
| ResearchAgent.DomainOverviewInjective | agents/research_agent.py:461-480 | for one feature request the overview text reports its six counts faithfully: equal overviews come from equal counts |
| ResearchAgent.RunRequest | agents/research_agent.py:150-161 | a string input is the feature request; a dict needs a truthy feature_request; other inputs are refused with the source's message |
| HardwareAnalyst.HardwareProfile.constructor | agents/feature_planning_models.py:115-138 | a new profile has empty name, description and lists, and no block diagram |
| HardwareAnalyst.ComponentAreaPriority | agents/hardware_analyst.py:341-369 | a component goes to firmware iff a firmware keyword occurs in its lower-cased name, to drivers iff none does but a driver keyword does, to tools iff only a tool keyword does, else to the hardware components |
| HardwareAnalyst.TicketArea | agents/hardware_analyst.py:392-403 | a ticket is firmware iff its lower-cased summary has 'firmware' or 'fw'; it is dropped iff none of the firmware, driver, tool and diagnostic keywords occurs; it never lands among the hardware components |
| HardwareAnalyst.TicketFirmwareIsComponentFirmware | agents/hardware_analyst.py:346-347 | a summary the ticket rule files under firmware is filed under firmware by the component rule too |
| HardwareAnalyst.ComponentsPartition | agents/hardware_analyst.py:341-369 | the four lists together take every component exactly once, each in the list of its area |
| HardwareAnalyst.TicketsPartition | agents/hardware_analyst.py:392-403 | firmware, driver and tool tickets plus the dropped ones account for every ticket; none goes to the components list |
| HardwareAnalyst.LoadComponents | agents/hardware_analyst.py:341-369 | each list gains exactly the components of its area, in answer order |
| HardwareAnalyst.LoadTickets | agents/hardware_analyst.py:392-403 | firmware, driver and tool lists gain exactly the tickets of their area, in answer order |
| HardwareAnalyst.LoadJiraInfo | agents/hardware_analyst.py:311-407 | unavailable tools add only the gap 'Jira tools unavailable'; otherwise the product name is kept if set, else taken from the project (the key when the name is absent); components then tickets are filed; each failing call changes nothing |
| HardwareAnalyst.LoadProductKnowledge | agents/hardware_analyst.py:285-309 | missing tools or a failing read add their gap; a non-empty product file sets the description to its first 1000 characters and, when it mentions OPX or Omni-Path, an unset name to 'Omni-Path Express (OPX)' |
| HardwareAnalyst.ScanFindingsFresh | agents/hardware_analyst.py:436-448 | the buses added are named apart from one another and from every bus seen before, up to case, and the seen set grows by exactly their names |
| HardwareAnalyst.ScanFindingsCovers | agents/hardware_analyst.py:438-441 | every bus whose keyword occurs in a lower-cased finding is in the seen set afterwards |
| HardwareAnalyst.ScanFindingsSound | agents/hardware_analyst.py:438-447 | every added bus entry comes from a keyword occurring in a finding, with that finding's first 100 characters in its description |
| HardwareAnalyst.EnrichSpec | agents/hardware_analyst.py:436-448 | bus names unique up to case before enrichment stay unique after it, and every bus a finding names is present |
| HardwareAnalyst.AddMissingSpec | agents/hardware_analyst.py:451-453 | the gaps keep their order, gain every open question, gain nothing else, and stay without repeats |
| HardwareAnalyst.EnrichFromResearch | agents/hardware_analyst.py:409-455 | the bus list gains exactly the scan of all findings (specs, implementations, internal knowledge, in that order) against the keyword table, starting from the profile's own bus names; the gaps gain the missing open questions |
| HardwareAnalyst.Analyze | agents/hardware_analyst.py:194-228 | the profile's fields are the composition `AnalyzeOf` of the knowledge-base step, the Jira step (only for a non-empty key) and the research step (only with a report), each step as its loader changes the profile; without a key no Jira-sourced entry appears, without a report no bus appears, and no block diagram is set |
| HardwareAnalyst.AnalyzeOfJiraLists | agents/hardware_analyst.py:222-223 | the firmware, driver, tool and hardware lists are exactly the filed Jira components and tickets when a key is given and Jira answers, and empty otherwise |
| HardwareAnalyst.AnalyzeOfBuses | agents/hardware_analyst.py:226-227 | the buses are exactly those the report's findings mention, and none without a report |
| HardwareAnalyst.AnalyzeOfGaps | agents/hardware_analyst.py:218-227 | the gaps are the knowledge-base gap, then the Jira gap, then the report's open questions not already listed; the description is the first 1000 characters of a non-empty product file |
| HardwareAnalyst.AnalyzeOfName | agents/hardware_analyst.py:218-223 | the product name is the OPX name when the product file mentions OPX or Omni-Path, otherwise the Jira project's name (or the key when it has none), otherwise empty |
| HardwareAnalyst.ParseExtends | agents/hardware_analyst.py:473-546 | reading more lines never changes a product name or description once set and only appends to the lists, so the first overview bullet that sets the name wins |
| HardwareAnalyst.FirstFenceSpec | agents/hardware_analyst.py:548-554 | the block found is the one at the leftmost position where the fence pattern matches; none is found iff it matches nowhere |
| HardwareAnalyst.FenceAt | agents/hardware_analyst.py:548-552 | a match starts with three backticks and its body starts after a newline and is followed by a newline and three backticks |
| HardwareAnalyst.ParseProfile | agents/hardware_analyst.py:462-556 | empty output gives the empty profile; otherwise the lists are the line-by-line parse of its `splitlines()` lines and the block diagram is the stripped body of the first fenced block |
| HardwareAnalyst.ParseLine | agents/hardware_analyst.py:475-546 | each line first updates the section, then a non-empty bullet is filed under it |
| VisionTools.ParseRoadmapText | tools/vision_tools.py:366-404 | the result is the text scan: releases by the version loop, one timeline entry per date match, feature texts, with only the first 20 features kept |
| VisionTools.AddVersionsSpec | tools/vision_tools.py:386-388 | within one text, versions are appended only if not yet recorded, so keys stay without repeats; every version of the text is present afterwards and each new entry carries this text's first 100 characters |
| VisionTools.TextReleasesSpec | tools/vision_tools.py:383-388 | across all texts every version is recorded exactly once, and every version found in any text is recorded |
| VisionTools.TextReleasesFirstContext | tools/vision_tools.py:383-388 | each recorded version carries the context of the first text in which it was found |
| VisionTools.TextTimelineAndFeatures | tools/vision_tools.py:390-402 | the timeline has one entry per date match (no deduplication); every feature is a text longer than 10 characters with no version and no date, cut to 200 characters; at most 20 features are returned |
| VisionTools.LastColumn | tools/vision_tools.py:429-435 | a role's column is a header whose lower-cased text contains one of the role's keywords; none is chosen iff no header does |
| VisionTools.LastColumnIsLast | tools/vision_tools.py:429-435 | the chosen column is the last matching header: no later header matches |
| VisionTools.TargetFillsTwoRoles | tools/vision_tools.py:417-418 | one header ('Target') can be both the release and the date column |
| VisionTools.FindColumns | tools/vision_tools.py:424-435 | the loop settles every role on its last matching header |
| VisionTools.RoleEntriesSpec | tools/vision_tools.py:438-455 | only rows whose cell in the chosen column is truthy emit an entry, each tagged with the sheet name and keyed by the cell's text; every such row emits one |
| VisionTools.ParseRoadmapExcel | tools/vision_tools.py:406-463 | the releases, timeline and features are the per-sheet role entries, sheet after sheet, with the source's three keyword lists |
| VisionTools.SheetRows | tools/vision_tools.py:438-455 | the row loop of a sheet emits exactly the role entries of its rows, in row order |
| VisionTools.CellKey | tools/vision_tools.py:279-283 | a cell is keyed by its header when one exists and is non-empty, and by `col_i` otherwise |
| VisionTools.RowDictKeys | tools/vision_tools.py:278-283 | a shaped row's keys are exactly its cells' keys |
| VisionTools.RowDictValues | tools/vision_tools.py:278-283 | a cell whose key no later cell repeats keeps its value in the row dict |
| VisionTools.ShapeRow | tools/vision_tools.py:278-283 | the loop builds the row dict, later cells overwriting earlier ones with the same key |
| VisionTools.KeptRowsSpec | tools/vision_tools.py:285-287 | rows whose values are all None are skipped and every other row is kept |
| VisionTools.ReadSheetsSelects | tools/vision_tools.py:258-260 | with a non-empty sheet name only sheets of that name are read; without one every sheet is read |
| VisionTools.ExtractRoadmapFromExcel | tools/vision_tools.py:256-300 | the sheets are the read sheets, the sheet count is their number, and the roadmap is the column-based parse of them |
| VisionTools.ReadSlide | tools/vision_tools.py:171-196 | the shape loop of one slide builds exactly the slide record SlideFrom describes |
| VisionTools.SlideFromSpec | tools/vision_tools.py:178-196 | a slide's record keeps its number, its texts are exactly the non-empty stripped texts of its text-frame shapes in shape order, its title is the last title placeholder's text, and it lists at most one shape entry per shape |
| VisionTools.NonEmptyTexts | tools/vision_tools.py:180-184 | every kept text is non-empty and is the stripped text of one of the shapes, and every shape whose stripped text is non-empty contributes it |
| VisionTools.LastTitleSpec | tools/vision_tools.py:186-189 | the title stays empty iff no title placeholder has text; otherwise it is the text of the last one that does, later ones overwriting earlier ones |
| VisionTools.ReadSlidesSound | tools/vision_tools.py:166-198 | every record is that of a selected slide, numbered from 1 within the deck and built from that slide's shapes, and records come in increasing slide order |
| VisionTools.ReadSlidesComplete | tools/vision_tools.py:166-169 | every selected slide of the deck has a record |
| VisionTools.ReadSlidesAll | tools/vision_tools.py:166-169 | with no slide numbers given every slide is read |
| VisionTools.ExtractRoadmapFromPpt | tools/vision_tools.py:163-211 | the slides are the records of the selected slides, the slide count is their number and the total is the deck's size; the raw text is every record's texts in slide order, and the roadmap is the text scan of that raw text |
| VisionAnalyzer.DetectFileType | agents/vision_analyzer.py:273-290 | the kind is image, ppt, excel or pdf exactly when the lower-cased extension is in that kind's set, checked in that order; anything else is unknown |
| VisionAnalyzer.DetectCsv | agents/vision_analyzer.py:273-290 | a `.CSV` file is a spreadsheet: the extension is compared after lower-casing |
| VisionAnalyzer.DetectBare | agents/vision_analyzer.py:273-290 | a name without an extension is of unknown kind |
| VisionAnalyzer.AppendVision | agents/vision_analyzer.py:315-332 | each quarter or month-date match becomes one timeline entry marked as from vision, in match order |
| VisionAnalyzer.ParseVisionResponse | agents/vision_analyzer.py:292-334 | an empty description changes nothing; otherwise every distinct version found becomes exactly one release, in some order of the version set, and the quarter and then the month-date matches are appended to the timeline |
| VisionAnalyzer.AnalyzeFile | agents/vision_analyzer.py:133-214 | the result is that of the file-kind dispatch, for one iteration order of the image description's version set |
| VisionAnalyzer.AnalyzeFileCases | agents/vision_analyzer.py:147-212 | a missing file gives only "File not found"; a PDF or unknown file gives one "Unsupported file type" error; a failed extractor gives its error; a successful one gives no errors and its releases; an image's releases are its description's distinct versions, once each, and it has no features |
| VisionAnalyzer.AddNewUnique | agents/vision_analyzer.py:248-260 | the merge keeps only entries of the input with a non-empty key, and no two kept entries share a key |
| VisionAnalyzer.AddNewCovers | agents/vision_analyzer.py:248-260 | every non-empty key of the input is the key of some kept entry |
| VisionAnalyzer.AddNewFirst | agents/vision_analyzer.py:248-260 | the entry kept for a key is the first input entry with that key |
| VisionAnalyzer.MergeEntries | agents/vision_analyzer.py:248-260 | the loop with its seen-set computes the deduplicating merge and leaves the seen set equal to the kept keys |
| VisionAnalyzer.MergeFile | agents/vision_analyzer.py:238-266 | one round of the merge loop: the summary line, the new releases and features, the timeline and the errors of one file |
| VisionAnalyzer.MergeFlat | agents/vision_analyzer.py:233-266 | merging file by file equals one deduplicating pass over all files' releases (and features) in order, and the timeline is the concatenation of the files' timelines |
| VisionAnalyzer.MergeFiles | agents/vision_analyzer.py:238-243 | one summary line per file, in order; a file succeeds exactly when it reported no errors, so a missing file counts as a success with no type |
| VisionAnalyzer.CombineSpec | agents/vision_analyzer.py:216-271 | one release per version and one feature per 50-character prefix, the first met in file order; the timeline is a permutation of all files' timelines, in date order, with equal dates in input order |
| VisionAnalyzer.AnalyzeMultiple | agents/vision_analyzer.py:216-271 | the combined result is the merge of each path's analysis, each for an iteration order of its version set, with the timeline sorted |
| VisionAnalyzer.Search | agents/vision_analyzer.py:345-364 | `re.search`: the match returned is at the leftmost position where the pattern matches, and no match means none anywhere |
| VisionAnalyzer.UndatedLast | agents/vision_analyzer.py:336-371 | a date with no digit gets the key (9999, 99) and so sorts after every dated entry |
| VisionAnalyzer.QuarterKey | agents/vision_analyzer.py:344-349 | "Q<d> <year>" gets the key (year, 3·d) |
| VisionAnalyzer.MonthKey | agents/vision_analyzer.py:358-369 | three letters without a Q, a space and a year get (year, month of the lower-cased letters), 1 for an unknown name |
| VisionAnalyzer.MonthNumber | agents/vision_analyzer.py:358-368 | the month table maps the i-th abbreviation to i + 1, and anything else to 1 |
| VisionAnalyzer.LetterRunEnd | agents/vision_analyzer.py:364 | `[a-z]*` under IGNORECASE: the end of the maximal run of letters |
| StableSort.InsertBySorted | agents/vision_analyzer.py:373 | inserting into a sorted timeline keeps it sorted and adds exactly the one element |
| StableSort.InsertByStable | agents/vision_analyzer.py:373 | inserting puts the element after those sharing its key and keeps their order |
| StableSort.SortBySpec | agents/vision_analyzer.py:373 | the sort is ordered by key, a permutation, and stable: for every key its elements keep their input order |
| StableSort.StableSortUnique | agents/vision_analyzer.py:373 | two sequences sorted by the key with the same elements per key in the same order are equal, so the model's sort gives what any stable sort, `sorted` among them, gives |
| KnowledgeTools.CountSub | tools/knowledge_tools.py:89-91 | `str.count` counts non-overlapping occurrences, so count · len(keyword) never exceeds the text's length |
| KnowledgeTools.CountSubZero | tools/knowledge_tools.py:89-91 | a non-empty keyword counts zero exactly when it does not occur |
| KnowledgeTools.ScoreMatch | tools/knowledge_tools.py:81-92 | the loop's score is the sum over keywords of the case-insensitive occurrence counts |
| KnowledgeTools.ScoreZero | tools/knowledge_tools.py:81-92 | a text scores 0 exactly when every keyword is non-empty and none occurs in it, ignoring case |
| Common.SplitLines | tools/knowledge_tools.py:106 | `splitlines()`: empty text has no lines, and no line contains any of Python's line breaks (\n, \r, \r\n as one break, \v, \f, U+001C to U+001E, U+0085, U+2028, U+2029) |
| Common.SplitLinesJoin | tools/knowledge_tools.py:106 | lines without breaks, the last not empty, joined by \n split back into the same lines |
| KnowledgeTools.DropHashes | tools/knowledge_tools.py:114 | `lstrip('#')` leaves no leading '#' |
| KnowledgeTools.ExtractSections | tools/knowledge_tools.py:95-126 | the line loop saves the open section at each heading and at the end, only when it has a heading or lines |
| KnowledgeTools.FlushHeadings | tools/knowledge_tools.py:108-113 | saving the open section adds its heading, when non-empty, after the earlier ones |
| KnowledgeTools.ScanHeadings | tools/knowledge_tools.py:106-117 | during the loop, the saved sections' non-empty headings followed by the open one are the heading texts of the '#' lines seen |
| KnowledgeTools.SectionsFollowHeadings | tools/knowledge_tools.py:95-126 | sections keep document order: their non-empty headings are the '#' lines' heading texts, in order |
| KnowledgeTools.ScanPlain | tools/knowledge_tools.py:106-117 | without '#' lines nothing is saved and every line is gathered under the empty heading |
| KnowledgeTools.PlainText | tools/knowledge_tools.py:95-126 | text without headings is one section with an empty heading, or none when it has no lines |
| KnowledgeTools.ScanPreamble | tools/knowledge_tools.py:106-117 | lines before the first heading are held under the empty heading and are saved first |
| KnowledgeTools.Preamble | tools/knowledge_tools.py:95-126 | text that does not open with a heading gets a first section with an empty heading |
| KnowledgeTools.Long | tools/knowledge_tools.py:240 | the kept pieces are exactly the pieces of two characters or more |
| KnowledgeTools.RunsWords | tools/knowledge_tools.py:240 | the pieces between runs of non-word characters are non-empty runs of word characters |
| KnowledgeTools.KeywordsAreWords | tools/knowledge_tools.py:240-242 | every query keyword is a run of at least two word characters |
| KnowledgeTools.RunsOfWord | tools/knowledge_tools.py:240 | a run of word characters is one piece |
| KnowledgeTools.RunsAfter | tools/knowledge_tools.py:240 | after a non-word character, the following word characters form a new piece |
| KnowledgeTools.TwoWords | tools/knowledge_tools.py:240-242 | two words of two characters or more separated by a space are the two keywords |
| KnowledgeTools.LongTwo | tools/knowledge_tools.py:240 | two pieces of two characters or more are both kept, in order |
| KnowledgeTools.FileHits | tools/knowledge_tools.py:252-261 | only sections scoring above zero are kept, their content cut to 2000 characters |
| KnowledgeTools.SliceTo | tools/knowledge_tools.py:265 | `[:n]` is a prefix of at most n elements, counting from the end when n is negative |
| KnowledgeTools.ScoreSections | tools/knowledge_tools.py:251-261 | the loop over one file's sections appends its scored sections |
| KnowledgeTools.ScoreFiles | tools/knowledge_tools.py:246-261 | the loop over the files collects every readable file's scored sections, in order |
| KnowledgeTools.SearchKnowledge | tools/knowledge_tools.py:216-274 | no files and no keywords fail; otherwise the result is the stable descending sort of the candidates cut to `max_results` |
| KnowledgeTools.CandidatesPositive | tools/knowledge_tools.py:255 | every candidate scores above zero |
| KnowledgeTools.SearchRanking | tools/knowledge_tools.py:263-274 | results score above zero, are sorted by descending score with ties in document order, number at most `max_results` and at most the candidates, and are a prefix of the sorted candidates |
| KnowledgeTools.Suffix | tools/knowledge_tools.py:368 | a suffix is empty or starts with '.' |
| KnowledgeTools.Extract | tools/knowledge_tools.py:368-401 | `.pdf` and `.docx` succeed exactly when their extractor yields text, with file type pdf or docx |
| KnowledgeTools.ExtractText | tools/knowledge_tools.py:393-395 | a text format yields the file's text, its suffix without the dot as file type |
| KnowledgeTools.ExtractUnknown | tools/knowledge_tools.py:397-401 | any other suffix fails as unsupported |
| KnowledgeTools.ReadDocument | tools/knowledge_tools.py:346-419 | a document is returned exactly when the file exists and its reader yields non-empty text; its line count is one more than its line breaks and its word count that of `split()` |
| KnowledgeTools.NewlinesAppend | tools/knowledge_tools.py:407 | joining two texts with a line break adds one to their line breaks |

## Left out

- Network clients: every Jira REST call and its 429 retry and sleep loop, the dashboard and gadget HTTP calls, the MCP and web-search tools, and the web and MCP searches of the research agent. The Jira server is a parameter that holds its answers.
- LLM calls: the ReAct loop bodies, the `run` methods of the agents other than the input handling modelled by JiraAnalyst.Run and ResearchAgent.RunRequest, the prompt builders (`_build_*_prompt`), the prompt-file loaders, the tool registration of each agent, `chat`/`chat_with_vision`, the `list_models` HTTP call, and `pm_agent`'s `_invoke_llm`/`cmd_invoke_llm`. The model's answer is a parameter wherever the deterministic code reads it.
- Concurrency: the heartbeat threads in llm/cornelis_llm.py and pm_agent.py.
- Heuristic free-text parsers: the Markdown fallback of `_parse_scope` (agents/scoping_agent.py:585-741), the research agent's `_parse_report`, and `pm_agent._extract_and_save_files`. The JSON branch of `_parse_scope` and the hardware analyst's `_parse_profile` name and diagram rules are modelled.
- Regular expressions: the `findall` results of the vision analyzer and of the roadmap text parser are parameters (`Patterns`, `versionsIn`, `datesIn`). The fence patterns of `_extract_json_block` and `_parse_profile`, the keyword tokenisers and the date-key parser are written out.
- Spreadsheet library: cell styling, conditional formatting, header styles and sheet copying (pm_agent.py `_copy_sheet`, the excel_utils.py `_apply_*` helpers). A worksheet is its grid of values; a cell's format is an opaque value that is copied along.
- VisionTools.ExtractRoadmapFromPpt and VisionTools.ExtractRoadmapFromExcel: model the extraction once the file is open. The failures for a missing python-pptx or openpyxl, a missing file and an exception raised while reading come from the library and the file system and are not modelled; VisionAnalyzer.AnalyzeFile takes each extractor's result, a roadmap or a failure message, as a parameter. A PowerPoint title placeholder (`is_placeholder` with placeholder type 1) is the shape flag `isTitle`.
- Common.Lower and Common.Upper: change the case of ASCII letters only; Python's `lower()` and `upper()` also map other scripts' letters, which the agents' keyword matching would then see differently.
- Common.ParseInt: reads ASCII digits only; `int()` also accepts the decimal digits of other scripts.
- KnowledgeTools.IsWordChar: `\w` is taken over ASCII letters, digits and '_'; Python's `\w` also matches other scripts' letters and digits.
- Common.Repr: escapes the backslash, the chosen quote, \n, \r and \t; the `\x`/`\u` escapes `repr` uses for other non-printable characters are not modelled.
- Common.Elements: a `for` loop over a non-empty JSON object visits its keys in insertion order; the model's objects are maps with no key order, so that loop is an error here. For example, an `assumptions` object in the scoping answer makes ScopingAgent.ParseScope fail where the source collects the keys' strings.
- ScopingAgent.SummaryText: a non-empty JSON list as `summary` is kept by the source as the list's first 500 items; the model's scope summary is text, so that list reads as "". A truthy object raises Python 3.11's "unhashable type: 'slice'"; Python 3.12 and later raise a KeyError instead.
- SessionManagement.SessionManager.ListSessions: with persistence, the contract states the listed ids and that every one yields a summary, but not which summary each is nor that the loaded sessions join the cache. Each summary comes from GetSession, whose own contract states the session it returns and the cache entry it adds; carrying those facts through the listing loop is beyond what the verifier checks in its resource budget.
- PlanExport.WriteRow: the ValueError text of a row with a key outside the columns stops at "dict contains fields not in fieldnames"; Python adds ": " and the reprs of the offending keys in the iteration order of a set of strings, which depends on string hashing.
- DrawioTools.TeamOfAcyclic: `_build_team` recurses once per level of the hierarchy, so a reporting chain deeper than Python's recursion limit (1000 frames by default) raises RecursionError, which `parse_org_chart` reports as a failure; the model has no stack limit and builds the team.
- Files and serialisation: `tools/file_tools.py`, the JSON and SQLite persistence backends (a backend is the map of records it holds and whether its writes succeed), knowledge-file discovery and reading, the PDF and DOCX text extractors, image reading and base64 encoding, and the CSV and JSON writers beyond the rows and header they write.
- `excel_to_csv`, `csv_to_excel` (tools/excel_tools.py) and `convert_to_csv` (excel_utils.py): plain format conversions through the spreadsheet library. The link rules of `convert_from_csv` are modelled.
- `write_plan_excel`, `plan_to_csv` and `plan_json_to_dict_rows` (tools/plan_export_tools.py): file wrappers around the modelled `plan_json_to_rows` and `write_plan_csv`. `_write_excel` is not part of this model.
- `_build_markdown_summary` (agents/feature_plan_builder.py) and the review agent's `_format_*` helpers, `review_item` and `_interactive_approval`: console and Markdown text for people to read.
- The `to_dict` methods of the plan and research records: field-by-field copies into a dict. The aggregate-recomputing `to_dict` of `ResearchReport` and `FeatureScope` and `ReleasePlan.to_dict` are modelled.
- draw.io XML: serialising a diagram to XML and decoding a compressed diagram (ElementTree, base64, zlib). The model starts from the list of cells. `_strip_html` is the `clean` parameter. `create_ticket_diagram`, `create_diagram_from_tickets` and `_add_ticket_cell` are not part of this model; the ticket diagram is modelled through `create_drawio_xml`.
- Floating point: the LLM cost estimate in pm_agent.py. The x coordinate of drawio_utilities.py divides by two in floating point; the model uses integer division, which is exact there because the two row widths differ by a multiple of 220 (DrawioUtilities.RowsCentred).
- Dates: the calendar validity that `strptime` checks is the `calendar` parameter of the date filter.
- JiraUtils.ParseMdy: the `\d` of the `%d` and `%Y` groups is read as an ASCII digit; Python's `\d` also matches the other Unicode decimal digits, which `int()` then reads.
- JiraUtils.ParseRange: a year below 1000 is written with four digits; the C library's `strftime('%Y')` on some platforms (glibc) writes it without leading zeros.
- Globbing: `fnmatch` is modelled for patterns made of `*`, `?` and literal characters as on a POSIX system; `[...]` character classes are not.
- Reflection: the `inspect`-based signature and type-hint reading of the tool decorator; the model starts from the parameter list it yields. `to_adk_tool` converts to a third-party type.
- The remaining jira_utils.py commands (project, workflow, field, version, component and dashboard listings, `normalize_release`, `dump_tickets_to_file`, `load_tickets_from_csv`, `run_jql_query`) are REST or file wrappers. So are `get_project_info`, `get_project_workflows`, `get_project_issue_types`, `get_release_tickets`, `search_tickets`, `create_release`, `link_tickets`, `get_components`, `assign_ticket` and `_issue_to_dict` in tools/jira_tools.py. `_get_related_data`, `_get_children_data`, `list_filters` and `run_filter` are not part of this model and appear as parameters.
- Orchestrators and command lines: agents/orchestrator.py, agents/feature_planning_orchestrator.py, main.py, the `cmd_*` commands of pm_agent.py other than `build-excel-map`, and every `handle_args`/`main`, `output()` and `print_*` helper.
- Logging: `configure_logging` and every log call.
- Python's `dict` iteration order over a `set`: `_parse_vision_response` walks a set of versions. VisionAnalyzer.ParseVisionResponse is stated for any order of that set, so it does not fix which order CPython would use.
- Integer widths: all counters are unbounded, as Python's are.

## Findings

| source | as written | input that shows it | evidently intended | confidence | as-written member | corrected member |
|---|---|---|---|---|---|---|
| excel_utils.py:1049-1055 | `diff_files` keys a row by `str(row.get(key_col, ''))`. An empty key cell reads back as `None`, so its text is `"None"`, which is truthy. | Two files whose key column holds an empty cell in some row: both rows are indexed under `"None"` and compared as the same ticket. | A row without a key value is not indexed, like a row in a sheet without a key column. | not executed | ExcelUtils.BlankKeyIndexedAsWritten | ExcelUtils.RowKey |
| llm/config.py:190-199 | When client creation raises, the factory retries with `config.fallback_provider` whenever fallback is enabled and that differs from the provider it tried. A `None` fallback provider differs from every real provider, and the retry with `provider=None` resolves to the default provider again. | Fallback enabled, fallback provider `None`, and the default provider's client raises `LLMError` (for example a missing endpoint): the same call repeats until the stack is exhausted. | Fall back only to a configured provider other than the one tried, once; otherwise re-raise the original error. | not executed | LlmConfig.FallbackWithoutProviderExhausts | LlmConfig.ClientFor |
