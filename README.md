# OpenCore agent swarm — a Dafny model

OpenCore is a multi-agent framework. A `Swarm` holds named `Agent`s, each
with a chat history, a model name and a set of tools. The user talks to the
swarm's main agent. An agent "thinks" by asking a language model for a
reply. If the reply carries tool calls, the agent runs them, appends one
tool message per call and thinks again, for at most five replies. Three of
each agent's tools are closures over the swarm: `create_agent`,
`delegate_task` and `list_agents`. So an agent can create further agents
and hand them tasks, and the two agents' thinking nests. Four built-in tools
run a shell command or read, write and list files inside the working
directory. A regular-expression guard in front of them blocks the
catastrophic deletions.

Behind the agents sit these parts:
- provider adapters for OpenAI-compatible, Anthropic and Gemini endpoints,
  and the factory that chooses among them by model prefix;
- the settings object, read from the environment;
- the API's global exception handler;
- the audio upload service, which checks and copies an upload before
  transcribing it.

The model has these modules:

- `Wrappers`, `Environ`, `Text`, `Json`: option/outcome values. `Outcome`
  is a value or a raised exception's text. Also the process environment as
  a map, and the Python string operations the core uses: `str.replace`,
  `startswith`, `strip`, `lower`, `int()` and `str()` of integers, list
  `repr`. JSON values have their text form behind a codec of two functions.
- `LlmBase`, `LlmSchema`, `OpenAICompat`, `AnthropicAdapter`,
  `GeminiAdapter`, `LlmFactory`: the provider layer. Each endpoint is a
  function from the request the adapter builds to a reply or an error.
- `BaseTools`: the path check, the guard as explicit predicates over the
  lower-cased, stripped command, `execute_command` and the file tools. The
  machine is a `Host` record: current directory, `realpath`, `shlex.split`,
  `subprocess.run` and the file system.
- `Core`: the classes `Agent` and `Swarm` in one module. The
  `delegate_task` closure makes an agent's `think` and the swarm's
  delegation mutually recursive. The closures are tags of a `Callable`
  datatype, and the swarm they close over is passed along as `host`. The
  language model, JSON decoding and callables known only by handle make up
  the `World`.
- `Config`, `Middleware`, `Audio`: settings, the exception handler and the
  upload service.

Nested delegation runs until Python's recursion limit raises
`RecursionError`. The `delegate_task` closure has no `try` of its own: the
error reaches the innermost active `try`. That is either the one around a
tool call in `_execute_tool_calls`, which turns it into an
`Error executing ...: ...` tool message, or the one around a nested
`think`, which answers `Error during thought process: ...`. Which of them
it reaches depends on the depth at which the interpreter runs out. The
model places the failure at the delegation itself. It counts nesting with
a `fuel` parameter: at fuel 0 a delegation raises `RecursionLimit`, which
the surrounding tool call reports as
`Error executing delegate_task: ...`. Every method that can nest
decreases `(fuel, turns, rank)`.

The main invariants are these:
- An agent's history always starts with its system message.
- Histories only grow, across any nesting of delegations.
- A name in the swarm keeps denoting the same agent.
- The swarm's insertion order lists every agent exactly once.

A batch of tool calls leaves a history described step by step. Each step
records what its tool appended itself, which only a delegation back to the
same agent does, and then the tool message. When nothing nests, this is
exactly one tool message per call, in call order.

## Model

| member | source | states |
|---|---|---|
| Core.Agent.constructor | opencore/core/agent.py:10-19 | A new agent keeps its name, role, prompt and model. Its history is exactly the system message `You are {name}, a {role}. {prompt}`. It has no tools and no definitions. |
| Core.Agent.RegisterTool | opencore/core/agent.py:24-38 | The schema's function name now denotes the callable, replacing any earlier binding. The schema is appended to the definitions even when the name was already registered. |
| Core.Agent.AddMessage | opencore/core/agent.py:40-41 | The history gains exactly one message, with the given role and content, at its end. |
| Core.Agent.Chat | opencore/core/agent.py:99-101 | The user's message is appended and `think` runs with the default budget of 5, so at most five replies are asked for. The first is asked with the history that includes the message. An error leaves that history unchanged. A text reply is appended and returned. An empty reply appends nothing. A tool-call reply adds its assistant turn. Every history in the swarm only grows. |
| Core.Agent.Think | opencore/core/agent.py:64-97 | With no turns left it answers `Error: Max turns reached.` and changes nothing. Otherwise the outcome matches the model's reply on the current history, as in `Chat`. At most `max_turns` completions are requested in all, counting recursive rounds. |
| Core.Agent.Act | opencore/core/agent.py:80-84 | The history is the old one, the reply's assistant turn, and what the batch's steps left, each step answering its call. When a call's arguments are not JSON the answer is `Error during thought process: {e}` with the decoder's error, and nothing more is asked. Otherwise, with one turn left the answer is `Error: Max turns reached.`; with more, the outcome follows the model's reply on the history after the batch. Fewer than `max_turns` further completions are requested. |
| Core.Agent.ToolTurnRuns | opencore/core/agent.py:81-82 | The history becomes the old one, the assistant turn, and what the batch's steps left, in call order. It is stopped early exactly when a call's arguments are not JSON, and then the decoder's error for that call is returned. |
| Core.Agent.ExecuteToolCalls | opencore/core/agent.py:43-62 | The history grows by exactly what the steps left, in call order. Each step answers its own call. An unknown name gives `Error: Tool {name} not found.`. A tool other than the swarm's closures answers with what it returned, or `Error executing {name}: ...` for what it raised. A closure given arguments that are not an object reports the binding error. A call whose arguments are not JSON stops the batch and raises the decoder's error, after the earlier calls were answered. Otherwise every call is answered. |
| Core.Agent.ExecuteOne | opencore/core/agent.py:45-62 | One call appends what its tool appended itself and then one `tool` message with the call's id and the result. Only a `delegate_task` call can append anything of its own. The result is `Error: Tool {name} not found.` for an unknown name, and the tool's own answer or error text for a tool other than the swarm's closures. |
| Core.Agent.RunTool | opencore/core/agent.py:49-54 | Only `delegate_task` touches this agent's history. Arguments that are not a mapping are reported as `Error executing {name}: ...`. An ordinary tool answers as its definition says. `list_agents` takes no argument and answers the swarm's names. |
| Core.Agent.RunCreateAgent | opencore/core/swarm.py:70-73 | Keyword arguments that do not bind to `name, role, instructions[, model]` report the error and leave the registry and its insertion order alone. A taken name answers `Error: Agent '{name}' already exists.` and leaves the registry and its insertion order alone. Otherwise the answer is `Agent '{name}' created successfully using model '{model}'.`, with the given model or the swarm's default, and the new agent, last in insertion order, has the given role, instructions and model. |
| Core.Agent.RunDelegate | opencore/core/swarm.py:92-100 | Arguments that do not bind report the error. An unknown target answers `Error: Agent '{to_agent}' not found. Available agents: [...]`. A known target answers `Response from {to_agent}: {reply}`, where `reply` is the outcome of the target's `chat` on `Request from {name}: {task}`. With no fuel left, the recursion error comes back as the tool's error text. |
| Core.Agent.RunListAgents | opencore/core/swarm.py:118-121 | Called without keywords it lists the agents in insertion order. Any keyword gives the binding error. |
| Core.Bind | opencore/core/agent.py:52 | When `func(**arguments)` binds, no key is unknown, every required parameter is given, and each bound value is the string passed. Only string values bind (see Left out). |
| Core.CreateArguments | opencore/core/swarm.py:70 | When the keywords bind, `name`, `role` and `instructions` are all bound. |
| Core.DelegateArguments | opencore/core/swarm.py:92 | When the keywords bind, `to_agent` and `task` are both bound. |
| Core.ToolMessages | opencore/core/agent.py:58-62 | One tool message per step, in order, each carrying its call's id and result. |
| Core.WovenWithoutNesting | opencore/core/agent.py:45-62 | When no tool appended anything itself, a batch appends exactly one tool message per call, in call order. |
| Core.ThinkOutcomeGrows | opencore/core/agent.py:64-97 | Whatever one round of `think` does, the history it started from stays a prefix of the history after it. |
| Core.RegisterBaseTools | opencore/tools/base.py:200-205 | The four built-in tools are bound under their names, and their four definitions are appended in order. |
| Core.Swarm.constructor | opencore/core/swarm.py:8-27 | `LLM_MODEL` overrides the default model. The swarm then holds exactly the main agent, with the manager's role, the overseer prompt and that model. |
| Core.Swarm.CreateAgent | opencore/core/swarm.py:29-45 | A taken name answers `Error: Agent '{name}' already exists.` and changes nothing. Otherwise a fresh agent is registered last under its name. It uses the given model, or the default when none is given. Its history is its system message and it holds the seven tools. The success message names the model. |
| Core.Swarm.Register | opencore/core/swarm.py:37 | The agent joins the registry under its name, last in insertion order. |
| Core.Swarm.EquipAgent | opencore/core/swarm.py:39-43 | A new agent ends up with exactly the seven tools and the seven definitions: the swarm's three, then the four built-in ones. |
| Core.Swarm.RegisterSwarmTools | opencore/core/swarm.py:50-121 | `create_agent`, `delegate_task` and `list_agents` are bound, and their definitions are appended in that order. |
| Core.Swarm.OrderListsAgents | opencore/core/swarm.py:118-119 | The insertion order names every registered agent exactly once. |
| Core.Swarm.GetAgent | opencore/core/swarm.py:47-48 | It returns an agent exactly when the name is registered, and then the registered one. |
| Core.Swarm.ListAgents | opencore/core/swarm.py:118-119 | The text is `Available agents: ` followed by the list repr of the names in insertion order, each name quoted as `str.__repr__` quotes it. |
| Text.StrRepr | opencore/core/swarm.py:95 | `repr` of a string is quoted at both ends with the quote `str.__repr__` picks: a double quote only for text with a single quote and no double quote. |
| Text.StrReprPlain | opencore/core/swarm.py:119 | A name without quotes, backslashes or non-printable characters is shown as `'name'`. |
| Text.StrReprApostrophe | opencore/core/swarm.py:119 | A name with a single quote and no double quote is shown between double quotes, unescaped, as in `"O'Brien"`. |
| Text.EscapedApostrophes | opencore/core/swarm.py:119 | Inside single quotes, text whose only special character is the single quote is escaped exactly as `str.replace("'", "\\'")` would do it. |
| Text.StrReprBothQuotes | opencore/core/swarm.py:119 | A name holding both quotes, and otherwise only characters written as themselves, is shown between single quotes with a backslash before each of its single quotes: `'a\'"b'`. |
| Core.Swarm.Delegate | opencore/core/swarm.py:92-100 | An unknown target answers with the known names and changes nothing. A known one hears `Request from {caller}: {task}` as a user message, and the answer is `Response from {to_agent}: {reply}`, where `reply` is what the target's `chat` answered: an error text, its text reply, the empty-response text, or the outcome of its tool-call round. With no fuel left the call raises. |
| Core.Swarm.Chat | opencore/core/swarm.py:123-128 | The user's message reaches the main agent only. The outcome follows the main agent's reply, and every history only grows. |
| BaseTools.IsSafePath | opencore/tools/base.py:9-26 | With unsafe access allowed every path is safe. Otherwise a path is safe exactly when its real path lies under the real working directory. |
| BaseTools.CommonPrefix | opencore/tools/base.py:22 | The common path is a prefix of both paths. |
| BaseTools.CommonPrefixIsFirst | opencore/tools/base.py:22 | The common path of two paths is the first one exactly when the first is a prefix of the second. |
| BaseTools.RmRfRootMatches | opencore/tools/base.py:36-46 | `rm -rf /` anywhere in a command, followed by a space or the end, is caught by the guard. |
| BaseTools.RmRfTmpPasses | opencore/tools/base.py:35-38 | `rm -rf /tmp` is not caught. |
| BaseTools.DecideGuarantees | opencore/tools/base.py:29-80 | The guard blocks exactly the commands a dangerous pattern matches, in both modes. The shell runs only with unsafe access allowed. In restricted mode a command runs only when every token, the program included, lies inside the working directory. A token outside it is reported. |
| BaseTools.FirstUnsafe | opencore/tools/base.py:62-68 | There is no offending argument exactly when all are safe. Otherwise the first unsafe one is reported. |
| BaseTools.Guard | opencore/tools/base.py:43-46 | The loop finds the first dangerous pattern that matches, if any. |
| BaseTools.CheckArgs | opencore/tools/base.py:62-68 | The loop finds the first argument that is not a safe path, if any. |
| BaseTools.ExecuteCommand | opencore/tools/base.py:29-80 | The output is the guard's message, the traversal message, the run's stdout with any stderr appended, or the error, as the decision says. |
| BaseTools.ReadFile | opencore/tools/base.py:82-91 | An unsafe path is denied. A safe readable one gives the file's contents. |
| BaseTools.WriteFile | opencore/tools/base.py:94-104 | An unsafe path is denied before anything is written. |
| BaseTools.ListFiles | opencore/tools/base.py:107-116 | An unsafe directory is denied. |
| BaseTools.FileToolsConfined | opencore/tools/base.py:82-116 | In restricted mode, all three file tools deny any path outside the working directory. |
| LlmBase.NewToolCall | opencore/llm/base.py:10-14 | A tool call built without a type has type `function`, with the given id, name and arguments. |
| LlmBase.TextResponse | opencore/llm/base.py:16-19 | A response built from content alone carries no tool calls. |
| LlmSchema.ConvertToAnthropicTool | opencore/llm/schema.py:3-14 | Name and description are copied from `function`, or absent when it is missing. The input schema is the parameters, or the empty object schema. |
| LlmSchema.ConvertToGeminiTool | opencore/llm/schema.py:16-26 | The same as the Anthropic converter, with the parameters under `parameters`. |
| LlmSchema.ConvertersAgree | opencore/llm/schema.py:3-26 | The two converters agree on name, description and schema for every definition. |
| OpenAICompat.RequestFor | opencore/llm/openai_compat.py:16-23 | The request carries the model and the messages unchanged. Tools and `tool_choice="auto"` are sent exactly when the tool list is non-empty. |
| OpenAICompat.Chat | opencore/llm/openai_compat.py:12-45 | An endpoint error propagates. Otherwise the content is kept, and the tool calls are copied field for field in order. An absent or empty call list gives none. |
| AnthropicAdapter.LastSystemContent | opencore/llm/anthropic.py:17-21 | With no system message the prompt is `None`. Otherwise it is the content of the last system message: no later message is a system one. |
| AnthropicAdapter.NonSystemAppend | opencore/llm/anthropic.py:17-21 | Filtering out system messages keeps order, so it distributes over concatenation. |
| AnthropicAdapter.NonSystemMembers | opencore/llm/anthropic.py:17-21 | Exactly the non-system messages are sent. |
| AnthropicAdapter.ConvertAll | opencore/llm/anthropic.py:32-33 | Each tool definition is converted with the Anthropic converter, in order. |
| AnthropicAdapter.ToolUsesAt | opencore/llm/anthropic.py:40-50 | The block preceded by k `tool_use` blocks gives the k-th call, with its id, its name and its input serialised by `json.dumps`; there are exactly as many calls as `tool_use` blocks. |
| AnthropicAdapter.ToolUsesFrom | opencore/llm/anthropic.py:40-50 | Every call has the default type and the id and name of a `tool_use` block. |
| AnthropicAdapter.Chat | opencore/llm/anthropic.py:12-57 | The filtering loop sends the last system prompt and the non-system messages. An endpoint error propagates. Otherwise the text blocks are joined and the tool uses are collected, and an empty list becomes None. |
| GeminiAdapter.NewGemini | opencore/llm/gemini.py:12-35 | It raises exactly when no API key and no Vertex project and location are usable. A key is used before Vertex. An internal `gemini/` prefix is removed once, and other names are kept. |
| GeminiAdapter.CallParts | opencore/llm/gemini.py:66-81 | There is one function-call part per tool call, with its name and its decoded arguments (or `{}`). |
| GeminiAdapter.Declarations | opencore/llm/gemini.py:119-129 | Each tool definition becomes its Gemini declaration, in order. |
| GeminiAdapter.Prefix8 | opencore/llm/gemini.py:174 | `hex[:8]` is exactly the first eight characters, or the whole string when it is shorter. |
| GeminiAdapter.ReplayToolCalls | opencore/llm/gemini.py:64-81 | The loop records each call's id under its function name and emits its parts. |
| GeminiAdapter.ReplayToolResult | opencore/llm/gemini.py:85-111 | The loop body for a tool message computes the replay's tool step, whose meaning GeminiAdapter.ReplayToolMessage states in terms of the history. |
| GeminiAdapter.ReplayToolMessage | opencore/llm/gemini.py:85-111 | A `tool` message whose id an earlier assistant turn issued, under a non-empty name, is replayed as a `function` response under that name. Its data is the parsed content when it is an object, and `{"result": ...}` otherwise. Any other tool message is replayed as a `Tool result: ...` user turn. |
| GeminiAdapter.ReplayHistory | opencore/llm/gemini.py:42-111 | The history loop computes the replay function: the last system instruction, the contents and the id map. |
| GeminiAdapter.BuildConfig | opencore/llm/gemini.py:113-142 | The configuration carries the system instruction when there is one. With a non-empty tool list it carries all declarations in one tool, in AUTO mode. |
| GeminiAdapter.ParseParts | opencore/llm/gemini.py:155-182 | The loop collects the texts and one tool call per function-call part. |
| GeminiAdapter.Chat | opencore/llm/gemini.py:37-193 | An endpoint error becomes the content `Error from Gemini: ...`, and the adapter never raises. No candidates gives the fixed error text. A first candidate without content, or with content but no parts, also gives `Error from Gemini: ...`. Otherwise the first candidate's parts give the response. |
| GeminiAdapter.AddIdsKeys | opencore/llm/gemini.py:66-68 | After recording a batch, an id is known exactly when it was known before or belongs to one of the calls. Its name is the earlier one or the name of a call with that id. |
| GeminiAdapter.ReplayIds | opencore/llm/gemini.py:46-111 | The replay knows a function name for exactly the ids of tool calls issued by assistant turns, and each known name is one those turns gave for that id. |
| GeminiAdapter.ReplayContents | opencore/llm/gemini.py:48-111 | Every user, assistant and tool message gives exactly one content. Only the roles `user`, `model` and `function` occur. |
| GeminiAdapter.ReplyCallsShape | opencore/llm/gemini.py:158-182 | There is one tool call per function-call part, in part order. The part preceded by k function-call parts gives the k-th call. That call keeps the function's name, carries its arguments serialised by `json.dumps` (`{}` when they are not a dict), and has the default type. Its id is `call_` followed by exactly eight lower-case hex digits of the k-th uuid, given that `uuid4().hex` is 32 of them. |
| LlmFactory.GetLlmProvider | opencore/llm/factory.py:8-89 | Of opencore's own code, only the Gemini branch raises. `gpt-`/`openai/` go to the OpenAI client with `openai/` removed and `OPENAI_API_KEY`. |
| LlmFactory.StripRoutingPrefix | opencore/llm/factory.py:16 | `str.replace` of the routing prefix gives back the rest, when the prefix does not occur again. |
| LlmFactory.AnthropicRoute | opencore/llm/factory.py:19-22 | `anthropic/x` selects the Anthropic adapter for `x` with `ANTHROPIC_API_KEY`. |
| LlmFactory.GeminiRoute | opencore/llm/factory.py:24-26 | `gemini/x`, when it is constructed, gives a Gemini provider for model `x`. |
| LlmFactory.GoogleRoute | opencore/llm/factory.py:24-26 | `google/x` goes to the Gemini constructor with the whole identifier and `GEMINI_API_KEY`. A returned provider keeps `google/x` as its model name, because only `gemini/` is stripped. |
| LlmFactory.GroqRoute | opencore/llm/factory.py:28-35 | `groq/x` selects the OpenAI client for `x` at Groq's URL with `GROQ_API_KEY`. |
| LlmFactory.XaiRoute | opencore/llm/factory.py:37-44 | `xai/x` selects the OpenAI client for `x` at xAI's URL with `XAI_API_KEY`. |
| LlmFactory.QwenRoute | opencore/llm/factory.py:46-65 | `qwen/x` selects the OpenAI client for `x`. The OAuth token, if set, is the key and selects the portal URL. Otherwise the DashScope key and URL are used. |
| LlmFactory.DashScopeRoute | opencore/llm/factory.py:46-65 | `dashscope/x` selects the OpenAI client for `x`, with the same key and URL choice as `qwen/x`. The OAuth token, if set, is the key and selects the portal URL. Otherwise the DashScope key and URL are used. |
| LlmFactory.MistralRoute | opencore/llm/factory.py:67-74 | `mistral/x` selects the OpenAI client for `x` at Mistral's URL with `MISTRAL_API_KEY`. |
| LlmFactory.OllamaRoute | opencore/llm/factory.py:76-83 | `ollama/x` selects the OpenAI client for `x` with key `ollama`, at `OLLAMA_API_BASE` or the local default. |
| LlmFactory.FallbackRoute | opencore/llm/factory.py:85-89 | A name with no known prefix goes unchanged to the OpenAI client with `OPENAI_API_KEY`. |
| LlmFactory.ProviderChat | opencore/llm/base.py:21-34 | A Gemini provider never raises. The OpenAI and Anthropic providers raise exactly when their endpoint does. |
| Config.NormalisedModel | opencore/config.py:16-20 | The corrected model is never one of the two broken strings. It is absent exactly when `LLM_MODEL` is unset. |
| Config.NormalisedModelKeepsOthers | opencore/config.py:14-20 | Only the two broken model strings are rewritten, each to its replacement. An absent model stays absent and all other values are kept. |
| Config.NormalisedModelIdempotent | opencore/config.py:16-20 | Correcting twice is correcting once. |
| Config.IntSetting | opencore/config.py:23 | An unset variable gives the default. A set one gives its integer value when it parses, and raises `invalid literal for int()` otherwise. |
| Config.IntSettingOfIntToString | opencore/config.py:23 | An integer written into the environment reads back as itself. |
| Text.ParseIntOfIntToString | opencore/config.py:23 | `int(str(i)) == i` for every integer. |
| Text.ReplaceWithoutOccurrence | opencore/llm/factory.py:16 | `str.replace` leaves a string without the pattern unchanged. |
| Config.Settings.Blank | opencore/config.py:7-9 | A modelling device for the object before its first `reload`, which has no attributes in the source: fields start at fixed defaults and no result depends on them. |
| Config.Settings.New | opencore/config.py:8-9 | Construction raises exactly when `PORT` or `HEARTBEAT_INTERVAL` is set to a non-integer. Otherwise the new settings hold what `reload` reads. |
| Config.Settings.Reload | opencore/config.py:11-25 | Fields are assigned in source order with their defaults and corrections. A malformed `PORT` raises before the port, log level and interval change. A malformed interval leaves only the interval unchanged. It succeeds exactly when every field holds what the environment says. |
| Config.Settings.IsDev | opencore/config.py:27-29 | Development mode is never the default `production` environment. |
| Config.Settings.DevOnlyWhenAsked | opencore/config.py:27-29 | Loaded settings are in development mode exactly when `APP_ENV` is `development`. The default is not. |
| Middleware.Handle | opencore/interface/middleware.py:39-91 | Details appear only for validation errors, and for unexpected exceptions only in development mode. Only an `HTTPException` chooses its own status; all others answer 422 or 500. |
| Middleware.HandleClassifies | opencore/interface/middleware.py:39-91 | The error code identifies the exception class: `UNPROCESSABLE_ENTITY` iff validation error, `INTERNAL_SERVER_ERROR` iff unexpected, an `HTTP_` prefix iff `HTTPException`. |
| Middleware.HandleStatus | opencore/interface/middleware.py:46-68 | Validation errors answer 422 and unexpected ones 500. An `HTTPException` keeps its status, and the code's digits read back to it. |
| Middleware.HandleDetails | opencore/interface/middleware.py:59-91 | An `HTTPException`'s detail is the message, with no details. Validation details are the errors' text. An unexpected exception's text is shown exactly in development mode. |
| Middleware.ReadBodyOfBody | opencore/interface/middleware.py:29-36 | Every body is the `{"error": {code, message, details}}` envelope and reads back to its details. |
| Audio.LastIndexOf | opencore/audio/service.py:43 | The last position of the character, or -1. Nothing after it is that character. |
| Audio.Extension | opencore/audio/service.py:43 | The extension `splitext` finds is a suffix of the path, and is empty or starts with a dot. |
| Audio.ExtensionOfSuffix | opencore/audio/service.py:43 | A stem followed by a dot-suffix without dots or slashes has that suffix as its extension. |
| Audio.LeadingDotsAreNoExtension | opencore/audio/service.py:43 | A last component made only of dots (e.g. `.`, `..`) has no extension. |
| Audio.MissingNameRejected | opencore/audio/service.py:42-48 | A missing or empty file name falls back to `audio.tmp` and is rejected as an invalid type. |
| Audio.UpperCaseAccepted | opencore/audio/service.py:43-45 | Extensions are compared lower-cased, so `x.WAV` is accepted as `.wav`. |
| Audio.DeliveredPrefix | opencore/audio/service.py:59-62 | Reading stops at the first empty chunk. The chunks before it are exactly what was delivered. |
| Audio.FlattenPrefix | opencore/audio/service.py:63-68 | The bytes of the first chunks are a prefix of all delivered bytes. |
| Audio.Disk.constructor | opencore/audio/service.py:54 | A disk holds the given files. |
| Audio.Disk.Create | opencore/audio/service.py:54 | A new empty temporary file. |
| Audio.Disk.Write | opencore/audio/service.py:68 | The chunk is appended to the file, and no other file changes. |
| Audio.Disk.Remove | opencore/audio/service.py:84 | The file is gone and no other file changes. |
| Audio.CopyToTemp | opencore/audio/service.py:54-68 | It reports too large exactly when the delivered bytes exceed 25 MiB. The file never holds more than the limit, holds a prefix of the upload, and holds all of it when within the limit. |
| Audio.ProcessUpload | opencore/audio/service.py:27-86 | A disallowed extension raises the type error, which lists each allowed extension exactly once. Otherwise more than 25 MiB raises the size error, and anything else gives the transcriber's outcome. The disk ends as it began, since the temporary file is removed on every path. |

## Left out

- The language model, the provider endpoints, JSON text, `shlex.split`, `os.path.realpath`, `subprocess.run`, the file system, `uuid4`, the transcriber and the temporary file's name are parameters of the model. Their behaviour is whatever the given functions return.
- Python's recursion limit is not a number the model knows. It is a `fuel` count: a delegation at fuel 0 raises `RecursionLimit`, whose text stands for the real `RecursionError` message.
- The texts of Python exceptions are fixed constants in the model. This covers `TypeError` from binding keyword arguments and the endpoints' errors. Only where such a text is produced matters, not its wording. The `ValueError` from `int()` is the exception: it shows the string's `repr` cut to 200 characters, as CPython writes it.
- Config.IntSetting: `int()` is modelled on an optional sign and ASCII digits after `strip()`. Digit underscores and non-ASCII digits, which Python also accepts, are not modelled.
- Text.Lower: only ASCII letters are lowered. Python's Unicode case mapping is not modelled.
- `load_dotenv` reads a `.env` file into the environment before each reload. The model takes the resulting environment as the input `env`.
- Middleware: `HTTPException.detail` is taken as the given string. Starlette's default reason phrase and non-string details are not modelled. The request-id middleware and the handler's logging are not part of this model.
- Audio: `", ".join` over a Python set lists the extensions in an order the language does not fix, so the model takes the listing as a parameter. Failures to create or write the temporary file, or to remove it, are not modelled. Every such write succeeds in the model.
- Audio.ProcessUpload: cleanup is stated as the disk ending unchanged. The `tmp_path and os.path.exists` test is not modelled separately, since the model's file always exists by then.
- `print`, `traceback.print_exc` and logging are left out: they only write to the console.
- Agent pruning, status and toggling, teams, agent removal and message attachments are not part of this model.
- The Gemini provider's `google/` names are passed to the SDK unchanged, as the code does.
- LlmFactory.GetLlmProvider: the SDK clients the returned providers construct are not modelled, and neither are their own failures. The OpenAI client raises when no key resolves, that is when the key is unset and `OPENAI_API_KEY` is too. With a provider key unset (`groq/`, `xai/`, `dashscope/`, `mistral/`), it falls back to `OPENAI_API_KEY`. The model promises only that opencore's own code raises nowhere but in the Gemini branch.
- `config.py` as given has no `allow_unsafe_system_access` setting, though `tools/base.py` reads it. The model takes it as the `allowUnsafe` flag of the `Host`.
- Core.Swarm.CreateAgent: its contract states the new agent's tool map, not its seven definitions. The definitions are stated by Core.Swarm.EquipAgent, which CreateAgent calls on the fresh agent.
- Core.Agent.RegisterTool: requires the schema to have `function.name`. The source would raise `KeyError` otherwise, and every schema the core registers has one.
- Core.Agent.Think: a reply whose tool calls ran is stated as extending the history with its assistant turn. What follows is stated by Core.Agent.Act, the method for that branch: the batch's steps and then the next round's outcome.
- Messages are values in the model. The Python dicts and SDK message objects in `messages` could be shared and mutated elsewhere, and that aliasing is not modelled.
- Core.Bind: only JSON strings bind (and `null` for the optional `model`); any other value gives the error `argument is not a string`. Python binds any value, and the tool then acts on it: a non-string path makes `realpath` raise inside `_is_safe_path`, which answers the traversal message; `delegate_task` formats a non-string name or task with `str()`; `create_agent` registers the value as given. Those answers are not modelled.
- Text.ListRepr: names are quoted by Text.StrRepr, which writes `\xhh` escapes for the C0 and C1 controls, DEL, U+00A0 and U+00AD. Other characters are written as themselves; Python's `str.isprintable` over all of Unicode, and its `\uXXXX` escapes, are not modelled.
- JSON numbers are integers in the model. Numbers with a fraction or an exponent, which `json.loads` returns as floats, are not modelled; the core only passes numbers through.
- `json.dumps` never fails in the model: the values it is given are JSON values. The source's reaction to a value it cannot serialise is not modelled.
- Concurrency is not modelled: each call runs to completion. This covers `asyncio.to_thread` and parallel requests to the API.
