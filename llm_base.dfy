/** The canonical shapes every provider adapter translates to and from:
    tool calls, responses, chat messages and OpenAI-format tool definitions,
    and the closed set of provider back ends. */
module LlmBase {
  import opened Wrappers
  import opened Json

  /** `arguments` is JSON text, not a structured value. */
  datatype ToolCallFunction = ToolCallFunction(name: string, arguments: string)

  datatype ToolCall = ToolCall(id: string, func: ToolCallFunction, kind: string)

  /** The `type` a `ToolCall` gets when none is given. */
  const DefaultToolCallType: string := "function"

  /** `ToolCall(id=..., function=ToolCallFunction(...))` without an explicit type. */
  function NewToolCall(id: string, name: string, arguments: string): (t: ToolCall)
    ensures t.kind == DefaultToolCallType
    ensures t.id == id && t.func.name == name && t.func.arguments == arguments
  {
    ToolCall(id, ToolCallFunction(name, arguments), DefaultToolCallType)
  }

  /** `content` is optional; `tool_calls` is `None` when the reply carries none. */
  datatype LlmResponse = LlmResponse(content: Option<string>, toolCalls: Option<seq<ToolCall>>)

  /** `LLMResponse(content=...)`, leaving `tool_calls` at its default. */
  function TextResponse(content: Option<string>): (r: LlmResponse)
    ensures r.content == content && r.toolCalls.None?
  {
    LlmResponse(content, None)
  }

  /** One entry of a chat history: `{role, content}`, plus `tool_calls` on an
      assistant turn and `tool_call_id` on a tool result. */
  datatype Message = Message(
    role: string,
    content: Option<string>,
    toolCalls: Option<seq<ToolCall>>,
    toolCallId: Option<string>)

  /** `{"role": role, "content": content}` */
  function PlainMessage(role: string, content: string): Message {
    Message(role, Some(content), None, None)
  }

  /** The `function` part of an OpenAI-format tool definition; each key may be missing. */
  datatype FunctionSpec = FunctionSpec(
    name: Option<string>,
    description: Option<string>,
    parameters: Option<Json>)

  /** `{"type": "function", "function": {...}}`; the `function` key may be missing. */
  datatype ToolDef = ToolDef(kind: Option<string>, func: Option<FunctionSpec>)

  /** How a Gemini client authenticates. */
  datatype GeminiClient = ApiKeyClient(apiKey: string) | VertexClient(project: string, location: string)

  /** The closed set of provider adapters behind `LLMProvider.chat`. */
  datatype Provider =
    | OpenAICompatible(modelName: string, apiKey: Option<string>, baseUrl: Option<string>)
    | Anthropic(modelName: string, apiKey: Option<string>)
    | Gemini(modelName: string, client: GeminiClient)
}
