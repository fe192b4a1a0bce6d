/** The OpenAI-compatible adapter: messages and tool definitions pass through as
    they are, and the reply's tool calls are copied field by field. */
module OpenAICompat {
  import opened Wrappers
  import opened LlmBase

  /** The keyword arguments given to `client.chat.completions.create`. */
  datatype Request = Request(
    model: string,
    messages: seq<Message>,
    tools: Option<seq<ToolDef>>,
    toolChoice: Option<string>)

  /** A tool call as the client library returns it. */
  datatype WireToolCall = WireToolCall(id: string, name: string, arguments: string, kind: string)

  /** `response.choices[0].message` */
  datatype WireMessage = WireMessage(content: Option<string>, toolCalls: Option<seq<WireToolCall>>)

  /** The remote endpoint: the first choice's message, or what the call raised. */
  type Backend = Request -> Outcome<WireMessage>

  /** The request `chat` sends: the history unchanged, and the tools with
      `tool_choice="auto"` only when there is at least one tool. */
  function RequestFor(modelName: string, messages: seq<Message>, tools: Option<seq<ToolDef>>): (r: Request)
    ensures r.model == modelName && r.messages == messages
    ensures r.tools.Some? <==> tools.Some? && tools.value != []
    ensures r.tools.Some? ==> r.tools == tools && r.toolChoice == Some("auto")
    ensures r.tools.None? ==> r.toolChoice.None?
  {
    if tools.Some? && tools.value != [] then Request(modelName, messages, tools, Some("auto"))
    else Request(modelName, messages, None, None)
  }

  /** `t` is `w` with id, name, arguments and type copied verbatim. */
  predicate CopiedFrom(t: ToolCall, w: WireToolCall) {
    t.id == w.id && t.func.name == w.name && t.func.arguments == w.arguments && t.kind == w.kind
  }

  /** `OpenAICompatibleProvider.chat` */
  method Chat(modelName: string, messages: seq<Message>, tools: Option<seq<ToolDef>>, backend: Backend)
    returns (r: Outcome<LlmResponse>)
    ensures backend(RequestFor(modelName, messages, tools)).Raised? ==>
      r == Raised(backend(RequestFor(modelName, messages, tools)).error)
    ensures backend(RequestFor(modelName, messages, tools)).Returned? ==>
      var m := backend(RequestFor(modelName, messages, tools)).value;
      && r.Returned?
      && r.value.content == m.content
      && (r.value.toolCalls.None? <==> m.toolCalls.None? || m.toolCalls.value == [])
      && (r.value.toolCalls.Some? ==>
            |r.value.toolCalls.value| == |m.toolCalls.value|
            && forall j | 0 <= j < |m.toolCalls.value| ::
                 CopiedFrom(r.value.toolCalls.value[j], m.toolCalls.value[j]))
  {
    var request := Request(modelName, messages, None, None);
    if tools.Some? && tools.value != [] {
      request := request.(tools := tools, toolChoice := Some("auto"));
    }
    var reply := backend(request);
    if reply.Raised? {
      return Raised(reply.error);
    }
    var message := reply.value;
    var toolCallsList: Option<seq<ToolCall>> := None;
    if message.toolCalls.Some? && message.toolCalls.value != [] {
      var wire := message.toolCalls.value;
      var calls: seq<ToolCall> := [];
      for i := 0 to |wire|
        invariant |calls| == i
        invariant forall j | 0 <= j < i :: CopiedFrom(calls[j], wire[j])
      {
        var tc := wire[i];
        calls := calls + [ToolCall(tc.id, ToolCallFunction(tc.name, tc.arguments), tc.kind)];
      }
      toolCallsList := Some(calls);
    }
    r := Returned(LlmResponse(message.content, toolCallsList));
  }
}
