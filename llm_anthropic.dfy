/** The Anthropic adapter: the system prompt travels apart from the history, tool
    definitions are converted, and the reply's content blocks are folded into one
    text and a list of tool calls. */
module AnthropicAdapter {
  import opened Wrappers
  import opened Environ
  import opened Json
  import opened Text
  import opened LlmBase
  import opened LlmSchema

  /** The reply's `max_tokens`, fixed by the adapter. */
  const MaxTokens: int := 4096

  /** The keyword arguments given to `client.messages.create`. */
  datatype Request = Request(
    model: string,
    maxTokens: int,
    messages: seq<Message>,
    system: Option<string>,
    tools: Option<seq<AnthropicTool>>)

  /** One block of `response.content`. */
  datatype Block =
    | TextBlock(text: string)
    | ToolUseBlock(id: string, name: string, input: Json)
    | OtherBlock(kind: string)

  /** The remote endpoint: the reply's content blocks, or what the call raised. */
  type Backend = Request -> Outcome<seq<Block>>

  /** Position `i` holds the last system message of `ms`. */
  predicate LastSystemAt(ms: seq<Message>, i: int) {
    0 <= i < |ms| && ms[i].role == "system" && forall k | i < k < |ms| :: ms[k].role != "system"
  }

  /** The `content` of the last system message (`None` when there is none): each
      system message overwrites the one before. */
  function LastSystemContent(ms: seq<Message>): (r: Option<string>)
    ensures (forall i | 0 <= i < |ms| :: ms[i].role != "system") ==> r.None?
    ensures forall i | LastSystemAt(ms, i) :: r == ms[i].content
  {
    if ms == [] then None
    else if ms[|ms| - 1].role == "system" then ms[|ms| - 1].content
    else
      var n := |ms| - 1;
      assert forall i | LastSystemAt(ms, i) :: LastSystemAt(ms[..n], i);
      LastSystemContent(ms[..n])
  }

  /** The history without its system messages. */
  function NonSystem(ms: seq<Message>): seq<Message> {
    if ms == [] then []
    else if ms[|ms| - 1].role == "system" then NonSystem(ms[..|ms| - 1])
    else NonSystem(ms[..|ms| - 1]) + [ms[|ms| - 1]]
  }

  /** Filtering keeps the relative order of what it keeps: it distributes over `+`. */
  lemma {:induction false} NonSystemAppend(a: seq<Message>, b: seq<Message>)
    ensures NonSystem(a + b) == NonSystem(a) + NonSystem(b)
    decreases |b|
  {
    if b == [] {
      assert a + b == a;
    } else {
      var b' := b[..|b| - 1];
      assert (a + b)[..|a + b| - 1] == a + b';
      NonSystemAppend(a, b');
    }
  }

  /** Exactly the messages whose role is not `"system"` are kept. */
  lemma {:induction false} NonSystemMembers(ms: seq<Message>, m: Message)
    ensures m in NonSystem(ms) <==> m in ms && m.role != "system"
    decreases |ms|
  {
    if ms != [] {
      var p := ms[..|ms| - 1];
      assert ms == p + [ms[|ms| - 1]];
      NonSystemMembers(p, m);
    }
  }

  /** The request `chat` sends. */
  function RequestFor(modelName: string, messages: seq<Message>, tools: Option<seq<ToolDef>>): Request {
    var system := LastSystemContent(messages);
    Request(
      modelName, MaxTokens, NonSystem(messages),
      if Truthy(system) then system else None,
      if tools.Some? && tools.value != [] then Some(ConvertAll(tools.value)) else None)
  }

  function ConvertAll(tools: seq<ToolDef>): (r: seq<AnthropicTool>)
    ensures |r| == |tools|
    ensures forall j | 0 <= j < |tools| :: r[j] == ConvertToAnthropicTool(tools[j])
  {
    seq(|tools|, j requires 0 <= j < |tools| => ConvertToAnthropicTool(tools[j]))
  }

  /** The texts of the text blocks, in order. */
  function Texts(blocks: seq<Block>): seq<string> {
    if blocks == [] then []
    else
      var b := blocks[|blocks| - 1];
      Texts(blocks[..|blocks| - 1]) + (if b.TextBlock? then [b.text] else [])
  }

  /** One tool call per `tool_use` block, its input serialised with `dumps`. */
  function ToolUses(blocks: seq<Block>, dumps: Json -> string): seq<ToolCall> {
    if blocks == [] then []
    else
      var b := blocks[|blocks| - 1];
      ToolUses(blocks[..|blocks| - 1], dumps)
        + (if b.ToolUseBlock? then [NewToolCall(b.id, b.name, dumps(b.input))] else [])
  }

  function CountToolUses(blocks: seq<Block>): nat {
    if blocks == [] then 0
    else CountToolUses(blocks[..|blocks| - 1]) + (if blocks[|blocks| - 1].ToolUseBlock? then 1 else 0)
  }

  /** The block that follows `k` tool-use blocks gives the `k`-th call, with
      its id and name and its input serialised by `dumps`. */
  lemma {:induction false} ToolUsesAt(blocks: seq<Block>, dumps: Json -> string)
    ensures |ToolUses(blocks, dumps)| == CountToolUses(blocks)
    ensures forall i | 0 <= i < |blocks| && blocks[i].ToolUseBlock? ::
      && CountToolUses(blocks[..i]) < |ToolUses(blocks, dumps)|
      && ToolUses(blocks, dumps)[CountToolUses(blocks[..i])] == NewToolCall(blocks[i].id, blocks[i].name, dumps(blocks[i].input))
    decreases |blocks|
  {
    if blocks != [] {
      var n := |blocks| - 1;
      var p := blocks[..n];
      ToolUsesAt(p, dumps);
      var last := if blocks[n].ToolUseBlock? then [NewToolCall(blocks[n].id, blocks[n].name, dumps(blocks[n].input))] else [];
      assert ToolUses(blocks, dumps) == ToolUses(p, dumps) + last;
      forall i | 0 <= i < |blocks| && blocks[i].ToolUseBlock?
        ensures && CountToolUses(blocks[..i]) < |ToolUses(blocks, dumps)|
                && ToolUses(blocks, dumps)[CountToolUses(blocks[..i])] == NewToolCall(blocks[i].id, blocks[i].name, dumps(blocks[i].input))
      {
        if i < n {
          assert blocks[..i] == p[..i] && blocks[i] == p[i];
        } else {
          assert blocks[..i] == p;
        }
      }
    }
  }

  /** Every call comes from a tool-use block with its id and name. */
  lemma {:induction false} ToolUsesFrom(blocks: seq<Block>, dumps: Json -> string)
    ensures forall t | t in ToolUses(blocks, dumps) ::
      t.kind == DefaultToolCallType &&
      exists i | 0 <= i < |blocks| :: blocks[i].ToolUseBlock? && blocks[i].id == t.id && blocks[i].name == t.func.name
    decreases |blocks|
  {
    if blocks != [] {
      var p := blocks[..|blocks| - 1];
      ToolUsesFrom(p, dumps);
      forall t | t in ToolUses(blocks, dumps)
        ensures exists i | 0 <= i < |blocks| :: blocks[i].ToolUseBlock? && blocks[i].id == t.id && blocks[i].name == t.func.name
      {
        if t in ToolUses(p, dumps) {
          var i :| 0 <= i < |p| && p[i].ToolUseBlock? && p[i].id == t.id && p[i].name == t.func.name;
          assert blocks[i] == p[i];
        } else {
          assert blocks[|blocks| - 1].ToolUseBlock?;
        }
      }
    }
  }

  /** The response built from the reply's blocks. */
  function ResponseOf(blocks: seq<Block>, dumps: Json -> string): LlmResponse {
    var texts := Texts(blocks);
    var calls := ToolUses(blocks, dumps);
    LlmResponse(if texts != [] then Some(Concat(texts)) else None, if calls != [] then Some(calls) else None)
  }

  /** `AnthropicProvider.chat`; what the endpoint raises propagates. */
  method Chat(modelName: string, messages: seq<Message>, tools: Option<seq<ToolDef>>,
              backend: Backend, dumps: Json -> string)
    returns (r: Outcome<LlmResponse>)
    ensures r == match backend(RequestFor(modelName, messages, tools))
                 case Raised(e) => Raised(e)
                 case Returned(blocks) => Returned(ResponseOf(blocks, dumps))
  {
    var systemPrompt: Option<string> := None;
    var filtered: seq<Message> := [];
    for i := 0 to |messages|
      invariant systemPrompt == LastSystemContent(messages[..i])
      invariant filtered == NonSystem(messages[..i])
    {
      assert messages[..i + 1][..i] == messages[..i];
      if messages[i].role == "system" {
        systemPrompt := messages[i].content;
      } else {
        filtered := filtered + [messages[i]];
      }
    }
    assert messages[..|messages|] == messages;
    var request := Request(modelName, MaxTokens, filtered, None, None);
    if Truthy(systemPrompt) {
      request := request.(system := systemPrompt);
    }
    if tools.Some? && tools.value != [] {
      request := request.(tools := Some(ConvertAll(tools.value)));
    }
    var reply := backend(request);
    if reply.Raised? {
      return Raised(reply.error);
    }
    var blocks := reply.value;
    var contentBlocks: seq<string> := [];
    var toolCallsList: seq<ToolCall> := [];
    for i := 0 to |blocks|
      invariant contentBlocks == Texts(blocks[..i])
      invariant toolCallsList == ToolUses(blocks[..i], dumps)
    {
      assert blocks[..i + 1][..i] == blocks[..i];
      var block := blocks[i];
      if block.TextBlock? {
        contentBlocks := contentBlocks + [block.text];
      } else if block.ToolUseBlock? {
        toolCallsList := toolCallsList + [NewToolCall(block.id, block.name, dumps(block.input))];
      }
    }
    assert blocks[..|blocks|] == blocks;
    var contentStr := if contentBlocks != [] then Some(Concat(contentBlocks)) else None;
    r := Returned(LlmResponse(contentStr, if toolCallsList != [] then Some(toolCallsList) else None));
  }
}
