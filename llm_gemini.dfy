/** The Gemini adapter. Construction picks the credentials and strips the
    internal `gemini/` prefix; `chat` replays the history as Gemini contents,
    recovering each tool result's function name from the tool calls issued
    before it, and parses the first candidate of the reply. It never raises:
    what the endpoint raises comes back as text. */
module GeminiAdapter {
  import opened Wrappers
  import opened Environ
  import opened Json
  import opened Text
  import opened LlmBase
  import opened LlmSchema

  const InternalPrefix: string := "gemini/"
  const MissingCredentials: string := "Gemini API Key or Vertex Project/Location is required."
  const NoCandidates: string := "Error: No candidates returned."
  const ErrorPrefix: string := "Error from Gemini: "
  /** What `candidate.content.parts` raises when the candidate has no content,
      and what iterating raises when the content has no parts. */
  const NoContentError: string := "'NoneType' object has no attribute 'parts'"
  const NoPartsError: string := "'NoneType' object is not iterable"

  /** `GeminiProvider.__init__`: an explicit key, else `GEMINI_API_KEY`, else a
      Vertex project and location; `ValueError` when none is usable. */
  function NewGemini(modelName: string, apiKey: Option<string>, env: Env): (r: Outcome<Provider>)
    ensures r.Raised? <==>
      !Truthy(apiKey) && !Truthy(GetEnv(env, "GEMINI_API_KEY"))
      && !(Truthy(GetEnv(env, "VERTEX_PROJECT")) && Truthy(GetEnv(env, "VERTEX_LOCATION")))
    ensures r.Raised? ==> r.error == MissingCredentials
    ensures r.Returned? ==> r.value.Gemini?
    ensures r.Returned? && Truthy(apiKey) ==> r.value.client == ApiKeyClient(apiKey.value)
    ensures r.Returned? && r.value.client.VertexClient? ==> !Truthy(apiKey) && !Truthy(GetEnv(env, "GEMINI_API_KEY"))
    ensures r.Returned? && StartsWith(modelName, InternalPrefix) ==>
      InternalPrefix + r.value.modelName == modelName
    ensures r.Returned? && !StartsWith(modelName, InternalPrefix) ==> r.value.modelName == modelName
  {
    var key := if Truthy(apiKey) then apiKey else GetEnv(env, "GEMINI_API_KEY");
    var project := GetEnv(env, "VERTEX_PROJECT");
    var location := GetEnv(env, "VERTEX_LOCATION");
    if !Truthy(key) && !(Truthy(project) && Truthy(location)) then Raised(MissingCredentials)
    else
      var client := if Truthy(key) then ApiKeyClient(key.value) else VertexClient(project.value, location.value);
      var name := if StartsWith(modelName, InternalPrefix) then modelName[7..] else modelName;
      Returned(Gemini(name, client))
  }

  // ---------------------------------------------------------------- request

  datatype Part =
    | TextPart(text: string)
    | FunctionCallPart(name: string, args: Json)
    | FunctionResponsePart(name: string, response: map<string, Json>)

  /** One entry of `contents`: a role (`user`, `model` or `function`) and its parts. */
  datatype Content = Content(role: string, parts: seq<Part>)

  /** `GenerateContentConfig`: the system instruction, and the function
      declarations with their calling mode. */
  datatype Config = Config(systemInstruction: Option<string>, declarations: Option<seq<GeminiDeclaration>>, mode: Option<string>)

  datatype Request = Request(model: string, contents: seq<Content>, config: Config)

  /** What the replay loop has built so far: the last system content, the
      contents, and the map from tool-call id to function name. */
  datatype ReplayState = ReplayState(system: Option<string>, contents: seq<Content>, ids: map<string, string>)

  /** The parsed arguments of a replayed tool call; `{}` when they do not parse. */
  function ArgsOf(arguments: string, codec: Codec): Json {
    match codec.loads(arguments)
    case Returned(v) => v
    case Raised(_) => Object(map[])
  }

  /** The function-call parts of an assistant turn, in order. */
  function CallParts(calls: seq<ToolCall>, codec: Codec): (r: seq<Part>)
    ensures |r| == |calls|
    ensures forall j | 0 <= j < |calls| :: r[j] == FunctionCallPart(calls[j].func.name, ArgsOf(calls[j].func.arguments, codec))
  {
    seq(|calls|, j requires 0 <= j < |calls| => FunctionCallPart(calls[j].func.name, ArgsOf(calls[j].func.arguments, codec)))
  }

  /** `tool_id_map[tc.id] = tc.function.name` for each call in turn. */
  function AddIds(ids: map<string, string>, calls: seq<ToolCall>): map<string, string> {
    if calls == [] then ids
    else AddIds(ids, calls[..|calls| - 1])[calls[|calls| - 1].id := calls[|calls| - 1].func.name]
  }

  /** The response a tool result is replayed with: its content parsed, wrapped as
      `{"result": ...}` unless it parsed to an object; the raw text when it does
      not parse; and `{"result": None}` when there is no content at all. */
  function ResultData(content: Option<string>, codec: Codec): map<string, Json> {
    if content.None? then map["result" := Null]
    else match codec.loads(content.value)
      case Returned(Object(fields)) => fields
      case Returned(v) => map["result" := v]
      case Raised(_) => map["result" := Str(content.value)]
  }

  /** The text `f"{content}"` gives for an optional string. */
  function Shown(content: Option<string>): string {
    match content
    case Some(s) => s
    case None => "None"
  }

  function AssistantParts(m: Message, codec: Codec): seq<Part> {
    (if Truthy(m.content) then [TextPart(m.content.value)] else [])
      + (if m.toolCalls.Some? && m.toolCalls.value != [] then CallParts(m.toolCalls.value, codec) else [])
  }

  /** The function name recorded for a tool result's id, if any. */
  function NameFor(ids: map<string, string>, toolCallId: Option<string>): Option<string> {
    if toolCallId.Some? && toolCallId.value in ids then Some(ids[toolCallId.value]) else None
  }

  function ToolContent(m: Message, ids: map<string, string>, codec: Codec): Content {
    var name := NameFor(ids, m.toolCallId);
    if Truthy(name) then Content("function", [FunctionResponsePart(name.value, ResultData(m.content, codec))])
    else Content("user", [TextPart("Tool result: " + Shown(m.content))])
  }

  /** One turn of the replay loop. */
  function ReplayStep(st: ReplayState, m: Message, codec: Codec): ReplayState {
    if m.role == "system" then st.(system := m.content)
    else if m.role == "user" then st.(contents := st.contents + [Content("user", [TextPart(m.content.GetOr(""))])])
    else if m.role == "assistant" then
      ReplayState(st.system, st.contents + [Content("model", AssistantParts(m, codec))],
        if m.toolCalls.Some? && m.toolCalls.value != [] then AddIds(st.ids, m.toolCalls.value) else st.ids)
    else if m.role == "tool" then st.(contents := st.contents + [ToolContent(m, st.ids, codec)])
    else st
  }

  /** The replay of a whole history. */
  function Replay(ms: seq<Message>, codec: Codec): ReplayState {
    if ms == [] then ReplayState(None, [], map[])
    else ReplayStep(Replay(ms[..|ms| - 1], codec), ms[|ms| - 1], codec)
  }

  function Declarations(tools: seq<ToolDef>): (r: seq<GeminiDeclaration>)
    ensures |r| == |tools|
    ensures forall j | 0 <= j < |tools| :: r[j] == ConvertToGeminiTool(tools[j])
  {
    seq(|tools|, j requires 0 <= j < |tools| => ConvertToGeminiTool(tools[j]))
  }

  function ConfigFor(system: Option<string>, tools: Option<seq<ToolDef>>): Config {
    var withTools := tools.Some? && tools.value != [];
    Config(if Truthy(system) then system else None,
           if withTools then Some(Declarations(tools.value)) else None,
           if withTools then Some("AUTO") else None)
  }

  /** The request `chat` sends. */
  function RequestFor(modelName: string, messages: seq<Message>, tools: Option<seq<ToolDef>>, codec: Codec): Request {
    var st := Replay(messages, codec);
    Request(modelName, st.contents, ConfigFor(st.system, tools))
  }

  // ------------------------------------------------------------------ reply

  /** `part.function_call`; `args` is `None` when it cannot be turned into a dict. */
  datatype FunctionCall = FunctionCall(name: string, args: Option<map<string, Json>>)

  datatype ReplyPart = ReplyPart(text: Option<string>, functionCall: Option<FunctionCall>)

  /** A candidate's `content`, whose `parts` may be missing. */
  datatype CandidateContent = CandidateContent(parts: Option<seq<ReplyPart>>)

  /** One candidate of the reply; a blocked or empty one has no content. */
  datatype Candidate = Candidate(content: Option<CandidateContent>)

  /** The remote endpoint: the reply's candidates, or what the call raised. */
  type Backend = Request -> Outcome<seq<Candidate>>

  /** The first eight characters of a `uuid4().hex`. */
  function Prefix8(s: string): (r: string)
    ensures |r| <= 8 && StartsWith(s, r)
    ensures |s| >= 8 ==> r == s[..8]
    ensures |s| < 8 ==> r == s
  {
    if |s| <= 8 then s else s[..8]
  }

  /** The texts of the parts with a non-empty text, in order. */
  function ReplyTexts(parts: seq<ReplyPart>): seq<string> {
    if parts == [] then []
    else
      var p := parts[|parts| - 1];
      ReplyTexts(parts[..|parts| - 1]) + (if Truthy(p.text) then [p.text.value] else [])
  }

  /** One tool call per function-call part; the k-th gets `call_` and the first
      eight characters of `hex(k)`, the k-th fresh `uuid4().hex`. */
  function ReplyCalls(parts: seq<ReplyPart>, hex: nat -> string, dumps: Json -> string): seq<ToolCall> {
    if parts == [] then []
    else
      var prev := ReplyCalls(parts[..|parts| - 1], hex, dumps);
      var fc := parts[|parts| - 1].functionCall;
      prev + (if fc.Some? then [NewToolCall("call_" + Prefix8(hex(|prev|)), fc.value.name, dumps(Object(fc.value.args.GetOr(map[]))))] else [])
  }

  function CountCalls(parts: seq<ReplyPart>): nat {
    if parts == [] then 0
    else CountCalls(parts[..|parts| - 1]) + (if parts[|parts| - 1].functionCall.Some? then 1 else 0)
  }

  /** The response made from the reply's candidates. */
  function ResponseOf(candidates: seq<Candidate>, hex: nat -> string, dumps: Json -> string): LlmResponse {
    if candidates == [] then TextResponse(Some(NoCandidates))
    else if candidates[0].content.None? then TextResponse(Some(ErrorPrefix + NoContentError))
    else if candidates[0].content.value.parts.None? then TextResponse(Some(ErrorPrefix + NoPartsError))
    else
      var parts := candidates[0].content.value.parts.value;
      var texts := ReplyTexts(parts);
      var calls := ReplyCalls(parts, hex, dumps);
      LlmResponse(if texts != [] then Some(Concat(texts)) else None, if calls != [] then Some(calls) else None)
  }

  /** The function-call parts of one assistant turn, recording each call's id. */
  method ReplayToolCalls(tcs: seq<ToolCall>, ids: map<string, string>, codec: Codec)
    returns (parts: seq<Part>, toolIdMap: map<string, string>)
    ensures parts == CallParts(tcs, codec)
    ensures toolIdMap == AddIds(ids, tcs)
  {
    parts := [];
    toolIdMap := ids;
    for j := 0 to |tcs|
      invariant toolIdMap == AddIds(ids, tcs[..j])
      invariant parts == CallParts(tcs[..j], codec)
    {
      assert tcs[..j + 1][..j] == tcs[..j];
      var tc := tcs[j];
      toolIdMap := toolIdMap[tc.id := tc.func.name];
      var args: Json;
      var parsed := codec.loads(tc.func.arguments);
      if parsed.Returned? {
        args := parsed.value;
      } else {
        args := Object(map[]);
      }
      parts := parts + [FunctionCallPart(tc.func.name, args)];
    }
    assert tcs[..|tcs|] == tcs;
  }

  /** The replay of one tool result. */
  method ReplayToolResult(msg: Message, toolIdMap: map<string, string>, codec: Codec) returns (c: Content)
    ensures c == ToolContent(msg, toolIdMap, codec)
  {
    var content := msg.content;
    var funcName := NameFor(toolIdMap, msg.toolCallId);
    if Truthy(funcName) {
      var resultData: map<string, Json>;
      if content.None? {
        resultData := map["result" := Null];
      } else {
        var parsed := codec.loads(content.value);
        if parsed.Raised? {
          resultData := map["result" := Str(content.value)];
        } else if parsed.value.Object? {
          resultData := parsed.value.fields;
        } else {
          resultData := map["result" := parsed.value];
        }
      }
      c := Content("function", [FunctionResponsePart(funcName.value, resultData)]);
    } else {
      c := Content("user", [TextPart("Tool result: " + Shown(content))]);
    }
  }

  /** The history loop of `chat`. */
  method ReplayHistory(messages: seq<Message>, codec: Codec) returns (st: ReplayState)
    ensures st == Replay(messages, codec)
  {
    var systemInstruction: Option<string> := None;
    var contents: seq<Content> := [];
    var toolIdMap: map<string, string> := map[];
    for i := 0 to |messages|
      invariant ReplayState(systemInstruction, contents, toolIdMap) == Replay(messages[..i], codec)
    {
      assert messages[..i + 1][..i] == messages[..i];
      var msg := messages[i];
      assert Replay(messages[..i + 1], codec) == ReplayStep(Replay(messages[..i], codec), msg, codec);
      var content := msg.content;
      if msg.role == "system" {
        systemInstruction := content;
      } else if msg.role == "user" {
        contents := contents + [Content("user", [TextPart(content.GetOr(""))])];
      } else if msg.role == "assistant" {
        var parts: seq<Part> := [];
        if Truthy(content) {
          parts := parts + [TextPart(content.value)];
        }
        if msg.toolCalls.Some? && msg.toolCalls.value != [] {
          var callParts;
          callParts, toolIdMap := ReplayToolCalls(msg.toolCalls.value, toolIdMap, codec);
          parts := parts + callParts;
        }
        assert parts == AssistantParts(msg, codec);
        contents := contents + [Content("model", parts)];
      } else if msg.role == "tool" {
        var c := ReplayToolResult(msg, toolIdMap, codec);
        contents := contents + [c];
      }
    }
    assert messages[..|messages|] == messages;
    st := ReplayState(systemInstruction, contents, toolIdMap);
  }

  /** The configuration `chat` builds. */
  method BuildConfig(systemInstruction: Option<string>, tools: Option<seq<ToolDef>>) returns (config: Config)
    ensures config == ConfigFor(systemInstruction, tools)
  {
    config := Config(None, None, None);
    if Truthy(systemInstruction) {
      config := config.(systemInstruction := systemInstruction);
    }
    if tools.Some? && tools.value != [] {
      var declarations: seq<GeminiDeclaration> := [];
      for k := 0 to |tools.value|
        invariant declarations == Declarations(tools.value[..k])
      {
        declarations := declarations + [ConvertToGeminiTool(tools.value[k])];
      }
      assert tools.value[..|tools.value|] == tools.value;
      config := config.(declarations := Some(declarations), mode := Some("AUTO"));
    }
  }

  /** The parsing of the first candidate's parts. */
  method ParseParts(replyParts: seq<ReplyPart>, hex: nat -> string, dumps: Json -> string)
    returns (contentParts: seq<string>, toolCallsList: seq<ToolCall>)
    ensures contentParts == ReplyTexts(replyParts)
    ensures toolCallsList == ReplyCalls(replyParts, hex, dumps)
  {
    contentParts := [];
    toolCallsList := [];
    for i := 0 to |replyParts|
      invariant contentParts == ReplyTexts(replyParts[..i])
      invariant toolCallsList == ReplyCalls(replyParts[..i], hex, dumps)
    {
      assert replyParts[..i + 1][..i] == replyParts[..i];
      var part := replyParts[i];
      if Truthy(part.text) {
        contentParts := contentParts + [part.text.value];
      }
      if part.functionCall.Some? {
        var fc := part.functionCall.value;
        var argsDict := fc.args.GetOr(map[]);
        var callId := "call_" + Prefix8(hex(|toolCallsList|));
        toolCallsList := toolCallsList + [NewToolCall(callId, fc.name, dumps(Object(argsDict)))];
      }
    }
    assert replyParts[..|replyParts|] == replyParts;
  }

  /** `GeminiProvider.chat`. */
  method Chat(modelName: string, messages: seq<Message>, tools: Option<seq<ToolDef>>,
              backend: Backend, codec: Codec, hex: nat -> string)
    returns (r: LlmResponse)
    ensures r == match backend(RequestFor(modelName, messages, tools, codec))
                 case Raised(e) => TextResponse(Some(ErrorPrefix + e))
                 case Returned(cs) => ResponseOf(cs, hex, codec.dumps)
  {
    var st := ReplayHistory(messages, codec);
    var config := BuildConfig(st.system, tools);
    var reply := backend(Request(modelName, st.contents, config));
    if reply.Raised? {
      return TextResponse(Some(ErrorPrefix + reply.error));
    }
    var candidates := reply.value;
    if candidates == [] {
      return TextResponse(Some(NoCandidates));
    }
    var content := candidates[0].content;
    if content.None? {
      return TextResponse(Some(ErrorPrefix + NoContentError));
    }
    if content.value.parts.None? {
      return TextResponse(Some(ErrorPrefix + NoPartsError));
    }
    var contentParts, toolCallsList := ParseParts(content.value.parts.value, hex, codec.dumps);
    r := LlmResponse(if contentParts != [] then Some(Concat(contentParts)) else None,
                     if toolCallsList != [] then Some(toolCallsList) else None);
  }

  // ----------------------------------------------------------------- lemmas

  /** A tool call of an assistant turn of `ms`, by message and position. */
  predicate IssuedAt(ms: seq<Message>, i: int, j: int) {
    0 <= i < |ms| && ms[i].role == "assistant" && ms[i].toolCalls.Some?
    && 0 <= j < |ms[i].toolCalls.value|
  }

  lemma {:induction false} AddIdsKeys(ids: map<string, string>, calls: seq<ToolCall>, id: string)
    ensures id in AddIds(ids, calls) <==> id in ids || exists j | 0 <= j < |calls| :: calls[j].id == id
    ensures id in AddIds(ids, calls) ==>
      (id in ids && AddIds(ids, calls)[id] == ids[id])
      || exists j | 0 <= j < |calls| :: calls[j].id == id && calls[j].func.name == AddIds(ids, calls)[id]
    decreases |calls|
  {
    if calls != [] {
      var p := calls[..|calls| - 1];
      AddIdsKeys(ids, p, id);
      if exists j | 0 <= j < |p| :: p[j].id == id {
        var j :| 0 <= j < |p| && p[j].id == id;
        assert calls[j] == p[j];
      }
      if id in AddIds(ids, p) && id != calls[|calls| - 1].id && !(id in ids && AddIds(ids, p)[id] == ids[id]) {
        var j :| 0 <= j < |p| && p[j].id == id && p[j].func.name == AddIds(ids, p)[id];
        assert calls[j] == p[j];
      }
    }
  }

  /** The replay knows a function name for exactly the ids of the tool calls
      issued by earlier assistant turns, and the name it knows is one those turns
      gave. */
  lemma {:induction false} ReplayIds(ms: seq<Message>, codec: Codec, id: string)
    ensures id in Replay(ms, codec).ids <==>
      exists i, j | IssuedAt(ms, i, j) :: ms[i].toolCalls.value[j].id == id
    ensures id in Replay(ms, codec).ids ==>
      exists i, j | IssuedAt(ms, i, j) ::
        ms[i].toolCalls.value[j].id == id && ms[i].toolCalls.value[j].func.name == Replay(ms, codec).ids[id]
    decreases |ms|
  {
    if ms != [] {
      var p := ms[..|ms| - 1];
      var m := ms[|ms| - 1];
      var last := |ms| - 1;
      ReplayIds(p, codec, id);
      var before := Replay(p, codec).ids;
      var after := Replay(ms, codec).ids;
      forall i, j | IssuedAt(p, i, j)
        ensures IssuedAt(ms, i, j) && ms[i] == p[i]
      {
      }
      if m.role == "assistant" && m.toolCalls.Some? && m.toolCalls.value != [] {
        var calls := m.toolCalls.value;
        assert after == AddIds(before, calls);
        AddIdsKeys(before, calls, id);
        if id in after && !(id in before && after[id] == before[id]) {
          var j :| 0 <= j < |calls| && calls[j].id == id && calls[j].func.name == after[id];
          assert IssuedAt(ms, last, j);
        }
        if id !in before && id in after {
          var j :| 0 <= j < |calls| && calls[j].id == id;
          assert IssuedAt(ms, last, j);
        }
        if exists i, j | IssuedAt(ms, i, j) :: ms[i].toolCalls.value[j].id == id {
          var i, j :| IssuedAt(ms, i, j) && ms[i].toolCalls.value[j].id == id;
          if i < last {
            assert IssuedAt(p, i, j);
          }
        }
      } else {
        assert after == before;
        if exists i, j | IssuedAt(ms, i, j) :: ms[i].toolCalls.value[j].id == id {
          var i, j :| IssuedAt(ms, i, j) && ms[i].toolCalls.value[j].id == id;
          assert i < last;
          assert IssuedAt(p, i, j);
        }
      }
    }
  }

  /** Every non-system turn with a known role gives exactly one content, and the
      contents carry only the roles `user`, `model` and `function`. */
  lemma {:induction false} ReplayContents(ms: seq<Message>, codec: Codec)
    ensures |Replay(ms, codec).contents| == CountReplayed(ms)
    ensures forall c | c in Replay(ms, codec).contents :: c.role == "user" || c.role == "model" || c.role == "function"
    decreases |ms|
  {
    if ms != [] {
      ReplayContents(ms[..|ms| - 1], codec);
    }
  }

  /** The replay of a `tool` message at position `i`: one content is added. It
      is a function response named after the call the id was issued with, when
      an earlier assistant turn issued that id under a non-empty name; its
      response is the content parsed as an object, or wrapped as
      `{"result": ...}`. Otherwise it is a `Tool result:` user turn. */
  lemma ReplayToolMessage(ms: seq<Message>, i: nat, codec: Codec)
    requires i < |ms| && ms[i].role == "tool"
    ensures var before := Replay(ms[..i], codec);
      var id := ms[i].toolCallId;
      var issued := id.Some? && exists k, j | IssuedAt(ms[..i], k, j) :: ms[k].toolCalls.value[j].id == id.value;
      && (issued <==> id.Some? && id.value in before.ids)
      && (issued ==> exists k, j | IssuedAt(ms[..i], k, j) ::
            ms[k].toolCalls.value[j].id == id.value && ms[k].toolCalls.value[j].func.name == before.ids[id.value])
      && Replay(ms[..i + 1], codec).contents == before.contents + [
           if issued && before.ids[id.value] != "" then
             Content("function", [FunctionResponsePart(before.ids[id.value], ResultData(ms[i].content, codec))])
           else Content("user", [TextPart("Tool result: " + Shown(ms[i].content))])]
  {
    var p := ms[..i];
    assert ms[..i + 1][..i] == p;
    forall k, j | IssuedAt(p, k, j)
      ensures ms[k] == p[k]
    {
    }
    if ms[i].toolCallId.Some? {
      ReplayIds(p, codec, ms[i].toolCallId.value);
    }
  }

  function CountReplayed(ms: seq<Message>): nat {
    if ms == [] then 0
    else
      var role := ms[|ms| - 1].role;
      CountReplayed(ms[..|ms| - 1]) + (if role == "user" || role == "assistant" || role == "tool" then 1 else 0)
  }

  /** Lower-case hexadecimal digits. */
  predicate LowerHex(s: string) {
    forall i | 0 <= i < |s| :: '0' <= s[i] <= '9' || 'a' <= s[i] <= 'f'
  }

  /** What `uuid4().hex` gives: 32 lower-case hexadecimal digits. */
  predicate UuidHex(s: string) {
    |s| == 32 && LowerHex(s)
  }

  /** Every function-call part gives one tool call, whose id is `call_` followed
      by eight lower-case hexadecimal digits: the part that follows `k`
      function-call parts gives the `k`-th call, which keeps the function's
      name and carries its arguments serialised by `dumps` (`{}` when they are
      not a dict), and whose id comes from the `k`-th uuid. */
  lemma {:induction false} ReplyCallsShape(parts: seq<ReplyPart>, hex: nat -> string, dumps: Json -> string)
    requires forall k :: UuidHex(hex(k))
    ensures |ReplyCalls(parts, hex, dumps)| == CountCalls(parts)
    ensures forall i | 0 <= i < |parts| && parts[i].functionCall.Some? ::
      var k := CountCalls(parts[..i]);
      var fc := parts[i].functionCall.value;
      && k < |ReplyCalls(parts, hex, dumps)|
      && ReplyCalls(parts, hex, dumps)[k] == NewToolCall("call_" + Prefix8(hex(k)), fc.name, dumps(Object(fc.args.GetOr(map[]))))
    ensures forall t | t in ReplyCalls(parts, hex, dumps) ::
      StartsWith(t.id, "call_") && |t.id| == 13 && LowerHex(t.id[5..]) && t.kind == DefaultToolCallType
    decreases |parts|
  {
    if parts != [] {
      var p := parts[..|parts| - 1];
      ReplyCallsShape(p, hex, dumps);
      forall i | 0 <= i < |parts| && parts[i].functionCall.Some?
        ensures var k := CountCalls(parts[..i]);
                var fc := parts[i].functionCall.value;
                && k < |ReplyCalls(parts, hex, dumps)|
                && ReplyCalls(parts, hex, dumps)[k] == NewToolCall("call_" + Prefix8(hex(k)), fc.name, dumps(Object(fc.args.GetOr(map[]))))
      {
        if i < |p| {
          assert parts[..i] == p[..i] && parts[i] == p[i];
        } else {
          assert parts[..i] == p;
        }
      }
    }
  }
}
