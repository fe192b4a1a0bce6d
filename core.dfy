/** The agent conversation engine and the swarm that hosts the agents.

    An agent owns a message history whose first entry is its system message, a
    map from tool name to callable, and the list of tool definitions it
    advertises. `Think` asks the model for a reply; tool calls in the reply are
    executed, their results appended to the history, and the model asked again
    with one turn less. The swarm installs three tools of its own on every agent
    (create, delegate, list), so that thinking on one agent can create agents
    and hold a nested conversation with another agent, or with itself.

    Delegation nests conversations without any bound of its own; Python stops a
    cycle only through its recursion limit. Here every method on the
    delegation cycle carries a `fuel` argument, a modelling device standing for
    that limit: one unit is spent per nested delegation, and a delegation that
    finds none left fails as the interpreter's `RecursionError` would, with the
    tool's usual error text. */
module Core {
  import opened Wrappers
  import opened Environ
  import opened Json
  import opened Text
  import opened LlmBase
  import opened BaseTools

  // ------------------------------------------------------------------ texts

  const MaxTurnsReached: string := "Error: Max turns reached."
  const EmptyResponse: string := "Error: Empty response from model."
  const RecursionLimit: string := "maximum recursion depth exceeded"
  const DefaultMaxTurns: int := 5
  const DefaultAgentModel: string := "gpt-4o"

  function SystemText(name: string, role: string, systemPrompt: string): string {
    "You are " + name + ", a " + role + ". " + systemPrompt
  }

  function ThoughtError(e: string): string {
    "Error during thought process: " + e
  }

  function NotFound(name: string): string {
    "Error: Tool " + name + " not found."
  }

  function ExecError(name: string, e: string): string {
    "Error executing " + name + ": " + e
  }

  function ToolMessage(id: string, content: string): Message {
    Message("tool", Some(content), None, Some(id))
  }

  /** The assistant turn appended before a reply's tool calls run. */
  function ToolTurn(m: LlmResponse): Message {
    Message("assistant", m.content, m.toolCalls, None)
  }

  predicate HasToolCalls(m: LlmResponse) {
    m.toolCalls.Some? && m.toolCalls.value != []
  }

  /** `tools=self.tool_definitions if self.tool_definitions else None` */
  function ToolsArg(defs: seq<ToolDef>): Option<seq<ToolDef>> {
    if defs != [] then Some(defs) else None
  }

  // ---------------------------------------------------------- the callables

  /** What a tool name can be bound to: the swarm's three closures, the four
      built-in tools, or a callable the model knows only by a handle. The swarm
      closures act on the swarm the agent belongs to. */
  datatype Callable =
    | CreateAgentTool
    | DelegateTaskTool
    | ListAgentsTool
    | ExecuteCommandTool
    | ReadFileTool
    | WriteFileTool
    | ListFilesTool
    | External(handle: nat)
  {
    predicate IsSwarmTool() {
      this == CreateAgentTool || this == DelegateTaskTool || this == ListAgentsTool
    }
  }

  /** What the engine reaches outside the model: the completion service, the
      JSON codec, the machine the built-in tools act on, and the callables known
      only by handle. */
  datatype World = World(
    completion: (string, seq<Message>, Option<seq<ToolDef>>) -> Outcome<LlmResponse>,
    codec: Codec,
    machine: Host,
    external: (nat, map<string, Json>) -> Outcome<string>)

  // ------------------------------------------------------- argument binding

  const NotMapping: string := "argument after ** must be a mapping"
  const UnexpectedKeyword: string := "got an unexpected keyword argument"
  const MissingArgument: string := "missing a required argument"
  const NotAString: string := "argument is not a string"

  /** Binding keyword arguments to a tool's parameters: no unknown key, every
      required key present, and string values (JSON `null` only where the
      parameter defaults to `None`). */
  function Bind(kw: map<string, Json>, required: set<string>, optional: set<string>, nullable: set<string>)
    : (r: Outcome<map<string, string>>)
    ensures r.Returned? ==>
      && (forall k | k in kw :: k in required || k in optional)
      && (forall k | k in required && k !in nullable :: k in r.value)
      && (forall k | k in r.value :: k in kw && kw[k] == Str(r.value[k]))
  {
    if exists k | k in kw :: k !in required && k !in optional then Raised(UnexpectedKeyword)
    else if exists k | k in required :: k !in kw then Raised(MissingArgument)
    else if exists k | k in kw :: !(kw[k].Str? || (k in nullable && kw[k].Null?)) then Raised(NotAString)
    else Returned(map k | k in kw && kw[k].Str? :: kw[k].s)
  }

  /** What a built-in tool answers for bound arguments. */
  function BaseToolAnswer(func: Callable, kw: map<string, Json>, h: Host): Outcome<string>
    requires func.ExecuteCommandTool? || func.ReadFileTool? || func.WriteFileTool? || func.ListFilesTool?
  {
    match func
    case ExecuteCommandTool =>
      var b := Bind(kw, {"command"}, {}, {});
      if b.Raised? then Raised(b.error) else Returned(Render(Decide(b.value["command"], h)))
    case ReadFileTool =>
      var b := Bind(kw, {"filepath"}, {}, {});
      if b.Raised? then Raised(b.error) else Returned(ReadFile(h, b.value["filepath"]))
    case WriteFileTool =>
      var b := Bind(kw, {"filepath", "content"}, {}, {});
      if b.Raised? then Raised(b.error) else Returned(WriteFile(h, b.value["filepath"], b.value["content"]))
    case ListFilesTool =>
      var b := Bind(kw, {}, {"directory"}, {});
      if b.Raised? then Raised(b.error)
      else Returned(ListFiles(h, if "directory" in b.value then b.value["directory"] else DefaultDirectory))
  }

  /** The text a tool call leaves in the history: the answer, or the error
      text of what the call raised. */
  function Answered(name: string, answer: Outcome<string>): string {
    match answer
    case Returned(s) => s
    case Raised(e) => ExecError(name, e)
  }

  // ------------------------------------------------- results of a tool batch

  /** What one call of a batch left in the history: whatever running the tool
      appended by itself (only a delegation that reaches back to this agent
      appends anything), then the tool message answering the call. */
  datatype Step = Step(call: ToolCall, nested: seq<Message>, result: string)

  /** What one step left in the history. */
  function Left(step: Step): seq<Message> {
    step.nested + [ToolMessage(step.call.id, step.result)]
  }

  /** The history a batch appends, step by step. */
  function Woven(steps: seq<Step>): seq<Message> {
    if steps == [] then [] else Woven(steps[..|steps| - 1]) + Left(steps[|steps| - 1])
  }

  /** One tool message per step, in order. */
  function ToolMessages(steps: seq<Step>): (r: seq<Message>)
    ensures |r| == |steps|
    ensures forall j | 0 <= j < |steps| :: r[j] == ToolMessage(steps[j].call.id, steps[j].result)
  {
    seq(|steps|, j requires 0 <= j < |steps| => ToolMessage(steps[j].call.id, steps[j].result))
  }

  /** When no call of the batch appended anything of its own, the batch
      appends exactly one tool message per call, in call order, each answering
      its call's id. */
  lemma {:induction false} WovenWithoutNesting(steps: seq<Step>)
    requires forall j | 0 <= j < |steps| :: steps[j].nested == []
    ensures Woven(steps) == ToolMessages(steps)
    decreases |steps|
  {
    if steps != [] {
      var n := |steps| - 1;
      WovenWithoutNesting(steps[..n]);
      assert ToolMessages(steps) == ToolMessages(steps[..n]) + [ToolMessage(steps[n].call.id, steps[n].result)];
    }
  }

  lemma PrefixTransitive(a: seq<Message>, b: seq<Message>, c: seq<Message>)
    requires a <= b && b <= c
    ensures a <= c
  {
  }

  /** Names keep their agents from `a` to `b`. */
  ghost predicate Kept(a: map<string, Agent>, b: map<string, Agent>) {
    forall n | n in a :: n in b && b[n] == a[n]
  }

  lemma KeptTransitive(a: map<string, Agent>, b: map<string, Agent>, c: map<string, Agent>, r: set<Agent>, s: set<Agent>, t: set<Agent>)
    requires Kept(a, b) && Kept(b, c) && r <= s <= t
    ensures Kept(a, c) && r <= t
  {
  }

  /** One more step extends the woven history by what it left. */
  lemma WovenStep(start: seq<Message>, steps: seq<Step>, last: Step, before: seq<Message>, after: seq<Message>)
    requires before == start + Woven(steps) && after == before + Left(last)
    ensures after == start + Woven(steps + [last])
  {
    assert (steps + [last])[..|steps|] == steps;
  }

  // ------------------------------------------------------------- the agent

  /** The thing `think` leaves behind for one reply of the model, given the
      history before the call: an error leaves the history alone; tool calls add
      the assistant turn (and more after it); text is appended and returned;
      an empty reply appends nothing. */
  ghost predicate ThinkOutcome(before: seq<Message>, after: seq<Message>, reply: Outcome<LlmResponse>, r: string) {
    match reply
    case Raised(e) => r == ThoughtError(e) && after == before
    case Returned(m) =>
      if HasToolCalls(m) then before + [ToolTurn(m)] <= after
      else if Truthy(m.content) then after == before + [PlainMessage("assistant", m.content.value)] && r == m.content.value
      else after == before && r == EmptyResponse
  }

  class Agent {
    const name: string
    const role: string
    const systemPrompt: string
    const model: string
    /** The system message the history starts with. */
    const systemMessage: Message
    var messages: seq<Message>
    var tools: map<string, Callable>
    var toolDefinitions: seq<ToolDef>

    /** The history starts with the agent's system message, for good. */
    ghost predicate Valid()
      reads this`messages
    {
      |messages| > 0 && messages[0] == systemMessage
    }

    /** The agent holds none of the swarm's closures. */
    ghost predicate Standalone()
      reads this`tools
    {
      forall n | n in tools :: !tools[n].IsSwarmTool()
    }

    constructor(name: string, role: string, systemPrompt: string, model: string := DefaultAgentModel)
      ensures this.name == name && this.role == role && this.systemPrompt == systemPrompt && this.model == model
      ensures systemMessage == PlainMessage("system", SystemText(name, role, systemPrompt))
      ensures messages == [systemMessage]
      ensures tools == map[] && toolDefinitions == []
      ensures Valid() && Standalone()
    {
      this.name := name;
      this.role := role;
      this.systemPrompt := systemPrompt;
      this.model := model;
      systemMessage := PlainMessage("system", SystemText(name, role, systemPrompt));
      messages := [systemMessage];
      tools := map[];
      toolDefinitions := [];
    }

    /** `register_tool`: the name now denotes `func`; the definition is appended
        even when the name was registered before. */
    method RegisterTool(func: Callable, schema: ToolDef)
      requires schema.func.Some? && schema.func.value.name.Some?
      modifies this`tools, this`toolDefinitions
      ensures tools == old(tools)[schema.func.value.name.value := func]
      ensures toolDefinitions == old(toolDefinitions) + [schema]
    {
      tools := tools[schema.func.value.name.value := func];
      toolDefinitions := toolDefinitions + [schema];
    }

    /** `self.messages.append(m)` */
    method Append(m: Message)
      modifies this`messages
      ensures messages == old(messages) + [m]
    {
      messages := messages + [m];
    }

    /** `add_message` */
    method AddMessage(role: string, content: string)
      modifies this`messages
      ensures messages == old(messages) + [PlainMessage(role, content)]
    {
      messages := messages + [PlainMessage(role, content)];
    }

    /** `chat`: the user's message, then `think` with the default budget. */
    method Chat(message: string, host: Swarm?, world: World, fuel: nat) returns (r: string, ghost calls: nat)
      requires Valid()
      requires host != null ==> host.Valid()
      requires host == null ==> Standalone()
      modifies this`messages, host, Members(host)`messages
      ensures Valid() && (host != null ==> host.Valid())
      ensures Grown(this, host)
      ensures ThinkOutcome(old(messages) + [PlainMessage("user", message)], messages,
                           world.completion(model, old(messages) + [PlainMessage("user", message)], ToolsArg(toolDefinitions)), r)
      ensures calls <= DefaultMaxTurns
      decreases fuel, 6, 0
    {
      AddMessage("user", message);
      r, calls := Think(DefaultMaxTurns, host, world, fuel);
    }

    /** `think`: at most `maxTurns` replies of the model are asked for, one per
        round of tool calls plus the final one. */
    method Think(maxTurns: int, host: Swarm?, world: World, fuel: nat) returns (r: string, ghost calls: nat)
      requires Valid()
      requires host != null ==> host.Valid()
      requires host == null ==> Standalone()
      modifies this`messages, host, Members(host)`messages
      ensures Valid() && (host != null ==> host.Valid())
      ensures Grown(this, host)
      ensures maxTurns <= 0 ==> r == MaxTurnsReached && messages == old(messages) && calls == 0
      ensures maxTurns > 0 ==>
        ThinkOutcome(old(messages), messages, world.completion(model, old(messages), ToolsArg(toolDefinitions)), r)
      ensures calls <= if maxTurns < 0 then 0 else maxTurns
      decreases fuel, if maxTurns < 0 then 0 else maxTurns, 7
    {
      if maxTurns <= 0 {
        return MaxTurnsReached, 0;
      }
      calls := 1;
      var reply := world.completion(model, messages, ToolsArg(toolDefinitions));
      if reply.Raised? {
        return ThoughtError(reply.error), calls;
      }
      var message := reply.value;
      if HasToolCalls(message) {
        ghost var more, steps;
        var raised;
        r, more, raised, steps := Act(message, maxTurns, host, world, fuel);
        calls := calls + more;
      } else if Truthy(message.content) {
        messages := messages + [PlainMessage("assistant", message.content.value)];
        r := message.content.value;
      } else {
        r := EmptyResponse;
      }
    }

    /** The tool-call branch of `think`: the reply's turn and its calls join
        the history, and the model is asked again with one turn less; a batch
        that raised ends the thought with the error text. `steps` are the calls
        of the batch that ran, and `raised` what ended it early. */
    method Act(message: LlmResponse, maxTurns: int, host: Swarm?, world: World, fuel: nat)
      returns (r: string, ghost calls: nat, raised: Option<string>, ghost steps: seq<Step>)
      requires HasToolCalls(message) && maxTurns > 0
      requires Valid()
      requires host != null ==> host.Valid()
      requires host == null ==> Standalone()
      modifies this`messages, host, Members(host)`messages
      ensures Valid() && (host != null ==> host.Valid())
      ensures Grown(this, host)
      ensures Answering(steps, message.toolCalls.value, tools, world)
      ensures raised.None? <==> |steps| == |message.toolCalls.value|
      ensures raised.Some? ==>
        && world.codec.loads(message.toolCalls.value[|steps|].func.arguments) == Raised(raised.value)
        && r == ThoughtError(raised.value)
        && messages == old(messages) + [ToolTurn(message)] + Woven(steps)
      ensures raised.None? && maxTurns == 1 ==>
        r == MaxTurnsReached && messages == old(messages) + [ToolTurn(message)] + Woven(steps)
      ensures raised.None? && maxTurns > 1 ==>
        var ran := old(messages) + [ToolTurn(message)] + Woven(steps);
        ThinkOutcome(ran, messages, world.completion(model, ran, ToolsArg(toolDefinitions)), r)
      ensures old(messages) + [ToolTurn(message)] <= messages
      ensures calls < maxTurns
      decreases fuel, maxTurns, 6
    {
      raised, steps := ToolTurnRuns(message, host, world, fuel);
      if raised.Some? {
        return ThoughtError(raised.value), 0, raised, steps;
      }
      ghost var m := messages;
      r, calls := Think(maxTurns - 1, host, world, fuel);
      PrefixTransitive(old(messages) + [ToolTurn(message)], m, messages);
    }

    /** The reply joins the history as the assistant's turn, then its calls
        run as a batch. */
    method ToolTurnRuns(message: LlmResponse, host: Swarm?, world: World, fuel: nat)
      returns (raised: Option<string>, ghost steps: seq<Step>)
      requires HasToolCalls(message)
      requires Valid()
      requires host != null ==> host.Valid()
      requires host == null ==> Standalone()
      modifies this`messages, host, Members(host)`messages
      ensures Valid() && (host != null ==> host.Valid())
      ensures Grown(this, host)
      ensures messages == old(messages) + [ToolTurn(message)] + Woven(steps)
      ensures Answering(steps, message.toolCalls.value, tools, world)
      ensures raised.None? <==> |steps| == |message.toolCalls.value|
      ensures raised.Some? ==> world.codec.loads(message.toolCalls.value[|steps|].func.arguments) == Raised(raised.value)
      ensures old(messages) + [ToolTurn(message)] <= messages
      decreases fuel, 0, 5
    {
      Append(ToolTurn(message));
      raised, steps := ExecuteToolCalls(message.toolCalls.value, host, world, fuel);
    }

    /** `_execute_tool_calls`: one step per call, in order, unless the
        arguments of a call are not JSON, which ends the batch by raising. */
    method ExecuteToolCalls(calls: seq<ToolCall>, host: Swarm?, world: World, fuel: nat)
      returns (raised: Option<string>, ghost steps: seq<Step>)
      requires Valid()
      requires host != null ==> host.Valid()
      requires host == null ==> Standalone()
      modifies this`messages, host, Members(host)`messages
      ensures Valid() && (host != null ==> host.Valid())
      ensures Grown(this, host)
      ensures messages == old(messages) + Woven(steps)
      ensures Answering(steps, calls, tools, world)
      ensures raised.None? <==> |steps| == |calls|
      ensures raised.Some? ==> world.codec.loads(calls[|steps|].func.arguments) == Raised(raised.value)
      decreases fuel, 0, 4
    {
      steps := [];
      var i := 0;
      while i < |calls|
        invariant i <= |calls|
        invariant Valid() && (host != null ==> host.Valid())
        invariant Grown(this, host)
        invariant messages == old(messages) + Woven(steps)
        invariant |steps| == i && Answering(steps, calls, tools, world)
      {
        ghost var before := messages;
        ghost var agentsBefore, reprBefore := AgentsOf(host), Members(host);
        var arguments := world.codec.loads(calls[i].func.arguments);
        if arguments.Raised? {
          return Some(arguments.error), steps;
        }
        ghost var step := ExecuteOne(calls[i], arguments.value, host, world, fuel);
        PrefixTransitive(old(messages), before, messages);
        KeptTransitive(old(AgentsOf(host)), agentsBefore, AgentsOf(host), old(Members(host)), reprBefore, Members(host));
        WovenStep(old(messages), steps, step, before, messages);
        AnsweringStep(steps, calls, step, tools, world);
        steps := steps + [step];
        i := i + 1;
      }
      raised := None;
    }

    /** One iteration of `_execute_tool_calls` once the arguments parsed: run
        the tool if the name is registered, and append the tool message. The
        step records what running the tool appended to this agent's history by
        itself. */
    method ExecuteOne(call: ToolCall, arguments: Json, host: Swarm?, world: World, fuel: nat) returns (ghost step: Step)
      requires world.codec.loads(call.func.arguments) == Returned(arguments)
      requires Valid()
      requires host != null ==> host.Valid()
      requires host == null ==> Standalone()
      modifies this`messages, host, Members(host)`messages
      ensures Valid() && (host != null ==> host.Valid())
      ensures Grown(this, host)
      ensures messages == old(messages) + Left(step) && step.call == call && Handled(step, tools, world)
      decreases fuel, 0, 3
    {
      var funcName := call.func.name;
      ghost var before := messages;
      var result;
      if funcName in tools {
        result := RunTool(tools[funcName], funcName, arguments, host, world, fuel);
      } else {
        result := NotFound(funcName);
      }
      ghost var nested := messages[|before|..];
      assert messages == before + nested;
      Append(ToolMessage(call.id, result));
      step := Step(call, nested, result);
    }

    /** Calling the callable bound to `name` with the parsed arguments; what it
        raises comes back as `Error executing {name}: ...`. */
    method RunTool(func: Callable, name: string, args: Json, host: Swarm?, world: World, fuel: nat) returns (result: string)
      requires Valid()
      requires host != null ==> host.Valid()
      requires host == null ==> !func.IsSwarmTool() && Standalone()
      modifies this`messages, host, Members(host)`messages
      ensures Valid() && (host != null ==> host.Valid())
      ensures Grown(this, host)
      ensures func != DelegateTaskTool ==> messages == old(messages)
      ensures !func.IsSwarmTool() ==> result == RunOrdinary(func, name, args, world)
      ensures func.IsSwarmTool() && !args.Object? ==> result == ExecError(name, NotMapping)
      ensures func == ListAgentsTool && args.Object? && host != null ==>
        result == if args.fields == map[] then ListText(host.order) else ExecError(name, UnexpectedKeyword)
      decreases fuel, 0, 2
    {
      if !func.IsSwarmTool() {
        result := RunOrdinary(func, name, args, world);
      } else if !args.Object? {
        result := ExecError(name, NotMapping);
      } else if host == null {
        assert false;
      } else if func == CreateAgentTool {
        result := RunCreateAgent(name, args.fields, host);
      } else if func == DelegateTaskTool {
        ghost var reply;
        result, reply := RunDelegate(name, args.fields, host, world, fuel);
      } else {
        result := RunListAgents(name, args.fields, host);
      }
    }

    /** The `create_agent` closure, called with keyword arguments. */
    method RunCreateAgent(name: string, kw: map<string, Json>, host: Swarm) returns (result: string)
      requires host.ValidRegistry()
      modifies host`agents, host`order, host`Repr, host`position
      ensures host.ValidRegistry() && GrownSwarm(host)
      ensures match CreateArguments(kw)
        case Raised(e) => result == ExecError(name, e) && host.agents == old(host.agents) && host.order == old(host.order)
        case Returned(b) =>
          var n := b["name"];
          var model := if "model" in b then Some(b["model"]) else None;
          && n in host.agents && host.agents[n].name == n
          && (n in old(host.agents) ==>
                result == "Error: Agent '" + n + "' already exists." && host.agents == old(host.agents) && host.order == old(host.order))
          && (n !in old(host.agents) ==>
                && result == "Agent '" + n + "' created successfully using model '" + host.ChosenModel(model) + "'."
                && host.agents[n].role == b["role"] && host.agents[n].systemPrompt == b["instructions"]
                && host.agents[n].model == host.ChosenModel(model)
                && host.order == old(host.order) + [n])
    {
      var b := CreateArguments(kw);
      if b.Raised? {
        result := ExecError(name, b.error);
      } else {
        var model := if "model" in b.value then Some(b.value["model"]) else None;
        result := host.CreateAgent(b.value["name"], b.value["role"], b.value["instructions"], model);
      }
    }

    /** The `delegate_task` closure, called with keyword arguments on behalf
        of this agent. */
    method RunDelegate(name: string, kw: map<string, Json>, host: Swarm, world: World, fuel: nat)
      returns (result: string, ghost reply: string)
      requires Valid() && host.Valid()
      modifies host, host.Repr`messages
      ensures Valid() && host.Valid()
      ensures Grown(this, host)
      ensures match DelegateArguments(kw)
        case Raised(e) => result == ExecError(name, e)
        case Returned(b) =>
          var to := b["to_agent"];
          && (to !in old(host.agents) ==>
                result == "Error: Agent '" + to + "' not found. Available agents: " + ListRepr(old(host.order)))
          && (to in old(host.agents) && fuel == 0 ==> result == ExecError(name, RecursionLimit))
          && (to in old(host.agents) && fuel > 0 ==>
                && result == "Response from " + to + ": " + reply
                && var target := old(host.agents[to]);
                   var request := old(target.messages) + [PlainMessage("user", "Request from " + this.name + ": " + b["task"])];
                   ThinkOutcome(request, target.messages, world.completion(target.model, request, ToolsArg(target.toolDefinitions)), reply))
      decreases fuel, 0, 1
    {
      var b := DelegateArguments(kw);
      if b.Raised? {
        result, reply := ExecError(name, b.error), "";
      } else {
        var answer;
        answer, reply := host.Delegate(this.name, b.value["to_agent"], b.value["task"], world, fuel);
        result := Answered(name, answer);
      }
    }

    /** The `list_agents` closure: it takes no keyword argument. */
    method RunListAgents(name: string, kw: map<string, Json>, host: Swarm) returns (result: string)
      ensures result == if kw == map[] then ListText(host.order) else ExecError(name, UnexpectedKeyword)
    {
      var b := Bind(kw, {}, {}, {});
      if b.Raised? {
        result := ExecError(name, b.error);
      } else {
        assert kw == map[];
        result := host.ListAgents();
      }
    }
  }

  /** What is known of one call of a batch that ran: its arguments parsed; an
      unknown name is reported; a tool other than `delegate_task` appended
      nothing itself; a tool other than the swarm's closures answered as
      `RunOrdinary` says, and a closure given arguments that are not an object
      answered with the binding error. */
  ghost predicate Handled(step: Step, tools: map<string, Callable>, world: World) {
    var name := step.call.func.name;
    var args := world.codec.loads(step.call.func.arguments);
    && args.Returned?
    && (name !in tools ==> step.result == NotFound(name) && step.nested == [])
    && (name in tools && tools[name] != DelegateTaskTool ==> step.nested == [])
    && (name in tools && !tools[name].IsSwarmTool() ==> step.result == RunOrdinary(tools[name], name, args.value, world))
    && (name in tools && tools[name].IsSwarmTool() && !args.value.Object? ==> step.result == ExecError(name, NotMapping))
  }

  /** The steps answer the first calls of the batch, in order. */
  ghost predicate Answering(steps: seq<Step>, calls: seq<ToolCall>, tools: map<string, Callable>, world: World) {
    && |steps| <= |calls|
    && forall j | 0 <= j < |steps| :: steps[j].call == calls[j] && Handled(steps[j], tools, world)
  }

  lemma AnsweringStep(steps: seq<Step>, calls: seq<ToolCall>, step: Step, tools: map<string, Callable>, world: World)
    requires Answering(steps, calls, tools, world) && |steps| < |calls|
    requires step.call == calls[|steps|] && Handled(step, tools, world)
    ensures Answering(steps + [step], calls, tools, world)
  {
  }

  /** The keyword arguments of `create_agent`: `model` is optional and may be
      `None`. */
  function CreateArguments(kw: map<string, Json>): (r: Outcome<map<string, string>>)
    ensures r.Returned? ==> "name" in r.value && "role" in r.value && "instructions" in r.value
  {
    Bind(kw, {"name", "role", "instructions"}, {"model"}, {"model"})
  }

  /** The keyword arguments of `delegate_task`. */
  function DelegateArguments(kw: map<string, Json>): (r: Outcome<map<string, string>>)
    ensures r.Returned? ==> "to_agent" in r.value && "task" in r.value
  {
    Bind(kw, {"to_agent", "task"}, {}, {})
  }

  /** A callable other than the swarm's closures: a built-in tool or one known
      by handle. Neither touches any history. */
  function RunOrdinary(func: Callable, name: string, args: Json, world: World): string
    requires !func.IsSwarmTool()
  {
    if !args.Object? then ExecError(name, NotMapping)
    else if func.External? then Answered(name, world.external(func.handle, args.fields))
    else Answered(name, BaseToolAnswer(func, args.fields, world.machine))
  }

  /** The agents of the swarm, or none. */
  ghost function Members(host: Swarm?): set<Agent>
    reads host
  {
    if host == null then {} else host.Repr
  }

  /** The registry of the swarm, or none. */
  ghost function AgentsOf(host: Swarm?): map<string, Agent>
    reads host
  {
    if host == null then map[] else host.agents
  }

  /** Between two states: the agent's history only grew, and so did the
      swarm's registry and every history in it. */
  twostate predicate Grown(me: Agent, host: Swarm?)
    reads me`messages, host, Members(host)`messages
  {
    && old(me.messages) <= me.messages
    && (host != null ==> GrownSwarm(host))
  }

  /** `f"Available agents: {list(self.agents.keys())}"` */
  function ListText(order: seq<string>): string {
    "Available agents: " + ListRepr(order)
  }

  // ------------------------------------------------------------- the swarm

  const ManagerRole: string := "Manager"
  const DefaultMainAgentName: string := "Manager"

  const OverseerPrompt: string :=
    "You are the **CORE OVERSEER** of the OpenCore system. "
    + "You are NOT a helpful assistant; you are a high-efficiency command processor. "
    + "Your output must be crisp, technical, and authoritative. "
    + "AVOID pleasantries. USE terms like: 'ACKNOWLEDGED', 'EXECUTING', 'DEPLOYING NODE', 'TASK COMPLETE'. "
    + "When delegating, specify the target agent clearly. "
    + "MAINTAIN the illusion of a terminal interface."

  function StrProp(description: string): Json {
    Object(map["type" := Str("string"), "description" := Str(description)])
  }

  function ObjectSchema(properties: map<string, Json>, required: seq<string>): Json {
    Object(map[
      "type" := Str("object"),
      "properties" := Object(properties),
      "required" := Array(seq(|required|, k requires 0 <= k < |required| => Str(required[k])))])
  }

  function FunctionTool(name: string, description: string, parameters: Json): ToolDef {
    ToolDef(Some("function"), Some(FunctionSpec(Some(name), Some(description), Some(parameters))))
  }

  const CreateAgentSchema: ToolDef := FunctionTool(
    "create_agent",
    "Creates a new agent with a specific role and instructions.",
    ObjectSchema(map[
      "name" := StrProp("The name of the new agent."),
      "role" := StrProp("The role of the new agent (e.g., 'Coder', 'Researcher')."),
      "instructions" := StrProp("Specific system instructions for the agent."),
      "model" := StrProp("Optional model to use (e.g., 'gpt-4o', 'vertex_ai/gemini-pro', 'ollama/llama3'). Defaults to system default.")],
      ["name", "role", "instructions"]))

  const DelegateTaskSchema: ToolDef := FunctionTool(
    "delegate_task",
    "Delegates a task to another existing agent and waits for the result.",
    ObjectSchema(map[
      "to_agent" := StrProp("The name of the agent to delegate to."),
      "task" := StrProp("The task description or message.")],
      ["to_agent", "task"]))

  const ListAgentsSchema: ToolDef := FunctionTool(
    "list_agents",
    "Lists all available agents in the swarm.",
    ObjectSchema(map[], []))

  /** The seven definitions a new swarm agent advertises, in registration order. */
  const SwarmAgentDefinitions: seq<ToolDef> := [
    CreateAgentSchema, DelegateTaskSchema, ListAgentsSchema,
    ExecuteCommandSchema, ReadFileSchema, WriteFileSchema, ListFilesSchema]

  /** The callables a new swarm agent holds, by name. */
  const SwarmAgentTools: map<string, Callable> := map[
    "create_agent" := CreateAgentTool, "delegate_task" := DelegateTaskTool, "list_agents" := ListAgentsTool,
    "execute_command" := ExecuteCommandTool, "read_file" := ReadFileTool, "write_file" := WriteFileTool,
    "list_files" := ListFilesTool]

  /** `register_base_tools` */
  method RegisterBaseTools(agent: Agent)
    modifies agent`tools, agent`toolDefinitions
    ensures agent.toolDefinitions == old(agent.toolDefinitions) + [ExecuteCommandSchema, ReadFileSchema, WriteFileSchema, ListFilesSchema]
    ensures agent.tools == old(agent.tools)["execute_command" := ExecuteCommandTool]["read_file" := ReadFileTool]
                                            ["write_file" := WriteFileTool]["list_files" := ListFilesTool]
  {
    agent.RegisterTool(ExecuteCommandTool, ExecuteCommandSchema);
    agent.RegisterTool(ReadFileTool, ReadFileSchema);
    agent.RegisterTool(WriteFileTool, WriteFileSchema);
    agent.RegisterTool(ListFilesTool, ListFilesSchema);
  }

  ghost predicate Equipped(a: Agent) reads a`tools, a`toolDefinitions {
    a.tools == SwarmAgentTools && a.toolDefinitions == SwarmAgentDefinitions
  }

  predicate NoDuplicates(s: seq<string>) {
    forall i, j | 0 <= i < j < |s| :: s[i] != s[j]
  }

  class Swarm {
    var agents: map<string, Agent>
    /** The names in `agents`, in insertion order (a Python dict's key order). */
    var order: seq<string>
    /** Every agent the swarm has registered: the footprint of its histories. */
    ghost var Repr: set<Agent>
    /** Where each name sits in `order`. */
    ghost var position: map<string, nat>
    const mainAgentName: string
    const defaultModel: string

    /** Every agent is registered under its own name and is valid; `order`
        lists the names, each at its own position. */
    ghost predicate ValidRegistry()
      reads this, Repr`messages
    {
      && (forall n | n in agents :: agents[n].name == n && agents[n] in Repr)
      && (forall a | a in Repr :: a.Valid())
      && (forall n | n in agents :: n in position && position[n] < |order| && order[position[n]] == n)
      && (forall i | 0 <= i < |order| :: order[i] in agents && order[i] in position && position[order[i]] == i)
    }

    /** `order` names every agent exactly once. */
    lemma OrderListsAgents()
      requires ValidRegistry()
      ensures NoDuplicates(order)
      ensures forall n :: n in agents <==> n in order
    {
      forall n | n in order
        ensures n in agents
      {
        var i :| 0 <= i < |order| && order[i] == n;
      }
    }

    ghost predicate Valid()
      reads this, Repr`messages
    {
      ValidRegistry() && mainAgentName in agents
    }

    /** `Swarm.__init__`: `LLM_MODEL` overrides the default model, and the main
        agent is created with the manager's role and prompt. */
    constructor(env: Env, mainAgentName: string := DefaultMainAgentName, defaultModel: string := DefaultAgentModel)
      ensures this.mainAgentName == mainAgentName
      ensures this.defaultModel == GetEnvOr(env, "LLM_MODEL", defaultModel)
      ensures Valid()
      ensures agents.Keys == {mainAgentName} && order == [mainAgentName]
      ensures fresh(agents[mainAgentName])
      ensures agents[mainAgentName].role == ManagerRole && agents[mainAgentName].systemPrompt == OverseerPrompt
      ensures agents[mainAgentName].model == GetEnvOr(env, "LLM_MODEL", defaultModel)
    {
      this.mainAgentName := mainAgentName;
      this.defaultModel := GetEnvOr(env, "LLM_MODEL", defaultModel);
      agents := map[];
      order := [];
      Repr := {};
      position := map[];
      new;
      var _ := CreateAgent(mainAgentName, ManagerRole, OverseerPrompt, Some(this.defaultModel));
    }

    /** The model a new agent gets. */
    function ChosenModel(model: Option<string>): string {
      if Truthy(model) then model.value else defaultModel
    }

    /** `create_agent`: a taken name changes nothing; otherwise a fresh agent
        with the seven tools is registered last. */
    method CreateAgent(name: string, role: string, systemPrompt: string, model: Option<string>) returns (r: string)
      requires ValidRegistry()
      modifies this`agents, this`order, this`Repr, this`position
      ensures ValidRegistry()
      ensures name in old(agents) ==>
        r == "Error: Agent '" + name + "' already exists." && agents == old(agents) && order == old(order) && Repr == old(Repr)
      ensures name !in old(agents) ==>
        && name in agents && fresh(agents[name])
        && agents == old(agents)[name := agents[name]]
        && Repr == old(Repr) + {agents[name]}
        && order == old(order) + [name]
        && agents[name].role == role && agents[name].systemPrompt == systemPrompt
        && agents[name].model == ChosenModel(model)
        && agents[name].messages == [PlainMessage("system", SystemText(name, role, systemPrompt))]
        && agents[name].tools == SwarmAgentTools
        && r == "Agent '" + name + "' created successfully using model '" + ChosenModel(model) + "'."
    {
      if name in agents {
        return "Error: Agent '" + name + "' already exists.";
      }
      var agentModel := if Truthy(model) then model.value else defaultModel;
      var newAgent := new Agent(name, role, systemPrompt, agentModel);
      Register(newAgent);
      EquipAgent(newAgent);
      r := "Agent '" + name + "' created successfully using model '" + agentModel + "'.";
    }

    /** `self.agents[name] = new_agent`: the agent joins the registry, last. */
    method Register(agent: Agent)
      requires ValidRegistry() && agent.name !in agents && agent.Valid()
      modifies this`agents, this`order, this`Repr, this`position
      ensures ValidRegistry()
      ensures agents == old(agents)[agent.name := agent]
      ensures order == old(order) + [agent.name]
      ensures Repr == old(Repr) + {agent}
    {
      agents := agents[agent.name := agent];
      position := position[agent.name := |order|];
      order := order + [agent.name];
      Repr := Repr + {agent};
    }

    /** The tools a new agent receives: the swarm's closures, then the built-in
        tools. */
    method EquipAgent(agent: Agent)
      requires agent.tools == map[] && agent.toolDefinitions == []
      modifies agent`tools, agent`toolDefinitions
      ensures Equipped(agent)
    {
      RegisterSwarmTools(agent);
      RegisterBaseTools(agent);
    }

    /** `_register_swarm_tools` */
    method RegisterSwarmTools(agent: Agent)
      modifies agent`tools, agent`toolDefinitions
      ensures agent.toolDefinitions == old(agent.toolDefinitions) + [CreateAgentSchema, DelegateTaskSchema, ListAgentsSchema]
      ensures agent.tools == old(agent.tools)["create_agent" := CreateAgentTool]["delegate_task" := DelegateTaskTool]
                                              ["list_agents" := ListAgentsTool]
    {
      agent.RegisterTool(CreateAgentTool, CreateAgentSchema);
      agent.RegisterTool(DelegateTaskTool, DelegateTaskSchema);
      agent.RegisterTool(ListAgentsTool, ListAgentsSchema);
    }

    /** `get_agent` */
    function GetAgent(name: string): (r: Option<Agent>)
      reads this
      ensures r.Some? <==> name in agents
      ensures r.Some? ==> r.value == agents[name]
    {
      if name in agents then Some(agents[name]) else None
    }

    /** The `list_agents` closure: the names in insertion order. */
    method ListAgents() returns (r: string)
      ensures r == ListText(order)
    {
      r := ListText(order);
    }

    /** The `delegate_task` closure: the target hears `Request from {caller}:
        {task}` as a user message and its reply comes back prefixed with its
        name; an unknown target is reported together with the known names. */
    method Delegate(caller: string, toAgent: string, task: string, world: World, fuel: nat)
      returns (r: Outcome<string>, ghost reply: string)
      requires Valid()
      modifies this, Repr`messages
      ensures Valid()
      ensures GrownSwarm(this)
      ensures toAgent !in old(agents) ==>
        && r == Returned("Error: Agent '" + toAgent + "' not found. Available agents: " + ListRepr(old(order)))
        && agents == old(agents) && order == old(order)
        && forall a | a in old(Repr) :: a.messages == old(a.messages)
      ensures toAgent in old(agents) && fuel == 0 ==> r == Raised(RecursionLimit)
      ensures toAgent in old(agents) && fuel > 0 ==>
        && r == Returned("Response from " + toAgent + ": " + reply)
        && var target := old(agents[toAgent]);
           var request := old(target.messages) + [PlainMessage("user", "Request from " + caller + ": " + task)];
           && ThinkOutcome(request, target.messages, world.completion(target.model, request, ToolsArg(target.toolDefinitions)), reply)
           && request <= target.messages
      decreases fuel, 0, 0
    {
      var target := GetAgent(toAgent);
      if target.None? {
        return Returned("Error: Agent '" + toAgent + "' not found. Available agents: " + ListRepr(order)), "";
      }
      if fuel == 0 {
        return Raised(RecursionLimit), "";
      }
      var response;
      ghost var calls;
      response, calls := target.value.Chat("Request from " + caller + ": " + task, this, world, fuel - 1);
      ThinkOutcomeGrows(old(target.value.messages) + [PlainMessage("user", "Request from " + caller + ": " + task)], target.value.messages,
        world.completion(target.value.model, old(target.value.messages) + [PlainMessage("user", "Request from " + caller + ": " + task)], ToolsArg(target.value.toolDefinitions)), response);
      r := Returned("Response from " + toAgent + ": " + response);
      reply := response;
    }

    /** `Swarm.chat`: the user talks to the main agent only. */
    method Chat(message: string, world: World, fuel: nat) returns (r: string)
      requires Valid()
      modifies this, Repr`messages
      ensures Valid()
      ensures GrownSwarm(this)
      ensures var main := old(agents[mainAgentName]);
        ThinkOutcome(old(main.messages) + [PlainMessage("user", message)], main.messages,
                     world.completion(main.model, old(main.messages) + [PlainMessage("user", message)], ToolsArg(main.toolDefinitions)), r)
      decreases fuel, 7, 0
    {
      var main := agents[mainAgentName];
      ghost var calls;
      r, calls := main.Chat(message, this, world, fuel);
    }
  }

  /** Every name the swarm held still denotes the same agent, whose history
      only grew, and every agent it holds now was held before or was created in
      between: the registry is never handed an agent from elsewhere. */
  twostate predicate GrownSwarm(host: Swarm)
    reads host, host.Repr`messages
  {
    && Kept(old(host.agents), host.agents)
    && old(host.Repr) <= host.Repr
    && fresh(host.Repr - old(host.Repr))
    && (forall a | a in old(host.Repr) :: old(a.messages) <= a.messages)
  }

  /** Whatever `think` did, the history it started from is still its prefix. */
  lemma ThinkOutcomeGrows(before: seq<Message>, after: seq<Message>, reply: Outcome<LlmResponse>, r: string)
    requires ThinkOutcome(before, after, reply, r)
    ensures before <= after
  {
    if reply.Returned? && HasToolCalls(reply.value) {
      assert before <= before + [ToolTurn(reply.value)];
    }
  }
}
