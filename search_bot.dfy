/**
 * search-bot/main.py: an LLM/tool loop.  The llm node appends the model's
 * reply; when that reply asks for tools, the tools node looks each call up
 * in the tool registry, runs it and answers it with one tool message, and
 * the run returns to the llm node; otherwise the run ends.  The model's
 * replies, the registry's names and the tools' results are parameters
 * (`invoke` gives `str(tool.invoke(args))` for a tool name and arguments).
 * `add_messages` is modelled as appending.
 */
module SearchBot {
  import opened Wrappers
  import opened Values
  import opened Merge
  import opened Graph

  datatype Field = Messages

  type State = map<Field, Value>
  type Update = map<Field, Value>

  /** `messages: Annotated[list, add_messages]`. */
  function Schema(): map<Field, Reducer> {
    map[Messages := Append]
  }

  const LlmName: string := "llm"
  const ToolsName: string := "tools"

  /** The state's messages. */
  function History(s: State): seq<Value> {
    Items(Get(s, Messages))
  }

  /** The tool calls of the last message; a message that is not a chat message has none. */
  function LastToolCalls(s: State): seq<ToolCall>
    requires |History(s)| > 0
  {
    var last := History(s)[|History(s)| - 1];
    if last.VMsg? then last.msg.toolCalls else []
  }

  /** `llm_node`: the model's reply, as a one-message update. */
  function LlmNode(reply: Message): Update {
    map[Messages := VList([VMsg(reply)])]
  }

  /** `llm_node` adds exactly its reply at the end of the history. */
  lemma LlmNodeAddsOne(s: State, reply: Message)
    ensures History(Apply(Schema(), s, LlmNode(reply))) == History(s) + [VMsg(reply)]
  {
    ApplyWrites(Schema(), s, LlmNode(reply), Messages);
  }

  /** `should_continue`: the tools while the last message asks for tools, END otherwise. */
  function ShouldContinue(s: State): string
    requires |History(s)| > 0
  {
    if LastToolCalls(s) != [] then ToolsName else End
  }

  // ---------------------------------------------------------------------------
  // The tools node

  /** The answer to one tool call: the stringified result, tagged with the call's id. */
  function ToolAnswer(call: ToolCall, invoke: (string, map<string, string>) -> string): Message {
    ToolMessage(invoke(call.name, call.args), call.id)
  }

  /** One tool message per call, in call order. */
  function ToolMessages(calls: seq<ToolCall>, invoke: (string, map<string, string>) -> string): (r: seq<Message>)
    ensures |r| == |calls|
  {
    seq(|calls|, i requires 0 <= i < |calls| => ToolAnswer(calls[i], invoke))
  }

  /** The first call whose tool is not registered, if any. */
  function FirstUnknown(calls: seq<ToolCall>, registry: set<string>): (r: Option<nat>)
    decreases |calls|
    ensures r.Some? ==> r.value < |calls| && calls[r.value].name !in registry
    ensures r.Some? ==> forall j :: 0 <= j < r.value ==> calls[j].name in registry
    ensures r.None? ==> forall j :: 0 <= j < |calls| ==> calls[j].name in registry
  {
    if calls == [] then None
    else if calls[0].name !in registry then Some(0)
    else match FirstUnknown(calls[1..], registry)
      case None => None
      case Some(i) => Some(i + 1)
  }

  /**
   * What `tools_node` does: the registry lookup of the first unregistered
   * tool fails with a KeyError on its name; otherwise one tool message per
   * call is returned.
   */
  function ToolsResult(s: State, registry: set<string>, invoke: (string, map<string, string>) -> string): Result<Update, string>
    requires |History(s)| > 0
  {
    var calls := LastToolCalls(s);
    match FirstUnknown(calls, registry)
    case Some(i) => Failure(calls[i].name)
    case None => Success(map[Messages := VList(MessageValues(ToolMessages(calls, invoke)))])
  }

  /**
   * `tools_node`: for each call of the last message, in order, look the tool
   * up and append the message answering the call.
   */
  method ToolsNode(s: State, registry: set<string>, invoke: (string, map<string, string>) -> string)
    returns (r: Result<Update, string>)
    requires |History(s)| > 0
    ensures r == ToolsResult(s, registry, invoke)
  {
    var calls := LastToolCalls(s);
    var toolMessages: seq<Message> := [];
    for i := 0 to |calls|
      invariant |toolMessages| == i
      invariant forall j :: 0 <= j < i ==> toolMessages[j] == ToolAnswer(calls[j], invoke)
      invariant forall j :: 0 <= j < i ==> calls[j].name in registry
    {
      if calls[i].name !in registry {
        return Failure(calls[i].name);
      }
      var result := invoke(calls[i].name, calls[i].args);
      toolMessages := toolMessages + [ToolMessage(result, calls[i].id)];
    }
    assert toolMessages == ToolMessages(calls, invoke);
    r := Success(map[Messages := VList(MessageValues(toolMessages))]);
  }

  /** The tools node fails exactly when some call names an unregistered tool, and then on such a name. */
  lemma ToolsFailIffUnknown(s: State, registry: set<string>, invoke: (string, map<string, string>) -> string)
    requires |History(s)| > 0
    ensures ToolsResult(s, registry, invoke).Failure? <==> exists j :: 0 <= j < |LastToolCalls(s)| && LastToolCalls(s)[j].name !in registry
    ensures ToolsResult(s, registry, invoke).Failure? ==> ToolsResult(s, registry, invoke).error !in registry
  {
    var calls := LastToolCalls(s);
    var first := FirstUnknown(calls, registry);
    if first.Some? {
      assert calls[first.value].name !in registry;
    }
  }

  /**
   * When every tool is registered, the history gains one tool message per
   * call, in call order, each answering its call's id with that call's result.
   */
  lemma ToolsAnswerEveryCall(s: State, registry: set<string>, invoke: (string, map<string, string>) -> string, i: nat)
    requires |History(s)| > 0 && ToolsResult(s, registry, invoke).Success?
    ensures var calls, t := LastToolCalls(s), Apply(Schema(), s, ToolsResult(s, registry, invoke).value);
            |History(t)| == |History(s)| + |calls|
            && History(t)[..|History(s)|] == History(s)
            && (i < |calls| ==>
                  History(t)[|History(s)| + i] == VMsg(Message(Tool, invoke(calls[i].name, calls[i].args), [], calls[i].id)))
  {
    var u := ToolsResult(s, registry, invoke).value;
    ApplyWrites(Schema(), s, u, Messages);
  }

  // ---------------------------------------------------------------------------
  // The graph

  /** The mapping of the llm node's conditional edges. */
  function LlmMapping(): map<string, string> {
    map[ToolsName := ToolsName, End := End]
  }

  /** The topology `create_agent` registers. */
  function SearchTopology(): Topology {
    Topology([LlmName, ToolsName],
             [Edge(Start, LlmName), Edge(ToolsName, LlmName)],
             [],
             [Branch(LlmName, Some(LlmMapping()))])
  }

  /** `create_agent`: the builder calls, in the source's order. */
  method CreateAgent() returns (t: Topology)
    ensures t == SearchTopology()
  {
    var graph := new StateGraph();
    graph.AddNode(LlmName);
    graph.AddNode(ToolsName);
    graph.SetEntryPoint(LlmName);
    graph.AddConditionalEdges(LlmName, Some(LlmMapping()));
    graph.AddEdge(ToolsName, LlmName);
    t := graph.Snapshot();
  }

  /**
   * Every edge and the mapping connect the two nodes, START and END only;
   * the run starts at the llm node, the tools node always returns to it,
   * and the llm node goes to the tools exactly when the last message asks
   * for tools and ends the run otherwise.
   */
  lemma SearchFlow(s: State)
    requires |History(s)| > 0
    ensures EndpointsRegistered(SearchTopology())
    ensures Successors(SearchTopology(), Start) == {LlmName}
    ensures Successors(SearchTopology(), ToolsName) == {LlmName}
    ensures Successors(SearchTopology(), LlmName) == {}
    ensures Resolve(SearchTopology(), LlmName, ShouldContinue(s)) == Some(ToolsName) <==> LastToolCalls(s) != []
    ensures Resolve(SearchTopology(), LlmName, ShouldContinue(s)) == Some(End) <==> LastToolCalls(s) == []
  {
    var t := SearchTopology();
    assert t.edges[0] in t.edges && t.edges[1] in t.edges;
    var m := LlmMapping();
    forall b, k | b in t.branches && b.mapping.Some? && k in b.mapping.value
      ensures IsTarget(t, b.mapping.value[k])
    {
      assert b.mapping.value == m;
    }
  }
}
