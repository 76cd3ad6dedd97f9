/**
 * The values a LangGraph state holds in these agents, and Python's
 * truthiness on them.  A state is a map from a graph's field names to
 * values; a node's partial update is a map of the same kind.
 */
module Values {

  /** The message classes of langchain_core: system, human, AI and tool messages. */
  datatype Role = System | Human | AI | Tool

  /** One entry of an AI message's `tool_calls`: the tool's name, its arguments and the call id. */
  datatype ToolCall = ToolCall(name: string, args: map<string, string>, id: string)

  /** A chat message; `toolCalls` is empty except on AI messages, `toolCallId` is set on tool messages. */
  datatype Message = Message(role: Role, content: string, toolCalls: seq<ToolCall>, toolCallId: string)

  function SystemMessage(content: string): Message {
    Message(System, content, [], "")
  }

  function HumanMessage(content: string): Message {
    Message(Human, content, [], "")
  }

  function AIMessage(content: string): Message {
    Message(AI, content, [], "")
  }

  function ToolMessage(content: string, toolCallId: string): Message {
    Message(Tool, content, [], toolCallId)
  }

  /** The `Joke` record of the joke bots: its text and the category it was made for. */
  datatype Joke = Joke(text: string, category: string)

  datatype Value =
    | VNone
    | VBool(b: bool)
    | VInt(i: int)
    | VStr(s: string)
    | VJoke(joke: Joke)
    | VMsg(msg: Message)
    | VList(items: seq<Value>)

  /** Python's `bool(v)`: None, False, 0, "" and [] are false; objects are true. */
  predicate Truthy(v: Value) {
    match v
    case VNone => false
    case VBool(b) => b
    case VInt(i) => i != 0
    case VStr(s) => s != ""
    case VJoke(_) => true
    case VMsg(_) => true
    case VList(xs) => xs != []
  }

  /** `v is True`. */
  predicate IsTrue(v: Value) {
    v == VBool(true)
  }

  /** The elements of a list value; any other value has none. */
  function Items(v: Value): seq<Value> {
    if v.VList? then v.items else []
  }

  /** The integer of an integer value; any other value reads as 0. */
  function IntOf(v: Value): int {
    if v.VInt? then v.i else 0
  }

  /** `v or default` for a field holding a string or None. */
  function TextOr(v: Value, default: string): string {
    if v.VStr? && v.s != "" then v.s else default
  }

  /** The string of a string value; any other value reads as "". */
  function StrOf(v: Value): string {
    if v.VStr? then v.s else ""
  }

  /** The value of field `k`; a field the state does not hold reads as None. */
  function Get<K>(s: map<K, Value>, k: K): Value {
    if k in s then s[k] else VNone
  }

  /** A list of message values. */
  function MessageValues(ms: seq<Message>): (vs: seq<Value>)
    ensures |vs| == |ms| && forall i :: 0 <= i < |ms| ==> vs[i] == VMsg(ms[i])
  {
    seq(|ms|, i requires 0 <= i < |ms| => VMsg(ms[i]))
  }
}
