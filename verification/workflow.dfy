/** Vocabulary shared by the three agent graphs: messages, the state record
    every node reads, the router labels, edge destinations and the faults a
    run can stop with. */
module Workflow {
  import opened Wrappers
  import opened Strings
  import opened JsonValues
  import Agent

  /** Message content: a plain string, or a list of structured parts
      (for which `typeof content === "string"` is false). */
  datatype Content = Text(text: string) | Parts(parts: seq<Json>)

  datatype ToolCall = ToolCall(name: string, args: Json)

  /** A conversation turn: a human message (optionally named), a model
      message that may request tools, or a tool's result. */
  datatype Msg =
    | Human(content: Content, name: Option<string>)
    | Ai(content: Content, toolCalls: seq<ToolCall>)
    | ToolResult(content: Content, toolCallId: string)

  /** `message.tool_calls`, empty where a message has no such field. */
  function PendingToolCalls(m: Msg): seq<ToolCall> {
    if m.Ai? then m.toolCalls else []
  }

  /** `messages[messages.length - 1]` / `messages[-1]` of a non-empty log. */
  function Last(ms: seq<Msg>): Msg
    requires |ms| > 0
  {
    ms[|ms| - 1]
  }

  /** The completion marker the research agent is told to prefix. */
  const FinalMarker: string := "FINAL ANSWER"

  /** The content is a string and contains the completion marker. */
  predicate DeclaresFinal(m: Msg) {
    m.content.Text? && Contains(m.content.text, FinalMarker)
  }

  /** The graph state: the message log, the node that last wrote, and the
      prerequisite fields gathered so far ("" meaning not yet known). */
  datatype State = State(messages: seq<Msg>, sender: string, prereqs: map<string, string>)

  /** Some prerequisite still holds the empty-string sentinel. */
  predicate MissingPrereq(p: map<string, string>) {
    "" in p.Values
  }

  /** The labels a router returns: "continue", "call_tool", "end". */
  datatype Label = Continue | CallTool | End

  /** Where a conditional edge leads: a node, or the graph's END. */
  datatype Dest<N> = To(node: N) | Terminal

  /** Why a run stops before reaching END. */
  datatype Fault =
    | OutputNotJson                        // the JSON output parser rejected the model's text
    | PayloadRejected(error: Agent.ZodError) // the parsed JSON failed `ResponseFormatter`
    | NoLastMessage                        // the router read the last message of an empty log (TypeError in TypeScript, IndexError in Python)
    | NoBranch(key: string)                // the path map has no entry for the value returned
    | LookupFailed(key: string)            // Python `data[key]` raised
    | NotSubscriptable(key: string)        // Python `msg[key]` on a message object, which has no `__getitem__`

  /** `recursionLimit: 150`, the step budget of both request handlers. */
  const RecursionLimit: nat := 150

  /** What the outside world contributes to one step: the model's message,
      the JSON parser's reading of it, and the messages a tool step appends. */
  datatype Reply = Reply(message: Msg, payload: Option<Json>, toolMessages: seq<Msg>)

  /** How a driven run ends: at END after node `last`, stopped by a fault,
      or out of budget. */
  datatype Outcome<N> =
    | Finished(state: State, last: N)
    | Aborted(fault: Fault, state: State)
    | BudgetExceeded(state: State)
}
