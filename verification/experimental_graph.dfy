/** The two-agent graph of lang-graph/src/components/test/Graph.tsx: a
    researcher and a chart generator hand the conversation back and forth,
    with a shared tool node that returns to whichever agent called it. The
    state's channel definitions live in a module that is not part of this
    model, so only the nodes, the router and the edges are modelled. */
module ExperimentalGraph {
  import opened Wrappers
  import opened Strings
  import opened Workflow

  datatype Node = Researcher | ChartGenerator | ToolNode

  function Name(n: Node): string {
    match n
    case Researcher => "Researcher"
    case ChartGenerator => "ChartGenerator"
    case ToolNode => "call_tool"
  }

  /** `addEdge(START, "Researcher")`. */
  const Entry: Node := Researcher

  /** What a node hands to the state's reducers. */
  datatype Update = Update(messages: seq<Msg>, sender: string)

  /** `runAgentNode`: a reply that requests no tool is re-issued as a human
      message with the agent's name and the same content; a reply that
      requests tools is passed on as it is. */
  function AgentNode(n: Node, result: Msg): (u: Update)
    requires n != ToolNode
    ensures |u.messages| == 1 && u.sender == Name(n)
    ensures u.messages[0].content == result.content
    ensures |PendingToolCalls(result)| > 0 ==> u.messages[0] == result
    ensures |PendingToolCalls(result)| == 0 <==> u.messages[0] == Human(result.content, Some(Name(n)))
  {
    if |PendingToolCalls(result)| > 0 then Update([result], Name(n))
    else Update([Human(result.content, Some(Name(n)))], Name(n))
  }

  /** `router`: tool calls come first, then the completion marker. The last
      message is read through optional chaining for the tool calls but not
      for the content, so an empty log throws. */
  function Router(messages: seq<Msg>): (r: Result<Label, Fault>)
    ensures |messages| == 0 <==> r == Err(NoLastMessage)
    ensures |messages| > 0 ==>
              && (r == Ok(CallTool) <==> |PendingToolCalls(messages[|messages| - 1])| > 0)
              && (r == Ok(End) <==> |PendingToolCalls(messages[|messages| - 1])| == 0 && DeclaresFinal(messages[|messages| - 1]))
              && (r == Ok(Continue) <==> |PendingToolCalls(messages[|messages| - 1])| == 0 && !DeclaresFinal(messages[|messages| - 1]))
  {
    if |messages| == 0 then Err(NoLastMessage)
    else
      var last := messages[|messages| - 1];
      if |PendingToolCalls(last)| > 0 then Ok(CallTool)
      else if DeclaresFinal(last) then Ok(End)
      else Ok(Continue)
  }

  /** The conditional edges of both agents: "continue" hands over to the
      other agent, "call_tool" goes to the tool node, "end" to END. */
  function AgentEdge(n: Node, l: Label): (d: Dest<Node>)
    requires n != ToolNode
    ensures d == Terminal <==> l == End
    ensures d == To(ToolNode) <==> l == CallTool
    ensures l == Continue ==> d.To? && d.node != n && d.node != ToolNode
  {
    match l
    case Continue => if n == Researcher then To(ChartGenerator) else To(Researcher)
    case CallTool => To(ToolNode)
    case End => Terminal
  }

  /** `(x) => x.sender` with its path map: only the two agents' names have
      an entry. */
  function ToolEdge(sender: string): (d: Option<Dest<Node>>)
    ensures d.Some? <==> sender == "Researcher" || sender == "ChartGenerator"
    ensures d.Some? ==> d.value.To? && d.value.node != ToolNode && Name(d.value.node) == sender
  {
    if sender == "Researcher" then Some(To(Researcher))
    else if sender == "ChartGenerator" then Some(To(ChartGenerator))
    else None
  }

  // ---- properties ----

  /** A message the agent node re-issues never requests a tool, so after it
      the router never chooses the tool node. */
  lemma ReissuedMessageNeverCallsTool(n: Node, before: seq<Msg>, result: Msg)
    requires n != ToolNode && |PendingToolCalls(result)| == 0
    ensures Router(before + AgentNode(n, result).messages) != Ok(CallTool)
  {
    var ms := before + AgentNode(n, result).messages;
    assert ms[|ms| - 1] == AgentNode(n, result).messages[0];
  }

  /** A reply that requests tools sends the run to the tool node even when
      it also carries the completion marker. */
  lemma ToolCallsBeatMarker(n: Node, before: seq<Msg>, result: Msg)
    requires n != ToolNode && |PendingToolCalls(result)| > 0
    ensures AgentEdge(n, Router(before + AgentNode(n, result).messages).value) == To(ToolNode)
  {
    var ms := before + AgentNode(n, result).messages;
    assert ms[|ms| - 1] == result;
  }

  /** The tool node does not write the sender, so the tool edge returns to
      the agent that requested the tool. */
  lemma ToolReturnsToCaller(n: Node, result: Msg)
    requires n != ToolNode
    ensures ToolEdge(AgentNode(n, result).sender) == Some(To(n))
  {
  }

  /** "continue" alternates between the two agents. */
  lemma ContinueAlternates(n: Node)
    requires n != ToolNode
    ensures AgentEdge(n, Continue).To? && AgentEdge(AgentEdge(n, Continue).node, Continue) == To(n)
  {
  }
}
