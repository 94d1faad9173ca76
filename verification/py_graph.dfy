/** The routing graph of lang-graph-python/tools/graph.py. Its `State` is a
    TypedDict without reducers, so a node's returned dict replaces the
    state; `run_agent_node` returns the whole state. Model and tool output
    come from an oracle. The router at line 110 does not work as written;
    the driver runs under either reading of it. */
module PyGraph {
  import opened Wrappers
  import opened Strings
  import opened JsonValues
  import opened Workflow

  datatype Node = Translator | Researcher | Responder | ToolNode

  function Name(n: Node): string {
    match n
    case Translator => "Translator"
    case Researcher => "Researcher"
    case Responder => "Responder"
    case ToolNode => "call_tool"
  }

  /** `add_edge(START, "Translator")`. */
  const Entry: Node := Translator

  /** The state `run_graph` in weather.py starts from. */
  function Seed(prompt: string): State {
    State([Human(Text(prompt), None)], "", map[])
  }

  /** `run_agent_node`: the log plus the model's message, the node's name,
      and the prereqs of the incoming state. The Translator parses the
      message and reads `data["prereqs"]`, which must succeed, but the value
      is discarded. */
  function AgentNode(n: Node, s: State, result: Msg, payload: Option<Json>): (r: Result<State, Fault>)
    requires n != ToolNode
    ensures r.Ok? ==> |r.value.messages| == |s.messages| + 1
    ensures r.Ok? ==> r.value.messages[..|s.messages|] == s.messages && r.value.messages[|s.messages|] == result
    ensures r.Ok? ==> r.value.sender == Name(n) && r.value.prereqs == s.prereqs
    ensures r.Err? <==> n == Translator && !(payload.Some? && payload.value.JObject? && "prereqs" in payload.value.fields)
  {
    var next := State(s.messages + [result], Name(n), s.prereqs);
    if n == Translator then
      match payload
      case None => Err(OutputNotJson)
      case Some(data) =>
        if data.JObject? && "prereqs" in data.fields then Ok(next) else Err(LookupFailed("prereqs"))
    else
      Ok(next)
  }

  /** The tool node, read as appending its result messages and keeping
      sender and prereqs. Under the reducer-less `State` the library would
      instead replace the log with the tool messages. */
  function ToolStep(s: State, outputs: seq<Msg>): State {
    State(s.messages + outputs, s.sender, s.prereqs)
  }

  /** `router` as graph.py is written. `messages[-1]` comes first, so an
      empty log raises. A Translator state continues. For any other sender,
      `type(last_msg["content"] is str)` is the class `bool` and always
      truthy, so evaluation never short-circuits; and the subscript itself
      raises, because a message object has no `__getitem__`. */
  function RouterAsWritten(s: State): (r: Result<Label, Fault>)
    ensures |s.messages| == 0 ==> r == Err(NoLastMessage)
    ensures |s.messages| > 0 && s.sender == "Translator" ==> r == Ok(Continue)
    ensures |s.messages| > 0 && s.sender != "Translator" ==> r == Err(NotSubscriptable("content"))
  {
    if |s.messages| == 0 then Err(NoLastMessage)
    else if s.sender == "Translator" then Ok(Continue)
    else Err(NotSubscriptable("content"))
  }

  /** `router` with lines 110 and 113 read as intended: `last_msg["content"]`
      and `last_msg["tool_calls"]` as the message's content and tool calls,
      and line 110 as "the content is a string containing the completion
      marker". A Translator state continues whether or not a prereq is
      empty; otherwise the marker precedes the tool-call check. */
  function Router(s: State): (r: Result<Label, Fault>)
    ensures |s.messages| == 0 ==> r == Err(NoLastMessage)
    ensures |s.messages| > 0 && s.sender == "Translator" ==> r == Ok(Continue)
    ensures |s.messages| > 0 && s.sender != "Translator" ==>
              && (r == Ok(End) <==> DeclaresFinal(Last(s.messages)))
              && (r == Ok(CallTool) <==> !DeclaresFinal(Last(s.messages)) && |PendingToolCalls(Last(s.messages))| > 0)
              && (r == Ok(Continue) <==> !DeclaresFinal(Last(s.messages)) && |PendingToolCalls(Last(s.messages))| == 0)
  {
    if |s.messages| == 0 then Err(NoLastMessage)
    else if s.sender == "Translator" then
      // both the "INSUFFICIENT INPUT" branch and the fall-through return "continue"
      Ok(Continue)
    else if DeclaresFinal(Last(s.messages)) then Ok(End)   // graph.py:110, as intended
    else if |PendingToolCalls(Last(s.messages))| > 0 then Ok(CallTool)
    else Ok(Continue)
  }

  /** The input that shows the defect: a Researcher reply carrying the
      completion marker should end, but the code as written raises. */
  lemma RouterAsWrittenRaisesOnFinalAnswer()
    ensures var s := State([Ai(Text("FINAL ANSWER: 12C"), [])], "Researcher", map[]);
            && Router(s) == Ok(End)
            && RouterAsWritten(s) == Err(NotSubscriptable("content"))
  {
    var text := "FINAL ANSWER: 12C";
    assert text[..|FinalMarker|] == FinalMarker;
  }

  /** The conditional edges of the Translator and Researcher. */
  function AgentEdge(n: Node, l: Label): (d: Dest<Node>)
    requires n == Translator || n == Researcher
    ensures d.To? && d.node != Translator
    ensures l == CallTool <==> d == To(ToolNode)
    ensures n == Translator && l == Continue ==> d == To(Researcher)
    ensures l == End ==> d == To(Responder)
    ensures n == Researcher && l == Continue ==> d == To(Responder)
  {
    match l
    case Continue => if n == Translator then To(Researcher) else To(Responder)
    case CallTool => To(ToolNode)
    case End => To(Responder)
  }

  /** `lambda x: x["sender"]` with its path map: both agents lead back to the Researcher. */
  function ToolEdge(sender: string): (d: Option<Dest<Node>>)
    ensures d.Some? <==> sender == "Researcher" || sender == "Translator"
    ensures d.Some? ==> d.value == To(Researcher)
  {
    if sender == "Researcher" || sender == "Translator" then Some(To(Researcher)) else None
  }

  /** Which reading of the router drives a run. */
  datatype Reading = AsWritten | AsIntended

  function Route(reading: Reading, s: State): Result<Label, Fault> {
    match reading
    case AsWritten => RouterAsWritten(s)
    case AsIntended => Router(s)
  }

  /** The destination after node `n` produced state `s`. */
  function Next(reading: Reading, n: Node, s: State): Result<Dest<Node>, Fault> {
    match n
    case Responder => Ok(Terminal)
    case ToolNode =>
      var d := ToolEdge(s.sender);
      if d.Some? then Ok(d.value) else Err(NoBranch(s.sender))
    case _ =>
      var l :- Route(reading, s);
      Ok(AgentEdge(n, l))
  }

  /** Runs node `n` on `s` with the outside world's `reply`. */
  function Step(n: Node, s: State, reply: Reply): (r: Result<State, Fault>)
    ensures r.Ok? ==> s.messages <= r.value.messages && r.value.prereqs == s.prereqs
    ensures r.Ok? && n != ToolNode ==> |r.value.messages| == |s.messages| + 1 && r.value.sender == Name(n)
    ensures r.Ok? && n == ToolNode ==> r.value.sender == s.sender
    ensures r.Err? ==> n == Translator
  {
    if n == ToolNode then Ok(ToolStep(s, reply.toolMessages))
    else AgentNode(n, s, reply.message, reply.payload)
  }

  /** Runs at most `fuel` nodes, starting with `n` on `s`. */
  function Run(fuel: nat, reading: Reading, n: Node, s: State, oracle: (Node, State) -> Reply): Outcome<Node>
    decreases fuel
  {
    if fuel == 0 then BudgetExceeded(s)
    else
      match Step(n, s, oracle(n, s))
      case Err(f) => Aborted(f, s)
      case Ok(s') =>
        match Next(reading, n, s')
        case Err(f) => Aborted(f, s')
        case Ok(Terminal) => Finished(s', n)
        case Ok(To(m)) => Run(fuel - 1, reading, m, s', oracle)
  }

  /** `grph.invoke` as `run_graph` calls it, with the router as intended. */
  function Invoke(prompt: string, oracle: (Node, State) -> Reply): Outcome<Node> {
    Run(RecursionLimit, AsIntended, Entry, Seed(prompt), oracle)
  }

  /** The same call with the router as written. */
  function InvokeAsWritten(prompt: string, oracle: (Node, State) -> Reply): Outcome<Node> {
    Run(RecursionLimit, AsWritten, Entry, Seed(prompt), oracle)
  }

  // ---- properties ----

  /** Whatever the Translator returns, the next node is the Researcher, under either reading. */
  lemma TranslatorThenResearcher(reading: Reading, s: State, reply: Reply)
    requires Step(Translator, s, reply).Ok?
    ensures Next(reading, Translator, Step(Translator, s, reply).value) == Ok(To(Researcher))
  {
  }

  /** The Researcher's "continue" and "end" both lead to the Responder. */
  lemma ResearcherThenResponder(s: State)
    requires Router(s) == Ok(Continue) || Router(s) == Ok(End)
    ensures Next(AsIntended, Researcher, s) == Ok(To(Responder))
  {
  }

  /** Only the Responder leads to END, and it always does. */
  lemma TerminalOnlyAfterResponder(reading: Reading, n: Node, s: State)
    ensures Next(reading, n, s) == Ok(Terminal) <==> n == Responder
  {
  }

  /** Under either reading, a run only appends to the log and never changes
      the prereqs. */
  lemma {:induction false} RunAppendOnly(fuel: nat, reading: Reading, n: Node, s: State, oracle: (Node, State) -> Reply)
    ensures s.messages <= Run(fuel, reading, n, s, oracle).state.messages
    ensures Run(fuel, reading, n, s, oracle).state.prereqs == s.prereqs
    decreases fuel
  {
    if fuel > 0 {
      var st := Step(n, s, oracle(n, s));
      if st.Ok? {
        var nx := Next(reading, n, st.value);
        if nx.Ok? && nx.value.To? {
          RunAppendOnly(fuel - 1, reading, nx.value.node, st.value, oracle);
        }
      }
    }
  }

  /** Under either reading, a run that reaches END does so from the Responder. */
  lemma {:induction false} RunFinishesAtResponder(fuel: nat, reading: Reading, n: Node, s: State, oracle: (Node, State) -> Reply)
    ensures Run(fuel, reading, n, s, oracle).Finished? ==> Run(fuel, reading, n, s, oracle).last == Responder
    decreases fuel
  {
    if fuel > 0 {
      var st := Step(n, s, oracle(n, s));
      if st.Ok? {
        var nx := Next(reading, n, st.value);
        if nx.Ok? && nx.value.To? {
          RunFinishesAtResponder(fuel - 1, reading, nx.value.node, st.value, oracle);
        } else if nx.Ok? {
          TerminalOnlyAfterResponder(reading, n, st.value);
        }
      }
    }
  }

  /** Whenever the driver is about to run `n` on `s`: the log is non-empty,
      and the tool node is reached only from the Researcher, because the
      Translator always continues. */
  predicate Routable(n: Node, s: State) {
    |s.messages| > 0 && (n == ToolNode ==> s.sender == "Researcher")
  }

  lemma StepKeepsRoutable(n: Node, s: State, reply: Reply)
    requires Routable(n, s) && Step(n, s, reply).Ok?
    ensures var s' := Step(n, s, reply).value;
            && Next(AsIntended, n, s').Ok?
            && (Next(AsIntended, n, s').value.To? ==> Routable(Next(AsIntended, n, s').value.node, s'))
  {
    var s' := Step(n, s, reply).value;
    assert |s'.messages| > 0 by {
      assert s.messages <= s'.messages;
    }
  }

  /** With the router as intended and from a routable start, the only faults
      are the Translator's output not parsing as JSON or lacking a "prereqs"
      entry. */
  lemma {:induction false} RunFaultsArePayloadFaults(fuel: nat, n: Node, s: State, oracle: (Node, State) -> Reply)
    requires Routable(n, s)
    ensures Run(fuel, AsIntended, n, s, oracle).Aborted? ==>
              Run(fuel, AsIntended, n, s, oracle).fault.OutputNotJson? || Run(fuel, AsIntended, n, s, oracle).fault == LookupFailed("prereqs")
    decreases fuel
  {
    if fuel > 0 {
      var st := Step(n, s, oracle(n, s));
      if st.Ok? {
        StepKeepsRoutable(n, s, oracle(n, s));
        var nx := Next(AsIntended, n, st.value);
        if nx.value.To? {
          RunFaultsArePayloadFaults(fuel - 1, nx.value.node, st.value, oracle);
        }
      }
    }
  }

  /** With the router as intended, from the seed and any budget: the prompt
      stays first in the log, the form data returned is always the empty
      seed prereqs, a finished run ends at the Responder, and the only faults
      are payload faults. */
  lemma SeededRunOutcomes(fuel: nat, prompt: string, oracle: (Node, State) -> Reply)
    ensures var o := Run(fuel, AsIntended, Entry, Seed(prompt), oracle);
            && |o.state.messages| > 0 && o.state.messages[0] == Human(Text(prompt), None)
            && o.state.prereqs == map[]
            && (o.Finished? ==> o.last == Responder)
            && (o.Aborted? ==> o.fault.OutputNotJson? || o.fault == LookupFailed("prereqs"))
  {
    var seed := Seed(prompt);
    RunAppendOnly(fuel, AsIntended, Entry, seed, oracle);
    var after := Run(fuel, AsIntended, Entry, seed, oracle).state.messages;
    assert after[..1] == seed.messages;
    assert after[0] == after[..1][0];
    RunFinishesAtResponder(fuel, AsIntended, Entry, seed, oracle);
    RunFaultsArePayloadFaults(fuel, Entry, seed, oracle);
  }

  /** The same for a request, with the handler's budget of 150 steps. */
  lemma InvokeOutcomes(prompt: string, oracle: (Node, State) -> Reply)
    ensures var o := Invoke(prompt, oracle);
            && |o.state.messages| > 0 && o.state.messages[0] == Human(Text(prompt), None)
            && o.state.prereqs == map[]
            && (o.Finished? ==> o.last == Responder)
            && (o.Aborted? ==> o.fault.OutputNotJson? || o.fault == LookupFailed("prereqs"))
  {
    SeededRunOutcomes(RecursionLimit, prompt, oracle);
  }

  /** With the router as written, a seeded run with a budget of two steps or
      more never finishes: it stops at the Translator's payload or, once
      the Researcher has replied, at the subscript on line 110. */
  lemma SeededRunAsWritten(fuel: nat, prompt: string, oracle: (Node, State) -> Reply)
    requires fuel >= 2
    ensures var o := Run(fuel, AsWritten, Entry, Seed(prompt), oracle);
            && o.Aborted?
            && (o.fault.OutputNotJson? || o.fault == LookupFailed("prereqs") || o.fault == NotSubscriptable("content"))
  {
    var seed := Seed(prompt);
    var st := Step(Translator, seed, oracle(Translator, seed));
    if st.Ok? {
      var s1 := st.value;
      assert Next(AsWritten, Translator, s1) == Ok(To(Researcher));
      var s2 := Step(Researcher, s1, oracle(Researcher, s1)).value;
      assert RouterAsWritten(s2) == Err(NotSubscriptable("content"));
      assert Run(fuel - 1, AsWritten, Researcher, s1, oracle) == Aborted(NotSubscriptable("content"), s2);
    }
  }

  /** So the handler as written never returns an answer. */
  lemma InvokeAsWrittenNeverFinishes(prompt: string, oracle: (Node, State) -> Reply)
    ensures InvokeAsWritten(prompt, oracle).Aborted?
  {
    SeededRunAsWritten(RecursionLimit, prompt, oracle);
  }
}
