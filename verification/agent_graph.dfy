/** The routing graph of lang-graph/src/app/api/config/graph.ts: the
    `AgentState` reducers, the update each node emits, the router, the edge
    tables, and a fuel-bounded driver that runs the graph from the seed the
    HTTP handler builds. Model and tool output come from an oracle. */
module AgentGraph {
  import opened Wrappers
  import opened JsonValues
  import opened Agent
  import opened Workflow

  datatype Node = Translator | Researcher | Responder | ToolNode

  function Name(n: Node): string {
    match n
    case Translator => "Translator"
    case Researcher => "Researcher"
    case Responder => "Responder"
    case ToolNode => "call_tool"
  }

  /** `addEdge(START, "Translator")`. */
  const Entry: Node := Translator

  /** The `default` of the sender channel. */
  const DefaultSender: string := "user"

  /** A node's return value: the channels it writes. */
  datatype Update = Update(messages: seq<Msg>, sender: Option<string>, prereqs: Option<map<string, string>>)

  /** `(x, y) => x.concat(y)`: the old log is kept as a prefix. */
  function ReduceMessages(x: seq<Msg>, y: seq<Msg>): (r: seq<Msg>)
    ensures |r| == |x| + |y|
    ensures r[..|x|] == x && r[|x|..] == y
  {
    x + y
  }

  /** `(x, y) => y ?? x ?? "user"`. */
  function ReduceSender(x: Option<string>, y: Option<string>): (r: string)
    ensures y.Some? ==> r == y.value
    ensures y.None? && x.Some? ==> r == x.value
    ensures y.None? && x.None? ==> r == DefaultSender
  {
    y.GetOr(x.GetOr(DefaultSender))
  }

  /** `(x, y) => ({ ...x, ...y })`: a right-biased union. */
  function ReducePrereqs(x: map<string, string>, y: Option<map<string, string>>): (r: map<string, string>)
    ensures y.Some? ==> r.Keys == x.Keys + y.value.Keys
    ensures y.Some? ==> forall k :: k in y.value ==> r[k] == y.value[k]
    ensures forall k :: k in x && (y.None? || k !in y.value) ==> k in r && r[k] == x[k]
    ensures y.None? || y == Some(map[]) ==> r == x
  {
    x + y.GetOr(map[])
  }

  /** Folds an update into the state, channel by channel. */
  function Apply(s: State, u: Update): State {
    State(ReduceMessages(s.messages, u.messages),
          ReduceSender(Some(s.sender), u.sender),
          ReducePrereqs(s.prereqs, u.prereqs))
  }

  /** The state `route.ts` starts from: its input holds only the human
      message, so sender and prereqs keep their channel defaults. */
  function Seed(prompt: string): (s: State)
    ensures s.messages == [Human(Text(prompt), None)]
    ensures s.sender == DefaultSender && s.prereqs == map[]
  {
    Apply(State([], DefaultSender, map[]), Update([Human(Text(prompt), None)], None, None))
  }

  /** `runAgentNode`: the model's message plus the node's name; the
      Translator also parses the message and emits the parsed prereqs. */
  function AgentNode(n: Node, result: Msg, payload: Option<Json>): (r: Result<Update, Fault>)
    requires n != ToolNode
    ensures r.Ok? ==> r.value.messages == [result] && r.value.sender == Some(Name(n))
    ensures r.Ok? ==> (r.value.prereqs.Some? <==> n == Translator)
    ensures r.Err? ==> n == Translator
    ensures n == Translator ==> (r.Ok? <==> payload.Some? && ConformsToFormatter(payload.value))
    ensures n == Translator && r.Ok? ==> r.value.prereqs == Some(ParseResponseFormatter(payload.value).value.prereqs)
  {
    if n == Translator then
      match payload
      case None => Err(OutputNotJson)
      case Some(data) =>
        match ParseResponseFormatter(data)
        case Err(e) => Err(PayloadRejected(e))
        case Ok(f) => Ok(Update([result], Some(Name(n)), Some(f.prereqs)))
    else
      Ok(Update([result], Some(Name(n)), None))
  }

  /** The tool node's update: its result messages and no sender. */
  function ToolUpdate(outputs: seq<Msg>): Update {
    Update(outputs, None, None)
  }

  /** `router`: a Translator state with an unfilled prerequisite ends;
      otherwise the completion marker ends, then tool calls call the tool,
      and anything else continues. An empty log has no last message. */
  function Router(s: State): (r: Result<Label, Fault>)
    ensures s.sender == "Translator" && MissingPrereq(s.prereqs) ==> r == Ok(End)
    ensures !(s.sender == "Translator" && MissingPrereq(s.prereqs)) && |s.messages| == 0 ==> r == Err(NoLastMessage)
    ensures !(s.sender == "Translator" && MissingPrereq(s.prereqs)) && |s.messages| > 0 ==>
              && (r == Ok(End) <==> DeclaresFinal(Last(s.messages)))
              && (r == Ok(CallTool) <==> !DeclaresFinal(Last(s.messages)) && |PendingToolCalls(Last(s.messages))| > 0)
              && (r == Ok(Continue) <==> !DeclaresFinal(Last(s.messages)) && |PendingToolCalls(Last(s.messages))| == 0)
  {
    if s.sender == "Translator" && MissingPrereq(s.prereqs) then Ok(End)
    else if |s.messages| == 0 then Err(NoLastMessage)
    else if DeclaresFinal(Last(s.messages)) then Ok(End)
    else if |PendingToolCalls(Last(s.messages))| > 0 then Ok(CallTool)
    else Ok(Continue)
  }

  /** The path maps of the Translator and Researcher edges. Every label
      leads to a declared node; only "call_tool" leads to the tool node. */
  function AgentEdge(n: Node, l: Label): (d: Dest<Node>)
    requires n == Translator || n == Researcher
    ensures d.To? && d.node != Translator
    ensures l == CallTool <==> d == To(ToolNode)
    ensures n == Translator && l == Continue ==> d == To(Researcher)
    ensures l == End ==> d == To(Responder)
    ensures n == Researcher && l == Continue ==> d == To(Responder)
  {
    match l
    case Continue => if n == Translator then To(Researcher) else To(Responder)
    case CallTool => To(ToolNode)
    case End => To(Responder)
  }

  /** The tool node's edge, keyed by `sender`: both known senders lead back
      to the Researcher; any other sender has no branch. */
  function ToolEdge(sender: string): (d: Option<Dest<Node>>)
    ensures d.Some? <==> sender == "Researcher" || sender == "Translator"
    ensures d.Some? ==> d.value == To(Researcher)
  {
    if sender == "Researcher" || sender == "Translator" then Some(To(Researcher)) else None
  }

  /** The destination after node `n` produced state `s`. */
  function Next(n: Node, s: State): Result<Dest<Node>, Fault> {
    match n
    case Responder => Ok(Terminal)
    case ToolNode =>
      var d := ToolEdge(s.sender);
      if d.Some? then Ok(d.value) else Err(NoBranch(s.sender))
    case _ =>
      var l :- Router(s);
      Ok(AgentEdge(n, l))
  }

  /** Runs node `n` on `s` with the outside world's `reply`. */
  function Step(n: Node, s: State, reply: Reply): (r: Result<State, Fault>)
    ensures r.Ok? ==> s.messages <= r.value.messages
    ensures r.Ok? && n != ToolNode ==> |r.value.messages| == |s.messages| + 1 && r.value.sender == Name(n)
    ensures r.Ok? && n == ToolNode ==> r.value.sender == s.sender && r.value.prereqs == s.prereqs
    ensures r.Err? ==> n == Translator
  {
    if n == ToolNode then
      Ok(Apply(s, ToolUpdate(reply.toolMessages)))
    else
      var u :- AgentNode(n, reply.message, reply.payload);
      Ok(Apply(s, u))
  }

  /** Runs at most `fuel` nodes, starting with `n` on `s`. */
  function Run(fuel: nat, n: Node, s: State, oracle: (Node, State) -> Reply): Outcome<Node>
    decreases fuel
  {
    if fuel == 0 then BudgetExceeded(s)
    else
      match Step(n, s, oracle(n, s))
      case Err(f) => Aborted(f, s)
      case Ok(s') =>
        match Next(n, s')
        case Err(f) => Aborted(f, s')
        case Ok(Terminal) => Finished(s', n)
        case Ok(To(m)) => Run(fuel - 1, m, s', oracle)
  }

  /** `graph.invoke` as the POST handler calls it. */
  function Invoke(prompt: string, oracle: (Node, State) -> Reply): Outcome<Node> {
    Run(RecursionLimit, Entry, Seed(prompt), oracle)
  }

  // ---- properties ----

  /** Successive Translator updates compose: two merges in a row equal one
      merge of their union, and merging into the empty default gives the
      update itself. */
  lemma PrereqMergeLaws(x: map<string, string>, y: map<string, string>, z: map<string, string>)
    ensures ReducePrereqs(ReducePrereqs(x, Some(y)), Some(z)) == ReducePrereqs(x, Some(ReducePrereqs(y, Some(z))))
    ensures ReducePrereqs(map[], Some(y)) == y
  {
  }

  /** The completion marker wins over pending tool calls, whoever sent the
      message; a Translator with an unfilled prereq ends even earlier. */
  lemma MarkerBeatsToolCalls(s: State)
    requires |s.messages| > 0
    requires DeclaresFinal(Last(s.messages)) && |PendingToolCalls(Last(s.messages))| > 0
    ensures Router(s) == Ok(End)
  {
  }

  /** A Translator whose parsed prereqs leave a field empty goes straight to
      the Responder, whatever its message says; its prereqs are merged in. */
  lemma TranslatorGapSkipsResearch(s: State, reply: Reply)
    requires Step(Translator, s, reply).Ok?
    requires MissingPrereq(ParseResponseFormatter(reply.payload.value).value.prereqs)
    ensures var s' := Step(Translator, s, reply).value;
            && s'.prereqs == s.prereqs + ParseResponseFormatter(reply.payload.value).value.prereqs
            && Next(Translator, s') == Ok(To(Responder))
  {
    var s' := Step(Translator, s, reply).value;
    var parsed := ParseResponseFormatter(reply.payload.value).value.prereqs;
    var k :| k in parsed && parsed[k] == "";
    assert s'.prereqs[k] == "";
  }

  /** Only the Responder leads to END, and it always does. */
  lemma TerminalOnlyAfterResponder(n: Node, s: State)
    ensures Next(n, s) == Ok(Terminal) <==> n == Responder
  {
  }

  /** The tool node returns to the Researcher exactly when the sender is one
      of the two agents that can request a tool. */
  lemma ToolLoopsBack(s: State)
    ensures Next(ToolNode, s).Ok? <==> s.sender == "Researcher" || s.sender == "Translator"
    ensures Next(ToolNode, s).Ok? ==> Next(ToolNode, s) == Ok(To(Researcher))
  {
  }

  /** Every run only ever appends to the message log. */
  lemma {:induction false} RunAppendOnly(fuel: nat, n: Node, s: State, oracle: (Node, State) -> Reply)
    ensures s.messages <= Run(fuel, n, s, oracle).state.messages
    decreases fuel
  {
    if fuel > 0 {
      var st := Step(n, s, oracle(n, s));
      if st.Ok? {
        var nx := Next(n, st.value);
        if nx.Ok? && nx.value.To? {
          RunAppendOnly(fuel - 1, nx.value.node, st.value, oracle);
        }
      }
    }
  }

  /** A run that reaches END does so from the Responder. */
  lemma {:induction false} RunFinishesAtResponder(fuel: nat, n: Node, s: State, oracle: (Node, State) -> Reply)
    ensures Run(fuel, n, s, oracle).Finished? ==> Run(fuel, n, s, oracle).last == Responder
    decreases fuel
  {
    if fuel > 0 {
      var st := Step(n, s, oracle(n, s));
      if st.Ok? {
        var nx := Next(n, st.value);
        if nx.Ok? && nx.value.To? {
          RunFinishesAtResponder(fuel - 1, nx.value.node, st.value, oracle);
        } else if nx.Ok? {
          TerminalOnlyAfterResponder(n, st.value);
        }
      }
    }
  }

  /** What holds whenever the driver is about to run node `n` on `s`: the
      log is non-empty, and the tool node is only reached with a sender its
      edge knows. */
  predicate Routable(n: Node, s: State) {
    |s.messages| > 0 && (n == ToolNode ==> s.sender == "Researcher" || s.sender == "Translator")
  }

  /** One driver step keeps `Routable`: a node always appends or keeps a
      message, agents stamp their own name, and the tool node leaves the
      sender alone, so its lookup always hits. */
  lemma StepKeepsRoutable(n: Node, s: State, reply: Reply)
    requires Routable(n, s) && Step(n, s, reply).Ok?
    ensures var s' := Step(n, s, reply).value;
            && Next(n, s').Ok?
            && (Next(n, s').value.To? ==> Routable(Next(n, s').value.node, s'))
  {
    var s' := Step(n, s, reply).value;
    assert |s'.messages| > 0 by {
      assert s.messages <= s'.messages;
    }
  }

  /** From a routable start, the only faults are the Translator's payload
      being unparsable or failing `ResponseFormatter`. */
  lemma {:induction false} RunFaultsArePayloadFaults(fuel: nat, n: Node, s: State, oracle: (Node, State) -> Reply)
    requires Routable(n, s)
    ensures Run(fuel, n, s, oracle).Aborted? ==>
              Run(fuel, n, s, oracle).fault.OutputNotJson? || Run(fuel, n, s, oracle).fault.PayloadRejected?
    decreases fuel
  {
    if fuel > 0 {
      var st := Step(n, s, oracle(n, s));
      if st.Ok? {
        StepKeepsRoutable(n, s, oracle(n, s));
        var nx := Next(n, st.value);
        if nx.value.To? {
          RunFaultsArePayloadFaults(fuel - 1, nx.value.node, st.value, oracle);
        }
      }
    }
  }

  /** The first message of the log survives every run. */
  lemma RunKeepsFirstMessage(fuel: nat, n: Node, s: State, oracle: (Node, State) -> Reply)
    requires |s.messages| > 0
    ensures var after := Run(fuel, n, s, oracle).state.messages;
            |after| > 0 && after[0] == s.messages[0]
  {
    RunAppendOnly(fuel, n, s, oracle);
    var after := Run(fuel, n, s, oracle).state.messages;
    assert after[..|s.messages|] == s.messages;
    assert after[0] == after[..|s.messages|][0];
  }

  /** From the seed, a run with any budget either finishes at the Responder
      with the prompt still first in the log, stops on a Translator payload
      fault, or runs out of budget. */
  lemma SeededRunOutcomes(fuel: nat, prompt: string, oracle: (Node, State) -> Reply)
    ensures var o := Run(fuel, Entry, Seed(prompt), oracle);
            && |o.state.messages| > 0 && o.state.messages[0] == Human(Text(prompt), None)
            && (o.Finished? ==> o.last == Responder)
            && (o.Aborted? ==> o.fault.OutputNotJson? || o.fault.PayloadRejected?)
  {
    var seed := Seed(prompt);
    RunKeepsFirstMessage(fuel, Entry, seed, oracle);
    RunFinishesAtResponder(fuel, Entry, seed, oracle);
    RunFaultsArePayloadFaults(fuel, Entry, seed, oracle);
  }

  /** The same for a request, with the handler's budget of 150 steps. */
  lemma InvokeOutcomes(prompt: string, oracle: (Node, State) -> Reply)
    ensures var o := Invoke(prompt, oracle);
            && |o.state.messages| > 0 && o.state.messages[0] == Human(Text(prompt), None)
            && (o.Finished? ==> o.last == Responder)
            && (o.Aborted? ==> o.fault.OutputNotJson? || o.fault.PayloadRejected?)
  {
    SeededRunOutcomes(RecursionLimit, prompt, oracle);
  }
}
