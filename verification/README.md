# web-dev-practice: agent routing, markdown rewriting, chat log and tool queries in Dafny

This project models the deterministic logic of the web-dev-practice chat apps.
Every model, search and HTTP call is turned into a parameter. Four pieces are modelled:

- **The multi-agent routing state machine.** There are three variants, each with its own router, node and edge functions.
  - `AgentGraph` models `lang-graph/src/app/api/config/graph.ts`. It covers:
    - the `AgentState` channel reducers;
    - the update each agent node emits;
    - the router;
    - the edge tables and the entry node;
    - a fuel-bounded driver seeded the way the `/api/langchain` handler seeds it.
  - `PyGraph` models `lang-graph-python/tools/graph.py`. Its nodes return the whole state, its Translator discards the prereqs it parses, and its router has a defect at line 110 (see Findings). It also has a driver, seeded as the `/workflow` handler does.
  - `ExperimentalGraph` models `lang-graph/src/components/test/Graph.tsx`: the researcher/chart-generator pair, whose router checks tool calls first.
  - `Workflow` holds the vocabulary all three share: messages, state, labels, destinations, faults and the step budget of 150.
- **Markdown escape rewriting and stream accumulation** (`Markdown`) from `lang-graph/src/components/Chat.tsx`:
  - `processSlice`;
  - the four global `replace` calls of `processMarkdown`, with JavaScript's `$$` replacement-pattern semantics;
  - the window that `readStream` rewrites after each chunk.
  The same rewrite in the `bot` function of `lang-graph/src/lib/bot.ts` is modelled in `Bot`, along with the request `updateThread` builds and the mapping `getThreadMessages` applies.
- **The append-only chat log** (`History`) of `chatbot-starter/lib/ChatHistory.ts`. This includes `recent(n)` with JavaScript `slice(-n)` semantics, under which `recent(0)` returns everything.
- **Tool query builders and response-schema validators.**
  - `Agent` covers the zod `ResponseFormatter` and `ResponseFormatter2` objects, the tool-name join, and the Tavily query `response + " " + prereqs.toString()`.
  - `Tutorial` covers `searchInternet`, `multiply` and `SearchToolInput.__getitem__` from `lang-graph-python/tutorial/main.py`.

`Strings`, `Wrappers` and `JsonValues` hold the helpers the modules share:
- `Join` (JavaScript `join` and Python `str.join`);
- `Contains` (`includes`);
- `JsSlice` (`Array.prototype.slice` / `String.prototype.slice` index clamping);
- decimal rendering of the `${i}` index;
- `Option` and `Result`;
- a JSON value type.

Faults that the source raises as exceptions are modelled as `Err` results or `Aborted` outcomes:
- `ZodError` from `parse`;
- the failure on reading the last message of an empty log: a `TypeError` in the TypeScript graphs, an `IndexError` from `messages[-1]` in graph.py;
- a missing path-map branch;
- a Python `KeyError`, a `TypeError` from subscripting a message object, or an `AttributeError`.

Modelling choices:
- The model and tool outputs are an oracle `(Node, State) -> Reply`.
- The JSON output parser is the `payload: Option<Json>` part of each reply.
- A tool step appends the messages the oracle supplies and writes no sender. For graph.py this is a modelling choice, not what the library does (see Left out).
- The drivers (`Run`) take at most `fuel` node steps; `Invoke` uses the handlers' limit of 150. Nothing is claimed about how LangGraph counts its own recursion limit.

### Behaviour worth noting

- graph.ts merges the Translator's prereqs into the old ones (`{...x, ...y}`), so a key the Translator omits keeps its earlier value.
- In graph.ts, when a Translator state has an unfilled prereq (`""`), the route is "end", which leads to the Responder, so the Researcher is skipped. The Python router returns "continue" in the same situation.
- graph.py's `run_agent_node` reads `data["prereqs"]` but returns the incoming prereqs. With its router read as intended and its tool node appending, a Python run therefore always answers with `form_data` equal to the seed's `{}` (`PyGraph.InvokeOutcomes`). As written, the run never gets that far (`PyGraph.InvokeAsWrittenNeverFinishes`).

## Model

| member | source | states |
|---|---|---|
| Strings.ContainsIff | lang-graph/src/app/api/config/graph.ts:144-147 | the `includes` test used for the completion marker holds exactly when the marker occurs at some position of the text |
| Strings.JsSliceNegativeStart | chatbot-starter/lib/ChatHistory.ts:19 | `slice(-n)` returns the whole array for n = 0 and for n beyond the length, and the last n entries otherwise |
| Strings.JsSliceInBounds | lang-graph/src/components/Chat.tsx:57-62 | in-range `slice(a, b)` is the subsequence a..b, and an inverted range is empty |
| Strings.DecimalRoundTrip | chatbot-starter/lib/ChatHistory.ts:21 | the decimal text written for an entry's index reads back as that index |
| Agent.ToolNames | lang-graph/src/app/api/config/agent.ts:26 | the tool names joined in order by ", ": "" for none, the name alone for one, no trailing separator |
| Agent.StringItems | lang-graph/src/app/api/config/agent.ts:70-72 | an array validates as `z.array(z.string())` exactly when every item is a string, and then yields the same strings in order |
| Agent.ParseResponseFormatter | lang-graph/src/app/api/config/agent.ts:51-57 | `ResponseFormatter.parse` succeeds exactly for an object with type "soft" or "technical", a string-to-string prereqs record and a string response; a non-object is rejected as such; the parsed fields equal the input's |
| Agent.ParseResponseFormatter2 | lang-graph/src/app/api/config/agent.ts:68-74 | the same with prereqs an array of strings, parsed item by item in order |
| Agent.FormatterRoundTrip | lang-graph/src/app/api/config/agent.ts:51-57 | every formatted value, written as JSON, parses back to itself |
| Agent.Formatter2RoundTrip | lang-graph/src/app/api/config/agent.ts:68-74 | every `ResponseFormatter2` value, written as JSON, parses back to itself |
| Agent.TavilyQuery | lang-graph/src/app/api/config/agent.ts:80-84 | a query is built exactly when the input validates against `ResponseFormatter2`; otherwise the parse error is returned |
| Agent.TavilyQueryShape | lang-graph/src/app/api/config/agent.ts:81-83 | the query is the response, one space, then the prereqs joined by "," without spaces; no prereqs leave a trailing space |
| Agent.TavilyRejectsBadType | lang-graph/src/app/api/config/agent.ts:80-81 | any object whose type is missing or other than "soft" or "technical" is rejected before a query is built, with the type field named first |
| Agent.TavilyRejectsBadPrereqs | lang-graph/src/app/api/config/agent.ts:80-81 | any object whose prereqs are missing, not an array, or hold a non-string item is rejected, naming the prereqs field |
| Agent.TavilyRejectsUnknownType | lang-graph/src/app/api/config/agent.ts:49-52 | an otherwise well-formed input with an unknown type is rejected with the type field as the only complaint |
| Markdown.Replacement | lang-graph/src/components/Chat.tsx:66-69 | each escape is replaced by a non-empty run of dollar signs |
| Markdown.ReplacementStrings | lang-graph/src/components/Chat.tsx:66-69 | the replacement pattern "$$$$" inserts "$$" and "$$" inserts "$" |
| Markdown.ProcessMarkdownIsPasses | lang-graph/src/components/Chat.tsx:65-71 | `processMarkdown` is the four global replacements of `\[`, `\]`, `\(`, `\)` in that order |
| Markdown.PassesAreUnescape | lang-graph/src/components/Chat.tsx:65-71 | the four successive passes equal one left-to-right scan rewriting `\[` and `\]` to "$$" and `\(` and `\)` to "$", all else unchanged |
| Markdown.ProcessMarkdownIsUnescape | lang-graph/src/components/Chat.tsx:65-71 | `processMarkdown` equals the single-scan reference for every input |
| Markdown.Unescape | lang-graph/src/components/Chat.tsx:65-71 | the reference rewrite never lengthens its input, is empty only for empty input, and begins with the input's first character or a dollar sign |
| Markdown.UnescapeLeavesNoEscapes | lang-graph/src/components/Chat.tsx:65-71 | no output of the rewrite contains any of the four escape pairs |
| Markdown.UnescapeFixesClean | lang-graph/src/components/Chat.tsx:65-71 | text without escape pairs is left unchanged |
| Markdown.ProcessMarkdownProperties | lang-graph/src/components/Chat.tsx:65-71 | `processMarkdown` leaves no escape pair, never lengthens, and applying it twice equals applying it once |
| Markdown.ProcessSliceSplices | lang-graph/src/components/Chat.tsx:51-63 | for 0 <= begin <= end <= length the text before begin and after end is kept and only the middle is transformed; the identity transform returns the text |
| Markdown.ProcessSliceReversed | lang-graph/src/components/Chat.tsx:51-63 | with end before begin the middle slice is empty, so the transform sees "" and the text around it is duplicated between end and begin |
| Markdown.StreamStepShape | lang-graph/src/components/Chat.tsx:88-94 | the window start max(len - 2 * chunk length, 0) lies within the previous accumulation, the text before it is carried over, and the window is rewritten |
| Markdown.StreamStepKeepsClean | lang-graph/src/components/Chat.tsx:88-94 | because the window reaches back a full chunk, an escape split across two chunks is still rewritten: a clean accumulation stays clean |
| Markdown.YieldsClean | lang-graph/src/components/Chat.tsx:82-96 | every value yielded by the accumulation loop is free of escape pairs |
| Markdown.ReadStream | lang-graph/src/components/Chat.tsx:73-97 | one value is yielded per chunk, each the previous accumulation plus the chunk with its trailing window rewritten, and none contains an escape pair |
| History.Empty | chatbot-starter/lib/ChatHistory.ts:9-11 | a log built without an argument is empty |
| History.Add | chatbot-starter/lib/ChatHistory.ts:13-15 | exactly one entry with the given role and content is appended; earlier entries are unchanged |
| History.Recent | chatbot-starter/lib/ChatHistory.ts:17-24 | for n >= 1 the last min(n, length) entries, formatted "[i] role: content" with i from 0 and joined by newlines; n = 0 formats every entry; negative n drops the first -n; an empty log gives "" |
| History.RecentZeroIsEverything | chatbot-starter/lib/ChatHistory.ts:18-19 | `recent(0)` equals `recent` of the full length and of any larger count |
| History.RecentAfterAdd | chatbot-starter/lib/ChatHistory.ts:13-24 | after an add, `recent(1)` is the new entry numbered 0 |
| History.RecentDefaultShowsLastFive | chatbot-starter/lib/ChatHistory.ts:17-24 | with the default count of 5, a log of five or more entries shows exactly its last five, renumbered from 0; a shorter log is shown whole |
| History.RecentDefaultDropsOldest | chatbot-starter/lib/ChatHistory.ts:17 | with the default count of 5, a six-entry log shows all but its oldest entry |
| Bot.Bot | lang-graph/src/lib/bot.ts:67-84 | the log gains the user prompt and then the assistant reply; earlier entries are untouched; the reply is the completion with the four escape rewrites and contains no escape pair; a missing completion leaves only the prompt added and no reply |
| Bot.BotReturnsLastEntry | lang-graph/src/lib/bot.ts:81-83 | the returned string is the content of the last log entry |
| Bot.UpdateThreadMessage | lang-graph/src/lib/bot.ts:23-33 | the message keeps role and content and has attachments exactly when a file id is given, then one attachment carrying that id |
| Bot.ToItems | lang-graph/src/lib/bot.ts:48-56 | the mapping succeeds exactly when every message has a first part; it is one-to-one and in order, copies the role, and takes the text of the first part when it is text, else "" |
| Tutorial.SearchQuery | lang-graph-python/tutorial/main.py:76-85 | the query is the response, one space, then the prereqs joined by ", "; empty prereqs leave a trailing space and a single prereq has no separator |
| Tutorial.Multiply | lang-graph-python/tutorial/main.py:19-23 | the result is an integer, not the annotated string, equal to the product |
| Tutorial.GetItem | lang-graph-python/tutorial/main.py:36-37 | indexing by "response" or "prereqs" returns that field; any other name is modelled as an AttributeError |
| Tutorial.GetItemRebuilds | lang-graph-python/tutorial/main.py:35-44 | reading both fields by index rebuilds the input |
| Tutorial.SearchQueryFromInput | lang-graph-python/tutorial/main.py:83-85 | reading an input's fields by index and building the query gives its response, a space and its prereqs joined by ", " |
| AgentGraph.ReduceMessages | lang-graph/src/app/api/config/graph.ts:24-26 | the old log is a prefix of the result, the update follows it, and the lengths add |
| AgentGraph.ReduceSender | lang-graph/src/app/api/config/graph.ts:27-30 | an update's sender wins; without one the old sender is kept; with neither it is "user" |
| AgentGraph.ReducePrereqs | lang-graph/src/app/api/config/graph.ts:31-34 | a right-biased union: updated keys take the new values, other keys keep the old ones, no new keys appear, and merging {} or nothing is the identity |
| AgentGraph.PrereqMergeLaws | lang-graph/src/app/api/config/graph.ts:31-34 | the merge is associative, so two Translator updates in a row equal one update carrying their merge, and merging into the empty default gives the update itself |
| AgentGraph.Seed | lang-graph/src/app/api/langchain/route.ts:6-11 | the run starts from the prompt as one human message, sender "user" and empty prereqs |
| AgentGraph.AgentNode | lang-graph/src/app/api/config/graph.ts:38-66 | each agent emits exactly its one message and its own name; only the Translator emits prereqs, and it does so exactly when its output is JSON that `ResponseFormatter` accepts, emitting the parsed record |
| AgentGraph.Router | lang-graph/src/app/api/config/graph.ts:132-156 | a Translator state with an empty prereq ends; otherwise the marker ends, else tool calls call the tool, else continue; an empty log has no last message |
| AgentGraph.MarkerBeatsToolCalls | lang-graph/src/app/api/config/graph.ts:144-153 | a last message with both the marker and tool calls ends the run, whatever the sender; a Translator state with an unfilled prereq ends before the message is read |
| AgentGraph.TranslatorGapSkipsResearch | lang-graph/src/app/api/config/graph.ts:136-143 | a Translator that parses an empty prereq merges its prereqs and goes straight to the Responder, whatever its message says |
| AgentGraph.AgentEdge | lang-graph/src/app/api/config/graph.ts:164-176 | every label leads to a declared node other than the Translator; only "call_tool" leads to the tool node; "end" leads to the Responder; the Translator continues to the Researcher, the Researcher to the Responder |
| AgentGraph.ToolEdge | lang-graph/src/app/api/config/graph.ts:178-187 | the tool node's path map has a branch exactly for senders "Researcher" and "Translator", both leading to the Researcher |
| AgentGraph.ToolLoopsBack | lang-graph/src/app/api/config/graph.ts:178-187 | after the tool node, the run returns to the Researcher exactly when the sender is one of the two agents |
| AgentGraph.TerminalOnlyAfterResponder | lang-graph/src/app/api/config/graph.ts:189 | END follows the Responder always and no other node ever |
| AgentGraph.Step | lang-graph/src/app/api/config/graph.ts:23-66 | a step only appends; an agent step adds one message and stamps its name; a tool step keeps sender and prereqs; only the Translator can fail |
| AgentGraph.RunAppendOnly | lang-graph/src/app/api/config/graph.ts:24-26 | over any number of steps the starting log is a prefix of the final log |
| AgentGraph.RunKeepsFirstMessage | lang-graph/src/app/api/config/graph.ts:24-26 | the first message of a non-empty log is still first at the end of a run |
| AgentGraph.RunFinishesAtResponder | lang-graph/src/app/api/config/graph.ts:158-191 | a run that reaches END does so from the Responder |
| AgentGraph.StepKeepsRoutable | lang-graph/src/app/api/config/graph.ts:132-187 | from a non-empty log, routing after a successful step never fails, and the tool node is entered only with an agent as sender |
| AgentGraph.RunFaultsArePayloadFaults | lang-graph/src/app/api/config/graph.ts:49-66 | from a routable state, a run can only stop on the Translator's output not being JSON or being rejected by `ResponseFormatter` |
| AgentGraph.SeededRunOutcomes | lang-graph/src/app/api/langchain/route.ts:6-14 | for any budget, the prompt stays the first message, a finished run ended at the Responder, and any fault is a payload fault |
| AgentGraph.InvokeOutcomes | lang-graph/src/app/api/langchain/route.ts:6-14 | the same for the handler's budget of 150 steps |
| PyGraph.AgentNode | lang-graph-python/tools/graph.py:31-53 | the returned state is the old log plus exactly one message, the node's name and the incoming prereqs, for the Translator too; the Translator fails exactly when its output is not a JSON object with a "prereqs" key |
| PyGraph.Router | lang-graph-python/tools/graph.py:97-116 | with lines 110 and 113 read as intended: an empty log fails; a Translator state continues whether or not a prereq is empty; otherwise the marker ends, else tool calls call the tool, else continue |
| PyGraph.RouterAsWritten | lang-graph-python/tools/graph.py:97-110 | as written: an empty log fails, a Translator state continues, and every other state raises at line 110 |
| PyGraph.RouterAsWrittenRaisesOnFinalAnswer | lang-graph-python/tools/graph.py:110 | a Researcher reply carrying the marker ends under the intended router but raises as written |
| PyGraph.AgentEdge | lang-graph-python/tools/graph.py:128-138 | the Translator continues to the Researcher; the Researcher's "continue" and "end" both lead to the Responder; only "call_tool" leads to the tool node |
| PyGraph.ToolEdge | lang-graph-python/tools/graph.py:140-144 | the tool node has a branch exactly for senders "Researcher" and "Translator", both to the Researcher |
| PyGraph.TranslatorThenResearcher | lang-graph-python/tools/graph.py:102-108 | whatever the Translator returns, the next node is the Researcher |
| PyGraph.ResearcherThenResponder | lang-graph-python/tools/graph.py:134-138 | the Researcher's "continue" and "end" both go to the Responder |
| PyGraph.TerminalOnlyAfterResponder | lang-graph-python/tools/graph.py:147 | END follows the Responder always and no other node ever |
| PyGraph.Step | lang-graph-python/tools/graph.py:31-53 | a step only appends, never changes the prereqs, stamps an agent's name, keeps the sender across a tool step, and can fail only at the Translator |
| PyGraph.RunAppendOnly | lang-graph-python/tools/graph.py:41-53 | with the tool node appending, under either reading of the router: over a run the log only grows and the prereqs never change |
| PyGraph.RunFinishesAtResponder | lang-graph-python/tools/graph.py:128-147 | under either reading of the router, a run that reaches END does so from the Responder |
| PyGraph.StepKeepsRoutable | lang-graph-python/tools/graph.py:97-144 | with line 110 read as intended and the tool node appending: routing after a successful step never fails, and the tool node is entered only from the Researcher |
| PyGraph.RunFaultsArePayloadFaults | lang-graph-python/tools/graph.py:37-39 | with line 110 read as intended and the tool node appending, a run can only stop on the Translator's output not being JSON or lacking "prereqs" |
| PyGraph.SeededRunOutcomes | lang-graph-python/tools/weather.py:12-23 | with line 110 read as intended and the tool node appending, for any budget from the handler's seed, the prompt stays first, the returned form data is always {}, a finished run ended at the Responder, and any fault is a payload fault |
| PyGraph.InvokeOutcomes | lang-graph-python/tools/weather.py:14-23 | with line 110 read as intended and the tool node appending, the same for the handler's budget of 150 steps |
| PyGraph.SeededRunAsWritten | lang-graph-python/tools/graph.py:97-116 | with the router as written, a seeded run with a budget of at least two steps always aborts: on the Translator's payload, or at line 110 once the Researcher has replied |
| PyGraph.InvokeAsWrittenNeverFinishes | lang-graph-python/tools/weather.py:14-23 | as written, the `/workflow` handler's run always aborts, so it never returns content or form data |
| ExperimentalGraph.AgentNode | lang-graph/src/components/test/Graph.tsx:20-28 | exactly one message with the same content and the node's name as sender; a reply with tool calls is passed on, one without is re-issued as a human message named after the node |
| ExperimentalGraph.Router | lang-graph/src/components/test/Graph.tsx:72-87 | an empty log fails; tool calls come first; without them the marker ends and anything else continues |
| ExperimentalGraph.ToolCallsBeatMarker | lang-graph/src/components/test/Graph.tsx:75-78 | a reply with tool calls goes to the tool node even when it carries the marker |
| ExperimentalGraph.ReissuedMessageNeverCallsTool | lang-graph/src/components/test/Graph.tsx:20-23 | after a reply without tool calls the router never picks the tool node |
| ExperimentalGraph.AgentEdge | lang-graph/src/components/test/Graph.tsx:100-112 | "end" leads to END and only it; "call_tool" leads to the tool node and only it; "continue" hands over to the other agent |
| ExperimentalGraph.ContinueAlternates | lang-graph/src/components/test/Graph.tsx:100-112 | two "continue" hand-offs return to the starting agent |
| ExperimentalGraph.ToolEdge | lang-graph/src/components/test/Graph.tsx:114-125 | the tool node has a branch exactly for the two agents' names, each back to the agent of that name |
| ExperimentalGraph.ToolReturnsToCaller | lang-graph/src/components/test/Graph.tsx:114-125 | since the tool node writes no sender, it returns to the agent that requested the tool |

## Left out

- Model, search and thread services are not modelled. This covers the chat model calls, Tavily, and the OpenAI thread, assistant and completion calls (`createThread`, `deleteThread`, `runThread`, `createAssistant`). They are network clients; their output is a parameter (an oracle or a `complete` function).
- `createAgent` / `create_agent` prompt building is left out apart from the tool-name join. It only fills a prompt template for an external model.
- The JSON output parser is an opaque `Option<Json>` supplied with each reply. Its text parsing is library behaviour.
- JSON numbers are integers. Floats play no part in the validated schemas.
- LangGraph's `StateGraph`, `ToolNode` and recursion-limit accounting are not modelled. The drivers are fuel-bounded abstractions: one unit of fuel per node step.
- PyGraph.ToolStep: the Python tool node is modelled as appending its messages and keeping the sender. The library would not do that. The `messages` key of the reducer-less `TypedDict` state keeps only the last value written, so the tool node's `{"messages": [...]}` would replace the log with the tool messages, and the prompt would no longer be first. The run lemmas of `PyGraph` hold for the appending tool node only.
- PyGraph.Router: `last_msg["content"]` and `last_msg["tool_calls"]` (graph.py:110 and 113) are read as attribute accesses. Subscripting a message object raises a `TypeError`, so line 113 would raise as well even with line 110 repaired.
- Graph.tsx has no driver. The file does not parse as written (lines 59-69), and its `AgentState` module is not part of this model. Its streaming and console printing are also left out.
- `readStream` does no UTF-8 decoding. Chunks arrive already decoded and lengths count characters, not UTF-16 code units.
- The reader-undefined early return and the React components are left out. They are UI and I/O.
- The HTTP handlers are used only for the seed state and the step budget. Their JSON responses are not modelled.
- `recent(n)` is defined for integer n only. Fractional or non-numeric JavaScript arguments are not modelled.
- Bot.Bot: `lang-graph/src/lib/ChatHistory.ts`, which `bot.ts` imports, is not part of this model. Its history behaviour is taken from `chatbot-starter/lib/ChatHistory.ts` (`add` pushes one entry and keeps the rest in order). `bot.ts` only calls `add` and reads the entries, so the contract depends on nothing more than that.
- The `ChatHistory` constructor's aliasing of the caller's array is not modelled, because the log is an immutable value.
- The tutorial's module-level script (its `agent_state` dictionaries, prompt and printing) is left out. It is a one-off demonstration run against the live services.
- Tutorial.GetItem: `SearchToolInput.__getitem__` is modelled for its two fields only. Every other name is modelled as an `AttributeError`, although Python `getattr` returns methods and model metadata for names such as "copy", "dict" or "model_fields".
- Logging and environment loading are left out.

## Findings

| source | as written | input that shows it | evidently intended | confidence | as-written member | corrected member |
|---|---|---|---|---|---|---|
| lang-graph-python/tools/graph.py:110 | `type(last_msg["content"] is str)` is the class `bool`, which is always truthy, so the test never short-circuits; and `last_msg["content"]` subscripts a message object, which has no `__getitem__`, so the router raises for every sender other than the Translator (`.contains` is not a message method either) | a state whose sender is "Researcher" and whose last message is an AI message "FINAL ANSWER: 12C" without tool calls | a string content containing "FINAL ANSWER" routes to "end", as in graph.ts:144-149; line 113's `last_msg["tool_calls"]` is likewise meant as the message's tool calls | high, not executed | PyGraph.RouterAsWritten, PyGraph.RouterAsWrittenRaisesOnFinalAnswer, PyGraph.SeededRunAsWritten | PyGraph.Router |
