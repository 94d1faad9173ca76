/** chatbot-starter/lib/ChatHistory.ts: an append-only chat log with a
    formatter for its most recent entries. The class is modelled as an
    immutable value; `add` returns the grown log. */
module History {
  import opened Strings

  datatype Role = User | Assistant

  function RoleName(r: Role): string {
    match r
    case User => "user"
    case Assistant => "assistant"
  }

  datatype Message = Message(role: Role, content: string)

  datatype ChatHistory = ChatHistory(data: seq<Message>)

  /** The default argument of `recent`. */
  const DefaultRecentCount: int := 5

  /** `new ChatHistory()`: the default argument is an empty log. */
  function Empty(): (h: ChatHistory)
    ensures |h.data| == 0
  {
    ChatHistory([])
  }

  /** `add(from, content)`: one entry at the end, earlier entries untouched. */
  function Add(h: ChatHistory, from: Role, content: string): (r: ChatHistory)
    ensures |r.data| == |h.data| + 1
    ensures r.data[..|h.data|] == h.data
    ensures r.data[|h.data|] == Message(from, content)
  {
    ChatHistory(h.data + [Message(from, content)])
  }

  /** One formatted entry: `[i] role: content`. */
  function Line(i: nat, m: Message): string {
    "[" + NatToString(i) + "] " + RoleName(m.role) + ": " + m.content
  }

  /** Entries formatted with their position in `ms`, counting from 0. */
  function Lines(ms: seq<Message>): (ls: seq<string>)
    ensures |ls| == |ms|
    ensures forall i :: 0 <= i < |ms| ==> ls[i] == Line(i, ms[i])
  {
    seq(|ms|, i requires 0 <= i < |ms| => Line(i, ms[i]))
  }

  function Min(a: int, b: int): int {
    if a <= b then a else b
  }

  /** `recent(n)`: `slice(-n)`, format, join with newlines. For n >= 1 the
      last min(n, |data|) entries; for n == 0 every entry, since -0 is 0;
      for n < 0 everything after the first -n entries. */
  function Recent(h: ChatHistory, n: int): (r: string)
    ensures n >= 1 ==> r == Join(Lines(h.data[|h.data| - Min(n, |h.data|)..]), "\n")
    ensures n == 0 ==> r == Join(Lines(h.data), "\n")
    ensures n < 0 ==> r == Join(Lines(h.data[Min(-n, |h.data|)..]), "\n")
    ensures |h.data| == 0 ==> r == ""
  {
    JsSliceNegativeStart(h.data, if n >= 0 then n else 0);
    assert h.data[0..] == h.data;
    Join(Lines(JsSlice(h.data, -n, |h.data|)), "\n")
  }

  /** `recent()` with its default argument. */
  function RecentDefault(h: ChatHistory): string {
    Recent(h, DefaultRecentCount)
  }

  /** `recent(0)` formats the whole log, the same as asking for all of it. */
  lemma RecentZeroIsEverything(h: ChatHistory)
    ensures Recent(h, 0) == Recent(h, |h.data|)
    ensures Recent(h, 0) == Recent(h, |h.data| + 1)
  {
    assert h.data[0..] == h.data;
  }

  /** After `add`, `recent(1)` is exactly the new entry, numbered 0. */
  lemma RecentAfterAdd(h: ChatHistory, from: Role, content: string)
    ensures Recent(Add(h, from, content), 1) == "[0] " + RoleName(from) + ": " + content
  {
    var g := Add(h, from, content);
    assert g.data[|g.data| - 1..] == [Message(from, content)];
    assert NatToString(0) == "0";
  }

  /** With the default argument, the five latest entries are shown,
      numbered from 0; a shorter log is shown whole. */
  lemma RecentDefaultShowsLastFive(h: ChatHistory)
    ensures |h.data| >= 5 ==> RecentDefault(h) == Recent(ChatHistory(h.data[|h.data| - 5..]), 0)
    ensures |h.data| < 5 ==> RecentDefault(h) == Recent(h, 0)
  {
    if |h.data| >= 5 {
      var last := h.data[|h.data| - 5..];
      assert last[0..] == last;
    }
    assert h.data[0..] == h.data;
  }

  /** In particular a log of six entries loses its first. */
  lemma RecentDefaultDropsOldest(h: ChatHistory)
    requires |h.data| == 6
    ensures RecentDefault(h) == Recent(ChatHistory(h.data[1..]), 0)
  {
    RecentDefaultShowsLastFive(h);
  }
}
