/** The pure parts of lang-graph/src/lib/bot.ts: the history bracketing and
    reply rewrite of `bot`, the request `updateThread` builds, and the
    mapping `getThreadMessages` applies. The completion service and the
    thread API are parameters or left out. */
module Bot {
  import opened Wrappers
  import opened Markdown
  import opened History

  /** The log after `bot`, and the reply it returns; `None` stands for the
      TypeError `reply!.replace` raises when the service sent no content. */
  datatype BotOutcome = BotOutcome(history: ChatHistory, reply: Option<string>)

  /** `bot(prompt, chatHistory)` with the completion service given as
      `complete`, which sees the log after the prompt was added. */
  function Bot(prompt: string, h: ChatHistory, complete: seq<Message> -> Option<string>): (r: BotOutcome)
    ensures var asked := h.data + [Message(User, prompt)];
            && (r.reply.Some? <==> complete(asked).Some?)
            && |r.history.data| == |h.data| + (if r.reply.Some? then 2 else 1)
            && r.history.data[..|h.data| + 1] == asked
            && (r.reply.Some? ==> r.reply.value == Unescape(complete(asked).value))
            && (r.reply.Some? ==> r.history.data[|h.data| + 1] == Message(Assistant, r.reply.value))
            && (r.reply.Some? ==> NoEscapes(r.reply.value))
  {
    var asked := Add(h, User, prompt);
    var answer := complete(asked.data);
    if answer.None? then
      BotOutcome(asked, None)
    else
      var reply := ProcessMarkdown(answer.value);
      ProcessMarkdownIsUnescape(answer.value);
      ProcessMarkdownProperties(answer.value);
      var done := Add(asked, Assistant, reply);
      assert done.data[..|h.data| + 1] == asked.data;
      BotOutcome(done, Some(reply))
  }

  /** The string `bot` returns is the content of the last log entry. */
  lemma BotReturnsLastEntry(prompt: string, h: ChatHistory, complete: seq<Message> -> Option<string>)
    ensures var r := Bot(prompt, h, complete);
            r.reply.Some? ==> r.history.data[|r.history.data| - 1].content == r.reply.value
  {
  }

  datatype Attachment = Attachment(fileId: string)

  /** The message body `updateThread` sends to the thread API. */
  datatype ThreadMessageRequest = ThreadMessageRequest(role: Role, content: string, attachments: Option<seq<Attachment>>)

  /** `updateThread(id, role, content, fileid?)`: attachments are present
      exactly when a file id is given (an empty id included), and then there
      is one attachment carrying it. */
  function UpdateThreadMessage(role: Role, content: string, fileId: Option<string>): (m: ThreadMessageRequest)
    ensures m.role == role && m.content == content
    ensures m.attachments.Some? <==> fileId.Some?
    ensures fileId.Some? ==> |m.attachments.value| == 1 && m.attachments.value[0].fileId == fileId.value
  {
    var base := ThreadMessageRequest(role, content, None);
    if fileId.Some? then base.(attachments := Some([Attachment(fileId.value)])) else base
  }

  /** One part of a thread message as the thread API returns it. */
  datatype ContentPart = TextPart(value: string) | ImageFilePart(fileId: string) | ImageUrlPart(url: string) | RefusalPart(refusal: string)

  datatype ThreadMessage = ThreadMessage(role: Role, content: seq<ContentPart>)

  /** `MessageItem` of bot.ts. */
  datatype MessageItem = MessageItem(from: Role, content: string)

  /** The shown text of one thread message; `tm.content[0]` of an empty part
      list is undefined and reading `.type` of it throws. */
  function ToItem(tm: ThreadMessage): Option<MessageItem> {
    if |tm.content| == 0 then None
    else if tm.content[0].TextPart? then Some(MessageItem(tm.role, tm.content[0].value))
    else Some(MessageItem(tm.role, ""))
  }

  /** `getThreadMessages`' mapping: one item per message, in order, with the
      role copied and the text of the first part when it is text, else "". */
  function ToItems(data: seq<ThreadMessage>): (r: Option<seq<MessageItem>>)
    ensures r.Some? <==> forall i :: 0 <= i < |data| ==> |data[i].content| > 0
    ensures r.Some? ==> |r.value| == |data|
    ensures r.Some? ==> forall i :: 0 <= i < |data| ==> r.value[i].from == data[i].role
    ensures r.Some? ==> forall i :: 0 <= i < |data| ==>
              r.value[i].content == (if data[i].content[0].TextPart? then data[i].content[0].value else "")
    decreases |data|
  {
    if |data| == 0 then Some([])
    else
      var head := ToItem(data[0]);
      var rest := ToItems(data[1..]);
      if head.None? then None
      else if rest.None? then
        assert exists i :: 0 <= i < |data| && |data[i].content| == 0 by {
          var j :| 0 <= j < |data[1..]| && |data[1..][j].content| == 0;
          assert data[j + 1] == data[1..][j];
        }
        None
      else Some([head.value] + rest.value)
  }
}
