/** Conversation messages in the provider's format, and the pairing of tool
    calls with their results. */
module Messages {
  import opened Strings

  datatype Role = User | Assistant

  datatype Block =
    | TextBlock(text: string)
    | ToolUse(id: string, name: string, input: string)
    | ToolResult(toolUseId: string, output: string)
    | OtherBlock(kind: string, data: string)

  datatype Content = Plain(text: string) | Blocks(blocks: seq<Block>)

  datatype Message = Message(role: Role, content: Content)

  type Conversation = seq<Message>

  function UserText(text: string): Message {
    Message(User, Plain(text))
  }

  function AssistantText(text: string): Message {
    Message(Assistant, Plain(text))
  }

  function UseIdsOf(blocks: seq<Block>): seq<string> {
    if blocks == [] then []
    else if blocks[0].ToolUse? then [blocks[0].id] + UseIdsOf(blocks[1..])
    else UseIdsOf(blocks[1..])
  }

  function ResultIdsOf(blocks: seq<Block>): seq<string> {
    if blocks == [] then []
    else if blocks[0].ToolResult? then [blocks[0].toolUseId] + ResultIdsOf(blocks[1..])
    else ResultIdsOf(blocks[1..])
  }

  /** The tool calls a message makes. */
  function UseIds(m: Message): seq<string> {
    if m.role.Assistant? && m.content.Blocks? then UseIdsOf(m.content.blocks) else []
  }

  /** The tool calls a message answers. */
  function ResultIds(m: Message): seq<string> {
    if m.role.User? && m.content.Blocks? then ResultIdsOf(m.content.blocks) else []
  }

  /** Calls left open by the last message. */
  function OpenIds(c: Conversation): seq<string> {
    if c == [] then [] else UseIds(c[|c| - 1])
  }

  /** Every message answers, in order, exactly the calls of the message before it. */
  ghost predicate Linked(c: Conversation) {
    (c != [] ==> ResultIds(c[0]) == []) && forall i :: 0 < i < |c| ==> ResultIds(c[i]) == UseIds(c[i - 1])
  }

  /** What a provider accepts: each message with tool calls is followed at once
      by their results in the same order, and no result stands alone. */
  ghost predicate Paired(c: Conversation) {
    Linked(c) && OpenIds(c) == []
  }

  lemma LinkedAppend(c: Conversation, m: Message)
    requires Linked(c) && ResultIds(m) == OpenIds(c)
    ensures Linked(c + [m]) && OpenIds(c + [m]) == UseIds(m)
  {
  }

  lemma LinkedInit(c: Conversation)
    requires Linked(c) && c != []
    ensures Linked(c[..|c| - 1]) && ResultIds(c[|c| - 1]) == OpenIds(c[..|c| - 1])
  {
  }

  predicate EndsInAssistant(c: Conversation) {
    c != [] && c[|c| - 1].role.Assistant?
  }

  predicate HasToolResult(m: Message) {
    m.content.Blocks? && exists b :: b in m.content.blocks && b.ToolResult?
  }

  /** A history of plain messages is one. */
  lemma PlainIsPaired(c: Conversation)
    requires forall m :: m in c ==> m.content.Plain?
    ensures Paired(c)
  {
    forall i | 0 <= i < |c|
      ensures ResultIds(c[i]) == [] && UseIds(c[i]) == []
    {
      assert c[i] in c;
    }
  }
}
