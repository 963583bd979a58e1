/**
 The pi session log as the reader sees it after `JSON.parse`, and what one record contributes on its own:
 `pi-file-transcript-reader.ts`, type guards and content conversions.
 */
module PiLog {
  import opened Contracts

  /** One element of a pi message's content array; `Unknown` is whatever the type guard rejects. */
  datatype PiItem =
    | PiText(text: string)
    | PiMedia(kind: MediaKind, url: string)
    | PiThinking(thinking: string)
    | PiToolCall(id: string, name: string, arguments: Option<string>)
    | PiUnknown

  datatype Role = UserRole | AssistantRole | ToolResultRole

  /**
   `stopsForTools` is `stopReason === "toolUse"`; a content field that is not an array reads as empty. `createdAt` is
   the date of a numeric timestamp as text, or the record's own time when the message has none.
   */
  datatype Message = Message(
    id: string, parentId: Option<string>, timestamp: Option<real>, createdAt: string, role: Role, content: seq<PiItem>,
    toolCallId: Option<string>, toolName: Option<string>, isError: bool, stopsForTools: bool)

  datatype ManagedItem =
    | ManagedText(text: string)
    | ManagedToolCall(toolCallId: string, toolName: string, status: ToolStatus,
                      arguments: Option<string>, result: Option<string>, error: Option<string>)
    | ManagedUnknown

  datatype Field<+T> = Absent | NotArray | Items(items: seq<T>)

  datatype EntryKind = UserKind | ProcessKind | AssistantKind

  datatype ManagedEntry = ManagedEntry(
    id: string, parentId: Option<string>, createdAt: string, kind: EntryKind,
    content: Field<ManagedItem>, input: Field<ManagedItem>)

  /** A non-blank line of the file: not JSON, a record of no interest, a managed entry or a pi message. */
  datatype Line =
    | Malformed
    | Ignored
    | Managed(entry: ManagedEntry)
    | Pi(message: Message)

  // ----- content of pi messages -----

  function UserItem(item: PiItem): seq<ContentItem> {
    match item
    case PiText(text) => [Text(text)]
    case PiMedia(kind, url) => [Media(kind, url)]
    case _ => []
  }

  method ToUserContent(content: seq<PiItem>) returns (normalized: seq<ContentItem>)
    ensures normalized == FlatMap(UserItem, content)
  {
    normalized := [];
    for i := 0 to |content|
      invariant normalized == FlatMap(UserItem, content[..i])
    {
      FlatMapSnoc(UserItem, content, i);
      match content[i] {
        case PiText(text) => normalized := normalized + [Text(text)];
        case PiMedia(kind, url) => normalized := normalized + [Media(kind, url)];
        case _ =>
      }
    }
    assert content[..|content|] == content;
  }

  function ThinkingItem(item: PiItem): seq<ContentItem> {
    if item.PiThinking? then [Text(item.thinking)] else []
  }

  function ToProcessContent(content: seq<PiItem>): seq<ContentItem> {
    FlatMap(ThinkingItem, content)
  }

  function TextOf(item: PiItem): string {
    if item.PiText? then item.text else ""
  }

  /** The texts of a message joined: assistant text and tool result text alike. */
  function ToAssistantText(content: seq<PiItem>): string {
    FlatMap(TextOf, content)
  }

  function FirstToolCall(content: seq<PiItem>): (i: nat)
    ensures i <= |content|
    ensures forall k :: 0 <= k < i ==> !content[k].PiToolCall?
    ensures i < |content| ==> content[i].PiToolCall?
  {
    if content == [] || content[0].PiToolCall? then 0 else 1 + FirstToolCall(content[1..])
  }

  function ToAssistantPreamble(content: seq<PiItem>): string {
    ToAssistantText(content[..FirstToolCall(content)])
  }

  /** The preamble is the text before the first tool call, so text around tool calls is never shown twice. */
  lemma {:induction false} PreambleIsTextBeforeTools(content: seq<PiItem>)
    ensures exists k | 0 <= k <= |content| ::
              && (forall j :: 0 <= j < k ==> !content[j].PiToolCall?)
              && (k < |content| ==> content[k].PiToolCall?)
              && ToAssistantText(content) == ToAssistantPreamble(content) + ToAssistantText(content[k..])
  {
    var k := FirstToolCall(content);
    assert content == content[..k] + content[k..];
    FlatMapAppend(TextOf, content[..k], content[k..]);
  }

  function StartedCall(item: PiItem): seq<ContentItem> {
    if item.PiToolCall? then [ToolCall(item.id, item.name, Started, item.arguments, None, None)] else []
  }

  function ToToolCallContent(content: seq<PiItem>): seq<ContentItem> {
    FlatMap(StartedCall, content)
  }

  /** What a tool result adds to the process entry it belongs to. */
  function ResultItem(m: Message): ContentItem {
    ToolCall(GetOr(m.toolCallId, m.id), GetOr(m.toolName, "tool"), if m.isError then Error else Completed,
             None, Some(ToAssistantText(m.content)), None)
  }

  /** Thinking, then the preamble unless empty, then the started calls. */
  function ToolUseContent(m: Message): seq<ContentItem> {
    ToProcessContent(m.content)
    + (if |ToAssistantPreamble(m.content)| > 0 then [Text(ToAssistantPreamble(m.content))] else [])
    + ToToolCallContent(m.content)
  }

  // ----- managed entries (mock transcripts) -----

  function ManagedContentItem(item: ManagedItem): seq<ContentItem> {
    match item
    case ManagedText(text) => [Text(text)]
    case ManagedToolCall(id, name, status, arguments, result, error) =>
      [ToolCall(id, name, status, NonEmpty(arguments), NonEmpty(result), NonEmpty(error))]
    case ManagedUnknown => []
  }

  method ToManagedTranscriptContent(content: seq<ManagedItem>) returns (normalized: seq<ContentItem>)
    ensures normalized == FlatMap(ManagedContentItem, content)
  {
    normalized := [];
    for i := 0 to |content|
      invariant normalized == FlatMap(ManagedContentItem, content[..i])
    {
      FlatMapSnoc(ManagedContentItem, content, i);
      match content[i] {
        case ManagedText(text) => normalized := normalized + [Text(text)];
        case ManagedToolCall(id, name, status, arguments, result, error) =>
          normalized := normalized +
            [ToolCall(id, name, status, NonEmpty(arguments), NonEmpty(result), NonEmpty(error))];
        case ManagedUnknown =>
      }
    }
    assert content[..|content|] == content;
  }

  function ManagedInputItem(item: ManagedItem): seq<ContentItem> {
    if item.ManagedText? then [Text(item.text)] else []
  }

  function ArrayOrEmpty<T>(field: Field<T>): seq<T> {
    if field.Items? then field.items else []
  }

  /** The field a user entry's input is read from: its own input array, else its content. */
  function InputField(entry: ManagedEntry): Field<ManagedItem> {
    if entry.input.Items? then entry.input else entry.content
  }

  /** The entry a managed record stands for; process and assistant records without a parent are skipped. */
  function ManagedEntries(entry: ManagedEntry): seq<Entry> {
    var content := FlatMap(ManagedContentItem, ArrayOrEmpty(entry.content));
    match entry.kind
    case UserKind =>
      [User(entry.id, entry.parentId, entry.createdAt, content,
            FlatMap(ManagedInputItem, ArrayOrEmpty(InputField(entry))))]
    case ProcessKind =>
      if entry.parentId.None? then [] else [Process(entry.id, entry.parentId.value, entry.createdAt, content)]
    case AssistantKind =>
      if entry.parentId.None? then [] else [Assistant(entry.id, entry.parentId.value, entry.createdAt, content)]
  }

  /** The milliseconds that a date can hold; making text of any other date throws. */
  const LAST_DATE := 8640000000000000.0

  predicate IsDate(timestamp: real) {
    -LAST_DATE <= timestamp <= LAST_DATE
  }

  /**
   Lines the reader throws on: broken JSON, a user record whose content is neither absent nor an array, or a message
   whose timestamp is a number but no date.
   */
  predicate Unreadable(line: Line) {
    || line.Malformed?
    || (line.Managed? && line.entry.kind.UserKind? && InputField(line.entry).NotArray?)
    || (line.Pi? && line.message.timestamp.Some? && !IsDate(line.message.timestamp.value))
  }

  // ----- entry ids -----

  function UserEntryId(id: string): string { "pi_user_" + id }

  function ProcessEntryId(id: string): string { "pi_process_" + id }

  function AssistantEntryId(id: string): string { "pi_assistant_" + id }

  const ORPHAN := "pi_orphan_"

  function OrphanId(id: string): string { ORPHAN + id }

  predicate IsOrphanId(id: string) { ORPHAN <= id }

  /** The three id spaces are disjoint from each other and from the orphan marker, and each is injective. */
  lemma {:induction false} EntryIdsApart(a: string, b: string)
    ensures UserEntryId(a) != ProcessEntryId(b) && UserEntryId(a) != AssistantEntryId(b)
    ensures ProcessEntryId(a) != AssistantEntryId(b)
    ensures UserEntryId(a) == UserEntryId(b) ==> a == b
    ensures ProcessEntryId(a) == ProcessEntryId(b) ==> a == b
    ensures AssistantEntryId(a) == AssistantEntryId(b) ==> a == b
    ensures !IsOrphanId(UserEntryId(a)) && !IsOrphanId(ProcessEntryId(a)) && !IsOrphanId(AssistantEntryId(a))
    ensures IsOrphanId(OrphanId(a))
  {
    assert UserEntryId(a)[3] == 'u' && UserEntryId(b)[3] == 'u';
    assert ProcessEntryId(a)[3] == 'p' && ProcessEntryId(b)[3] == 'p';
    assert AssistantEntryId(a)[3] == 'a' && AssistantEntryId(b)[3] == 'a';
    assert UserEntryId(a)[8..] == a && UserEntryId(b)[8..] == b;
    assert ProcessEntryId(a)[11..] == a && ProcessEntryId(b)[11..] == b;
    assert AssistantEntryId(a)[13..] == a && AssistantEntryId(b)[13..] == b;
    assert ORPHAN[3] == 'o';
  }
}
