/**
 What `readSessionEntries` returns, told from the records of the log alone: for every line the entries it brings, their
 ids, links, times and content, item by item.
 */
module PiReading {
  import opened Contracts
  import opened PiLog
  import opened PiTranscript

  // ----- links -----

  predicate IsUser(line: Line) { line.Pi? && line.message.role.UserRole? }

  predicate IsResult(line: Line) { line.Pi? && line.message.role.ToolResultRole? }

  /** An assistant message that stops for its tools, and one that does not. */
  predicate IsCall(line: Line) { line.Pi? && line.message.role.AssistantRole? && line.message.stopsForTools }

  predicate IsAnswer(line: Line) { line.Pi? && line.message.role.AssistantRole? && !line.message.stopsForTools }

  /** Line `i` names the earlier message at line `j` as its parent. */
  predicate IsParent(log: seq<Line>, i: nat, j: nat) {
    && j < i < |log| && log[i].Pi? && log[j].Pi?
    && log[j].message.id != "" && log[i].message.parentId == Some(log[j].message.id)
  }

  /** Parents of tool results, followed from one message to a message that calls tools. */
  ghost predicate IsWalk(log: seq<Line>, walk: seq<nat>) {
    && |walk| > 0 && (forall k :: 0 <= k < |walk| ==> walk[k] < |log|) && IsCall(log[walk[|walk| - 1]])
    && forall k :: 0 <= k < |walk| - 1 ==> IsResult(log[walk[k]]) && IsParent(log, walk[k], walk[k + 1])
  }

  ghost predicate LeadsTo(log: seq<Line>, i: nat, j: nat) {
    exists walk :: IsWalk(log, walk) && walk[0] == i && walk[|walk| - 1] == j
  }

  /** The entry id of a parent that is a user message or an answer. */
  ghost predicate SpokenLink(log: seq<Line>, i: nat, id: string) {
    exists j: nat :: IsParent(log, i, j) && !IsResult(log[j]) && !IsCall(log[j])
                && id == (if IsUser(log[j]) then "pi_user_" else "pi_assistant_") + log[j].message.id
  }

  /** The entry id of the tool calls that a parent is part of. */
  ghost predicate ProcessLink(log: seq<Line>, i: nat, id: string) {
    exists j: nat, k: nat :: IsParent(log, i, j) && LeadsTo(log, j, k) && k < |log| && log[k].Pi?
                   && id == "pi_process_" + log[k].message.id
  }

  lemma {:induction false} ParentIs(log: seq<Line>, i: nat, j: nat)
    requires DistinctIds(log) && i < |log| && log[i].Pi?
    ensures ParentOf(log, i) == Some(j) <==> IsParent(log, i, j)
  {
  }

  lemma {:induction false} SameWalk(log: seq<Line>, walk: seq<nat>)
    requires DistinctIds(log)
    ensures IsToolWalk(log, walk) <==> IsWalk(log, walk)
  {
    hide ParentOf, IsParent;
    if IsToolWalk(log, walk) {
      forall k | 0 <= k < |walk| - 1 ensures IsResult(log[walk[k]]) && IsParent(log, walk[k], walk[k + 1]) {
        ParentIs(log, walk[k], walk[k + 1]);
      }
    }
    if IsWalk(log, walk) {
      forall k | 0 <= k < |walk| - 1
        ensures IsToolResult(log[walk[k]]) && ParentOf(log, walk[k]) == Some(walk[k + 1])
      {
        ParentIs(log, walk[k], walk[k + 1]);
      }
    }
  }

  lemma {:induction false} OwnerIs(log: seq<Line>, i: nat, j: nat)
    requires DistinctIds(log) && i < |log| && log[i].Pi?
    ensures Owner(log, i) == Some(j) <==> LeadsTo(log, i, j)
  {
    OwnerIsEndOfWalk(log, i, j);
    forall walk ensures IsToolWalk(log, walk) <==> IsWalk(log, walk) {
      SameWalk(log, walk);
    }
  }

  lemma {:induction false} AnchorIs(log: seq<Line>, i: nat)
    requires DistinctIds(log) && i < |log| && log[i].Pi?
    ensures forall id :: SpokenLink(log, i, id) <==> Anchor(log, i) == Some(id)
  {
    hide ParentOf;
    forall j: nat ensures ParentOf(log, i) == Some(j) <==> IsParent(log, i, j) {
      ParentIs(log, i, j);
    }
  }

  lemma {:induction false} ChainIs(log: seq<Line>, i: nat)
    requires DistinctIds(log) && i < |log| && log[i].Pi?
    ensures forall id :: ProcessLink(log, i, id) <==> Chain(log, i) == Some(id)
  {
    hide ParentOf, Owner, LeadsTo, IsParent;
    forall j: nat ensures ParentOf(log, i) == Some(j) <==> IsParent(log, i, j) {
      ParentIs(log, i, j);
    }
    if ParentOf(log, i).Some? {
      var j := ParentOf(log, i).value;
      forall k: nat ensures Owner(log, j) == Some(k) <==> LeadsTo(log, j, k) {
        OwnerIs(log, j, k);
      }
      if Owner(log, j).Some? {
        assert LeadsTo(log, j, Owner(log, j).value) && IsParent(log, i, j);
      }
    }
  }

  // ----- content -----

  predicate IsUserPart(item: PiItem) { item.PiText? || item.PiMedia? }

  predicate ShowsUserPart(item: PiItem, shown: ContentItem) {
    match item
    case PiText(text) => shown == Text(text)
    case PiMedia(kind, url) => shown == Media(kind, url)
    case _ => false
  }

  predicate IsThinking(item: PiItem) { item.PiThinking? }

  predicate ShowsThinking(item: PiItem, shown: ContentItem) { item.PiThinking? && shown == Text(item.thinking) }

  predicate IsToolCall(item: PiItem) { item.PiToolCall? }

  predicate ShowsToolCall(item: PiItem, shown: ContentItem) {
    item.PiToolCall? && shown == ToolCall(item.id, item.name, Started, item.arguments, None, None)
  }

  /** The text of each item, empty for all but text items. */
  function Texts(content: seq<PiItem>): (texts: seq<string>)
    ensures |texts| == |content|
    ensures forall i :: 0 <= i < |content| ==> texts[i] == if content[i].PiText? then content[i].text else ""
  {
    seq(|content|, i requires 0 <= i < |content| => if content[i].PiText? then content[i].text else "")
  }

  /** The text before the first tool call. */
  ghost predicate IsPreamble(content: seq<PiItem>, text: string) {
    exists k | 0 <= k <= |content| ::
      && (forall j :: 0 <= j < k ==> !content[j].PiToolCall?) && (k < |content| ==> content[k].PiToolCall?)
      && text == Joined(Texts(content[..k]))
  }

  ghost predicate IsResultOf(log: seq<Line>, i: nat, j: nat) {
    i < |log| && IsResult(log[i]) && LeadsTo(log, i, j)
  }

  /** How many of the first `n` lines are results of the call at line `j`. */
  ghost function ResultRank(log: seq<Line>, j: nat, n: nat): nat {
    if n == 0 then 0 else ResultRank(log, j, n - 1) + if IsResultOf(log, n - 1, j) then 1 else 0
  }

  predicate ShowsResult(m: Message, shown: ContentItem) {
    && shown.ToolCall?
    && shown.toolCallId == (if m.toolCallId.Some? then m.toolCallId.value else m.id)
    && shown.toolName == (if m.toolName.Some? then m.toolName.value else "tool")
    && (m.isError ==> shown.status == Error) && (!m.isError ==> shown.status == Completed)
    && shown.arguments.None? && shown.result == Some(Joined(Texts(m.content))) && shown.error.None?
  }

  /** The results of the call at line `j` among the first `n` lines, each at its rank. */
  ghost predicate AreResults(log: seq<Line>, j: nat, n: nat, results: seq<ContentItem>)
    requires n <= |log|
  {
    && |results| == ResultRank(log, j, n)
    && forall i :: 0 <= i < n && IsResultOf(log, i, j) ==> ResultAt(log, j, results, i)
  }

  ghost predicate ResultAt(log: seq<Line>, j: nat, results: seq<ContentItem>, i: nat)
    requires i < |log| && log[i].Pi?
  {
    ResultRank(log, j, i) < |results| && ShowsResult(log[i].message, results[ResultRank(log, j, i)])
  }

  /** Thinking, the preamble unless it is empty, the calls as started, and the results as they came. */
  ghost predicate IsCallContent(log: seq<Line>, i: nat, shown: seq<ContentItem>)
    requires i < |log| && log[i].Pi?
  {
    exists thinking, preamble, calls, results ::
      AreCallParts(log, i, thinking, preamble, calls, results)
      && shown == thinking + (if preamble == "" then [] else [Text(preamble)]) + calls + results
  }

  ghost predicate AreCallParts(log: seq<Line>, i: nat, thinking: seq<ContentItem>, preamble: string,
                               calls: seq<ContentItem>, results: seq<ContentItem>)
    requires i < |log| && log[i].Pi?
  {
    var content := log[i].message.content;
    && Corresponds(IsThinking, ShowsThinking, content, thinking) && IsPreamble(content, preamble)
    && Corresponds(IsToolCall, ShowsToolCall, content, calls) && AreResults(log, i, |log|, results)
  }

  // ----- records of the mock executor -----

  predicate IsKnown(item: ManagedItem) { !item.ManagedUnknown? }

  predicate ShowsKnown(item: ManagedItem, shown: ContentItem) {
    match item
    case ManagedText(text) => shown == Text(text)
    case ManagedToolCall(id, name, status, arguments, result, error) =>
      && shown.ToolCall? && shown.toolCallId == id && shown.toolName == name && shown.status == status
      && ShowsOptional(arguments, shown.arguments) && ShowsOptional(result, shown.result)
      && ShowsOptional(error, shown.error)
    case ManagedUnknown => false
  }

  predicate IsManagedText(item: ManagedItem) { item.ManagedText? }

  predicate ShowsManagedText(item: ManagedItem, shown: ContentItem) { item.ManagedText? && shown == Text(item.text) }

  ghost predicate ShowsField<T(!new)>(counts: T -> bool, shows: (T, ContentItem) -> bool, field: Field<T>,
                                      shown: seq<ContentItem>)
  {
    if field.Items? then Corresponds(counts, shows, field.items, shown) else shown == []
  }

  ghost predicate IsManagedPart(record: ManagedEntry, part: seq<Entry>) {
    if record.kind.UserKind? then
      && |part| == 1 && part[0].User? && part[0].id == record.id && part[0].rootOrParent == record.parentId
      && part[0].createdAt == record.createdAt && ShowsField(IsKnown, ShowsKnown, record.content, part[0].content)
      && ShowsField(IsManagedText, ShowsManagedText,
                    if record.input.Items? then record.input else record.content, part[0].input)
    else if record.parentId.None? || (record.kind.ProcessKind? && "pi_orphan_" <= record.parentId.value) then part == []
    else
      && |part| == 1
      && (record.kind.ProcessKind? ==> part[0].Process?) && (record.kind.AssistantKind? ==> part[0].Assistant?)
      && part[0].id == record.id && part[0].parentId == record.parentId.value && part[0].createdAt == record.createdAt
      && ShowsField(IsKnown, ShowsKnown, record.content, part[0].content)
  }

  // ----- what a line brings -----

  ghost predicate IsUserEntry(log: seq<Line>, i: nat, entry: Entry)
    requires i < |log| && log[i].Pi?
  {
    var m := log[i].message;
    && entry.User? && entry.id == "pi_user_" + m.id && entry.createdAt == m.createdAt
    && (forall id :: entry.rootOrParent == Some(id) <==> SpokenLink(log, i, id))
    && Corresponds(IsUserPart, ShowsUserPart, m.content, entry.content) && entry.input == entry.content
  }

  /** A link of either kind; a line has at most one. */
  ghost predicate IsLink(log: seq<Line>, i: nat, id: string) {
    SpokenLink(log, i, id) || ProcessLink(log, i, id)
  }

  ghost predicate IsProcessEntry(log: seq<Line>, i: nat, entry: Entry)
    requires i < |log| && log[i].Pi?
  {
    && entry.Process? && entry.id == "pi_process_" + log[i].message.id && entry.createdAt == log[i].message.createdAt
    && IsLink(log, i, entry.parentId)
  }

  ghost predicate IsAnswerEntry(log: seq<Line>, i: nat, entry: Entry)
    requires i < |log| && log[i].Pi?
  {
    && entry.Assistant? && entry.id == "pi_assistant_" + log[i].message.id
    && entry.createdAt == log[i].message.createdAt
    && (if exists id :: ProcessLink(log, i, id) then ProcessLink(log, i, entry.parentId)
        else entry.parentId == "pi_process_" + log[i].message.id)
    && entry.content == [Text(Joined(Texts(log[i].message.content)))]
  }

  /**
   The entries of the result that line `i` brings: a user message its user entry, tool calls one process entry, an
   answer that does not end a chain of calls a process entry and an assistant entry. A process entry without a link is
   left out.
   */
  ghost predicate ReadsAs(log: seq<Line>, i: nat, part: seq<Entry>)
    requires i < |log|
  {
    match log[i]
    case Malformed => part == []
    case Ignored => part == []
    case Managed(record) => IsManagedPart(record, part)
    case Pi(m) =>
      if m.role.UserRole? then |part| == 1 && IsUserEntry(log, i, part[0])
      else if m.role.ToolResultRole? then part == []
      else if m.stopsForTools then
        if exists id :: IsLink(log, i, id) then
          |part| == 1 && IsProcessEntry(log, i, part[0]) && IsCallContent(log, i, part[0].content)
        else part == []
      else if (exists id :: ProcessLink(log, i, id)) || !(exists id :: SpokenLink(log, i, id)) then
        |part| == 1 && IsAnswerEntry(log, i, part[0])
      else
        && |part| == 2 && IsProcessEntry(log, i, part[0]) && IsAnswerEntry(log, i, part[1])
        && Corresponds(IsThinking, ShowsThinking, m.content, part[0].content)
  }

  // ----- every log is read like that -----

  lemma {:induction false} JoinedTexts(content: seq<PiItem>)
    ensures ToAssistantText(content) == Joined(Texts(content))
  {
    FlatMapJoins(TextOf, content, Texts(content));
  }

  lemma {:induction false} PreambleIs(content: seq<PiItem>)
    ensures IsPreamble(content, ToAssistantPreamble(content))
  {
    var k := FirstToolCall(content);
    JoinedTexts(content[..k]);
  }

  lemma {:induction false} ResultsAre(log: seq<Line>, j: nat, n: nat)
    requires DistinctIds(log) && j < n <= |log| && IsToolUse(log[j])
    ensures AreResults(log, j, n, ResultsOf(log, j, n))
  {
    hide ShowsResult, LeadsTo, Owner, ResultItem;
    if n == j + 1 {
      NoResultsYet(log, j, n);
    } else {
      ResultsAre(log, j, n - 1);
      if log[n - 1].Pi? {
        OwnerIs(log, n - 1, j);
      }
      if Delivers(log, n - 1, j) {
        ResultShows(log[n - 1].message);
      }
      NextResult(log, j, n, ResultsOf(log, j, n - 1), ResultsOf(log, j, n));
    }
  }

  lemma {:induction false} ResultShows(m: Message)
    ensures ShowsResult(m, ResultItem(m))
  {
    JoinedTexts(m.content);
  }

  /** Results come after their calls. */
  lemma {:induction false} NoResultsYet(log: seq<Line>, j: nat, n: nat)
    requires DistinctIds(log) && n <= j + 1 <= |log| && IsToolUse(log[j])
    ensures ResultRank(log, j, n) == 0 && forall i :: 0 <= i < n ==> !IsResultOf(log, i, j)
  {
    if n > 0 {
      NoResultsYet(log, j, n - 1);
      if log[n - 1].Pi? {
        OwnerIs(log, n - 1, j);
      }
    }
  }

  lemma {:induction false} NextResult(log: seq<Line>, j: nat, n: nat, before: seq<ContentItem>, after: seq<ContentItem>)
    requires 0 < n <= |log| && AreResults(log, j, n - 1, before)
    requires if IsResultOf(log, n - 1, j) then |after| == |before| + 1 && after == before + [after[|after| - 1]]
                                               && ShowsResult(log[n - 1].message, after[|after| - 1])
             else after == before
    ensures AreResults(log, j, n, after)
  {
    hide ShowsResult, LeadsTo;
    forall i | 0 <= i < n && IsResultOf(log, i, j) ensures ResultAt(log, j, after, i) {
      if i < n - 1 {
        assert ResultAt(log, j, before, i);
      }
    }
  }

  lemma {:induction false} ManagedReadsAs(record: ManagedEntry)
    ensures IsManagedPart(record, DropOrphans(ManagedEntries(record)))
  {
    ContentReadsAs(ArrayOrEmpty(record.content));
    InputReadsAs(ArrayOrEmpty(InputField(record)));
    var entries := ManagedEntries(record);
    if entries != [] {
      assert entries == [entries[0]] && entries[..0] == [];
      assert DropOrphans(entries[..0]) == [];
    }
  }

  lemma {:induction false} ContentReadsAs(items: seq<ManagedItem>)
    ensures Corresponds(IsKnown, ShowsKnown, items, FlatMap(ManagedContentItem, items))
    ensures items == [] ==> FlatMap(ManagedContentItem, items) == []
  {
    FlatMapCorresponds(IsKnown, ShowsKnown, ManagedContentItem, items);
  }

  lemma {:induction false} InputReadsAs(items: seq<ManagedItem>)
    ensures Corresponds(IsManagedText, ShowsManagedText, items, FlatMap(ManagedInputItem, items))
    ensures items == [] ==> FlatMap(ManagedInputItem, items) == []
  {
    FlatMapCorresponds(IsManagedText, ShowsManagedText, ManagedInputItem, items);
  }

  lemma {:induction false} UserReadsAs(log: seq<Line>, i: nat)
    requires DistinctIds(log) && i < |log| && IsUser(log[i])
    ensures |EntriesOf(log, i, |log|)| == 1 && EntriesOf(log, i, |log|)[0].User?
    ensures IsUserEntry(log, i, EntriesOf(log, i, |log|)[0])
  {
    hide SpokenLink, Anchor;
    AnchorIs(log, i);
    FlatMapCorresponds(IsUserPart, ShowsUserPart, UserItem, log[i].message.content);
  }

  lemma {:induction false} CallReadsAs(log: seq<Line>, i: nat)
    requires DistinctIds(log) && i < |log| && IsCall(log[i])
    ensures |EntriesOf(log, i, |log|)| == 1
    ensures var entry := EntriesOf(log, i, |log|)[0];
            && entry.Process? && entry.id == "pi_process_" + log[i].message.id
            && entry.createdAt == log[i].message.createdAt && entry.parentId == ProcessParent(log, i)
            && IsCallContent(log, i, entry.content)
  {
    hide ProcessParent, ResultsOf, FlatMap, AreResults, IsPreamble;
    var content := log[i].message.content;
    FlatMapCorresponds(IsThinking, ShowsThinking, ThinkingItem, content);
    PreambleIs(content);
    FlatMapCorresponds(IsToolCall, ShowsToolCall, StartedCall, content);
    ResultsAre(log, i, |log|);
    assert AreCallParts(log, i, ToProcessContent(content), ToAssistantPreamble(content), ToToolCallContent(content),
                        ResultsOf(log, i, |log|));
  }

  lemma {:induction false} AnswerReadsAs(log: seq<Line>, i: nat)
    requires DistinctIds(log) && i < |log| && IsAnswer(log[i])
    ensures var entries := EntriesOf(log, i, |log|);
            && |entries| == (if Chain(log, i).Some? then 1 else 2) && entries[|entries| - 1].Assistant?
            && IsAnswerEntry(log, i, entries[|entries| - 1])
            && (|entries| == 2 ==>
                  && entries[0].Process? && entries[0].id == "pi_process_" + log[i].message.id
                  && entries[0].createdAt == log[i].message.createdAt && entries[0].parentId == ProcessParent(log, i)
                  && Corresponds(IsThinking, ShowsThinking, log[i].message.content, entries[0].content))
  {
    hide ProcessLink, Chain, ProcessParent, FlatMap;
    ChainIs(log, i);
    if Chain(log, i).Some? {
      assert ProcessLink(log, i, Chain(log, i).value);
    }
    JoinedTexts(log[i].message.content);
    FlatMapCorresponds(IsThinking, ShowsThinking, ThinkingItem, log[i].message.content);
  }

  /** A process entry has a link, or else it is an orphan, which is left out. */
  lemma {:induction false} LinkOrOrphan(log: seq<Line>, i: nat)
    requires DistinctIds(log) && i < |log| && log[i].Pi?
    ensures if exists id :: IsLink(log, i, id) then
              IsLink(log, i, ProcessParent(log, i)) && !IsOrphanId(ProcessParent(log, i))
            else IsOrphanId(ProcessParent(log, i))
    ensures Anchor(log, i).Some? <==> exists id :: SpokenLink(log, i, id)
    ensures Chain(log, i).Some? <==> exists id :: ProcessLink(log, i, id)
  {
    hide SpokenLink, ProcessLink, Anchor, Chain, IsOrphanId;
    AnchorIs(log, i);
    ChainIs(log, i);
    LinksAreNoOrphans(log, i);
    if Anchor(log, i).Some? {
      assert IsLink(log, i, Anchor(log, i).value);
    }
    if Chain(log, i).Some? {
      assert IsLink(log, i, Chain(log, i).value);
    }
  }

  lemma {:induction false} LinksAreNoOrphans(log: seq<Line>, i: nat)
    requires i < |log| && log[i].Pi?
    ensures Anchor(log, i).Some? ==> !IsOrphanId(Anchor(log, i).value)
    ensures Chain(log, i).Some? ==> !IsOrphanId(Chain(log, i).value)
    ensures IsOrphanId(OrphanId(log[i].message.id))
  {
    EntryIdsApart(log[i].message.id, log[i].message.id);
    if ParentOf(log, i).Some? {
      var j := ParentOf(log, i).value;
      EntryIdsApart(log[j].message.id, log[j].message.id);
      if Owner(log, j).Some? {
        var k := log[Owner(log, j).value].message.id;
        EntryIdsApart(k, k);
      }
    }
  }

  lemma {:induction false} DropFromTwo(entries: seq<Entry>)
    requires |entries| <= 2
    ensures DropOrphans(entries)
         == (if |entries| > 0 && !IsOrphan(entries[0]) then [entries[0]] else [])
            + (if |entries| > 1 && !IsOrphan(entries[1]) then [entries[1]] else [])
  {
    hide IsOrphan;
    if |entries| == 2 {
      assert entries[..1] == [entries[0]] && [entries[0]][..0] == [];
      assert DropOrphans([]) == [];
      assert DropOrphans([entries[0]]) == [] + if IsOrphan(entries[0]) then [] else [entries[0]];
    } else if |entries| == 1 {
      assert entries[..0] == [] && DropOrphans([]) == [];
    }
  }

  lemma {:induction false} LineReadsAs(log: seq<Line>, i: nat)
    requires DistinctIds(log) && i < |log|
    ensures ReadsAs(log, i, DropOrphans(EntriesOf(log, i, |log|)))
  {
    hide EntriesOf, IsUserEntry, IsAnswerEntry, IsCallContent, SpokenLink, ProcessLink, DropOrphans, Corresponds,
      IsManagedPart, ManagedEntries, ProcessParent, Anchor, Chain;
    if log[i].Pi? {
      LinkOrOrphan(log, i);
      DropFromLine(log, i);
      if IsUser(log[i]) {
        UserReadsAs(log, i);
      } else if IsCall(log[i]) {
        CallReadsAs(log, i);
      } else if IsAnswer(log[i]) {
        AnswerReadsAs(log, i);
        assert forall id :: SpokenLink(log, i, id) || ProcessLink(log, i, id) ==> IsLink(log, i, id);
      }
    } else {
      SilentReadsAs(log, i);
      if log[i].Managed? {
        ManagedReadsAs(log[i].entry);
      }
    }
  }

  lemma {:induction false} SilentReadsAs(log: seq<Line>, i: nat)
    requires i < |log| && !log[i].Pi?
    ensures EntriesOf(log, i, |log|) == if log[i].Managed? then ManagedEntries(log[i].entry) else []
    ensures DropOrphans([]) == []
  {
  }

  lemma {:induction false} DropFromLine(log: seq<Line>, i: nat)
    requires i < |log| && log[i].Pi?
    ensures |EntriesOf(log, i, |log|)| <= 2
    ensures IsResult(log[i]) ==> EntriesOf(log, i, |log|) == []
    ensures var entries := EntriesOf(log, i, |log|);
            DropOrphans(entries)
            == (if |entries| > 0 && !IsOrphan(entries[0]) then [entries[0]] else [])
               + (if |entries| > 1 && !IsOrphan(entries[1]) then [entries[1]] else [])
  {
    DropFromTwo(EntriesOf(log, i, |log|));
  }

  ghost function Parts(log: seq<Line>, n: nat): (parts: seq<seq<Entry>>)
    requires n <= |log|
    ensures |parts| == n && forall i :: 0 <= i < n ==> parts[i] == DropOrphans(EntriesOf(log, i, |log|))
  {
    seq(n, i requires 0 <= i < n => DropOrphans(EntriesOf(log, i, |log|)))
  }

  lemma {:induction false} PartsJoin(log: seq<Line>, n: nat)
    requires n <= |log|
    ensures DropOrphans(Entries(log, n, |log|)) == Joined(Parts(log, n))
  {
    hide EntriesOf, DropOrphans;
    if n == 0 {
      NothingDropped();
    } else {
      PartsJoin(log, n - 1);
      DropOrphansAppend(Entries(log, n - 1, |log|), EntriesOf(log, n - 1, |log|));
      JoinedSnoc(Parts(log, n - 1), Parts(log, n)[n - 1]);
      assert Parts(log, n) == Parts(log, n - 1) + [Parts(log, n)[n - 1]];
    }
  }

  lemma {:induction false} NothingDropped()
    ensures DropOrphans([]) == []
  {
  }

  /** The reader gives up on text that is no JSON, on user records without an array, and on times out of range. */
  lemma {:induction false} UnreadableIs(line: Line)
    ensures Unreadable(line)
            <==> match line
                 case Malformed => true
                 case Ignored => false
                 case Managed(record) => record.kind.UserKind? && !record.input.Items? && record.content.NotArray?
                 case Pi(m) =>
                   && m.timestamp.Some?
                   && (m.timestamp.value < -8640000000000000.0 || m.timestamp.value > 8640000000000000.0)
  {
  }

  /** Entries that a log is read as: line after line, what each line brings. */
  ghost predicate IsReading(log: seq<Line>, entries: seq<Entry>) {
    exists parts: seq<seq<Entry>> ::
      |parts| == |log| && entries == Joined(parts) && forall i :: 0 <= i < |log| ==> ReadsAs(log, i, parts[i])
  }

  /** What the reader returns is what the lines say, for every log with distinct message ids. */
  lemma {:induction false} WalkIsReading(log: seq<Line>)
    requires DistinctIds(log)
    ensures IsReading(log, AncestorWalk(log))
  {
    hide ReadsAs, EntriesOf, Entries, DropOrphans, DistinctIds;
    var parts := Parts(log, |log|);
    PartsJoin(log, |log|);
    forall i | 0 <= i < |log| ensures ReadsAs(log, i, parts[i]) {
      LineReadsAs(log, i);
    }
  }
}
