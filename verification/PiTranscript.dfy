/**
 `readSessionEntries` of `pi-file-transcript-reader.ts`: one pass over the log with three maps, editing earlier
 entries in place, proved equal to a definition that walks up the ancestors of every message.
 */
module PiTranscript {
  import opened Contracts
  import opened PiLog

  predicate IsToolUse(line: Line) {
    line.Pi? && line.message.role.AssistantRole? && line.message.stopsForTools
  }

  predicate IsToolResult(line: Line) {
    line.Pi? && line.message.role.ToolResultRole?
  }

  /** Messages with a platform entry others can hang off: user messages and final assistant messages. */
  predicate IsSpoken(line: Line) {
    line.Pi? && !IsToolUse(line) && !IsToolResult(line)
  }

  function SpokenId(line: Line): string
    requires IsSpoken(line)
  {
    if line.message.role.UserRole? then UserEntryId(line.message.id) else AssistantEntryId(line.message.id)
  }

  ghost predicate DistinctIds(log: seq<Line>) {
    forall a, b :: 0 <= a < b < |log| && log[a].Pi? && log[b].Pi? ==> log[a].message.id != log[b].message.id
  }

  // ----- the ancestor walk -----

  /** The message with a given id among the first `n` lines. */
  function FindMessage(log: seq<Line>, n: nat, id: string): (j: Option<nat>)
    requires n <= |log|
    ensures j.Some? ==> j.value < n && log[j.value].Pi? && log[j.value].message.id == id
    ensures j.None? ==> forall k :: 0 <= k < n && log[k].Pi? ==> log[k].message.id != id
  {
    if n == 0 then None
    else if log[n - 1].Pi? && log[n - 1].message.id == id then Some(n - 1)
    else FindMessage(log, n - 1, id)
  }

  /** The earlier message line `i` links to. An empty parent id counts as no parent, as it is falsy. */
  function ParentOf(log: seq<Line>, i: nat): (j: Option<nat>)
    requires i < |log| && log[i].Pi?
    ensures j.Some? ==> j.value < i && log[j.value].Pi? && log[i].message.parentId == Some(log[j.value].message.id)
  {
    match log[i].message.parentId
    case None => None
    case Some(id) => if id == "" then None else FindMessage(log, i, id)
  }

  /** The tool-use message reached from line `i` by following the parents of tool results. */
  function Owner(log: seq<Line>, i: nat): (j: Option<nat>)
    requires i < |log| && log[i].Pi?
    ensures j.Some? ==> j.value <= i && IsToolUse(log[j.value])
  {
    if IsToolUse(log[i]) then Some(i)
    else if IsToolResult(log[i]) && ParentOf(log, i).Some? then Owner(log, ParentOf(log, i).value)
    else None
  }

  /** A walk of parent links from a message, through tool results only, to a tool-use message. */
  ghost predicate IsToolWalk(log: seq<Line>, walk: seq<nat>) {
    && |walk| > 0
    && (forall k :: 0 <= k < |walk| ==> walk[k] < |log| && log[walk[k]].Pi?)
    && IsToolUse(log[walk[|walk| - 1]])
    && forall k :: 0 <= k < |walk| - 1 ==>
                     IsToolResult(log[walk[k]]) && ParentOf(log, walk[k]) == Some(walk[k + 1])
  }

  /** `Owner` finds exactly the end points of such walks. */
  lemma {:induction false} OwnerIsEndOfWalk(log: seq<Line>, i: nat, j: nat)
    requires i < |log| && log[i].Pi?
    ensures Owner(log, i) == Some(j)
            <==> exists walk :: IsToolWalk(log, walk) && walk[0] == i && walk[|walk| - 1] == j
  {
    if Owner(log, i) == Some(j) {
      var walk := OwnerWalk(log, i);
    }
    forall walk | IsToolWalk(log, walk) && walk[0] == i && walk[|walk| - 1] == j
      ensures Owner(log, i) == Some(j)
    {
      WalkFindsOwner(log, walk);
    }
  }

  lemma {:induction false} OwnerWalk(log: seq<Line>, i: nat) returns (walk: seq<nat>)
    requires i < |log| && log[i].Pi? && Owner(log, i).Some?
    ensures IsToolWalk(log, walk) && walk[0] == i && Some(walk[|walk| - 1]) == Owner(log, i)
  {
    if IsToolUse(log[i]) {
      walk := [i];
    } else {
      var rest := OwnerWalk(log, ParentOf(log, i).value);
      walk := [i] + rest;
    }
  }

  lemma {:induction false} WalkFindsOwner(log: seq<Line>, walk: seq<nat>)
    requires IsToolWalk(log, walk)
    ensures Owner(log, walk[0]) == Some(walk[|walk| - 1])
    decreases |walk|
  {
    if |walk| > 1 {
      var rest := walk[1..];
      forall k | 0 <= k < |rest| - 1
        ensures IsToolResult(log[rest[k]]) && ParentOf(log, rest[k]) == Some(rest[k + 1])
      {
        assert rest[k] == walk[k + 1] && rest[k + 1] == walk[(k + 1) + 1];
      }
      WalkFindsOwner(log, rest);
      assert ParentOf(log, walk[0]) == Some(walk[0 + 1]);
    }
  }

  // ----- entries by definition -----

  /** The platform entry of the parent, when the parent is a spoken message. */
  function Anchor(log: seq<Line>, i: nat): Option<string>
    requires i < |log| && log[i].Pi?
  {
    match ParentOf(log, i)
    case Some(j) => if IsSpoken(log[j]) then Some(SpokenId(log[j])) else None
    case None => None
  }

  /** The process entry the parent belongs to. */
  function Chain(log: seq<Line>, i: nat): Option<string>
    requires i < |log| && log[i].Pi?
  {
    match ParentOf(log, i)
    case Some(j) =>
      if Owner(log, j).Some? then Some(OwnerEntryId(log, j)) else None
    case None => None
  }

  function OwnerEntryId(log: seq<Line>, i: nat): string
    requires i < |log| && log[i].Pi? && Owner(log, i).Some?
  {
    ProcessEntryId(log[Owner(log, i).value].message.id)
  }

  function ProcessParent(log: seq<Line>, i: nat): string
    requires i < |log| && log[i].Pi?
  {
    GetOr(Anchor(log, i), GetOr(Chain(log, i), OrphanId(log[i].message.id)))
  }

  predicate Delivers(log: seq<Line>, i: nat, j: nat)
    requires i < |log|
  {
    IsToolResult(log[i]) && Owner(log, i) == Some(j)
  }

  /** The results among lines `j + 1 .. n` owned by the tool-use message at line `j`, in log order. */
  function ResultsOf(log: seq<Line>, j: nat, n: nat): seq<ContentItem>
    requires j < n <= |log|
  {
    if n == j + 1 then []
    else ResultsOf(log, j, n - 1) + if Delivers(log, n - 1, j) then [ResultItem(log[n - 1].message)] else []
  }

  /** What line `i` contributes, given that the first `n` lines are in the log. */
  function EntriesOf(log: seq<Line>, i: nat, n: nat): seq<Entry>
    requires i < n <= |log|
  {
    match log[i]
    case Managed(entry) => ManagedEntries(entry)
    case Pi(m) =>
      if m.role.UserRole? then
        var content := FlatMap(UserItem, m.content);
        [User(UserEntryId(m.id), Anchor(log, i), m.createdAt, content, content)]
      else if m.role.ToolResultRole? then []
      else if m.stopsForTools then
        [Process(ProcessEntryId(m.id), ProcessParent(log, i), m.createdAt,
                 ToolUseContent(m) + ResultsOf(log, i, n))]
      else
        var text := [Text(ToAssistantText(m.content))];
        if Chain(log, i).Some? then
          [Assistant(AssistantEntryId(m.id), Chain(log, i).value, m.createdAt, text)]
        else
          [Process(ProcessEntryId(m.id), ProcessParent(log, i), m.createdAt, ToProcessContent(m.content)),
           Assistant(AssistantEntryId(m.id), ProcessEntryId(m.id), m.createdAt, text)]
    case _ => []
  }

  function AddContent(entry: Entry, item: ContentItem): Entry
    requires entry.Process?
  {
    Process(entry.id, entry.parentId, entry.createdAt, entry.content + [item])
  }

  /** The contributions of the first `i` lines. */
  function Entries(log: seq<Line>, i: nat, n: nat): seq<Entry>
    requires i <= n <= |log|
  {
    if i == 0 then [] else Entries(log, i - 1, n) + EntriesOf(log, i - 1, n)
  }

  predicate IsOrphan(entry: Entry) {
    entry.Process? && IsOrphanId(entry.parentId)
  }

  function DropOrphans(entries: seq<Entry>): seq<Entry> {
    if entries == [] then []
    else DropOrphans(entries[..|entries| - 1])
         + if IsOrphan(entries[|entries| - 1]) then [] else [entries[|entries| - 1]]
  }

  lemma {:induction false} DropOrphansAppend(a: seq<Entry>, b: seq<Entry>)
    ensures DropOrphans(a + b) == DropOrphans(a) + DropOrphans(b)
  {
    if b == [] {
      assert a + b == a;
    } else {
      var front := b[..|b| - 1];
      DropOrphansAppend(a, front);
      assert (a + b)[..|a + b| - 1] == a + front;
    }
  }

  /** The session a log stands for. */
  function AncestorWalk(log: seq<Line>): seq<Entry> {
    DropOrphans(Entries(log, |log|, |log|))
  }

  // ----- the one-pass reader -----

  /** `entries` and the maps `platformEntryIdByPiMessageId`, `processEntryIdByPiMessageId`, `processEntryIndexById`. */
  datatype Pass = Pass(entries: seq<Entry>, spoken: map<string, string>, owner: map<string, string>,
                       index: map<string, nat>)

  function Lookup<V>(m: map<string, V>, key: string): Option<V> {
    if key in m then Some(m[key]) else None
  }

  function LinkIn(m: map<string, string>, message: Message): Option<string> {
    if message.parentId.Some? && message.parentId.value != "" then Lookup(m, message.parentId.value) else None
  }

  function LinkedParent(p: Pass, m: Message): string {
    GetOr(LinkIn(p.spoken, m), GetOr(LinkIn(p.owner, m), OrphanId(m.id)))
  }

  function UserStep(p: Pass, m: Message): Pass {
    var content := FlatMap(UserItem, m.content);
    p.(entries := p.entries + [User(UserEntryId(m.id), LinkIn(p.spoken, m), m.createdAt, content, content)],
       spoken := p.spoken[m.id := UserEntryId(m.id)])
  }

  function ToolResultStep(p: Pass, m: Message): Pass {
    match LinkIn(p.owner, m)
    case None => p
    case Some(id) =>
      if id !in p.index || p.index[id] >= |p.entries| || !p.entries[p.index[id]].Process? then p
      else p.(entries := p.entries[p.index[id] := AddContent(p.entries[p.index[id]], ResultItem(m))],
              owner := p.owner[m.id := id])
  }

  function ToolUseStep(p: Pass, m: Message): Pass {
    var id := ProcessEntryId(m.id);
    p.(entries := p.entries + [Process(id, LinkedParent(p, m), m.createdAt, ToolUseContent(m))],
       owner := p.owner[m.id := id],
       index := p.index[id := |p.entries|])
  }

  function FinalStep(p: Pass, m: Message): Pass {
    var text := [Text(ToAssistantText(m.content))];
    var id := AssistantEntryId(m.id);
    match LinkIn(p.owner, m)
    case Some(chain) =>
      p.(entries := p.entries + [Assistant(id, chain, m.createdAt, text)],
         spoken := p.spoken[m.id := id])
    case None =>
      var processId := ProcessEntryId(m.id);
      p.(entries := p.entries + [Process(processId, LinkedParent(p, m), m.createdAt, ToProcessContent(m.content)),
                                 Assistant(id, processId, m.createdAt, text)],
         spoken := p.spoken[m.id := id],
         index := p.index[processId := |p.entries|])
  }

  function MessageStep(p: Pass, m: Message): Pass {
    match m.role
    case UserRole => UserStep(p, m)
    case ToolResultRole => ToolResultStep(p, m)
    case AssistantRole => if m.stopsForTools then ToolUseStep(p, m) else FinalStep(p, m)
  }

  function LineStep(p: Pass, line: Line): Pass {
    match line
    case Managed(entry) => p.(entries := p.entries + ManagedEntries(entry))
    case Pi(m) => MessageStep(p, m)
    case _ => p
  }

  function OnePass(log: seq<Line>, n: nat): Pass
    requires n <= |log|
  {
    if n == 0 then Pass([], map[], map[], map[]) else LineStep(OnePass(log, n - 1), log[n - 1])
  }

  method ReadManagedEntry(entry: ManagedEntry) returns (entries: seq<Entry>)
    requires !Unreadable(Managed(entry))
    ensures entries == ManagedEntries(entry)
  {
    var content := ToManagedTranscriptContent(ArrayOrEmpty(entry.content));
    if entry.kind.UserKind? {
      return [User(entry.id, entry.parentId, entry.createdAt, content,
                   FlatMap(ManagedInputItem, ArrayOrEmpty(InputField(entry))))];
    }
    if entry.parentId.None? {
      return [];
    }
    if entry.kind.ProcessKind? {
      return [Process(entry.id, entry.parentId.value, entry.createdAt, content)];
    }
    return [Assistant(entry.id, entry.parentId.value, entry.createdAt, content)];
  }

  /** The reader, over the non-blank lines of the file. It fails on the first line it cannot read. */
  method ReadSessionEntries(log: seq<Line>) returns (r: Result<seq<Entry>, nat>)
    ensures r.Failure? ==> r.error < |log| && Unreadable(log[r.error])
                           && forall k :: 0 <= k < r.error ==> !Unreadable(log[k])
    ensures r.Success? ==> forall k :: 0 <= k < |log| ==> !Unreadable(log[k])
    ensures r.Success? ==> r.value == DropOrphans(OnePass(log, |log|).entries)
    ensures r.Success? && DistinctIds(log) ==> r.value == AncestorWalk(log)
  {
    var entries: seq<Entry> := [];
    var spoken: map<string, string> := map[];
    var owner: map<string, string> := map[];
    var index: map<string, nat> := map[];
    for i := 0 to |log|
      invariant forall k :: 0 <= k < i ==> !Unreadable(log[k])
      invariant Pass(entries, spoken, owner, index) == OnePass(log, i)
    {
      if Unreadable(log[i]) {
        return Failure(i);
      }
      if log[i].Managed? {
        var managed := ReadManagedEntry(log[i].entry);
        entries := entries + managed;
        continue;
      }
      if !log[i].Pi? {
        continue;
      }
      var m := log[i].message;
      if m.role.UserRole? {
        var content := ToUserContent(m.content);
        entries := entries + [User(UserEntryId(m.id), LinkIn(spoken, m), m.createdAt, content, content)];
        spoken := spoken[m.id := UserEntryId(m.id)];
        continue;
      }
      if m.role.ToolResultRole? {
        var processEntryId := LinkIn(owner, m);
        if processEntryId.None? || processEntryId.value !in index {
          continue;
        }
        var at := index[processEntryId.value];
        if at >= |entries| || !entries[at].Process? {
          continue;
        }
        entries := entries[at := AddContent(entries[at], ResultItem(m))];
        owner := owner[m.id := processEntryId.value];
        continue;
      }
      var chain := LinkIn(owner, m);
      var parentId := GetOr(LinkIn(spoken, m), GetOr(chain, OrphanId(m.id)));
      if m.stopsForTools {
        var content := ToProcessContent(m.content);
        if |ToAssistantPreamble(m.content)| > 0 {
          content := content + [Text(ToAssistantPreamble(m.content))];
        }
        content := content + ToToolCallContent(m.content);
        assert content == ToolUseContent(m);
        entries := entries + [Process(ProcessEntryId(m.id), parentId, m.createdAt, content)];
        owner := owner[m.id := ProcessEntryId(m.id)];
        index := index[ProcessEntryId(m.id) := |entries| - 1];
        continue;
      }
      var text := [Text(ToAssistantText(m.content))];
      if chain.Some? {
        entries := entries + [Assistant(AssistantEntryId(m.id), chain.value, m.createdAt, text)];
        spoken := spoken[m.id := AssistantEntryId(m.id)];
        continue;
      }
      ghost var before := entries;
      entries := entries + [Process(ProcessEntryId(m.id), parentId, m.createdAt, ToProcessContent(m.content))];
      index := index[ProcessEntryId(m.id) := |entries| - 1];
      entries := entries + [Assistant(AssistantEntryId(m.id), ProcessEntryId(m.id), m.createdAt, text)];
      assert entries == OnePass(log, i + 1).entries;
      spoken := spoken[m.id := AssistantEntryId(m.id)];
    }
    if DistinctIds(log) {
      OnePassIsWalk(log, |log|);
    }
    r := Success(DropOrphans(entries));
  }

  // ----- guards that never fire -----

  /** Every process entry id the reader can look up leads to a process entry. */
  ghost predicate LinksResolve(p: Pass) {
    && (forall id :: id in p.owner ==> p.owner[id] in p.index)
    && (forall id :: id in p.index ==> p.index[id] < |p.entries| && p.entries[p.index[id]].Process?)
  }

  /** For every log, with or without distinct ids, a result found in the owner map is always delivered. */
  lemma {:induction false} GuardsNeverFire(log: seq<Line>, n: nat)
    requires n <= |log|
    ensures LinksResolve(OnePass(log, n))
  {
    hide LineStep;
    if n > 0 {
      GuardsNeverFire(log, n - 1);
      LineKeepsLinks(OnePass(log, n - 1), log[n - 1]);
    }
  }

  lemma {:induction false} LineKeepsLinks(p: Pass, line: Line)
    requires LinksResolve(p)
    ensures LinksResolve(LineStep(p, line))
  {
    hide FlatMap, ResultItem, ToolUseContent, ManagedEntries;
  }

  // ----- the pass computes the walk -----

  /** `platformEntryIdByPiMessageId` after `n` lines. */
  function SpokenMap(log: seq<Line>, n: nat): map<string, string>
    requires n <= |log|
  {
    if n == 0 then map[]
    else if IsSpoken(log[n - 1]) then SpokenMap(log, n - 1)[log[n - 1].message.id := SpokenId(log[n - 1])]
    else SpokenMap(log, n - 1)
  }

  /** `processEntryIdByPiMessageId` after `n` lines. */
  function OwnerMap(log: seq<Line>, n: nat): map<string, string>
    requires n <= |log|
  {
    if n == 0 then map[]
    else if log[n - 1].Pi? && Owner(log, n - 1).Some? then
      OwnerMap(log, n - 1)[log[n - 1].message.id := OwnerEntryId(log, n - 1)]
    else OwnerMap(log, n - 1)
  }

  /** `processEntryIndexById` after `n` lines. */
  function IndexMap(log: seq<Line>, n: nat): map<string, nat>
    requires n <= |log|
  {
    if n == 0 then map[]
    else if IsToolUse(log[n - 1]) || IsUnchainedFinal(log, n - 1) then
      IndexMap(log, n - 1)[ProcessEntryId(log[n - 1].message.id) := Position(log, n - 1)]
    else IndexMap(log, n - 1)
  }

  /** A final assistant message that brings a process entry of its own. */
  predicate IsUnchainedFinal(log: seq<Line>, i: nat)
    requires i < |log|
  {
    IsSpoken(log[i]) && log[i].message.role.AssistantRole? && Chain(log, i).None?
  }

  /** Where the first entry of a line sits. */
  function Position(log: seq<Line>, j: nat): nat
    requires j < |log|
  {
    |Entries(log, j, j)|
  }

  function WalkPass(log: seq<Line>, n: nat): Pass
    requires n <= |log|
  {
    Pass(Entries(log, n, n), SpokenMap(log, n), OwnerMap(log, n), IndexMap(log, n))
  }

  /** With distinct ids, the one-pass reader is in the state the ancestor walk prescribes after every line. */
  lemma {:induction false} OnePassIsWalk(log: seq<Line>, n: nat)
    requires n <= |log| && DistinctIds(log)
    ensures OnePass(log, n) == WalkPass(log, n)
  {
    if n > 0 {
      var i := n - 1;
      OnePassIsWalk(log, i);
      if IsToolResult(log[i]) {
        ToolResultLine(log, i);
      } else if IsToolUse(log[i]) {
        ToolUseLine(log, i);
      } else if IsSpoken(log[i]) {
        SpokenLine(log, i);
      } else {
        AppendLine(log, i);
        assert Entries(log, i, i) + [] == Entries(log, i, i);
      }
    }
  }

  lemma {:induction false} ParentLookups(log: seq<Line>, i: nat)
    requires i < |log| && log[i].Pi? && DistinctIds(log)
    ensures LinkIn(SpokenMap(log, i), log[i].message) == Anchor(log, i)
    ensures LinkIn(OwnerMap(log, i), log[i].message) == Chain(log, i)
  {
    if log[i].message.parentId.Some? {
      SpokenMapLookup(log, i, log[i].message.parentId.value);
      OwnerMapLookup(log, i, log[i].message.parentId.value);
    }
  }

  lemma {:induction false} SpokenLine(log: seq<Line>, i: nat)
    requires i < |log| && DistinctIds(log) && IsSpoken(log[i])
    ensures MessageStep(WalkPass(log, i), log[i].message) == WalkPass(log, i + 1)
  {
    ParentLookups(log, i);
    AppendLine(log, i);
  }

  lemma {:induction false} ToolUseLine(log: seq<Line>, i: nat)
    requires i < |log| && DistinctIds(log) && IsToolUse(log[i])
    ensures MessageStep(WalkPass(log, i), log[i].message) == WalkPass(log, i + 1)
  {
    ParentLookups(log, i);
    AppendLine(log, i);
    assert ToolUseContent(log[i].message) + ResultsOf(log, i, i + 1) == ToolUseContent(log[i].message);
  }

  lemma {:induction false} ToolResultLine(log: seq<Line>, i: nat)
    requires i < |log| && DistinctIds(log) && IsToolResult(log[i])
    ensures MessageStep(WalkPass(log, i), log[i].message) == WalkPass(log, i + 1)
  {
    ParentLookups(log, i);
    if Chain(log, i).None? {
      AppendLine(log, i);
      assert Entries(log, i, i) + [] == Entries(log, i, i);
    } else {
      var j := Owner(log, i).value;
      DeliverResult(log, i, i, j);
      IndexMapLookup(log, i, j);
      assert Entries(log, i, i + 1) + [] == Entries(log, i, i + 1);
    }
  }

  lemma {:induction false} ContributionStays(log: seq<Line>, i: nat, n: nat)
    requires i < n < |log| && !Delivers(log, n, i)
    ensures EntriesOf(log, i, n + 1) == EntriesOf(log, i, n)
  {
    assert ResultsOf(log, i, n + 1) == ResultsOf(log, i, n) by {
      assert ResultsOf(log, i, n + 1) == ResultsOf(log, i, n) + [];
    }
  }

  /** Entries of earlier lines change only when a result is delivered to them. */
  lemma {:induction false} EarlierEntriesStay(log: seq<Line>, i: nat, n: nat)
    requires i <= n < |log|
    requires forall j :: 0 <= j < i ==> !Delivers(log, n, j)
    ensures Entries(log, i, n + 1) == Entries(log, i, n)
  {
    if i > 0 {
      EarlierEntriesStay(log, i - 1, n);
      ContributionStays(log, i - 1, n);
    }
  }

  lemma {:induction false} AppendLine(log: seq<Line>, n: nat)
    requires n < |log| && forall j :: 0 <= j < n ==> !Delivers(log, n, j)
    ensures Entries(log, n + 1, n + 1) == Entries(log, n, n) + EntriesOf(log, n, n + 1)
  {
    EarlierEntriesStay(log, n, n);
  }

  lemma {:induction false} DeliverToOwner(log: seq<Line>, n: nat, j: nat)
    requires j < n < |log| && Delivers(log, n, j)
    ensures |EntriesOf(log, j, n)| == 1 && EntriesOf(log, j, n)[0].Process?
    ensures EntriesOf(log, j, n + 1) == [AddContent(EntriesOf(log, j, n)[0], ResultItem(log[n].message))]
  {
    var before, results := ToolUseContent(log[j].message), ResultsOf(log, j, n);
    assert before + (results + [ResultItem(log[n].message)]) == before + results + [ResultItem(log[n].message)];
  }

  /** `after` is `before` with one item added to the process entry at `at`. */
  ghost predicate ItemAdded(before: seq<Entry>, after: seq<Entry>, at: nat, item: ContentItem) {
    at < |before| && before[at].Process? && after == before[at := AddContent(before[at], item)]
  }

  lemma {:induction false} ItemAddedInFront(before: seq<Entry>, after: seq<Entry>, at: nat, item: ContentItem,
                                            rest: seq<Entry>)
    requires ItemAdded(before, after, at, item)
    ensures ItemAdded(before + rest, after + rest, at, item)
  {
  }

  lemma {:induction false} ItemAddedLast(front: seq<Entry>, entry: Entry, item: ContentItem)
    requires entry.Process?
    ensures ItemAdded(front + [entry], front + [AddContent(entry, item)], |front|, item)
  {
  }

  /** A delivered result is appended to the entry of its owner, and nothing else moves. */
  lemma {:induction false} DeliverResult(log: seq<Line>, i: nat, n: nat, j: nat)
    requires j < i <= n < |log| && Delivers(log, n, j)
    ensures ItemAdded(Entries(log, i, n), Entries(log, i, n + 1), Position(log, j), ResultItem(log[n].message))
  {
    hide Owner, EntriesOf, Entries, Position;
    if i == j + 1 {
      DeliverLast(log, i, n, j);
    } else {
      DeliverResult(log, i - 1, n, j);
      DeliverPast(log, i, n, Position(log, j), ResultItem(log[n].message));
    }
  }

  lemma {:induction false} DeliverPast(log: seq<Line>, i: nat, n: nat, at: nat, item: ContentItem)
    requires 0 < i <= n < |log| && !Delivers(log, n, i - 1)
    requires ItemAdded(Entries(log, i - 1, n), Entries(log, i - 1, n + 1), at, item)
    ensures ItemAdded(Entries(log, i, n), Entries(log, i, n + 1), at, item)
  {
    ContributionStays(log, i - 1, n);
    ItemAddedInFront(Entries(log, i - 1, n), Entries(log, i - 1, n + 1), at, item, EntriesOf(log, i - 1, n));
  }

  lemma {:induction false} DeliverLast(log: seq<Line>, i: nat, n: nat, j: nat)
    requires i == j + 1 <= n < |log| && Delivers(log, n, j)
    ensures ItemAdded(Entries(log, i, n), Entries(log, i, n + 1), Position(log, j), ResultItem(log[n].message))
  {
    hide EntriesOf, Owner, ResultItem;
    EarlierEntriesStay(log, j, n);
    SameLength(log, j, n);
    DeliverToOwner(log, n, j);
    var entry := EntriesOf(log, j, n)[0];
    assert EntriesOf(log, j, n) == [entry];
    ItemAddedLast(Entries(log, j, n), entry, ResultItem(log[n].message));
  }

  /** How many entries a prefix contributes does not depend on what follows. */
  lemma {:induction false} SameLength(log: seq<Line>, i: nat, n: nat)
    requires i <= n <= |log|
    ensures |Entries(log, i, n)| == |Entries(log, i, i)|
    decreases i
  {
    hide EntriesOf;
    if i > 0 {
      SameLength(log, i - 1, n);
      SameLength(log, i - 1, i);
      SameLineLength(log, i - 1, n);
    }
  }

  lemma {:induction false} SameLineLength(log: seq<Line>, i: nat, n: nat)
    requires i < n <= |log|
    ensures |EntriesOf(log, i, n)| == |EntriesOf(log, i, i + 1)|
  {
  }

  lemma {:induction false} SpokenMapLookup(log: seq<Line>, n: nat, id: string)
    requires n <= |log| && DistinctIds(log)
    ensures Lookup(SpokenMap(log, n), id)
         == match FindMessage(log, n, id)
            case Some(j) => if IsSpoken(log[j]) then Some(SpokenId(log[j])) else None
            case None => None
  {
    if n > 0 {
      SpokenMapLookup(log, n - 1, id);
    }
  }

  lemma {:induction false} OwnerMapLookup(log: seq<Line>, n: nat, id: string)
    requires n <= |log| && DistinctIds(log)
    ensures Lookup(OwnerMap(log, n), id)
         == match FindMessage(log, n, id)
            case Some(j) => if Owner(log, j).Some? then Some(OwnerEntryId(log, j)) else None
            case None => None
  {
    if n > 0 {
      OwnerMapLookup(log, n - 1, id);
    }
  }

  /** The index of a tool-use entry is never displaced by a later one. */
  lemma {:induction false} IndexMapLookup(log: seq<Line>, n: nat, j: nat)
    requires j < n <= |log| && DistinctIds(log) && IsToolUse(log[j])
    ensures Lookup(IndexMap(log, n), ProcessEntryId(log[j].message.id)) == Some(Position(log, j))
  {
    hide Position, Owner, Chain;
    if j < n - 1 {
      IndexMapLookup(log, n - 1, j);
      if log[n - 1].Pi? {
        EntryIdsApart(log[j].message.id, log[n - 1].message.id);
      }
    }
  }
}
