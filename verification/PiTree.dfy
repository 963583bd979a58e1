/**
 The shape of the session tree the pi reader returns: which links lead to an entry that is really there.
 */
module PiTree {
  import opened Contracts
  import opened PiLog
  import opened PiTranscript

  ghost predicate NoManagedLines(log: seq<Line>) {
    forall i :: 0 <= i < |log| ==> !log[i].Managed?
  }

  lemma {:induction false} DropOrphansMembers(entries: seq<Entry>, entry: Entry)
    ensures entry in DropOrphans(entries) <==> entry in entries && !IsOrphan(entry)
  {
    if entries != [] {
      var front, last := entries[..|entries| - 1], entries[|entries| - 1];
      DropOrphansMembers(front, entry);
      assert entries == front + [last];
    }
  }

  // ----- user entries, for every log -----

  /** A user entry is a root or hangs off an earlier user or assistant entry. */
  ghost predicate UsersLinked(entries: seq<Entry>) {
    forall k :: 0 <= k < |entries| && entries[k].User? ==> LinkedInto(entries[..k], entries[k])
  }

  ghost predicate LinkedInto(earlier: seq<Entry>, user: Entry)
    requires user.User?
  {
    user.rootOrParent.Some? ==> exists e :: e in earlier && !e.Process? && e.id == user.rootOrParent.value
  }

  lemma {:induction false} UsersLinkedSnoc(entries: seq<Entry>, entry: Entry)
    requires UsersLinked(entries) && (entry.User? ==> LinkedInto(entries, entry))
    ensures UsersLinked(entries + [entry])
  {
    var longer := entries + [entry];
    forall k | 0 <= k < |longer| && longer[k].User?
      ensures LinkedInto(longer[..k], longer[k])
    {
      assert longer[..k] == entries[..k];
      assert k == |entries| ==> entries[..k] == entries;
    }
  }

  /** Filtering orphan process entries never cuts a user entry off. */
  lemma {:induction false} FilterKeepsUsersLinked(entries: seq<Entry>)
    requires UsersLinked(entries)
    ensures UsersLinked(DropOrphans(entries))
  {
    if entries != [] {
      var front, last := entries[..|entries| - 1], entries[|entries| - 1];
      forall k | 0 <= k < |front| && front[k].User?
        ensures LinkedInto(front[..k], front[k])
      {
        assert front[..k] == entries[..k];
        assert entries[k].User?;
      }
      FilterKeepsUsersLinked(front);
      if !IsOrphan(last) {
        if last.User? && last.rootOrParent.Some? {
          assert LinkedInto(entries[..|entries| - 1], entries[|entries| - 1]);
          var e :| e in front && !e.Process? && e.id == last.rootOrParent.value;
          DropOrphansMembers(front, e);
        }
        UsersLinkedSnoc(DropOrphans(front), last);
      } else {
        assert DropOrphans(entries) == DropOrphans(front);
      }
    }
  }

  /** A platform id in the map is the id of a user or assistant entry already read. */
  ghost predicate SpokenAreEntries(p: Pass) {
    forall id :: id in p.spoken ==> HasSpoken(p.entries, p.spoken[id])
  }

  ghost predicate HasSpoken(entries: seq<Entry>, id: string) {
    exists e :: e in entries && !e.Process? && e.id == id
  }

  lemma {:induction false} HasSpokenMonotone(entries: seq<Entry>, longer: seq<Entry>, id: string)
    requires HasSpoken(entries, id) && forall e :: e in entries && !e.Process? ==> e in longer
    ensures HasSpoken(longer, id)
  {
    var e :| e in entries && !e.Process? && e.id == id;
    assert e in longer;
  }

  /** Delivering a result changes only a process entry. */
  lemma {:induction false} DeliveryKeepsUsersLinked(entries: seq<Entry>, at: nat, item: ContentItem)
    requires UsersLinked(entries) && at < |entries| && entries[at].Process?
    ensures var after := entries[at := AddContent(entries[at], item)];
            UsersLinked(after) && forall e :: e in entries && !e.Process? ==> e in after
  {
    var after := entries[at := AddContent(entries[at], item)];
    forall e | e in entries && !e.Process?
      ensures e in after
    {
      var k :| 0 <= k < |entries| && entries[k] == e;
      assert after[k] == e;
    }
    forall k | 0 <= k < |after| && after[k].User?
      ensures LinkedInto(after[..k], after[k])
    {
      assert entries[k] == after[k];
      if after[k].rootOrParent.Some? {
        var e :| e in entries[..k] && !e.Process? && e.id == after[k].rootOrParent.value;
        var m :| 0 <= m < k && entries[m] == e;
        assert after[..k][m] == e;
      }
    }
  }

  /** With no assumption on ids or links, user entries of a pi log keep their parents through the whole pass. */
  lemma {:induction false} UsersLinkedThroughout(log: seq<Line>, n: nat)
    requires n <= |log| && NoManagedLines(log)
    ensures UsersLinked(OnePass(log, n).entries) && SpokenAreEntries(OnePass(log, n))
  {
    if n > 0 {
      UsersLinkedThroughout(log, n - 1);
      if log[n - 1].Pi? {
        MessageKeepsUsersLinked(OnePass(log, n - 1), log[n - 1].message);
      }
    }
  }

  lemma {:induction false} MessageKeepsUsersLinked(p: Pass, m: Message)
    requires UsersLinked(p.entries) && SpokenAreEntries(p)
    ensures UsersLinked(MessageStep(p, m).entries) && SpokenAreEntries(MessageStep(p, m))
  {
    hide UsersLinked, SpokenAreEntries;
    match m.role
    case ToolResultRole => ToolResultKeepsUsersLinked(p, m);
    case AssistantRole =>
      if m.stopsForTools {
        ToolUseKeepsUsersLinked(p, m);
      } else {
        FinalKeepsUsersLinked(p, m);
        SpokenAdded(p, FinalStep(p, m), m.id);
      }
    case UserRole =>
      UserIsLinked(p, m);
      UsersLinkedSnoc(p.entries, UserStep(p, m).entries[|p.entries|]);
      SpokenAdded(p, UserStep(p, m), m.id);
  }

  lemma {:induction false} ToolResultKeepsUsersLinked(p: Pass, m: Message)
    requires UsersLinked(p.entries) && SpokenAreEntries(p)
    ensures UsersLinked(ToolResultStep(p, m).entries) && SpokenAreEntries(ToolResultStep(p, m))
  {
    hide UsersLinked, SpokenAreEntries, ResultItem;
    if ToolResultStep(p, m) != p {
      DeliveryKeepsUsersLinked(p.entries, p.index[LinkIn(p.owner, m).value], ResultItem(m));
    }
    SpokenStay(p, ToolResultStep(p, m));
  }

  lemma {:induction false} ToolUseKeepsUsersLinked(p: Pass, m: Message)
    requires UsersLinked(p.entries) && SpokenAreEntries(p)
    ensures UsersLinked(ToolUseStep(p, m).entries) && SpokenAreEntries(ToolUseStep(p, m))
  {
    hide UsersLinked, SpokenAreEntries, ToolUseContent;
    UsersLinkedSnoc(p.entries, ToolUseStep(p, m).entries[|p.entries|]);
    SpokenStay(p, ToolUseStep(p, m));
  }

  lemma {:induction false} UserIsLinked(p: Pass, m: Message)
    requires SpokenAreEntries(p) && m.role.UserRole?
    ensures var entries := UserStep(p, m).entries; LinkedInto(p.entries, entries[|p.entries|])
  {
    if LinkIn(p.spoken, m).Some? {
      assert HasSpoken(p.entries, p.spoken[m.parentId.value]);
    }
  }

  lemma {:induction false} FinalKeepsUsersLinked(p: Pass, m: Message)
    requires UsersLinked(p.entries)
    ensures UsersLinked(FinalStep(p, m).entries)
  {
    var entries := FinalStep(p, m).entries;
    UsersLinkedSnoc(p.entries, entries[|p.entries|]);
    if LinkIn(p.owner, m).None? {
      UsersLinkedSnoc(p.entries + [entries[|p.entries|]], entries[|p.entries| + 1]);
      assert entries == p.entries + [entries[|p.entries|]] + [entries[|p.entries| + 1]];
    }
  }

  lemma {:induction false} SpokenStay(p: Pass, q: Pass)
    requires SpokenAreEntries(p) && q.spoken == p.spoken
    requires forall e :: e in p.entries && !e.Process? ==> e in q.entries
    ensures SpokenAreEntries(q)
  {
    forall id | id in q.spoken
      ensures HasSpoken(q.entries, q.spoken[id])
    {
      HasSpokenMonotone(p.entries, q.entries, p.spoken[id]);
    }
  }

  lemma {:induction false} SpokenAdded(p: Pass, q: Pass, id: string)
    requires SpokenAreEntries(p) && p.entries <= q.entries && |q.entries| > 0
    requires var last := q.entries[|q.entries| - 1]; !last.Process? && q.spoken == p.spoken[id := last.id]
    ensures SpokenAreEntries(q)
  {
    var last := q.entries[|q.entries| - 1];
    assert last in q.entries;
    forall key | key in q.spoken
      ensures HasSpoken(q.entries, q.spoken[key])
    {
      if key != id {
        HasSpokenMonotone(p.entries, q.entries, p.spoken[key]);
      }
    }
  }

  lemma {:induction false} UserParentsSurvive(log: seq<Line>)
    requires NoManagedLines(log)
    ensures UsersLinked(DropOrphans(OnePass(log, |log|).entries))
  {
    UsersLinkedThroughout(log, |log|);
    FilterKeepsUsersLinked(OnePass(log, |log|).entries);
  }

  // ----- where entries come from -----

  lemma {:induction false} EntryOrigin(log: seq<Line>, i: nat, n: nat, entry: Entry) returns (j: nat)
    requires i <= n <= |log| && entry in Entries(log, i, n)
    ensures j < i && entry in EntriesOf(log, j, n)
  {
    hide EntriesOf;
    if entry in EntriesOf(log, i - 1, n) {
      j := i - 1;
    } else {
      j := EntryOrigin(log, i - 1, n, entry);
    }
  }

  lemma {:induction false} EntryIncluded(log: seq<Line>, j: nat, i: nat, n: nat, entry: Entry)
    requires j < i <= n <= |log| && entry in EntriesOf(log, j, n)
    ensures entry in Entries(log, i, n)
  {
    hide EntriesOf;
    if j < i - 1 {
      EntryIncluded(log, j, i - 1, n, entry);
    }
  }

  /** The id of an entry names its message. */
  predicate IdOfMessage(id: string, m: Message) {
    id == UserEntryId(m.id) || id == ProcessEntryId(m.id) || id == AssistantEntryId(m.id)
  }

  lemma {:induction false} EntryIdsOfLine(log: seq<Line>, j: nat, n: nat, entry: Entry)
    requires j < n <= |log| && !log[j].Managed? && entry in EntriesOf(log, j, n)
    ensures log[j].Pi? && IdOfMessage(entry.id, log[j].message)
    ensures entry.Process? ==> entry.id == ProcessEntryId(log[j].message.id)
  {
  }

  lemma {:induction false} IdsNameOneMessage(id: string, a: Message, b: Message)
    requires IdOfMessage(id, a) && IdOfMessage(id, b)
    ensures a.id == b.id
  {
    EntryIdsApart(a.id, b.id);
    EntryIdsApart(b.id, a.id);
  }

  // ----- fully linked logs -----

  /** Every assistant message links to an earlier message, every tool result leads to a tool use. */
  ghost predicate FullyLinked(log: seq<Line>) {
    forall i :: 0 <= i < |log| && log[i].Pi? && !log[i].message.role.UserRole? ==>
                  ParentOf(log, i).Some? && (IsToolResult(log[i]) ==> Owner(log, i).Some?)
  }

  /** A parent is absent or an earlier entry, and an assistant's parent is a process entry. */
  ghost predicate ParentsEarlier(entries: seq<Entry>) {
    forall k :: 0 <= k < |entries| ==> ParentAmong(entries[..k], entries[k])
  }

  ghost predicate ParentAmong(earlier: seq<Entry>, entry: Entry) {
    entry.Parent().Some? ==>
      exists e :: e in earlier && e.id == entry.Parent().value && (entry.Assistant? ==> e.Process?)
  }

  lemma {:induction false} ParentsEarlierSnoc(entries: seq<Entry>, entry: Entry)
    requires ParentsEarlier(entries) && ParentAmong(entries, entry)
    ensures ParentsEarlier(entries + [entry])
  {
    var longer := entries + [entry];
    forall k | 0 <= k < |longer|
      ensures ParentAmong(longer[..k], longer[k])
    {
      assert longer[..k] == entries[..k];
      assert k == |entries| ==> entries[..k] == entries;
    }
  }

  ghost predicate IdsDistinct(entries: seq<Entry>) {
    forall a, b :: 0 <= a < b < |entries| ==> entries[a].id != entries[b].id
  }

  /** The link of a line, when it has one, is the id of an entry of an earlier line. */
  lemma {:induction false} LinkTarget(log: seq<Line>, i: nat, n: nat)
    requires i < n <= |log| && log[i].Pi?
    ensures Anchor(log, i).Some? ==> exists e :: e in Entries(log, i, n) && e.id == Anchor(log, i).value
    ensures Chain(log, i).Some? ==> exists e :: e in Entries(log, i, n) && e.Process? && e.id == Chain(log, i).value
  {
    if Anchor(log, i).Some? {
      var j := ParentOf(log, i).value;
      var e := EntriesOf(log, j, n)[|EntriesOf(log, j, n)| - 1];
      EntryIncluded(log, j, i, n, e);
    }
    if Chain(log, i).Some? {
      var j := Owner(log, ParentOf(log, i).value).value;
      var e := EntriesOf(log, j, n)[0];
      EntryIncluded(log, j, i, n, e);
    }
  }

  lemma {:induction false} LinkedLogParents(log: seq<Line>, i: nat, n: nat)
    requires i <= n <= |log| && NoManagedLines(log) && FullyLinked(log)
    ensures ParentsEarlier(Entries(log, i, n))
    ensures DropOrphans(Entries(log, i, n)) == Entries(log, i, n)
  {
    hide ParentsEarlier, ParentAmong, FullyLinked, IsOrphan, EntriesOf;
    if i > 0 {
      LinkedLogParents(log, i - 1, n);
      if log[i - 1].Pi? {
        LinkedLine(log, i - 1, n);
      } else {
        SilentLine(log, i - 1, n);
      }
      AppendLinked(Entries(log, i - 1, n), EntriesOf(log, i - 1, n));
    } else {
      NoneLinked();
    }
  }

  lemma {:induction false} SilentLine(log: seq<Line>, i: nat, n: nat)
    requires i < n <= |log| && !log[i].Pi? && !log[i].Managed?
    ensures EntriesOf(log, i, n) == []
  {
  }

  lemma {:induction false} NoneLinked()
    ensures ParentsEarlier([])
  {
  }

  lemma {:induction false} AppendLinked(before: seq<Entry>, added: seq<Entry>)
    requires ParentsEarlier(before) && DropOrphans(before) == before && |added| <= 2
    requires |added| > 0 ==> ParentAmong(before, added[0]) && !IsOrphan(added[0])
    requires |added| > 1 ==> ParentAmong(before + [added[0]], added[1]) && !IsOrphan(added[1])
    ensures ParentsEarlier(before + added) && DropOrphans(before + added) == before + added
  {
    hide ParentsEarlier, ParentAmong, IsOrphan, DropOrphans;
    if |added| == 0 {
      assert before + added == before;
    } else {
      LinkedSnoc(before, added[0]);
      if |added| == 1 {
        assert before + added == before + [added[0]];
      } else {
        LinkedSnoc(before + [added[0]], added[1]);
        assert before + added == before + [added[0]] + [added[1]];
      }
    }
  }

  lemma {:induction false} LinkedSnoc(before: seq<Entry>, entry: Entry)
    requires ParentsEarlier(before) && DropOrphans(before) == before
    requires ParentAmong(before, entry) && !IsOrphan(entry)
    ensures ParentsEarlier(before + [entry]) && DropOrphans(before + [entry]) == before + [entry]
  {
    ParentsEarlierSnoc(before, entry);
    assert (before + [entry])[..|before|] == before;
  }

  lemma {:induction false} LinkedLine(log: seq<Line>, i: nat, n: nat)
    requires i < n <= |log| && log[i].Pi? && FullyLinked(log)
    ensures var before, added := Entries(log, i, n), EntriesOf(log, i, n);
            && |added| <= 2
            && (|added| > 0 ==> ParentAmong(before, added[0]) && !IsOrphan(added[0]))
            && (|added| > 1 ==> ParentAmong(before + [added[0]], added[1]) && !IsOrphan(added[1]))
  {
    LinkTarget(log, i, n);
    var m := log[i].message;
    if m.role.AssistantRole? {
      var j := ParentOf(log, i).value;
      assert IsSpoken(log[j]) || Owner(log, j).Some?;
      EntryIdsApart(log[j].message.id, m.id);
      if Owner(log, j).Some? {
        EntryIdsApart(log[Owner(log, j).value].message.id, m.id);
      }
      var added := EntriesOf(log, i, n);
      if |added| == 2 {
        assert added[0] in Entries(log, i, n) + [added[0]];
      }
    }
  }

  lemma {:induction false} EntryIdsDistinct(log: seq<Line>, i: nat, n: nat)
    requires i <= n <= |log| && NoManagedLines(log) && DistinctIds(log)
    ensures IdsDistinct(Entries(log, i, n))
  {
    hide EntriesOf, IdOfMessage;
    if i > 0 {
      EntryIdsDistinct(log, i - 1, n);
      var before, added := Entries(log, i - 1, n), EntriesOf(log, i - 1, n);
      forall a, b | 0 <= a < |before| && 0 <= b < |added|
        ensures before[a].id != added[b].id
      {
        var j := EntryOrigin(log, i - 1, n, before[a]);
        EntryIdsOfLine(log, j, n, before[a]);
        EntryIdsOfLine(log, i - 1, n, added[b]);
        if before[a].id == added[b].id {
          IdsNameOneMessage(before[a].id, log[j].message, log[i - 1].message);
        }
      }
      LineIdsDistinct(log, i - 1, n);
      AppendDistinct(before, added);
    }
  }

  lemma {:induction false} LineIdsDistinct(log: seq<Line>, i: nat, n: nat)
    requires i < n <= |log| && !log[i].Managed?
    ensures IdsDistinct(EntriesOf(log, i, n))
  {
    if log[i].Pi? {
      EntryIdsApart(log[i].message.id, log[i].message.id);
    }
  }

  lemma {:induction false} AppendDistinct(before: seq<Entry>, added: seq<Entry>)
    requires IdsDistinct(before) && IdsDistinct(added)
    requires forall a, b :: 0 <= a < |before| && 0 <= b < |added| ==> before[a].id != added[b].id
    ensures IdsDistinct(before + added)
  {
  }

  /** In a fully linked log nothing is filtered, ids are distinct and every link leads to an earlier entry. */
  lemma {:induction false} FullyLinkedTree(log: seq<Line>)
    requires NoManagedLines(log) && DistinctIds(log) && FullyLinked(log)
    ensures AncestorWalk(log) == Entries(log, |log|, |log|)
    ensures IdsDistinct(AncestorWalk(log)) && ParentsEarlier(AncestorWalk(log))
  {
    LinkedLogParents(log, |log|, |log|);
    EntryIdsDistinct(log, |log|, |log|);
  }

  // ----- assistants whose process entry was filtered -----

  /** The line whose process entry an assistant message hangs off. */
  function Home(log: seq<Line>, i: nat): (h: nat)
    requires i < |log| && IsSpoken(log[i]) && log[i].message.role.AssistantRole?
    ensures h <= i && log[h].Pi? && (IsToolUse(log[h]) || (h == i && Chain(log, i).None?))
  {
    if Chain(log, i).Some? then Owner(log, ParentOf(log, i).value).value else i
  }

  predicate HasLink(log: seq<Line>, i: nat)
    requires i < |log| && log[i].Pi?
  {
    Anchor(log, i).Some? || Chain(log, i).Some?
  }

  /** An assistant entry keeps its parent through the filter exactly when the line it hangs off has a link. */
  lemma {:induction false} AssistantParentSurvives(log: seq<Line>, i: nat)
    requires NoManagedLines(log) && DistinctIds(log)
    requires i < |log| && IsSpoken(log[i]) && log[i].message.role.AssistantRole?
    ensures var parent := EntriesOf(log, i, |log|)[|EntriesOf(log, i, |log|)| - 1].parentId;
            (exists e :: e in AncestorWalk(log) && e.id == parent) <==> HasLink(log, Home(log, i))
  {
    var n, h := |log|, Home(log, i);
    var home := EntriesOf(log, h, n)[0];
    var parent := EntriesOf(log, i, n)[|EntriesOf(log, i, n)| - 1].parentId;
    assert home.Process? && home.id == parent == ProcessEntryId(log[h].message.id);
    OrphanIffNoLink(log, h);
    hide EntriesOf, IsOrphanId;
    EntryIncluded(log, h, n, n, home);
    DropOrphansMembers(Entries(log, n, n), home);
    forall e | e in AncestorWalk(log) && e.id == parent
      ensures e == home
    {
      DropOrphansMembers(Entries(log, n, n), e);
      var j := EntryOrigin(log, n, n, e);
      EntryIdsOfLine(log, j, n, e);
      IdsNameOneMessage(e.id, log[j].message, log[h].message);
      assert j == h;
      EntryIdsApart(log[h].message.id, log[h].message.id);
    }
  }

  lemma {:induction false} OrphanIffNoLink(log: seq<Line>, i: nat)
    requires i < |log| && log[i].Pi?
    ensures IsOrphanId(ProcessParent(log, i)) <==> !HasLink(log, i)
  {
    EntryIdsApart(log[i].message.id, log[i].message.id);
    if ParentOf(log, i).Some? {
      var j := ParentOf(log, i).value;
      EntryIdsApart(log[j].message.id, log[j].message.id);
      if Owner(log, j).Some? {
        var k := log[Owner(log, j).value].message.id;
        EntryIdsApart(k, k);
      }
    }
  }

  /** So an assistant can be left with a parent nobody can find: a lone final answer is such a log. */
  lemma {:induction false} OrphanedAssistantExists() returns (log: seq<Line>)
    ensures DistinctIds(log) && NoManagedLines(log)
    ensures |AncestorWalk(log)| == 1 && AncestorWalk(log)[0].Assistant?
    ensures forall e :: e in AncestorWalk(log) ==> e.id != AncestorWalk(log)[0].parentId
  {
    var m := Message("a", None, None, "", AssistantRole, [], None, None, false, false);
    log := [Pi(m)];
    EntryIdsApart("a", "a");
    var process := Process(ProcessEntryId("a"), OrphanId("a"), "", []);
    var assistant := Assistant(AssistantEntryId("a"), ProcessEntryId("a"), "", [Text("")]);
    assert Entries(log, 1, 1) == [process, assistant];
    hide Entries, EntriesOf, IsOrphanId, ProcessEntryId, AssistantEntryId, OrphanId;
    assert [process, assistant][..1] == [process] && [process][..0] == [];
    assert DropOrphans([process]) == [];
    assert DropOrphans([process, assistant]) == [assistant];
  }

  // ----- conservation of tool results -----

  /** The results in the entries of the tool-use messages among the first `i` lines. */
  function ResultCount(log: seq<Line>, i: nat, n: nat): nat
    requires i <= n <= |log|
  {
    if i == 0 then 0
    else ResultCount(log, i - 1, n) + if IsToolUse(log[i - 1]) then |ResultsOf(log, i - 1, n)| else 0
  }

  predicate IsOwnedResult(log: seq<Line>, i: nat)
    requires i < |log|
  {
    IsToolResult(log[i]) && Owner(log, i).Some?
  }

  function OwnedResults(log: seq<Line>, n: nat): nat
    requires n <= |log|
  {
    if n == 0 then 0 else OwnedResults(log, n - 1) + if IsOwnedResult(log, n - 1) then 1 else 0
  }

  lemma {:induction false} OneMoreResult(log: seq<Line>, i: nat, n: nat)
    requires i <= n < |log|
    ensures ResultCount(log, i, n + 1)
         == ResultCount(log, i, n) + if IsOwnedResult(log, n) && Owner(log, n).value < i then 1 else 0
  {
    if i > 0 {
      OneMoreResult(log, i - 1, n);
      if IsToolUse(log[i - 1]) {
        assert ResultsOf(log, i - 1, n + 1)
            == ResultsOf(log, i - 1, n) + if Delivers(log, n, i - 1) then [ResultItem(log[n].message)] else [];
      }
    }
  }

  /** No tool result that leads to a tool-use message is lost, and none is delivered twice. */
  lemma {:induction false} ResultsConserved(log: seq<Line>, n: nat)
    requires n <= |log|
    ensures ResultCount(log, n, n) == OwnedResults(log, n)
  {
    if n > 0 {
      ResultsConserved(log, n - 1);
      OneMoreResult(log, n - 1, n - 1);
    }
  }
}
