/**
 The mock executor (`mock-executor.ts`): it writes or appends managed records to the transcript file that the pi
 reader reads back. Together they keep a session's history as one chain of entries.
 */
module MockTranscript {
  import opened Contracts
  import opened PiLog
  import opened PiTranscript
  import Store = SessionStore

  // ----- records -----

  /** A content item as the reader's type guards see its JSON: media items are not recognised. */
  function ToManagedItem(item: ContentItem): ManagedItem {
    match item
    case Text(text) => ManagedText(text)
    case ToolCall(id, name, status, arguments, result, error) =>
      ManagedToolCall(id, name, status, arguments, result, error)
    case Media(_, _) => ManagedUnknown
  }

  function ToManagedItems(content: seq<ContentItem>): (items: seq<ManagedItem>)
    ensures |items| == |content|
    ensures forall i :: 0 <= i < |content| ==> items[i] == ToManagedItem(content[i])
  {
    seq(|content|, i requires 0 <= i < |content| => ToManagedItem(content[i]))
  }

  function ToMockRecord(entry: Entry): Line {
    var content := Items(ToManagedItems(entry.content));
    Managed(match entry
            case User(id, parent, createdAt, _, input) =>
              ManagedEntry(id, parent, createdAt, UserKind, content, Items(ToManagedItems(input)))
            case Process(id, parent, createdAt, _) =>
              ManagedEntry(id, Some(parent), createdAt, ProcessKind, content, Absent)
            case Assistant(id, parent, createdAt, _) =>
              ManagedEntry(id, Some(parent), createdAt, AssistantKind, content, Absent))
  }

  /** The header record, which the reader ignores, and one record per entry. */
  function ToMockRecords(entries: seq<Entry>): seq<Line> {
    [Ignored] + seq(|entries|, i requires 0 <= i < |entries| => ToMockRecord(entries[i]))
  }

  // ----- reading records back -----

  /** What the reader returns for a file it can read. */
  function ReadBack(lines: seq<Line>): seq<Entry> {
    DropOrphans(OnePass(lines, |lines|).entries)
  }

  ghost predicate OnlyRecords(lines: seq<Line>) {
    forall i :: 0 <= i < |lines| ==> lines[i].Managed? || lines[i].Ignored?
  }

  function RecordEntries(line: Line): seq<Entry> {
    if line.Managed? then ManagedEntries(line.entry) else []
  }

  lemma {:induction false} PassOverRecords(lines: seq<Line>, n: nat)
    requires n <= |lines| && OnlyRecords(lines)
    ensures OnePass(lines, n).entries == FlatMap(RecordEntries, lines[..n])
  {
    if n > 0 {
      PassOverRecords(lines, n - 1);
      FlatMapSnoc(RecordEntries, lines, n - 1);
      assert OnePass(lines, n - 1).entries + [] == OnePass(lines, n - 1).entries;
    }
  }

  /** Appending records appends what they say: earlier entries are read back unchanged. */
  lemma {:induction false} ReadBackAppend(written: seq<Line>, appended: seq<Line>)
    requires OnlyRecords(written) && OnlyRecords(appended)
    ensures ReadBack(written + appended) == ReadBack(written) + ReadBack(appended)
  {
    var both := written + appended;
    PassOverRecords(written, |written|);
    PassOverRecords(appended, |appended|);
    PassOverRecords(both, |both|);
    assert written[..|written|] == written && appended[..|appended|] == appended && both[..|both|] == both;
    FlatMapAppend(RecordEntries, written, appended);
    DropOrphansAppend(FlatMap(RecordEntries, written), FlatMap(RecordEntries, appended));
  }

  // ----- what survives a write and a read -----

  /** An item that comes back as itself: not media, and no optional string present but empty. */
  predicate IsFaithfulItem(item: ContentItem) {
    match item
    case Text(_) => true
    case ToolCall(_, _, _, arguments, result, error) =>
      arguments != Some("") && result != Some("") && error != Some("")
    case Media(_, _) => false
  }

  predicate IsFaithful(entry: Entry) {
    && (forall i :: 0 <= i < |entry.content| ==> IsFaithfulItem(entry.content[i]))
    && (entry.User? ==> forall i :: 0 <= i < |entry.input| ==> entry.input[i].Text?)
  }

  function ReadItems(content: seq<ContentItem>): seq<ContentItem> {
    FlatMap(ManagedContentItem, ToManagedItems(content))
  }

  function ReadInput(content: seq<ContentItem>): seq<ContentItem> {
    FlatMap(ManagedInputItem, ToManagedItems(content))
  }

  lemma {:induction false} ItemsSnoc(front: seq<ContentItem>, last: ContentItem)
    ensures ReadItems(front + [last]) == ReadItems(front) + ManagedContentItem(ToManagedItem(last))
    ensures ReadInput(front + [last]) == ReadInput(front) + ManagedInputItem(ToManagedItem(last))
  {
    var items := ToManagedItems(front + [last]);
    assert items[..|front|] == ToManagedItems(front) && items[|front|] == ToManagedItem(last);
  }

  lemma {:induction false} SameWithLast<T>(read: seq<T>, written: seq<T>, more: seq<T>, last: T)
    requires |read| <= |written| && |more| <= 1
    ensures read + more == written + [last] <==> read == written && more == [last]
  {
    if read + more == written + [last] {
      assert |read| == |written| && |more| == 1;
      assert (read + more)[..|read|] == read && (written + [last])[..|written|] == written;
      assert (read + more)[|read|] == more[0] && (written + [last])[|written|] == last;
    }
  }

  lemma {:induction false} ItemReread(item: ContentItem)
    ensures var read := ManagedContentItem(ToManagedItem(item));
            |read| <= 1 && (read == [item] <==> IsFaithfulItem(item))
    ensures var read := ManagedInputItem(ToManagedItem(item)); |read| <= 1 && (read == [item] <==> item.Text?)
  {
  }

  lemma {:induction false} ReadItemsIdentity(content: seq<ContentItem>)
    ensures |ReadItems(content)| <= |content|
    ensures ReadItems(content) == content <==> forall i :: 0 <= i < |content| ==> IsFaithfulItem(content[i])
  {
    hide ReadItems, IsFaithfulItem, ManagedContentItem, ToManagedItem;
    if content == [] {
      NothingRead();
    } else {
      var front, last := content[..|content| - 1], content[|content| - 1];
      ReadItemsIdentity(front);
      ItemsSnoc(front, last);
      ItemReread(last);
      assert content == front + [last];
      SameWithLast(ReadItems(front), front, ManagedContentItem(ToManagedItem(last)), last);
    }
  }

  lemma {:induction false} ReadInputIdentity(content: seq<ContentItem>)
    ensures |ReadInput(content)| <= |content|
    ensures ReadInput(content) == content <==> forall i :: 0 <= i < |content| ==> content[i].Text?
  {
    hide ReadInput, ManagedInputItem, ToManagedItem;
    if content == [] {
      NothingRead();
    } else {
      var front, last := content[..|content| - 1], content[|content| - 1];
      ReadInputIdentity(front);
      ItemsSnoc(front, last);
      ItemReread(last);
      assert content == front + [last];
      SameWithLast(ReadInput(front), front, ManagedInputItem(ToManagedItem(last)), last);
    }
  }

  lemma {:induction false} NothingRead()
    ensures ReadItems([]) == [] && ReadInput([]) == []
  {
  }

  function Reread(entry: Entry): Entry {
    match entry
    case User(id, parent, createdAt, content, input) =>
      User(id, parent, createdAt, ReadItems(content), ReadInput(input))
    case Process(id, parent, createdAt, content) => Process(id, parent, createdAt, ReadItems(content))
    case Assistant(id, parent, createdAt, content) => Assistant(id, parent, createdAt, ReadItems(content))
  }

  lemma {:induction false} RecordRoundTrip(entry: Entry)
    ensures RecordEntries(ToMockRecord(entry)) == [Reread(entry)]
    ensures Reread(entry) == entry <==> IsFaithful(entry)
  {
    ReadItemsIdentity(entry.content);
    if entry.User? {
      ReadInputIdentity(entry.input);
    }
  }

  function RereadAll(entries: seq<Entry>): (r: seq<Entry>)
    ensures |r| == |entries| && forall i :: 0 <= i < |entries| ==> r[i] == Reread(entries[i])
  {
    seq(|entries|, i requires 0 <= i < |entries| => Reread(entries[i]))
  }

  lemma {:induction false} ReadRecords(entries: seq<Entry>)
    ensures OnlyRecords(ToMockRecords(entries))
    ensures ReadBack(ToMockRecords(entries)) == DropOrphans(RereadAll(entries))
  {
    var lines := ToMockRecords(entries);
    PassOverRecords(lines, |lines|);
    assert lines[..|lines|] == lines;
    FlatRecords(entries);
  }

  lemma {:induction false} RecordsSnoc(front: seq<Entry>, last: Entry)
    ensures ToMockRecords(front + [last]) == ToMockRecords(front) + [ToMockRecord(last)]
    ensures RereadAll(front + [last]) == RereadAll(front) + [Reread(last)]
  {
  }

  lemma {:induction false} FlatRecords(entries: seq<Entry>)
    ensures FlatMap(RecordEntries, ToMockRecords(entries)) == RereadAll(entries)
  {
    if entries == [] {
      FlatMapOne(RecordEntries, Ignored);
      assert ToMockRecords(entries) == [Ignored];
    } else {
      var front, last := entries[..|entries| - 1], entries[|entries| - 1];
      assert entries == front + [last];
      FlatRecords(front);
      RecordRoundTrip(last);
      RecordsSnoc(front, last);
      FlatMapAppend(RecordEntries, ToMockRecords(front), [ToMockRecord(last)]);
      FlatMapOne(RecordEntries, ToMockRecord(last));
    }
  }

  lemma {:induction false} DropOrphansStep(entries: seq<Entry>)
    ensures entries == [] ==> DropOrphans(entries) == []
    ensures entries != [] ==>
              var front, last := entries[..|entries| - 1], entries[|entries| - 1];
              && entries == front + [last]
              && DropOrphans(entries) == DropOrphans(front) + if IsOrphan(last) then [] else [last]
  {
    hide IsOrphan;
  }

  lemma {:induction false} DropOrphansKeeps(entries: seq<Entry>)
    requires forall i :: 0 <= i < |entries| ==> !IsOrphan(entries[i])
    ensures DropOrphans(entries) == entries
  {
    hide DropOrphans, IsOrphan;
    DropOrphansStep(entries);
    if entries != [] {
      DropOrphansKeeps(entries[..|entries| - 1]);
    }
  }

  lemma {:induction false} DropOrphansShorter(entries: seq<Entry>)
    ensures |DropOrphans(entries)| <= |entries|
    ensures (exists i :: 0 <= i < |entries| && IsOrphan(entries[i])) ==> |DropOrphans(entries)| < |entries|
  {
    hide DropOrphans, IsOrphan;
    DropOrphansStep(entries);
    if entries != [] {
      var front := entries[..|entries| - 1];
      DropOrphansShorter(front);
      assert forall i :: 0 <= i < |front| ==> front[i] == entries[i];
    }
  }

  lemma {:induction false} RereadWhole(entries: seq<Entry>)
    ensures RereadAll(entries) == entries <==> forall i :: 0 <= i < |entries| ==> IsFaithful(entries[i])
  {
    hide IsFaithful, Reread;
    forall i | 0 <= i < |entries| ensures RereadAll(entries)[i] == entries[i] <==> IsFaithful(entries[i]) {
      RecordRoundTrip(entries[i]);
    }
    if RereadAll(entries) == entries {
      assert forall i :: 0 <= i < |entries| ==> RereadAll(entries)[i] == entries[i];
    }
  }

  /** Entries written to the file come back exactly when each is faithful and none looks like an orphan. */
  lemma {:induction false} MockRoundTrip(entries: seq<Entry>)
    ensures ReadBack(ToMockRecords(entries)) == entries
            <==> forall i :: 0 <= i < |entries| ==> IsFaithful(entries[i]) && !IsOrphan(entries[i])
  {
    hide IsOrphan, IsFaithful, Reread;
    ReadRecords(entries);
    RereadOrphans(entries);
    if forall i :: 0 <= i < |entries| ==> !IsOrphan(entries[i]) {
      DropOrphansKeeps(RereadAll(entries));
      RereadWhole(entries);
    } else {
      DropOrphansShorter(RereadAll(entries));
    }
  }

  lemma {:induction false} RereadOrphans(entries: seq<Entry>)
    ensures forall i :: 0 <= i < |entries| ==> IsOrphan(RereadAll(entries)[i]) == IsOrphan(entries[i])
  {
  }

  // ----- the executor and its file -----

  /** What a run is given: the user entry, fresh ids, and the transcript file of the session if it has one. */
  datatype Job = Job(sessionId: string, userEntry: Entry, processEntryId: string, finalEntryId: string,
                     piSessionFile: Option<string>)

  function Texts(content: seq<ContentItem>): string {
    FlatMap((item: ContentItem) => if item.Text? then item.text else "", content)
  }

  function ProcessText(job: Job): string
    requires job.userEntry.User?
  {
    "mock: processing \"" + Texts(job.userEntry.input) + "\""
  }

  function AssistantText(sessionId: string): string {
    "mock response for session " + sessionId
  }

  function RunEntries(job: Job): seq<Entry>
    requires job.userEntry.User?
  {
    [job.userEntry,
     Process(job.processEntryId, job.userEntry.id, job.userEntry.createdAt, [Text(ProcessText(job))]),
     Assistant(job.finalEntryId, job.processEntryId, job.userEntry.createdAt, [Text(AssistantText(job.sessionId))])]
  }

  function TranscriptPath(sessionId: string): string {
    "mock-sessions/" + sessionId + ".jsonl"
  }

  /** A run continues exactly when the session has a transcript file; the empty string counts as none. */
  predicate IsContinuation(piSessionFile: Option<string>) {
    piSessionFile.Some? && piSessionFile.value != ""
  }

  /** The transcript files by path, and the file the session's row names. */
  datatype Transcript = Transcript(files: map<string, seq<Line>>, piSessionFile: Option<string>)

  function FileAt(files: map<string, seq<Line>>, path: string): seq<Line> {
    if path in files then files[path] else []
  }

  /** The lines the reader is given: none without a file name, none if the file is missing. */
  function HistoryLines(t: Transcript): seq<Line> {
    if IsContinuation(t.piSessionFile) then FileAt(t.files, t.piSessionFile.value) else []
  }

  function History(t: Transcript): seq<Entry> {
    ReadBack(HistoryLines(t))
  }

  function Written(files: map<string, seq<Line>>, path: string, entries: seq<Entry>, isContinuation: bool)
    : map<string, seq<Line>>
  {
    files[path := (if isContinuation then FileAt(files, path) else []) + ToMockRecords(entries)]
  }

  ghost predicate IsReadable(lines: seq<Line>) {
    forall i :: 0 <= i < |lines| ==> !Unreadable(lines[i])
  }

  function ItemTexts(content: seq<ContentItem>): (texts: seq<string>)
    ensures |texts| == |content|
    ensures forall i :: 0 <= i < |content| ==> texts[i] == if content[i].Text? then content[i].text else ""
  {
    seq(|content|, i requires 0 <= i < |content| => if content[i].Text? then content[i].text else "")
  }

  /** The line the mock run plays back, and what it answers. */
  function Played(input: seq<ContentItem>): string {
    "mock: processing \"" + Joined(ItemTexts(input)) + "\""
  }

  function Answered(sessionId: string): string {
    "mock response for session " + sessionId
  }

  /** The records of a run: a header, the user entry, and the two texts as they were streamed. */
  predicate AreRunRecords(job: Job, played: string, answered: string, records: seq<Line>)
    requires job.userEntry.User?
  {
    var user := job.userEntry;
    records == [Ignored,
                Managed(ManagedEntry(user.id, user.rootOrParent, user.createdAt, UserKind,
                                     Items(ToManagedItems(user.content)), Items(ToManagedItems(user.input)))),
                Managed(ManagedEntry(job.processEntryId, Some(user.id), user.createdAt, ProcessKind,
                                     Items([ManagedText(played)]), Absent)),
                Managed(ManagedEntry(job.finalEntryId, Some(job.processEntryId), user.createdAt, AssistantKind,
                                     Items([ManagedText(answered)]), Absent))]
  }

  /** A run streams its texts and writes them: after what its file holds if it continues a session, else alone. */
  predicate IsPlayed(job: Job, before: map<string, seq<Line>>, events: seq<RunEvent>, completion: Completion,
                     after: map<string, seq<Line>>)
    requires job.userEntry.User?
  {
    var path := "mock-sessions/" + job.sessionId + ".jsonl";
    var continues := job.piSessionFile.Some? && job.piSessionFile.value != "";
    var kept := if continues && path in before then before[path] else [];
    && events == [ProcessDelta(job.processEntryId, job.userEntry.id, Played(job.userEntry.input)),
                  OutputDelta(job.finalEntryId, job.processEntryId, Answered(job.sessionId)),
                  OutputCompleted(job.finalEntryId)]
    && completion == Completion(Some(path))
    && path in after && after == before[path := after[path]] && kept <= after[path]
    && AreRunRecords(job, events[0].text, events[1].text, after[path][|kept|..])
  }

  lemma {:induction false} PlayedIs(content: seq<ContentItem>)
    ensures "mock: processing \"" + Texts(content) + "\"" == Played(content)
  {
    FlatMapJoins((item: ContentItem) => if item.Text? then item.text else "", content, ItemTexts(content));
  }

  lemma {:induction false} RecordsOfRun(job: Job)
    requires job.userEntry.User?
    ensures AreRunRecords(job, Played(job.userEntry.input), Answered(job.sessionId), ToMockRecords(RunEntries(job)))
  {
    hide Texts;
    PlayedIs(job.userEntry.input);
    var played, answered := Played(job.userEntry.input), Answered(job.sessionId);
    assert ToManagedItems([Text(played)]) == [ManagedText(played)];
    assert ToManagedItems([Text(answered)]) == [ManagedText(answered)];
  }

  lemma {:induction false} RunPlays(job: Job, files: map<string, seq<Line>>)
    requires job.userEntry.User?
    ensures IsPlayed(job, files,
                     [ProcessDelta(job.processEntryId, job.userEntry.id, ProcessText(job)),
                      OutputDelta(job.finalEntryId, job.processEntryId, AssistantText(job.sessionId)),
                      OutputCompleted(job.finalEntryId)],
                     Completion(Some(TranscriptPath(job.sessionId))),
                     Written(files, TranscriptPath(job.sessionId), RunEntries(job), IsContinuation(job.piSessionFile)))
  {
    hide Texts, AreRunRecords, ToMockRecords, RunEntries;
    PlayedIs(job.userEntry.input);
    RecordsOfRun(job);
    var path := TranscriptPath(job.sessionId);
    var kept := if IsContinuation(job.piSessionFile) then FileAt(files, path) else [];
    var after := kept + ToMockRecords(RunEntries(job));
    assert after[|kept|..] == ToMockRecords(RunEntries(job)) && kept <= after;
  }

  class MockSession {
    var files: map<string, seq<Line>>
    var piSessionFile: Option<string>

    ghost function Contents(): Transcript
      reads this
    {
      Transcript(files, piSessionFile)
    }

    constructor (files: map<string, seq<Line>>)
      ensures Contents() == Transcript(files, None)
    {
      this.files, piSessionFile := files, None;
    }

    /** A continuation appends to the file, which brings it into being; any other run overwrites it. */
    method WriteMockTranscript(sessionId: string, entries: seq<Entry>, isContinuation: bool) returns (path: string)
      modifies this`files
      ensures path == TranscriptPath(sessionId)
      ensures files == Written(old(files), path, entries, isContinuation)
    {
      path := TranscriptPath(sessionId);
      var records := ToMockRecords(entries);
      if isContinuation {
        var soFar := if path in files then files[path] else [];
        files := files[path := soFar + records];
      } else {
        files := files[path := [] + records];
      }
    }

    /** The executor: three events, then the transcript. */
    method Run(job: Job) returns (events: seq<RunEvent>, completion: Completion)
      requires job.userEntry.User?
      modifies this`files
      ensures events == [ProcessDelta(job.processEntryId, job.userEntry.id, ProcessText(job)),
                         OutputDelta(job.finalEntryId, job.processEntryId, AssistantText(job.sessionId)),
                         OutputCompleted(job.finalEntryId)]
      ensures completion == Completion(Some(TranscriptPath(job.sessionId)))
      ensures files == Written(old(files), TranscriptPath(job.sessionId), RunEntries(job),
                               IsContinuation(job.piSessionFile))
      ensures IsPlayed(job, old(files), events, completion, files)
    {
      RunPlays(job, files);
      hide IsPlayed, ToMockRecords;
      var processText := ProcessText(job);
      var assistantText := AssistantText(job.sessionId);
      events := [ProcessDelta(job.processEntryId, job.userEntry.id, processText)];
      events := events + [OutputDelta(job.finalEntryId, job.processEntryId, assistantText)];
      events := events + [OutputCompleted(job.finalEntryId)];
      var process := Process(job.processEntryId, job.userEntry.id, job.userEntry.createdAt, [Text(processText)]);
      var final := Assistant(job.finalEntryId, job.processEntryId, job.userEntry.createdAt, [Text(assistantText)]);
      var isContinuation := job.piSessionFile.Some? && job.piSessionFile.value != "";
      var path := WriteMockTranscript(job.sessionId, [job.userEntry, process, final], isContinuation);
      completion := Completion(Some(path));
    }

    /**
     One message: read the history from the file the row names, hang the new user entry off its last entry, run, and
     store the completion's file in the row. A run that is cancelled or fails stores nothing, whether or not it has
     written its records by then. A file that cannot be read fails the request.
     */
    method Submit(sessionId: string, message: Submission) returns (r: Result<(), nat>)
      modifies this
      ensures r.Failure? <==> !IsReadable(HistoryLines(old(Contents())))
      ensures r.Failure? ==> var lines := HistoryLines(old(Contents()));
                             r.error < |lines| && Unreadable(lines[r.error]) && IsReadable(lines[..r.error])
      ensures Contents() == if r.Success? then AfterMessage(sessionId, old(Contents()), message) else old(Contents())
    {
      var lines: seq<Line> := [];
      if piSessionFile.Some? && piSessionFile.value != "" && piSessionFile.value in files {
        lines := files[piSessionFile.value];
      }
      var history := ReadSessionEntries(lines);
      if history.Failure? {
        assert lines == HistoryLines(Contents()) && Unreadable(lines[history.error]);
        return Failure(history.error);
      }
      var job := ToJob(sessionId, LastEntryId(history.value), message, piSessionFile);
      if !message.end.StoppedBeforeWriting? {
        var events, completion := Run(job);
        if message.end.Completed? && completion.piSessionFile.Some? {
          piSessionFile := completion.piSessionFile;
        }
      }
      r := Success(());
    }
  }

  // ----- a whole session in mock mode -----

  /** How a run ends: completed, or cancelled or failed before or after its records were written. */
  datatype RunEnd = Completed | StoppedBeforeWriting | StoppedAfterWriting

  datatype Submission = Submission(userUuid: string, processUuid: string, finalUuid: string, createdAt: string,
                                   content: seq<ContentItem>, end: RunEnd)

  function EntryId(uuid: string): string { "entry_" + uuid }

  function LastEntryId(entries: seq<Entry>): Option<string> {
    if entries == [] then None else Some(entries[|entries| - 1].id)
  }

  function ToJob(sessionId: string, parent: Option<string>, message: Submission, piSessionFile: Option<string>): Job {
    Job(sessionId, User(EntryId(message.userUuid), parent, message.createdAt, message.content, message.content),
        EntryId(message.processUuid), EntryId(message.finalUuid), piSessionFile)
  }

  function AfterMessage(sessionId: string, t: Transcript, message: Submission): Transcript {
    var job := ToJob(sessionId, LastEntryId(History(t)), message, t.piSessionFile);
    if message.end.StoppedBeforeWriting? then t
    else
      var path := TranscriptPath(sessionId);
      var completion := if message.end.Completed? then Some(path) else None;
      Transcript(Written(t.files, path, RunEntries(job), IsContinuation(t.piSessionFile)),
                 Store.Column(completion, t.piSessionFile))
  }

  /** A session after its messages, on a disk that may hold anything before. */
  function AfterMessages(sessionId: string, files: map<string, seq<Line>>, messages: seq<Submission>): Transcript {
    if messages == [] then Transcript(files, None)
    else AfterMessage(sessionId, AfterMessages(sessionId, files, messages[..|messages| - 1]), messages[|messages| - 1])
  }

  /** Whether some run has completed, so that the row names the file. */
  predicate HasFile(messages: seq<Submission>) {
    messages != [] && (HasFile(messages[..|messages| - 1]) || messages[|messages| - 1].end.Completed?)
  }

  /** The messages whose runs the session remembers: those that wrote, from the first completed run on. */
  function Remembered(messages: seq<Submission>): seq<Submission> {
    if messages == [] then []
    else
      var before, last := messages[..|messages| - 1], messages[|messages| - 1];
      Remembered(before) + if HasFile(messages) && !last.end.StoppedBeforeWriting? then [last] else []
  }

  /** If every run completes, all are remembered. */
  lemma {:induction false} CompletedRunsAreRemembered(messages: seq<Submission>)
    requires forall k :: 0 <= k < |messages| ==> messages[k].end.Completed?
    ensures Remembered(messages) == messages
  {
    hide HasFile;
    if messages != [] {
      var front, last := messages[..|messages| - 1], messages[|messages| - 1];
      CompletedRunsAreRemembered(front);
      CompletedRunGivesFile(messages);
      assert messages == front + [last];
    }
  }

  lemma {:induction false} CompletedRunGivesFile(messages: seq<Submission>)
    requires messages != [] && messages[|messages| - 1].end.Completed?
    ensures HasFile(messages)
  {
  }

  /** The entries written by the run of message `k`. */
  function Turn(sessionId: string, messages: seq<Submission>, k: nat): seq<Entry>
    requires k < |messages|
  {
    RunEntries(ToJob(sessionId, if k == 0 then None else Some(EntryId(messages[k - 1].finalUuid)), messages[k], None))
  }

  function Turns(sessionId: string, messages: seq<Submission>, n: nat): seq<Entry>
    requires n <= |messages|
  {
    if n == 0 then [] else Turns(sessionId, messages, n - 1) + Turn(sessionId, messages, n - 1)
  }

  /** User, process, assistant, over and over, each hanging off the entry before it. */
  ghost predicate IsRunChain(entries: seq<Entry>, runs: nat) {
    |entries| == 3 * runs && forall r :: 0 <= r < runs ==> IsTurnAt(entries, 3 * r)
  }

  ghost predicate IsTurnAt(entries: seq<Entry>, k: nat)
    requires k + 3 <= |entries|
  {
    && entries[k].User? && entries[k].rootOrParent == LastEntryId(entries[..k])
    && entries[k + 1].Process? && entries[k + 1].parentId == entries[k].id
    && entries[k + 2].Assistant? && entries[k + 2].parentId == entries[k + 1].id
  }

  lemma {:induction false} EntryIdIsNoOrphan(uuid: string)
    ensures !IsOrphanId(EntryId(uuid))
  {
    assert EntryId(uuid)[0] == 'e' && ORPHAN[0] == 'p';
  }

  /** A file that reads back as the turns of the given messages. */
  ghost predicate HoldsTurns(lines: seq<Line>, sessionId: string, messages: seq<Submission>) {
    ReadableRecords(lines) && ReadBack(lines) == RereadAll(Turns(sessionId, messages, |messages|))
  }

  lemma {:induction false} NoTurns(sessionId: string)
    ensures HoldsTurns([], sessionId, [])
  {
    NoHistory();
  }

  /** A turn is the run of its message with the last entry read back as parent, whatever file the job names. */
  lemma {:induction false} TurnIsRun(sessionId: string, messages: seq<Submission>, k: nat,
                                     piSessionFile: Option<string>)
    requires k < |messages|
    ensures var parent := LastEntryId(RereadAll(Turns(sessionId, messages, k)));
            RunEntries(ToJob(sessionId, parent, messages[k], piSessionFile)) == Turn(sessionId, messages, k)
  {
    hide Turns, RereadAll;
    LastOfTurns(sessionId, messages, k);
  }

  /** One more run, hanging off the last entry read back, makes one more turn. */
  lemma {:induction false} RunAddsTurn(lines: seq<Line>, sessionId: string, messages: seq<Submission>, last: Submission,
                                       piSessionFile: Option<string>)
    requires HoldsTurns(lines, sessionId, messages)
    ensures var job := ToJob(sessionId, LastEntryId(ReadBack(lines)), last, piSessionFile);
            HoldsTurns(lines + ToMockRecords(RunEntries(job)), sessionId, messages + [last])
  {
    hide ReadableRecords, ReadBack, RereadAll, IsOrphan, RunEntries, ToJob, Turn, ToMockRecords, LastEntryId;
    var n, all := |messages|, messages + [last];
    assert all[..n] == messages && all[n] == last;
    TurnsOfPrefix(sessionId, all, n, n);
    TurnIsRun(sessionId, all, n, piSessionFile);
    TurnIsNoOrphan(sessionId, all, n);
    TurnAppended(lines, Turns(sessionId, all, n), Turn(sessionId, all, n));
  }

  lemma {:induction false} TurnIsNoOrphan(sessionId: string, messages: seq<Submission>, k: nat)
    requires k < |messages|
    ensures forall e :: e in Turn(sessionId, messages, k) ==> !IsOrphan(e)
  {
    EntryIdIsNoOrphan(messages[k].userUuid);
  }

  /** What the reader finds after any messages is the turns of the remembered ones. */
  lemma {:induction false} HistoryIsTurns(sessionId: string, files: map<string, seq<Line>>, messages: seq<Submission>)
    ensures var t := AfterMessages(sessionId, files, messages);
            && t.piSessionFile == (if HasFile(messages) then Some(TranscriptPath(sessionId)) else None)
            && (!HasFile(messages) ==> Remembered(messages) == [])
            && HoldsTurns(HistoryLines(t), sessionId, Remembered(messages))
  {
    hide HoldsTurns, ReadBack, ToMockRecords, RunEntries;
    NoTurns(sessionId);
    if messages != [] {
      var before, last := messages[..|messages| - 1], messages[|messages| - 1];
      HistoryIsTurns(sessionId, files, before);
      var t := AfterMessages(sessionId, files, before);
      assert TranscriptPath(sessionId)[0] == 'm';
      RunAddsTurn(HistoryLines(t), sessionId, Remembered(before), last, t.piSessionFile);
      assert Remembered(before) + [] == Remembered(before);
      MessageExtends(sessionId, t, last);
    }
  }

  lemma {:induction false} MessageExtends(sessionId: string, t: Transcript, message: Submission)
    requires t.piSessionFile == None || t.piSessionFile == Some(TranscriptPath(sessionId))
    ensures var next, path := AfterMessage(sessionId, t, message), TranscriptPath(sessionId);
            var job := ToJob(sessionId, LastEntryId(History(t)), message, t.piSessionFile);
            && (message.end.StoppedBeforeWriting? ==> next == t)
            && (!message.end.StoppedBeforeWriting? && next.piSessionFile.Some? ==>
                  HistoryLines(next) == HistoryLines(t) + ToMockRecords(RunEntries(job)))
            && (next.piSessionFile.None? ==> HistoryLines(next) == [])
            && next.piSessionFile == if message.end.Completed? then Some(path) else t.piSessionFile
  {
    hide ReadBack, ToMockRecords, RunEntries;
    assert TranscriptPath(sessionId)[0] == 'm';
  }

  lemma {:induction false} NoHistory()
    ensures ReadableRecords([]) && ReadBack([]) == RereadAll([])
  {
  }

  ghost predicate ReadableRecords(lines: seq<Line>) {
    OnlyRecords(lines) && IsReadable(lines)
  }

  lemma {:induction false} TurnAppended(file: seq<Line>, history: seq<Entry>, turn: seq<Entry>)
    requires ReadableRecords(file) && ReadBack(file) == RereadAll(history)
    ensures ReadableRecords(file + ToMockRecords(turn))
    ensures (forall i :: 0 <= i < |turn| ==> !IsOrphan(turn[i])) ==>
              ReadBack(file + ToMockRecords(turn)) == RereadAll(history + turn)
  {
    RecordsReadable(turn);
    RecordsAppended(file, ToMockRecords(turn));
    ReadRecords(turn);
    ReadBackAppend(file, ToMockRecords(turn));
    if forall i :: 0 <= i < |turn| ==> !IsOrphan(turn[i]) {
      KeptWhole(turn);
    }
    RereadAppend(history, turn);
  }

  lemma {:induction false} RecordsReadable(entries: seq<Entry>)
    ensures ReadableRecords(ToMockRecords(entries))
  {
  }

  lemma {:induction false} RecordsAppended(a: seq<Line>, b: seq<Line>)
    requires ReadableRecords(a) && ReadableRecords(b)
    ensures ReadableRecords(a + b)
  {
  }

  lemma {:induction false} KeptWhole(entries: seq<Entry>)
    requires forall i :: 0 <= i < |entries| ==> !IsOrphan(entries[i])
    ensures DropOrphans(RereadAll(entries)) == RereadAll(entries)
  {
    DropOrphansKeeps(RereadAll(entries));
  }

  lemma {:induction false} RereadAppend(a: seq<Entry>, b: seq<Entry>)
    ensures RereadAll(a + b) == RereadAll(a) + RereadAll(b)
  {
  }

  lemma {:induction false} TurnsOfPrefix(sessionId: string, messages: seq<Submission>, m: nat, n: nat)
    requires n <= m <= |messages|
    ensures Turns(sessionId, messages[..m], n) == Turns(sessionId, messages, n)
  {
    if n > 0 {
      TurnsOfPrefix(sessionId, messages, m, n - 1);
    }
  }

  lemma {:induction false} LastOfTurns(sessionId: string, messages: seq<Submission>, n: nat)
    requires n <= |messages|
    ensures LastEntryId(Turns(sessionId, messages, n)) == LastEntryId(RereadAll(Turns(sessionId, messages, n)))
    ensures LastEntryId(Turns(sessionId, messages, n))
         == if n == 0 then None else Some(EntryId(messages[n - 1].finalUuid))
  {
  }

  lemma {:induction false} TurnsAreChain(sessionId: string, messages: seq<Submission>, n: nat)
    requires n <= |messages|
    ensures IsRunChain(RereadAll(Turns(sessionId, messages, n)), n)
  {
    hide Turn, RereadAll, IsTurnAt, LastEntryId;
    if n > 0 {
      TurnsAreChain(sessionId, messages, n - 1);
      TurnIsRun(sessionId, messages, n - 1, None);
      var before, turn := Turns(sessionId, messages, n - 1), Turn(sessionId, messages, n - 1);
      RunShape(ToJob(sessionId, LastEntryId(RereadAll(before)), messages[n - 1], None));
      RereadAppend(before, turn);
      ChainGrows(RereadAll(before), RereadAll(turn), n - 1);
    }
  }

  lemma {:induction false} RunShape(job: Job)
    requires job.userEntry.User?
    ensures var turn := RereadAll(RunEntries(job));
            && |turn| == 3
            && turn[0].User? && turn[0].rootOrParent == job.userEntry.rootOrParent
            && turn[1].Process? && turn[1].parentId == turn[0].id
            && turn[2].Assistant? && turn[2].parentId == turn[1].id
  {
  }

  lemma {:induction false} ChainGrows(before: seq<Entry>, turn: seq<Entry>, runs: nat)
    requires IsRunChain(before, runs) && |turn| == 3
    requires turn[0].User? && turn[0].rootOrParent == LastEntryId(before)
    requires turn[1].Process? && turn[1].parentId == turn[0].id
    requires turn[2].Assistant? && turn[2].parentId == turn[1].id
    ensures IsRunChain(before + turn, runs + 1)
  {
    var all := before + turn;
    forall r | 0 <= r < runs + 1
      ensures IsTurnAt(all, 3 * r)
    {
      if r < runs {
        assert IsTurnAt(before, 3 * r);
        assert all[..3 * r] == before[..3 * r];
      } else {
        assert all[..3 * r] == before;
      }
    }
  }

  /**
   After any messages, however their runs end and whatever the disk held before, the session reads back as one chain
   of three entries per remembered run.
   */
  lemma {:induction false} MockSessionIsChain(sessionId: string, files: map<string, seq<Line>>,
                                              messages: seq<Submission>)
    ensures IsRunChain(History(AfterMessages(sessionId, files, messages)), |Remembered(messages)|)
    ensures (forall k :: 0 <= k < |messages| ==> messages[k].end.Completed?) ==> Remembered(messages) == messages
  {
    HistoryIsTurns(sessionId, files, messages);
    TurnsAreChain(sessionId, Remembered(messages), |Remembered(messages)|);
    if forall k :: 0 <= k < |messages| ==> messages[k].end.Completed? {
      CompletedRunsAreRemembered(messages);
    }
  }

  predicate IsTextOnly(message: Submission) {
    forall i :: 0 <= i < |message.content| ==> message.content[i].Text?
  }

  /** It reads back exactly as the remembered runs wrote it if and only if their messages were text only. */
  lemma {:induction false} MockSessionIsFaithful(sessionId: string, files: map<string, seq<Line>>,
                                                 messages: seq<Submission>)
    ensures History(AfterMessages(sessionId, files, messages))
            == Turns(sessionId, Remembered(messages), |Remembered(messages)|)
            <==> forall k :: 0 <= k < |Remembered(messages)| ==> IsTextOnly(Remembered(messages)[k])
    ensures forall m :: m in Remembered(messages) ==> m in messages
  {
    HistoryIsTurns(sessionId, files, messages);
    RememberedIsPart(messages);
    TurnsAreFaithful(sessionId, Remembered(messages), |Remembered(messages)|);
  }

  lemma {:induction false} RememberedIsPart(messages: seq<Submission>)
    ensures forall m :: m in Remembered(messages) ==> m in messages
  {
    if messages != [] {
      RememberedIsPart(messages[..|messages| - 1]);
    }
  }

  lemma {:induction false} TurnsAreFaithful(sessionId: string, messages: seq<Submission>, n: nat)
    requires n <= |messages|
    ensures RereadAll(Turns(sessionId, messages, n)) == Turns(sessionId, messages, n)
            <==> forall k :: 0 <= k < n ==> IsTextOnly(messages[k])
  {
    hide Turn, RereadAll, IsTextOnly;
    if n > 0 {
      TurnsAreFaithful(sessionId, messages, n - 1);
      TurnIsFaithful(sessionId, messages, n - 1);
      RereadParts(Turns(sessionId, messages, n - 1), Turn(sessionId, messages, n - 1));
    } else {
      assert RereadAll([]) == [];
    }
  }

  lemma {:induction false} RereadParts(a: seq<Entry>, b: seq<Entry>)
    ensures RereadAll(a + b) == a + b <==> RereadAll(a) == a && RereadAll(b) == b
  {
    RereadAppend(a, b);
    var r := RereadAll(a) + RereadAll(b);
    assert r[..|a|] == RereadAll(a) && r[|a|..] == RereadAll(b);
    assert (a + b)[..|a|] == a && (a + b)[|a|..] == b;
  }

  lemma {:induction false} TurnIsFaithful(sessionId: string, messages: seq<Submission>, k: nat)
    requires k < |messages|
    ensures RereadAll(Turn(sessionId, messages, k)) == Turn(sessionId, messages, k) <==> IsTextOnly(messages[k])
  {
    var turn := Turn(sessionId, messages, k);
    assert |turn| == 3 && IsFaithful(turn[1]) && IsFaithful(turn[2]);
    TextIsFaithful(turn[0]);
    hide IsFaithful, Turn;
    RereadWhole(turn);
  }

  lemma {:induction false} TextIsFaithful(user: Entry)
    requires user.User? && user.content == user.input
    ensures IsFaithful(user) <==> forall i :: 0 <= i < |user.content| ==> user.content[i].Text?
  {
  }

  /** A message hangs off the last entry of the history, plays its run, and names the file once the run completes. */
  lemma {:induction false} MessageSays(sessionId: string, t: Transcript, m: Submission) returns (events: seq<RunEvent>)
    ensures var next, history := AfterMessage(sessionId, t, m), History(t);
            var parent := if history == [] then None else Some(history[|history| - 1].id);
            var user := User("entry_" + m.userUuid, parent, m.createdAt, m.content, m.content);
            var job := Job(sessionId, user, "entry_" + m.processUuid, "entry_" + m.finalUuid, t.piSessionFile);
            var path := "mock-sessions/" + sessionId + ".jsonl";
            && (m.end.StoppedBeforeWriting? ==> next == t)
            && (!m.end.StoppedBeforeWriting? ==>
                  IsPlayed(job, t.files, events, Completion(Some(path)), next.files))
            && next.piSessionFile == if m.end.Completed? then Some(path) else t.piSessionFile
  {
    hide IsPlayed, ReadBack, Written, RunEntries, ProcessText, AssistantText, IsContinuation;
    var job := ToJob(sessionId, LastEntryId(History(t)), m, t.piSessionFile);
    RunPlays(job, t.files);
    events := [ProcessDelta(job.processEntryId, job.userEntry.id, ProcessText(job)),
               OutputDelta(job.finalEntryId, job.processEntryId, AssistantText(job.sessionId)),
               OutputCompleted(job.finalEntryId)];
  }

  // ----- what a session reads back as -----

  predicate IsKnownItem(item: ContentItem) { !item.Media? }

  predicate ShowsItem(item: ContentItem, shown: ContentItem) {
    match item
    case Text(text) => shown == Text(text)
    case ToolCall(id, name, status, arguments, result, error) =>
      && shown.ToolCall? && shown.toolCallId == id && shown.toolName == name && shown.status == status
      && ShowsOptional(arguments, shown.arguments) && ShowsOptional(result, shown.result)
      && ShowsOptional(error, shown.error)
    case Media(_, _) => false
  }

  predicate IsTextItem(item: ContentItem) { item.Text? }

  predicate IsSameItem(item: ContentItem, shown: ContentItem) { shown == item }

  /** The three entries of the run of message `k`, which hang off each other and off the run before. */
  ghost predicate IsTurn(sessionId: string, messages: seq<Submission>, k: nat, turn: seq<Entry>)
    requires k < |messages|
  {
    var m := messages[k];
    && |turn| == 3
    && turn[0].User? && turn[0].id == "entry_" + m.userUuid && turn[0].createdAt == m.createdAt
    && turn[0].rootOrParent == (if k == 0 then None else Some("entry_" + messages[k - 1].finalUuid))
    && Corresponds(IsKnownItem, ShowsItem, m.content, turn[0].content)
    && Corresponds(IsTextItem, IsSameItem, m.content, turn[0].input)
    && turn[1] == Process("entry_" + m.processUuid, "entry_" + m.userUuid, m.createdAt, [Text(Played(m.content))])
    && turn[2] == Assistant("entry_" + m.finalUuid, "entry_" + m.processUuid, m.createdAt, [Text(Answered(sessionId))])
  }

  ghost predicate IsSession(sessionId: string, messages: seq<Submission>, entries: seq<Entry>) {
    exists turns: seq<seq<Entry>> ::
      && |turns| == |messages| && entries == Joined(turns)
      && forall k :: 0 <= k < |messages| ==> IsTurn(sessionId, messages, k, turns[k])
  }

  lemma {:induction false} ItemsRead(content: seq<ContentItem>)
    ensures Corresponds(IsKnownItem, ShowsItem, content, ReadItems(content))
    ensures Corresponds(IsTextItem, IsSameItem, content, ReadInput(content))
  {
    if content != [] {
      var front, last := content[..|content| - 1], content[|content| - 1];
      assert content == front + [last];
      ItemsRead(front);
      ItemsSnoc(front, last);
      CorrespondsSnoc(IsKnownItem, ShowsItem, front, ReadItems(front), last, ManagedContentItem(ToManagedItem(last)));
      CorrespondsSnoc(IsTextItem, IsSameItem, front, ReadInput(front), last, ManagedInputItem(ToManagedItem(last)));
    } else {
      NothingRead();
    }
  }

  lemma {:induction false} TextRead(text: string)
    ensures ReadItems([Text(text)]) == [Text(text)]
  {
    ReadItemsIdentity([Text(text)]);
  }

  lemma {:induction false} TurnIsTurn(sessionId: string, messages: seq<Submission>, k: nat)
    requires k < |messages|
    ensures IsTurn(sessionId, messages, k, RereadAll(Turn(sessionId, messages, k)))
  {
    hide ReadItems, ReadInput, Texts, Joined, Corresponds;
    var m := messages[k];
    ItemsRead(m.content);
    PlayedIs(m.content);
    TextRead(Played(m.content));
    TextRead(Answered(sessionId));
  }

  lemma {:induction false} TurnsJoin(sessionId: string, messages: seq<Submission>, n: nat)
    returns (turns: seq<seq<Entry>>)
    requires n <= |messages|
    ensures |turns| == n && RereadAll(Turns(sessionId, messages, n)) == Joined(turns)
    ensures forall k :: 0 <= k < n ==> IsTurn(sessionId, messages, k, turns[k])
  {
    hide IsTurn, Turn, RereadAll;
    if n == 0 {
      turns := [];
      assert RereadAll([]) == [];
    } else {
      var before := TurnsJoin(sessionId, messages, n - 1);
      var turn := RereadAll(Turn(sessionId, messages, n - 1));
      TurnIsTurn(sessionId, messages, n - 1);
      RereadAppend(Turns(sessionId, messages, n - 1), Turn(sessionId, messages, n - 1));
      JoinedSnoc(before, turn);
      turns := before + [turn];
    }
  }

  /** After any messages the session reads back as the turns of the remembered ones, each with the texts it streamed. */
  lemma {:induction false} MockSessionSays(sessionId: string, files: map<string, seq<Line>>, messages: seq<Submission>)
    ensures IsSession(sessionId, Remembered(messages), History(AfterMessages(sessionId, files, messages)))
  {
    hide IsTurn, RereadAll, Turns;
    HistoryIsTurns(sessionId, files, messages);
    var turns := TurnsJoin(sessionId, Remembered(messages), |Remembered(messages)|);
  }
}
