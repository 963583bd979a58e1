/**
 A run as it happens: `consumeRun` (`managed-session-service.ts`) folds the worker's events into what the service
 records, while the sandbox executor (`sandbox-executor.ts`) appends the same events to a log. Replaying that log
 must give what was recorded.
 */
module LiveRun {
  import opened Contracts
  import opened SandboxTranscript
  import opened SandboxReplay

  // ----- the live fold -----

  /** What wins the race of one loop round: an event, the end of the stream, its failure, or the cancellation. */
  datatype Next =
    | Event(event: RunEvent)
    | Finished(completion: Completion)
    | Rejected(code: string, message: string)
    | Cancelled

  datatype RunResult =
    | Waiting
    | CompletedRun(completion: Completion, finalOutputText: string, processContent: seq<ContentItem>)
    | CancelledRun(finalOutputText: string, processContent: seq<ContentItem>)
    | FailedRun(code: string, message: string)

  predicate Continues(next: Next) {
    next.Event? && !next.event.RunFailed?
  }

  /** The events of the rounds before the first one that ends the loop. */
  function Consumed(rounds: seq<Next>): seq<RunEvent> {
    if rounds == [] || !Continues(rounds[0]) then [] else [rounds[0].event] + Consumed(rounds[1..])
  }

  /** The round that ends the loop. */
  function Ending(rounds: seq<Next>): (last: Option<Next>)
    ensures last.Some? ==> !Continues(last.value)
  {
    if rounds == [] then None else if !Continues(rounds[0]) then Some(rounds[0]) else Ending(rounds[1..])
  }

  function OutputOf(event: RunEvent): string {
    if event.OutputDelta? then event.text else ""
  }

  function LiveItem(event: RunEvent): seq<ContentItem> {
    match event
    case ProcessDelta(_, _, text) => [Text(text)]
    case Action(status, _, _, id, name, arguments, result, error) =>
      [ToolCall(id, name, status, NonEmpty(arguments), if status.Completed? then NonEmpty(result) else None,
                if status.Error? then NonEmpty(error) else None)]
    case _ => []
  }

  function LiveText(events: seq<RunEvent>): string {
    FlatMap(OutputOf, events)
  }

  function LiveContent(events: seq<RunEvent>): seq<ContentItem> {
    FlatMap(LiveItem, events)
  }

  predicate IsVisible(event: RunEvent, includeProcess: bool, includeFinal: bool) {
    || ((event.ProcessDelta? || event.Action?) && includeProcess)
    || ((event.OutputDelta? || event.OutputCompleted?) && includeFinal)
  }

  /** The events a client that asked for these kinds is sent, in order. */
  function Visible(events: seq<RunEvent>, includeProcess: bool, includeFinal: bool): seq<RunEvent> {
    if events == [] then []
    else
      var last := events[|events| - 1];
      Visible(events[..|events| - 1], includeProcess, includeFinal)
      + if IsVisible(last, includeProcess, includeFinal) then [last] else []
  }

  function ResultOf(rounds: seq<Next>): RunResult {
    var events := Consumed(rounds);
    match Ending(rounds)
    case None => Waiting
    case Some(Finished(completion)) => CompletedRun(completion, LiveText(events), LiveContent(events))
    case Some(Cancelled) => CancelledRun(LiveText(events), LiveContent(events))
    case Some(Rejected(code, message)) => FailedRun(code, message)
    case Some(Event(failure)) => FailedRun(failure.code, failure.message)
  }

  lemma {:induction false} ConsumedSoFar(rounds: seq<Next>, i: nat)
    requires i <= |rounds| && forall k :: 0 <= k < i ==> Continues(rounds[k])
    ensures Consumed(rounds) == Consumed(rounds[..i]) + Consumed(rounds[i..])
    ensures Ending(rounds) == Ending(rounds[i..]) && Ending(rounds[..i]).None?
    ensures |Consumed(rounds[..i])| == i
  {
    if i == 0 {
      assert rounds[0..] == rounds;
    } else {
      ConsumedSoFar(rounds[1..], i - 1);
      ConsumedFirst(rounds);
      ConsumedFirst(rounds[..i]);
      ConsumedRest(rounds, i);
    }
  }

  lemma {:induction false} ConsumedFirst(rounds: seq<Next>)
    requires rounds != [] && Continues(rounds[0])
    ensures Consumed(rounds) == [rounds[0].event] + Consumed(rounds[1..]) && Ending(rounds) == Ending(rounds[1..])
  {
  }

  lemma {:induction false} ConsumedRest(rounds: seq<Next>, i: nat)
    requires 0 < i <= |rounds| && Continues(rounds[0])
    requires Consumed(rounds) == [rounds[0].event] + Consumed(rounds[1..])
    requires Consumed(rounds[..i]) == [rounds[0].event] + Consumed(rounds[..i][1..])
    requires Consumed(rounds[1..]) == Consumed(rounds[1..][..i - 1]) + Consumed(rounds[1..][i - 1..])
    ensures Consumed(rounds) == Consumed(rounds[..i]) + Consumed(rounds[i..])
    ensures |Consumed(rounds[..i])| == 1 + |Consumed(rounds[1..][..i - 1])|
    ensures rounds[1..][..i - 1] == rounds[..i][1..] && rounds[1..][i - 1..] == rounds[i..]
  {
    hide Consumed;
    SlicesOfRest(rounds, i);
    AppendAssociates([rounds[0].event], Consumed(rounds[1..][..i - 1]), Consumed(rounds[i..]));
  }

  lemma {:induction false} SlicesOfRest<T>(s: seq<T>, i: nat)
    requires 0 < i <= |s|
    ensures s[1..][..i - 1] == s[..i][1..] && s[1..][i - 1..] == s[i..]
  {
  }

  lemma {:induction false} StopsAt(rounds: seq<Next>, i: nat)
    requires i < |rounds| && !Continues(rounds[i]) && forall k :: 0 <= k < i ==> Continues(rounds[k])
    ensures Consumed(rounds) == Consumed(rounds[..i]) && Ending(rounds) == Some(rounds[i])
  {
    ConsumedSoFar(rounds, i);
    assert Consumed(rounds[..i]) + [] == Consumed(rounds[..i]);
  }

  lemma {:induction false} ConsumeOneMore(rounds: seq<Next>, i: nat)
    requires i < |rounds| && Continues(rounds[i]) && forall k :: 0 <= k < i ==> Continues(rounds[k])
    ensures Consumed(rounds[..i + 1]) == Consumed(rounds[..i]) + [rounds[i].event]
  {
    ConsumedSoFar(rounds[..i + 1], i);
    assert rounds[..i + 1][..i] == rounds[..i] && rounds[..i + 1][i..] == [rounds[i]];
    assert [rounds[i]][1..] == [];
  }

  lemma {:induction false} FoldsOneMore(events: seq<RunEvent>, event: RunEvent, includeProcess: bool,
                                        includeFinal: bool)
    ensures LiveText(events + [event]) == LiveText(events) + OutputOf(event)
    ensures LiveContent(events + [event]) == LiveContent(events) + LiveItem(event)
    ensures Visible(events + [event], includeProcess, includeFinal)
         == Visible(events, includeProcess, includeFinal)
            + if IsVisible(event, includeProcess, includeFinal) then [event] else []
  {
    assert (events + [event])[..|events|] == events;
  }

  // ----- the sandbox executor -----

  /** The part of a job the executor and the recorded entries use. */
  datatype Job = Job(userEntry: Entry, processEntryId: string, finalEntryId: string)

  function UserText(job: Job): string {
    FlatMap(TextOf, job.userEntry.content)
  }

  function UserLogLine(job: Job): Line
    requires job.userEntry.User?
  {
    UserLine(Some(job.userEntry.id), job.userEntry.rootOrParent, Some(job.userEntry.createdAt), Some(UserText(job)))
  }

  /** The line an event is logged as. */
  function LogLine(event: RunEvent): Line {
    match event
    case ProcessDelta(entryId, parentId, text) => DeltaLine(Some(entryId), Some(parentId), Some(text))
    case Action(status, entryId, parentId, id, name, arguments, result, error) =>
      ActionLine(status, Some(entryId), Some(parentId), Some(id), Some(name), arguments, result, error)
    case OutputDelta(entryId, parentId, text) => OutputLine(Some(entryId), Some(parentId), Some(text))
    case OutputCompleted(_) => CompletedLine
    case RunFailed(entryId, parentId, _, message) => FailedLine(Some(entryId), Some(parentId), Some(message))
  }

  function LogLines(events: seq<RunEvent>): (lines: seq<Line>)
    ensures |lines| == |events|
    ensures forall i :: 0 <= i < |events| ==> lines[i] == LogLine(events[i])
  {
    seq(|events|, i requires 0 <= i < |events| => LogLine(events[i]))
  }

  class SandboxExecutor {
    var transcript: seq<Line>
    var pending: Option<RunEvent>

    constructor (transcript: seq<Line>)
      ensures this.transcript == transcript && pending.None?
    {
      this.transcript := transcript;
      pending := None;
    }

    /** The generator up to its first request to the scheduler: it logs the user entry. */
    method Start(job: Job)
      requires job.userEntry.User?
      modifies this
      ensures transcript == old(transcript) + [UserLogLine(job)] && pending.None?
    {
      transcript := transcript + [UserLogLine(job)];
      pending := None;
    }

    /** Resumed after a yield, it logs the event it yielded. */
    method Resume()
      modifies this
      ensures transcript == old(transcript) + (if old(pending).Some? then [LogLine(old(pending).value)] else [])
      ensures pending.None?
    {
      if pending.Some? {
        transcript := transcript + [LogLine(pending.value)];
      }
      pending := None;
    }

    method Yield(event: RunEvent)
      modifies this
      ensures transcript == old(transcript) && pending == Some(event)
    {
      pending := Some(event);
    }
  }

  // ----- what a run comes to -----

  /** Round `k` is the first that is no event or a failure, or all rounds go on. */
  ghost predicate IsEnd(rounds: seq<Next>, k: nat) {
    && k <= |rounds| && (forall i :: 0 <= i < k ==> rounds[i].Event? && !rounds[i].event.RunFailed?)
    && (k < |rounds| ==> !rounds[k].Event? || rounds[k].event.RunFailed?)
  }

  ghost function EventsUpTo(rounds: seq<Next>, k: nat): (events: seq<RunEvent>)
    requires IsEnd(rounds, k)
    ensures |events| == k && forall i :: 0 <= i < k ==> rounds[i] == Event(events[i])
  {
    seq(k, i requires 0 <= i < k => rounds[i].event)
  }

  /** The text of each event, empty for all but output deltas. */
  ghost function OutputTexts(events: seq<RunEvent>): (texts: seq<string>)
    ensures |texts| == |events|
    ensures forall i :: 0 <= i < |events| ==> texts[i] == if events[i].OutputDelta? then events[i].text else ""
  {
    seq(|events|, i requires 0 <= i < |events| => if events[i].OutputDelta? then events[i].text else "")
  }

  predicate IsWorkEvent(event: RunEvent) {
    event.ProcessDelta? || event.Action?
  }

  /** An action shows a result when it is completed and an error when it failed. */
  predicate ShowsWorkEvent(event: RunEvent, shown: ContentItem) {
    match event
    case ProcessDelta(_, _, text) => shown == Text(text)
    case Action(status, _, _, id, name, arguments, result, error) =>
      && shown.ToolCall? && shown.toolCallId == id && shown.toolName == name && shown.status == status
      && ShowsOptional(arguments, shown.arguments)
      && (if status == Completed then ShowsOptional(result, shown.result) else shown.result.None?)
      && (if status == ToolStatus.Error then ShowsOptional(error, shown.error) else shown.error.None?)
    case _ => false
  }

  /** The round that ends the run says how. */
  predicate EndsWith(rounds: seq<Next>, k: nat, text: string, content: seq<ContentItem>, result: RunResult)
    requires k <= |rounds|
  {
    if k == |rounds| then result == Waiting
    else match rounds[k]
      case Finished(completion) => result == CompletedRun(completion, text, content)
      case Cancelled => result == CancelledRun(text, content)
      case Rejected(code, message) => result == FailedRun(code, message)
      case Event(failure) => failure.RunFailed? && result == FailedRun(failure.code, failure.message)
  }

  /** The result carries the output texts joined, and an item for every process and action event before the end. */
  ghost predicate ComesTo(rounds: seq<Next>, k: nat, result: RunResult)
    requires IsEnd(rounds, k)
  {
    exists content ::
      && Corresponds(IsWorkEvent, ShowsWorkEvent, EventsUpTo(rounds, k), content)
      && EndsWith(rounds, k, Joined(OutputTexts(EventsUpTo(rounds, k))), content, result)
  }

  /** Process events are sent to who asks for the process, output events to who asks for the outcome. */
  function IsSent(includeProcess: bool, includeFinal: bool): RunEvent -> bool {
    (event: RunEvent) =>
      if event.ProcessDelta? || event.Action? then includeProcess
      else if event.OutputDelta? || event.OutputCompleted? then includeFinal
      else false
  }

  predicate IsSame(event: RunEvent, sent: RunEvent) {
    sent == event
  }

  ghost predicate IsPublished(events: seq<RunEvent>, includeProcess: bool, includeFinal: bool,
                              published: seq<RunEvent>)
  {
    Corresponds(IsSent(includeProcess, includeFinal), IsSame, events, published)
  }

  /** The line of an event holds its fields; a failed run's code and a completed output's ids are not read back. */
  predicate LogsEvent(event: RunEvent, line: Line) {
    match event
    case ProcessDelta(entryId, parentId, text) =>
      line.DeltaLine? && line.entryId == Some(entryId) && line.parentId == Some(parentId) && line.text == Some(text)
    case Action(status, entryId, parentId, id, name, arguments, result, error) =>
      && line.ActionLine? && line.status == status && line.entryId == Some(entryId) && line.parentId == Some(parentId)
      && line.toolCallId == Some(id) && line.name == Some(name)
      && line.arguments == arguments && line.result == result && line.error == error
    case OutputDelta(entryId, parentId, text) =>
      line.OutputLine? && line.entryId == Some(entryId) && line.parentId == Some(parentId) && line.text == Some(text)
    case OutputCompleted(_) => line.CompletedLine?
    case RunFailed(entryId, parentId, _, message) =>
      && line.FailedLine? && line.entryId == Some(entryId) && line.parentId == Some(parentId)
      && line.message == Some(message)
  }

  ghost function UserTexts(content: seq<ContentItem>): (texts: seq<string>)
    ensures |texts| == |content|
    ensures forall i :: 0 <= i < |content| ==> texts[i] == if content[i].Text? then content[i].text else ""
  {
    seq(|content|, i requires 0 <= i < |content| => if content[i].Text? then content[i].text else "")
  }

  /** The lines a run adds to the log: its user entry, then its events. */
  ghost predicate IsLogged(user: Entry, events: seq<RunEvent>, added: seq<Line>)
    requires user.User?
  {
    && |added| == 1 + |events|
    && added[0] == UserLine(Some(user.id), user.rootOrParent, Some(user.createdAt),
                            Some(Joined(UserTexts(user.content))))
    && forall i :: 0 <= i < |events| ==> LogsEvent(events[i], added[i + 1])
  }

  lemma {:induction false} ConsumedUpTo(rounds: seq<Next>, k: nat)
    requires IsEnd(rounds, k)
    ensures Consumed(rounds) == EventsUpTo(rounds, k)
    ensures Ending(rounds) == if k == |rounds| then None else Some(rounds[k])
  {
    if k > 0 {
      ConsumedUpTo(rounds[1..], k - 1);
      assert [rounds[0].event] + EventsUpTo(rounds[1..], k - 1) == EventsUpTo(rounds, k);
    }
  }

  lemma {:induction false} EndExists(rounds: seq<Next>) returns (k: nat)
    ensures IsEnd(rounds, k)
  {
    if rounds == [] || !(rounds[0].Event? && !rounds[0].event.RunFailed?) {
      k := 0;
    } else {
      var rest := EndExists(rounds[1..]);
      k := rest + 1;
    }
  }

  lemma {:induction false} FoldsShow(events: seq<RunEvent>)
    ensures LiveText(events) == Joined(OutputTexts(events))
    ensures Corresponds(IsWorkEvent, ShowsWorkEvent, events, LiveContent(events))
  {
    hide Joined, FlatMap, Corresponds;
    FlatMapJoins(OutputOf, events, OutputTexts(events));
    FlatMapCorresponds(IsWorkEvent, ShowsWorkEvent, LiveItem, events);
  }

  lemma {:induction false} LinesLogged(job: Job, events: seq<RunEvent>)
    requires job.userEntry.User?
    ensures IsLogged(job.userEntry, events, [UserLogLine(job)] + LogLines(events))
  {
    hide Joined, FlatMap;
    FlatMapJoins(TextOf, job.userEntry.content, UserTexts(job.userEntry.content));
  }

  /** What a run returns, publishes and logs follows from the rounds before the one that ends it, and from that one. */
  lemma {:induction false} RunComesTo(rounds: seq<Next>, k: nat, job: Job, includeProcess: bool, includeFinal: bool)
    requires IsEnd(rounds, k) && job.userEntry.User?
    ensures ComesTo(rounds, k, ResultOf(rounds))
    ensures IsPublished(EventsUpTo(rounds, k), includeProcess, includeFinal,
                        Visible(Consumed(rounds), includeProcess, includeFinal))
    ensures IsLogged(job.userEntry, EventsUpTo(rounds, k), [UserLogLine(job)] + LogLines(Consumed(rounds)))
  {
    hide Consumed, Ending, Corresponds, Visible, LiveText, LiveContent, OutputTexts, IsPublished, IsLogged, Joined,
      UserLogLine, LogLines;
    ConsumedUpTo(rounds, k);
    FoldsShow(EventsUpTo(rounds, k));
    LinesLogged(job, EventsUpTo(rounds, k));
    VisiblePublished(EventsUpTo(rounds, k), includeProcess, includeFinal);
  }

  lemma {:induction false} VisiblePublished(events: seq<RunEvent>, includeProcess: bool, includeFinal: bool)
    ensures IsPublished(events, includeProcess, includeFinal, Visible(events, includeProcess, includeFinal))
  {
    if events != [] {
      var front, last := events[..|events| - 1], events[|events| - 1];
      VisiblePublished(front, includeProcess, includeFinal);
      CorrespondsSnoc(IsSent(includeProcess, includeFinal), IsSame, front,
                      Visible(front, includeProcess, includeFinal), last,
                      if IsVisible(last, includeProcess, includeFinal) then [last] else []);
      assert front + [last] == events;
    }
  }

  ghost predicate IsOutcome(rounds: seq<Next>, includeProcess: bool, includeFinal: bool, result: RunResult,
                            published: seq<RunEvent>)
  {
    exists k ::
      && IsEnd(rounds, k) && ComesTo(rounds, k, result)
      && IsPublished(EventsUpTo(rounds, k), includeProcess, includeFinal, published)
  }

  lemma {:induction false} OutcomeOfRun(rounds: seq<Next>, job: Job, includeProcess: bool, includeFinal: bool)
    requires job.userEntry.User?
    ensures IsOutcome(rounds, includeProcess, includeFinal, ResultOf(rounds),
                      Visible(Consumed(rounds), includeProcess, includeFinal))
  {
    var k := EndExists(rounds);
    RunComesTo(rounds, k, job, includeProcess, includeFinal);
  }

  lemma {:induction false} NoRounds(rounds: seq<Next>, includeProcess: bool, includeFinal: bool)
    ensures var events := Consumed(rounds[..0]);
            && LiveText(events) == "" && LiveContent(events) == []
            && Visible(events, includeProcess, includeFinal) == [] && LogLines(events) == []
  {
  }

  lemma {:induction false} OneMoreRound(rounds: seq<Next>, i: nat, includeProcess: bool, includeFinal: bool,
                                        log: seq<Line>)
    requires i < |rounds| && Continues(rounds[i]) && forall k :: 0 <= k < i ==> Continues(rounds[k])
    ensures var before, after, event := Consumed(rounds[..i]), Consumed(rounds[..i + 1]), rounds[i].event;
            && LiveText(after) == LiveText(before) + OutputOf(event)
            && LiveContent(after) == LiveContent(before) + LiveItem(event)
            && Visible(after, includeProcess, includeFinal)
               == Visible(before, includeProcess, includeFinal)
                  + (if IsVisible(event, includeProcess, includeFinal) then [event] else [])
            && log + LogLines(after) == log + LogLines(before) + [LogLine(event)]
  {
    ConsumeOneMore(rounds, i);
    FoldsOneMore(Consumed(rounds[..i]), rounds[i].event, includeProcess, includeFinal);
    assert LogLines(Consumed(rounds[..i + 1])) == LogLines(Consumed(rounds[..i])) + [LogLine(rounds[i].event)];
  }

  /**
   The consumer's loop, driving the executor. What is published is the order-preserving filter of the consumed
   events, and what is returned does not depend on the filter. Every consumed event has been logged; the event that
   makes the run fail has not.
   */
  method ConsumeRun(executor: SandboxExecutor, job: Job, rounds: seq<Next>, includeProcess: bool, includeFinal: bool)
    returns (result: RunResult, published: seq<RunEvent>)
    requires job.userEntry.User?
    modifies executor
    ensures result == ResultOf(rounds)
    ensures published == Visible(Consumed(rounds), includeProcess, includeFinal)
    ensures executor.transcript == old(executor.transcript) + [UserLogLine(job)] + LogLines(Consumed(rounds))
    ensures IsOutcome(rounds, includeProcess, includeFinal, result, published)
  {
    hide IsOutcome, Consumed, Ending, LiveText, LiveContent, Visible, LogLines, LogLine, Joined, FlatMap, UserLogLine;
    OutcomeOfRun(rounds, job, includeProcess, includeFinal);
    NoRounds(rounds, includeProcess, includeFinal);
    executor.Start(job);
    ghost var log := executor.transcript;
    var finalOutputText := "";
    var processContent: seq<ContentItem> := [];
    published := [];
    for i := 0 to |rounds|
      invariant forall k :: 0 <= k < i ==> Continues(rounds[k])
      invariant finalOutputText == LiveText(Consumed(rounds[..i]))
      invariant processContent == LiveContent(Consumed(rounds[..i]))
      invariant published == Visible(Consumed(rounds[..i]), includeProcess, includeFinal)
      invariant executor.transcript + (if executor.pending.Some? then [LogLine(executor.pending.value)] else [])
             == log + LogLines(Consumed(rounds[..i]))
    {
      executor.Resume();
      if !Continues(rounds[i]) {
        StopsAt(rounds, i);
      }
      match rounds[i] {
        case Cancelled =>
          return CancelledRun(finalOutputText, processContent), published;
        case Finished(completion) =>
          return CompletedRun(completion, finalOutputText, processContent), published;
        case Rejected(code, message) =>
          return FailedRun(code, message), published;
        case Event(event) =>
          executor.Yield(event);
          if event.RunFailed? {
            return FailedRun(event.code, event.message), published;
          }
          OneMoreRound(rounds, i, includeProcess, includeFinal, log);
          if (includeProcess && (event.ProcessDelta? || event.Action?))
             || (includeFinal && (event.OutputDelta? || event.OutputCompleted?)) {
            published := published + [event];
          }
          if event.OutputDelta? {
            finalOutputText := finalOutputText + event.text;
          }
          if event.ProcessDelta? {
            processContent := processContent + [Text(event.text)];
          }
          if event.Action? {
            processContent := processContent +
              [ToolCall(event.toolCallId, event.name, event.status, NonEmpty(event.arguments),
                        if event.status.Completed? then NonEmpty(event.result) else None,
                        if event.status.Error? then NonEmpty(event.error) else None)];
          }
      }
    }
    executor.Resume();
    assert rounds[..|rounds|] == rounds;
    ConsumedSoFar(rounds, |rounds|);
    result := Waiting;
  }

  // ----- live and replay agree -----

  /** The optional strings that matter for an event's status are absent or non-empty. */
  predicate HasPlainStrings(event: RunEvent) {
    event.Action? ==>
      && event.arguments != Some("")
      && (event.status.Completed? ==> event.result != Some(""))
      && (event.status.Error? ==> event.error != Some(""))
  }

  ghost predicate NeverFails(events: seq<RunEvent>) {
    forall i :: 0 <= i < |events| ==> !events[i].RunFailed?
  }

  lemma {:induction false} ItemsAgree(events: seq<RunEvent>)
    ensures |FlatMap(PlainItem, LogLines(events))| == |LiveContent(events)|
    ensures FlatMap(PlainItem, LogLines(events)) == LiveContent(events)
            <==> forall i :: 0 <= i < |events| ==> HasPlainStrings(events[i])
    ensures NeverFails(events) ==> FlatMap(PlainOutput, LogLines(events)) == LiveText(events)
  {
    hide PlainItem, LiveItem, LogLine, HasPlainStrings, PlainOutput, OutputOf;
    if events != [] {
      var front, last := events[..|events| - 1], events[|events| - 1];
      ItemsAgree(front);
      assert LogLines(events)[..|front|] == LogLines(front);
      ItemAgrees(last);
      AppendAgrees(FlatMap(PlainItem, LogLines(front)), LiveContent(front), PlainItem(LogLine(last)), LiveItem(last));
    }
  }

  lemma {:induction false} ItemAgrees(event: RunEvent)
    ensures |PlainItem(LogLine(event))| == |LiveItem(event)|
    ensures PlainItem(LogLine(event)) == LiveItem(event) <==> HasPlainStrings(event)
    ensures !event.RunFailed? ==> PlainOutput(LogLine(event)) == OutputOf(event)
  {
  }

  lemma {:induction false} AppendAgrees<T>(a: seq<T>, b: seq<T>, x: seq<T>, y: seq<T>)
    requires |a| == |b| && |x| == |y|
    ensures a + x == b + y <==> a == b && x == y
  {
    if a + x == b + y {
      assert (a + x)[..|a|] == a && (b + y)[..|b|] == b && (a + x)[|a|..] == x && (b + y)[|b|..] == y;
    }
  }

  /**
   For every earlier log and every run that does not fail: replaying the log after the run adds exactly the recorded
   output text, and adds exactly the recorded process content if and only if no event carries an empty optional string.
   */
  lemma {:induction false} LiveAndReplayAgree(now: string, earlier: seq<Line>, job: Job, events: seq<RunEvent>)
    requires job.userEntry.User? && NeverFails(events)
    ensures var before, after := Replay(now, earlier), Replay(now, earlier + [UserLogLine(job)] + LogLines(events));
            && SpokenText(after) == SpokenText(before) + LiveText(events)
            && (ProcessItems(after) == ProcessItems(before) + LiveContent(events)
                <==> forall i :: 0 <= i < |events| ==> HasPlainStrings(events[i]))
  {
    var run := [UserLogLine(job)] + LogLines(events);
    assert earlier + [UserLogLine(job)] + LogLines(events) == earlier + run;
    ReplayRun(now, earlier, run);
    RunFolds(job, events);
    ItemsAgree(events);
    var items := ProcessItems(Replay(now, earlier));
    AppendAgrees(items, items, FlatMap(PlainItem, run), LiveContent(events));
  }

  lemma {:induction false} RunFolds(job: Job, events: seq<RunEvent>)
    requires job.userEntry.User?
    ensures var run := [UserLogLine(job)] + LogLines(events);
            && FlatMap(PlainItem, run) == FlatMap(PlainItem, LogLines(events))
            && FlatMap(PlainOutput, run) == FlatMap(PlainOutput, LogLines(events))
  {
    FlatMapAppend(PlainItem, [UserLogLine(job)], LogLines(events));
    FlatMapAppend(PlainOutput, [UserLogLine(job)], LogLines(events));
    FlatMapOne(PlainItem, UserLogLine(job));
    FlatMapOne(PlainOutput, UserLogLine(job));
  }

  /** Events that carry the ids the job prescribes. */
  predicate CarriesIds(event: RunEvent, job: Job) {
    match event
    case ProcessDelta(entryId, parentId, _) => entryId == job.processEntryId && parentId == job.userEntry.id
    case Action(_, entryId, parentId, _, _, _, _, _) => entryId == job.processEntryId && parentId == job.userEntry.id
    case OutputDelta(entryId, parentId, _) => entryId == job.finalEntryId && parentId == job.processEntryId
    case _ => false
  }

  /** The user entry as the log tells it: its text as one item, and the last entry as parent if it names none. */
  function ReplayedUser(before: seq<Entry>, job: Job): Entry
    requires job.userEntry.User?
  {
    var text := [Text(UserText(job))];
    var last := if before == [] then None else Some(before[|before| - 1].id);
    User(job.userEntry.id, if job.userEntry.rootOrParent.Some? then job.userEntry.rootOrParent else last,
         job.userEntry.createdAt, text, text)
  }

  /** The entries of a completed run as the service records them, around a given user entry. */
  function RunEntries(now: string, user: Entry, job: Job, events: seq<RunEvent>): seq<Entry> {
    [user,
     Process(job.processEntryId, job.userEntry.id, now, LiveContent(events)),
     Assistant(job.finalEntryId, job.processEntryId, now, [Text(LiveText(events))])]
  }

  /** A user entry of one text item, which was its input. */
  predicate IsOneText(user: Entry)
    requires user.User?
  {
    |user.content| == 1 && user.content[0].Text? && user.input == user.content
  }

  lemma {:induction false} UserIsReplayed(before: seq<Entry>, job: Job)
    requires job.userEntry.User?
    ensures ReplayedUser(before, job) == job.userEntry
            <==> IsOneText(job.userEntry) && (job.userEntry.rootOrParent.Some? || before == [])
  {
    var user := job.userEntry;
    if |user.content| == 1 && user.content[0].Text? {
      TextOfOne(user.content[0].text);
      assert user.content == [Text(user.content[0].text)];
    }
  }

  ghost predicate ArePlain(events: seq<RunEvent>) {
    forall i :: 0 <= i < |events| ==> HasPlainStrings(events[i])
  }

  /**
   Entry for entry, ids and parents included: a run of events that carry the job's ids, followed by
   `final.output.completed`, replays as the service recorded it if and only if it starts with a process or action event,
   has output and no empty optional strings, its user entry is one text, and that entry names its parent unless it is
   the first of the log.
   */
  lemma {:induction false} ReplayedRunIsRecorded(now: string, earlier: seq<Line>, job: Job, events: seq<RunEvent>)
    requires job.userEntry.User? && job.processEntryId != job.finalEntryId
    requires forall i :: 0 <= i < |events| ==> CarriesIds(events[i], job)
    ensures var before := Replay(now, earlier);
            Replay(now, earlier + [UserLogLine(job)] + LogLines(events) + [CompletedLine])
              == before + RunEntries(now, job.userEntry, job, events)
            <==> && events != [] && !events[0].OutputDelta? && LiveText(events) != "" && ArePlain(events)
                 && IsOneText(job.userEntry) && (job.userEntry.rootOrParent.Some? || before == [])
  {
    var run := [UserLogLine(job)] + LogLines(events);
    var before := Replay(now, earlier);
    RunTurnShape(job, events);
    OneTurn(now, earlier, run + [CompletedLine]);
    TurnOfRun(now, before, job.userEntry, job, events);
    UserIsReplayed(before, job);
    hide Replay, TurnEntries, LiveText, LiveContent, RunEntries, LogLines, IsOneText, ReplayedUser;
    AppendAssociates(earlier, [UserLogLine(job)], LogLines(events));
    AppendAssociates(earlier, run, [CompletedLine]);
    SameAfter(before, TurnEntries(now, before, run + [CompletedLine]), RunEntries(now, job.userEntry, job, events));
  }

  lemma {:induction false} SameAfter<T>(before: seq<T>, a: seq<T>, b: seq<T>)
    ensures before + a == before + b <==> a == b
  {
    if before + a == before + b {
      assert a == (before + a)[|before|..] && b == (before + b)[|before|..];
    }
  }

  lemma {:induction false} RunTurnShape(job: Job, events: seq<RunEvent>)
    requires job.userEntry.User?
    requires forall i :: 0 <= i < |events| ==> CarriesIds(events[i], job)
    ensures var turn := [UserLogLine(job)] + LogLines(events) + [CompletedLine];
            && turn[0].UserLine? && (forall i :: 0 < i < |turn| ==> !turn[i].UserLine?)
            && (forall i :: 0 <= i < |turn| - 1 ==> !Closes(turn[i]))
  {
  }

  lemma {:induction false} TurnOfRun(now: string, before: seq<Entry>, user: Entry, job: Job, events: seq<RunEvent>)
    requires job.userEntry.User? && job.processEntryId != job.finalEntryId
    requires forall i :: 0 <= i < |events| ==> CarriesIds(events[i], job)
    ensures TurnEntries(now, before, [UserLogLine(job)] + LogLines(events) + [CompletedLine])
              == RunEntries(now, user, job, events)
            <==> && events != [] && !events[0].OutputDelta? && LiveText(events) != "" && ArePlain(events)
                 && user == ReplayedUser(before, job)
  {
    var open := [UserLogLine(job)] + LogLines(events);
    RunTurnParts(now, before, job, events);
    TurnSnoc(now, before, open, CompletedLine);
    hide LogLines, Items, OutputText, FirstWork, FirstOutput, LiveText, LiveContent, TurnEntries, RunEntries;
    FlushOfRun(now, before, open + [CompletedLine], user, job, events);
  }

  lemma {:induction false} FlushOfRun(now: string, before: seq<Entry>, turn: seq<Line>, user: Entry, job: Job,
                                      events: seq<RunEvent>)
    requires job.userEntry.User? && job.processEntryId != job.finalEntryId
    requires events != [] ==> CarriesIds(events[0], job)
    requires turn != [] && turn[0] == UserLogLine(job)
    requires FirstWork(turn) == if events == [] then None else Some(LogLine(events[0]))
    requires FirstOutput(turn).None? ==> LiveText(events) == ""
    requires FirstOutput(turn).Some? ==>
               FirstOutput(turn).value.entryId == Some(job.finalEntryId)
               && FirstOutput(turn).value.parentId == Some(job.processEntryId)
    requires OutputText(turn) == LiveText(events)
    ensures TurnEntries(now, before, turn) == RunEntries(now, user, job, events)
            <==> && events != [] && !events[0].OutputDelta? && LiveText(events) != ""
                 && Items(turn) == LiveContent(events) && user == ReplayedUser(before, job)
  {
    hide FirstWork, FirstOutput, Items, OutputText, LiveText, LiveContent;
    TextOfOne(LiveText(events));
    var recorded, replayed := RunEntries(now, user, job, events), TurnEntries(now, before, turn);
    var replayedUser := ReplayedUser(before, job);
    assert UserOf(now, before, turn) == Some(replayedUser);
    if events == [] || LiveText(events) == "" {
      assert |replayed| < 3;
    } else {
      assert replayed == [replayedUser, ProcessOf(now, before, turn).value, recorded[2]];
      assert events[0].OutputDelta? ==> replayed[1].id == job.finalEntryId;
      assert recorded[1].content == LiveContent(events) && replayed[1].content == Items(turn);
      assert !events[0].OutputDelta? && Items(turn) == LiveContent(events) ==> replayed[1] == recorded[1];
      assert replayed == recorded <==> replayed[0] == recorded[0] && replayed[1] == recorded[1];
    }
  }

  /** The pieces of the turn a run leaves in the log. */
  lemma {:induction false} RunTurnParts(now: string, before: seq<Entry>, job: Job, events: seq<RunEvent>)
    requires job.userEntry.User?
    requires forall i :: 0 <= i < |events| ==> CarriesIds(events[i], job)
    ensures var turn := [UserLogLine(job)] + LogLines(events);
            && FirstWork(turn) == (if events == [] then None else Some(LogLine(events[0])))
            && (FirstOutput(turn).None? ==> LiveText(events) == "")
            && (FirstOutput(turn).Some? ==>
                  FirstOutput(turn).value.entryId == Some(job.finalEntryId)
                  && FirstOutput(turn).value.parentId == Some(job.processEntryId))
            && (Items(turn) == LiveContent(events) <==> ArePlain(events))
            && OutputText(turn) == LiveText(events)
  {
    var turn := [UserLogLine(job)] + LogLines(events);
    RunTurnShape(job, events);
    AreRunLines(job, events);
    RunLinesPlain(turn);
    RunFolds(job, events);
    ItemsAgree(events);
    FirstOfRun(now, before, job, events);
    NoWorkNoItems(turn);
  }

  lemma {:induction false} AreRunLines(job: Job, events: seq<RunEvent>)
    requires job.userEntry.User?
    requires forall i :: 0 <= i < |events| ==> CarriesIds(events[i], job)
    ensures var turn := [UserLogLine(job)] + LogLines(events);
            forall i :: 0 <= i < |turn| ==> turn[i].UserLine? || IsRunLine(turn[i])
    ensures NeverFails(events)
  {
  }

  lemma {:induction false} FirstOfRun(now: string, before: seq<Entry>, job: Job, events: seq<RunEvent>)
    requires job.userEntry.User?
    requires forall i :: 0 <= i < |events| ==> CarriesIds(events[i], job)
    ensures var turn := [UserLogLine(job)] + LogLines(events);
            && FirstWork(turn) == (if events == [] then None else Some(LogLine(events[0])))
            && (FirstOutput(turn).Some? ==>
                  FirstOutput(turn).value.entryId == Some(job.finalEntryId)
                  && FirstOutput(turn).value.parentId == Some(job.processEntryId))
  {
    hide FirstWork, FirstOutput, Items, OutputText, UserOf, LogLines, LineItem, AddOutput;
    if events == [] {
      NothingLogged(now, before, job);
    } else {
      var front, last := events[..|events| - 1], events[|events| - 1];
      FirstOfRun(now, before, job, front);
      LogLinesSnoc(job, events);
      TurnSnoc(now, before, [UserLogLine(job)] + LogLines(front), LogLine(last));
      assert CarriesIds(last, job);
    }
  }

  lemma {:induction false} NothingLogged(now: string, before: seq<Entry>, job: Job)
    requires job.userEntry.User?
    ensures var turn := [UserLogLine(job)] + LogLines([]); FirstWork(turn).None? && FirstOutput(turn).None?
  {
    assert [UserLogLine(job)] + LogLines([]) == [UserLogLine(job)];
    TurnSnoc(now, before, [], UserLogLine(job));
    assert [] + [UserLogLine(job)] == [UserLogLine(job)];
  }

  lemma {:induction false} LogLinesSnoc(job: Job, events: seq<RunEvent>)
    requires events != [] && job.userEntry.User?
    ensures [UserLogLine(job)] + LogLines(events)
         == [UserLogLine(job)] + LogLines(events[..|events| - 1]) + [LogLine(events[|events| - 1])]
  {
  }
}
