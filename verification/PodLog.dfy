/**
 The scheduler's view of a sandbox pod (`scheduler.ts`): it polls the pod's log, which the pod is still appending to,
 and yields each event once. The log is text; every poll sees some beginning of it.
 */
module PodLog {
  import opened Contracts
  import opened Text

  datatype PodEvent<+E> = Worker(event: E) | SandboxDone(data: Option<Completion>)

  /** A log line after `JSON.parse`: not JSON, JSON without a string `type`, or an event. */
  datatype LineJson<+E> = NotJson | NoType | Typed(event: PodEvent<E>)

  /** How lines parse, and the `process.delta` made of a line that is not JSON. */
  datatype LogFormat<!E> = LogFormat(parse: string -> LineJson<E>, plain: string -> E)

  function LineEvents<E>(format: LogFormat<E>, line: string): seq<PodEvent<E>> {
    if Trim(line) == "" then []
    else match format.parse(line)
      case NotJson => [Worker(format.plain(Trim(line)))]
      case NoType => []
      case Typed(event) => [event]
  }

  function LineReader<E>(format: LogFormat<E>): string -> seq<PodEvent<E>> {
    line => LineEvents(format, line)
  }

  /** The events of a log text. */
  function Events<E>(format: LogFormat<E>, text: string): seq<PodEvent<E>> {
    FlatMap(LineReader(format), Lines(text))
  }

  method ReadLogs<E>(format: LogFormat<E>, text: string) returns (events: seq<PodEvent<E>>)
    ensures events == Events(format, text)
  {
    var lines := Lines(text);
    events := [];
    for i := 0 to |lines|
      invariant events == FlatMap(LineReader(format), lines[..i])
    {
      FlatMapSnoc(LineReader(format), lines, i);
      if Trim(lines[i]) == "" {
        continue;
      }
      match format.parse(lines[i]) {
        case NotJson => events := events + [Worker(format.plain(Trim(lines[i])))];
        case NoType =>
        case Typed(event) => events := events + [event];
      }
    }
    assert lines[..|lines|] == lines;
  }

  // ----- one batch -----

  /** Events handed on, and the data of the done marker if it was met. */
  datatype Batch<+E> = Batch(yielded: seq<E>, done: Option<Completion>)

  function DoneData(data: Option<Completion>): Completion {
    GetOr(data, Completion(None))
  }

  /** What is yielded from index `from` on, up to the first done marker. */
  function Take<E>(events: seq<PodEvent<E>>, from: nat): Batch<E>
    decreases if from < |events| then |events| - from else 0
  {
    if from >= |events| then Batch([], None)
    else match events[from]
      case SandboxDone(data) => Batch([], Some(DoneData(data)))
      case Worker(event) =>
        var rest := Take(events, from + 1);
        Batch([event] + rest.yielded, rest.done)
  }

  method YieldNew<E>(events: seq<PodEvent<E>>, consumedCount: nat) returns (batch: Batch<E>, consumed: nat)
    ensures batch == Take(events, consumedCount)
    ensures consumed == consumedCount + |batch.yielded|
  {
    var yielded: seq<E> := [];
    consumed := consumedCount;
    var i := consumedCount;
    while i < |events|
      invariant consumedCount <= i == consumed == consumedCount + |yielded|
      invariant Take(events, consumedCount)
             == Batch(yielded + Take(events, i).yielded, Take(events, i).done)
    {
      match events[i] {
        case SandboxDone(data) =>
          assert yielded + [] == yielded;
          return Batch(yielded, Some(DoneData(data))), consumed;
        case Worker(event) =>
          AppendAssociates(yielded, [event], Take(events, i + 1).yielded);
          yielded := yielded + [event];
          consumed := i + 1;
          i := i + 1;
      }
    }
    assert yielded + [] == yielded;
    batch := Batch(yielded, None);
  }

  // ----- the polling loop -----

  /** One round: the log, the phase, and the log again if the phase was terminal. A read that fails is `None`. */
  datatype Poll = Poll(log: Option<string>, phase: string, finalLog: Option<string>)

  datatype Outcome =
    | Polling
    | Returned(completion: Completion)
    | ReadFailed
    | NoDoneMarker

  datatype Progress<+E> = Progress(yielded: seq<E>, outcome: Outcome)

  predicate IsTerminal(phase: string) {
    phase == "Succeeded" || phase == "Failed"
  }

  function ReadStep<E>(format: LogFormat<E>, p: Progress<E>, log: Option<string>): Progress<E> {
    if log.None? then p.(outcome := ReadFailed)
    else
      var batch := Take(Events(format, log.value), |p.yielded|);
      Progress(p.yielded + batch.yielded, if batch.done.Some? then Returned(batch.done.value) else p.outcome)
  }

  function PollStep<E>(format: LogFormat<E>, p: Progress<E>, poll: Poll): Progress<E> {
    var first := ReadStep(format, p, poll.log);
    if !first.outcome.Polling? || !IsTerminal(poll.phase) then first
    else
      var last := ReadStep(format, first, poll.finalLog);
      if last.outcome.Polling? then last.(outcome := NoDoneMarker) else last
  }

  /** The run after a number of polls; once it is over, later polls do not happen. */
  function AfterPolls<E>(format: LogFormat<E>, polls: seq<Poll>): Progress<E> {
    if polls == [] then Progress([], Polling)
    else
      var before := AfterPolls(format, polls[..|polls| - 1]);
      if before.outcome.Polling? then PollStep(format, before, polls[|polls| - 1]) else before
  }

  lemma {:induction false} OverStaysOver<E>(format: LogFormat<E>, polls: seq<Poll>, i: nat)
    requires i <= |polls| && !AfterPolls(format, polls[..i]).outcome.Polling?
    ensures AfterPolls(format, polls) == AfterPolls(format, polls[..i])
  {
    if i == |polls| {
      assert polls[..i] == polls;
    } else {
      assert polls[..|polls| - 1][..i] == polls[..i];
      OverStaysOver(format, polls[..|polls| - 1], i);
    }
  }

  lemma {:induction false} NoPolls<E>(format: LogFormat<E>, polls: seq<Poll>)
    ensures AfterPolls(format, polls[..0]) == Progress([], Polling) && polls[..|polls|] == polls
  {
  }

  lemma {:induction false} PollOneMore<E>(format: LogFormat<E>, polls: seq<Poll>, i: nat)
    requires i < |polls| && AfterPolls(format, polls[..i]).outcome.Polling?
    ensures var now := PollStep(format, AfterPolls(format, polls[..i]), polls[i]);
            && AfterPolls(format, polls[..i + 1]) == now
            && (!now.outcome.Polling? ==> AfterPolls(format, polls) == now)
  {
    assert polls[..i + 1][..i] == polls[..i];
    if !AfterPolls(format, polls[..i + 1]).outcome.Polling? {
      OverStaysOver(format, polls, i + 1);
    }
  }

  /** The loop of `run`, for as long as the environment answers polls. */
  method Run<E>(format: LogFormat<E>, polls: seq<Poll>) returns (yielded: seq<E>, outcome: Outcome)
    ensures Progress(yielded, outcome) == AfterPolls(format, polls)
  {
    hide AfterPolls, Events, Take;
    NoPolls(format, polls);
    yielded := [];
    outcome := Polling;
    var consumedCount := 0;
    for i := 0 to |polls|
      invariant outcome.Polling? && consumedCount == |yielded|
      invariant Progress(yielded, outcome) == AfterPolls(format, polls[..i])
    {
      PollOneMore(format, polls, i);
      if polls[i].log.None? {
        return yielded, ReadFailed;
      }
      var events := ReadLogs(format, polls[i].log.value);
      var batch, consumed := YieldNew(events, consumedCount);
      yielded, consumedCount := yielded + batch.yielded, consumed;
      if batch.done.Some? {
        return yielded, Returned(batch.done.value);
      }
      if IsTerminal(polls[i].phase) {
        if polls[i].finalLog.None? {
          return yielded, ReadFailed;
        }
        var finalEvents := ReadLogs(format, polls[i].finalLog.value);
        batch, consumed := YieldNew(finalEvents, consumedCount);
        yielded, consumedCount := yielded + batch.yielded, consumed;
        if batch.done.Some? {
          return yielded, Returned(batch.done.value);
        }
        return yielded, NoDoneMarker;
      }
    }
  }

  // ----- a growing log -----

  /** `seen` is a beginning of `log` that does not end inside a line. */
  predicate IsLineCut(seen: string, log: string) {
    && seen <= log
    && (seen == log || seen == "" || seen[|seen| - 1] == '\n' || log[|seen|] == '\n')
  }

  lemma {:induction false} BlankTail<E>(format: LogFormat<E>, a: string)
    ensures Events(format, "") == []
    ensures Events(format, a + "\n") == Events(format, a)
  {
    FlatMapOne(LineReader(format), "");
    LinesJoin(a, "");
    assert a + "\n" + "" == a + "\n";
    FlatMapAppend(LineReader(format), Lines(a), [""]);
  }

  lemma {:induction false} EventsJoin<E>(format: LogFormat<E>, a: string, b: string)
    ensures Events(format, a + "\n" + b) == Events(format, a) + Events(format, b)
  {
    LinesJoin(a, b);
    FlatMapAppend(LineReader(format), Lines(a), Lines(b));
  }

  /** A read that ends at a line boundary sees a beginning of the events. */
  lemma {:induction false} LineCutSeesPrefix<E>(format: LogFormat<E>, seen: string, log: string)
    requires IsLineCut(seen, log)
    ensures Events(format, seen) <= Events(format, log)
  {
    BlankTail(format, "");
    if seen != log && seen != "" {
      if log[|seen|] == '\n' {
        var rest := log[|seen| + 1..];
        assert log == seen + "\n" + rest;
        EventsJoin(format, seen, rest);
      } else {
        var body, rest := seen[..|seen| - 1], log[|seen|..];
        assert seen == body + "\n" && log == body + "\n" + rest;
        BlankTail(format, body);
        EventsJoin(format, body, rest);
      }
    }
  }

  // ----- exactly once, in order -----

  /** Continuing at the right index in a beginning of the events yields the next stretch of the whole. */
  lemma {:induction false} TakeContinues<E>(events: seq<PodEvent<E>>, seen: seq<PodEvent<E>>, from: nat)
    requires seen <= events && from <= |Take(events, 0).yielded|
    ensures var all := Take(events, 0);
            var to := if |seen| < |all.yielded| then |seen| else |all.yielded|;
            Take(seen, from) == Batch(if from < to then all.yielded[from..to] else [],
                                      if |seen| > |all.yielded| then all.done else None)
    decreases |events| - from
  {
    TakeAt(events, 0, from);
    var all := Take(events, 0);
    assert all.yielded[from..] == Take(events, from).yielded;
    if from < |seen| {
      assert seen[from] == events[from];
      if from < |all.yielded| {
        TakeContinues(events, seen, from + 1);
        var to := if |seen| < |all.yielded| then |seen| else |all.yielded|;
        assert events[from].Worker? && all.yielded[from] == events[from].event;
        SliceFromFirst(all.yielded, from, to);
      }
    }
  }

  lemma {:induction false} SliceFromFirst<T>(s: seq<T>, from: nat, to: nat)
    requires from < to <= |s|
    ensures s[from..to] == [s[from]] + s[from + 1..to]
  {
  }

  lemma {:induction false} TakeAt<E>(events: seq<PodEvent<E>>, from: nat, k: nat)
    requires k <= |Take(events, from).yielded|
    ensures from + k <= |events| || k == 0
    ensures Take(events, from).yielded[k..] == Take(events, from + k).yielded
    ensures Take(events, from).done == Take(events, from + k).done
    decreases k
  {
    if k > 0 {
      TakeAt(events, from + 1, k - 1);
      assert Take(events, from).yielded[k..] == Take(events, from + 1).yielded[k - 1..];
    }
  }

  /** Every log a poll sees holds a beginning of the pod's events. */
  ghost predicate SeesBeginnings<E>(format: LogFormat<E>, polls: seq<Poll>, events: seq<PodEvent<E>>) {
    forall i :: 0 <= i < |polls| ==>
                  && (polls[i].log.Some? ==> Events(format, polls[i].log.value) <= events)
                  && (polls[i].finalLog.Some? ==> Events(format, polls[i].finalLog.value) <= events)
  }

  /** The state of a run over a pod whose whole log holds `events`. */
  ghost predicate OnTrack<E>(p: Progress<E>, events: seq<PodEvent<E>>) {
    && p.yielded <= Take(events, 0).yielded
    && (p.outcome.Returned? ==>
          p.yielded == Take(events, 0).yielded && Take(events, 0).done == Some(p.outcome.completion))
  }

  lemma {:induction false} ReadOnTrack<E>(format: LogFormat<E>, p: Progress<E>, log: Option<string>,
                                          events: seq<PodEvent<E>>)
    requires p.outcome.Polling? && OnTrack(p, events)
    requires log.Some? ==> Events(format, log.value) <= events
    ensures OnTrack(ReadStep(format, p, log), events)
    ensures log.Some? && ReadStep(format, p, log).outcome.Polling? ==>
              |Events(format, log.value)| <= |ReadStep(format, p, log).yielded|
    ensures log.Some? && Events(format, log.value) == events ==>
              && ReadStep(format, p, log).yielded == Take(events, 0).yielded
              && ReadStep(format, p, log).outcome
                 == if Take(events, 0).done.Some? then Returned(Take(events, 0).done.value) else Polling
  {
    hide Events, Take;
    if log.Some? {
      TakeContinues(events, Events(format, log.value), |p.yielded|);
      MarkerMeansMore(events, 0);
      SlicesOfPrefix(Take(events, 0).yielded, p.yielded, |Events(format, log.value)|);
    }
  }

  lemma {:induction false} SlicesOfPrefix<T>(all: seq<T>, part: seq<T>, to: nat)
    requires part <= all
    ensures part + all[|part|..] == all
    ensures |part| <= to <= |all| ==> part + all[|part|..to] == all[..to]
  {
  }

  lemma {:induction false} MarkerMeansMore<E>(events: seq<PodEvent<E>>, from: nat)
    requires from <= |events|
    ensures Take(events, from).done.Some? <==> from + |Take(events, from).yielded| < |events|
    ensures from + |Take(events, from).yielded| <= |events|
    decreases |events| - from
  {
    if from < |events| && events[from].Worker? {
      MarkerMeansMore(events, from + 1);
    }
  }

  lemma {:induction false} PollOnTrack<E>(format: LogFormat<E>, p: Progress<E>, poll: Poll, events: seq<PodEvent<E>>)
    requires p.outcome.Polling? && OnTrack(p, events) && SeesBeginnings(format, [poll], events)
    ensures OnTrack(PollStep(format, p, poll), events)
  {
    hide Events, Take;
    assert [poll][0] == poll;
    ReadOnTrack(format, p, poll.log, events);
    var first := ReadStep(format, p, poll.log);
    if first.outcome.Polling? && IsTerminal(poll.phase) {
      ReadOnTrack(format, first, poll.finalLog, events);
    }
  }

  lemma {:induction false} SeesBeginningsSplit<E>(format: LogFormat<E>, polls: seq<Poll>, events: seq<PodEvent<E>>)
    requires SeesBeginnings(format, polls, events) && polls != []
    ensures SeesBeginnings(format, polls[..|polls| - 1], events)
    ensures SeesBeginnings(format, [polls[|polls| - 1]], events)
  {
    hide Events;
    var before := polls[..|polls| - 1];
    assert forall i :: 0 <= i < |before| ==> before[i] == polls[i];
  }

  /**
   Exactly once and in order: with appends, stale reads and termination interleaved in any way, a run has always
   yielded a beginning of the events before the first done marker; when it returns it has yielded all of them and
   returns that marker's data.
   */
  lemma {:induction false} ExactlyOnce<E>(format: LogFormat<E>, polls: seq<Poll>, events: seq<PodEvent<E>>)
    requires SeesBeginnings(format, polls, events)
    ensures OnTrack(AfterPolls(format, polls), events)
  {
    hide Events, Take, PollStep, SeesBeginnings;
    if polls == [] {
      StartOnTrack(format, events);
    } else {
      SeesBeginningsSplit(format, polls, events);
      ExactlyOnce(format, polls[..|polls| - 1], events);
      if AfterPolls(format, polls[..|polls| - 1]).outcome.Polling? {
        PollOnTrack(format, AfterPolls(format, polls[..|polls| - 1]), polls[|polls| - 1], events);
      }
    }
  }

  lemma {:induction false} StartOnTrack<E>(format: LogFormat<E>, events: seq<PodEvent<E>>)
    ensures OnTrack(AfterPolls(format, []), events)
  {
  }

  /** A poll of a terminated pod that reads the whole log ends the run: with the marker's data, or by throwing. */
  lemma {:induction false} CompleteReadDecides<E>(format: LogFormat<E>, polls: seq<Poll>, poll: Poll,
                                                  events: seq<PodEvent<E>>)
    requires SeesBeginnings(format, polls + [poll], events)
    requires AfterPolls(format, polls).outcome.Polling?
    requires poll.log.Some? && IsTerminal(poll.phase)
    requires poll.finalLog.Some? && Events(format, poll.finalLog.value) == events
    ensures AfterPolls(format, polls + [poll])
         == Progress(Take(events, 0).yielded,
                     if Take(events, 0).done.Some? then Returned(Take(events, 0).done.value) else NoDoneMarker)
  {
    hide Events, Take;
    var all := polls + [poll];
    assert all[..|polls|] == polls && all[|polls|] == poll;
    assert SeesBeginnings(format, polls, events) by {
      assert forall i :: 0 <= i < |polls| ==> polls[i] == all[i];
    }
    ExactlyOnce(format, polls, events);
    var p := AfterPolls(format, polls);
    ReadOnTrack(format, p, poll.log, events);
    var first := ReadStep(format, p, poll.log);
    if first.outcome.Polling? {
      ReadOnTrack(format, first, poll.finalLog, events);
    }
  }

  /** While the run polls on, it lags behind nothing it has read: every event seen has been yielded. */
  lemma {:induction false} NeverLags<E>(format: LogFormat<E>, polls: seq<Poll>, events: seq<PodEvent<E>>, i: nat)
    requires SeesBeginnings(format, polls, events) && i < |polls|
    requires AfterPolls(format, polls).outcome.Polling?
    ensures polls[i].log.Some? && |Events(format, polls[i].log.value)| <= |AfterPolls(format, polls).yielded|
  {
    hide Events, Take;
    var before, poll := polls[..|polls| - 1], polls[|polls| - 1];
    assert SeesBeginnings(format, before, events) by {
      assert forall k :: 0 <= k < |before| ==> before[k] == polls[k];
    }
    var p := AfterPolls(format, before);
    assert AfterPolls(format, polls) == ReadStep(format, p, poll.log);
    if i < |before| {
      NeverLags(format, before, events, i);
      assert before[i] == polls[i];
    } else {
      ExactlyOnce(format, before, events);
      ReadOnTrack(format, p, poll.log, events);
    }
  }

  ghost predicate ReadsWholeLines(polls: seq<Poll>, log: string) {
    forall i :: 0 <= i < |polls| ==>
      && (polls[i].log.Some? ==> IsLineCut(polls[i].log.value, log))
      && (polls[i].finalLog.Some? ==> IsLineCut(polls[i].finalLog.value, log))
  }

  lemma {:induction false} WholeLinesSeeBeginnings<E>(format: LogFormat<E>, polls: seq<Poll>, log: string)
    requires ReadsWholeLines(polls, log)
    ensures SeesBeginnings(format, polls, Events(format, log))
  {
    hide Events, IsLineCut;
    forall i | 0 <= i < |polls|
      ensures polls[i].log.Some? ==> Events(format, polls[i].log.value) <= Events(format, log)
      ensures polls[i].finalLog.Some? ==> Events(format, polls[i].finalLog.value) <= Events(format, log)
    {
      if polls[i].log.Some? {
        LineCutSeesPrefix(format, polls[i].log.value, log);
      }
      if polls[i].finalLog.Some? {
        LineCutSeesPrefix(format, polls[i].finalLog.value, log);
      }
    }
  }

  /** The whole story for a pod whose log is `log`: reads at line boundaries suffice. */
  lemma {:induction false} PodRunIsExactlyOnce<E>(format: LogFormat<E>, polls: seq<Poll>, log: string)
    requires ReadsWholeLines(polls, log)
    ensures OnTrack(AfterPolls(format, polls), Events(format, log))
  {
    WholeLinesSeeBeginnings(format, polls, log);
    ExactlyOnce(format, polls, Events(format, log));
  }

  /** What has been yielded is never taken back. */
  lemma {:induction false} YieldsOnlyGrow<E>(format: LogFormat<E>, polls: seq<Poll>, i: nat)
    requires i <= |polls|
    ensures AfterPolls(format, polls[..i]).yielded <= AfterPolls(format, polls).yielded
  {
    if i == |polls| {
      assert polls[..i] == polls;
    } else {
      assert polls[..|polls| - 1][..i] == polls[..i];
      YieldsOnlyGrow(format, polls[..|polls| - 1], i);
    }
  }

  // ----- reading inside a line -----

  /** Where the last line of a text starts. */
  function LineStart(text: string): (i: nat)
    ensures i <= |text| && '\n' !in text[i..] && (i == 0 || text[i - 1] == '\n')
  {
    if text == "" || text[|text| - 1] == '\n' then |text|
    else
      var i := LineStart(text[..|text| - 1]);
      assert text[i..] == text[..|text| - 1][i..] + [text[|text| - 1]];
      i
  }

  function LastLine(text: string): string {
    text[LineStart(text)..]
  }

  function LineEnd(text: string): (i: nat)
    ensures i <= |text| && '\n' !in text[..i] && (i == |text| || text[i] == '\n')
  {
    if text == "" || text[0] == '\n' then 0
    else
      var i := LineEnd(text[1..]);
      assert text[..i + 1] == [text[0]] + text[1..][..i];
      i + 1
  }

  predicate EndsLine(head: string) {
    head == "" || head[|head| - 1] == '\n'
  }

  lemma {:induction false} EventsOfLastLine<E>(format: LogFormat<E>, head: string, line: string)
    requires EndsLine(head) && '\n' !in line
    ensures Events(format, head + line) == Events(format, head) + LineEvents(format, line)
  {
    LinesOfOne(line);
    FlatMapOne(LineReader(format), line);
    BlankTail(format, "");
    if head == "" {
      assert head + line == line;
    } else {
      var body := head[..|head| - 1];
      assert head == body + "\n" && head + line == body + "\n" + line;
      BlankTail(format, body);
      EventsJoin(format, body, line);
    }
  }

  /** The events after a line, given the text from its end on. */
  function LaterEvents<E>(format: LogFormat<E>, tail: string): seq<PodEvent<E>> {
    if tail == "" then [] else Events(format, tail[1..])
  }

  lemma {:induction false} EventsOfLineWithin<E>(format: LogFormat<E>, head: string, line: string, tail: string)
    requires EndsLine(head) && '\n' !in line && (tail == "" || tail[0] == '\n')
    ensures Events(format, head + line + tail)
         == Events(format, head) + (LineEvents(format, line) + LaterEvents(format, tail))
  {
    hide Events, LineEvents, EndsLine;
    EventsOfLastLine(format, head, line);
    if tail == "" {
      assert head + line + tail == head + line;
      assert LineEvents(format, line) + [] == LineEvents(format, line);
    } else {
      assert tail == "\n" + tail[1..];
      AppendAssociates(head + line, "\n", tail[1..]);
      EventsJoin(format, head + line, tail[1..]);
      AppendAssociates(Events(format, head), LineEvents(format, line), Events(format, tail[1..]));
    }
  }

  /** The line of the log that a read ends in, as far as the log has it, and what follows that line. */
  function WholeLine(seen: string, log: string): string
    requires seen <= log
  {
    LastLine(seen) + log[|seen|..][..LineEnd(log[|seen|..])]
  }

  function AfterLine(seen: string, log: string): string
    requires seen <= log
  {
    log[|seen|..][LineEnd(log[|seen|..])..]
  }

  lemma {:induction false} ReadParts(seen: string, log: string) returns (head: string)
    requires seen <= log
    ensures seen == head + LastLine(seen) && log == head + WholeLine(seen, log) + AfterLine(seen, log)
    ensures EndsLine(head) && '\n' !in LastLine(seen) && '\n' !in WholeLine(seen, log)
    ensures AfterLine(seen, log) == "" || AfterLine(seen, log)[0] == '\n'
    ensures head == seen[..LineStart(seen)]
  {
    hide LineStart, LineEnd;
    var rest := log[|seen|..];
    head := seen[..LineStart(seen)];
    var more, tail := rest[..LineEnd(rest)], rest[LineEnd(rest)..];
    assert seen == head + LastLine(seen) && log == seen + rest && rest == more + tail;
    AppendAssociates(head, LastLine(seen), more);
    AppendAssociates(seen, more, tail);
  }

  lemma {:induction false} PrefixAfterCommon<T>(common: seq<T>, a: seq<T>, b: seq<T>)
    ensures common + a <= common + b <==> a <= b
  {
    if common + a <= common + b {
      assert a == (common + a)[|common|..] && b == (common + b)[|common|..];
    }
  }

  /**
   Exactly which reads are safe, for the parser at hand: a read sees a beginning of the log's events if and only if
   what it makes of its last line is a beginning of what the log makes of that line and the lines after it.
   */
  lemma {:induction false} SafeReads<E>(format: LogFormat<E>, seen: string, log: string)
    requires seen <= log
    ensures Events(format, seen) <= Events(format, log)
            <==> LineEvents(format, LastLine(seen))
                 <= LineEvents(format, WholeLine(seen, log)) + LaterEvents(format, AfterLine(seen, log))
  {
    hide Events, LineEvents, LaterEvents, LastLine, WholeLine, AfterLine, EndsLine;
    var head := ReadParts(seen, log);
    EventsOfLastLine(format, head, LastLine(seen));
    EventsOfLineWithin(format, head, WholeLine(seen, log), AfterLine(seen, log));
    PrefixAfterCommon(Events(format, head), LineEvents(format, LastLine(seen)),
                      LineEvents(format, WholeLine(seen, log)) + LaterEvents(format, AfterLine(seen, log)));
  }

  /**
   A line as events are logged: it parses, and every shorter beginning of it that is not blank is no JSON and makes
   another event.
   */
  ghost predicate IsEventLine<E>(format: LogFormat<E>, line: string) {
    && format.parse(line).Typed?
    && forall n {:trigger line[..n]} :: 0 <= n < |line| && Trim(line[..n]) != "" ==>
         && format.parse(line[..n]).NotJson?
         && Worker(format.plain(Trim(line[..n]))) != format.parse(line).event
  }

  lemma {:induction false} CutShortens(seen: string, log: string)
    requires seen <= log && !IsLineCut(seen, log)
    ensures |LastLine(seen)| < |WholeLine(seen, log)| && WholeLine(seen, log)[..|LastLine(seen)|] == LastLine(seen)
  {
    hide LineStart;
    assert log[|seen|..][0] == log[|seen|];
  }

  /** So a read that ends in an event's line is safe if and only if it ends at its end or before its first character. */
  lemma {:induction false} EventLineReads<E>(format: LogFormat<E>, seen: string, log: string)
    requires seen <= log && IsEventLine(format, WholeLine(seen, log))
    ensures Events(format, seen) <= Events(format, log) <==> IsLineCut(seen, log) || Trim(LastLine(seen)) == ""
  {
    var part, line := LastLine(seen), WholeLine(seen, log);
    SafeReads(format, seen, log);
    if IsLineCut(seen, log) {
      LineCutSeesPrefix(format, seen, log);
    } else if Trim(part) != "" {
      hide Events, LastLine, WholeLine, IsLineCut, Trim;
      CutShortens(seen, log);
      assert line == part + line[|part|..];
      BlankOnlyIfPartIs(part, line[|part|..]);
      assert line[..|part|] == part;
      assert LineEvents(format, part) == [Worker(format.plain(Trim(part)))];
      assert LineEvents(format, line) == [format.parse(line).event];
      DifferentHeads(Worker(format.plain(Trim(part))), format.parse(line).event,
                     LaterEvents(format, AfterLine(seen, log)));
    }
  }

  lemma {:induction false} DifferentHeads<T>(x: T, y: T, later: seq<T>)
    requires x != y
    ensures !([x] <= [y] + later)
  {
    assert ([y] + later)[0] == y;
  }

  lemma {:induction false} BlankOnlyIfPartIs(part: string, more: string)
    requires Trim(part) != ""
    ensures Trim(part + more) != ""
  {
    BlankIsAllSpace(part);
    BlankIsAllSpace(part + more);
    if forall i :: 0 <= i < |part + more| ==> IsSpace((part + more)[i]) {
      forall i | 0 <= i < |part| ensures IsSpace(part[i]) {
        assert part[i] == (part + more)[i];
      }
    }
  }

  lemma {:induction false} BlankIsAllSpace(s: string)
    ensures Trim(s) == "" <==> forall i :: 0 <= i < |s| ==> IsSpace(s[i])
  {
    StartDropsSpace(s);
    TrimStartStarts(s);
    EndKeepsNonSpace(TrimStart(s));
  }

  lemma {:induction false} StartDropsSpace(s: string)
    ensures TrimStart(s) == "" <==> forall i :: 0 <= i < |s| ==> IsSpace(s[i])
  {
    if s != "" && IsSpace(s[0]) {
      StartDropsSpace(s[1..]);
      assert forall i :: 0 < i < |s| ==> s[i] == s[1..][i - 1];
    }
  }

  lemma {:induction false} EndKeepsNonSpace(s: string)
    requires s != "" ==> !IsSpace(s[0])
    ensures TrimEnd(s) == "" <==> s == ""
  {
    if s != "" && IsSpace(s[|s| - 1]) {
      EndKeepsNonSpace(s[..|s| - 1]);
    }
  }

  // ----- runs that read inside lines -----

  lemma {:induction false} TakeShifts<E>(head: seq<PodEvent<E>>, rest: seq<PodEvent<E>>, from: nat)
    requires from <= |rest|
    ensures Take(head + rest, |head| + from) == Take(rest, from)
    decreases |rest| - from
  {
    if from < |rest| {
      assert (head + rest)[|head| + from] == rest[from];
      if rest[from].Worker? {
        TakeShifts(head, rest, from + 1);
      }
    }
  }

  /** A marker ends what is taken; without one it goes on with what follows. */
  lemma {:induction false} TakeAppend<E>(head: seq<PodEvent<E>>, rest: seq<PodEvent<E>>, from: nat)
    requires from <= |head|
    ensures var first, next := Take(head, from), Take(rest, 0);
            && Take(head + rest, from) == (if first.done.Some? then first
                                           else Batch(first.yielded + next.yielded, next.done))
            && (first.done.None? ==> |first.yielded| == |head| - from)
    decreases |head| - from
  {
    if from == |head| {
      TakeShifts(head, rest, 0);
      assert [] + Take(rest, 0).yielded == Take(rest, 0).yielded;
    } else {
      assert (head + rest)[from] == head[from];
      if head[from].Worker? {
        TakeAppend(head, rest, from + 1);
        AppendAssociates([head[from].event], Take(head, from + 1).yielded, Take(rest, 0).yielded);
      }
    }
  }

  /** What goes on at the right index completes what was yielded. */
  lemma {:induction false} TakeCompletes<E>(events: seq<PodEvent<E>>, yielded: seq<E>)
    requires yielded <= Take(events, 0).yielded
    ensures yielded + Take(events, |yielded|).yielded == Take(events, 0).yielded
    ensures Take(events, |yielded|).done == Take(events, 0).done
  {
    TakeAt(events, 0, |yielded|);
  }

  /** Reading `plain` in place of what comes after `head` is noticed exactly if that place is still to be yielded. */
  lemma {:induction false} ReadInPlaceOf<E>(head: seq<PodEvent<E>>, plain: E, rest: seq<PodEvent<E>>, yielded: seq<E>)
    requires !([Worker(plain)] <= rest) && yielded <= Take(head + rest, 0).yielded
    ensures var seen, all := head + [Worker(plain)], Take(head + rest, 0);
            var batch := Take(seen, |yielded|);
            if |yielded| <= |head| && Take(head, 0).done.None? then !(yielded + batch.yielded <= all.yielded)
            else yielded + batch.yielded <= all.yielded
                 && (batch.done.Some? ==> yielded + batch.yielded == all.yielded && batch.done == all.done)
  {
    var seen := head + [Worker(plain)];
    TakeAppend(head, [Worker(plain)], 0);
    TakeAppend(head, rest, 0);
    if Take(head, 0).done.Some? {
      TakeCompletes(seen, yielded);
    } else if |yielded| <= |head| {
      FirstTaken(rest);
      assert Take([Worker(plain)], 0).yielded == [plain] + Take([Worker(plain)], 1).yielded;
      hide Take;
      var before := Take(head, 0).yielded;
      assert yielded == before[..|yielded|];
      assert yielded <= Take(seen, 0).yielded;
      TakeCompletes(seen, yielded);
      assert (yielded + Take(seen, |yielded|).yielded)[|head|] == plain;
    } else {
      assert yielded + [] == yielded;
    }
  }

  lemma {:induction false} FirstTaken<E>(events: seq<PodEvent<E>>)
    ensures var taken := Take(events, 0).yielded; taken == [] || [Worker(taken[0])] <= events
  {
  }

  /** The events before the line a read ends in. */
  function EventsBefore<E>(format: LogFormat<E>, seen: string): seq<PodEvent<E>> {
    Events(format, seen[..LineStart(seen)])
  }

  /**
   A read that does harm: it sees no beginning of the log's events, which its last line spoils, nothing of that line
   has been yielded before, and no done marker stops the run ahead of it.
   */
  ghost predicate IsHarmful<E>(format: LogFormat<E>, p: Progress<E>, seen: string, log: string) {
    && !(Events(format, seen) <= Events(format, log))
    && |p.yielded| <= |EventsBefore(format, seen)| && Take(EventsBefore(format, seen), 0).done.None?
  }

  /** A read of a beginning of the log whose last line, if it spoils the read, is no JSON. */
  ghost predicate ReadsText<E>(format: LogFormat<E>, seen: string, log: string) {
    && seen <= log
    && (Events(format, seen) <= Events(format, log) || format.parse(LastLine(seen)).NotJson?)
  }

  lemma {:induction false} EventsAroundCut<E>(format: LogFormat<E>, seen: string, log: string)
    returns (rest: seq<PodEvent<E>>)
    requires seen <= log && !(Events(format, seen) <= Events(format, log)) && format.parse(LastLine(seen)).NotJson?
    ensures var plain := format.plain(Trim(LastLine(seen)));
            && !([Worker(plain)] <= rest)
            && Events(format, seen) == EventsBefore(format, seen) + [Worker(plain)]
            && Events(format, log) == EventsBefore(format, seen) + rest
  {
    hide Events, LastLine, WholeLine, AfterLine, Trim, EndsLine, LaterEvents;
    var head := ReadParts(seen, log);
    rest := LineEvents(format, WholeLine(seen, log)) + LaterEvents(format, AfterLine(seen, log));
    EventsOfLastLine(format, head, LastLine(seen));
    EventsOfLineWithin(format, head, WholeLine(seen, log), AfterLine(seen, log));
    SafeReads(format, seen, log);
  }

  /**
   One read, exactly: it keeps a run that is on track there if and only if it is not harmful, and after a harmful read
   what has been yielded is no beginning of what the log says.
   */
  lemma {:induction false} ReadIsHarmless<E>(format: LogFormat<E>, p: Progress<E>, seen: string, log: string)
    requires p.outcome.Polling? && OnTrack(p, Events(format, log)) && ReadsText(format, seen, log)
    ensures OnTrack(ReadStep(format, p, Some(seen)), Events(format, log)) <==> !IsHarmful(format, p, seen, log)
    ensures IsHarmful(format, p, seen, log) ==>
              !(ReadStep(format, p, Some(seen)).yielded <= Take(Events(format, log), 0).yielded)
  {
    hide Events, Take, LastLine, Trim, EventsBefore;
    if Events(format, seen) <= Events(format, log) {
      ReadOnTrack(format, p, Some(seen), Events(format, log));
    } else {
      var rest := EventsAroundCut(format, seen, log);
      ReadInPlaceOf(EventsBefore(format, seen), format.plain(Trim(LastLine(seen))), rest, p.yielded);
    }
  }

  /** Every read of the polls is a beginning of the log, and unparsable where it is spoiled. */
  ghost predicate PollsReadText<E>(format: LogFormat<E>, polls: seq<Poll>, log: string) {
    forall i :: 0 <= i < |polls| ==>
      && (polls[i].log.Some? ==> ReadsText(format, polls[i].log.value, log))
      && (polls[i].finalLog.Some? ==> ReadsText(format, polls[i].finalLog.value, log))
  }

  ghost predicate ReadHarms<E>(format: LogFormat<E>, p: Progress<E>, read: Option<string>, log: string) {
    read.Some? && IsHarmful(format, p, read.value, log)
  }

  /** One of the reads that the poll really makes is harmful. */
  ghost predicate PollHarms<E>(format: LogFormat<E>, p: Progress<E>, poll: Poll, log: string) {
    || ReadHarms(format, p, poll.log, log)
    || var first := ReadStep(format, p, poll.log);
       first.outcome.Polling? && IsTerminal(poll.phase) && ReadHarms(format, first, poll.finalLog, log)
  }

  lemma {:induction false} ReadKeepsTrack<E>(format: LogFormat<E>, p: Progress<E>, read: Option<string>, log: string)
    requires p.outcome.Polling? && OnTrack(p, Events(format, log))
    requires read.Some? ==> ReadsText(format, read.value, log)
    ensures OnTrack(ReadStep(format, p, read), Events(format, log)) <==> !ReadHarms(format, p, read, log)
    ensures ReadHarms(format, p, read, log) ==>
              !(ReadStep(format, p, read).yielded <= Take(Events(format, log), 0).yielded)
  {
    hide Events, Take, IsHarmful;
    if read.Some? {
      ReadIsHarmless(format, p, read.value, log);
    }
  }

  lemma {:induction false} PollKeepsTrack<E>(format: LogFormat<E>, p: Progress<E>, poll: Poll, log: string)
    requires p.outcome.Polling? && OnTrack(p, Events(format, log)) && PollsReadText(format, [poll], log)
    ensures OnTrack(PollStep(format, p, poll), Events(format, log)) <==> !PollHarms(format, p, poll, log)
    ensures PollHarms(format, p, poll, log) ==>
              !(PollStep(format, p, poll).yielded <= Take(Events(format, log), 0).yielded)
  {
    hide Events, Take, ReadHarms, ReadsText;
    assert [poll][0] == poll;
    ReadKeepsTrack(format, p, poll.log, log);
    var first := ReadStep(format, p, poll.log);
    if first.outcome.Polling? && IsTerminal(poll.phase) {
      if ReadHarms(format, p, poll.log, log) {
        assert first.yielded <= ReadStep(format, first, poll.finalLog).yielded;
      } else {
        ReadKeepsTrack(format, first, poll.finalLog, log);
      }
    }
  }

  /** Some poll, made while the run was still polling, was harmful. */
  ghost predicate SomePollHarms<E>(format: LogFormat<E>, polls: seq<Poll>, log: string) {
    exists i :: 0 <= i < |polls| && PollHarmsAt(format, polls, log, i)
  }

  ghost predicate PollHarmsAt<E>(format: LogFormat<E>, polls: seq<Poll>, log: string, i: nat)
    requires i < |polls|
  {
    var p := AfterPolls(format, polls[..i]);
    p.outcome.Polling? && PollHarms(format, p, polls[i], log)
  }

  lemma {:induction false} HarmOneMore<E>(format: LogFormat<E>, polls: seq<Poll>, log: string)
    requires polls != []
    ensures SomePollHarms(format, polls, log)
            <==> SomePollHarms(format, polls[..|polls| - 1], log) || PollHarmsAt(format, polls, log, |polls| - 1)
  {
    hide AfterPolls, PollHarms;
    var before := polls[..|polls| - 1];
    forall i | 0 <= i < |before| ensures PollHarmsAt(format, before, log, i) <==> PollHarmsAt(format, polls, log, i) {
      assert before[..i] == polls[..i];
    }
  }

  /**
   Exactly once, exactly: over any polls that read beginnings of the log, wherever these end, a run has yielded what
   the log says if and only if none of its reads was harmful; a run that was harmed never recovers.
   */
  lemma {:induction false} ExactlyOnceUnlessHarmed<E>(format: LogFormat<E>, polls: seq<Poll>, log: string)
    requires PollsReadText(format, polls, log)
    ensures OnTrack(AfterPolls(format, polls), Events(format, log)) <==> !SomePollHarms(format, polls, log)
    ensures SomePollHarms(format, polls, log) ==>
              !(AfterPolls(format, polls).yielded <= Take(Events(format, log), 0).yielded)
  {
    hide Events, Take, PollStep, PollHarms, SomePollHarms, PollsReadText;
    if polls == [] {
      StartOnTrack(format, Events(format, log));
      NothingHarms(format, log);
    } else {
      var before, last := polls[..|polls| - 1], polls[|polls| - 1];
      TextReadsSplit(format, polls, log);
      ExactlyOnceUnlessHarmed(format, before, log);
      HarmOneMore(format, polls, log);
      var p := AfterPolls(format, before);
      if p.outcome.Polling? && !SomePollHarms(format, before, log) {
        PollKeepsTrack(format, p, last, log);
      } else if p.outcome.Polling? {
        PollAddsYields(format, p, last);
      }
    }
  }

  lemma {:induction false} NothingHarms<E>(format: LogFormat<E>, log: string)
    ensures !SomePollHarms(format, [], log)
  {
  }

  lemma {:induction false} PollAddsYields<E>(format: LogFormat<E>, p: Progress<E>, poll: Poll)
    ensures p.yielded <= PollStep(format, p, poll).yielded
  {
    hide Events, Take;
  }

  lemma {:induction false} TextReadsSplit<E>(format: LogFormat<E>, polls: seq<Poll>, log: string)
    requires PollsReadText(format, polls, log) && polls != []
    ensures PollsReadText(format, polls[..|polls| - 1], log) && PollsReadText(format, [polls[|polls| - 1]], log)
  {
    hide ReadsText;
    var before := polls[..|polls| - 1];
    assert forall i :: 0 <= i < |before| ==> before[i] == polls[i];
  }

  lemma {:induction false} CutIsNotJson<E>(format: LogFormat<E>, seen: string, log: string)
    requires seen <= log && !IsLineCut(seen, log) && Trim(LastLine(seen)) != ""
    requires IsEventLine(format, WholeLine(seen, log))
    ensures format.parse(LastLine(seen)).NotJson?
  {
    hide Trim, LastLine, WholeLine, IsLineCut;
    CutShortens(seen, log);
    assert Trim(WholeLine(seen, log)[..|LastLine(seen)|]) != "";
  }

  /**
   A single read inside an event's line, in a run whose polls so far saw beginnings: it does no harm if and only if
   the line's event has been yielded already or a done marker precedes it.
   */
  lemma {:induction false} MidLineReadIsHarmless<E>(format: LogFormat<E>, polls: seq<Poll>, seen: string, log: string)
    requires SeesBeginnings(format, polls, Events(format, log)) && AfterPolls(format, polls).outcome.Polling?
    requires seen <= log && !IsLineCut(seen, log) && Trim(LastLine(seen)) != ""
    requires IsEventLine(format, WholeLine(seen, log))
    ensures var p, head := AfterPolls(format, polls), EventsBefore(format, seen);
            OnTrack(ReadStep(format, p, Some(seen)), Events(format, log))
            <==> |head| < |p.yielded| || Take(head, 0).done.Some?
  {
    ExactlyOnce(format, polls, Events(format, log));
    EventLineReads(format, seen, log);
    CutIsNotJson(format, seen, log);
    hide Events, Take, IsLineCut, LastLine, WholeLine, Trim, EventsBefore, OnTrack;
    ReadIsHarmless(format, AfterPolls(format, polls), seen, log);
  }

  // ----- what such a read costs -----

  /** The run that yielded `event` first instead. */
  function Reheaded<E>(p: Progress<E>, event: E): Progress<E>
    requires p.yielded != []
  {
    p.(yielded := [event] + p.yielded[1..])
  }

  lemma {:induction false} ReheadedRead<E>(format: LogFormat<E>, p: Progress<E>, log: Option<string>, event: E)
    requires p.yielded != []
    ensures var next := ReadStep(format, p, log);
            && next.yielded != [] && next.yielded[0] == p.yielded[0]
            && ReadStep(format, Reheaded(p, event), log) == Reheaded(next, event)
  {
    hide Events, Take;
    if log.Some? {
      var more := Take(Events(format, log.value), |p.yielded|).yielded;
      assert (p.yielded + more)[1..] == p.yielded[1..] + more;
      AppendAssociates([event], p.yielded[1..], more);
    }
  }

  lemma {:induction false} ReheadedPoll<E>(format: LogFormat<E>, p: Progress<E>, poll: Poll, event: E)
    requires p.yielded != []
    ensures var next := PollStep(format, p, poll);
            && next.yielded != [] && next.yielded[0] == p.yielded[0]
            && PollStep(format, Reheaded(p, event), poll) == Reheaded(next, event)
  {
    hide ReadStep;
    ReheadedRead(format, p, poll.log, event);
    ReheadedRead(format, ReadStep(format, p, poll.log), poll.finalLog, event);
  }

  /** After a first poll that yielded something in place of an event, the rest of the run is as it would have been. */
  lemma {:induction false} RestOnTrack<E>(format: LogFormat<E>, first: Poll, later: seq<Poll>,
                                          events: seq<PodEvent<E>>, event: E)
    requires SeesBeginnings(format, later, events)
    requires var p := AfterPolls(format, [first]); p.yielded != [] && OnTrack(Reheaded(p, event), events)
    ensures var p := AfterPolls(format, [first] + later);
            && p.yielded != [] && p.yielded[0] == AfterPolls(format, [first]).yielded[0]
            && OnTrack(Reheaded(p, event), events)
  {
    hide Events, Take, PollStep, OnTrack, SeesBeginnings;
    if later == [] {
      assert [first] + later == [first];
    } else {
      var n := |later| - 1;
      var polls := [first] + later;
      assert polls[..|polls| - 1] == [first] + later[..n] && polls[|polls| - 1] == later[n];
      SeesBeginningsSplit(format, later, events);
      RestOnTrack(format, first, later[..n], events, event);
      var p := AfterPolls(format, [first] + later[..n]);
      if p.outcome.Polling? {
        PollOnTrack(format, Reheaded(p, event), later[n], events);
        ReheadedPoll(format, p, later[n], event);
      }
    }
  }

  lemma {:induction false} FirstPollYieldsPart<E>(format: LogFormat<E>, part: string, first: Poll, event: E,
                                                  events: seq<PodEvent<E>>)
    requires Trim(part) != "" && '\n' !in part && format.parse(part).NotJson?
    requires first.log == Some(part) && SeesBeginnings(format, [first.(log := None)], events)
    requires events != [] && events[0] == Worker(event)
    ensures var p := AfterPolls(format, [first]);
            && p.yielded != [] && p.yielded[0] == format.plain(Trim(part)) && OnTrack(Reheaded(p, event), events)
  {
    assert [first.(log := None)][0] == first.(log := None);
    var x := format.plain(Trim(part));
    LinesOfOne(part);
    FlatMapOne(LineReader(format), part);
    assert Events(format, part) == [Worker(x)];
    assert Take([Worker(x)], 1) == Batch([], None) && Take([Worker(x)], 0) == Batch([x], None);
    assert Take(events, 0).yielded == [event] + Take(events, 1).yielded;
    var start, once := Progress([], Polling), Progress([x], Polling);
    assert [first][..0] == [] && AfterPolls(format, [first]) == PollStep(format, start, first);
    assert ReadStep(format, start, first.log) == once;
    assert Reheaded(once, event) == Progress([event], Polling);
    hide Events, Take;
    if IsTerminal(first.phase) {
      ReadOnTrack(format, Progress([event], Polling), first.finalLog, events);
      ReheadedRead(format, once, first.finalLog, event);
    }
  }

  /**
   What a read inside a line costs. A log starts with a line that is an event; the first poll reads only a part of that
   line that is no JSON; every later read ends at a line boundary of the log. Then for good the run has yielded the
   part as text in place of the event, followed by a beginning of the events after it, and it has yielded what the log
   says if and only if the part's text happens to be the very event.
   */
  lemma {:induction false} MidLineReadLosesEvent<E>(format: LogFormat<E>, part: string, more: string, tail: string,
                                                    first: Poll, later: seq<Poll>, event: E)
    requires Trim(part) != "" && '\n' !in part && format.parse(part).NotJson?
    requires '\n' !in more && format.parse(part + more) == Typed(Worker(event))
    requires tail == "" || tail[0] == '\n'
    requires first.log == Some(part) && ReadsWholeLines([first.(log := None)] + later, part + more + tail)
    ensures var events, p := Events(format, part + more + tail), AfterPolls(format, [first] + later);
            && events != [] && events[0] == Worker(event)
            && p.yielded != [] && p.yielded[0] == format.plain(Trim(part))
            && p.yielded[1..] <= Take(events, 1).yielded
            && (OnTrack(p, events) <==> format.plain(Trim(part)) == event)
  {
    hide Events, IsLineCut, Take, OnTrack, Trim;
    var log := part + more + tail;
    var events := Events(format, log);
    FirstLineIsEvent(format, part, more, tail, event);
    WholeLinesSplit(first.(log := None), later, log);
    WholeLinesSeeBeginnings(format, [first.(log := None)], log);
    WholeLinesSeeBeginnings(format, later, log);
    FirstPollYieldsPart(format, part, first, event, events);
    RestOnTrack(format, first, later, events, event);
    HeadDecides(AfterPolls(format, [first] + later), event, events);
  }

  lemma {:induction false} FirstLineIsEvent<E>(format: LogFormat<E>, part: string, more: string, tail: string, event: E)
    requires Trim(part) != "" && '\n' !in part && '\n' !in more && (tail == "" || tail[0] == '\n')
    requires format.parse(part + more) == Typed(Worker(event))
    ensures Events(format, part + more + tail) != [] && Events(format, part + more + tail)[0] == Worker(event)
  {
    BlankOnlyIfPartIs(part, more);
    EventsOfLineWithin(format, "", part + more, tail);
    BlankTail(format, "");
    hide Events;
    assert "" + (part + more) + tail == part + more + tail;
    assert LineEvents(format, part + more) == [Worker(event)];
  }

  lemma {:induction false} WholeLinesSplit(first: Poll, later: seq<Poll>, log: string)
    requires ReadsWholeLines([first] + later, log)
    ensures ReadsWholeLines([first], log) && ReadsWholeLines(later, log)
  {
    hide IsLineCut;
    var polls := [first] + later;
    assert polls[0] == first && forall i :: 0 <= i < |later| ==> later[i] == polls[i + 1];
  }

  lemma {:induction false} TakeFirst<E>(events: seq<PodEvent<E>>, event: E)
    requires events != [] && events[0] == Worker(event)
    ensures Take(events, 0).yielded == [event] + Take(events, 1).yielded
  {
  }

  lemma {:induction false} HeadDecides<E>(p: Progress<E>, event: E, events: seq<PodEvent<E>>)
    requires p.yielded != [] && OnTrack(Reheaded(p, event), events)
    requires events != [] && events[0] == Worker(event)
    ensures p.yielded[1..] <= Take(events, 1).yielded
    ensures OnTrack(p, events) <==> p.yielded[0] == event
  {
    TakeFirst(events, event);
    hide Take;
    assert p.yielded == [p.yielded[0]] + p.yielded[1..];
    PrefixAfterCommon([event], p.yielded[1..], Take(events, 1).yielded);
  }

  // ----- what a run answers -----

  /** Lines that bring an event: not blank, and not JSON without a type. */
  predicate BringsEvent<E>(format: LogFormat<E>, line: string) {
    Trim(line) != "" && !format.parse(line).NoType?
  }

  ghost predicate ShowsLine<E>(format: LogFormat<E>, line: string, event: PodEvent<E>) {
    match format.parse(line)
    case NotJson => event == Worker(format.plain(Trim(line)))
    case NoType => false
    case Typed(said) => event == said
  }

  function Bringing<E>(format: LogFormat<E>): string -> bool {
    line => BringsEvent(format, line)
  }

  ghost function Showing<E>(format: LogFormat<E>): (string, PodEvent<E>) -> bool {
    (line, event) => ShowsLine(format, line, event)
  }

  /** The events of a log are what its lines say: one for each line that brings one, in order. */
  lemma {:induction false} EventsByLine<E>(format: LogFormat<E>, text: string)
    ensures Corresponds(Bringing(format), Showing(format), Lines(text), Events(format, text))
  {
    FlatMapCorresponds(Bringing(format), Showing(format), LineReader(format), Lines(text));
  }

  /** The first `k` events are worker events, and a done marker or the end of the events follows. */
  ghost predicate IsStop<E>(events: seq<PodEvent<E>>, k: nat) {
    && k <= |events| && (forall i :: 0 <= i < k ==> events[i].Worker?) && (k < |events| ==> events[k].SandboxDone?)
  }

  /** The first `n` events, all of the worker, have been yielded, and nothing else. */
  ghost predicate HasYielded<E>(yielded: seq<E>, events: seq<PodEvent<E>>, n: nat) {
    |yielded| == n <= |events| && forall i :: 0 <= i < n ==> events[i] == Worker(yielded[i])
  }

  /** The marker's data, or an empty completion when it has none. */
  predicate IsAnswer<E>(event: PodEvent<E>, completion: Completion) {
    event.SandboxDone? && completion == if event.data.Some? then event.data.value else Completion(None)
  }

  function Later(a: nat, b: nat): nat {
    if a < b then b else a
  }

  /** A read of the first `seen` events: it yields what is new of them up to the marker, where the run returns. */
  ghost predicate ReadsOn<E>(events: seq<PodEvent<E>>, k: nat, p: Progress<E>, seen: nat, q: Progress<E>) {
    if seen <= k then HasYielded(q.yielded, events, Later(|p.yielded|, seen)) && q.outcome.Polling?
    else k < |events| && HasYielded(q.yielded, events, k)
         && q.outcome.Returned? && IsAnswer(events[k], q.outcome.completion)
  }

  /** A failed read ends the run, and nothing is yielded. */
  ghost predicate ReadsAs<E>(format: LogFormat<E>, events: seq<PodEvent<E>>, k: nat, p: Progress<E>,
                             log: Option<string>, q: Progress<E>)
  {
    if log.None? then q == Progress(p.yielded, ReadFailed)
    else ReadsOn(events, k, p, |Events(format, log.value)|, q)
  }

  /** A poll reads; if that does not end the run and the pod is over, it reads once more and must meet the marker. */
  ghost predicate PollsAs<E>(format: LogFormat<E>, events: seq<PodEvent<E>>, k: nat, p: Progress<E>, poll: Poll,
                             first: Progress<E>, last: Progress<E>, q: Progress<E>)
  {
    && ReadsAs(format, events, k, p, poll.log, first)
    && if !first.outcome.Polling? || (poll.phase != "Succeeded" && poll.phase != "Failed") then q == first
       else ReadsAs(format, events, k, first, poll.finalLog, last)
            && q == if last.outcome.Polling? then Progress(last.yielded, NoDoneMarker) else last
  }

  lemma {:induction false} StopsAt<E>(events: seq<PodEvent<E>>, from: nat, k: nat)
    requires IsStop(events, k) && from <= k
    ensures var batch := Take(events, from);
            && |batch.yielded| == k - from
            && (forall i :: 0 <= i < k - from ==> events[from + i] == Worker(batch.yielded[i]))
            && (batch.done.Some? <==> k < |events|) && (k < |events| ==> IsAnswer(events[k], batch.done.value))
    decreases k - from
  {
    if from < k {
      StopsAt(events, from + 1, k);
      forall i | 0 <= i < k - from ensures events[from + i] == Worker(Take(events, from).yielded[i]) {
        if i > 0 {
          assert events[from + 1 + (i - 1)] == Worker(Take(events, from + 1).yielded[i - 1]);
        }
      }
    }
  }

  /** On track is to have yielded the first events, none past the marker, and all of them when the run has returned. */
  lemma {:induction false} OnTrackSays<E>(p: Progress<E>, events: seq<PodEvent<E>>, k: nat)
    requires IsStop(events, k)
    ensures OnTrack(p, events)
            <==> && HasYielded(p.yielded, events, |p.yielded|) && |p.yielded| <= k
                 && (p.outcome.Returned? ==>
                       |p.yielded| == k < |events| && IsAnswer(events[k], p.outcome.completion))
  {
    StopsAt(events, 0, k);
    hide Take, IsStop;
    var all := Take(events, 0).yielded;
    if HasYielded(p.yielded, events, |p.yielded|) && |p.yielded| <= k {
      assert forall i :: 0 <= i < |p.yielded| ==> p.yielded[i] == all[i];
    }
    if p.yielded <= all {
      assert forall i :: 0 <= i < |p.yielded| ==> p.yielded[i] == all[i];
    }
  }

  lemma {:induction false} ReadSays<E>(format: LogFormat<E>, p: Progress<E>, log: Option<string>,
                                       events: seq<PodEvent<E>>, k: nat)
    requires IsStop(events, k) && p.outcome.Polling? && OnTrack(p, events)
    requires log.Some? ==> Events(format, log.value) <= events
    ensures ReadsAs(format, events, k, p, log, ReadStep(format, p, log))
    ensures OnTrack(ReadStep(format, p, log), events)
  {
    hide Events, Take, IsAnswer, OnTrack;
    OnTrackSays(p, events, k);
    ReadOnTrack(format, p, log, events);
    if log.Some? {
      var seen := Events(format, log.value);
      var q := ReadStep(format, p, log);
      OnTrackSays(q, events, k);
      if |seen| <= k {
        assert IsStop(seen, |seen|);
        if |p.yielded| <= |seen| {
          StopsAt(seen, |p.yielded|, |seen|);
        } else {
          NothingTaken(seen, |p.yielded|);
        }
      } else {
        assert IsStop(seen, k);
        StopsAt(seen, |p.yielded|, k);
      }
    }
  }

  lemma {:induction false} NothingTaken<E>(events: seq<PodEvent<E>>, from: nat)
    requires from >= |events|
    ensures Take(events, from) == Batch([], None)
  {
  }

  /**
   Poll by poll, in the log's own terms: with events of which the first `k` are the worker's and a marker or the end
   follows, every poll of a run that has seen beginnings only reads, yields, returns, fails or goes on as told.
   */
  lemma {:induction false} PollAnswers<E>(format: LogFormat<E>, polls: seq<Poll>, poll: Poll, events: seq<PodEvent<E>>,
                                          k: nat)
    returns (first: Progress<E>, last: Progress<E>)
    requires IsStop(events, k) && SeesBeginnings(format, polls + [poll], events)
    requires AfterPolls(format, polls).outcome.Polling?
    ensures PollsAs(format, events, k, AfterPolls(format, polls), poll, first, last,
                    AfterPolls(format, polls + [poll]))
  {
    hide Events, Take, OnTrack, ReadsAs, ReadStep, IsStop;
    var all := polls + [poll];
    assert all[..|all| - 1] == polls && all[|all| - 1] == poll;
    SeesBeginningsSplit(format, all, events);
    ExactlyOnce(format, polls, events);
    assert [poll][0] == poll;
    var p := AfterPolls(format, polls);
    ReadSays(format, p, poll.log, events, k);
    first := ReadStep(format, p, poll.log);
    last := first;
    if first.outcome.Polling? && (poll.phase == "Succeeded" || poll.phase == "Failed") {
      ReadSays(format, first, poll.finalLog, events, k);
      last := ReadStep(format, first, poll.finalLog);
    }
  }

  /**
   Every run: it has yielded the first events, each once and in order and none past the marker, and one that returns
   has yielded them all and returns what the marker says.
   */
  lemma {:induction false} RunAnswers<E>(format: LogFormat<E>, polls: seq<Poll>, events: seq<PodEvent<E>>, k: nat)
    requires IsStop(events, k) && SeesBeginnings(format, polls, events)
    ensures var p := AfterPolls(format, polls);
            && HasYielded(p.yielded, events, |p.yielded|) && |p.yielded| <= k
            && (p.outcome.Returned? ==> |p.yielded| == k < |events| && IsAnswer(events[k], p.outcome.completion))
  {
    ExactlyOnce(format, polls, events);
    OnTrackSays(AfterPolls(format, polls), events, k);
  }
}
