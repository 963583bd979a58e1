# Managed agent control plane: a Dafny model

This project models the parts of the managed agent API that decide what a user gets to see of a session, and proves
properties of them for all inputs, interleavings and histories.

* **Reading sessions back.** `PiLog`, `PiTranscript` and `PiTree` model the reader of pi's session log: one pass with
  three maps that edits earlier entries, proved equal to a definition that walks up the ancestors, and the shape of the
  tree it returns. `PiReading` tells what the reader returns from the records alone. `MockTranscript` adds the mock
  executor that writes records for the same reader.
* **Event transport.** `SseFrames` models the event stream between worker and control plane (a subset of the WHATWG
  HTML Living Standard, section 9.2), `WorkerHandOff` the queue and wake-up between its parser and the generator, and
  `PodLog` the polling of a pod's log while the pod appends to it.
* **Live run and replay.** `LiveRun` models the loop that consumes a run and the executor that logs its events,
  `SandboxTranscript` and `SandboxReplay` the automaton that replays that log, and compares the two; `SandboxReading`
  tells what the replay returns from the lines alone. `RunCancellation` models the race between the worker and a
  cancel request.
* **Sessions.** `SessionStore` models the two session tables, the service calls that move them and the histories of
  such calls; `SessionCalls` tells what each call leaves behind. `RecentSessions` models the paginated list of recent
  sessions while that history goes on.
* **Providers.** `ProviderRegistry` models the registry of model providers over `ProviderCatalog`, and the model name a
  session keeps; `ProviderCalls` tells what each call stores and answers.

`Contracts` and `Text` hold the shared data types and string operations. `dafny verify dfyconfig.toml` checks the
whole project.

Code that changes state is modelled by classes and loops, each tied by its contract to a function on values; the
theorems are about those functions. What an operation answers is also stated without the functions that compute it, by
the fields of its input and output. Interleavings and histories are sequences of atomic steps, and the theorems hold
for every such sequence.

## What the code does not keep

Some promises hold only under a condition. Each has a counterexample or an exact condition here.

* `docs/architecture.md` of the API says that running sessions may be renamed. The run's final write reuses the record
  captured when the run began, so a rename between the start of a run and its final write is undone unless it is to the
  captured name; any other rename holds (`SessionStore.RenameHoldsExactly`, `SessionStore.RenameDuringRunIsLost`).
* A session is archivable when no run is on, except after a run whose final writes both failed: then it stays marked as
  running until a later message's run writes its outcome (`SessionStore.RunningExactlyDuringRuns`,
  `SessionStore.LostFinishBlocksArchive`, `SessionStore.NextRunHeals`). A restart of the process during a run, or a
  handler that fails between writing the session and its `try` block, leaves the same row; in the model that run is
  one that loses its final write and is marked idle.
* User ids are normalized at every write, which is not idempotent on nested quotes; then the recent list keeps a stale
  row (`SessionStore.ProjectionNeedsStableOwners`, `SessionStore.NestedQuotesAreUnstable`). A session also keeps the
  normalized user id while its provider keeps the original one, so a session of a user whose id is not its own normal
  form cannot be continued (`ProviderRegistry.ContinuationKeepsSelection`). Both failures exist only at the boundary of
  repository and service: API users get ids of the form `user_` and a UUID, for which the promises hold
  (`SessionStore.ApiHistoriesAreProjected`, `ProviderRegistry.ApiUsersContinue`).
* A poll may end inside a log line, which then reads as process text. This loses the line's event for good if and only
  if nothing of that line has been yielded yet and no done marker precedes it; a stale read of lines already yielded
  does no harm (`PodLog.ExactlyOnceUnlessHarmed`, `PodLog.MidLineReadIsHarmless`, `PodLog.EventLineReads`).
* A `run.failed` event is never logged, because the consumer throws before it asks for the next event
  (`LiveRun.ConsumeRun`). A turn that starts with output replays with a process entry under the assistant's id; a user
  entry with several items, media or an unnamed parent replays as one text below the entry before it
  (`LiveRun.ReplayedRunIsRecorded`).
* An assistant entry may keep a parent that the filter has removed (`PiTree.AssistantParentSurvives`).
* The registry accepts a cancel request until the run is marked idle, a little after its result is decided
  (`RunCancellation.CancelHonoured`).
* A log line that is the JSON text `null` makes the replay throw (`SandboxTranscript.ReadSandboxTranscript`).
* A provider record whose type changes to one without an API type keeps the old API type
  (`ProviderRegistry.ApiTypeAfterUpdate`, `ProviderRegistry.StaleApiType`).

## Model

| member | source | states |
|---|---|---|
| `PiLog.ToUserContent` | apps/managed-agent-api/src/control-plane/session/pi-file-transcript-reader.ts:167-186 | The loop keeps exactly the text, image and video items of a user message, in order. |
| `PiLog.ToManagedTranscriptContent` | apps/managed-agent-api/src/control-plane/session/pi-file-transcript-reader.ts:263-286 | The loop keeps exactly the recognised items of a record, with empty optional strings dropped. |
| `PiLog.PreambleIsTextBeforeTools` | apps/managed-agent-api/src/control-plane/session/pi-file-transcript-reader.ts:210-223 | The preamble is the text before the first tool call: the whole text is the preamble followed by the text from that call on. |
| `PiLog.EntryIdsApart` | apps/managed-agent-api/src/control-plane/session/pi-file-transcript-reader.ts:399-462 | User, process and assistant ids built from message ids never collide, are injective, and never look like the orphan marker. |
| `PiTranscript.ReadManagedEntry` | apps/managed-agent-api/src/control-plane/session/pi-file-transcript-reader.ts:339-389 | A managed record becomes its entry; process and assistant records without a parent are skipped. |
| `PiTranscript.ReadSessionEntries` | apps/managed-agent-api/src/control-plane/session/pi-file-transcript-reader.ts:159-540 | The one-pass reader fails exactly when some line cannot be read, for its content or for a time stamp that is no date, at the first such line; otherwise, for every log with distinct ids, it returns the entries that walking up the ancestors prescribes. |
| `PiTranscript.OwnerIsEndOfWalk` | apps/managed-agent-api/src/control-plane/session/pi-file-transcript-reader.ts:420-460 | The tool-use message a line belongs to is exactly the end of a walk of parent links through tool results, for every log. |
| `PiTranscript.OnePassIsWalk` | apps/managed-agent-api/src/control-plane/session/pi-file-transcript-reader.ts:331-530 | After every line the three maps and the entries edited in place are those of the ancestor walk: each tool-use entry holds thinking, preamble, started calls and then its own results in log order. |
| `PiTranscript.DeliverResult` | apps/managed-agent-api/src/control-plane/session/pi-file-transcript-reader.ts:420-452 | A tool result is appended to the entry of its owner, and no other entry changes. |
| `PiTranscript.GuardsNeverFire` | apps/managed-agent-api/src/control-plane/session/pi-file-transcript-reader.ts:425-441 | For every log, distinct ids or not, an owner id found in the map leads to an index, and the index to a process entry: the two guards on missing entries never fire. |
| `PiReading.WalkIsReading` | apps/managed-agent-api/src/control-plane/session/pi-file-transcript-reader.ts:311-540 | Line by line, for every log with distinct ids: the entries each line brings, their ids, links, times and content. A call shows thinking, preamble, started calls and each tool result at its rank, failed exactly when the message says so, under the message's own or fall-back tool id and name and with its texts joined; an answer shows its texts joined; a mock record its known items; a process entry without a link is left out. |
| `PiReading.UnreadableIs` | apps/managed-agent-api/src/control-plane/session/pi-file-transcript-reader.ts:159-165 | A line fails the reading exactly when it is no JSON, a user record whose input is read from a field that is no array, or a message whose time stamp is out of range. |
| `PiReading.OwnerIs` | apps/managed-agent-api/src/control-plane/session/pi-file-transcript-reader.ts:420-460 | The owner of a line is the end of a walk of parent ids, by the ids alone. |
| `PiTree.ResultsConserved` | apps/managed-agent-api/src/control-plane/session/pi-file-transcript-reader.ts:420-452 | The results held by all tool-use entries are as many as the tool results that lead to a tool-use message: none is lost or delivered twice. |
| `PiTree.UserParentsSurvive` | apps/managed-agent-api/src/control-plane/session/pi-file-transcript-reader.ts:398-418 | For every pi log, with no assumption on ids or links, each user entry that survives the filter is a root or hangs off an earlier user or assistant entry that also survives. |
| `PiTree.FullyLinkedTree` | apps/managed-agent-api/src/control-plane/session/pi-file-transcript-reader.ts:454-538 | In a log whose messages all link to earlier ones, nothing is filtered, entry ids are distinct, every parent is an earlier entry, and an assistant's parent is a process entry. |
| `PiTree.AssistantParentSurvives` | apps/managed-agent-api/src/control-plane/session/pi-file-transcript-reader.ts:508-538 | In every log with distinct ids an assistant entry keeps its parent through the filter if and only if the line it hangs off has a link to an earlier message. |
| `PiTree.OrphanedAssistantExists` | apps/managed-agent-api/src/control-plane/session/pi-file-transcript-reader.ts:508-538 | A lone final answer reads back as an assistant entry whose parent is filtered away. |
| `MockTranscript.MockSession.WriteMockTranscript` | apps/managed-agent-api/src/harness-worker/mock-executor.ts:58-83 | A continuation appends one record per entry to the session's file, any other run overwrites the file with a header and the records; other files stay. |
| `MockTranscript.MockSession.Run` | apps/managed-agent-api/src/harness-worker/mock-executor.ts:93-153 | The mock run yields its three events, writes the user, process and assistant records, and completes with the path of the file; whether it continues is decided by the file the job remembers. |
| `MockTranscript.MockSession.Submit` | apps/managed-agent-api/src/control-plane/session/managed-session-service.ts:433-575 | One message: the history is read from the file the session's row names, the new user entry hangs off its last entry, and only a completed run puts its file in the row; a file that cannot be read fails the request and changes nothing. |
| `MockTranscript.RecordRoundTrip` | apps/managed-agent-api/src/harness-worker/mock-executor.ts:35-46 | A written record reads back as the entry itself if and only if its items are text or tool calls without empty optional strings and its input is text. |
| `MockTranscript.ReadBackAppend` | apps/managed-agent-api/src/harness-worker/mock-executor.ts:76-80 | Reading a file of written and then appended records gives the concatenation of what each part reads as. |
| `MockTranscript.MockRoundTrip` | apps/managed-agent-api/src/harness-worker/mock-executor.ts:27-49 | Entries written to the file come back if and only if each is faithful and none looks like an orphan. |
| `MockTranscript.MockSessionIsChain` | apps/managed-agent-api/src/control-plane/session/managed-session-service.ts:433-575 | Whatever was on disk and however runs end, the session reads back as one parent chain of three entries per remembered run; when all runs complete these are all of them. |
| `MockTranscript.MockSessionIsFaithful` | apps/managed-agent-api/src/harness-worker/mock-executor.ts:125-149 | That history is exactly what the remembered runs wrote if and only if their messages were text only. |
| `MockTranscript.RunPlays` | apps/managed-agent-api/src/harness-worker/mock-executor.ts:93-153 | The records a run writes hold the user entry and the very texts it streamed, behind what the file holds if the session continues and alone if not. |
| `MockTranscript.MessageSays` | apps/managed-agent-api/src/control-plane/session/managed-session-service.ts:433-575 | A message hangs off the last entry of the history, its run is played unless it stops before, and only a completed run makes the row name the session's file. |
| `MockTranscript.MockSessionSays` | apps/managed-agent-api/src/harness-worker/mock-executor.ts:93-153 | After any messages the session reads back as three entries per remembered run under their ids and times, the user's known items, the echoed input and the answer that names the session. |
| `SseFrames.FramesAreTheText` | apps/managed-agent-api/src/control-plane/session/harness-worker-client.ts:48-50 | Cutting a text into frames loses nothing, and the leftover holds no blank line. |
| `SseFrames.FramesEndAtBreaks` | apps/managed-agent-api/src/control-plane/session/harness-worker-client.ts:48-50 | Each frame ends at the first blank line after its start. |
| `SseFrames.FramesAppend` | apps/managed-agent-api/src/control-plane/session/harness-worker-client.ts:48-50 | Cutting is incremental: cutting a text that arrives in two parts gives the same frames and leftover as cutting it whole. |
| `SseFrames.DeliverFrames` | apps/managed-agent-api/src/control-plane/session/harness-worker-client.ts:52-72 | The inner loop hands on the event of each frame that has a name and data, up to a payload that does not parse. |
| `SseFrames.ParseSseFrames` | apps/managed-agent-api/src/control-plane/session/harness-worker-client.ts:41-73 | For every way of cutting a text into chunks the events, and whether the parser throws, are those of the whole text; the buffer never holds a complete frame. |
| `SseFrames.ThrowIsFinal` | apps/managed-agent-api/src/control-plane/session/harness-worker-client.ts:68-71 | Once a payload has thrown, text that arrives later changes nothing. |
| `SseFrames.Response.WriteSseEvent` | apps/managed-agent-api/src/channel/web-api/sse/sse-writer.ts:35-38 | Writing an event appends its name line, data line and blank line to the stream. |
| `SseFrames.DeliveredNamesAreFields` | apps/managed-agent-api/src/control-plane/session/harness-worker-client.ts:53-66 | Every name the parser delivers is non-empty, trimmed and free of newlines. |
| `SseFrames.DeliverSays` | apps/managed-agent-api/src/control-plane/session/harness-worker-client.ts:52-72 | One event, in order, for each frame whose first `event:` and first `data:` line hold text, with the trimmed name and the parsed payload, up to the first frame whose payload does not parse, where the parser throws. |
| `SseFrames.SseRoundTrip` | apps/managed-agent-api/src/control-plane/session/harness-worker-client.ts:41-73 | Under every chunking the printed events are parsed back as they were if and only if every event name is non-empty, trimmed and free of newlines. |
| `WorkerHandOff.EventHandOff.OnEvent` | apps/managed-agent-api/src/control-plane/session/harness-worker-client.ts:127-136 | The parser's callback stores a completion or queues the event, and wakes the generator. |
| `WorkerHandOff.EventHandOff.OnError` | apps/managed-agent-api/src/control-plane/session/harness-worker-client.ts:137-139 | A parse error is remembered without waking the generator. |
| `WorkerHandOff.EventHandOff.OnSettled` | apps/managed-agent-api/src/control-plane/session/harness-worker-client.ts:140-144 | When the parser is over the generator is told and woken. |
| `WorkerHandOff.EventHandOff.RunConsumer` | apps/managed-agent-api/src/control-plane/session/harness-worker-client.ts:146-169 | The generator runs to its next suspension: it yields the first queued event, blocks, or returns or throws at the end. |
| `WorkerHandOff.InvAlways` | apps/managed-agent-api/src/control-plane/session/harness-worker-client.ts:115-169 | In every interleaving yielded events followed by queued ones are those produced; the generator is blocked exactly when a live wake-up is registered, and then nothing is queued and the parser is unfinished. |
| `WorkerHandOff.NoLostWakeup` | apps/managed-agent-api/src/control-plane/session/harness-worker-client.ts:121-150 | With an event queued or the parser over, the generator is over or can take a step; while it is blocked the parser still has a step, and that step wakes it unless it only throws. |
| `WorkerHandOff.Drains` | apps/managed-agent-api/src/control-plane/session/harness-worker-client.ts:146-157 | Once the parser is over the generator reaches its end by itself, in a number of steps fixed by the queue, having yielded everything produced. |
| `WorkerHandOff.RunCanComplete` | apps/managed-agent-api/src/control-plane/session/harness-worker-client.ts:140-169 | Any interleaving in which the parser is over can be completed by the generator's own steps alone. |
| `WorkerHandOff.CompleteRunExists` | apps/managed-agent-api/src/control-plane/session/harness-worker-client.ts:127-169 | For every stream there is an interleaving in which the parser goes through all of it and the generator ends. |
| `WorkerHandOff.ParserIsIndependent` | apps/managed-agent-api/src/control-plane/session/harness-worker-client.ts:127-144 | What the parser produces depends on its own steps only, however the generator's are mixed in. |
| `WorkerHandOff.GeneratorIsFaithful` | apps/managed-agent-api/src/control-plane/session/harness-worker-client.ts:146-169 | A generator that is over has yielded every event but completions once and in order, and returns the last completion, or throws exactly when the parser threw. |
| `WorkerHandOff.GeneratorSays` | apps/managed-agent-api/src/control-plane/session/harness-worker-client.ts:127-169 | A generator that is over has handed out, in order, the events not named `run.completed`, has thrown exactly when the parser did, and otherwise returns the data of the last `run.completed`, or the empty completion without one. |
| `WorkerHandOff.WorkerRunIsDelivered` | apps/managed-agent-api/src/control-plane/session/harness-worker-client.ts:127-169 | End to end: events and completion printed by the worker, cut into any chunks, under any interleaving, arrive as exactly those events and that completion. |
| `PodLog.ReadLogs` | apps/managed-agent-api/src/harness-worker/scheduler.ts:216-233 | The loop turns a log text into its events: blank lines and untyped JSON are skipped, lines that are not JSON become process text. |
| `PodLog.YieldNew` | apps/managed-agent-api/src/harness-worker/scheduler.ts:174-183 | The loop yields the events from the given index up to the first done marker and advances the count past them. |
| `PodLog.EventsByLine` | apps/managed-agent-api/src/harness-worker/scheduler.ts:216-233 | One event, in order, for each line that is not blank and not JSON without a type: what it says, or its trimmed text if it is no JSON. |
| `PodLog.Run` | apps/managed-agent-api/src/harness-worker/scheduler.ts:169-213 | The polling loop's yields and outcome are those of the poll-by-poll definition, whatever the polls answer. |
| `PodLog.LineCutSeesPrefix` | apps/managed-agent-api/src/harness-worker/scheduler.ts:216-232 | A read that ends at a line boundary sees a beginning of the log's events. |
| `PodLog.ExactlyOnce` | apps/managed-agent-api/src/harness-worker/scheduler.ts:169-213 | With appends, stale or shorter reads and termination in any order, the run has always yielded a beginning of the events before the first done marker, each once and in order; when it returns it has yielded all of them and returns that marker's data. |
| `PodLog.CompleteReadDecides` | apps/managed-agent-api/src/harness-worker/scheduler.ts:187-203 | If the read after a terminal phase is complete, the run returns the marker's data, or throws having yielded every event of a log without a marker. |
| `PodLog.NeverLags` | apps/managed-agent-api/src/harness-worker/scheduler.ts:171-207 | While the run polls on, every event it has read has been yielded. |
| `PodLog.PodRunIsExactlyOnce` | apps/managed-agent-api/src/harness-worker/scheduler.ts:169-232 | The same for a pod's log text when every read is a line-bounded beginning of it. |
| `PodLog.RunAnswers` | apps/managed-agent-api/src/harness-worker/scheduler.ts:169-213 | With k worker events before the marker or the end, a run has yielded the first of them, each once and in order; one that returns has yielded all k and returns the marker's data, or the empty completion when it has none. |
| `PodLog.PollAnswers` | apps/managed-agent-api/src/harness-worker/scheduler.ts:169-207 | Poll by poll: a failed read ends the run; a read past the marker returns; otherwise the run goes on unless the phase is `Succeeded` or `Failed`, when it reads once more and must meet the marker. |
| `PodLog.YieldsOnlyGrow` | apps/managed-agent-api/src/harness-worker/scheduler.ts:173-183 | What has been yielded is never taken back by later polls. |
| `PodLog.SafeReads` | apps/managed-agent-api/src/harness-worker/scheduler.ts:220-231 | For the parser in use, a read sees a beginning of the log's events if and only if what it makes of its last line is a beginning of what the log makes of that whole line and the lines after it. |
| `PodLog.EventLineReads` | apps/managed-agent-api/src/harness-worker/scheduler.ts:220-231 | When the line a read ends in is an event whose non-blank proper beginnings are not JSON and read as other text, the read sees a beginning of the log's events if and only if it ends at a line boundary or its part of that line is blank. |
| `PodLog.ExactlyOnceUnlessHarmed` | apps/managed-agent-api/src/harness-worker/scheduler.ts:169-231 | Over polls whose reads end anywhere in the log, the run has yielded what the log says if and only if no read that it made was harmful: one spoiled by a part of a line of which nothing was yielded yet, with no done marker ahead of it. A harmed run never recovers. Asked of reads: a spoiling part is not JSON. |
| `PodLog.MidLineReadIsHarmless` | apps/managed-agent-api/src/harness-worker/scheduler.ts:173-230 | In a run that is on track, a read that ends inside an event's line keeps it there if and only if that line's event was yielded already or a done marker comes before the line. |
| `PodLog.MidLineReadLosesEvent` | apps/managed-agent-api/src/harness-worker/scheduler.ts:173-230 | What harm leaves behind at the log's first line: whatever whole lines later polls read, the run has yielded the part as text in that event's place, then a beginning of the later events, and is on track if and only if that text happens to be the event. |
| `SandboxTranscript.EnsureProcessEntry` | apps/managed-agent-api/src/control-plane/session/sandbox-transcript-reader.ts:65-79 | The open process entry, or a new one with the line's ids or their fall-backs. |
| `SandboxTranscript.EnsureAssistantEntry` | apps/managed-agent-api/src/control-plane/session/sandbox-transcript-reader.ts:81-96 | The open assistant entry, or a new empty one below the process entry, which it brings into being if needed. |
| `SandboxTranscript.ReadSandboxTranscript` | apps/managed-agent-api/src/control-plane/session/sandbox-transcript-reader.ts:34-176 | The flush-based automaton throws exactly on the first `null` line and otherwise returns the entries of the log cut into turns. |
| `SandboxTranscript.AutomatonInStep` | apps/managed-agent-api/src/control-plane/session/sandbox-transcript-reader.ts:98-176 | After every line the automaton's variables hold the flushed turns and the open turn of the definition that cuts the log at user lines and closing lines. |
| `SandboxReading.ReplayIsRead` | apps/managed-agent-api/src/control-plane/session/sandbox-transcript-reader.ts:34-176 | Turn by turn, for every log: turns start at user lines and after lines that tell of failure or completion; each brings a user entry, a process entry and an assistant entry where it has any, with the first line's ids or their fall-backs, one item per process or action line and the output joined, or else what the failure says. |
| `SandboxReading.DecimalCounts` | apps/managed-agent-api/src/control-plane/session/sandbox-transcript-reader.ts:68-92 | Made-up ids count in decimal digits without leading zeros. |
| `SandboxReplay.ReplayIsStable` | apps/managed-agent-api/src/control-plane/session/sandbox-transcript-reader.ts:98-176 | Replaying a log is a prefix of replaying it with more lines appended whenever those start with a user entry. |
| `SandboxReplay.EveryAssistantFollowsProcess` | apps/managed-agent-api/src/control-plane/session/sandbox-transcript-reader.ts:40-63 | In every log, malformed lines included, each assistant entry is immediately preceded by a process entry. |
| `SandboxReplay.ItemsMatchLines` | apps/managed-agent-api/src/control-plane/session/sandbox-transcript-reader.ts:126-147 | In every log process items and process or action lines correspond one to one, in order, and each item says what its line says. |
| `SandboxReplay.ReplayRun` | apps/managed-agent-api/src/control-plane/session/sandbox-transcript-reader.ts:108-172 | A run's lines appended to any log add exactly their items and their output text to the replay. |
| `SandboxReplay.OneTurn` | apps/managed-agent-api/src/control-plane/session/sandbox-transcript-reader.ts:108-172 | Lines from a user line to the first closing line are replayed as one turn on top of what was there. |
| `LiveRun.SandboxExecutor.Start` | apps/managed-agent-api/src/harness-worker/sandbox-executor.ts:22-38 | Before the first event the user entry is logged. |
| `LiveRun.SandboxExecutor.Resume` | apps/managed-agent-api/src/harness-worker/sandbox-executor.ts:40-45 | When it is asked for the next event the executor logs the one it yielded before. |
| `LiveRun.SandboxExecutor.Yield` | apps/managed-agent-api/src/harness-worker/sandbox-executor.ts:41-42 | Yielding an event logs nothing yet. |
| `LiveRun.ConsumeRun` | apps/managed-agent-api/src/control-plane/session/managed-session-service.ts:113-207 | What is published is the order-preserving filter of the events consumed before the end; the returned text and content are folds of those events and do not depend on the filter; every consumed event has been logged, the one that fails the run has not. |
| `LiveRun.RunComesTo` | apps/managed-agent-api/src/control-plane/session/managed-session-service.ts:113-207 | By the first round that does not go on: the result is completed, cancelled or failed as that round says, with the output texts joined and one item, by its own fields, per process and action event before it; those kinds are published that were asked for; and the log gets the user entry and a line with the fields of each event. |
| `LiveRun.LiveAndReplayAgree` | apps/managed-agent-api/src/control-plane/session/sandbox-transcript-reader.ts:98-176 | For every earlier log and every run that does not fail, replaying the log after the run adds exactly the recorded output text, and adds exactly the recorded process content if and only if no event carries an empty optional string. |
| `LiveRun.UserIsReplayed` | apps/managed-agent-api/src/control-plane/session/sandbox-transcript-reader.ts:108-124 | A user entry is replayed as it was recorded if and only if it is one text, its content is its input, and it names its parent or is the first entry. |
| `LiveRun.ReplayedRunIsRecorded` | apps/managed-agent-api/src/control-plane/session/sandbox-transcript-reader.ts:65-124 | Entry for entry, ids and parents included, a run whose events carry the job's ids and its completion replay as recorded if and only if the run starts with a process or action event, has output and no empty optional string, and its user entry is replayed as recorded. |
| `RunCancellation.CancellableRun.WaitForCancellation` | apps/managed-agent-api/src/control-plane/session/managed-session-service.ts:90-98 | At the start of a round the wait is settled at once if cancellation was requested, and otherwise registers a live resolver. |
| `RunCancellation.CancellableRun.RequestCancel` | apps/managed-agent-api/src/control-plane/session/managed-session-service.ts:99-103 | A request is remembered, settles the race that is on, and clears the resolver. |
| `RunCancellation.CancellableRun.WorkerResolves` | apps/managed-agent-api/src/control-plane/session/managed-session-service.ts:145 | A result of the worker settles the race that is on, unless a request has done so before. |
| `RunCancellation.CancellableRun.HandleWinner` | apps/managed-agent-api/src/control-plane/session/managed-session-service.ts:147-173 | The loop returns as cancelled, returns or throws with the worker's end, or goes on. |
| `RunCancellation.ActiveSessionRegistry.MarkActive` | apps/managed-agent-api/src/control-plane/session/active-session-registry.ts:5-9 | Registers the run of a session. |
| `RunCancellation.ActiveSessionRegistry.MarkIdle` | apps/managed-agent-api/src/control-plane/session/active-session-registry.ts:10-12 | Removes the session and no other. |
| `RunCancellation.ActiveSessionRegistry.IsActive` | apps/managed-agent-api/src/control-plane/session/active-session-registry.ts:13-15 | Tells whether the session has a registered run. |
| `RunCancellation.ActiveSessionRegistry.Cancel` | apps/managed-agent-api/src/control-plane/session/active-session-registry.ts:16-25 | Reports whether the session is active, and requests cancellation of its run and of no other. |
| `RunCancellation.StepsOfRun` | apps/managed-agent-api/src/control-plane/session/managed-session-service.ts:85-173 | A run starts without a request at the head of its loop; in every state a request can come, a worker result when a race is on, and the loop's own steps where it stands at its head or at a settled race. |
| `RunCancellation.InvAlways` | apps/managed-agent-api/src/control-plane/session/managed-session-service.ts:85-155 | In every interleaving a race that is on can still be cancelled, and at most one worker result is handled or pending after a request. |
| `RunCancellation.NoLostCancellation` | apps/managed-agent-api/src/control-plane/session/managed-session-service.ts:85-155 | Once cancellation has been requested the loop is never left waiting for the worker, and handles at most one more worker result. |
| `RunCancellation.OwnEnd` | apps/managed-agent-api/src/control-plane/session/managed-session-service.ts:142-173 | After a request the loop returns by its own steps, even if the worker never produces again. |
| `RunCancellation.CancelHonoured` | apps/managed-agent-api/src/control-plane/session/managed-session-service.ts:142-173 | A request makes the run end as cancelled if and only if the loop has not returned and no ending result has already won the race. |
| `SessionStore.NormalizedFixedPoints` | apps/managed-agent-api/src/control-plane/session/repositories/postgres-session-repository.ts:10-18 | A user id is its own normal form if and only if it is trimmed and not quoted. |
| `SessionStore.StableUserIds` | apps/managed-agent-api/src/control-plane/session/repositories/postgres-session-repository.ts:10-18 | Normalizing twice is normalizing once if and only if the quotes, when there are any, enclose a trimmed text without quotes of its own. |
| `SessionStore.NestedQuotesAreUnstable` | apps/managed-agent-api/src/control-plane/session/repositories/postgres-session-repository.ts:10-18 | A doubly quoted id normalizes to a quoted one and that to a bare one. |
| `SessionStore.UuidsAreIssued` | apps/managed-agent-api/src/identity/auth-service.ts:165 | `user_` before a UUID has neither spaces nor quotes. |
| `SessionStore.IssuedUserIdsAreNormal` | apps/managed-agent-api/src/identity/auth-service.ts:165 | An id as the identity service issues it is its own normal form and stable. |
| `SessionStore.SessionRepository.CreateSession` | apps/managed-agent-api/src/control-plane/session/repositories/postgres-session-repository.ts:70-104 | Writes the session row and its recent row, or neither when the session id is taken. |
| `SessionStore.SessionRepository.GetSession` | apps/managed-agent-api/src/control-plane/session/repositories/postgres-session-repository.ts:105-139 | Returns the row of a session that is not archived. |
| `SessionStore.SessionRepository.UpdateSession` | apps/managed-agent-api/src/control-plane/session/repositories/postgres-session-repository.ts:140-205 | Upserts the row, keeping columns the record leaves undefined, and deletes or upserts the recent row. |
| `SessionStore.ManagedSessionService.BeginCreate` | apps/managed-agent-api/src/control-plane/session/managed-session-service.ts:256-284 | Creating a session writes it as running and captures its record for the run; a provider that does not resolve or a taken id fails the request and changes nothing. |
| `SessionStore.ManagedSessionService.BeginSubmit` | apps/managed-agent-api/src/control-plane/session/managed-session-service.ts:433-478 | Submitting a message marks a visible session as running and captures its record for the run; a session that is not found or whose provider does not resolve fails the request and changes nothing. |
| `SessionStore.ManagedSessionService.StartRun` | apps/managed-agent-api/src/control-plane/session/managed-session-service.ts:480-494 | Registers the run that can be cancelled. |
| `SessionStore.ManagedSessionService.FinishRun` | apps/managed-agent-api/src/control-plane/session/managed-session-service.ts:540-594 | The outcome is written over the record captured when the run began. |
| `SessionStore.ManagedSessionService.EndRun` | apps/managed-agent-api/src/control-plane/session/managed-session-service.ts:605-608 | The session is idle again. |
| `SessionStore.ManagedSessionService.UpdateSessionName` | apps/managed-agent-api/src/control-plane/session/managed-session-service.ts:628-648 | Renames a visible session and returns it as it is now stored; otherwise it fails and changes nothing. |
| `SessionStore.ManagedSessionService.ArchiveSession` | apps/managed-agent-api/src/control-plane/session/managed-session-service.ts:654-672 | Archives a visible session that is neither registered nor marked as running; otherwise it fails with the error that applies and changes nothing. |
| `SessionStore.ManagedSessionService.GetSessionStatus` | apps/managed-agent-api/src/control-plane/session/managed-session-service.ts:614-622 | A registered session is reported as running whatever its row says. |
| `SessionStore.InvAlways` | apps/managed-agent-api/src/control-plane/session/repositories/postgres-session-repository.ts:70-205 | In every history with stable owners the recent table holds exactly the sessions that are not archived, under their owner, name and update time; runs belong to visible sessions marked as running until the outcome; the registry holds exactly the started runs. |
| `SessionStore.ProjectionNeedsStableOwners` | apps/managed-agent-api/src/control-plane/session/repositories/postgres-session-repository.ts:140-203 | The recent table mirrors the sessions in every history of a user's sessions if and only if that user id is stable under normalization. |
| `SessionStore.ApiHistoriesAreProjected` | apps/managed-agent-api/src/control-plane/session/repositories/postgres-session-repository.ts:70-205 | In every history of users whose ids were issued by the identity service the recent table mirrors the sessions, and every row keeps such an id. |
| `SessionStore.UnstableOwnerLeavesStaleRow` | apps/managed-agent-api/src/control-plane/session/repositories/postgres-session-repository.ts:10-18 | Creating and renaming one session under an unstable user id leaves a stale recent row. |
| `SessionStore.RunningExactlyDuringRuns` | apps/managed-agent-api/src/control-plane/session/managed-session-service.ts:614-672 | In every history a visible session can be archived if and only if it has no run and its last final write was not lost, and it is reported as running exactly otherwise. |
| `SessionStore.LostFinishBlocksArchive` | apps/managed-agent-api/src/control-plane/session/managed-session-service.ts:387-420 | After a lost final write no archive of the session succeeds, whatever calls follow, until another message is submitted to it. |
| `SessionStore.NextRunHeals` | apps/managed-agent-api/src/control-plane/session/managed-session-service.ts:387-420 | One more message whose run writes its outcome makes the session archivable again. |
| `SessionStore.FileAndStatusChanges` | apps/managed-agent-api/src/control-plane/session/managed-session-service.ts:345-405 | In every reachable state a session's transcript file is replaced only by a completed run's own file, so a failed or cancelled run never loses the history; its status changes only when a message is submitted or a run ends, which says how; its provider, model and creation time never change. |
| `SessionStore.ArchivedRowIsFinal` | apps/managed-agent-api/src/control-plane/session/managed-session-service.ts:654-672 | In every history, once archived a session's row never changes again and no lookup finds it. |
| `SessionStore.ArchivedStaysArchived` | apps/managed-agent-api/src/control-plane/session/managed-session-service.ts:654-672 | With stable owners no recent list ever holds an archived session again either, whatever calls follow. |
| `SessionCalls.EveryCallDoes` | apps/managed-agent-api/src/control-plane/session/managed-session-service.ts:256-672 | In every history each call does to both tables, the registry and the runs exactly what is listed for it, column by column: a new session holds the given name, owner, provider and time; a message marks its session; an outcome is written over the captured name; a rename and an archive change their columns only; refused calls change nothing. |
| `SessionCalls.ArchiveHides` | apps/managed-agent-api/src/control-plane/session/managed-session-service.ts:654-672 | An accepted archive stamps the row, no lookup finds the session again and, with stable owners, no list holds it and no other column changes. |
| `SessionCalls.LookupSays` | apps/managed-agent-api/src/control-plane/session/repositories/postgres-session-repository.ts:105-139 | Looking up gives every column of the row of a session that is not archived; status and archive error follow from row and registry. |
| `SessionCalls.UpdateSays` | apps/managed-agent-api/src/control-plane/session/repositories/postgres-session-repository.ts:140-205 | Writing a record writes its row column by column, keeping the four columns it may leave undefined, and writes or deletes its recent row. |
| `SessionCalls.NormalizeSays` | apps/managed-agent-api/src/control-plane/session/repositories/postgres-session-repository.ts:10-18 | The normal form is the trimmed id, or what its outermost quotes enclose. |
| `SessionStore.RenameDuringRunIsLost` | apps/managed-agent-api/src/control-plane/session/managed-session-service.ts:561-574 | Whatever steps are taken during a run, its final write puts back the name captured when it began, in both tables. |
| `SessionStore.RenameHoldsExactly` | apps/managed-agent-api/src/control-plane/session/managed-session-service.ts:540-639 | In every reachable state a rename of a visible session holds through all continuations without another rename if and only if no run stands between its start and its final write, or the run captured that very name. |
| `RecentSessions.RankedSorts` | apps/managed-agent-api/src/control-plane/session/repositories/postgres-session-repository.ts:231 | The ranked list holds exactly the rows, in strictly descending key order. |
| `RecentSessions.RankedBelow` | apps/managed-agent-api/src/control-plane/session/repositories/postgres-session-repository.ts:217-231 | What a cursor selects is exactly what the ranked list has left after the row it names. |
| `RecentSessions.ListSays` | apps/managed-agent-api/src/control-plane/session/repositories/postgres-session-repository.ts:206-243 | Whatever the table holds, a page has at most the limit, 20 by default, of the user's rows after the cursor, the most recent first and session ids breaking ties; it leaves out only rows after its last one and only when full, has more exactly then, and its next cursor names its last row. A cursor that cannot be read is refused. |
| `RecentSessions.StringLessIs` | apps/managed-agent-api/src/control-plane/session/repositories/postgres-session-repository.ts:217-231 | Texts are ordered by their first difference. |
| `RecentSessions.UnchangingTable` | apps/managed-agent-api/src/control-plane/session/repositories/postgres-session-repository.ts:206-243 | On an unchanging table the pages are the top of the whole ranked list without gap or repeat, and there is a next cursor, standing after what was seen, if and only if rows remain. |
| `RecentSessions.WalkEnds` | apps/managed-agent-api/src/control-plane/session/repositories/postgres-session-repository.ts:206-243 | A walk of n pages has more if and only if n times the limit is below the row count, and without more it has listed the whole ranked list. |
| `RecentSessions.TraversalReads` | apps/managed-agent-api/src/control-plane/session/repositories/postgres-session-repository.ts:206-243 | Each page of a client that passes on next cursors is the top of the rows below the last row of the page before, read from the table of its own time. |
| `RecentSessions.ListedDescends` | apps/managed-agent-api/src/control-plane/session/repositories/postgres-session-repository.ts:217-231 | Whatever is inserted, bumped or archived between pages, what the client sees is strictly descending, so a session is seen again only if its activity time went down. |
| `RecentSessions.UntouchedRowSeenOnce` | apps/managed-agent-api/src/control-plane/session/repositories/postgres-session-repository.ts:206-243 | A row left untouched during a traversal that reaches the end is listed, and its session is listed exactly once. |
| `RecentSessions.SessionLeftAloneSeenOnce` | apps/managed-agent-api/src/control-plane/session/repositories/postgres-session-repository.ts:206-243 | While the service goes on in any way, a listed session that no call names between a client's first and last page is seen exactly once by a client that reads to the end. |
| `RecentSessions.TimesRise` | apps/managed-agent-api/src/control-plane/session/repositories/postgres-session-repository.ts:140-203 | In every history in which the stamps of each session's own writes do not go back, whatever the order between sessions, a session's update time does not go back. |
| `RecentSessions.NoSessionSeenTwice` | apps/managed-agent-api/src/control-plane/session/repositories/postgres-session-repository.ts:206-243 | While the service creates, runs, renames and archives sessions whose own stamps do not go back, no client that follows the cursors sees a session twice. |
| `ProviderCatalog.FindItem` | apps/managed-agent-api/src/control-plane/llm-provider/llm-provider-catalog.ts:259-265 | The item found is in the catalog and has the type asked for; none is found exactly when the catalog has no such type. |
| `ProviderCatalog.CatalogHasDistinctTypes` | apps/managed-agent-api/src/control-plane/llm-provider/llm-provider-catalog.ts:111-257 | No two items of the system catalog have the same type. |
| `ProviderCatalog.ItemsAreFound` | apps/managed-agent-api/src/control-plane/llm-provider/llm-provider-catalog.ts:259-265 | In a catalog of distinct types every item is found under its own. |
| `ProviderRegistry.RequestedModelLevels` | apps/managed-agent-api/src/control-plane/llm-provider/llm-provider-service.ts:70-83 | A model the user lists supports exactly the thinking levels that some default model supports. |
| `ProviderRegistry.NormalizedIsResolvable` | apps/managed-agent-api/src/control-plane/llm-provider/llm-provider-service.ts:205-298 | Input that is accepted yields a record of a known type whose default model is listed, whose thinking level that model allows, and whose required base URL is present. |
| `ProviderRegistry.LlmProviderService.CreateProviderConfig` | apps/managed-agent-api/src/control-plane/llm-provider/llm-provider-service.ts:307-323 | Stores the normalized record under its fresh id, or fails and stores nothing. |
| `ProviderRegistry.LlmProviderService.UpdateProviderConfig` | apps/managed-agent-api/src/control-plane/llm-provider/llm-provider-service.ts:324-341 | Writes the merged record over the user's row, keeping columns that are undefined, or fails and changes nothing. |
| `ProviderRegistry.LlmProviderService.StoreOAuthCredential` | apps/managed-agent-api/src/control-plane/llm-provider/llm-provider-service.ts:377-392 | Stores the credential in the user's OAuth record, or fails and changes nothing. |
| `ProviderRegistry.LlmProviderService.ClearOAuthCredential` | apps/managed-agent-api/src/control-plane/llm-provider/llm-provider-service.ts:393-408 | Removes the credential from the user's OAuth record, or fails and changes nothing. |
| `ProviderRegistry.LlmProviderService.DeleteProviderConfig` | apps/managed-agent-api/src/control-plane/llm-provider/llm-provider-service.ts:342-347 | Removes the user's record and no other. |
| `ProviderRegistry.LlmProviderService.ValidateProviderConfig` | apps/managed-agent-api/src/control-plane/llm-provider/llm-provider-service.ts:348-376 | Collects exactly the faults of the user's record, in order. |
| `ProviderRegistry.InvAlways` | apps/managed-agent-api/src/control-plane/llm-provider/llm-provider-service.ts:205-408 | After any sequence of create, update, store, clear and delete calls every record resolves against the catalog and its own models. |
| `ProviderRegistry.ValidExactlyWhenResolved` | apps/managed-agent-api/src/control-plane/llm-provider/llm-provider-service.ts:348-480 | In every reachable state validation of an enabled record of the user finds no fault if and only if a session asking for the defaults can be resolved. |
| `ProviderRegistry.UpdateMerges` | apps/managed-agent-api/src/control-plane/llm-provider/llm-provider-service.ts:205-298 | An accepted update takes every setting that is given, keeps every other along with the record's id, owner and stored secrets, and touches no other record. |
| `ProviderRegistry.BlankUpdateChangesNothing` | apps/managed-agent-api/src/control-plane/llm-provider/llm-provider-service.ts:214-276 | In every reachable state an update that gives nothing is accepted and changes nothing. |
| `ProviderRegistry.StoreMakesValid` | apps/managed-agent-api/src/control-plane/llm-provider/llm-provider-service.ts:377-392 | Storing a credential makes an OAuth record valid, touches no other row and keeps its API key. |
| `ProviderRegistry.ClearMakesInvalid` | apps/managed-agent-api/src/control-plane/llm-provider/llm-provider-service.ts:393-408 | Clearing it makes the record invalid for that reason alone, touches no other row and keeps its API key. |
| `ProviderRegistry.ApiTypeAfterUpdate` | apps/managed-agent-api/src/control-plane/llm-provider/repositories/postgres-llm-provider-repository.ts:105-132 | After an update the API type is that of the provider type if and only if that type has one or the row had none. |
| `ProviderRegistry.TypeMayChange` | apps/managed-agent-api/src/control-plane/llm-provider/llm-provider-service.ts:205-298 | A stored record may change to any known type whose need of a base URL it meets. |
| `ProviderRegistry.StaleApiType` | apps/managed-agent-api/src/control-plane/llm-provider/repositories/postgres-llm-provider-repository.ts:105-132 | A Together AI record of the system catalog that is changed to OpenAI, which has no API type, keeps `openai-completions`. |
| `ProviderRegistry.ModelIdIsRecovered` | apps/managed-agent-api/src/control-plane/session/managed-session-service.ts:446 | Dropping the first segment of the stored model name recovers the model id, slashes and all, if and only if the runtime provider id has no slash. |
| `ProviderRegistry.SelectionIsStable` | apps/managed-agent-api/src/control-plane/llm-provider/llm-provider-service.ts:105-140 | Asking again for the model and thinking level that were selected selects them again. |
| `ProviderRegistry.ContinuationKeepsSelection` | apps/managed-agent-api/src/control-plane/session/managed-session-service.ts:442-450 | With the record unchanged a continued session resolves to the provider, model and thinking level it was created with if and only if the user id is its own normal form; otherwise the provider is not found. |
| `ProviderRegistry.ApiUsersContinue` | apps/managed-agent-api/src/control-plane/session/managed-session-service.ts:442-450 | A user whose id was issued by the identity service always continues with the provider, model and thinking level of the creation. |
| `ProviderCalls.ResolveSays` | apps/managed-agent-api/src/control-plane/llm-provider/llm-provider-service.ts:412-480 | A session gets the trimmed model and level it asked for, or the record's defaults, under the runtime name of the record's type, with the record's id exactly when the type has no runtime provider of its own; or the error that applies: not found, unsupported type, model not listed, level refused, secret missing. |
| `ProviderCalls.EveryCallDoes` | apps/managed-agent-api/src/control-plane/llm-provider/llm-provider-service.ts:205-408 | Each call stores, merges, credits, clears or deletes the one record it names, setting by setting, or answers with the error that applies and stores nothing. |
| `ProviderCalls.NormalizeSays` | apps/managed-agent-api/src/control-plane/llm-provider/llm-provider-service.ts:205-298 | An accepted record takes every setting that is given, or else what it had or what its type comes with; it is refused for the first of the reasons listed, and only then. |
| `ProviderCalls.ModelsAre` | apps/managed-agent-api/src/control-plane/llm-provider/llm-provider-service.ts:66-89 | The models are those named, trimmed and in order, each with the levels of the default models without repeats, or the defaults if none is named. |
| `ProviderCalls.DistinctKeepsOrder` | apps/managed-agent-api/src/control-plane/llm-provider/llm-provider-service.ts:74-76 | Levels are listed in the order of their first occurrence. |
| `ProviderCalls.FaultsAre` | apps/managed-agent-api/src/control-plane/llm-provider/llm-provider-service.ts:348-376 | Each fault is found exactly when there is cause, in the order in which they are looked for. |

## Left out

- PiTranscript.ReadSessionEntries: lines are given as parsed records; `JSON.parse`, the type guards that sort JSON values into records, reading the file and the missing file (no entries) are not modelled, nor is the clash of a managed record's id with a message's, which the reader does not look at.
- PiTranscript.ReadSessionEntries: earlier entries are values in a sequence that is reassigned; that the source edits the same object through several references is not captured. The text that a date is printed as is a given function of its number.
- PiTranscript.OnePassIsWalk: without distinct message ids the maps are overwritten and the walk is not what is computed; the property is stated for distinct ids, as pi writes them.
- PiLog.ToUserContent: media items keep kind and URL only.
- MockTranscript.MockSession.Submit: a mock executor without a transcript directory, which writes nothing, and the fall-back to the sandbox log for sessions without a pi file are not modelled; a run's records are written all or not at all.
- SseFrames.ParseSseFrames: bytes are decoded already; multi-byte characters split between chunks are left to the decoder.
- ProviderCatalog.FindItem: the catalog's data are copied as they are; of them only that no type is repeated is proved.
- SseFrames.SseRoundTrip: JSON is a codec whose text has no raw newline (RFC 8259, section 7) and no surrounding space, and that parses back.
- WorkerHandOff.EventHandOff: the HTTP request, its error response and an unreadable body are not modelled; a step is what runs between two suspensions.
- PodLog.Run: what the cluster answers to a poll is an input, and a failed request ends the run; creating, awaiting and deleting the pod are not modelled, and termination of the loop is that of the list of polls.
- PodLog.ExactlyOnceUnlessHarmed: a read that is spoiled by a part which is itself a JSON event is excluded; a beginning of one printed JSON object never is.
- SandboxTranscript.ReadSandboxTranscript: the clock is an input, and lines are given as parsed events; an event whose `data` is neither an object nor absent is not modelled.
- LiveRun.ConsumeRun: what the race yields in each round is an input; logging to stderr and the session id field of events are not modelled.
- LiveRun.ReplayedRunIsRecorded: timestamps of the replay are its fall-back time, as the log holds none.
- RunCancellation.NoLostCancellation: an already resolved promise is taken to win the race against a generator that needs another tick.
- SessionStore.SessionRepository.UpdateSession: an undefined field keeps the stored column, as Drizzle's `set` does.
- SessionStore.SessionRepository.GetSession: the transcript that is read along with the row is modelled on its own.
- SessionStore.ManagedSessionService.BeginSubmit: two runs of one session at once and interleavings inside one read-modify-write are not modelled; the server leaves concurrent submission to the client.
- SessionStore.ManagedSessionService.BeginSubmit: whether the provider resolves, or why not, is an input, as is the provider of a new session; resolving itself is `ProviderRegistry.Resolve`.
- SessionStore.ManagedSessionService.FinishRun: database failures are modelled only as the loss of the final write.
- RecentSessions.ListUserSessions: text columns are compared by code unit, not by the database's collation; the cursor codec (JSON in base64url, RFC 4648, section 5) is lawful, and every error of decoding is reported as an invalid cursor.
- RecentSessions.ListUserSessions: the limit is a natural number, at least one in the paging theorems as the query schema demands.
- ProviderRegistry.NormalizeRecord: Anthropic base URL, provider options and timestamps, which are merged like the modelled fields, are not modelled; secrets are kept in the clear, encryption being a codec around the column.
- ProviderRegistry.Resolve: of the runtime configuration only what a session keeps is modelled; the rest copies settings and secrets of the record.
- ProviderRegistry.LlmProviderService.CreateProviderConfig: the fresh id is an input.
- ProviderRegistry.ContinuationKeepsSelection: a record that is edited, disabled or deleted between the two calls, and the fall-back to another provider for sessions without one, are not modelled.
- HTTP routes, request schemas, the mapping of records to response objects, CORS, cookies and audit records: each passes a request or a record on field by field and keeps no state of its own.
- The web client: it renders what the API returns.
- Kubernetes requests, the pi SDK session, PostgreSQL and the file system: foreign; a log is a sequence of lines and a table is a map.
- Password hashing, token decoding and the OAuth flows: done by libraries; a credential is an opaque text here.
- Triggers: the service answers each request with the next number and starts nothing.
- Registration, login and login sessions: they end in a user id for the calls modelled here, where it is an input.
- Mount paths: fixed suffixes joined to one configured root.
