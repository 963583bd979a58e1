/**
 What each call of the session service leaves behind, column by column: which row it writes, which recent row goes with
 it, and when it is refused.
 */
module SessionCalls {
  import opened Contracts
  import opened Text
  import opened SessionStore

  // ----- what is there, and what is refused -----

  predicate IsVisible(s: State, id: string) {
    id in s.tables.sessions && s.tables.sessions[id].archivedAt.None?
  }

  /** An archived session is refused like one that never was; one with a run, or marked as running, is in the way. */
  predicate MayArchive(s: State, id: string) {
    IsVisible(s, id) && id !in s.active && s.tables.sessions[id].status != Running
  }

  /** Looking a session up gives every column of its row. */
  lemma {:induction false} LookupSays(s: State, id: string)
    ensures Lookup(s.tables, id).Some? <==> IsVisible(s, id)
    ensures IsVisible(s, id) ==>
              var row := s.tables.sessions[id];
              Lookup(s.tables, id) == Some(SessionRecord(id, row.userId, row.sessionName, row.status, row.provider,
                                                         row.piSessionFile, row.createdAt, row.updatedAt, None))
    ensures StatusOf(s, id) == if !IsVisible(s, id) then None
                               else if id in s.active then Some(Running) else Some(s.tables.sessions[id].status)
    ensures ArchiveError(s, id) == if MayArchive(s, id) then None
                                   else if IsVisible(s, id) then Some(Conflict) else Some(NotFound)
  {
  }

  // ----- what is written -----

  /** One row is written, and the recent row of its owner with it; all other rows stay. */
  predicate Writes(before: Tables, id: string, row: SessionRow, after: Tables) {
    && after.sessions == before.sessions[id := row]
    && after.recent == before.recent[RecentKey(row.userId, id) := RecentRow(row.sessionName, row.updatedAt)]
  }

  predicate SameRuns(s: State, next: State) {
    next.active == s.active && next.runs == s.runs
  }

  /** The handler of a message has captured the session's row. */
  predicate Captured(row: SessionRow, id: string, run: Run) {
    && run.phase == Begun && run.record.sessionId == id && NormalizeUserId(run.record.userId) == row.userId
    && run.record.sessionName == row.sessionName && run.record.status == row.status
    && run.record.provider == row.provider && run.record.piSessionFile == row.piSessionFile
    && run.record.createdAt == row.createdAt && run.record.updatedAt == row.updatedAt && run.record.archivedAt.None?
  }

  /** The new row of a session is in both tables, under the given name, owner and provider, and its run has begun. */
  predicate Creates(s: State, action: Action, next: State)
    requires action.Create?
  {
    if action.sessionId in s.tables.sessions then next == s
    else
      var row := SessionRow(NormalizeUserId(action.userId), action.sessionName, Running, action.provider, None,
                            action.now, action.now, None);
      && Writes(s.tables, action.sessionId, row, next.tables) && next.active == s.active
      && action.sessionId in next.runs && next.runs == s.runs[action.sessionId := next.runs[action.sessionId]]
      && Captured(row, action.sessionId, next.runs[action.sessionId])
  }

  predicate Submits(s: State, id: string, now: string, next: State) {
    if !IsVisible(s, id) then next == s
    else
      var was := s.tables.sessions[id];
      var row := was.(userId := NormalizeUserId(was.userId), status := Running, updatedAt := now);
      && Writes(s.tables, id, row, next.tables) && next.active == s.active
      && id in next.runs && next.runs == s.runs[id := next.runs[id]] && Captured(row, id, next.runs[id])
  }

  /** The outcome is written over the captured name and owner; only a completed run brings a transcript file. */
  predicate Finishes(s: State, id: string, outcome: Outcome, now: string, next: State)
    requires id in s.runs && id in s.tables.sessions
  {
    var was, record := s.tables.sessions[id], s.runs[id].record;
    var row := was.(userId := NormalizeUserId(record.userId), sessionName := record.sessionName,
                    status := if outcome.Failed? then SessionStatus.Error else Idle,
                    piSessionFile := if outcome.Completed? && outcome.piSessionFile.Some? then outcome.piSessionFile
                                     else was.piSessionFile,
                    updatedAt := now);
    && Writes(s.tables, id, row, next.tables) && next.active == s.active
    && next.runs == s.runs[id := Run(record, Written)]
  }

  predicate Renames(s: State, id: string, sessionName: string, now: string, next: State) {
    if !IsVisible(s, id) then next == s
    else
      var was := s.tables.sessions[id];
      var row := was.(userId := NormalizeUserId(was.userId), sessionName := sessionName, updatedAt := now);
      Writes(s.tables, id, row, next.tables) && SameRuns(s, next)
  }

  predicate Archives(s: State, id: string, now: string, next: State) {
    if !MayArchive(s, id) then next == s
    else
      var was := s.tables.sessions[id];
      var owner := NormalizeUserId(was.userId);
      && next.tables.sessions
         == s.tables.sessions[id := was.(userId := owner, updatedAt := now, archivedAt := Some(now))]
      && next.tables.recent == s.tables.recent - {RecentKey(owner, id)}
      && SameRuns(s, next)
  }

  /** What a call does to a state in which its handler can take it. */
  ghost predicate Does(s: State, action: Action, next: State) {
    match action
    case Create(_, _, _, _, _) => Creates(s, action, next)
    case Submit(id, now) => id !in s.runs ==> Submits(s, id, now, next)
    case MarkActive(id) =>
      id in s.runs && s.runs[id].phase == Begun ==>
        next == State(s.tables, s.active + {id}, s.runs[id := Run(s.runs[id].record, Active)])
    case Finish(id, outcome, now) =>
      id in s.runs && s.runs[id].phase == Active ==>
        id in s.tables.sessions && Finishes(s, id, outcome, now, next)
    case LoseFinish(id) =>
      id in s.runs && s.runs[id].phase == Active ==>
        next == State(s.tables, s.active, s.runs[id := Run(s.runs[id].record, Written)])
    case MarkIdle(id) =>
      id in s.runs && s.runs[id].phase == Written ==>
        next == State(s.tables, s.active - {id}, s.runs - {id})
    case Rename(id, sessionName, now) => Renames(s, id, sessionName, now, next)
    case Archive(id, now) => now != "" ==> Archives(s, id, now, next)
  }

  lemma {:induction false} CreateDoes(s: State, action: Action)
    requires action.Create?
    ensures Creates(s, action, Step(s, action))
  {
  }

  lemma {:induction false} SubmitDoes(s: State, id: string, now: string)
    requires id !in s.runs
    ensures Submits(s, id, now, Step(s, Submit(id, now)))
  {
  }

  lemma {:induction false} RenameDoes(s: State, id: string, sessionName: string, now: string)
    ensures Renames(s, id, sessionName, now, Step(s, Rename(id, sessionName, now)))
  {
  }

  lemma {:induction false} ArchiveDoes(s: State, id: string, now: string)
    requires now != ""
    ensures Archives(s, id, now, Step(s, Archive(id, now)))
  {
  }

  lemma {:induction false} FinishDoes(s: State, id: string, outcome: Outcome, now: string)
    requires Captures(s) && RunsCurrent(s) && InPhase(s, id, Active)
    ensures id in s.tables.sessions && Finishes(s, id, outcome, now, Step(s, Finish(id, outcome, now)))
  {
    assert IsCaptured(s.tables, id, s.runs[id]);
    assert InFlight(s, id) && IsCurrent(s.tables, id, s.runs[id].record);
  }

  /** In every history each call does to both tables, the registry and the runs what is said here, and nothing else. */
  lemma {:induction false} EveryCallDoes(actions: seq<Action>, action: Action)
    ensures Does(After(EMPTY, actions), action, Step(After(EMPTY, actions), action))
  {
    hide Creates, Submits, Finishes, Renames, Archives, RunsCurrent, Captures;
    var s := After(EMPTY, actions);
    CapturesAtEmpty();
    CapturesAlways(EMPTY, actions);
    RunsCurrentAlways(actions);
    match action
    case Create(_, _, _, _, _) => CreateDoes(s, action);
    case Submit(id, now) =>
      if id !in s.runs {
        SubmitDoes(s, id, now);
      }
    case Finish(id, outcome, now) =>
      if InPhase(s, id, Active) {
        FinishDoes(s, id, outcome, now);
      }
    case Rename(id, sessionName, now) => RenameDoes(s, id, sessionName, now);
    case Archive(id, now) =>
      if now != "" {
        ArchiveDoes(s, id, now);
      }
    case _ =>
  }

  lemma {:induction false} CapturesAtEmpty()
    ensures Captures(EMPTY)
  {
  }

  /** An accepted archive hides the session: no lookup finds it and, with stable owners, no list holds it. */
  lemma {:induction false} ArchiveHides(actions: seq<Action>, id: string, now: string)
    requires now != "" && ArchiveError(After(EMPTY, actions), id).None?
    ensures var s, next := After(EMPTY, actions), Step(After(EMPTY, actions), Archive(id, now));
            && id in next.tables.sessions && next.tables.sessions[id].archivedAt == Some(now)
            && next.tables.sessions[id].updatedAt == now && Lookup(next.tables, id).None?
            && ((forall a :: a in actions ==> HasStableOwner(a)) ==>
                  && next.tables.sessions[id] == s.tables.sessions[id].(updatedAt := now, archivedAt := Some(now))
                  && forall key: RecentKey :: key in next.tables.recent ==> key.sessionId != id)
  {
    var s := After(EMPTY, actions);
    LookupSays(s, id);
    ArchiveDoes(s, id, now);
    if forall a :: a in actions ==> HasStableOwner(a) {
      InvAlways(actions);
    }
  }

  // ----- the repository by itself -----

  /** The quotes that a user id loses are the outermost ones, once it is trimmed. */
  lemma {:induction false} NormalizeSays(userId: string)
    ensures var trimmed, normalized := Trim(userId), NormalizeUserId(userId);
            if |trimmed| >= 2 && trimmed[0] == '"' && trimmed[|trimmed| - 1] == '"' then
              trimmed == "\"" + normalized + "\""
            else normalized == trimmed
  {
  }

  /** A column that the record leaves undefined keeps what is stored; all others are written. */
  predicate Keeps(given: Option<string>, stored: Option<string>, after: Option<string>) {
    after == if given.Some? then given else stored
  }

  predicate Upserts(before: Tables, session: SessionRecord, after: Tables) {
    var id, owner := session.sessionId, NormalizeUserId(session.userId);
    var key := RecentKey(owner, id);
    && id in after.sessions && after.sessions == before.sessions[id := after.sessions[id]]
    && var row := after.sessions[id];
       && row.userId == owner && row.sessionName == session.sessionName && row.status == session.status
       && row.createdAt == session.createdAt && row.updatedAt == session.updatedAt
       && row.provider.model == session.provider.model && row.provider.thinkingLevel == session.provider.thinkingLevel
       && (if id in before.sessions then
             var was := before.sessions[id];
             && Keeps(session.provider.configId, was.provider.configId, row.provider.configId)
             && Keeps(session.provider.providerType, was.provider.providerType, row.provider.providerType)
             && Keeps(session.piSessionFile, was.piSessionFile, row.piSessionFile)
             && Keeps(session.archivedAt, was.archivedAt, row.archivedAt)
           else
             && row.provider == session.provider && row.piSessionFile == session.piSessionFile
             && row.archivedAt == session.archivedAt)
       && (if session.archivedAt.Some? && session.archivedAt.value != "" then after.recent == before.recent - {key}
           else after.recent == before.recent[key := RecentRow(session.sessionName, session.updatedAt)])
  }

  /** Writing any record writes its row column by column, and its recent row unless the record is archived. */
  lemma {:induction false} UpdateSays(t: Tables, session: SessionRecord)
    ensures Upserts(t, session, Updated(t, session))
  {
  }
}
