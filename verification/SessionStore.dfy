/**
 Session metadata and the recent-session projection: the two tables of `postgres-session-repository.ts` and the
 operations of `managed-session-service.ts` that move them, one atomic control step at a time.
 */
module SessionStore {
  import opened Contracts
  import opened Text
  import Registry = RunCancellation

  datatype SessionStatus = Idle | Running | Error

  /** The provider columns of a session. */
  datatype Provider = Provider(model: string, thinkingLevel: string, configId: Option<string>,
                               providerType: Option<string>)

  /** What the service hands to the repository. Undefined columns are `None`. */
  datatype SessionRecord = SessionRecord(
    sessionId: string, userId: string, sessionName: string, status: SessionStatus, provider: Provider,
    piSessionFile: Option<string>, createdAt: string, updatedAt: string, archivedAt: Option<string>)

  datatype SessionRow = SessionRow(
    userId: string, sessionName: string, status: SessionStatus, provider: Provider, piSessionFile: Option<string>,
    createdAt: string, updatedAt: string, archivedAt: Option<string>)

  datatype RecentKey = RecentKey(userId: string, sessionId: string)

  datatype RecentRow = RecentRow(sessionName: string, lastActiveAt: string)

  datatype Tables = Tables(sessions: map<string, SessionRow>, recent: map<RecentKey, RecentRow>)

  datatype ServiceError = NotFound | Conflict | DuplicateKey | ProviderRejected(message: string)

  // ----- user ids -----

  predicate Quoted(s: string) {
    |s| >= 2 && s[0] == '"' && s[|s| - 1] == '"'
  }

  function Unquoted(s: string): string
    requires Quoted(s)
  {
    s[1..|s| - 1]
  }

  /** Trims, then strips one pair of double quotes. */
  function NormalizeUserId(userId: string): string {
    var trimmed := Trim(userId);
    if Quoted(trimmed) then Unquoted(trimmed) else trimmed
  }

  predicate Stable(userId: string) {
    NormalizeUserId(NormalizeUserId(userId)) == NormalizeUserId(userId)
  }

  lemma {:induction false} NormalizedFixedPoints(s: string)
    ensures NormalizeUserId(s) == s <==> IsTrimmed(s) && !Quoted(s)
  {
    TrimTrims(s);
  }

  /** Normalizing twice is normalizing once exactly when the quotes enclose a trimmed text without quotes of its own. */
  lemma {:induction false} StableUserIds(userId: string)
    ensures var trimmed := Trim(userId);
            Stable(userId)
            <==> (Quoted(trimmed) ==> IsTrimmed(Unquoted(trimmed)) && !Quoted(Unquoted(trimmed)))
  {
    TrimTrims(userId);
    NormalizedFixedPoints(NormalizeUserId(userId));
  }

  // ----- the repository -----

  /** A column that is undefined in the record keeps what the row holds. */
  function Column(given: Option<string>, stored: Option<string>): Option<string> {
    if given.Some? then given else stored
  }

  function MergedProvider(given: Provider, stored: Provider): Provider {
    given.(configId := Column(given.configId, stored.configId),
           providerType := Column(given.providerType, stored.providerType))
  }

  function NewRow(session: SessionRecord): SessionRow {
    SessionRow(NormalizeUserId(session.userId), session.sessionName, session.status, session.provider,
               session.piSessionFile, session.createdAt, session.updatedAt, session.archivedAt)
  }

  function Merged(row: Option<SessionRow>, session: SessionRecord): SessionRow {
    if row.None? then NewRow(session)
    else
      NewRow(session).(provider := MergedProvider(session.provider, row.value.provider),
                       piSessionFile := Column(session.piSessionFile, row.value.piSessionFile),
                       archivedAt := Column(session.archivedAt, row.value.archivedAt))
  }

  function RowOf(t: Tables, sessionId: string): Option<SessionRow> {
    if sessionId in t.sessions then Some(t.sessions[sessionId]) else None
  }

  function KeyOf(session: SessionRecord): RecentKey {
    RecentKey(NormalizeUserId(session.userId), session.sessionId)
  }

  predicate IsTruthy(o: Option<string>) {
    o.Some? && o.value != ""
  }

  function Updated(t: Tables, session: SessionRecord): Tables {
    Tables(t.sessions[session.sessionId := Merged(RowOf(t, session.sessionId), session)],
           if IsTruthy(session.archivedAt) then t.recent - {KeyOf(session)}
           else t.recent[KeyOf(session) := RecentRow(session.sessionName, session.updatedAt)])
  }

  /** A session id that is taken violates the primary key, and the transaction leaves both tables alone. */
  function Created(t: Tables, session: SessionRecord): Result<Tables, ServiceError> {
    if session.sessionId in t.sessions then Failure(DuplicateKey)
    else Success(Tables(t.sessions[session.sessionId := NewRow(session)],
                        t.recent[KeyOf(session) := RecentRow(session.sessionName, session.updatedAt)]))
  }

  /** Archived sessions are hidden. */
  function Lookup(t: Tables, sessionId: string): Option<SessionRecord> {
    if sessionId in t.sessions && t.sessions[sessionId].archivedAt.None? then
      var row := t.sessions[sessionId];
      Some(SessionRecord(sessionId, row.userId, row.sessionName, row.status, row.provider, row.piSessionFile,
                         row.createdAt, row.updatedAt, None))
    else None
  }

  class SessionRepository {
    var sessions: map<string, SessionRow>
    var recent: map<RecentKey, RecentRow>

    function Contents(): Tables
      reads this
    {
      Tables(sessions, recent)
    }

    constructor ()
      ensures Contents() == Tables(map[], map[])
    {
      sessions, recent := map[], map[];
    }

    method CreateSession(session: SessionRecord) returns (r: Result<(), ServiceError>)
      modifies this
      ensures match Created(old(Contents()), session)
              case Success(tables) => r == Success(()) && Contents() == tables
              case Failure(error) => r == Failure(error) && Contents() == old(Contents())
    {
      var userId := NormalizeUserId(session.userId);
      if session.sessionId in sessions {
        return Failure(DuplicateKey);
      }
      sessions := sessions[session.sessionId :=
                             SessionRow(userId, session.sessionName, session.status, session.provider,
                                        session.piSessionFile, session.createdAt, session.updatedAt,
                                        session.archivedAt)];
      recent := recent[RecentKey(userId, session.sessionId) := RecentRow(session.sessionName, session.updatedAt)];
      r := Success(());
    }

    method GetSession(sessionId: string) returns (session: Option<SessionRecord>)
      ensures session == Lookup(Contents(), sessionId)
    {
      if sessionId !in sessions || sessions[sessionId].archivedAt.Some? {
        return None;
      }
      var row := sessions[sessionId];
      session := Some(SessionRecord(sessionId, row.userId, row.sessionName, row.status, row.provider,
                                    row.piSessionFile, row.createdAt, row.updatedAt, None));
    }

    method UpdateSession(session: SessionRecord)
      modifies this
      ensures Contents() == Updated(old(Contents()), session)
    {
      var userId := NormalizeUserId(session.userId);
      var key := RecentKey(userId, session.sessionId);
      if session.sessionId in sessions {
        var row := sessions[session.sessionId];
        var provider := session.provider.(configId := row.provider.configId,
                                          providerType := row.provider.providerType);
        if session.provider.configId.Some? {
          provider := provider.(configId := session.provider.configId);
        }
        if session.provider.providerType.Some? {
          provider := provider.(providerType := session.provider.providerType);
        }
        row := row.(userId := userId, sessionName := session.sessionName, status := session.status,
                    provider := provider, createdAt := session.createdAt, updatedAt := session.updatedAt);
        if session.piSessionFile.Some? {
          row := row.(piSessionFile := session.piSessionFile);
        }
        if session.archivedAt.Some? {
          row := row.(archivedAt := session.archivedAt);
        }
        sessions := sessions[session.sessionId := row];
      } else {
        sessions := sessions[session.sessionId :=
                               SessionRow(userId, session.sessionName, session.status, session.provider,
                                          session.piSessionFile, session.createdAt, session.updatedAt,
                                          session.archivedAt)];
      }
      if session.archivedAt.Some? && session.archivedAt.value != "" {
        recent := recent - {key};
        return;
      }
      recent := recent[key := RecentRow(session.sessionName, session.updatedAt)];
    }
  }

  // ----- control steps -----

  /** A request handler that has written its running session, then registered its run, then written the outcome. */
  datatype Phase = Begun | Active | Written

  /** `record` is what the handler captured when the run began. */
  datatype Run = Run(record: SessionRecord, phase: Phase)

  datatype Outcome = Completed(piSessionFile: Option<string>) | Cancelled | Failed

  datatype State = State(tables: Tables, active: set<string>, runs: map<string, Run>)

  const EMPTY := State(Tables(map[], map[]), {}, map[])

  datatype Action =
    | Create(sessionId: string, userId: string, sessionName: string, provider: Provider, now: string)
    | Submit(sessionId: string, now: string)
    | MarkActive(sessionId: string)
    | Finish(sessionId: string, outcome: Outcome, now: string)
    | LoseFinish(sessionId: string)
    | MarkIdle(sessionId: string)
    | Rename(sessionId: string, sessionName: string, now: string)
    | Archive(sessionId: string, now: string)

  function NewSession(sessionId: string, userId: string, sessionName: string, provider: Provider, now: string)
    : SessionRecord
  {
    SessionRecord(sessionId, userId, sessionName, Running, provider, None, now, now, None)
  }

  /** The record written when a run ends, built from the one captured when it began. */
  function FinalRecord(record: SessionRecord, outcome: Outcome, now: string): SessionRecord {
    record.(status := if outcome.Failed? then SessionStatus.Error else Idle,
            piSessionFile := if outcome.Completed? then Column(outcome.piSessionFile, record.piSessionFile)
                             else record.piSessionFile,
            updatedAt := now)
  }

  function ArchiveError(s: State, sessionId: string): Option<ServiceError> {
    var session := Lookup(s.tables, sessionId);
    if session.None? then Some(NotFound)
    else if sessionId in s.active || session.value.status.Running? then Some(Conflict)
    else None
  }

  predicate InPhase(s: State, sessionId: string, phase: Phase) {
    sessionId in s.runs && s.runs[sessionId].phase == phase
  }

  /** A session has at most one run, its handler takes its steps in order, and a time stamp is not empty. */
  predicate Enabled(s: State, action: Action) {
    match action
    case Submit(sessionId, _) => sessionId !in s.runs
    case MarkActive(sessionId) => InPhase(s, sessionId, Begun)
    case Finish(sessionId, _, _) => InPhase(s, sessionId, Active)
    case LoseFinish(sessionId) => InPhase(s, sessionId, Active)
    case MarkIdle(sessionId) => InPhase(s, sessionId, Written)
    case Archive(_, now) => now != ""
    case _ => true
  }

  function Begin(s: State, tables: Tables, record: SessionRecord): State {
    s.(tables := tables, runs := s.runs[record.sessionId := Run(record, Begun)])
  }

  function InNextPhase(s: State, sessionId: string, phase: Phase): State
    requires sessionId in s.runs
  {
    s.(runs := s.runs[sessionId := s.runs[sessionId].(phase := phase)])
  }

  /** A step that is not enabled cannot be taken and changes nothing. */
  function Step(s: State, action: Action): State {
    if !Enabled(s, action) then s else
    match action
    case Create(sessionId, userId, sessionName, provider, now) =>
      var record := NewSession(sessionId, userId, sessionName, provider, now);
      var created := Created(s.tables, record);
      if created.Success? then Begin(s, created.value, record) else s
    case Submit(sessionId, now) =>
      var session := Lookup(s.tables, sessionId);
      if session.None? then s
      else
        var record := session.value.(status := Running, updatedAt := now);
        Begin(s, Updated(s.tables, record), record)
    case MarkActive(sessionId) =>
      InNextPhase(s, sessionId, Active).(active := s.active + {sessionId})
    case Finish(sessionId, outcome, now) =>
      var record := FinalRecord(s.runs[sessionId].record, outcome, now);
      InNextPhase(s, sessionId, Written).(tables := Updated(s.tables, record))
    case LoseFinish(sessionId) =>
      InNextPhase(s, sessionId, Written)
    case MarkIdle(sessionId) =>
      s.(active := s.active - {sessionId}, runs := s.runs - {sessionId})
    case Rename(sessionId, sessionName, now) =>
      var session := Lookup(s.tables, sessionId);
      if session.None? then s
      else s.(tables := Updated(s.tables, session.value.(sessionName := sessionName, updatedAt := now)))
    case Archive(sessionId, now) =>
      if ArchiveError(s, sessionId).Some? then s
      else
        var session := Lookup(s.tables, sessionId).value;
        s.(tables := Updated(s.tables, session.(updatedAt := now, archivedAt := Some(now))))
  }

  class ManagedSessionService {
    const repository: SessionRepository
    const registry: Registry.ActiveSessionRegistry
    /** The handlers whose run has begun and not been marked idle. */
    var runs: map<string, Run>

    ghost function Current(): State
      reads this, repository, registry
    {
      State(repository.Contents(), registry.activeSessions.Keys, runs)
    }

    constructor ()
      ensures Current() == EMPTY && fresh(repository) && fresh(registry)
    {
      repository := new SessionRepository();
      registry := new Registry.ActiveSessionRegistry();
      runs := map[];
    }

    /** `provider` is what resolving the provider gave; a rejection is thrown before anything is written. */
    method BeginCreate(sessionId: string, userId: string, sessionName: string, provider: Result<Provider, string>,
                       now: string) returns (r: Result<(), ServiceError>)
      modifies this, repository
      ensures provider.Failure? ==> Current() == old(Current()) && r == Failure(ProviderRejected(provider.error))
      ensures provider.Success? ==>
                && Current() == Step(old(Current()), Create(sessionId, userId, sessionName, provider.value, now))
                && r == if sessionId in old(repository.sessions) then Failure(DuplicateKey) else Success(())
    {
      if provider.Failure? {
        return Failure(ProviderRejected(provider.error));
      }
      var record := NewSession(sessionId, userId, sessionName, provider.value, now);
      r := repository.CreateSession(record);
      if r.Success? {
        runs := runs[sessionId := Run(record, Begun)];
      }
    }

    /** `rejection` is the error of resolving the session's provider, if it fails. */
    method BeginSubmit(sessionId: string, rejection: Option<string>, now: string)
      returns (r: Result<(), ServiceError>)
      requires sessionId !in runs
      modifies this, repository
      ensures Current() == if rejection.Some? then old(Current()) else Step(old(Current()), Submit(sessionId, now))
      ensures r == if Lookup(old(repository.Contents()), sessionId).None? then Failure(NotFound)
                   else if rejection.Some? then Failure(ProviderRejected(rejection.value))
                   else Success(())
    {
      var session := repository.GetSession(sessionId);
      if session.None? {
        return Failure(NotFound);
      }
      if rejection.Some? {
        return Failure(ProviderRejected(rejection.value));
      }
      var record := session.value.(status := Running, updatedAt := now);
      repository.UpdateSession(record);
      runs := runs[sessionId := Run(record, Begun)];
      r := Success(());
    }

    method StartRun(sessionId: string, run: Registry.CancellableRun)
      requires InPhase(Current(), sessionId, Begun)
      modifies this, registry
      ensures Current() == Step(old(Current()), MarkActive(sessionId))
      ensures registry.activeSessions[sessionId] == run
    {
      registry.MarkActive(sessionId, run);
      runs := runs[sessionId := runs[sessionId].(phase := Active)];
    }

    method FinishRun(sessionId: string, outcome: Outcome, now: string)
      requires InPhase(Current(), sessionId, Active)
      modifies this, repository
      ensures Current() == Step(old(Current()), Finish(sessionId, outcome, now))
    {
      var record := runs[sessionId].record;
      match outcome {
        case Completed(piSessionFile) =>
          repository.UpdateSession(record.(status := Idle, updatedAt := now,
                                           piSessionFile := if piSessionFile.Some? then piSessionFile
                                                            else record.piSessionFile));
        case Cancelled =>
          repository.UpdateSession(record.(status := Idle, updatedAt := now));
        case Failed =>
          repository.UpdateSession(record.(status := SessionStatus.Error, updatedAt := now));
      }
      runs := runs[sessionId := runs[sessionId].(phase := Written)];
    }

    method EndRun(sessionId: string)
      requires InPhase(Current(), sessionId, Written)
      modifies this, registry
      ensures Current() == Step(old(Current()), MarkIdle(sessionId))
    {
      registry.MarkIdle(sessionId);
      runs := runs - {sessionId};
    }

    method UpdateSessionName(sessionId: string, sessionName: string, now: string)
      returns (r: Result<SessionRecord, ServiceError>)
      modifies repository
      ensures Current() == Step(old(Current()), Rename(sessionId, sessionName, now))
      ensures r == match Lookup(repository.Contents(), sessionId) {
                     case Some(session) => Success(session)
                     case None => Failure(NotFound)
                   }
      ensures r.Success? ==> r.value.sessionName == sessionName && r.value.updatedAt == now
    {
      var session := repository.GetSession(sessionId);
      if session.None? {
        return Failure(NotFound);
      }
      repository.UpdateSession(session.value.(sessionName := sessionName, updatedAt := now));
      var updated := repository.GetSession(sessionId);
      r := Success(updated.value);
    }

    method ArchiveSession(sessionId: string, now: string) returns (r: Result<(), ServiceError>)
      requires now != ""
      modifies repository
      ensures Current() == Step(old(Current()), Archive(sessionId, now))
      ensures r == match ArchiveError(old(Current()), sessionId) {
                     case Some(error) => Failure(error)
                     case None => Success(())
                   }
    {
      var session := repository.GetSession(sessionId);
      if session.None? {
        return Failure(NotFound);
      }
      var active := registry.IsActive(sessionId);
      if active || session.value.status.Running? {
        return Failure(Conflict);
      }
      repository.UpdateSession(session.value.(updatedAt := now, archivedAt := Some(now)));
      r := Success(());
    }

    /** What clients see: a session with a registered run is running whatever its row says. */
    method GetSessionStatus(sessionId: string) returns (status: Option<SessionStatus>)
      ensures status == StatusOf(Current(), sessionId)
    {
      var session := repository.GetSession(sessionId);
      if session.None? {
        return None;
      }
      var active := registry.IsActive(sessionId);
      status := Some(if active then Running else session.value.status);
    }
  }

  function StatusOf(s: State, sessionId: string): Option<SessionStatus> {
    var session := Lookup(s.tables, sessionId);
    if session.None? then None
    else if sessionId in s.active then Some(Running)
    else Some(session.value.status)
  }

  // ----- every history -----

  function After(s: State, actions: seq<Action>): State {
    if actions == [] then s else Step(After(s, actions[..|actions| - 1]), actions[|actions| - 1])
  }

  /** The projection holds exactly the sessions that are not archived, under the same name and time. */
  ghost predicate Projected(t: Tables) {
    forall key: RecentKey ::
      && (key in t.recent <==> key.sessionId in t.sessions && t.sessions[key.sessionId].archivedAt.None?
                               && t.sessions[key.sessionId].userId == key.userId)
      && (key in t.recent ==> var row := t.sessions[key.sessionId];
                              t.recent[key] == RecentRow(row.sessionName, row.updatedAt))
  }

  ghost predicate StableOwners(t: Tables) {
    forall id :: id in t.sessions ==> NormalizeUserId(t.sessions[id].userId) == t.sessions[id].userId
  }

  /** A run belongs to a session that is not archived, under the captured owner, marked as running until the outcome. */
  ghost predicate RunFits(t: Tables, id: string, run: Run) {
    && id in t.sessions
    && t.sessions[id].archivedAt.None?
    && run.record.sessionId == id && run.record.archivedAt.None?
    && NormalizeUserId(run.record.userId) == t.sessions[id].userId
    && (run.phase.Written? || t.sessions[id].status.Running?)
  }

  ghost predicate RunsFit(t: Tables, runs: map<string, Run>) {
    forall id :: id in runs ==> RunFits(t, id, runs[id])
  }

  ghost predicate Registered(active: set<string>, runs: map<string, Run>) {
    forall id :: id in active <==> id in runs && !runs[id].phase.Begun?
  }

  ghost predicate Inv(s: State) {
    Projected(s.tables) && StableOwners(s.tables) && RunsFit(s.tables, s.runs) && Registered(s.active, s.runs)
  }

  ghost predicate HasStableOwner(action: Action) {
    action.Create? ==> Stable(action.userId)
  }

  lemma {:induction false} UpdateKeepsProjection(t: Tables, session: SessionRecord)
    requires Projected(t) && StableOwners(t)
    requires session.sessionId in t.sessions ==>
               t.sessions[session.sessionId].archivedAt.None?
               && t.sessions[session.sessionId].userId == NormalizeUserId(session.userId)
    requires Stable(session.userId)
    requires session.archivedAt.Some? ==> session.archivedAt.value != ""
    ensures Projected(Updated(t, session)) && StableOwners(Updated(t, session))
  {
    var updated := Updated(t, session);
    forall key: RecentKey
      ensures key in updated.recent <==> key.sessionId in updated.sessions
                                         && updated.sessions[key.sessionId].archivedAt.None?
                                         && updated.sessions[key.sessionId].userId == key.userId
    {
      if key.sessionId != session.sessionId {
        assert key in updated.recent <==> key in t.recent;
      }
    }
  }

  /** Writing a session leaves the runs of other sessions alone, and its own as long as it stays visible and running. */
  lemma {:induction false} UpdateKeepsRuns(t: Tables, runs: map<string, Run>, session: SessionRecord)
    requires RunsFit(t, runs)
    requires session.sessionId in runs ==>
               && session.archivedAt.None?
               && t.sessions[session.sessionId].userId == NormalizeUserId(session.userId)
               && (runs[session.sessionId].phase.Written? || session.status.Running?)
    ensures RunsFit(Updated(t, session), runs)
  {
    forall id | id in runs ensures RunFits(Updated(t, session), id, runs[id]) {
      assert RunFits(t, id, runs[id]);
    }
  }

  lemma {:induction false} NewRunFits(t: Tables, runs: map<string, Run>, record: SessionRecord)
    requires RunsFit(t, runs) && RunFits(t, record.sessionId, Run(record, Begun))
    ensures RunsFit(t, runs[record.sessionId := Run(record, Begun)])
  {
  }

  /** Writing a visible session under its owner keeps the invariant if its run, when one is on, stays marked. */
  lemma {:induction false} WriteKeepsInv(s: State, session: SessionRecord)
    requires Inv(s)
    requires Lookup(s.tables, session.sessionId).Some?
    requires s.tables.sessions[session.sessionId].userId == NormalizeUserId(session.userId)
    requires session.archivedAt.None? || (session.sessionId !in s.runs && session.archivedAt.value != "")
    requires session.sessionId in s.runs ==> s.runs[session.sessionId].phase.Written? || session.status.Running?
    ensures Inv(s.(tables := Updated(s.tables, session)))
  {
    UpdateKeepsProjection(s.tables, session);
    UpdateKeepsRuns(s.tables, s.runs, session);
  }

  lemma {:induction false} ArchiveKeepsInv(s: State, sessionId: string, now: string)
    requires Inv(s) && ArchiveError(s, sessionId).None? && now != ""
    ensures Inv(Step(s, Archive(sessionId, now)))
  {
    hide Projected, Updated;
    var record := Lookup(s.tables, sessionId).value.(updatedAt := now, archivedAt := Some(now));
    assert Step(s, Archive(sessionId, now)) == s.(tables := Updated(s.tables, record));
    WriteKeepsInv(s, record);
  }

  lemma {:induction false} CreateKeepsInv(s: State, action: Action)
    requires Inv(s) && action.Create? && Stable(action.userId)
    ensures Inv(Step(s, action))
  {
    var record := NewSession(action.sessionId, action.userId, action.sessionName, action.provider, action.now);
    if action.sessionId !in s.tables.sessions {
      var tables := Updated(s.tables, record);
      assert Created(s.tables, record) == Success(tables);
      UpdateKeepsProjection(s.tables, record);
      assert action.sessionId in s.runs ==> RunFits(s.tables, action.sessionId, s.runs[action.sessionId]);
      UpdateKeepsRuns(s.tables, s.runs, record);
      NewRunFits(tables, s.runs, record);
    }
  }

  lemma {:induction false} SubmitKeepsInv(s: State, sessionId: string, now: string)
    requires Inv(s) && sessionId !in s.runs
    ensures Inv(Step(s, Submit(sessionId, now)))
  {
    var session := Lookup(s.tables, sessionId);
    if session.Some? {
      var record := session.value.(status := Running, updatedAt := now);
      WriteKeepsInv(s, record);
      NewRunFits(Updated(s.tables, record), s.runs, record);
    }
  }

  lemma {:induction false} FinishKeepsInv(s: State, sessionId: string, outcome: Outcome, now: string)
    requires Inv(s) && InPhase(s, sessionId, Active)
    ensures Inv(Step(s, Finish(sessionId, outcome, now)))
  {
    hide Step, Projected, StableOwners, Registered, Updated;
    var written := InNextPhase(s, sessionId, Written);
    FinishWrites(s, sessionId, outcome, now);
    assert RunFits(s.tables, sessionId, s.runs[sessionId]);
    LoseFinishKeepsInv(s, sessionId);
    WriteKeepsInv(written, FinalRecord(s.runs[sessionId].record, outcome, now));
  }

  lemma {:induction false} FinishWrites(s: State, sessionId: string, outcome: Outcome, now: string)
    requires InPhase(s, sessionId, Active)
    ensures var written := InNextPhase(s, sessionId, Written);
            var record := FinalRecord(s.runs[sessionId].record, outcome, now);
            && Step(s, LoseFinish(sessionId)) == written
            && Step(s, Finish(sessionId, outcome, now)) == written.(tables := Updated(s.tables, record))
  {
  }

  lemma {:induction false} RenameKeepsInv(s: State, sessionId: string, sessionName: string, now: string)
    requires Inv(s)
    ensures Inv(Step(s, Rename(sessionId, sessionName, now)))
  {
    var session := Lookup(s.tables, sessionId);
    if session.Some? {
      assert sessionId in s.runs ==> RunFits(s.tables, sessionId, s.runs[sessionId]);
      WriteKeepsInv(s, session.value.(sessionName := sessionName, updatedAt := now));
    }
  }

  lemma {:induction false} MarkActiveKeepsInv(s: State, sessionId: string)
    requires Inv(s)
    ensures Inv(Step(s, MarkActive(sessionId)))
  {
  }

  lemma {:induction false} LoseFinishKeepsInv(s: State, sessionId: string)
    requires Inv(s)
    ensures Inv(Step(s, LoseFinish(sessionId)))
  {
  }

  lemma {:induction false} MarkIdleKeepsInv(s: State, sessionId: string)
    requires Inv(s)
    ensures Inv(Step(s, MarkIdle(sessionId)))
  {
  }

  lemma {:induction false} InvStep(s: State, action: Action)
    requires Inv(s) && HasStableOwner(action)
    ensures Inv(Step(s, action))
  {
    if Enabled(s, action) {
      match action
      case Create(_, _, _, _, _) => CreateKeepsInv(s, action);
      case Submit(id, now) => SubmitKeepsInv(s, id, now);
      case Finish(id, outcome, now) => FinishKeepsInv(s, id, outcome, now);
      case Rename(id, sessionName, now) => RenameKeepsInv(s, id, sessionName, now);
      case Archive(id, now) =>
        if ArchiveError(s, id).None? {
          ArchiveKeepsInv(s, id, now);
        }
      case MarkActive(id) => MarkActiveKeepsInv(s, id);
      case LoseFinish(id) => LoseFinishKeepsInv(s, id);
      case MarkIdle(id) => MarkIdleKeepsInv(s, id);
    }
  }

  /** In every reachable state the projection mirrors the sessions, and runs and the registry fit the tables. */
  lemma {:induction false} InvAlways(actions: seq<Action>)
    requires forall a :: a in actions ==> HasStableOwner(a)
    ensures Inv(After(EMPTY, actions))
  {
    if actions != [] {
      var before := actions[..|actions| - 1];
      InvAlways(before);
      InvStep(After(EMPTY, before), actions[|actions| - 1]);
    }
  }

  // ----- runs -----

  predicate MarkedRunning(t: Tables, id: string) {
    id in t.sessions && t.sessions[id].status.Running?
  }

  /** A run's captured record is that of a visible session, which is marked as running until the outcome. */
  ghost predicate IsCaptured(t: Tables, id: string, run: Run) {
    && id in t.sessions && t.sessions[id].archivedAt.None?
    && run.record.sessionId == id && run.record.archivedAt.None?
    && (run.phase.Written? || t.sessions[id].status.Running?)
  }

  /** What holds whatever the owners are. */
  ghost predicate Captures(s: State) {
    && Registered(s.active, s.runs)
    && (forall id :: id in s.runs ==> IsCaptured(s.tables, id, s.runs[id]))
    && (forall id :: MarkedRunning(s.tables, id) ==> s.tables.sessions[id].archivedAt.None?)
  }

  lemma {:induction false} CapturesWrite(s: State, session: SessionRecord)
    requires Captures(s)
    requires session.archivedAt.Some? ==> session.sessionId !in s.runs && !session.status.Running?
    requires session.status.Running? && session.sessionId in s.tables.sessions ==>
               s.tables.sessions[session.sessionId].archivedAt.None?
    requires session.sessionId in s.runs ==> s.runs[session.sessionId].phase.Written? || session.status.Running?
    ensures Captures(s.(tables := Updated(s.tables, session)))
  {
    var written := s.(tables := Updated(s.tables, session));
    forall id | id in s.runs ensures IsCaptured(written.tables, id, s.runs[id]) {
      assert IsCaptured(s.tables, id, s.runs[id]);
    }
    forall id | MarkedRunning(written.tables, id) ensures written.tables.sessions[id].archivedAt.None? {
      assert id != session.sessionId ==> MarkedRunning(s.tables, id);
    }
  }

  lemma {:induction false} CapturesBegin(s: State, record: SessionRecord)
    requires Captures(s) && record.sessionId !in s.runs && IsCaptured(s.tables, record.sessionId, Run(record, Begun))
    ensures Captures(Begin(s, s.tables, record))
  {
  }

  lemma {:induction false} CapturesPhases(s: State, action: Action)
    requires Captures(s) && (action.MarkActive? || action.LoseFinish? || action.MarkIdle?)
    ensures Captures(Step(s, action))
  {
  }

  lemma {:induction false} CapturesCreate(s: State, action: Action)
    requires Captures(s) && action.Create?
    ensures Captures(Step(s, action))
  {
    var record := NewSession(action.sessionId, action.userId, action.sessionName, action.provider, action.now);
    if action.sessionId !in s.tables.sessions {
      assert action.sessionId in s.runs ==> IsCaptured(s.tables, action.sessionId, s.runs[action.sessionId]);
      assert Created(s.tables, record) == Success(Updated(s.tables, record));
      CapturesWrite(s, record);
      CapturesBegin(s.(tables := Updated(s.tables, record)), record);
    }
  }

  lemma {:induction false} CapturesSubmit(s: State, id: string, now: string)
    requires Captures(s) && id !in s.runs && Lookup(s.tables, id).Some?
    ensures Captures(Step(s, Submit(id, now)))
  {
    var record := Lookup(s.tables, id).value.(status := Running, updatedAt := now);
    CapturesWrite(s, record);
    CapturesBegin(s.(tables := Updated(s.tables, record)), record);
  }

  lemma {:induction false} CapturesFinish(s: State, id: string, outcome: Outcome, now: string)
    requires Captures(s) && InPhase(s, id, Active)
    ensures Captures(Step(s, Finish(id, outcome, now)))
  {
    assert IsCaptured(s.tables, id, s.runs[id]);
    CapturesPhases(s, LoseFinish(id));
    CapturesWrite(InNextPhase(s, id, Written), FinalRecord(s.runs[id].record, outcome, now));
  }

  lemma {:induction false} CapturesVisible(s: State, action: Action)
    requires Captures(s) && (action.Rename? || action.Archive?)
    ensures Captures(Step(s, action))
  {
    var id := action.sessionId;
    var session := Lookup(s.tables, id);
    assert id in s.runs ==> IsCaptured(s.tables, id, s.runs[id]);
    if session.Some? && action.Rename? {
      CapturesWrite(s, session.value.(sessionName := action.sessionName, updatedAt := action.now));
    } else if action.Archive? && ArchiveError(s, id).None? {
      CapturesWrite(s, session.value.(updatedAt := action.now, archivedAt := Some(action.now)));
    }
  }

  lemma {:induction false} CapturesStep(s: State, action: Action)
    requires Captures(s)
    ensures Captures(Step(s, action))
  {
    hide Captures;
    if Enabled(s, action) {
      match action
      case Create(_, _, _, _, _) => CapturesCreate(s, action);
      case Submit(id, now) =>
        if Lookup(s.tables, id).Some? {
          CapturesSubmit(s, id, now);
        }
      case Finish(id, outcome, now) => CapturesFinish(s, id, outcome, now);
      case Rename(_, _, _) => CapturesVisible(s, action);
      case Archive(_, _) => CapturesVisible(s, action);
      case _ => CapturesPhases(s, action);
    }
  }

  lemma {:induction false} CapturesAlways(s: State, actions: seq<Action>)
    requires Captures(s)
    ensures Captures(After(s, actions))
  {
    hide Captures, Step;
    if actions != [] {
      CapturesAlways(s, actions[..|actions| - 1]);
      CapturesStep(After(s, actions[..|actions| - 1]), actions[|actions| - 1]);
    }
  }

  lemma {:induction false} SessionsStay(s: State, action: Action, id: string)
    requires Captures(s) && id in s.tables.sessions
    ensures id in Step(s, action).tables.sessions
    ensures action.sessionId != id ==> Step(s, action).tables.sessions[id] == s.tables.sessions[id]
  {
    assert action.sessionId in s.runs ==> IsCaptured(s.tables, action.sessionId, s.runs[action.sessionId]);
  }

  predicate InFlight(s: State, id: string) {
    InPhase(s, id, Begun) || InPhase(s, id, Active)
  }

  /** A message that is submitted to a visible session without a run. */
  predicate IsAccepted(s: State, action: Action, id: string) {
    action.Submit? && action.sessionId == id && id !in s.runs && Lookup(s.tables, id).Some?
  }

  /** Whether the last run's final write is lost after a step, given whether it was before. */
  predicate LostAfter(lost: bool, s: State, action: Action, id: string) {
    (action == LoseFinish(id) && InPhase(s, id, Active)) || (lost && !IsAccepted(s, action, id))
  }

  /** A run of the session lost its final write, and no message has been accepted since. */
  predicate LastWriteLost(actions: seq<Action>, id: string) {
    actions != [] &&
      var before, last := actions[..|actions| - 1], actions[|actions| - 1];
      LostAfter(LastWriteLost(before, id), After(EMPTY, before), last, id)
  }

  /** A session is marked as running while its run is before its outcome, and while its final write is lost. */
  ghost predicate RunningFits(s: State, id: string, lost: bool) {
    (MarkedRunning(s.tables, id) <==> InFlight(s, id) || lost) && (lost ==> !InFlight(s, id))
  }

  lemma {:induction false} OtherSessionStays(s: State, action: Action, id: string)
    requires Captures(s) && action.sessionId != id
    ensures id in Step(s, action).tables.sessions <==> id in s.tables.sessions
    ensures id in s.tables.sessions ==> Step(s, action).tables.sessions[id] == s.tables.sessions[id]
    ensures id in Step(s, action).runs <==> id in s.runs
    ensures id in s.runs ==> Step(s, action).runs[id] == s.runs[id]
  {
    hide IsCaptured, Merged, NewRow;
    assert action.sessionId in s.runs ==> IsCaptured(s.tables, action.sessionId, s.runs[action.sessionId]);
    assert action.sessionId in s.runs ==> s.runs[action.sessionId].record.sessionId == action.sessionId by {
      CapturedKey(s, action.sessionId);
    }
  }

  lemma {:induction false} CapturedKey(s: State, id: string)
    requires Captures(s)
    ensures id in s.runs ==> s.runs[id].record.sessionId == id
  {
    assert id in s.runs ==> IsCaptured(s.tables, id, s.runs[id]);
  }

  lemma {:induction false} OwnRunningStep(s: State, action: Action, lost: bool)
    requires Captures(s) && RunningFits(s, action.sessionId, lost)
    ensures RunningFits(Step(s, action), action.sessionId, LostAfter(lost, s, action, action.sessionId))
  {
    hide NormalizeUserId, KeyOf, MergedProvider;
    assert action.sessionId in s.runs ==> IsCaptured(s.tables, action.sessionId, s.runs[action.sessionId]);
  }

  lemma {:induction false} RunningRowStep(s: State, action: Action, id: string, lost: bool)
    requires Captures(s) && RunningFits(s, id, lost)
    ensures RunningFits(Step(s, action), id, LostAfter(lost, s, action, id))
  {
    if action.sessionId == id {
      OwnRunningStep(s, action, lost);
    } else {
      OtherSessionStays(s, action, id);
      hide Step, Captures;
      assert LostAfter(lost, s, action, id) == lost;
    }
  }

  /** A session is marked as running exactly while its run is before its outcome or its last final write was lost. */
  lemma {:induction false} RunningRowsHaveRuns(actions: seq<Action>, id: string)
    ensures RunningFits(After(EMPTY, actions), id, LastWriteLost(actions, id))
  {
    if actions != [] {
      var before, last := actions[..|actions| - 1], actions[|actions| - 1];
      RunningRowsHaveRuns(before, id);
      CapturesAlways(EMPTY, before);
      RunningRowStep(After(EMPTY, before), last, id, LastWriteLost(before, id));
    }
  }

  /**
   In every reachable state, whoever owns the sessions: while a session has a run, from its start until it is marked
   idle, the session cannot be archived and is reported as running. A visible session can be archived exactly when it
   has no run and no final write has been lost since the last accepted message; otherwise it is reported as running.
   */
  lemma {:induction false} RunningExactlyDuringRuns(actions: seq<Action>, id: string)
    ensures var s := After(EMPTY, actions);
            && (id in s.runs ==> ArchiveError(s, id) == Some(Conflict) && StatusOf(s, id) == Some(Running))
            && (Lookup(s.tables, id).Some? ==>
                  && (ArchiveError(s, id).None? <==> id !in s.runs && !LastWriteLost(actions, id))
                  && (StatusOf(s, id) == Some(Running) <==> id in s.runs || LastWriteLost(actions, id)))
  {
    var s := After(EMPTY, actions);
    CapturesAlways(EMPTY, actions);
    assert id in s.runs ==> IsCaptured(s.tables, id, s.runs[id]);
    RunningRowsHaveRuns(actions, id);
  }

  lemma {:induction false} LostUntilAccepted(actions: seq<Action>, more: seq<Action>, id: string)
    requires LastWriteLost(actions, id) && forall a :: a in more ==> !(a.Submit? && a.sessionId == id)
    ensures LastWriteLost(actions + more, id)
  {
    if more == [] {
      assert actions + more == actions;
    } else {
      var front := more[..|more| - 1];
      LostUntilAccepted(actions, front, id);
      assert (actions + more)[..|actions + more| - 1] == actions + front;
      assert more[|more| - 1] in more;
    }
  }

  /**
   A session whose final write was lost cannot be archived, whatever calls follow, until a message is submitted to it
   again; the message that then runs to its final write makes it archivable.
   */
  lemma {:induction false} LostFinishBlocksArchive(actions: seq<Action>, more: seq<Action>, id: string)
    requires LastWriteLost(actions, id) && forall a :: a in more ==> !(a.Submit? && a.sessionId == id)
    ensures ArchiveError(After(EMPTY, actions + more), id) == Some(Conflict)
  {
    var s := After(EMPTY, actions + more);
    LostUntilAccepted(actions, more, id);
    RunningRowsHaveRuns(actions + more, id);
    CapturesAlways(EMPTY, actions + more);
    assert MarkedRunning(s.tables, id);
  }

  /** The steps of a message that is submitted and runs to its end. */
  function WholeRun(id: string, now: string, outcome: Outcome): seq<Action> {
    [Submit(id, now), MarkActive(id), Finish(id, outcome, now), MarkIdle(id)]
  }

  lemma {:induction false} WholeRunEnds(s: State, id: string, now: string, outcome: Outcome)
    requires id !in s.runs && Lookup(s.tables, id).Some?
    ensures var started := Step(Step(s, Submit(id, now)), MarkActive(id));
            var end := Step(Step(started, Finish(id, outcome, now)), MarkIdle(id));
            After(s, WholeRun(id, now, outcome)) == end && ArchiveError(end, id).None? && Lookup(end.tables, id).Some?
  {
    var run := WholeRun(id, now, outcome);
    assert run[..3] == [Submit(id, now), MarkActive(id), Finish(id, outcome, now)];
    assert run[..3][..2] == [Submit(id, now), MarkActive(id)];
    AfterTwoSteps(s, Submit(id, now), MarkActive(id));
  }

  /** A later message that runs to its final write makes the session archivable again. */
  lemma {:induction false} NextRunHeals(actions: seq<Action>, id: string, now: string, outcome: Outcome)
    requires LastWriteLost(actions, id) && id !in After(EMPTY, actions).runs
    ensures ArchiveError(After(EMPTY, actions + WholeRun(id, now, outcome)), id).None?
  {
    RunningRowsHaveRuns(actions, id);
    CapturesAlways(EMPTY, actions);
    assert MarkedRunning(After(EMPTY, actions).tables, id);
    WholeRunEnds(After(EMPTY, actions), id, now, outcome);
    AfterTwice(EMPTY, actions, WholeRun(id, now, outcome));
  }

  // ----- which call changes which column -----

  /** A run before its outcome holds what its session holds, and no other transcript file. */
  ghost predicate IsCurrent(t: Tables, id: string, record: SessionRecord) {
    && id in t.sessions && record.sessionId == id
    && t.sessions[id].provider == record.provider && t.sessions[id].createdAt == record.createdAt
    && (record.piSessionFile.Some? ==> t.sessions[id].piSessionFile == record.piSessionFile)
  }

  ghost predicate RunsCurrent(s: State) {
    forall id :: InFlight(s, id) ==> IsCurrent(s.tables, id, s.runs[id].record)
  }

  lemma {:induction false} RunsCurrentStep(s: State, action: Action)
    requires Captures(s) && RunsCurrent(s)
    ensures RunsCurrent(Step(s, action))
  {
    var next := Step(s, action);
    forall id | InFlight(next, id) ensures IsCurrent(next.tables, id, next.runs[id].record) {
      if action.sessionId != id {
        assert InFlight(s, id);
        SessionsStay(s, action, id);
      } else {
        assert InFlight(s, id) || action.Create? || action.Submit?;
      }
    }
  }

  lemma {:induction false} RunsCurrentAlways(actions: seq<Action>)
    ensures RunsCurrent(After(EMPTY, actions))
  {
    if actions != [] {
      var before := actions[..|actions| - 1];
      RunsCurrentAlways(before);
      CapturesAlways(EMPTY, before);
      RunsCurrentStep(After(EMPTY, before), actions[|actions| - 1]);
    }
  }

  predicate EndsRun(s: State, action: Action, id: string) {
    action.Finish? && action.sessionId == id && InPhase(s, id, Active)
  }

  /**
   In every reachable state a call replaces a session's transcript file only when it ends a run that completed with a
   file of its own: a failed, cancelled or interrupted run never loses the history. The status changes only when a
   message is accepted or a run ends, and then says how. Model, thinking level, provider and creation time never change.
   */
  lemma {:induction false} FileAndStatusChanges(actions: seq<Action>, action: Action, id: string)
    requires id in After(EMPTY, actions).tables.sessions
    ensures var s := After(EMPTY, actions);
            var row, next := s.tables.sessions[id], Step(s, action).tables;
            && id in next.sessions
            && next.sessions[id].piSessionFile
               == (if EndsRun(s, action, id) && action.outcome.Completed? && action.outcome.piSessionFile.Some?
                   then action.outcome.piSessionFile else row.piSessionFile)
            && next.sessions[id].status
               == (if EndsRun(s, action, id) then if action.outcome.Failed? then SessionStatus.Error else Idle
                   else if IsAccepted(s, action, id) then Running
                   else row.status)
            && next.sessions[id].provider == row.provider && next.sessions[id].createdAt == row.createdAt
  {
    var s := After(EMPTY, actions);
    CapturesAlways(EMPTY, actions);
    RunsCurrentAlways(actions);
    SessionsStay(s, action, id);
    if EndsRun(s, action, id) {
      assert InFlight(s, id);
    }
  }

  // ----- archiving is final -----

  ghost predicate Gone(s: State, id: string) {
    && id in s.tables.sessions && s.tables.sessions[id].archivedAt.Some?
    && id !in s.runs
    && forall key: RecentKey :: key in s.tables.recent ==> key.sessionId != id
  }

  lemma {:induction false} ArchivedStep(s: State, action: Action, id: string)
    requires Captures(s) && id in s.tables.sessions && s.tables.sessions[id].archivedAt.Some?
    ensures id in Step(s, action).tables.sessions && Step(s, action).tables.sessions[id] == s.tables.sessions[id]
  {
    SessionsStay(s, action, id);
  }

  lemma {:induction false} GoneStep(s: State, action: Action, id: string)
    requires Captures(s) && Gone(s, id)
    ensures Gone(Step(s, action), id) && Step(s, action).tables.sessions[id] == s.tables.sessions[id]
  {
    SessionsStay(s, action, id);
  }

  lemma {:induction false} GoneForGood(s: State, actions: seq<Action>, id: string)
    requires Captures(s) && Gone(s, id)
    ensures Gone(After(s, actions), id)
    ensures After(s, actions).tables.sessions[id] == s.tables.sessions[id]
  {
    if actions != [] {
      var before := actions[..|actions| - 1];
      GoneForGood(s, before, id);
      CapturesAlways(s, before);
      GoneStep(After(s, before), actions[|actions| - 1], id);
    }
  }

  lemma {:induction false} AfterTwice(s: State, actions: seq<Action>, more: seq<Action>)
    ensures After(s, actions + more) == After(After(s, actions), more)
  {
    if more == [] {
      assert actions + more == actions;
    } else {
      var front := more[..|more| - 1];
      assert (actions + more)[..|actions + more| - 1] == actions + front;
      AfterTwice(s, actions, front);
    }
  }

  /** Once archived, a session's row never changes again and no lookup finds it, whoever owns it. */
  lemma {:induction false} ArchivedRowIsFinal(actions: seq<Action>, more: seq<Action>, id: string)
    requires var t := After(EMPTY, actions).tables; id in t.sessions && t.sessions[id].archivedAt.Some?
    ensures var t := After(EMPTY, actions + more).tables;
            && id in t.sessions && t.sessions[id] == After(EMPTY, actions).tables.sessions[id]
            && Lookup(t, id).None?
  {
    hide Step;
    if more == [] {
      assert actions + more == actions;
    } else {
      var front := more[..|more| - 1];
      assert (actions + more)[..|actions + more| - 1] == actions + front;
      ArchivedRowIsFinal(actions, front, id);
      CapturesAlways(EMPTY, actions + front);
      ArchivedStep(After(EMPTY, actions + front), more[|more| - 1], id);
    }
  }

  /** With stable owners no user's recent list ever holds it again either. */
  lemma {:induction false} ArchivedStaysArchived(actions: seq<Action>, more: seq<Action>, id: string)
    requires forall a :: a in actions ==> HasStableOwner(a)
    requires var t := After(EMPTY, actions).tables; id in t.sessions && t.sessions[id].archivedAt.Some?
    ensures var t := After(EMPTY, actions + more).tables;
            && id in t.sessions && t.sessions[id] == After(EMPTY, actions).tables.sessions[id]
            && Lookup(t, id).None?
            && forall key: RecentKey :: key in t.recent ==> key.sessionId != id
  {
    var s := After(EMPTY, actions);
    InvAlways(actions);
    CapturesAlways(EMPTY, actions);
    GoneForGood(s, more, id);
    AfterTwice(EMPTY, actions, more);
  }

  // ----- renaming -----

  lemma {:induction false} CapturedRecordKept(s: State, actions: seq<Action>, id: string)
    requires Captures(s) && id in s.runs
    requires MarkIdle(id) !in actions
    ensures id in After(s, actions).runs && After(s, actions).runs[id].record == s.runs[id].record
  {
    if actions != [] {
      var before, last := actions[..|actions| - 1], actions[|actions| - 1];
      CapturedRecordKept(s, before, id);
      CapturesAlways(s, before);
      assert last in actions;
    }
  }

  /**
   A rename during a run does not survive it: whatever steps are taken in between, the run's final write puts back the
   name the session had when the run began, in both tables.
   */
  lemma {:induction false} RenameDuringRunIsLost(actions: seq<Action>, during: seq<Action>, id: string,
                                                 outcome: Outcome, now: string)
    requires id in After(EMPTY, actions).runs && MarkIdle(id) !in during
    requires InPhase(After(After(EMPTY, actions), during), id, Active)
    ensures var t := After(EMPTY, actions + during + [Finish(id, outcome, now)]).tables;
            var captured := After(EMPTY, actions).runs[id].record;
            && id in t.sessions && t.sessions[id].sessionName == captured.sessionName
            && KeyOf(captured) in t.recent && t.recent[KeyOf(captured)] == RecentRow(captured.sessionName, now)
  {
    CapturesAlways(EMPTY, actions);
    CapturedRecordKept(After(EMPTY, actions), during, id);
    CapturesAlways(After(EMPTY, actions), during);
    AfterTwice(EMPTY, actions, during);
    assert (actions + during + [Finish(id, outcome, now)])[..|actions + during|] == actions + during;
  }

  ghost predicate IsNamed(s: State, id: string, name: string) {
    id in s.tables.sessions && s.tables.sessions[id].sessionName == name
  }

  /** The session has the name, and so does the record that a run in flight will write. */
  ghost predicate Named(s: State, id: string, name: string) {
    IsNamed(s, id, name) && (InFlight(s, id) ==> s.runs[id].record.sessionName == name)
  }

  ghost predicate NoRename(actions: seq<Action>, id: string) {
    forall a :: a in actions ==> !(a.Rename? && a.sessionId == id)
  }

  lemma {:induction false} NameKeptByStep(s: State, action: Action, id: string, name: string)
    requires Captures(s) && Named(s, id, name) && !(action.Rename? && action.sessionId == id)
    ensures Named(Step(s, action), id, name)
  {
    SessionsStay(s, action, id);
    assert id in s.runs ==> IsCaptured(s.tables, id, s.runs[id]);
  }

  lemma {:induction false} NameKept(s: State, actions: seq<Action>, id: string, name: string)
    requires Captures(s) && Named(s, id, name) && NoRename(actions, id)
    ensures Named(After(s, actions), id, name)
  {
    hide Captures, Step, Named;
    if actions != [] {
      var before, last := actions[..|actions| - 1], actions[|actions| - 1];
      NameKept(s, before, id, name);
      CapturesAlways(s, before);
      assert last in actions;
      NameKeptByStep(After(s, before), last, id, name);
    }
  }

  /** The steps by which a run in flight is cancelled and writes its record. */
  function CancelledRun(s: State, id: string): (steps: seq<Action>)
    requires InFlight(s, id)
    ensures NoRename(steps, id)
  {
    var finish := Finish(id, Cancelled, "now");
    if InPhase(s, id, Begun) then [MarkActive(id), finish] else [finish]
  }

  lemma {:induction false} FinalWriteRestoresName(s: State, id: string)
    requires Captures(s) && InFlight(s, id)
    ensures IsNamed(After(s, CancelledRun(s, id)), id, s.runs[id].record.sessionName)
  {
    assert IsCaptured(s.tables, id, s.runs[id]);
    if InPhase(s, id, Begun) {
      AfterTwoSteps(s, MarkActive(id), Finish(id, Cancelled, "now"));
    } else {
      assert [Finish(id, Cancelled, "now")][..0] == [];
    }
  }

  /**
   When a rename holds: in every reachable state a rename of a visible session survives everything that can follow
   until the next rename if and only if no run is between its start and its final write, or that run captured the
   same name.
   */
  lemma {:induction false} RenameHoldsExactly(actions: seq<Action>, id: string, name: string, now: string)
    requires Lookup(After(EMPTY, actions).tables, id).Some?
    ensures var s := After(EMPTY, actions);
            (forall more :: NoRename(more, id) ==> IsNamed(After(Step(s, Rename(id, name, now)), more), id, name))
            <==> (InFlight(s, id) ==> s.runs[id].record.sessionName == name)
  {
    var s := After(EMPTY, actions);
    var renamed := Step(s, Rename(id, name, now));
    CapturesAlways(EMPTY, actions);
    CapturesStep(s, Rename(id, name, now));
    if InFlight(s, id) && s.runs[id].record.sessionName != name {
      FinalWriteRestoresName(renamed, id);
      assert NoRename(CancelledRun(renamed, id), id);
    } else {
      forall more | NoRename(more, id) ensures IsNamed(After(renamed, more), id, name) {
        NameKept(renamed, more, id, name);
      }
    }
  }

  // ----- owners that are not stable -----

  const ANY_PROVIDER := Provider("openai/gpt-5.4", "medium", None, None)

  ghost predicate OwnedBy(actions: seq<Action>, userId: string) {
    forall a :: a in actions ==> a.Create? ==> a.userId == userId
  }

  lemma {:induction false} AfterTwoSteps(s: State, first: Action, second: Action)
    ensures After(s, [first, second]) == Step(Step(s, first), second)
  {
    assert [first, second][..1] == [first] && [first][..0] == [];
    assert After(s, []) == s;
    assert After(s, [first]) == Step(s, first);
  }

  /** Creating and renaming a session under an unstable user id leaves a stale row in the projection. */
  lemma {:induction false} UnstableOwnerLeavesStaleRow(userId: string)
    requires !Stable(userId)
    ensures !Projected(After(EMPTY, [Create("s", userId, "a", ANY_PROVIDER, "0"), Rename("s", "b", "1")]).tables)
  {
    var create, rename := Create("s", userId, "a", ANY_PROVIDER, "0"), Rename("s", "b", "1");
    AfterTwoSteps(EMPTY, create, rename);
    var created := Step(EMPTY, create);
    assert Lookup(created.tables, "s").value.userId == NormalizeUserId(userId);
    var t := Step(created, rename).tables;
    var stale := RecentKey(NormalizeUserId(userId), "s");
    assert t.sessions["s"].userId == NormalizeUserId(NormalizeUserId(userId));
    assert stale in t.recent;
  }

  /** The projection mirrors the sessions in every history of a user's sessions exactly when the user id is stable. */
  lemma {:induction false} ProjectionNeedsStableOwners(userId: string)
    ensures (forall actions :: OwnedBy(actions, userId) ==> Projected(After(EMPTY, actions).tables)) <==> Stable(userId)
  {
    if Stable(userId) {
      forall actions | OwnedBy(actions, userId) ensures Projected(After(EMPTY, actions).tables) {
        InvAlways(actions);
      }
    } else {
      var actions := [Create("s", userId, "a", ANY_PROVIDER, "0"), Rename("s", "b", "1")];
      assert OwnedBy(actions, userId);
      UnstableOwnerLeavesStaleRow(userId);
    }
  }

  /** Such user ids exist: quotes within quotes. */
  lemma {:induction false} NestedQuotesAreUnstable()
    ensures NormalizeUserId("\"\"a\"\"") == "\"a\"" && NormalizeUserId("\"a\"") == "a" && !Stable("\"\"a\"\"")
  {
    TrimTrims("\"\"a\"\"");
    TrimTrims("\"a\"");
    assert Quoted("\"\"a\"\"") && Unquoted("\"\"a\"\"") == "\"a\"";
    assert Quoted("\"a\"") && Unquoted("\"a\"") == "a";
  }

  // ----- owners as the identity service issues them -----

  /** `user_` and a UUID, which holds neither space nor quotes. */
  predicate IsIssuedUserId(userId: string) {
    "user_" <= userId && forall i :: 0 <= i < |userId| ==> !IsSpace(userId[i]) && userId[i] != '"'
  }

  predicate IsUuidCharacter(c: char) {
    '0' <= c <= '9' || 'a' <= c <= 'f' || c == '-'
  }

  /** The identity service puts `user_` before a random UUID. */
  lemma {:induction false} UuidsAreIssued(uuid: string)
    requires forall i :: 0 <= i < |uuid| ==> IsUuidCharacter(uuid[i])
    ensures IsIssuedUserId("user_" + uuid)
  {
    var userId := "user_" + uuid;
    forall i | 0 <= i < |userId| ensures !IsSpace(userId[i]) && userId[i] != '"' {
      assert i >= 5 ==> userId[i] == uuid[i - 5];
    }
  }

  lemma {:induction false} IssuedUserIdsAreNormal(userId: string)
    requires IsIssuedUserId(userId)
    ensures NormalizeUserId(userId) == userId && Stable(userId)
  {
    assert userId[0] != '"';
    NormalizedFixedPoints(userId);
  }

  /** Whatever users of the API do, the projection mirrors the sessions, and each session keeps its owner's own id. */
  lemma {:induction false} ApiHistoriesAreProjected(actions: seq<Action>)
    requires forall a :: a in actions && a.Create? ==> IsIssuedUserId(a.userId)
    ensures Inv(After(EMPTY, actions))
    ensures forall id :: id in After(EMPTY, actions).tables.sessions ==>
              IsIssuedUserId(After(EMPTY, actions).tables.sessions[id].userId)
  {
    forall a | a in actions ensures HasStableOwner(a) {
      if a.Create? {
        IssuedUserIdsAreNormal(a.userId);
      }
    }
    InvAlways(actions);
    OwnersAreIssued(actions);
  }

  lemma {:induction false} OwnersAreIssued(actions: seq<Action>)
    requires forall a :: a in actions && a.Create? ==> IsIssuedUserId(a.userId)
    ensures HasIssuedOwners(After(EMPTY, actions))
  {
    if actions != [] {
      var before, last := actions[..|actions| - 1], actions[|actions| - 1];
      OwnersAreIssued(before);
      CapturesAlways(EMPTY, before);
      assert last in actions;
      OwnersStayIssued(After(EMPTY, before), last);
    }
  }

  ghost predicate HasIssuedOwners(s: State) {
    && (forall id :: id in s.tables.sessions ==> IsIssuedUserId(s.tables.sessions[id].userId))
    && (forall id :: id in s.runs ==> IsIssuedUserId(s.runs[id].record.userId))
  }

  lemma {:induction false} OwnersStayIssued(s: State, action: Action)
    requires Captures(s) && HasIssuedOwners(s) && (action.Create? ==> IsIssuedUserId(action.userId))
    ensures HasIssuedOwners(Step(s, action))
  {
    hide IsIssuedUserId, NormalizeUserId, IsCaptured;
    forall userId | IsIssuedUserId(userId) ensures NormalizeUserId(userId) == userId {
      IssuedUserIdsAreNormal(userId);
    }
  }
}
