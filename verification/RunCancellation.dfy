/**
 Cancelling a run: `createRunCancellationState` and the race in `consumeRun` (`managed-session-service.ts`), reached
 through the registry of active sessions (`active-session-registry.ts`). The theorems hold for every interleaving of
 the worker, the consumer's loop and the cancel request.
 */
module RunCancellation {

  /** A worker result either lets the loop go on or ends it: the stream is over, failed, or carried `run.failed`. */
  datatype WorkerResult = GoesOn | EndsRun

  datatype Winner = ByWorker(result: WorkerResult) | ByCancel

  /** The consumer's loop: about to start a round, racing, with a settled race, or returned. */
  datatype Loop =
    | AtHead
    | Racing
    | Settled(winner: Winner)
    | Returned(cancelled: bool)

  /** `resolver` is live or null; `lateResults` counts worker results handled after the cancel request. */
  datatype Run = Run(cancelled: bool, resolver: bool, loop: Loop, lateResults: nat)

  datatype Action =
    | Enter
    | Produce(result: WorkerResult)
    | RequestCancel
    | Handle

  const START := Run(false, false, AtHead, 0)

  predicate Enabled(s: Run, action: Action) {
    match action
    case Enter => s.loop.AtHead?
    case Produce(_) => s.loop.Racing?
    case RequestCancel => true
    case Handle => s.loop.Settled?
  }

  /**
   A round that starts after the request sees a resolved promise, which beats a generator that needs another tick.
   A request during the race settles it; a request after the race has settled leaves the winner as it is.
   */
  function Step(s: Run, action: Action): Run {
    match action
    case Enter => if s.cancelled then s.(loop := Settled(ByCancel)) else s.(resolver := true, loop := Racing)
    case Produce(result) => s.(loop := Settled(ByWorker(result)))
    case RequestCancel =>
      s.(cancelled := true, resolver := false,
         loop := if s.resolver && s.loop.Racing? then Settled(ByCancel) else s.loop)
    case Handle =>
      if s.loop.Settled? then
        match s.loop.winner
        case ByCancel => s.(loop := Returned(true))
        case ByWorker(result) =>
          s.(loop := if result.GoesOn? then AtHead else Returned(false),
             lateResults := s.lateResults + if s.cancelled then 1 else 0)
      else s
  }

  /** The closure's variables and the loop that races them. */
  class CancellableRun {
    var cancelled: bool
    var resolver: bool
    var loop: Loop
    ghost var lateResults: nat

    ghost function State(): Run
      reads this
    {
      Run(cancelled, resolver, loop, lateResults)
    }

    constructor ()
      ensures State() == START && !cancelled && !resolver && loop == AtHead && lateResults == 0
    {
      cancelled, resolver, loop, lateResults := false, false, AtHead, 0;
    }

    /** `waitForCancellation` as the race calls it at the start of a round. */
    method WaitForCancellation()
      requires loop.AtHead?
      modifies this
      ensures State() == Step(old(State()), Enter)
      ensures if cancelled then loop == Settled(ByCancel) && resolver == old(resolver) else loop == Racing && resolver
      ensures cancelled == old(cancelled) && lateResults == old(lateResults)
    {
      if cancelled {
        loop := Settled(ByCancel);
        return;
      }
      resolver := true;
      loop := Racing;
    }

    method RequestCancel()
      modifies this
      ensures State() == Step(old(State()), Action.RequestCancel)
      ensures cancelled && !resolver && lateResults == old(lateResults)
      ensures loop == if old(resolver) && old(loop).Racing? then Settled(ByCancel) else old(loop)
    {
      cancelled := true;
      if resolver {
        if loop.Racing? {
          loop := Settled(ByCancel);
        }
      }
      resolver := false;
    }

    method WorkerResolves(result: WorkerResult)
      requires loop.Racing?
      modifies this
      ensures State() == Step(old(State()), Produce(result))
      ensures loop == Settled(ByWorker(result)) && cancelled == old(cancelled) && resolver == old(resolver)
    {
      loop := Settled(ByWorker(result));
    }

    method HandleWinner()
      requires loop.Settled?
      modifies this
      ensures State() == Step(old(State()), Handle)
      ensures loop == match old(loop).winner
                      case ByCancel => Returned(true)
                      case ByWorker(GoesOn) => AtHead
                      case ByWorker(EndsRun) => Returned(false)
      ensures cancelled == old(cancelled) && resolver == old(resolver)
      ensures lateResults == old(lateResults) + if cancelled && old(loop).winner.ByWorker? then 1 else 0
    {
      if loop.winner.ByCancel? {
        loop := Returned(true);
        return;
      }
      lateResults := lateResults + if cancelled then 1 else 0;
      loop := if loop.winner.result.GoesOn? then AtHead else Returned(false);
    }
  }

  class ActiveSessionRegistry {
    var activeSessions: map<string, CancellableRun>

    constructor ()
      ensures activeSessions == map[]
    {
      activeSessions := map[];
    }

    method MarkActive(sessionId: string, run: CancellableRun)
      modifies this
      ensures activeSessions == old(activeSessions)[sessionId := run]
    {
      activeSessions := activeSessions[sessionId := run];
    }

    method MarkIdle(sessionId: string)
      modifies this
      ensures activeSessions == old(activeSessions) - {sessionId}
    {
      activeSessions := activeSessions - {sessionId};
    }

    method IsActive(sessionId: string) returns (active: bool)
      ensures active == (sessionId in activeSessions)
    {
      active := sessionId in activeSessions;
    }

    /** Reports whether a session is active, and cancels its run and no other if it is. */
    method Cancel(sessionId: string) returns (found: bool)
      modifies if sessionId in activeSessions then {activeSessions[sessionId]} else {}
      ensures found == (sessionId in activeSessions)
      ensures found ==> activeSessions[sessionId].State() == Step(old(activeSessions[sessionId].State()), RequestCancel)
    {
      if sessionId !in activeSessions {
        return false;
      }
      activeSessions[sessionId].RequestCancel();
      return true;
    }
  }

  // ----- every interleaving -----

  function After(s: Run, actions: seq<Action>): Run {
    if actions == [] then s else Step(After(s, actions[..|actions| - 1]), actions[|actions| - 1])
  }

  ghost predicate IsRun(s: Run, actions: seq<Action>)
    decreases |actions|
  {
    actions != [] ==>
      var before := actions[..|actions| - 1];
      IsRun(s, before) && Enabled(After(s, before), actions[|actions| - 1])
  }

  /** A race that is on can still be cancelled; after a request at most one worker result is pending or handled. */
  ghost predicate Inv(s: Run) {
    && (s.loop.Racing? ==> s.resolver && !s.cancelled)
    && s.lateResults + (if s.cancelled && s.loop.Settled? && s.loop.winner.ByWorker? then 1 else 0) <= 1
    && (!s.cancelled ==> s.lateResults == 0 && s.loop != Settled(ByCancel) && s.loop != Returned(true))
  }

  /** A run starts without a request, at the head of its loop; a request is possible whenever it comes. */
  lemma {:induction false} StepsOfRun(actions: seq<Action>)
    requires IsRun(START, actions)
    ensures actions == [] ==> !After(START, actions).cancelled && After(START, actions).loop == AtHead
    ensures forall action ::
              IsRun(START, actions + [action])
              <==> match action
                   case Enter => After(START, actions).loop.AtHead?
                   case Produce(_) => After(START, actions).loop.Racing?
                   case RequestCancel => true
                   case Handle => After(START, actions).loop.Settled?
  {
    forall action ensures (actions + [action])[..|actions|] == actions {
    }
  }

  lemma {:induction false} InvAlways(actions: seq<Action>)
    requires IsRun(START, actions)
    ensures Inv(After(START, actions))
  {
    if actions != [] {
      InvAlways(actions[..|actions| - 1]);
    }
  }

  /**
   No lost cancellation: once a cancel has been requested the loop is never left waiting for the worker, and it
   handles at most one more worker result.
   */
  lemma {:induction false} NoLostCancellation(actions: seq<Action>)
    requires IsRun(START, actions) && After(START, actions).cancelled
    ensures !After(START, actions).loop.Racing? && After(START, actions).lateResults <= 1
  {
    InvAlways(actions);
  }

  /** The loop's own next step. */
  function OwnStep(s: Run): Action {
    if s.loop.AtHead? then Enter else Handle
  }

  /** Where a cancelled loop ends when left to itself, whatever the worker does. */
  function OwnEnd(s: Run): (end: Run)
    requires s.cancelled && !s.loop.Racing?
    ensures end.loop.Returned?
    decreases match s.loop
              case Returned(_) => 0
              case Settled(ByCancel) => 1
              case AtHead => 2
              case _ => 3
  {
    if s.loop.Returned? then s else OwnEnd(Step(s, OwnStep(s)))
  }

  /**
   A cancel request makes the run end as cancelled exactly when the loop has not returned and no ending result has
   already won the race. The registry accepts requests a little longer than that.
   */
  lemma {:induction false} CancelHonoured(actions: seq<Action>)
    requires IsRun(START, actions) && !After(START, actions).cancelled
    ensures var s := After(START, actions);
            var requested := Step(s, RequestCancel);
            && !requested.loop.Racing?
            && (OwnEnd(requested).loop == Returned(true)
                <==> !s.loop.Returned? && s.loop != Settled(ByWorker(EndsRun)))
  {
    InvAlways(actions);
    var s := After(START, actions);
    var requested := Step(s, RequestCancel);
    if requested.loop.Settled? {
      var handled := Step(requested, Handle);
      assert OwnEnd(requested) == OwnEnd(handled);
      if handled.loop.AtHead? {
        assert OwnEnd(handled) == OwnEnd(Step(handled, Enter));
        assert OwnEnd(Step(handled, Enter)) == OwnEnd(Step(Step(handled, Enter), Handle));
      }
    } else if requested.loop.AtHead? {
      assert OwnEnd(requested) == OwnEnd(Step(requested, Enter));
      assert OwnEnd(Step(requested, Enter)) == OwnEnd(Step(Step(requested, Enter), Handle));
    }
  }
}
