/**
 The queue between the stream parser and the generator that yields its events (`execute` in
 `harness-worker-client.ts`). The two run concurrently; every atomic step of either side is one action, and the
 theorems hold for every interleaving.
 */
module WorkerHandOff {
  import opened Contracts
  import opened SseFrames

  const COMPLETED := "run.completed"

  /** Where the generator stands: about to test its loop condition, awaiting `notify`, suspended at a yield, or over. */
  datatype Consumer<+T> =
    | AtHead
    | Blocked
    | AtYield
    | Done(result: Result<T, ()>)

  /** The closure's variables; `produced` and `yielded` record what went in and out. */
  datatype HandOff<+T> = HandOff(
    queued: seq<Event<T>>, completion: T, isFinished: bool, hasThrown: bool, notify: bool, consumer: Consumer<T>,
    produced: seq<Event<T>>, yielded: seq<Event<T>>)

  datatype Action<+T> =
    | Parsed(event: Event<T>)
    | Threw
    | Finished
    | Resume
    | Pull

  function Init<T>(empty: T): HandOff<T> {
    HandOff([], empty, false, false, false, AtHead, [], [])
  }

  /** `notify?.(); notify = null`. */
  function Notified<T>(s: HandOff<T>): HandOff<T> {
    s.(consumer := if s.notify then AtHead else s.consumer, notify := false)
  }

  /** Which steps can happen: the parser stops after throwing, then finishes once; the generator runs when it may. */
  predicate Enabled<T>(s: HandOff<T>, action: Action<T>) {
    match action
    case Parsed(_) => !s.hasThrown && !s.isFinished
    case Threw => !s.hasThrown && !s.isFinished
    case Finished => !s.isFinished
    case Resume => s.consumer.AtHead?
    case Pull => s.consumer.AtYield?
  }

  function Step<T>(s: HandOff<T>, action: Action<T>): HandOff<T> {
    match action
    case Parsed(event) =>
      if event.name == COMPLETED then Notified(s.(completion := event.data))
      else Notified(s.(queued := s.queued + [event], produced := s.produced + [event]))
    case Threw => s.(hasThrown := true)
    case Finished => Notified(s.(isFinished := true))
    case Resume =>
      if s.queued != [] then
        s.(queued := s.queued[1..], yielded := s.yielded + [s.queued[0]], consumer := AtYield)
      else if !s.isFinished then s.(notify := true, consumer := Blocked)
      else s.(consumer := Done(if s.hasThrown then Failure(()) else Success(s.completion)))
    case Pull => s.(consumer := AtHead)
  }

  /** The same steps as the source takes them, on shared variables. */
  class EventHandOff<T> {
    var queued: seq<Event<T>>
    var completion: T
    var isFinished: bool
    var parsingError: bool
    var notify: bool
    var consumer: Consumer<T>
    ghost var produced: seq<Event<T>>
    ghost var yielded: seq<Event<T>>

    ghost function State(): HandOff<T>
      reads this
    {
      HandOff(queued, completion, isFinished, parsingError, notify, consumer, produced, yielded)
    }

    constructor (empty: T)
      ensures State() == Init(empty)
    {
      queued, completion, isFinished, parsingError, notify := [], empty, false, false, false;
      consumer, produced, yielded := AtHead, [], [];
    }

    method Notify()
      modifies this
      ensures State() == Notified(old(State()))
    {
      if notify {
        consumer := AtHead;
      }
      notify := false;
    }

    method OnEvent(event: Event<T>)
      modifies this
      ensures State() == Step(old(State()), Parsed(event))
    {
      if event.name == COMPLETED {
        completion := event.data;
      } else {
        queued := queued + [event];
        produced := produced + [event];
      }
      Notify();
    }

    method OnError()
      modifies this
      ensures State() == Step(old(State()), Threw)
    {
      parsingError := true;
    }

    method OnSettled()
      modifies this
      ensures State() == Step(old(State()), Finished)
    {
      isFinished := true;
      Notify();
    }

    /** The generator from its loop head to its next suspension; it hands out an event when it suspends at a yield. */
    method RunConsumer() returns (event: Option<Event<T>>)
      modifies this
      ensures State() == Step(old(State()), Resume)
      ensures yielded == old(yielded) + if event.Some? then [event.value] else []
    {
      event := None;
      if !isFinished || |queued| > 0 {
        if |queued| == 0 {
          notify := true;
          consumer := Blocked;
          return;
        }
        event := Some(queued[0]);
        queued := queued[1..];
        yielded := yielded + [event.value];
        consumer := AtYield;
        return;
      }
      consumer := Done(if parsingError then Failure(()) else Success(completion));
    }

    method Next()
      modifies this
      ensures State() == Step(old(State()), Pull)
    {
      consumer := AtHead;
    }
  }

  // ----- every interleaving -----

  ghost predicate IsRun<T>(s: HandOff<T>, actions: seq<Action<T>>)
    decreases |actions|
  {
    actions != [] ==>
      var before := actions[..|actions| - 1];
      IsRun(s, before) && Enabled(After(s, before), actions[|actions| - 1])
  }

  function After<T>(s: HandOff<T>, actions: seq<Action<T>>): HandOff<T> {
    if actions == [] then s else Step(After(s, actions[..|actions| - 1]), actions[|actions| - 1])
  }

  /** What holds between any two steps. */
  ghost predicate Inv<T>(s: HandOff<T>) {
    && s.yielded + s.queued == s.produced
    && (s.consumer.Blocked? <==> s.notify)
    && (s.consumer.Blocked? ==> s.queued == [] && !s.isFinished)
    && (s.consumer.Done? ==>
          && s.isFinished && s.queued == []
          && s.consumer.result == if s.hasThrown then Failure(()) else Success(s.completion))
  }

  lemma {:induction false} StepKeepsInv<T>(s: HandOff<T>, action: Action<T>)
    requires Inv(s) && Enabled(s, action)
    ensures Inv(Step(s, action))
  {
    if action.Parsed? {
      assert s.yielded + (s.queued + [action.event]) == s.yielded + s.queued + [action.event];
    } else if action.Resume? && s.queued != [] {
      assert s.yielded + [s.queued[0]] + s.queued[1..] == s.yielded + s.queued;
    }
  }

  lemma {:induction false} InvAlways<T>(empty: T, actions: seq<Action<T>>)
    requires IsRun(Init(empty), actions)
    ensures Inv(After(Init(empty), actions))
  {
    if actions != [] {
      var before := actions[..|actions| - 1];
      InvAlways(empty, before);
      StepKeepsInv(After(Init(empty), before), actions[|actions| - 1]);
    }
  }

  /**
   No lost wakeup: with an event queued or the parser finished, the generator is over or has a step to take by itself
   or when pulled; and as long as it waits, the parser still has a step to take, which wakes it unless it only throws.
   */
  lemma {:induction false} NoLostWakeup<T>(empty: T, actions: seq<Action<T>>)
    requires IsRun(Init(empty), actions)
    ensures var s := After(Init(empty), actions);
            && (s.queued != [] || s.isFinished ==> s.consumer.Done? || Enabled(s, Resume) || Enabled(s, Pull))
            && (s.consumer.Blocked? ==>
                  && Enabled(s, Finished) && Step(s, Finished).consumer.AtHead?
                  && forall event :: Step(s, Parsed(event)).consumer.AtHead?)
  {
    InvAlways(empty, actions);
  }

  /** Steps the generator still has to take once the parser has finished. */
  function Work<T>(s: HandOff<T>): nat {
    if s.consumer.Done? then 0 else 2 * |s.queued| + if s.consumer.AtYield? then 2 else 1
  }

  /** Once the parser has finished, the generator reaches its end by itself, yielding all that is queued. */
  lemma {:induction false} Drains<T>(s: HandOff<T>) returns (rest: seq<Action<T>>)
    requires Inv(s) && s.isFinished
    ensures IsRun(s, rest) && |rest| == Work(s)
    ensures forall i :: 0 <= i < |rest| ==> rest[i].Resume? || rest[i].Pull?
    ensures After(s, rest).consumer.Done? && After(s, rest).yielded == s.produced
    decreases Work(s)
  {
    if s.consumer.Done? {
      rest := [];
    } else {
      var action := if s.consumer.AtYield? then Pull else Resume;
      StepKeepsInv(s, action);
      var later := Drains(Step(s, action));
      RunFrom(s, action, later);
      rest := [action] + later;
    }
  }

  /** A run may be read from its first step. */
  lemma {:induction false} RunFrom<T>(s: HandOff<T>, action: Action<T>, later: seq<Action<T>>)
    requires Enabled(s, action) && IsRun(Step(s, action), later)
    ensures IsRun(s, [action] + later) && After(s, [action] + later) == After(Step(s, action), later)
    decreases |later|
  {
    var actions := [action] + later;
    var before := actions[..|actions| - 1];
    if later == [] {
      assert before == [];
    } else {
      assert before == [action] + later[..|later| - 1];
      RunFrom(s, action, later[..|later| - 1]);
    }
  }

  // ----- what goes in comes out -----

  predicate IsParserAction<T>(action: Action<T>) {
    action.Parsed? || action.Threw? || action.Finished?
  }

  /** The parser's own steps, in order. */
  function ParserPart<T>(actions: seq<Action<T>>): seq<Action<T>> {
    if actions == [] then []
    else ParserPart(actions[..|actions| - 1])
         + if IsParserAction(actions[|actions| - 1]) then [actions[|actions| - 1]] else []
  }

  ghost predicate SameParser<T>(s: HandOff<T>, t: HandOff<T>) {
    && s.produced == t.produced && s.completion == t.completion
    && s.isFinished == t.isFinished && s.hasThrown == t.hasThrown
  }

  lemma {:induction false} StepSameParser<T>(s: HandOff<T>, t: HandOff<T>, action: Action<T>)
    requires SameParser(s, t)
    ensures IsParserAction(action) ==> SameParser(Step(s, action), Step(t, action))
    ensures !IsParserAction(action) ==> SameParser(Step(s, action), t)
  {
  }

  lemma {:induction false} AfterSnoc<T>(s: HandOff<T>, actions: seq<Action<T>>, action: Action<T>)
    ensures After(s, actions + [action]) == Step(After(s, actions), action)
  {
    assert (actions + [action])[..|actions|] == actions;
  }

  /** The parser's variables depend on its own steps only, however the generator's are mixed in. */
  lemma {:induction false} ParserIsIndependent<T>(s: HandOff<T>, actions: seq<Action<T>>)
    ensures SameParser(After(s, actions), After(s, ParserPart(actions)))
  {
    if actions != [] {
      var before, last := actions[..|actions| - 1], actions[|actions| - 1];
      ParserIsIndependent(s, before);
      StepSameParser(After(s, before), After(s, ParserPart(before)), last);
      if IsParserAction(last) {
        AfterSnoc(s, ParserPart(before), last);
      } else {
        assert ParserPart(actions) == ParserPart(before);
      }
    }
  }

  function Deliveries<T>(events: seq<Event<T>>): (actions: seq<Action<T>>)
    ensures |actions| == |events|
    ensures forall i :: 0 <= i < |events| ==> actions[i] == Parsed(events[i])
  {
    if events == [] then [] else Deliveries(events[..|events| - 1]) + [Parsed(events[|events| - 1])]
  }

  /** What the parser does with a stream: deliver its events, throw if a payload is bad, finish. */
  function Script<T>(outcome: Outcome<T>): seq<Action<T>> {
    Deliveries(outcome.events) + (if outcome.threw then [Threw] else []) + [Finished]
  }

  /** The events that are yielded: all but the completion. */
  function Yielded<T>(events: seq<Event<T>>): seq<Event<T>> {
    if events == [] then []
    else Yielded(events[..|events| - 1])
         + if events[|events| - 1].name == COMPLETED then [] else [events[|events| - 1]]
  }

  /** The data of the last completion event, if any. */
  function LastCompletion<T>(events: seq<Event<T>>, empty: T): T {
    if events == [] then empty
    else if events[|events| - 1].name == COMPLETED then events[|events| - 1].data
    else LastCompletion(events[..|events| - 1], empty)
  }

  lemma {:induction false} AfterDeliveries<T>(empty: T, events: seq<Event<T>>)
    ensures var s := After(Init(empty), Deliveries(events));
            && s.produced == Yielded(events) && s.completion == LastCompletion(events, empty)
            && !s.isFinished && !s.hasThrown
  {
    if events != [] {
      var front, actions := events[..|events| - 1], Deliveries(events);
      AfterDeliveries(empty, front);
      assert actions[..|actions| - 1] == Deliveries(front);
    }
  }

  lemma {:induction false} AfterScript<T>(empty: T, outcome: Outcome<T>)
    ensures var s := After(Init(empty), Script(outcome));
            && s.produced == Yielded(outcome.events) && s.completion == LastCompletion(outcome.events, empty)
            && s.isFinished && s.hasThrown == outcome.threw
  {
    var delivered := Deliveries(outcome.events);
    AfterDeliveries(empty, outcome.events);
    if outcome.threw {
      AfterSnoc(Init(empty), delivered, Threw);
      AfterSnoc(Init(empty), delivered + [Threw], Finished);
    } else {
      AfterSnoc(Init(empty), delivered, Finished);
      assert delivered + [] + [Finished] == delivered + [Finished];
    }
  }

  /** Before its last step a script has not finished. */
  lemma {:induction false} UnfinishedBeforeEnd<T>(s: HandOff<T>, actions: seq<Action<T>>)
    requires !s.isFinished && forall i :: 0 <= i < |actions| ==> !actions[i].Finished?
    ensures !After(s, actions).isFinished
  {
    if actions != [] {
      UnfinishedBeforeEnd(s, actions[..|actions| - 1]);
    }
  }

  /**
   Whatever the interleaving, a generator that is over has yielded every event of the stream once and in order, and
   returns the data of the last completion, or throws exactly when the parser threw.
   */
  lemma {:induction false} GeneratorIsFaithful<T>(empty: T, outcome: Outcome<T>, actions: seq<Action<T>>)
    requires IsRun(Init(empty), actions) && ParserPart(actions) <= Script(outcome)
    requires After(Init(empty), actions).consumer.Done?
    ensures var s := After(Init(empty), actions);
            && s.yielded == Yielded(outcome.events)
            && s.consumer.result
               == if outcome.threw then Failure(()) else Success(LastCompletion(outcome.events, empty))
  {
    var part, script := ParserPart(actions), Script(outcome);
    InvAlways(empty, actions);
    ParserIsIndependent(Init(empty), actions);
    if |part| < |script| {
      UnfinishedBeforeEnd(Init(empty), part);
    } else {
      assert part == script;
      AfterScript(empty, outcome);
    }
  }

  /**
   End to end: the worker prints its events and then the completion; the bytes are cut into any chunks; parser and
   generator interleave in any way. When the generator is over it has yielded exactly the printed events and returns
   exactly the printed completion.
   */
  lemma {:induction false} WorkerRunIsDelivered<T(!new)>(codec: Codec<T>, empty: T, events: seq<Event<T>>,
                                                         completion: T, chunks: seq<string>,
                                                         actions: seq<Action<T>>)
    requires IsLawful(codec)
    requires forall i :: 0 <= i < |events| ==> IsField(events[i].name) && events[i].name != COMPLETED
    requires Concat(chunks) == PrintAll(codec, events + [Event(COMPLETED, completion)])
    requires IsRun(Init(empty), actions) && ParserPart(actions) <= Script(ParseText(codec, Concat(chunks)))
    requires After(Init(empty), actions).consumer.Done?
    ensures After(Init(empty), actions).yielded == events
    ensures After(Init(empty), actions).consumer.result == Success(completion)
  {
    var printed := events + [Event(COMPLETED, completion)];
    CompletedIsField();
    SseRoundTrip(codec, printed, chunks);
    GeneratorIsFaithful(empty, Outcome(printed, false), actions);
    assert printed[..|events|] == events;
    YieldedAll(events);
  }

  predicate IsWorkerEvent<T>(event: Event<T>) {
    event.name != "run.completed"
  }

  ghost predicate IsSame<T>(event: Event<T>, yielded: Event<T>) {
    yielded == event
  }

  /** The data of the last `run.completed`, or the empty completion without one. */
  ghost predicate IsCompletion<T>(events: seq<Event<T>>, empty: T, completion: T) {
    if forall i :: 0 <= i < |events| ==> events[i].name != "run.completed" then completion == empty
    else exists i | 0 <= i < |events| ::
           && events[i].name == "run.completed" && completion == events[i].data
           && forall j :: i < j < |events| ==> events[j].name != "run.completed"
  }

  lemma {:induction false} YieldedIs<T>(events: seq<Event<T>>)
    ensures Corresponds(IsWorkerEvent, IsSame, events, Yielded(events))
  {
    if events != [] {
      var front, last := events[..|events| - 1], events[|events| - 1];
      YieldedIs(front);
      CorrespondsSnoc(IsWorkerEvent, IsSame, front, Yielded(front), last,
                      if last.name == "run.completed" then [] else [last]);
      assert front + [last] == events;
    }
  }

  lemma {:induction false} LastCompletionIs<T>(events: seq<Event<T>>, empty: T)
    ensures IsCompletion(events, empty, LastCompletion(events, empty))
  {
    if events != [] {
      var front := events[..|events| - 1];
      LastCompletionIs(front, empty);
      assert forall i :: 0 <= i < |front| ==> front[i] == events[i];
    }
  }

  /** In the stream's own terms: what a generator that is over has handed out, and how it ended. */
  lemma {:induction false} GeneratorSays<T>(empty: T, outcome: Outcome<T>, actions: seq<Action<T>>)
    requires IsRun(Init(empty), actions) && ParserPart(actions) <= Script(outcome)
    requires After(Init(empty), actions).consumer.Done?
    ensures var s := After(Init(empty), actions);
            && Corresponds(IsWorkerEvent, IsSame, outcome.events, s.yielded)
            && (s.consumer.result.Failure? <==> outcome.threw)
            && (!outcome.threw ==> IsCompletion(outcome.events, empty, s.consumer.result.value))
  {
    hide After, IsRun, ParserPart, Script, Yielded, LastCompletion, IsCompletion;
    GeneratorIsFaithful(empty, outcome, actions);
    YieldedIs(outcome.events);
    LastCompletionIs(outcome.events, empty);
  }

  lemma {:induction false} CompletedIsField()
    ensures IsField(COMPLETED)
  {
    assert forall i :: 0 <= i < |COMPLETED| ==> COMPLETED[i] != '\n';
  }

  lemma {:induction false} YieldedAll<T>(events: seq<Event<T>>)
    requires forall i :: 0 <= i < |events| ==> events[i].name != COMPLETED
    ensures Yielded(events) == events
  {
    if events != [] {
      YieldedAll(events[..|events| - 1]);
    }
  }

  // ----- complete runs exist -----

  lemma {:induction false} DeliveriesRun<T>(empty: T, events: seq<Event<T>>)
    ensures IsRun(Init(empty), Deliveries(events)) && ParserPart(Deliveries(events)) == Deliveries(events)
  {
    if events != [] {
      var front, actions := events[..|events| - 1], Deliveries(events);
      DeliveriesRun(empty, front);
      AfterDeliveries(empty, front);
      assert actions[..|actions| - 1] == Deliveries(front);
      assert actions == Deliveries(front) + [actions[|actions| - 1]];
    }
  }

  lemma {:induction false} RunSnoc<T>(s: HandOff<T>, actions: seq<Action<T>>, action: Action<T>)
    requires IsRun(s, actions) && Enabled(After(s, actions), action)
    ensures IsRun(s, actions + [action]) && After(s, actions + [action]) == Step(After(s, actions), action)
    ensures ParserPart(actions + [action]) == ParserPart(actions) + if IsParserAction(action) then [action] else []
  {
    assert (actions + [action])[..|actions|] == actions;
  }

  lemma {:induction false} ScriptRuns<T>(empty: T, outcome: Outcome<T>)
    ensures IsRun(Init(empty), Script(outcome)) && ParserPart(Script(outcome)) == Script(outcome)
  {
    var delivered := Deliveries(outcome.events);
    DeliveriesRun(empty, outcome.events);
    AfterDeliveries(empty, outcome.events);
    if outcome.threw {
      RunSnoc(Init(empty), delivered, Threw);
      RunSnoc(Init(empty), delivered + [Threw], Finished);
    } else {
      RunSnoc(Init(empty), delivered, Finished);
      assert delivered + [] == delivered;
    }
  }

  lemma {:induction false} RunAppend<T>(s: HandOff<T>, actions: seq<Action<T>>, more: seq<Action<T>>)
    requires IsRun(s, actions) && IsRun(After(s, actions), more)
    ensures IsRun(s, actions + more) && After(s, actions + more) == After(After(s, actions), more)
    ensures ParserPart(actions + more) == ParserPart(actions) + ParserPart(more)
  {
    hide Step, Enabled, IsParserAction;
    if more == [] {
      assert actions + more == actions;
    } else {
      var front, last := more[..|more| - 1], more[|more| - 1];
      RunAppend(s, actions, front);
      RunSnoc(s, actions + front, last);
      LastOfAppend(actions, more);
      AppendAssociates(ParserPart(actions), ParserPart(front), if IsParserAction(last) then [last] else []);
    }
  }

  lemma {:induction false} LastOfAppend<T>(a: seq<T>, b: seq<T>)
    requires b != []
    ensures a + b == a + b[..|b| - 1] + [b[|b| - 1]]
  {
  }

  lemma {:induction false} NoParserPart<T>(actions: seq<Action<T>>)
    requires forall i :: 0 <= i < |actions| ==> !IsParserAction(actions[i])
    ensures ParserPart(actions) == []
  {
    if actions != [] {
      NoParserPart(actions[..|actions| - 1]);
    }
  }

  /**
   Any interleaving in which the parser is over can be completed by the generator's own steps, without a further step
   of the parser; and for every stream there is such an interleaving.
   */
  lemma {:induction false} RunCanComplete<T>(empty: T, actions: seq<Action<T>>) returns (rest: seq<Action<T>>)
    requires IsRun(Init(empty), actions) && After(Init(empty), actions).isFinished
    ensures IsRun(Init(empty), actions + rest) && After(Init(empty), actions + rest).consumer.Done?
    ensures ParserPart(actions + rest) == ParserPart(actions)
  {
    InvAlways(empty, actions);
    rest := Drains(After(Init(empty), actions));
    RunAppend(Init(empty), actions, rest);
    NoParserPart(rest);
  }

  lemma {:induction false} CompleteRunExists<T>(empty: T, outcome: Outcome<T>) returns (actions: seq<Action<T>>)
    ensures IsRun(Init(empty), actions) && ParserPart(actions) == Script(outcome)
    ensures After(Init(empty), actions).consumer.Done?
  {
    ScriptRuns(empty, outcome);
    AfterScript(empty, outcome);
    var rest := RunCanComplete(empty, Script(outcome));
    actions := Script(outcome) + rest;
  }
}
