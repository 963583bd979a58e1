/**
 The replay of a sandbox event log (`sandbox-transcript-reader.ts`): a turn automaton that keeps the open turn in
 three variables and flushes it, proved equal to a definition that cuts the log into turns.
 */
module SandboxTranscript {
  import opened Contracts

  /**
   A non-blank line of the log. Optional fields are `None` when absent or not a string. `NotJson` lines are skipped;
   on `NullJson` (the text `null`) reading `event.data` throws.
   */
  datatype Line =
    | NotJson
    | NullJson
    | UserLine(entryId: Option<string>, parentId: Option<string>, createdAt: Option<string>, text: Option<string>)
    | DeltaLine(entryId: Option<string>, parentId: Option<string>, text: Option<string>)
    | ActionLine(status: ToolStatus, entryId: Option<string>, parentId: Option<string>, toolCallId: Option<string>,
                 name: Option<string>, arguments: Option<string>, result: Option<string>, error: Option<string>)
    | OutputLine(entryId: Option<string>, parentId: Option<string>, text: Option<string>)
    | FailedLine(entryId: Option<string>, parentId: Option<string>, message: Option<string>)
    | CompletedLine
    | OtherLine

  function Decimal(n: nat): string {
    var digit := ['0' + (n % 10) as char];
    if n < 10 then digit else Decimal(n / 10) + digit
  }

  /** Lines that need the turn's process entry, and those that need its assistant entry too. */
  predicate IsWork(line: Line) {
    line.DeltaLine? || line.ActionLine? || IsOutput(line)
  }

  predicate IsOutput(line: Line) {
    line.OutputLine? || line.FailedLine?
  }

  /** A line after which the turn is flushed. */
  predicate Closes(line: Line) {
    line.FailedLine? || line.CompletedLine?
  }

  // ----- one turn by definition -----

  function FirstWork(turn: seq<Line>): (line: Option<Line>)
    ensures line.Some? ==> IsWork(line.value)
    ensures line.None? <==> forall i :: 0 <= i < |turn| ==> !IsWork(turn[i])
  {
    if turn == [] then None
    else
      var earlier := FirstWork(turn[..|turn| - 1]);
      if earlier.Some? then earlier
      else if IsWork(turn[|turn| - 1]) then Some(turn[|turn| - 1]) else None
  }

  function FirstOutput(turn: seq<Line>): (line: Option<Line>)
    ensures line.Some? ==> IsOutput(line.value) && FirstWork(turn).Some?
    ensures line.None? <==> forall i :: 0 <= i < |turn| ==> !IsOutput(turn[i])
  {
    if turn == [] then None
    else
      var earlier := FirstOutput(turn[..|turn| - 1]);
      if earlier.Some? then earlier
      else if IsOutput(turn[|turn| - 1]) then Some(turn[|turn| - 1]) else None
  }

  /** The content item of a line, when `count` items precede it in the process entry. */
  function LineItem(line: Line, count: nat): seq<ContentItem> {
    match line
    case DeltaLine(_, _, text) => [Text(GetOr(text, ""))]
    case ActionLine(status, _, _, id, name, arguments, result, error) =>
      [ToolCall(GetOr(id, "tool_" + Decimal(count)), GetOr(name, "unknown_tool"), status, arguments,
                if status.Completed? then result else None, if status.Error? then error else None)]
    case _ => []
  }

  function Items(turn: seq<Line>): seq<ContentItem> {
    if turn == [] then []
    else Items(turn[..|turn| - 1]) + LineItem(turn[|turn| - 1], |Items(turn[..|turn| - 1])|)
  }

  function FailureText(message: Option<string>): string {
    if message.Some? then "执行失败：" + message.value else "执行失败"
  }

  /** The output deltas joined; a failure message only when nothing was output before it. */
  function OutputText(turn: seq<Line>): string {
    if turn == [] then "" else AddOutput(OutputText(turn[..|turn| - 1]), turn[|turn| - 1])
  }

  function AddOutput(earlier: string, line: Line): string {
    match line
    case OutputLine(_, _, text) => earlier + GetOr(text, "")
    case FailedLine(_, _, message) => if earlier == "" then FailureText(message) else earlier
    case _ => earlier
  }

  /** The user entry of a turn, which only its first line can bring. `now` is the fallback timestamp. */
  function UserOf(now: string, before: seq<Entry>, turn: seq<Line>): Option<Entry> {
    if turn == [] || !turn[0].UserLine? then None
    else
      var text := [Text(GetOr(turn[0].text, ""))];
      var last := if before == [] then None else Some(before[|before| - 1].id);
      Some(User(GetOr(turn[0].entryId, "su_" + Decimal(|before|)),
                if turn[0].parentId.Some? then turn[0].parentId else last,
                GetOr(turn[0].createdAt, now), text, text))
  }

  function ProcessOf(now: string, before: seq<Entry>, turn: seq<Line>): Option<Entry> {
    match FirstWork(turn)
    case None => None
    case Some(line) =>
      var user := UserOf(now, before, turn);
      Some(Process(GetOr(line.entryId, "sp_" + Decimal(|before|)),
                   GetOr(line.parentId, if user.Some? then user.value.id else "orphan"), now, Items(turn)))
  }

  function AssistantOf(now: string, before: seq<Entry>, turn: seq<Line>): Option<Entry> {
    match FirstOutput(turn)
    case None => None
    case Some(line) =>
      Some(Assistant(GetOr(line.entryId, "sa_" + Decimal(|before|)),
                     GetOr(line.parentId, ProcessOf(now, before, turn).value.id), now, [Text(OutputText(turn))]))
  }

  function Flush(user: Option<Entry>, process: Option<Entry>, assistant: Option<Entry>): seq<Entry> {
    (if user.Some? then [user.value] else [])
    + (if process.Some? then [process.value] else [])
    + (if assistant.Some? && AssistantText(assistant.value) != "" then [assistant.value] else [])
  }

  function TextOf(item: ContentItem): string {
    if item.Text? then item.text else ""
  }

  function AssistantText(entry: Entry): string {
    FlatMap(TextOf, entry.content)
  }

  function TurnEntries(now: string, before: seq<Entry>, turn: seq<Line>): seq<Entry> {
    Flush(UserOf(now, before, turn), ProcessOf(now, before, turn), AssistantOf(now, before, turn))
  }

  // ----- the log by definition -----

  /** Where the turn of line `n - 1` starts: at a user line, or after a line that closes the turn before it. */
  function TurnStart(lines: seq<Line>, n: nat): (b: nat)
    requires 0 < n <= |lines|
    ensures b < n
    ensures forall k :: b < k < n ==> !lines[k].UserLine?
    ensures forall k :: b <= k < n - 1 ==> !Closes(lines[k])
    ensures b > 0 ==> lines[b].UserLine? || Closes(lines[b - 1])
  {
    if lines[n - 1].UserLine? || n == 1 || Closes(lines[n - 2]) then n - 1 else TurnStart(lines, n - 1)
  }

  /** The entries of the first `n` lines, turn by turn. */
  function Turns(now: string, lines: seq<Line>, n: nat): seq<Entry>
    requires n <= |lines|
  {
    if n == 0 then []
    else
      var b := TurnStart(lines, n);
      Turns(now, lines, b) + TurnEntries(now, Turns(now, lines, b), lines[b..n])
  }

  function Replay(now: string, lines: seq<Line>): seq<Entry> {
    Turns(now, lines, |lines|)
  }

  // ----- the automaton -----

  /** The entries flushed so far and the open turn. */
  datatype Reader = Reader(entries: seq<Entry>, user: Option<Entry>, process: Option<Entry>, assistant: Option<Entry>)

  predicate IsTyped(r: Reader) {
    && (r.process.Some? ==> r.process.value.Process?)
    && (r.assistant.Some? ==>
          r.process.Some? && r.assistant.value.Assistant?
          && |r.assistant.value.content| == 1 && r.assistant.value.content[0].Text?)
  }

  /** The current process entry, or the one a line's data brings into being. */
  function ProcessFor(now: string, r: Reader, entryId: Option<string>, parentId: Option<string>): Entry {
    if r.process.Some? then r.process.value
    else Process(GetOr(entryId, "sp_" + Decimal(|r.entries|)),
                 GetOr(parentId, if r.user.Some? then r.user.value.id else "orphan"), now, [])
  }

  function AssistantFor(now: string, r: Reader, entryId: Option<string>, parentId: Option<string>): Entry {
    if r.assistant.Some? then r.assistant.value
    else Assistant(GetOr(entryId, "sa_" + Decimal(|r.entries|)),
                   GetOr(parentId, ProcessFor(now, r, entryId, parentId).id), now, [Text("")])
  }

  function WithItem(entry: Entry, item: ContentItem): Entry
    requires entry.Process?
  {
    Process(entry.id, entry.parentId, entry.createdAt, entry.content + [item])
  }

  function WithText(entry: Entry, text: string): Entry
    requires entry.Assistant?
  {
    Assistant(entry.id, entry.parentId, entry.createdAt, [Text(text)])
  }

  function Flushed(r: Reader): Reader {
    Reader(r.entries + Flush(r.user, r.process, r.assistant), None, None, None)
  }

  function Step(now: string, r: Reader, line: Line): (r': Reader)
    requires IsTyped(r)
    ensures IsTyped(r')
  {
    match line
    case UserLine(_, _, _, _) => Flushed(r).(user := UserOf(now, Flushed(r).entries, [line]))
    case DeltaLine(entryId, parentId, text) =>
      r.(process := Some(WithItem(ProcessFor(now, r, entryId, parentId), Text(GetOr(text, "")))))
    case ActionLine(_, entryId, parentId, _, _, _, _, _) =>
      var process := ProcessFor(now, r, entryId, parentId);
      r.(process := Some(WithItem(process, LineItem(line, |process.content|)[0])))
    case OutputLine(entryId, parentId, text) =>
      var assistant := AssistantFor(now, r, entryId, parentId);
      r.(process := Some(ProcessFor(now, r, entryId, parentId)),
         assistant := Some(WithText(assistant, assistant.content[0].text + GetOr(text, ""))))
    case FailedLine(entryId, parentId, message) =>
      var assistant := AssistantFor(now, r, entryId, parentId);
      var text := assistant.content[0].text;
      Flushed(r.(process := Some(ProcessFor(now, r, entryId, parentId)),
                 assistant := Some(WithText(assistant, if text == "" then FailureText(message) else text))))
    case CompletedLine => Flushed(r)
    case _ => r
  }

  function Automaton(now: string, lines: seq<Line>, n: nat): (r: Reader)
    requires n <= |lines|
    ensures IsTyped(r)
  {
    if n == 0 then Reader([], None, None, None) else Step(now, Automaton(now, lines, n - 1), lines[n - 1])
  }

  method EnsureProcessEntry(now: string, r: Reader, entryId: Option<string>, parentId: Option<string>)
    returns (r': Reader)
    ensures r' == r.(process := Some(ProcessFor(now, r, entryId, parentId)))
  {
    if r.process.Some? {
      return r;
    }
    var userId := if r.user.Some? then r.user.value.id else "orphan";
    r' := r.(process := Some(Process(GetOr(entryId, "sp_" + Decimal(|r.entries|)), GetOr(parentId, userId), now, [])));
  }

  method EnsureAssistantEntry(now: string, r: Reader, entryId: Option<string>, parentId: Option<string>)
    returns (r': Reader)
    requires IsTyped(r)
    ensures r' == r.(process := Some(ProcessFor(now, r, entryId, parentId)),
                     assistant := Some(AssistantFor(now, r, entryId, parentId)))
  {
    if r.assistant.Some? {
      return r;
    }
    r' := EnsureProcessEntry(now, r, entryId, parentId);
    r' := r'.(assistant := Some(Assistant(GetOr(entryId, "sa_" + Decimal(|r.entries|)),
                                          GetOr(parentId, r'.process.value.id), now, [Text("")])));
  }

  /** The reader's loop. It throws on the first `null` line. */
  method ReadSandboxTranscript(now: string, lines: seq<Line>) returns (result: Result<seq<Entry>, nat>)
    ensures result.Failure? ==> result.error < |lines| && lines[result.error].NullJson?
                                && forall k :: 0 <= k < result.error ==> !lines[k].NullJson?
    ensures result.Success? ==> result.value == Replay(now, lines)
                                && forall k :: 0 <= k < |lines| ==> !lines[k].NullJson?
  {
    hide Decimal, FailureText, Turns, InStep, Flush, WithItem, WithText;
    var r := Reader([], None, None, None);
    for i := 0 to |lines|
      invariant forall k :: 0 <= k < i ==> !lines[k].NullJson?
      invariant r == Automaton(now, lines, i)
    {
      match lines[i] {
        case NotJson =>
        case NullJson =>
          return Failure(i);
        case UserLine(entryId, parentId, createdAt, text) =>
          r := Flushed(r);
          var content := [Text(GetOr(text, ""))];
          var last := if |r.entries| == 0 then None else Some(r.entries[|r.entries| - 1].id);
          var user := User(GetOr(entryId, "su_" + Decimal(|r.entries|)), if parentId.Some? then parentId else last,
                           GetOr(createdAt, now), content, content);
          r := r.(user := Some(user));
        case DeltaLine(entryId, parentId, text) =>
          r := EnsureProcessEntry(now, r, entryId, parentId);
          r := r.(process := Some(WithItem(r.process.value, Text(GetOr(text, "")))));
        case ActionLine(status, entryId, parentId, toolCallId, name, arguments, result, error) =>
          r := EnsureProcessEntry(now, r, entryId, parentId);
          var item := ToolCall(GetOr(toolCallId, "tool_" + Decimal(|r.process.value.content|)),
                               GetOr(name, "unknown_tool"), status, arguments,
                               if status.Completed? then result else None, if status.Error? then error else None);
          r := r.(process := Some(WithItem(r.process.value, item)));
        case OutputLine(entryId, parentId, text) =>
          r := EnsureAssistantEntry(now, r, entryId, parentId);
          var soFar := r.assistant.value.content[0].text;
          r := r.(assistant := Some(WithText(r.assistant.value, soFar + GetOr(text, ""))));
        case FailedLine(entryId, parentId, message) =>
          r := EnsureAssistantEntry(now, r, entryId, parentId);
          var soFar := r.assistant.value.content[0].text;
          r := r.(assistant := Some(WithText(r.assistant.value, if soFar == "" then FailureText(message) else soFar)));
          r := Flushed(r);
        case CompletedLine =>
          r := Flushed(r);
        case OtherLine =>
      }
    }
    AutomatonInStep(now, lines, |lines|);
    FlushedIsTurns(now, lines, |lines|, r);
    result := Success(Flushed(r).entries);
  }

  // ----- the automaton computes the turns -----

  /** What the reader holds after `n` lines: nothing at a boundary, else the open turn. */
  ghost predicate InStep(now: string, lines: seq<Line>, n: nat, r: Reader)
    requires n <= |lines|
  {
    if n == 0 || Closes(lines[n - 1]) then r == Reader(Turns(now, lines, n), None, None, None)
    else
      var b := TurnStart(lines, n);
      r == OpenTurn(now, Turns(now, lines, b), lines[b..n])
  }

  function OpenTurn(now: string, before: seq<Entry>, turn: seq<Line>): Reader {
    Reader(before, UserOf(now, before, turn), ProcessOf(now, before, turn), AssistantOf(now, before, turn))
  }

  lemma {:induction false} FlushedIsTurns(now: string, lines: seq<Line>, n: nat, r: Reader)
    requires n <= |lines| && InStep(now, lines, n, r)
    ensures Flushed(r).entries == Turns(now, lines, n)
  {
    assert Turns(now, lines, n) + [] == Turns(now, lines, n);
  }

  /** A line that does not open a turn extends the open turn, or starts one with nothing in it. */
  lemma {:induction false} ExtendTurn(now: string, before: seq<Entry>, turn: seq<Line>, line: Line)
    requires !line.UserLine? && !Closes(line)
    ensures IsTyped(OpenTurn(now, before, turn))
    ensures Step(now, OpenTurn(now, before, turn), line) == OpenTurn(now, before, turn + [line])
  {
    TurnSnoc(now, before, turn, line);
  }

  lemma {:induction false} TurnSnoc(now: string, before: seq<Entry>, turn: seq<Line>, line: Line)
    ensures Items(turn + [line]) == Items(turn) + LineItem(line, |Items(turn)|)
    ensures FirstWork(turn + [line]) == if FirstWork(turn).Some? then FirstWork(turn)
                                        else if IsWork(line) then Some(line) else None
    ensures FirstOutput(turn + [line]) == if FirstOutput(turn).Some? then FirstOutput(turn)
                                          else if IsOutput(line) then Some(line) else None
    ensures OutputText(turn + [line]) == AddOutput(OutputText(turn), line)
    ensures LineItem(line, |Items(turn)|) == [] ==> Items(turn + [line]) == Items(turn)
    ensures !line.UserLine? ==> UserOf(now, before, turn + [line]) == UserOf(now, before, turn)
    ensures FirstWork(turn).None? ==> Items(turn) == []
    ensures FirstOutput(turn).None? ==> OutputText(turn) == ""
  {
    hide LineItem, AddOutput, IsWork, IsOutput, Decimal;
    assert (turn + [line])[..|turn|] == turn;
    NoWorkNoItems(turn);
    assert Items(turn) + [] == Items(turn);
    if !line.UserLine? {
      UserOfSnoc(now, before, turn, line);
    }
  }

  lemma {:induction false} UserOfSnoc(now: string, before: seq<Entry>, turn: seq<Line>, line: Line)
    requires !line.UserLine? || turn != []
    ensures UserOf(now, before, turn + [line]) == UserOf(now, before, turn)
  {
    assert turn != [] ==> (turn + [line])[0] == turn[0];
  }

  lemma {:induction false} NoWorkNoItems(turn: seq<Line>)
    ensures FirstWork(turn).None? ==> Items(turn) == []
    ensures FirstOutput(turn).None? ==> OutputText(turn) == ""
  {
    if turn != [] {
      NoWorkNoItems(turn[..|turn| - 1]);
    }
  }

  /** The turn line `n` joins: the open one, or a new one before which everything has been flushed. */
  lemma {:induction false} JoinsTurn(now: string, lines: seq<Line>, n: nat, r: Reader)
    requires n < |lines| && InStep(now, lines, n, r) && !lines[n].UserLine?
    ensures var b := TurnStart(lines, n + 1);
            && r == OpenTurn(now, Turns(now, lines, b), lines[b..n])
            && lines[b..n + 1] == lines[b..n] + [lines[n]]
  {
    var b := TurnStart(lines, n + 1);
    SliceSnoc(lines, b, n);
    if n == 0 || Closes(lines[n - 1]) {
      assert b == n && lines[b..n] == [];
      EmptyTurn(now, Turns(now, lines, n));
    } else {
      assert b == TurnStart(lines, n);
    }
  }

  lemma {:induction false} EmptyTurn(now: string, before: seq<Entry>)
    ensures OpenTurn(now, before, []) == Reader(before, None, None, None)
  {
  }

  lemma {:induction false} SliceSnoc<T>(s: seq<T>, b: nat, n: nat)
    requires b <= n < |s|
    ensures s[b..n + 1] == s[b..n] + [s[n]]
  {
  }

  lemma {:induction false} StartInStep(now: string, lines: seq<Line>)
    ensures InStep(now, lines, 0, Automaton(now, lines, 0))
  {
  }

  lemma {:induction false} LineInStep(now: string, lines: seq<Line>, n: nat, r: Reader)
    requires n < |lines| && IsTyped(r) && InStep(now, lines, n, r)
    ensures InStep(now, lines, n + 1, Step(now, r, lines[n]))
  {
    hide *;
    if lines[n].UserLine? {
      OpenLine(now, lines, n, r);
    } else {
      JoinLine(now, lines, n, r);
    }
  }

  lemma {:induction false} AutomatonInStep(now: string, lines: seq<Line>, n: nat)
    requires n <= |lines|
    ensures InStep(now, lines, n, Automaton(now, lines, n))
  {
    hide InStep, Step, IsTyped;
    if n == 0 {
      StartInStep(now, lines);
    } else {
      AutomatonInStep(now, lines, n - 1);
      LineInStep(now, lines, n - 1, Automaton(now, lines, n - 1));
    }
  }

  lemma {:induction false} JoinLine(now: string, lines: seq<Line>, n: nat, r: Reader)
    requires n < |lines| && IsTyped(r) && InStep(now, lines, n, r) && !lines[n].UserLine?
    ensures InStep(now, lines, n + 1, Step(now, r, lines[n]))
  {
    hide Step, OpenTurn, TurnEntries;
    JoinsTurn(now, lines, n, r);
    var b := TurnStart(lines, n + 1);
    if Closes(lines[n]) {
      CloseTurn(now, Turns(now, lines, b), lines[b..n], lines[n]);
    } else {
      ExtendTurn(now, Turns(now, lines, b), lines[b..n], lines[n]);
    }
  }

  lemma {:induction false} NewTurn(now: string, before: seq<Entry>, line: Line)
    requires line.UserLine?
    ensures OpenTurn(now, before, [line]) == Reader(before, UserOf(now, before, [line]), None, None)
  {
    TurnSnoc(now, before, [], line);
    assert [] + [line] == [line];
  }

  lemma {:induction false} OpenLine(now: string, lines: seq<Line>, n: nat, r: Reader)
    requires n < |lines| && IsTyped(r) && InStep(now, lines, n, r) && lines[n].UserLine?
    ensures InStep(now, lines, n + 1, Step(now, r, lines[n]))
  {
    hide OpenTurn, UserOf, Turns, TurnStart;
    FlushedIsTurns(now, lines, n, r);
    assert lines[n..n + 1] == [lines[n]];
    StartsAtUser(lines, n);
    NewTurn(now, Turns(now, lines, n), lines[n]);
  }

  lemma {:induction false} StartsAtUser(lines: seq<Line>, n: nat)
    requires n < |lines| && lines[n].UserLine?
    ensures TurnStart(lines, n + 1) == n
  {
  }

  lemma {:induction false} CloseTurn(now: string, before: seq<Entry>, turn: seq<Line>, line: Line)
    requires Closes(line)
    ensures IsTyped(OpenTurn(now, before, turn))
    ensures Step(now, OpenTurn(now, before, turn), line)
         == Reader(before + TurnEntries(now, before, turn + [line]), None, None, None)
  {
    hide Items, FirstWork, FirstOutput, OutputText, Decimal, FailureText, Flush;
    TurnSnoc(now, before, turn, line);
  }
}
