/**
 What `readSandboxTranscript` returns, told from the lines of the log alone: where the log is cut into turns, and for
 every turn its entries, their ids, links, times, items and text.
 */
module SandboxReading {
  import opened Contracts
  import opened SandboxTranscript

  // ----- numbers in ids -----

  /** The number that decimal digits stand for. */
  function Value(digits: string): int {
    if digits == "" then 0 else 10 * Value(digits[..|digits| - 1]) + (digits[|digits| - 1] as int - '0' as int)
  }

  /** Ids that are made up count in decimal digits, without leading zeros. */
  lemma {:induction false} DecimalCounts(n: nat)
    ensures Value(Decimal(n)) == n && Decimal(n) != "" && (Decimal(n)[0] == '0' ==> n == 0)
    ensures forall i :: 0 <= i < |Decimal(n)| ==> '0' <= Decimal(n)[i] <= '9'
  {
    var digits := Decimal(n);
    if n < 10 {
      assert digits[..0] == "";
    } else {
      DecimalCounts(n / 10);
      assert digits[..|digits| - 1] == Decimal(n / 10);
    }
  }

  // ----- what the lines of a turn say -----

  predicate NeedsProcess(line: Line) {
    line.DeltaLine? || line.ActionLine? || line.OutputLine? || line.FailedLine?
  }

  predicate NeedsAssistant(line: Line) {
    line.OutputLine? || line.FailedLine?
  }

  predicate BringsItem(line: Line) {
    line.DeltaLine? || line.ActionLine?
  }

  /** Line `f` is the first of its kind. */
  ghost predicate IsFirst(kind: Line -> bool, turn: seq<Line>, f: nat) {
    f < |turn| && kind(turn[f]) && forall i :: 0 <= i < f ==> !kind(turn[i])
  }

  ghost predicate HasNone(kind: Line -> bool, turn: seq<Line>) {
    forall i :: 0 <= i < |turn| ==> !kind(turn[i])
  }

  /** A missing tool id is made up from the number of items before; results and errors are shown by status. */
  predicate ShowsItemLine(line: Line, rank: nat, item: ContentItem) {
    match line
    case DeltaLine(_, _, text) => item == Text(if text.Some? then text.value else "")
    case ActionLine(status, _, _, id, name, arguments, result, error) =>
      && item.ToolCall? && item.status == status && item.arguments == arguments
      && item.toolCallId == (if id.Some? then id.value else "tool_" + Decimal(rank))
      && item.toolName == (if name.Some? then name.value else "unknown_tool")
      && item.result == (if status == Completed then result else None)
      && item.error == (if status == ToolStatus.Error then error else None)
    case _ => false
  }

  /** One item for every process and action line, in order. */
  ghost predicate AreItems(turn: seq<Line>, items: seq<ContentItem>) {
    && |items| == Count(BringsItem, turn)
    && forall i :: 0 <= i < |turn| && BringsItem(turn[i]) ==> ItemAt(turn, items, i)
  }

  ghost predicate ItemAt(turn: seq<Line>, items: seq<ContentItem>, i: nat)
    requires i < |turn|
  {
    var rank := Count(BringsItem, turn[..i]);
    rank < |items| && ShowsItemLine(turn[i], rank, items[rank])
  }

  /** The text of each line, empty for all but output lines. */
  ghost function OutputTexts(turn: seq<Line>): (texts: seq<string>)
    ensures |texts| == |turn|
    ensures forall i :: 0 <= i < |turn| ==>
              texts[i] == if turn[i].OutputLine? && turn[i].text.Some? then turn[i].text.value else ""
  {
    seq(|turn|, i requires 0 <= i < |turn| =>
      if turn[i].OutputLine? && turn[i].text.Some? then turn[i].text.value else "")
  }

  /** The output joined, or else what the failure that ends the turn says. */
  ghost predicate IsSpoken(turn: seq<Line>, text: string) {
    var output := Joined(OutputTexts(turn));
    if output == "" && turn != [] && turn[|turn| - 1].FailedLine? then
      var message := turn[|turn| - 1].message;
      text == if message.Some? then "执行失败：" + message.value else "执行失败"
    else text == output
  }

  // ----- the entries of a turn -----

  ghost predicate IsUserPart(now: string, before: seq<Entry>, turn: seq<Line>, part: seq<Entry>)
    requires turn != []
  {
    if !turn[0].UserLine? then part == []
    else
      && |part| == 1 && part[0].User?
      && part[0].id == (if turn[0].entryId.Some? then turn[0].entryId.value else "su_" + Decimal(|before|))
      && part[0].rootOrParent == (if turn[0].parentId.Some? then turn[0].parentId
                                  else if before == [] then None else Some(before[|before| - 1].id))
      && part[0].createdAt == (if turn[0].createdAt.Some? then turn[0].createdAt.value else now)
      && part[0].content == [Text(if turn[0].text.Some? then turn[0].text.value else "")]
      && part[0].input == part[0].content
  }

  ghost predicate IsProcessPart(now: string, before: seq<Entry>, turn: seq<Line>, user: seq<Entry>, part: seq<Entry>) {
    if HasNone(NeedsProcess, turn) then part == []
    else
      exists f: nat :: IsFirst(NeedsProcess, turn, f) && |part| == 1 && part[0].Process?
        && part[0].id == (if turn[f].entryId.Some? then turn[f].entryId.value else "sp_" + Decimal(|before|))
        && part[0].parentId == (if turn[f].parentId.Some? then turn[f].parentId.value
                                else if user != [] then user[0].id else "orphan")
        && part[0].createdAt == now && AreItems(turn, part[0].content)
  }

  ghost predicate IsAssistantPart(now: string, before: seq<Entry>, turn: seq<Line>, process: seq<Entry>,
                                  part: seq<Entry>)
  {
    if HasNone(NeedsAssistant, turn) then part == []
    else
      exists f: nat, text :: IsFirst(NeedsAssistant, turn, f) && IsSpoken(turn, text)
        && if text == "" then part == []
           else
             && |part| == 1 && part[0].Assistant? && process != []
             && part[0].id == (if turn[f].entryId.Some? then turn[f].entryId.value else "sa_" + Decimal(|before|))
             && part[0].parentId == (if turn[f].parentId.Some? then turn[f].parentId.value else process[0].id)
             && part[0].createdAt == now && part[0].content == [Text(text)]
  }

  /** A turn after the entries `before` it: its user, process and assistant entries, where it has any. */
  ghost predicate TurnReads(now: string, before: seq<Entry>, turn: seq<Line>, part: seq<Entry>) {
    turn != [] && exists user, process, assistant ::
      && IsUserPart(now, before, turn, user) && IsProcessPart(now, before, turn, user, process)
      && IsAssistantPart(now, before, turn, process, assistant) && part == user + process + assistant
  }

  // ----- every turn is read like that -----

  lemma {:induction false} LineShows(line: Line, count: nat)
    ensures if BringsItem(line)
            then |LineItem(line, count)| == 1 && ShowsItemLine(line, count, LineItem(line, count)[0])
            else LineItem(line, count) == []
  {
    hide Decimal;
  }

  lemma {:induction false} ItemsSnoc(turn: seq<Line>, items: seq<ContentItem>, line: Line, more: seq<ContentItem>)
    requires AreItems(turn, items)
    requires if BringsItem(line) then |more| == 1 && ShowsItemLine(line, |items|, more[0]) else more == []
    ensures AreItems(turn + [line], items + more)
  {
    hide ShowsItemLine, BringsItem;
    var longer := turn + [line];
    assert longer[..|longer| - 1] == turn;
    forall i | 0 <= i < |longer| && BringsItem(longer[i]) ensures ItemAt(longer, items + more, i) {
      if i < |turn| {
        assert ItemAt(turn, items, i);
        assert longer[..i] == turn[..i];
      } else {
        assert longer[..i] == turn;
      }
    }
  }

  lemma {:induction false} ItemsOfTurn(turn: seq<Line>)
    ensures AreItems(turn, Items(turn))
  {
    hide LineItem, ShowsItemLine, BringsItem;
    if turn != [] {
      var front, last := turn[..|turn| - 1], turn[|turn| - 1];
      ItemsOfTurn(front);
      LineShows(last, |Items(front)|);
      ItemsSnoc(front, Items(front), last, LineItem(last, |Items(front)|));
      assert front + [last] == turn;
    }
  }

  lemma {:induction false} OutputSnoc(turn: seq<Line>)
    requires turn != []
    ensures var line := turn[|turn| - 1];
            Joined(OutputTexts(turn))
            == Joined(OutputTexts(turn[..|turn| - 1]))
               + if line.OutputLine? && line.text.Some? then line.text.value else ""
  {
    hide Joined;
    var front, last := OutputTexts(turn[..|turn| - 1]), OutputTexts(turn)[|turn| - 1];
    JoinedSnoc(front, last);
    assert OutputTexts(turn) == front + [last];
  }

  lemma {:induction false} PlainOutput(turn: seq<Line>)
    requires forall i :: 0 <= i < |turn| ==> !turn[i].FailedLine?
    ensures OutputText(turn) == Joined(OutputTexts(turn))
  {
    hide Joined;
    if turn == [] {
      assert OutputTexts(turn) == [];
      assert Joined<char>([]) == [] by {
        NothingJoined();
      }
    } else {
      OutputSnoc(turn);
      PlainOutput(turn[..|turn| - 1]);
    }
  }

  lemma {:induction false} NothingJoined()
    ensures Joined<char>([]) == ""
  {
  }

  lemma {:induction false} TextOfTurn(turn: seq<Line>)
    requires forall i :: 0 <= i < |turn| - 1 ==> !turn[i].FailedLine?
    ensures IsSpoken(turn, OutputText(turn))
  {
    hide Joined, OutputTexts;
    if turn == [] || !turn[|turn| - 1].FailedLine? {
      PlainOutput(turn);
    } else {
      PlainOutput(turn[..|turn| - 1]);
      OutputSnoc(turn);
    }
  }

  lemma {:induction false} FirstWorkIs(turn: seq<Line>)
    ensures FirstWork(turn).None? <==> HasNone(NeedsProcess, turn)
    ensures FirstWork(turn).Some? ==>
              exists f: nat :: IsFirst(NeedsProcess, turn, f) && turn[f] == FirstWork(turn).value
  {
    if turn != [] {
      var front := turn[..|turn| - 1];
      FirstWorkIs(front);
      if FirstWork(front).Some? {
        var f: nat :| IsFirst(NeedsProcess, front, f) && front[f] == FirstWork(front).value;
        assert IsFirst(NeedsProcess, turn, f);
      } else if FirstWork(turn).Some? {
        assert IsFirst(NeedsProcess, turn, |front|);
      }
    }
  }

  lemma {:induction false} FirstOutputIs(turn: seq<Line>)
    ensures FirstOutput(turn).None? <==> HasNone(NeedsAssistant, turn)
    ensures FirstOutput(turn).Some? ==>
              exists f: nat :: IsFirst(NeedsAssistant, turn, f) && turn[f] == FirstOutput(turn).value
  {
    if turn != [] {
      var front := turn[..|turn| - 1];
      FirstOutputIs(front);
      if FirstOutput(front).Some? {
        var f: nat :| IsFirst(NeedsAssistant, front, f) && front[f] == FirstOutput(front).value;
        assert IsFirst(NeedsAssistant, turn, f);
      } else if FirstOutput(turn).Some? {
        assert IsFirst(NeedsAssistant, turn, |front|);
      }
    }
  }

  function Whole(entry: Option<Entry>): seq<Entry> {
    if entry.Some? then [entry.value] else []
  }

  lemma {:induction false} ProcessOfTurn(now: string, before: seq<Entry>, turn: seq<Line>)
    ensures IsProcessPart(now, before, turn, Whole(UserOf(now, before, turn)), Whole(ProcessOf(now, before, turn)))
  {
    hide Decimal, AreItems, Items;
    FirstWorkIs(turn);
    ItemsOfTurn(turn);
  }

  lemma {:induction false} AssistantOfTurn(now: string, before: seq<Entry>, turn: seq<Line>)
    requires forall i :: 0 <= i < |turn| - 1 ==> !turn[i].FailedLine?
    ensures var assistant := AssistantOf(now, before, turn);
            IsAssistantPart(now, before, turn, Whole(ProcessOf(now, before, turn)),
                            if assistant.Some? && AssistantText(assistant.value) != "" then [assistant.value] else [])
  {
    hide Decimal, IsSpoken, OutputText, Items;
    FirstOutputIs(turn);
    TextOfTurn(turn);
    SingleText(OutputText(turn));
  }

  lemma {:induction false} SingleText(text: string)
    ensures FlatMap(TextOf, [Text(text)]) == text
  {
    FlatMapOne(TextOf, Text(text));
  }

  lemma {:induction false} TurnIsRead(now: string, before: seq<Entry>, turn: seq<Line>)
    requires turn != [] && forall i :: 0 <= i < |turn| - 1 ==> !turn[i].FailedLine?
    ensures TurnReads(now, before, turn, TurnEntries(now, before, turn))
  {
    hide IsProcessPart, IsAssistantPart, ProcessOf, AssistantOf, Decimal, AssistantText;
    ProcessOfTurn(now, before, turn);
    AssistantOfTurn(now, before, turn);
    assert IsUserPart(now, before, turn, Whole(UserOf(now, before, turn)));
  }

  // ----- every log is cut and read like that -----

  /** A turn starts at a user line, and after a line that tells of a failure or of the output's completion. */
  predicate IsCut(lines: seq<Line>, b: nat)
    requires 0 < b < |lines|
  {
    lines[b].UserLine? || lines[b - 1].FailedLine? || lines[b - 1].CompletedLine?
  }

  /** The turns of the first `n` lines, from each cut to the next, and the entries of each. */
  ghost predicate AreTurns(now: string, lines: seq<Line>, n: nat, cuts: seq<nat>, parts: seq<seq<Entry>>) {
    && |cuts| == |parts| + 1 && cuts[0] == 0 && cuts[|parts|] == n <= |lines|
    && forall t :: 0 <= t < |parts| ==> TurnAt(now, lines, cuts, parts, t)
  }

  ghost predicate TurnAt(now: string, lines: seq<Line>, cuts: seq<nat>, parts: seq<seq<Entry>>, t: nat)
    requires t < |parts| && t + 1 < |cuts|
  {
    IsTurn(lines, cuts[t], cuts[t + 1]) && TurnReads(now, Joined(parts[..t]), lines[cuts[t]..cuts[t + 1]], parts[t])
  }

  /** Lines from the first line or a cut up to the next cut, or to where the reading stops. */
  ghost predicate IsTurn(lines: seq<Line>, b: nat, n: nat) {
    b < n <= |lines| && (b > 0 ==> IsCut(lines, b)) && forall k :: b < k < n ==> !IsCut(lines, k)
  }

  /** Entries that a log is replayed as: turn after turn. */
  ghost predicate IsReplay(now: string, lines: seq<Line>, entries: seq<Entry>) {
    exists cuts, parts :: AreTurns(now, lines, |lines|, cuts, parts) && entries == Joined(parts)
  }

  lemma {:induction false} NextTurn(now: string, lines: seq<Line>, b: nat, n: nat, cuts: seq<nat>,
                                    parts: seq<seq<Entry>>, part: seq<Entry>)
    requires AreTurns(now, lines, b, cuts, parts) && IsTurn(lines, b, n)
    requires TurnReads(now, Joined(parts), lines[b..n], part)
    ensures AreTurns(now, lines, n, cuts + [n], parts + [part])
    ensures Joined(parts + [part]) == Joined(parts) + part
  {
    hide TurnReads, IsCut, Joined;
    JoinedSnoc(parts, part);
    var allCuts, all := cuts + [n], parts + [part];
    forall t | 0 <= t < |all| ensures TurnAt(now, lines, allCuts, all, t) {
      if t < |parts| {
        assert TurnAt(now, lines, cuts, parts, t);
        assert all[..t] == parts[..t];
      } else {
        assert all[..t] == parts;
      }
    }
  }

  lemma {:induction false} TurnsAreRead(now: string, lines: seq<Line>, n: nat)
    returns (cuts: seq<nat>, parts: seq<seq<Entry>>)
    requires n <= |lines|
    ensures AreTurns(now, lines, n, cuts, parts) && Turns(now, lines, n) == Joined(parts)
  {
    hide TurnReads, TurnEntries;
    if n == 0 {
      cuts, parts := [0], [];
    } else {
      var b := TurnStart(lines, n);
      cuts, parts := TurnsAreRead(now, lines, b);
      TurnIsRead(now, Turns(now, lines, b), lines[b..n]);
      var part := TurnEntries(now, Turns(now, lines, b), lines[b..n]);
      NextTurn(now, lines, b, n, cuts, parts, part);
      cuts, parts := cuts + [n], parts + [part];
    }
  }

  /** What the replay returns is what the lines say, for every log. */
  lemma {:induction false} ReplayIsRead(now: string, lines: seq<Line>)
    ensures IsReplay(now, lines, Replay(now, lines))
  {
    var cuts, parts := TurnsAreRead(now, lines, |lines|);
  }
}
