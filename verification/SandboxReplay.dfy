/** The structure of what `readSandboxTranscript` returns, for every log. */
module SandboxReplay {
  import opened Contracts
  import opened SandboxTranscript

  // ----- later turns never disturb earlier ones -----

  lemma {:induction false} TurnStartPrefix(a: seq<Line>, b: seq<Line>, n: nat)
    requires 0 < n <= |a|
    ensures TurnStart(a + b, n) == TurnStart(a, n)
  {
    if !(a[n - 1].UserLine? || n == 1 || Closes(a[n - 2])) {
      TurnStartPrefix(a, b, n - 1);
    }
  }

  lemma {:induction false} TurnsPrefix(now: string, a: seq<Line>, b: seq<Line>, n: nat)
    requires n <= |a|
    ensures Turns(now, a + b, n) == Turns(now, a, n)
  {
    if n > 0 {
      TurnStartPrefix(a, b, n);
      TurnsPrefix(now, a, b, TurnStart(a, n));
      assert (a + b)[TurnStart(a, n)..n] == a[TurnStart(a, n)..n];
    }
  }

  lemma {:induction false} TurnsGrow(now: string, lines: seq<Line>, k: nat, n: nat)
    requires k <= n <= |lines| && (k < n ==> lines[k].UserLine?)
    ensures Turns(now, lines, k) <= Turns(now, lines, n)
  {
    if k < n {
      TurnsGrow(now, lines, k, TurnStart(lines, n));
    }
  }

  /** Appending a new user message and its events to a log leaves the replay of what was there as it is. */
  lemma {:induction false} ReplayIsStable(now: string, log: seq<Line>, more: seq<Line>)
    requires more != [] && more[0].UserLine?
    ensures Replay(now, log) <= Replay(now, log + more)
  {
    TurnsPrefix(now, log, more, |log|);
    TurnsGrow(now, log + more, |log|, |log + more|);
  }

  // ----- assistants follow their process entries -----

  ghost predicate AssistantsFollowProcess(entries: seq<Entry>) {
    forall k :: 0 <= k < |entries| && entries[k].Assistant? ==> k > 0 && entries[k - 1].Process?
  }

  lemma {:induction false} EveryAssistantFollowsProcess(now: string, lines: seq<Line>, n: nat)
    requires n <= |lines|
    ensures AssistantsFollowProcess(Turns(now, lines, n))
  {
    if n > 0 {
      var b := TurnStart(lines, n);
      EveryAssistantFollowsProcess(now, lines, b);
      var before, turn := Turns(now, lines, b), lines[b..n];
      FollowsInTurn(before, UserOf(now, before, turn), ProcessOf(now, before, turn), AssistantOf(now, before, turn));
    }
  }

  lemma {:induction false} FollowsInTurn(before: seq<Entry>, user: Option<Entry>, process: Option<Entry>,
                                         assistant: Option<Entry>)
    requires AssistantsFollowProcess(before)
    requires user.Some? ==> user.value.User?
    requires process.Some? ==> process.value.Process?
    requires assistant.Some? ==> assistant.value.Assistant? && process.Some?
    ensures AssistantsFollowProcess(before + Flush(user, process, assistant))
  {
    var all := before + Flush(user, process, assistant);
    forall k | 0 <= k < |all| && all[k].Assistant?
      ensures k > 0 && all[k - 1].Process?
    {
      if k < |before| {
        assert all[k] == before[k] && all[k - 1] == before[k - 1];
      }
    }
  }

  // ----- process items and their lines -----

  function ProcessContent(entry: Entry): seq<ContentItem> {
    if entry.Process? then entry.content else []
  }

  /** The content of all process entries, in order. */
  function ProcessItems(entries: seq<Entry>): seq<ContentItem> {
    FlatMap(ProcessContent, entries)
  }

  function SpokenContent(entry: Entry): string {
    if entry.Assistant? then AssistantText(entry) else ""
  }

  /** The text of all assistant entries, joined. */
  function SpokenText(entries: seq<Entry>): string {
    FlatMap(SpokenContent, entries)
  }

  /** A turn contributes its items and its output text, whichever of its entries are kept. */
  lemma {:induction false} TurnContributes(now: string, before: seq<Entry>, turn: seq<Line>)
    ensures ProcessItems(TurnEntries(now, before, turn)) == Items(turn)
    ensures SpokenText(TurnEntries(now, before, turn)) == OutputText(turn)
  {
    var user, process := UserOf(now, before, turn), ProcessOf(now, before, turn);
    var assistant := AssistantOf(now, before, turn);
    NoWorkNoItems(turn);
    TextOfOne(OutputText(turn));
    FlushContributes(user, process, assistant);
  }

  lemma {:induction false} TextOfOne(text: string)
    ensures FlatMap(TextOf, [Text(text)]) == text
  {
    FlatMapOne(TextOf, Text(text));
  }

  lemma {:induction false} FlushContributes(user: Option<Entry>, process: Option<Entry>, assistant: Option<Entry>)
    requires user.Some? ==> user.value.User?
    requires process.Some? ==> process.value.Process?
    requires assistant.Some? ==> assistant.value.Assistant?
    ensures ProcessItems(Flush(user, process, assistant)) == if process.Some? then process.value.content else []
    ensures SpokenText(Flush(user, process, assistant))
         == if assistant.Some? then AssistantText(assistant.value) else ""
  {
    var a := if user.Some? then [user.value] else [];
    var b := if process.Some? then [process.value] else [];
    var c := if assistant.Some? && AssistantText(assistant.value) != "" then [assistant.value] else [];
    FlatMapAppend(ProcessContent, a + b, c);
    FlatMapAppend(ProcessContent, a, b);
    FlatMapAppend(SpokenContent, a + b, c);
    FlatMapAppend(SpokenContent, a, b);
    if user.Some? {
      FlatMapOne(ProcessContent, user.value);
      FlatMapOne(SpokenContent, user.value);
    }
    if process.Some? {
      FlatMapOne(ProcessContent, process.value);
      FlatMapOne(SpokenContent, process.value);
    }
    if assistant.Some? {
      FlatMapOne(ProcessContent, assistant.value);
      FlatMapOne(SpokenContent, assistant.value);
    }
  }

  lemma {:induction false} TurnsContribute(now: string, lines: seq<Line>, n: nat)
    requires 0 < n <= |lines|
    ensures var b := TurnStart(lines, n);
            && ProcessItems(Turns(now, lines, n)) == ProcessItems(Turns(now, lines, b)) + Items(lines[b..n])
            && SpokenText(Turns(now, lines, n)) == SpokenText(Turns(now, lines, b)) + OutputText(lines[b..n])
  {
    var b := TurnStart(lines, n);
    var before := Turns(now, lines, b);
    TurnContributes(now, before, lines[b..n]);
    FlatMapAppend(ProcessContent, before, TurnEntries(now, before, lines[b..n]));
    FlatMapAppend(SpokenContent, before, TurnEntries(now, before, lines[b..n]));
  }

  function ItemLine(line: Line): seq<Line> {
    if line.DeltaLine? || line.ActionLine? then [line] else []
  }

  /** The process and action lines, in order. */
  function ItemLines(lines: seq<Line>): seq<Line> {
    FlatMap(ItemLine, lines)
  }

  /** An item is what its line says; only a missing tool id depends on where the item stands. */
  ghost predicate Shows(item: ContentItem, line: Line) {
    exists count :: LineItem(line, count) == [item]
  }

  ghost predicate ShowAll(items: seq<ContentItem>, lines: seq<Line>) {
    |items| == |lines| && forall i :: 0 <= i < |items| ==> Shows(items[i], lines[i])
  }

  lemma {:induction false} ItemsShowLines(turn: seq<Line>)
    ensures ShowAll(Items(turn), ItemLines(turn))
  {
    if turn != [] {
      var front, last := turn[..|turn| - 1], turn[|turn| - 1];
      ItemsShowLines(front);
      if last.DeltaLine? || last.ActionLine? {
        assert Shows(LineItem(last, |Items(front)|)[0], last);
      }
    }
  }

  lemma {:induction false} ShowAllAppend(a: seq<ContentItem>, b: seq<ContentItem>, x: seq<Line>, y: seq<Line>)
    requires ShowAll(a, x) && ShowAll(b, y)
    ensures ShowAll(a + b, x + y)
  {
    hide Shows;
  }

  /** In every log, malformed lines included, process items and process or action lines correspond one to one. */
  lemma {:induction false} ItemsMatchLines(now: string, lines: seq<Line>, n: nat)
    requires n <= |lines|
    ensures ShowAll(ProcessItems(Turns(now, lines, n)), ItemLines(lines[..n]))
  {
    if n == 0 {
      return;
    }
    hide Turns, TurnStart, Items, ItemLine, ShowAll;
    var b := TurnStart(lines, n);
    ItemsMatchLines(now, lines, b);
    TurnsContribute(now, lines, n);
    ItemsShowLines(lines[b..n]);
    PrefixSplits(lines, b, n);
    FlatMapAppend(ItemLine, lines[..b], lines[b..n]);
    ShowAllAppend(ProcessItems(Turns(now, lines, b)), Items(lines[b..n]),
                  ItemLines(lines[..b]), ItemLines(lines[b..n]));
  }

  // ----- lines that name their tools -----

  function PlainItem(line: Line): seq<ContentItem> {
    LineItem(line, 0)
  }

  function PlainOutput(line: Line): string {
    if line.OutputLine? then GetOr(line.text, "") else ""
  }

  /** A line as a run event is logged: tools have ids, and failures are not logged. */
  predicate IsRunLine(line: Line) {
    !line.FailedLine? && !line.UserLine? && (line.ActionLine? ==> line.toolCallId.Some?)
  }

  lemma {:induction false} RunLinesPlain(turn: seq<Line>)
    requires forall i :: 0 <= i < |turn| ==> turn[i].UserLine? || IsRunLine(turn[i])
    ensures Items(turn) == FlatMap(PlainItem, turn)
    ensures OutputText(turn) == FlatMap(PlainOutput, turn)
  {
    if turn != [] {
      RunLinesPlain(turn[..|turn| - 1]);
      var earlier := OutputText(turn[..|turn| - 1]);
      assert earlier + "" == earlier;
    }
  }

  /** From a user line on, the replay adds exactly the items and the output of the lines, however they are cut. */
  lemma {:induction false} RunLinesReplay(now: string, lines: seq<Line>, k: nat, n: nat)
    requires k < n <= |lines| && lines[k].UserLine?
    requires forall i :: k < i < n ==> IsRunLine(lines[i])
    ensures ProcessItems(Turns(now, lines, n)) == ProcessItems(Turns(now, lines, k)) + FlatMap(PlainItem, lines[k..n])
    ensures SpokenText(Turns(now, lines, n)) == SpokenText(Turns(now, lines, k)) + FlatMap(PlainOutput, lines[k..n])
    decreases n
  {
    var b := TurnStart(lines, n);
    RunTurn(now, lines, k, n);
    if k < b {
      RunLinesReplay(now, lines, k, b);
      JoinSlices(PlainItem, lines, k, b, n, ProcessItems(Turns(now, lines, k)));
      JoinSlices(PlainOutput, lines, k, b, n, SpokenText(Turns(now, lines, k)));
    } else {
      assert b == k;
    }
  }

  lemma {:induction false} RunTurn(now: string, lines: seq<Line>, k: nat, n: nat)
    requires k < n <= |lines| && lines[k].UserLine?
    requires forall i :: k < i < n ==> IsRunLine(lines[i])
    ensures var b := TurnStart(lines, n);
            && k <= b
            && ProcessItems(Turns(now, lines, n))
               == ProcessItems(Turns(now, lines, b)) + FlatMap(PlainItem, lines[b..n])
            && SpokenText(Turns(now, lines, n)) == SpokenText(Turns(now, lines, b)) + FlatMap(PlainOutput, lines[b..n])
  {
    SliceOfRun(lines, k, TurnStart(lines, n), n);
    TurnsContribute(now, lines, n);
  }

  lemma {:induction false} SliceOfRun(lines: seq<Line>, k: nat, b: nat, n: nat)
    requires k <= b < n <= |lines| && lines[k].UserLine?
    requires forall i :: k < i < n ==> IsRunLine(lines[i])
    ensures Items(lines[b..n]) == FlatMap(PlainItem, lines[b..n])
    ensures OutputText(lines[b..n]) == FlatMap(PlainOutput, lines[b..n])
  {
    RunLinesPlain(lines[b..n]);
  }

  lemma {:induction false} JoinSlices<T>(f: Line -> seq<T>, lines: seq<Line>, k: nat, b: nat, n: nat, before: seq<T>)
    requires k <= b <= n <= |lines|
    ensures before + FlatMap(f, lines[k..n]) == before + FlatMap(f, lines[k..b]) + FlatMap(f, lines[b..n])
  {
    assert lines[k..n] == lines[k..b] + lines[b..n];
    FlatMapAppend(f, lines[k..b], lines[b..n]);
  }

  /** A run appended to any log adds its items and its output to the replay. */
  lemma {:induction false} ReplayRun(now: string, earlier: seq<Line>, run: seq<Line>)
    requires run != [] && run[0].UserLine? && forall i :: 0 < i < |run| ==> IsRunLine(run[i])
    ensures ProcessItems(Replay(now, earlier + run)) == ProcessItems(Replay(now, earlier)) + FlatMap(PlainItem, run)
    ensures SpokenText(Replay(now, earlier + run)) == SpokenText(Replay(now, earlier)) + FlatMap(PlainOutput, run)
  {
    var lines := earlier + run;
    forall i | |earlier| < i < |lines|
      ensures IsRunLine(lines[i])
    {
      assert lines[i] == run[i - |earlier|];
    }
    TurnsPrefix(now, earlier, run, |earlier|);
    RunLinesReplay(now, lines, |earlier|, |lines|);
    assert lines[|earlier|..|lines|] == run;
  }

  lemma {:induction false} StartOfLastTurn(lines: seq<Line>, k: nat)
    requires k < |lines| && lines[k].UserLine?
    requires forall i :: k < i < |lines| ==> !lines[i].UserLine?
    requires forall i :: k <= i < |lines| - 1 ==> !Closes(lines[i])
    ensures TurnStart(lines, |lines|) == k
  {
  }

  /** Lines from a user line to the first line that closes form one turn. */
  lemma {:induction false} OneTurn(now: string, earlier: seq<Line>, turn: seq<Line>)
    requires turn != [] && turn[0].UserLine?
    requires forall i :: 0 < i < |turn| ==> !turn[i].UserLine?
    requires forall i :: 0 <= i < |turn| - 1 ==> !Closes(turn[i])
    ensures Replay(now, earlier + turn) == Replay(now, earlier) + TurnEntries(now, Replay(now, earlier), turn)
  {
    var k, lines := |earlier|, earlier + turn;
    forall i | k <= i < |lines|
      ensures i > k ==> !lines[i].UserLine?
      ensures i < |lines| - 1 ==> !Closes(lines[i])
    {
      assert lines[i] == turn[i - k];
    }
    TurnsPrefix(now, earlier, turn, k);
    StartOfLastTurn(lines, k);
    assert lines[k..|lines|] == turn;
  }
}
