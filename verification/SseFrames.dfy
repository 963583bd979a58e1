/**
 The event stream between worker and control plane: `writeSseEvent` (`sse-writer.ts`) prints frames, and
 `parseSseFrames` (`harness-worker-client.ts`) cuts a stream that arrives in arbitrary chunks back into events.
 The format is a subset of the WHATWG HTML Living Standard, section 9.2.
 */
module SseFrames {
  import opened Contracts
  import opened Text

  /** JSON text is non-empty, carries no raw newline and no surrounding space, and parses back. */
  ghost predicate IsLawful<T(!new)>(codec: Codec<T>) {
    forall x :: codec.decode(codec.encode(x)) == Some(x) && IsField(codec.encode(x))
  }

  /** Text that survives as the value of a field line. */
  predicate IsField(s: string) {
    s != "" && IsTrimmed(s) && '\n' !in s
  }

  datatype Event<+T> = Event(name: string, data: T)

  // ----- cutting the text into frames -----

  predicate IsBreak(text: string, i: nat) {
    i + 1 < |text| && text[i] == '\n' && text[i + 1] == '\n'
  }

  /** The first blank line, or the length of the text. */
  function FirstBreak(text: string): (i: nat)
    ensures i <= |text|
    ensures i < |text| ==> IsBreak(text, i)
    ensures forall k :: 0 <= k < i ==> !IsBreak(text, k)
  {
    FirstBreakFrom(text, 0)
  }

  function FirstBreakFrom(text: string, from: nat): (i: nat)
    requires from <= |text|
    ensures from <= i <= |text|
    ensures i < |text| ==> IsBreak(text, i)
    ensures forall k :: from <= k < i ==> !IsBreak(text, k)
    decreases |text| - from
  {
    if from == |text| || IsBreak(text, from) then from else FirstBreakFrom(text, from + 1)
  }

  /** Everything `split("\n\n")` returns but its last element. */
  function Frames(text: string): seq<string>
    decreases |text|
  {
    var i := FirstBreak(text);
    if i == |text| then [] else [text[..i]] + Frames(text[i + 2..])
  }

  /** The last element: what stays in the buffer. */
  function Rest(text: string): string
    decreases |text|
  {
    var i := FirstBreak(text);
    if i == |text| then text else Rest(text[i + 2..])
  }

  function JoinFrames(frames: seq<string>): string {
    if frames == [] then "" else frames[0] + "\n\n" + JoinFrames(frames[1..])
  }

  ghost predicate HasNoBreak(text: string) {
    forall k :: 0 <= k < |text| ==> !IsBreak(text, k)
  }

  lemma {:induction false} FirstFrame(text: string)
    requires FirstBreak(text) < |text|
    ensures HasNoBreak(text[..FirstBreak(text)] + "\n")
    ensures text == text[..FirstBreak(text)] + "\n\n" + text[FirstBreak(text) + 2..]
  {
    var i := FirstBreak(text);
    var first := text[..i] + "\n";
    forall k | 0 <= k < |first| ensures !IsBreak(first, k) {
      assert !IsBreak(text, k) || k == i;
    }
  }

  /** The cut loses nothing, and the leftover holds no blank line. */
  lemma {:induction false} FramesAreTheText(text: string)
    ensures JoinFrames(Frames(text)) + Rest(text) == text
    ensures HasNoBreak(Rest(text))
    decreases |text|
  {
    var i := FirstBreak(text);
    if i < |text| {
      var later := text[i + 2..];
      FramesAreTheText(later);
      FirstFrame(text);
      assert Frames(text)[1..] == Frames(later);
      AppendAssociates(text[..i] + "\n\n", JoinFrames(Frames(later)), Rest(later));
    }
  }

  /** Each frame ends at the first blank line after its start. */
  lemma {:induction false} FramesEndAtBreaks(text: string)
    ensures forall i :: 0 <= i < |Frames(text)| ==> HasNoBreak(Frames(text)[i] + "\n")
    decreases |text|
  {
    if FirstBreak(text) < |text| {
      FramesEndAtBreaks(text[FirstBreak(text) + 2..]);
      FirstFrame(text);
    }
  }

  /** Cutting is incremental: only the leftover needs to be kept when more text arrives. */
  lemma {:induction false} FramesAppend(a: string, b: string)
    ensures Frames(a + b) == Frames(a) + Frames(Rest(a) + b)
    ensures Rest(a + b) == Rest(Rest(a) + b)
    decreases |a|
  {
    var i := FirstBreak(a);
    if i < |a| {
      var later := a[i + 2..];
      BreakStays(a, b, i);
      SlicesOfAppend(a, b, i);
      FramesAppend(later, b);
      AppendAssociates([a[..i]], Frames(later), Frames(Rest(later) + b));
    }
  }

  lemma {:induction false} SlicesOfAppend(a: string, b: string, i: nat)
    requires i + 2 <= |a|
    ensures (a + b)[..i] == a[..i] && (a + b)[i + 2..] == a[i + 2..] + b
  {
  }

  lemma {:induction false} BreakStays(a: string, b: string, i: nat)
    requires i == FirstBreak(a) < |a|
    ensures FirstBreak(a + b) == i
  {
    assert IsBreak(a + b, i);
    forall k | 0 <= k < i
      ensures !IsBreak(a + b, k)
    {
      assert !IsBreak(a, k);
    }
  }

  // ----- from frames to events -----

  /** The trimmed value of the first line with a given prefix. */
  function FieldValue(lines: seq<string>, prefix: string): Option<string> {
    if lines == [] then None
    else if StartsWith(lines[0], prefix) then Some(Trim(lines[0][|prefix|..]))
    else FieldValue(lines[1..], prefix)
  }

  /** The name and data text of a frame, unless either is missing or empty. */
  function FrameFields(frame: string): Option<(string, string)> {
    var name := FieldValue(Lines(frame), "event:");
    var data := FieldValue(Lines(frame), "data:");
    if name.None? || name.value == "" || data.None? || data.value == "" then None
    else Some((name.value, data.value))
  }

  /** The events handed to `onEvent`, and whether the parser threw on a payload after them. */
  datatype Outcome<+T> = Outcome(events: seq<Event<T>>, threw: bool)

  function FrameOutcome<T>(codec: Codec<T>, frame: string): Outcome<T> {
    match FrameFields(frame)
    case None => Outcome([], false)
    case Some((name, data)) =>
      match codec.decode(data)
      case None => Outcome([], true)
      case Some(payload) => Outcome([Event(name, payload)], false)
  }

  /** Frame after frame, up to the first payload that does not parse. */
  function Deliver<T>(codec: Codec<T>, frames: seq<string>): Outcome<T> {
    if frames == [] then Outcome([], false)
    else
      var first := FrameOutcome(codec, frames[0]);
      if first.threw then first
      else
        var rest := Deliver(codec, frames[1..]);
        Outcome(first.events + rest.events, rest.threw)
  }

  /** What a whole text stands for. */
  function ParseText<T>(codec: Codec<T>, text: string): Outcome<T> {
    Deliver(codec, Frames(text))
  }

  lemma {:induction false} DeliverAppend<T>(codec: Codec<T>, a: seq<string>, b: seq<string>)
    ensures Deliver(codec, a + b)
         == var first := Deliver(codec, a);
            if first.threw then first
            else Outcome(first.events + Deliver(codec, b).events, Deliver(codec, b).threw)
  {
    hide FrameOutcome;
    if a == [] {
      assert a + b == b;
    } else {
      DeliverAppend(codec, a[1..], b);
      assert (a + b)[1..] == a[1..] + b;
      AppendAssociates(FrameOutcome(codec, a[0]).events, Deliver(codec, a[1..]).events, Deliver(codec, b).events);
    }
  }

  lemma {:induction false} DeliverOne<T>(codec: Codec<T>, frame: string)
    ensures Deliver(codec, [frame]) == FrameOutcome(codec, frame)
  {
    assert [frame][1..] == [];
    assert FrameOutcome(codec, frame).events + [] == FrameOutcome(codec, frame).events;
  }

  function Concat(chunks: seq<string>): string {
    if chunks == [] then "" else Concat(chunks[..|chunks| - 1]) + chunks[|chunks| - 1]
  }

  /** One chunk's frames, event by event. */
  method DeliverFrames<T>(codec: Codec<T>, frames: seq<string>) returns (outcome: Outcome<T>)
    ensures outcome == Deliver(codec, frames)
  {
    var events: seq<Event<T>> := [];
    for j := 0 to |frames|
      invariant Deliver(codec, frames[..j]) == Outcome(events, false)
    {
      assert frames[..j + 1] == frames[..j] + [frames[j]];
      DeliverAppend(codec, frames[..j], [frames[j]]);
      DeliverOne(codec, frames[j]);
      var fields := FrameFields(frames[j]);
      if fields.None? {
        continue;
      }
      var payload := codec.decode(fields.value.1);
      if payload.None? {
        assert frames[..j + 1] + frames[j + 1..] == frames;
        DeliverAppend(codec, frames[..j + 1], frames[j + 1..]);
        return Outcome(events, true);
      }
      events := events + [Event(fields.value.0, payload.value)];
    }
    assert frames[..|frames|] == frames;
    return Outcome(events, false);
  }

  /**
   The parser's loop. Whatever the chunks, it delivers exactly the events of the whole text, throws exactly when the
   whole text makes it throw, and never keeps a complete frame in its buffer.
   */
  method ParseSseFrames<T>(codec: Codec<T>, chunks: seq<string>) returns (outcome: Outcome<T>, buffer: string)
    ensures outcome == ParseText(codec, Concat(chunks))
    ensures !outcome.threw ==> buffer == Rest(Concat(chunks)) && HasNoBreak(buffer)
  {
    buffer := "";
    var events: seq<Event<T>> := [];
    for i := 0 to |chunks|
      invariant Outcome(events, false) == ParseText(codec, Concat(chunks[..i]))
      invariant buffer == Rest(Concat(chunks[..i]))
    {
      var text := buffer + chunks[i];
      var frames := Frames(text);
      ghost var before := Frames(Concat(chunks[..i]));
      ChunkArrives(codec, chunks, i);
      DeliverAppend(codec, before, frames);
      buffer := Rest(text);
      var delivered := DeliverFrames(codec, frames);
      events := events + delivered.events;
      if delivered.threw {
        ThrowIsFinal(codec, chunks, i);
        return Outcome(events, true), buffer;
      }
    }
    assert chunks[..|chunks|] == chunks;
    FramesAreTheText(Concat(chunks));
    outcome := Outcome(events, false);
  }

  lemma {:induction false} ChunkArrives<T>(codec: Codec<T>, chunks: seq<string>, i: nat)
    requires i < |chunks|
    ensures var before := Concat(chunks[..i]);
            && Frames(Concat(chunks[..i + 1])) == Frames(before) + Frames(Rest(before) + chunks[i])
            && Rest(Concat(chunks[..i + 1])) == Rest(Rest(before) + chunks[i])
  {
    assert chunks[..i + 1][..i] == chunks[..i];
    FramesAppend(Concat(chunks[..i]), chunks[i]);
  }

  /** Once a payload has thrown, text that arrives later changes nothing. */
  lemma {:induction false} ThrowIsFinal<T>(codec: Codec<T>, chunks: seq<string>, i: nat)
    requires i < |chunks| && ParseText(codec, Concat(chunks[..i + 1])).threw
    ensures ParseText(codec, Concat(chunks)) == ParseText(codec, Concat(chunks[..i + 1]))
  {
    var text := Concat(chunks[..i + 1]);
    var later := ConcatSplit(chunks, i + 1);
    FramesAppend(text, later);
    DeliverAppend(codec, Frames(text), Frames(Rest(text) + later));
  }

  lemma {:induction false} ConcatSplit(chunks: seq<string>, i: nat) returns (later: string)
    requires i <= |chunks|
    ensures Concat(chunks) == Concat(chunks[..i]) + later
  {
    if i == |chunks| {
      assert chunks[..i] == chunks;
      later := "";
    } else {
      var front := chunks[..|chunks| - 1];
      later := ConcatSplit(front, i);
      assert front[..i] == chunks[..i];
      later := later + chunks[|chunks| - 1];
    }
  }

  // ----- the printer -----

  class Response {
    var written: string

    constructor ()
      ensures written == ""
    {
      written := "";
    }

    method Write(text: string)
      modifies this
      ensures written == old(written) + text
    {
      written := written + text;
    }

    method WriteSseEvent<T>(codec: Codec<T>, event: Event<T>)
      modifies this
      ensures written == old(written) + PrintEvent(codec, event)
      ensures written == old(written) + "event: " + event.name + "\ndata: " + codec.encode(event.data) + "\n\n"
    {
      Write("event: " + event.name + "\n");
      Write("data: " + codec.encode(event.data) + "\n\n");
      assert PrintEvent(codec, event)
          == ("event: " + event.name + "\n") + ("data: " + codec.encode(event.data) + "\n\n");
      assert "event: " + event.name + "\n" + "data: " + codec.encode(event.data) + "\n\n"
          == "event: " + event.name + "\ndata: " + codec.encode(event.data) + "\n\n";
    }
  }

  function PrintFrame<T>(codec: Codec<T>, event: Event<T>): string {
    ("event: " + event.name) + "\n" + ("data: " + codec.encode(event.data))
  }

  function PrintEvent<T>(codec: Codec<T>, event: Event<T>): string {
    PrintFrame(codec, event) + "\n\n"
  }

  function PrintAll<T>(codec: Codec<T>, events: seq<Event<T>>): string {
    if events == [] then "" else PrintEvent(codec, events[0]) + PrintAll(codec, events[1..])
  }

  lemma {:induction false} PrintedFrameEnds<T(!new)>(codec: Codec<T>, event: Event<T>, rest: string)
    requires IsLawful(codec) && IsField(event.name)
    ensures FirstBreak(PrintEvent(codec, event) + rest) == |PrintFrame(codec, event)|
  {
    var a, b := "event: " + event.name, "data: " + codec.encode(event.data);
    var text := PrintEvent(codec, event) + rest;
    assert IsField(codec.encode(event.data));
    assert text == a + "\n" + b + "\n\n" + rest;
    forall k | 0 <= k < |a| + 1 + |b|
      ensures !IsBreak(text, k)
    {
      if k < |a| {
        assert text[k] == a[k];
      } else if k == |a| {
        assert text[k + 1] == b[0];
      } else {
        assert text[k] == b[k - |a| - 1];
      }
    }
    assert IsBreak(text, |a| + 1 + |b|);
  }

  lemma {:induction false} PrintedFrameParses<T(!new)>(codec: Codec<T>, event: Event<T>)
    requires IsLawful(codec) && IsField(event.name)
    ensures FrameOutcome(codec, PrintFrame(codec, event)) == Outcome([event], false)
  {
    var payload := codec.encode(event.data);
    var a, b := "event: " + event.name, "data: " + payload;
    assert IsField(payload);
    LinesOfTwo(a, b);
    assert a[6..] == " " + event.name && b[5..] == " " + payload;
    TrimLeadingSpace(event.name);
    TrimLeadingSpace(payload);
    assert [a, b][1..] == [b];
    assert a[0] != b[0];
    assert FieldValue([a, b], "data:") == FieldValue([b], "data:");
  }

  lemma {:induction false} PrintedTextFrames<T(!new)>(codec: Codec<T>, event: Event<T>, rest: string)
    requires IsLawful(codec) && IsField(event.name)
    ensures Frames(PrintEvent(codec, event) + rest) == [PrintFrame(codec, event)] + Frames(rest)
    ensures Rest(PrintEvent(codec, event) + rest) == Rest(rest)
  {
    var frame, text := PrintFrame(codec, event), PrintEvent(codec, event) + rest;
    PrintedFrameEnds(codec, event, rest);
    hide FirstBreak, PrintFrame;
    assert text[..|frame|] == frame && text[|frame| + 2..] == rest;
  }

  lemma {:induction false} PrintedTextParses<T(!new)>(codec: Codec<T>, events: seq<Event<T>>)
    requires IsLawful(codec) && forall i :: 0 <= i < |events| ==> IsField(events[i].name)
    ensures ParseText(codec, PrintAll(codec, events)) == Outcome(events, false)
    ensures Rest(PrintAll(codec, events)) == ""
  {
    if events != [] {
      hide PrintEvent, PrintFrame, IsField, Frames, Rest, FrameOutcome;
      var rest := PrintAll(codec, events[1..]);
      PrintedTextFrames(codec, events[0], rest);
      PrintedTextParses(codec, events[1..]);
      PrintedFrameParses(codec, events[0]);
      assert ([PrintFrame(codec, events[0])] + Frames(rest))[1..] == Frames(rest);
      assert [events[0]] + events[1..] == events;
    }
  }

  /** Whatever the parser delivers has a name that could have been printed. */
  lemma {:induction false} DeliveredNamesAreFields<T>(codec: Codec<T>, frames: seq<string>, i: nat)
    requires i < |Deliver(codec, frames).events|
    ensures IsField(Deliver(codec, frames).events[i].name)
  {
    var first := FrameOutcome(codec, frames[0]);
    if i < |first.events| {
      NameIsField(Lines(frames[0]), "event:");
    } else {
      DeliveredNamesAreFields(codec, frames[1..], i - |first.events|);
    }
  }

  lemma {:induction false} NameIsField(lines: seq<string>, prefix: string)
    requires forall i :: 0 <= i < |lines| ==> '\n' !in lines[i]
    ensures var value := FieldValue(lines, prefix);
            value.Some? && value.value != "" ==> IsField(value.value)
  {
    if lines != [] {
      if StartsWith(lines[0], prefix) {
        TrimTrims(lines[0][|prefix|..]);
      } else {
        NameIsField(lines[1..], prefix);
      }
    }
  }

  /**
   The round trip, under any chunking: printed events come back as they were exactly when every event name is
   non-empty, trimmed and free of newlines.
   */
  lemma {:induction false} SseRoundTrip<T(!new)>(codec: Codec<T>, events: seq<Event<T>>, chunks: seq<string>)
    requires IsLawful(codec) && Concat(chunks) == PrintAll(codec, events)
    ensures ParseText(codec, Concat(chunks)) == Outcome(events, false)
            <==> forall i :: 0 <= i < |events| ==> IsField(events[i].name)
  {
    if forall i :: 0 <= i < |events| ==> IsField(events[i].name) {
      PrintedTextParses(codec, events);
    } else if ParseText(codec, Concat(chunks)) == Outcome(events, false) {
      forall i | 0 <= i < |events|
        ensures IsField(events[i].name)
      {
        DeliveredNamesAreFields(codec, Frames(Concat(chunks)), i);
      }
    }
  }

  // ----- what a frame says -----

  /** The first line with the prefix holds the value, but for white space around it. */
  ghost predicate HasField(frame: string, prefix: string, value: string) {
    exists i | 0 <= i < |Lines(frame)| ::
      && prefix <= Lines(frame)[i] && value == Trim(Lines(frame)[i][|prefix|..])
      && forall j :: 0 <= j < i ==> !(prefix <= Lines(frame)[j])
  }

  /** A frame of an event has a name and data, neither of them empty. */
  ghost predicate IsEventFrame(frame: string, name: string, data: string) {
    name != "" && data != "" && HasField(frame, "event:", name) && HasField(frame, "data:", data)
  }

  ghost predicate IsReadable<T>(codec: Codec<T>, frame: string) {
    exists name, data :: IsEventFrame(frame, name, data) && codec.decode(data).Some?
  }

  ghost predicate IsBad<T>(codec: Codec<T>, frame: string) {
    exists name, data :: IsEventFrame(frame, name, data) && codec.decode(data).None?
  }

  ghost predicate Says<T>(codec: Codec<T>, frame: string, event: Event<T>) {
    exists data :: IsEventFrame(frame, event.name, data) && codec.decode(data) == Some(event.data)
  }

  ghost function Readable<T>(codec: Codec<T>): string -> bool {
    frame => IsReadable(codec, frame)
  }

  ghost function Saying<T>(codec: Codec<T>): (string, Event<T>) -> bool {
    (frame, event) => Says(codec, frame, event)
  }

  /** One event for each frame that says one, in order, up to the first frame whose payload does not parse. */
  ghost predicate IsDelivery<T>(codec: Codec<T>, frames: seq<string>, outcome: Outcome<T>) {
    exists k | 0 <= k <= |frames| ::
      && (forall i :: 0 <= i < k ==> !IsBad(codec, frames[i])) && (k < |frames| ==> IsBad(codec, frames[k]))
      && (outcome.threw <==> k < |frames|)
      && Corresponds(Readable(codec), Saying(codec), frames[..k], outcome.events)
  }

  lemma {:induction false} FieldIs(lines: seq<string>, prefix: string)
    ensures FieldValue(lines, prefix).None? ==> forall j :: 0 <= j < |lines| ==> !(prefix <= lines[j])
    ensures FieldValue(lines, prefix).Some? ==>
              exists i | 0 <= i < |lines| ::
                && prefix <= lines[i] && FieldValue(lines, prefix).value == Trim(lines[i][|prefix|..])
                && forall j :: 0 <= j < i ==> !(prefix <= lines[j])
  {
    if lines != [] && !StartsWith(lines[0], prefix) {
      var rest := lines[1..];
      FieldIs(rest, prefix);
      assert forall j :: 0 < j < |lines| ==> lines[j] == rest[j - 1];
      if FieldValue(rest, prefix).Some? {
        var i :| 0 <= i < |rest| && prefix <= rest[i]
                 && FieldValue(rest, prefix).value == Trim(rest[i][|prefix|..])
                 && forall j :: 0 <= j < i ==> !(prefix <= rest[j]);
        assert lines[i + 1] == rest[i];
        assert forall j :: 0 <= j < i + 1 ==> !(prefix <= lines[j]);
      }
    }
  }

  lemma {:induction false} FieldOfFrame(frame: string, prefix: string)
    ensures forall value :: HasField(frame, prefix, value) <==> FieldValue(Lines(frame), prefix) == Some(value)
  {
    hide Lines, Trim;
    FieldIs(Lines(frame), prefix);
  }

  lemma {:induction false} FrameIs(frame: string)
    ensures forall name, data :: IsEventFrame(frame, name, data) <==> FrameFields(frame) == Some((name, data))
  {
    hide HasField, FieldValue, Lines;
    FieldOfFrame(frame, "event:");
    FieldOfFrame(frame, "data:");
  }

  lemma {:induction false} FrameSays<T>(codec: Codec<T>, frame: string)
    ensures var outcome := FrameOutcome(codec, frame);
            && (outcome.threw <==> IsBad(codec, frame))
            && (if IsReadable(codec, frame) then |outcome.events| == 1 && Says(codec, frame, outcome.events[0])
                else outcome.events == [])
  {
    hide IsEventFrame, FrameFields;
    FrameIs(frame);
  }

  lemma {:induction false} DeliverSnoc<T>(codec: Codec<T>, frames: seq<string>, k: nat)
    requires k < |frames| && !Deliver(codec, frames[..k]).threw
    ensures Deliver(codec, frames[..k + 1])
         == Outcome(Deliver(codec, frames[..k]).events + FrameOutcome(codec, frames[k]).events,
                    FrameOutcome(codec, frames[k]).threw)
  {
    assert frames[..k + 1] == frames[..k] + [frames[k]];
    DeliverAppend(codec, frames[..k], [frames[k]]);
    DeliverOne(codec, frames[k]);
  }

  lemma {:induction false} DeliveredSoFar<T>(codec: Codec<T>, frames: seq<string>, k: nat)
    requires k <= |frames| && forall i :: 0 <= i < k ==> !IsBad(codec, frames[i])
    ensures !Deliver(codec, frames[..k]).threw
    ensures Corresponds(Readable(codec), Saying(codec), frames[..k], Deliver(codec, frames[..k]).events)
  {
    hide FrameOutcome, IsBad, IsReadable, Says;
    if k > 0 {
      DeliveredSoFar(codec, frames, k - 1);
      DeliverSnoc(codec, frames, k - 1);
      FrameSays(codec, frames[k - 1]);
      CorrespondsSnoc(Readable(codec), Saying(codec), frames[..k - 1], Deliver(codec, frames[..k - 1]).events,
                      frames[k - 1], FrameOutcome(codec, frames[k - 1]).events);
      assert frames[..k - 1] + [frames[k - 1]] == frames[..k];
    }
  }

  lemma {:induction false} FirstBad<T>(codec: Codec<T>, frames: seq<string>, from: nat) returns (k: nat)
    requires from <= |frames| && forall i :: 0 <= i < from ==> !IsBad(codec, frames[i])
    ensures k <= |frames| && (forall i :: 0 <= i < k ==> !IsBad(codec, frames[i]))
    ensures k < |frames| ==> IsBad(codec, frames[k])
    decreases |frames| - from
  {
    if from == |frames| || IsBad(codec, frames[from]) {
      k := from;
    } else {
      k := FirstBad(codec, frames, from + 1);
    }
  }

  /** What is delivered of a list of frames is what the frames say. */
  lemma {:induction false} DeliverSays<T>(codec: Codec<T>, frames: seq<string>)
    ensures IsDelivery(codec, frames, Deliver(codec, frames))
  {
    hide FrameOutcome, IsBad, IsReadable, Says, Corresponds;
    var k := FirstBad(codec, frames, 0);
    DeliveredSoFar(codec, frames, k);
    if k < |frames| {
      DeliverSnoc(codec, frames, k);
      FrameSays(codec, frames[k]);
      BadSaysNothing(codec, frames[k]);
      assert frames[..k + 1] + frames[k + 1..] == frames;
      DeliverAppend(codec, frames[..k + 1], frames[k + 1..]);
      var events := Deliver(codec, frames[..k]).events;
      assert events + [] == events;
    } else {
      assert frames[..k] == frames;
    }
  }

  lemma {:induction false} BadSaysNothing<T>(codec: Codec<T>, frame: string)
    requires IsBad(codec, frame)
    ensures FrameOutcome(codec, frame).events == []
  {
    hide IsEventFrame, FrameFields;
    FrameIs(frame);
  }
}
