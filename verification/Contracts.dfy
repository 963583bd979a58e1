/**
 Data shared by the control plane and the worker: transcript entries, content items and run events.
 Optional properties of the wire format are `Option` values.
 */
module Contracts {

  datatype Option<+T> = None | Some(value: T)

  /** The value when there is one, otherwise the default (the `??` operator). */
  function GetOr<T>(o: Option<T>, default: T): T {
    if o.Some? then o.value else default
  }

  /** The empty string counts as absent. */
  function NonEmpty(o: Option<string>): Option<string> {
    if o == Some("") then None else o
  }

  /** A value the caller is handed, or an exception. */
  datatype Result<+T, +E> = Success(value: T) | Failure(error: E)

  /** A printer and its parser, such as `JSON.stringify` and `JSON.parse`; `None` is a thrown error. */
  datatype Codec<!T> = Codec(encode: T -> string, decode: string -> Option<T>)

  datatype MediaKind = Image | Video

  datatype ToolStatus = Started | Completed | Error

  datatype ContentItem =
    | Text(text: string)
    | Media(kind: MediaKind, url: string)
    | ToolCall(toolCallId: string, toolName: string, status: ToolStatus,
               arguments: Option<string>, result: Option<string>, error: Option<string>)

  /** Only a user entry may be a root; process and assistant entries always have a parent. */
  datatype Entry =
    | User(id: string, rootOrParent: Option<string>, createdAt: string,
           content: seq<ContentItem>, input: seq<ContentItem>)
    | Process(id: string, parentId: string, createdAt: string, content: seq<ContentItem>)
    | Assistant(id: string, parentId: string, createdAt: string, content: seq<ContentItem>)
  {
    function Parent(): Option<string> {
      if User? then rootOrParent else Some(parentId)
    }
  }

  datatype RunEvent =
    | ProcessDelta(entryId: string, parentId: string, text: string)
    | Action(status: ToolStatus, entryId: string, parentId: string, toolCallId: string, name: string,
             arguments: Option<string>, result: Option<string>, error: Option<string>)
    | OutputDelta(entryId: string, parentId: string, text: string)
    | OutputCompleted(entryId: string)
    | RunFailed(entryId: string, parentId: string, code: string, message: string)

  /** What a run ends with. */
  datatype Completion = Completion(piSessionFile: Option<string>)

  lemma {:induction false} AppendAssociates<T>(a: seq<T>, b: seq<T>, c: seq<T>)
    ensures a + (b + c) == a + b + c
  {
  }

  lemma {:induction false} PrefixSplits<T>(s: seq<T>, b: nat, n: nat)
    requires b <= n <= |s|
    ensures s[..n] == s[..b] + s[b..n]
  {
  }

  /** Concatenation of the images of the elements (`flatMap`). */
  function FlatMap<A, B>(f: A -> seq<B>, s: seq<A>): seq<B> {
    if s == [] then [] else FlatMap(f, s[..|s| - 1]) + f(s[|s| - 1])
  }

  lemma {:induction false} FlatMapAppend<A, B>(f: A -> seq<B>, s: seq<A>, t: seq<A>)
    ensures FlatMap(f, s + t) == FlatMap(f, s) + FlatMap(f, t)
  {
    if t == [] {
      assert s + t == s;
    } else {
      var front := t[..|t| - 1];
      assert (s + t)[..|s + t| - 1] == s + front;
      FlatMapAppend(f, s, front);
    }
  }

  lemma {:induction false} FlatMapOne<A, B>(f: A -> seq<B>, x: A)
    ensures FlatMap(f, [x]) == f(x)
  {
    assert [x][..0] == [];
  }

  /** One more element, as loops append it. */
  lemma {:induction false} FlatMapSnoc<A, B>(f: A -> seq<B>, s: seq<A>, i: nat)
    requires i < |s|
    ensures FlatMap(f, s[..i + 1]) == FlatMap(f, s[..i]) + f(s[i])
  {
    assert s[..i + 1][..i] == s[..i];
  }

  // ----- what a result says of its input, item by item -----

  /** The optional string unless it is empty. */
  predicate ShowsOptional(given: Option<string>, shown: Option<string>) {
    if given.Some? && given.value != "" then shown == given else shown == None
  }

  /** How many elements count. */
  ghost function Count<T>(counts: T -> bool, s: seq<T>): nat {
    if s == [] then 0 else Count(counts, s[..|s| - 1]) + if counts(s[|s| - 1]) then 1 else 0
  }

  /** The result has one item for every element that counts, in order, and it is what the element calls for. */
  ghost predicate Corresponds<A, B>(counts: A -> bool, shows: (A, B) -> bool, s: seq<A>, result: seq<B>) {
    && |result| == Count(counts, s)
    && forall i :: 0 <= i < |s| && counts(s[i]) ==> ShownAt(counts, shows, s, result, i)
  }

  ghost predicate ShownAt<A, B>(counts: A -> bool, shows: (A, B) -> bool, s: seq<A>, result: seq<B>, i: nat)
    requires i < |s|
  {
    Count(counts, s[..i]) < |result| && shows(s[i], result[Count(counts, s[..i])])
  }

  lemma {:induction false} CorrespondsSnoc<A, B>(counts: A -> bool, shows: (A, B) -> bool, s: seq<A>, result: seq<B>,
                                                 last: A, more: seq<B>)
    requires Corresponds(counts, shows, s, result)
    requires if counts(last) then |more| == 1 && shows(last, more[0]) else more == []
    ensures Corresponds(counts, shows, s + [last], result + more)
  {
    var longer := s + [last];
    assert longer[..|longer| - 1] == s;
    forall i | 0 <= i < |longer| && counts(longer[i]) ensures ShownAt(counts, shows, longer, result + more, i) {
      if i < |s| {
        assert ShownAt(counts, shows, s, result, i);
        assert longer[..i] == s[..i];
      } else {
        assert longer[..i] == s;
      }
    }
  }

  /** A map with at most one image an element corresponds. */
  lemma {:induction false} FlatMapCorresponds<A, B>(counts: A -> bool, shows: (A, B) -> bool, f: A -> seq<B>, s: seq<A>)
    requires forall i :: 0 <= i < |s| ==>
               if counts(s[i]) then |f(s[i])| == 1 && shows(s[i], f(s[i])[0]) else f(s[i]) == []
    ensures Corresponds(counts, shows, s, FlatMap(f, s))
  {
    if s != [] {
      var front, last := s[..|s| - 1], s[|s| - 1];
      assert forall i :: 0 <= i < |front| ==> front[i] == s[i];
      FlatMapCorresponds(counts, shows, f, front);
      CorrespondsSnoc(counts, shows, front, FlatMap(f, front), last, f(last));
      assert front + [last] == s;
    }
  }

  /** The pieces one after the other. */
  function Joined<T>(pieces: seq<seq<T>>): seq<T> {
    if pieces == [] then [] else pieces[0] + Joined(pieces[1..])
  }

  lemma {:induction false} JoinedSnoc<T>(pieces: seq<seq<T>>, last: seq<T>)
    ensures Joined(pieces + [last]) == Joined(pieces) + last
  {
    if pieces == [] {
      assert [last][1..] == [] && last + [] == [] + last;
      assert [] + [last] == [last];
    } else {
      JoinedSnoc(pieces[1..], last);
      assert (pieces + [last])[1..] == pieces[1..] + [last];
      AppendAssociates(pieces[0], Joined(pieces[1..]), last);
    }
  }

  lemma {:induction false} FlatMapJoins<A, B>(f: A -> seq<B>, s: seq<A>, pieces: seq<seq<B>>)
    requires |pieces| == |s| && forall i :: 0 <= i < |s| ==> pieces[i] == f(s[i])
    ensures FlatMap(f, s) == Joined(pieces)
  {
    if s != [] {
      var front := pieces[..|s| - 1];
      FlatMapJoins(f, s[..|s| - 1], front);
      JoinedSnoc(front, pieces[|s| - 1]);
      assert pieces == front + [pieces[|s| - 1]];
    }
  }
}
