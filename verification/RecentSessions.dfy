/**
 The recent-session list: `listUserSessions` of `postgres-session-repository.ts`, keyset pagination over a projection
 that may change between pages.
 */
module RecentSessions {
  import opened Contracts
  import Store = SessionStore

  const DEFAULT_LIMIT: nat := 20

  datatype Item = Item(sessionId: string, sessionName: string, lastActiveAt: string)

  datatype Cursor = Cursor(lastActiveAt: string, sessionId: string)

  datatype Page = Page(items: seq<Item>, nextCursor: Option<string>, hasMore: bool)

  datatype ListError = InvalidCursor

  /** Cursors are JSON in base64url (RFC 4648, section 5): they decode to what was encoded and are not empty. */
  ghost predicate IsLawful(codec: Codec<Cursor>) {
    forall c :: codec.decode(codec.encode(c)) == Some(c) && codec.encode(c) != ""
  }

  // ----- the order -----

  predicate StringLess(a: string, b: string) {
    b != "" && (a == "" || a[0] < b[0] || (a[0] == b[0] && StringLess(a[1..], b[1..])))
  }

  lemma {:induction false} StringOrder(a: string, b: string)
    ensures !(StringLess(a, b) && StringLess(b, a))
    ensures a == b <==> !StringLess(a, b) && !StringLess(b, a)
  {
    if a != "" && b != "" {
      StringOrder(a[1..], b[1..]);
      assert a == [a[0]] + a[1..] && b == [b[0]] + b[1..];
    }
  }

  lemma {:induction false} StringLessTransitive(a: string, b: string, c: string)
    requires StringLess(a, b) && StringLess(b, c)
    ensures StringLess(a, c)
  {
    if a != "" && a[0] == b[0] == c[0] {
      StringLessTransitive(a[1..], b[1..], c[1..]);
    }
  }

  /** Older activity first, session ids breaking ties. */
  predicate Less(a: Cursor, b: Cursor) {
    || StringLess(a.lastActiveAt, b.lastActiveAt)
    || (a.lastActiveAt == b.lastActiveAt && StringLess(a.sessionId, b.sessionId))
  }

  lemma {:induction false} LessOrder(a: Cursor, b: Cursor)
    ensures !(Less(a, b) && Less(b, a))
    ensures a == b <==> !Less(a, b) && !Less(b, a)
  {
    StringOrder(a.lastActiveAt, b.lastActiveAt);
    StringOrder(a.sessionId, b.sessionId);
  }

  lemma {:induction false} LessTransitive(a: Cursor, b: Cursor, c: Cursor)
    requires Less(a, b) && Less(b, c)
    ensures Less(a, c)
  {
    if StringLess(a.lastActiveAt, b.lastActiveAt) && StringLess(b.lastActiveAt, c.lastActiveAt) {
      StringLessTransitive(a.lastActiveAt, b.lastActiveAt, c.lastActiveAt);
    }
    if StringLess(a.sessionId, b.sessionId) && StringLess(b.sessionId, c.sessionId) {
      StringLessTransitive(a.sessionId, b.sessionId, c.sessionId);
    }
  }

  function Key(item: Item): Cursor {
    Cursor(item.lastActiveAt, item.sessionId)
  }

  // ----- the query -----

  /** A user's rows of the projection. */
  function Rows(recent: map<Store.RecentKey, Store.RecentRow>, userId: string): (rows: set<Item>)
    ensures Apart(rows)
  {
    set key | key in recent && key.userId == userId ::
      Item(key.sessionId, recent[key].sessionName, recent[key].lastActiveAt)
  }

  /** No session has two rows. */
  ghost predicate Apart(rows: set<Item>) {
    forall a, b :: a in rows && b in rows && a.sessionId == b.sessionId ==> a == b
  }

  function Below(rows: set<Item>, cursor: Option<Cursor>): (below: set<Item>)
    ensures below <= rows
  {
    if cursor.None? then rows else set item | item in rows && Less(Key(item), cursor.value)
  }

  ghost predicate IsTop(rows: set<Item>, top: Item) {
    top in rows && forall other :: other in rows && other != top ==> Less(Key(other), Key(top))
  }

  lemma {:induction false} TopExists(rows: set<Item>)
    requires Apart(rows) && rows != {}
    ensures exists top :: IsTop(rows, top)
    decreases |rows|
  {
    var item :| item in rows;
    var rest := rows - {item};
    if rest == {} {
      assert forall other :: other in rows && other != item ==> other in rest;
      assert IsTop(rows, item);
    } else {
      TopExists(rest);
      var top :| IsTop(rest, top);
      LessOrder(Key(item), Key(top));
      assert top in rows && Key(item) != Key(top);
      if Less(Key(item), Key(top)) {
        assert IsTop(rows, top);
      } else {
        forall other | other in rows && other != item ensures Less(Key(other), Key(item)) {
          assert other in rest;
          if other != top {
            LessTransitive(Key(other), Key(top), Key(item));
          }
        }
        assert IsTop(rows, item);
      }
    }
  }

  /** `order by lastActiveAt desc, sessionId desc`. */
  ghost function Ranked(rows: set<Item>): (ranked: seq<Item>)
    requires Apart(rows)
    ensures |ranked| == |rows|
    decreases |rows|
  {
    if rows == {} then []
    else
      TopExists(rows);
      var top :| IsTop(rows, top);
      [top] + Ranked(rows - {top})
  }

  lemma {:induction false} RankedSorts(rows: set<Item>)
    requires Apart(rows)
    ensures IsDescending(Ranked(rows)) && forall item :: item in Ranked(rows) <==> item in rows
    decreases |rows|
  {
    if rows != {} {
      var top := Ranked(rows)[0];
      TopExists(rows);
      assert Ranked(rows) == [top] + Ranked(rows - {top}) && IsTop(rows, top);
      RankedSorts(rows - {top});
    }
  }

  ghost predicate IsDescending(items: seq<Item>) {
    forall i, j :: 0 <= i < j < |items| ==> Less(Key(items[j]), Key(items[i]))
  }

  function AtMost(items: seq<Item>, limit: nat): seq<Item> {
    if |items| > limit then items[..limit] else items
  }

  /** At most `limit` rows below the cursor, best first. */
  ghost function Query(rows: set<Item>, cursor: Option<Cursor>, limit: nat): seq<Item>
    requires Apart(rows)
  {
    AtMost(Ranked(Below(rows, cursor)), limit)
  }

  /** The page made of the answer to a query for one row more than the limit. */
  function PageOf(codec: Codec<Cursor>, found: seq<Item>, limit: nat): Page {
    var hasMore := |found| > limit;
    var items := if hasMore then found[..limit] else found;
    Page(items, if hasMore && items != [] then Some(codec.encode(Key(items[|items| - 1]))) else None, hasMore)
  }

  /** An absent or empty cursor starts at the top. */
  function ReadCursor(codec: Codec<Cursor>, cursor: Option<string>): Result<Option<Cursor>, ListError> {
    if cursor.None? || cursor.value == "" then Success(None)
    else
      var decoded := codec.decode(cursor.value);
      if decoded.None? then Failure(InvalidCursor) else Success(decoded)
  }

  ghost function ListUserSessions(codec: Codec<Cursor>, recent: map<Store.RecentKey, Store.RecentRow>,
                                  userId: string, limit: Option<nat>, cursor: Option<string>): Result<Page, ListError> {
    var rows := Rows(recent, Store.NormalizeUserId(userId));
    var n := GetOr(limit, DEFAULT_LIMIT);
    var from := ReadCursor(codec, cursor);
    if from.Failure? then Failure(from.error) else Success(PageOf(codec, Query(rows, from.value, n + 1), n))
  }

  // ----- what a page says -----

  /** The texts agree up to `i`, where the first one ends or has the smaller character. */
  ghost predicate DiffersAt(a: string, b: string, i: nat)
    requires i <= |a| && i <= |b|
  {
    a[..i] == b[..i] && i < |b| && (i == |a| || (i < |a| && a[i] < b[i]))
  }

  /** Texts are compared at their first difference; a beginning comes first. */
  lemma {:induction false} StringLessIs(a: string, b: string)
    ensures StringLess(a, b) <==> exists i | 0 <= i <= |a| && i <= |b| :: DiffersAt(a, b, i)
  {
    if a != "" && b != "" && a[0] == b[0] {
      StringLessIs(a[1..], b[1..]);
      SameFirstCharacter(a, b);
    } else if StringLess(a, b) {
      assert DiffersAt(a, b, 0);
    } else {
      forall i | 0 < i <= |a| && i <= |b| ensures !DiffersAt(a, b, i) {
        assert a[..i][0] == a[0] && b[..i][0] == b[0];
      }
    }
  }

  lemma {:induction false} SameFirstCharacter(a: string, b: string)
    requires a != "" && b != "" && a[0] == b[0]
    ensures (exists i | 0 <= i <= |a| && i <= |b| :: DiffersAt(a, b, i))
            <==> exists i | 0 <= i <= |a[1..]| && i <= |b[1..]| :: DiffersAt(a[1..], b[1..], i)
  {
    forall i: nat | i <= |a[1..]| && i <= |b[1..]| ensures DiffersAt(a[1..], b[1..], i) <==> DiffersAt(a, b, i + 1) {
      assert a[..i + 1] == [a[0]] + a[1..][..i] && b[..i + 1] == [b[0]] + b[1..][..i];
    }
    forall i: nat | i <= |a| && i <= |b| && DiffersAt(a, b, i)
      ensures i > 0 && DiffersAt(a[1..], b[1..], i - 1)
    {
      assert DiffersAt(a[1..], b[1..], i - 1) <==> DiffersAt(a, b, (i - 1) + 1);
    }
  }

  /** Less recently active than the cursor's row, or equally so and under a smaller session id. */
  predicate ComesAfter(item: Item, cursor: Cursor) {
    || StringLess(item.lastActiveAt, cursor.lastActiveAt)
    || (item.lastActiveAt == cursor.lastActiveAt && StringLess(item.sessionId, cursor.sessionId))
  }

  /** A row of the user's list. */
  predicate IsRow(recent: map<Store.RecentKey, Store.RecentRow>, owner: string, item: Item) {
    var key := Store.RecentKey(owner, item.sessionId);
    key in recent && recent[key] == Store.RecentRow(item.sessionName, item.lastActiveAt)
  }

  predicate IsCandidate(recent: map<Store.RecentKey, Store.RecentRow>, owner: string, cursor: Option<Cursor>,
                        item: Item)
  {
    IsRow(recent, owner, item) && (cursor.Some? ==> ComesAfter(item, cursor.value))
  }

  /**
   A page holds rows of the user after the cursor, the most recent first. It leaves rows out only when it is full, and
   only rows after its last one; there is more exactly when it does, and the next cursor names its last row.
   */
  ghost predicate IsPageOf(codec: Codec<Cursor>, recent: map<Store.RecentKey, Store.RecentRow>, owner: string,
                           cursor: Option<Cursor>, limit: nat, page: Page)
  {
    && |page.items| <= limit
    && (forall i :: 0 <= i < |page.items| ==> IsCandidate(recent, owner, cursor, page.items[i]))
    && (forall i, j :: 0 <= i < j < |page.items| ==>
          ComesAfter(page.items[j], Cursor(page.items[i].lastActiveAt, page.items[i].sessionId)))
    && (page.hasMore <==> exists item :: item !in page.items && IsCandidate(recent, owner, cursor, item))
    && (forall item :: item !in page.items && IsCandidate(recent, owner, cursor, item) ==>
          |page.items| == limit && (page.items != [] ==> ComesAfter(item, LastKey(page.items))))
    && page.nextCursor == if page.hasMore && page.items != [] then Some(codec.encode(LastKey(page.items))) else None
  }

  function LastKey(items: seq<Item>): Cursor
    requires items != []
  {
    Cursor(items[|items| - 1].lastActiveAt, items[|items| - 1].sessionId)
  }

  /** A request: the cursor it carries, if any, or none when it cannot be read. */
  ghost predicate Answers(codec: Codec<Cursor>, recent: map<Store.RecentKey, Store.RecentRow>, userId: string,
                          limit: Option<nat>, cursor: Option<string>, r: Result<Page, ListError>)
  {
    var given := cursor.Some? && cursor.value != "";
    if given && codec.decode(cursor.value).None? then r == Failure(InvalidCursor)
    else r.Success? && IsPageOf(codec, recent, Store.NormalizeUserId(userId),
                                if given then codec.decode(cursor.value) else None,
                                if limit.Some? then limit.value else 20, r.value)
  }

  lemma {:induction false} CandidatesAre(recent: map<Store.RecentKey, Store.RecentRow>, owner: string,
                                         cursor: Option<Cursor>)
    ensures forall item :: item in Below(Rows(recent, owner), cursor) <==> IsCandidate(recent, owner, cursor, item)
  {
    hide StringLess;
    forall item ensures item in Rows(recent, owner) <==> IsRow(recent, owner, item) {
      RowIs(recent, owner, item);
    }
  }

  lemma {:induction false} RowIs(recent: map<Store.RecentKey, Store.RecentRow>, owner: string, item: Item)
    ensures item in Rows(recent, owner) <==> IsRow(recent, owner, item)
  {
    if IsRow(recent, owner, item) {
      var key := Store.RecentKey(owner, item.sessionId);
      assert key in recent && key.userId == owner;
    }
  }

  lemma {:induction false} TopSays(left: seq<Item>, limit: nat)
    requires IsDescending(left)
    ensures var top := AtMost(left, limit);
            && |top| <= limit && IsDescending(top) && (forall i :: 0 <= i < |top| ==> top[i] in left)
            && (|left| > limit <==> exists item :: item in left && item !in top)
            && forall item :: item in left && item !in top ==>
                 |top| == limit && (top != [] ==> Less(Key(item), Key(top[|top| - 1])))
  {
    hide Less;
    var top := AtMost(left, limit);
    assert forall i :: 0 <= i < |top| ==> top[i] == left[i];
    forall item | item in left && item !in top
      ensures |left| > limit && (top != [] ==> Less(Key(item), Key(top[|top| - 1])))
    {
      var i :| 0 <= i < |left| && left[i] == item;
    }
    if |left| > limit {
      NotListedTwice(left, limit);
    }
  }

  lemma {:induction false} NotListedTwice(left: seq<Item>, k: nat)
    requires IsDescending(left) && k < |left|
    ensures left[k] in left && left[k] !in left[..k]
  {
    forall i | 0 <= i < k ensures left[i] != left[k] {
      LessOrder(Key(left[k]), Key(left[i]));
    }
  }

  lemma {:induction false} PageSays(codec: Codec<Cursor>, left: seq<Item>, limit: nat)
    ensures var page := PageOf(codec, AtMost(left, limit + 1), limit);
            && page.items == AtMost(left, limit) && (page.hasMore <==> |left| > limit)
            && page.nextCursor
               == if page.hasMore && page.items != [] then Some(codec.encode(LastKey(page.items))) else None
  {
    if |left| > limit + 1 {
      assert left[..limit + 1][..limit] == left[..limit];
    }
  }

  lemma {:induction false} QuerySays(codec: Codec<Cursor>, recent: map<Store.RecentKey, Store.RecentRow>,
                                     owner: string, cursor: Option<Cursor>, limit: nat)
    ensures IsPageOf(codec, recent, owner, cursor, limit,
                     PageOf(codec, Query(Rows(recent, owner), cursor, limit + 1), limit))
  {
    hide Rows, Below, Ranked, AtMost, PageOf, IsCandidate, StringLess;
    var left := Ranked(Below(Rows(recent, owner), cursor));
    CandidatesAre(recent, owner, cursor);
    RankedSorts(Below(Rows(recent, owner), cursor));
    TopSays(left, limit);
    PageSays(codec, left, limit);
    DescendingSays(AtMost(left, limit));
  }

  lemma {:induction false} DescendingSays(items: seq<Item>)
    requires IsDescending(items)
    ensures forall i, j :: 0 <= i < j < |items| ==>
              ComesAfter(items[j], Cursor(items[i].lastActiveAt, items[i].sessionId))
  {
  }

  /** Listing answers every request like that, whatever the table holds. */
  lemma {:induction false} ListSays(codec: Codec<Cursor>, recent: map<Store.RecentKey, Store.RecentRow>,
                                    userId: string, limit: Option<nat>, cursor: Option<string>)
    ensures Answers(codec, recent, userId, limit, cursor, ListUserSessions(codec, recent, userId, limit, cursor))
  {
    hide Rows, Query, PageOf, IsPageOf, Store.NormalizeUserId;
    var from := ReadCursor(codec, cursor);
    if from.Success? {
      QuerySays(codec, recent, Store.NormalizeUserId(userId), from.value,
                if limit.Some? then limit.value else 20);
    }
  }

  // ----- an unchanging table -----

  lemma {:induction false} NoMembers(items: seq<Item>)
    ensures items == [] <==> forall item :: item !in items
  {
    if items != [] {
      assert items[0] in items;
    }
  }

  lemma {:induction false} DescendingUnique(a: seq<Item>, b: seq<Item>)
    requires IsDescending(a) && IsDescending(b)
    requires forall item :: item in a <==> item in b
    ensures a == b
  {
    NoMembers(a);
    NoMembers(b);
    if a != [] {
      SameFirst(a, b);
      forall item ensures item in a[1..] <==> item in b[1..] {
        RestMembers(a, item);
        RestMembers(b, item);
      }
      DescendingUnique(a[1..], b[1..]);
      assert a == [a[0]] + a[1..] && b == [b[0]] + b[1..];
    }
  }

  lemma {:induction false} SameFirst(a: seq<Item>, b: seq<Item>)
    requires IsDescending(a) && IsDescending(b) && a != [] && b != []
    requires forall item :: item in a <==> item in b
    ensures a[0] == b[0]
  {
    assert a[0] in b && b[0] in a;
    LessOrder(Key(a[0]), Key(b[0]));
  }

  lemma {:induction false} RestMembers(a: seq<Item>, item: Item)
    requires IsDescending(a) && a != []
    ensures item in a[1..] <==> item in a && item != a[0]
  {
    forall i | 1 <= i < |a| ensures a[i] != a[0] {
      LessOrder(Key(a[i]), Key(a[0]));
    }
  }

  /** The cursor of a page that ended after `i` rows. */
  ghost function CursorAt(rows: set<Item>, i: nat): Option<Cursor>
    requires Apart(rows) && i <= |rows|
  {
    if i == 0 then None else Some(Key(Ranked(rows)[i - 1]))
  }

  lemma {:induction false} RestIsBelow(ranked: seq<Item>, i: nat, item: Item)
    requires IsDescending(ranked) && 0 < i <= |ranked|
    ensures item in ranked[i..] <==> item in ranked && Less(Key(item), Key(ranked[i - 1]))
  {
    if item in ranked {
      var k :| 0 <= k < |ranked| && ranked[k] == item;
      LessOrder(Key(item), Key(ranked[i - 1]));
    }
  }

  /** What is below the cursor is what the listing has left. */
  lemma {:induction false} RankedBelow(rows: set<Item>, i: nat)
    requires Apart(rows) && i <= |rows|
    ensures Ranked(Below(rows, CursorAt(rows, i))) == Ranked(rows)[i..]
  {
    var ranked, below := Ranked(rows), Below(rows, CursorAt(rows, i));
    if i > 0 {
      RankedSorts(rows);
      RankedSorts(below);
      forall item ensures item in ranked[i..] <==> item in Ranked(below) {
        RestIsBelow(ranked, i, item);
      }
      DescendingUnique(Ranked(below), ranked[i..]);
    }
  }

  /** Reading one row more than the limit tells whether rows remain. */
  lemma {:induction false} PageOfFound(codec: Codec<Cursor>, left: seq<Item>, limit: nat)
    requires limit >= 1
    ensures var page := PageOf(codec, AtMost(left, limit + 1), limit);
            && (page.hasMore <==> |left| > limit)
            && page.items == AtMost(left, limit)
            && page.nextCursor == if |left| > limit then Some(codec.encode(Key(left[limit - 1]))) else None
  {
    if |left| > limit + 1 {
      assert left[..limit + 1][..limit] == left[..limit];
    }
  }

  // ----- following the cursor -----

  function CursorFor(pages: seq<Page>, k: nat): Option<string>
    requires k <= |pages|
  {
    if k == 0 then None else pages[k - 1].nextCursor
  }

  /** The client asked for this page with the `nextCursor` of the page before; every page reads its own table. */
  ghost predicate AnswersRequest(codec: Codec<Cursor>, tables: seq<map<Store.RecentKey, Store.RecentRow>>,
                                 userId: string, limit: nat, pages: seq<Page>, k: nat)
    requires k < |pages| == |tables|
  {
    && (k > 0 ==> CursorFor(pages, k).Some?)
    && ListUserSessions(codec, tables[k], userId, Some(limit), CursorFor(pages, k)) == Success(pages[k])
  }

  /** A client starts without a cursor and goes on while there is a next one. */
  ghost predicate IsTraversal(codec: Codec<Cursor>, tables: seq<map<Store.RecentKey, Store.RecentRow>>,
                              userId: string, limit: nat, pages: seq<Page>)
  {
    && |tables| == |pages|
    && forall k {:trigger AnswersRequest(codec, tables, userId, limit, pages, k)} ::
         0 <= k < |pages| ==> AnswersRequest(codec, tables, userId, limit, pages, k)
  }

  /** Everything the client has seen. */
  function Listed(pages: seq<Page>): seq<Item> {
    if pages == [] then [] else Listed(pages[..|pages| - 1]) + pages[|pages| - 1].items
  }

  lemma {:induction false} TraversalPrefix(codec: Codec<Cursor>, tables: seq<map<Store.RecentKey, Store.RecentRow>>,
                                           userId: string, limit: nat, pages: seq<Page>)
    requires IsTraversal(codec, tables, userId, limit, pages) && pages != []
    ensures IsTraversal(codec, tables[..|pages| - 1], userId, limit, pages[..|pages| - 1])
  {
    var front, before := pages[..|pages| - 1], tables[..|pages| - 1];
    forall k | 0 <= k < |front| ensures AnswersRequest(codec, before, userId, limit, front, k) {
      assert AnswersRequest(codec, tables, userId, limit, pages, k);
      assert CursorFor(front, k) == CursorFor(pages, k);
    }
  }

  /**
   What the client has seen is the top of the ranked list; the last page has a next cursor, which stands after what was
   seen, exactly when rows remain, and then it took `limit` rows off what remained.
   */
  ghost predicate IsTopOfList(codec: Codec<Cursor>, ranked: seq<Item>, limit: nat, seen: seq<Item>, last: Page) {
    && seen <= ranked
    && (last.hasMore <==> |seen| < |ranked|)
    && (last.hasMore ==> |last.items| == limit && seen != []
                         && last.nextCursor == Some(codec.encode(Key(seen[|seen| - 1]))))
    && (!last.hasMore ==> last.nextCursor.None?)
  }

  lemma {:induction false} OneMorePage(codec: Codec<Cursor>, ranked: seq<Item>, seen: seq<Item>, limit: nat, page: Page)
    requires seen <= ranked && limit >= 1
    requires page == PageOf(codec, AtMost(ranked[|seen|..], limit + 1), limit)
    ensures IsTopOfList(codec, ranked, limit, seen + page.items, page)
  {
    PageOfFound(codec, ranked[|seen|..], limit);
  }

  lemma {:induction false} NextPageExtends(codec: Codec<Cursor>, recent: map<Store.RecentKey, Store.RecentRow>,
                                           userId: string, limit: nat, cursor: Option<string>,
                                           rows: set<Item>, seen: seq<Item>, page: Page)
    requires Apart(rows) && limit >= 1 && seen <= Ranked(rows)
    requires Rows(recent, Store.NormalizeUserId(userId)) == rows
    requires ReadCursor(codec, cursor) == Success(CursorAt(rows, |seen|))
    requires ListUserSessions(codec, recent, userId, Some(limit), cursor) == Success(page)
    ensures IsTopOfList(codec, Ranked(rows), limit, seen + page.items, page)
  {
    hide Ranked, IsTopOfList, Rows, Below, CursorAt, ReadCursor, AtMost, PageOf, Apart, Store.NormalizeUserId;
    RankedBelow(rows, |seen|);
    assert page == PageOf(codec, AtMost(Ranked(rows)[|seen|..], limit + 1), limit);
    OneMorePage(codec, Ranked(rows), seen, limit, page);
  }

  /**
   On an unchanging table the pages are the top of the whole ranked list without gap or repeat, there is a next cursor
   exactly when rows remain, and each page with a next cursor takes `limit` rows off what remains.
   */
  lemma {:induction false} UnchangingTable(codec: Codec<Cursor>, tables: seq<map<Store.RecentKey, Store.RecentRow>>,
                                           userId: string, limit: nat, pages: seq<Page>, rows: set<Item>)
    requires IsLawful(codec) && limit >= 1 && pages != [] && Apart(rows)
    requires IsTraversal(codec, tables, userId, limit, pages)
    requires forall k :: 0 <= k < |tables| ==> Rows(tables[k], Store.NormalizeUserId(userId)) == rows
    ensures IsTopOfList(codec, Ranked(rows), limit, Listed(pages), pages[|pages| - 1])
  {
    var n := |pages|;
    var front := pages[..n - 1];
    if n > 1 {
      TraversalPrefix(codec, tables, userId, limit, pages);
      UnchangingTable(codec, tables[..n - 1], userId, limit, front, rows);
      assert front[n - 2] == pages[n - 2];
    }
    assert AnswersRequest(codec, tables, userId, limit, pages, n - 1);
    NextPageExtends(codec, tables[n - 1], userId, limit, CursorFor(pages, n - 1), rows, Listed(front), pages[n - 1]);
  }

  lemma {:induction false} PageSize(codec: Codec<Cursor>, tables: seq<map<Store.RecentKey, Store.RecentRow>>,
                                    userId: string, limit: nat, pages: seq<Page>, k: nat)
    requires IsTraversal(codec, tables, userId, limit, pages) && k < |pages|
    ensures |pages[k].items| <= limit && (pages[k].hasMore || k < |pages| - 1 ==> |pages[k].items| == limit)
  {
    assert AnswersRequest(codec, tables, userId, limit, pages, k);
    if k < |pages| - 1 {
      assert AnswersRequest(codec, tables, userId, limit, pages, k + 1);
    }
  }

  lemma {:induction false} ListedLength(pages: seq<Page>, limit: nat)
    requires pages != [] && forall k :: 0 <= k < |pages| - 1 ==> |pages[k].items| == limit
    ensures |Listed(pages)| == (|pages| - 1) * limit + |pages[|pages| - 1].items|
  {
    var front := pages[..|pages| - 1];
    if front != [] {
      ListedLength(front, limit);
      assert (|front| - 1) * limit + limit == |front| * limit;
    }
  }

  /** Following the cursors of an unchanging table lists everything and ends on the page that the rows fill up last. */
  lemma {:induction false} WalkEnds(codec: Codec<Cursor>, tables: seq<map<Store.RecentKey, Store.RecentRow>>,
                                    userId: string, limit: nat, pages: seq<Page>, rows: set<Item>)
    requires IsLawful(codec) && limit >= 1 && pages != [] && Apart(rows)
    requires IsTraversal(codec, tables, userId, limit, pages)
    requires forall k :: 0 <= k < |tables| ==> Rows(tables[k], Store.NormalizeUserId(userId)) == rows
    ensures pages[|pages| - 1].hasMore <==> |pages| * limit < |rows|
    ensures !pages[|pages| - 1].hasMore <==> Listed(pages) == Ranked(rows)
  {
    UnchangingTable(codec, tables, userId, limit, pages, rows);
    forall k | 0 <= k < |pages|
      ensures |pages[k].items| <= limit && (pages[k].hasMore || k < |pages| - 1 ==> |pages[k].items| == limit)
    {
      PageSize(codec, tables, userId, limit, pages, k);
    }
    ListedLength(pages, limit);
    assert (|pages| - 1) * limit + limit == |pages| * limit;
  }

  // ----- a table that changes between the pages -----

  /** A page lists candidates in order, and leaves out only those below its last row. */
  ghost predicate IsPage(rows: set<Item>, floor: Option<Cursor>, page: Page) {
    && IsDescending(page.items)
    && (forall item :: item in page.items ==> item in Below(rows, floor))
    && (page.hasMore ==> page.items != [])
    && (forall item :: item in Below(rows, floor) && item !in page.items ==>
          page.hasMore && Less(Key(item), Key(page.items[|page.items| - 1])))
  }

  lemma {:induction false} FoundMakesPage(codec: Codec<Cursor>, rows: set<Item>, floor: Option<Cursor>,
                                          left: seq<Item>, limit: nat)
    requires limit >= 1 && IsDescending(left) && forall item :: item in left <==> item in Below(rows, floor)
    ensures IsPage(rows, floor, PageOf(codec, AtMost(left, limit + 1), limit))
  {
    hide PageOf, Less, Below, IsDescending;
    PageOfFound(codec, left, limit);
    TopOfDescending(left, limit);
  }

  /** What a beginning of a descending list leaves out comes after its last item. */
  lemma {:induction false} TopOfDescending(left: seq<Item>, limit: nat)
    requires limit >= 1 && IsDescending(left)
    ensures var top := AtMost(left, limit);
            && IsDescending(top) && (forall item :: item in top ==> item in left)
            && forall item :: item in left && item !in top ==>
                 |left| > limit && Less(Key(item), Key(top[|top| - 1]))
  {
    hide Less;
    var top := AtMost(left, limit);
    assert forall i :: 0 <= i < |top| ==> top[i] == left[i];
    forall item | item in left && item !in top ensures |left| > limit && Less(Key(item), Key(top[|top| - 1])) {
      var i :| 0 <= i < |left| && left[i] == item;
    }
  }

  lemma {:induction false} QueryMakesPage(codec: Codec<Cursor>, rows: set<Item>, floor: Option<Cursor>, limit: nat)
    requires Apart(rows) && limit >= 1
    ensures var page := PageOf(codec, Query(rows, floor, limit + 1), limit);
            && IsPage(rows, floor, page)
            && page.nextCursor == if page.hasMore then Some(codec.encode(Key(page.items[|page.items| - 1]))) else None
  {
    var left := Ranked(Below(rows, floor));
    RankedSorts(Below(rows, floor));
    FoundMakesPage(codec, rows, floor, left, limit);
    PageOfFound(codec, left, limit);
  }

  /** The last row of the page before. */
  function Floor(pages: seq<Page>, k: nat): Option<Cursor>
    requires k <= |pages|
  {
    if k == 0 || pages[k - 1].items == [] then None
    else Some(Key(pages[k - 1].items[|pages[k - 1].items| - 1]))
  }

  ghost predicate IsPageAt(times: seq<set<Item>>, pages: seq<Page>, k: nat)
    requires k < |pages| == |times|
  {
    IsPage(times[k], Floor(pages, k), pages[k]) && (k > 0 ==> pages[k - 1].hasMore)
  }

  /** Pages read one after the other, each from the user's rows at its own time. */
  ghost predicate Reads(times: seq<set<Item>>, pages: seq<Page>) {
    && |times| == |pages|
    && forall k {:trigger IsPageAt(times, pages, k)} :: 0 <= k < |pages| ==> IsPageAt(times, pages, k)
  }

  ghost function RowsAt(tables: seq<map<Store.RecentKey, Store.RecentRow>>, userId: string): (times: seq<set<Item>>)
    ensures |times| == |tables|
  {
    seq(|tables|, k requires 0 <= k < |tables| => Rows(tables[k], Store.NormalizeUserId(userId)))
  }

  /** A traversal reads its pages from the user's rows of its tables. */
  lemma {:induction false} TraversalReads(codec: Codec<Cursor>, tables: seq<map<Store.RecentKey, Store.RecentRow>>,
                                          userId: string, limit: nat, pages: seq<Page>)
    requires IsLawful(codec) && limit >= 1 && IsTraversal(codec, tables, userId, limit, pages)
    ensures Reads(RowsAt(tables, userId), pages)
  {
    hide IsPageAt, AnswersRequest;
    forall k | 0 <= k < |pages| ensures IsPageAt(RowsAt(tables, userId), pages, k) {
      TraversalReadsPage(codec, tables, userId, limit, pages, k);
    }
  }

  lemma {:induction false} TraversalReadsPage(codec: Codec<Cursor>,
                                              tables: seq<map<Store.RecentKey, Store.RecentRow>>,
                                              userId: string, limit: nat, pages: seq<Page>, k: nat)
    requires IsLawful(codec) && limit >= 1 && IsTraversal(codec, tables, userId, limit, pages) && k < |pages|
    ensures IsPageAt(RowsAt(tables, userId), pages, k)
  {
    hide IsPage, Query, PageOf, Rows, Floor, ReadCursor, CursorFor, Store.NormalizeUserId, IsLawful;
    TraversalFloor(codec, tables, userId, limit, pages, k);
    assert AnswersRequest(codec, tables, userId, limit, pages, k);
    QueryMakesPage(codec, Rows(tables[k], Store.NormalizeUserId(userId)), Floor(pages, k), limit);
  }

  lemma {:induction false} TraversalFloor(codec: Codec<Cursor>, tables: seq<map<Store.RecentKey, Store.RecentRow>>,
                                          userId: string, limit: nat, pages: seq<Page>, k: nat)
    requires IsLawful(codec) && limit >= 1 && IsTraversal(codec, tables, userId, limit, pages) && k < |pages|
    ensures ReadCursor(codec, CursorFor(pages, k)) == Success(Floor(pages, k)) && (k > 0 ==> pages[k - 1].hasMore)
  {
    if k > 0 {
      var from := ReadCursor(codec, CursorFor(pages, k - 1));
      assert AnswersRequest(codec, tables, userId, limit, pages, k - 1);
      assert AnswersRequest(codec, tables, userId, limit, pages, k);
      QueryMakesPage(codec, Rows(tables[k - 1], Store.NormalizeUserId(userId)), from.value, limit);
    }
  }

  /** A row of a page lies between the last row of the page before and the last row of its own page. */
  lemma {:induction false} RowBetweenFloors(rows: set<Item>, floor: Option<Cursor>, page: Page, item: Item)
    requires IsPage(rows, floor, page) && item in page.items
    ensures floor.Some? ==> Less(Key(item), floor.value)
    ensures var last := page.items[|page.items| - 1]; last == item || Less(Key(last), Key(item))
  {
    var i :| 0 <= i < |page.items| && page.items[i] == item;
  }

  /** A page lists only rows that come after everything on an earlier page. */
  lemma {:induction false} LaterPagesAreBelow(times: seq<set<Item>>, pages: seq<Page>, k: nat, j: nat, x: Item, y: Item)
    requires Reads(times, pages)
    requires k < j < |pages| && x in pages[k].items && y in pages[j].items
    ensures Less(Key(y), Key(x))
    decreases j
  {
    assert IsPageAt(times, pages, j) && IsPageAt(times, pages, j - 1) && IsPageAt(times, pages, k);
    var before := pages[j - 1].items;
    var last := before[|before| - 1];
    RowBetweenFloors(times[j], Floor(pages, j), pages[j], y);
    if k < j - 1 {
      LaterPagesAreBelow(times, pages, k, j - 1, x, last);
    } else {
      RowBetweenFloors(times[k], Floor(pages, k), pages[k], x);
    }
    if last != x {
      LessTransitive(Key(y), Key(last), Key(x));
    }
  }

  lemma {:induction false} ListedFrom(pages: seq<Page>, item: Item) returns (k: nat)
    requires item in Listed(pages)
    ensures k < |pages| && item in pages[k].items
  {
    if item in pages[|pages| - 1].items {
      k := |pages| - 1;
    } else {
      k := ListedFrom(pages[..|pages| - 1], item);
    }
  }

  lemma {:induction false} ReadsPrefix(times: seq<set<Item>>, pages: seq<Page>)
    requires Reads(times, pages) && pages != []
    ensures Reads(times[..|pages| - 1], pages[..|pages| - 1])
  {
    var front, before := pages[..|pages| - 1], times[..|pages| - 1];
    forall k | 0 <= k < |front| ensures IsPageAt(before, front, k) {
      assert IsPageAt(times, pages, k);
      assert Floor(front, k) == Floor(pages, k);
    }
  }

  lemma {:induction false} DescendingJoin(a: seq<Item>, b: seq<Item>)
    requires IsDescending(a) && IsDescending(b)
    requires forall x, y :: x in a && y in b ==> Less(Key(y), Key(x))
    ensures IsDescending(a + b)
  {
    forall i, j | 0 <= i < j < |a + b| ensures Less(Key((a + b)[j]), Key((a + b)[i])) {
      if i < |a| <= j {
        assert a[i] in a && b[j - |a|] in b;
      }
    }
  }

  lemma {:induction false} ReadsDescend(times: seq<set<Item>>, pages: seq<Page>)
    requires Reads(times, pages)
    ensures IsDescending(Listed(pages))
  {
    if pages != [] {
      var front, last := pages[..|pages| - 1], pages[|pages| - 1];
      ReadsPrefix(times, pages);
      ReadsDescend(times[..|pages| - 1], front);
      assert IsPageAt(times, pages, |pages| - 1);
      forall x, y | x in Listed(front) && y in last.items ensures Less(Key(y), Key(x)) {
        var k := ListedFrom(front, x);
        LaterPagesAreBelow(times, pages, k, |pages| - 1, x, y);
      }
      DescendingJoin(Listed(front), last.items);
    }
  }

  /**
   Whatever happens to the table between the pages, what the client sees is strictly descending. So a session is seen
   again only if its `lastActiveAt` has gone down in between.
   */
  lemma {:induction false} ListedDescends(codec: Codec<Cursor>, tables: seq<map<Store.RecentKey, Store.RecentRow>>,
                                          userId: string, limit: nat, pages: seq<Page>)
    requires IsLawful(codec) && limit >= 1 && IsTraversal(codec, tables, userId, limit, pages)
    ensures IsDescending(Listed(pages))
    ensures forall i, j :: 0 <= i < j < |Listed(pages)| && Listed(pages)[i].sessionId == Listed(pages)[j].sessionId ==>
              StringLess(Listed(pages)[j].lastActiveAt, Listed(pages)[i].lastActiveAt)
  {
    TraversalReads(codec, tables, userId, limit, pages);
    ReadsDescend(RowsAt(tables, userId), pages);
    var listed := Listed(pages);
    forall i, j | 0 <= i < j < |listed| && listed[i].sessionId == listed[j].sessionId
      ensures StringLess(listed[j].lastActiveAt, listed[i].lastActiveAt)
    {
      StringOrder(listed[i].sessionId, listed[j].sessionId);
    }
  }

  /** A row that is never touched is on some page already or still below the last one. */
  lemma {:induction false} UntouchedRowWaits(times: seq<set<Item>>, pages: seq<Page>, item: Item)
    requires Reads(times, pages) && pages != []
    requires forall k :: 0 <= k < |times| ==> item in times[k]
    ensures item in Listed(pages) ||
            (pages[|pages| - 1].hasMore && item in Below(times[|pages| - 1], Floor(pages, |pages|)))
  {
    var n := |pages|;
    var front := pages[..n - 1];
    if n > 1 {
      ReadsPrefix(times, pages);
      UntouchedRowWaits(times[..n - 1], front, item);
      assert Floor(front, n - 1) == Floor(pages, n - 1);
    }
    assert IsPageAt(times, pages, n - 1);
    assert item in times[n - 1];
  }

  lemma {:induction false} SeenOnce(times: seq<set<Item>>, pages: seq<Page>, item: Item, i: nat, j: nat)
    requires Reads(times, pages) && IsDescending(Listed(pages))
    requires forall k :: 0 <= k < |times| ==> item in times[k] && Apart(times[k])
    requires i < |Listed(pages)| && j < |Listed(pages)|
    requires Listed(pages)[i] == item && Listed(pages)[j].sessionId == item.sessionId
    ensures i == j
  {
    var other := Listed(pages)[j];
    var k := ListedFrom(pages, other);
    assert IsPageAt(times, pages, k);
    assert other in times[k] && item in times[k];
    LessOrder(Key(item), Key(other));
  }

  /**
   A row that no step touches while a client reads to the end is seen, and its session is seen exactly once, whatever
   is inserted, bumped, renamed or archived meanwhile.
   */
  lemma {:induction false} UntouchedRowSeenOnce(codec: Codec<Cursor>,
                                                tables: seq<map<Store.RecentKey, Store.RecentRow>>,
                                                userId: string, limit: nat, pages: seq<Page>, item: Item)
    requires IsLawful(codec) && limit >= 1 && IsTraversal(codec, tables, userId, limit, pages)
    requires pages != [] && !pages[|pages| - 1].hasMore
    requires forall k :: 0 <= k < |tables| ==> item in Rows(tables[k], Store.NormalizeUserId(userId))
    ensures item in Listed(pages)
    ensures forall i, j :: 0 <= i < |Listed(pages)| && 0 <= j < |Listed(pages)| ==>
              Listed(pages)[i] == item && Listed(pages)[j].sessionId == item.sessionId ==> i == j
  {
    var times := RowsAt(tables, userId);
    TraversalReads(codec, tables, userId, limit, pages);
    UntouchedRowWaits(times, pages, item);
    ReadsDescend(times, pages);
    forall i, j | 0 <= i < |Listed(pages)| && 0 <= j < |Listed(pages)|
                  && Listed(pages)[i] == item && Listed(pages)[j].sessionId == item.sessionId
      ensures i == j
    {
      SeenOnce(times, pages, item, i, j);
    }
  }

  // ----- reading while the service runs -----

  /** The time stamp a step writes. */
  function Now(action: Store.Action): Option<string> {
    match action
    case Create(_, _, _, _, now) => Some(now)
    case Submit(_, now) => Some(now)
    case Finish(_, _, now) => Some(now)
    case Rename(_, _, now) => Some(now)
    case Archive(_, now) => Some(now)
    case _ => None
  }

  /**
   The stamps of each session's own steps do not go back. Those of different sessions may: a stamp is taken before the
   write is committed, and the writes of other sessions may come in between.
   */
  ghost predicate ClockRises(actions: seq<Store.Action>) {
    forall i, j :: 0 <= i < j < |actions| && actions[i].sessionId == actions[j].sessionId
                   && Now(actions[i]).Some? && Now(actions[j]).Some? ==>
      !StringLess(Now(actions[j]).value, Now(actions[i]).value)
  }

  lemma {:induction false} StepStampsOrKeeps(s: Store.State, action: Store.Action, id: string)
    requires Store.Captures(s) && id in Store.Step(s, action).tables.sessions
    ensures var time := Store.Step(s, action).tables.sessions[id].updatedAt;
            || (id in s.tables.sessions && s.tables.sessions[id].updatedAt == time)
            || (action.sessionId == id && Now(action) == Some(time))
  {
    if id in s.tables.sessions && action.sessionId != id {
      Store.SessionsStay(s, action, id);
    }
  }

  /** Between two points of a history a session's time is unchanged or was stamped by a step of it in between. */
  lemma {:induction false} StampedBetween(actions: seq<Store.Action>, m: nat, n: nat, id: string)
    requires m <= n <= |actions|
    requires id in Store.After(Store.EMPTY, actions[..n]).tables.sessions
    ensures var before, after := Store.After(Store.EMPTY, actions[..m]).tables.sessions,
                                 Store.After(Store.EMPTY, actions[..n]).tables.sessions;
            || (id in before && before[id].updatedAt == after[id].updatedAt)
            || exists k :: m <= k < n && actions[k].sessionId == id && Now(actions[k]) == Some(after[id].updatedAt)
    decreases n
  {
    if m < n {
      assert actions[..n][..n - 1] == actions[..n - 1];
      var s := Store.After(Store.EMPTY, actions[..n - 1]);
      Store.CapturesAlways(Store.EMPTY, actions[..n - 1]);
      StepStampsOrKeeps(s, actions[n - 1], id);
      var time := Store.Step(s, actions[n - 1]).tables.sessions[id].updatedAt;
      if actions[n - 1].sessionId != id || Now(actions[n - 1]) != Some(time) {
        StampedBetween(actions, m, n - 1, id);
      }
    }
  }

  /** With a clock that does not go back, neither does a session's time. */
  lemma {:induction false} TimesRise(actions: seq<Store.Action>, m: nat, n: nat, id: string)
    requires ClockRises(actions) && m <= n <= |actions|
    requires id in Store.After(Store.EMPTY, actions[..m]).tables.sessions
    requires id in Store.After(Store.EMPTY, actions[..n]).tables.sessions
    ensures !StringLess(Store.After(Store.EMPTY, actions[..n]).tables.sessions[id].updatedAt,
                        Store.After(Store.EMPTY, actions[..m]).tables.sessions[id].updatedAt)
  {
    StampedBetween(actions, 0, m, id);
    StampedBetween(actions, m, n, id);
    var before, after := Store.After(Store.EMPTY, actions[..m]).tables.sessions[id].updatedAt,
                         Store.After(Store.EMPTY, actions[..n]).tables.sessions[id].updatedAt;
    StringOrder(before, after);
  }

  /** The projections a client reads at some points of a history. */
  ghost function ProjectionsAt(actions: seq<Store.Action>, cuts: seq<nat>)
    : (tables: seq<map<Store.RecentKey, Store.RecentRow>>)
    requires forall k :: 0 <= k < |cuts| ==> cuts[k] <= |actions|
    ensures |tables| == |cuts|
  {
    seq(|cuts|, k requires 0 <= k < |cuts| && cuts[k] <= |actions| =>
      Store.After(Store.EMPTY, actions[..cuts[k]]).tables.recent)
  }

  lemma {:induction false} ListedTimeIsSessionTime(actions: seq<Store.Action>, n: nat, userId: string, item: Item)
    requires n <= |actions| && (forall a :: a in actions ==> Store.HasStableOwner(a))
    requires item in Rows(Store.After(Store.EMPTY, actions[..n]).tables.recent, userId)
    ensures var sessions := Store.After(Store.EMPTY, actions[..n]).tables.sessions;
            item.sessionId in sessions && sessions[item.sessionId].updatedAt == item.lastActiveAt
  {
    Store.InvAlways(actions[..n]);
    assert Store.RecentKey(userId, item.sessionId) in Store.After(Store.EMPTY, actions[..n]).tables.recent;
  }

  lemma {:induction false} RowOfPage(times: seq<set<Item>>, pages: seq<Page>, k: nat, item: Item)
    requires Reads(times, pages) && k < |pages| && item in pages[k].items
    ensures item in times[k]
  {
    assert IsPageAt(times, pages, k);
  }

  lemma {:induction false} OlderRow(x: Item, y: Item)
    requires x.sessionId == y.sessionId && Less(Key(y), Key(x))
    ensures StringLess(y.lastActiveAt, x.lastActiveAt)
  {
    StringOrder(x.sessionId, y.sessionId);
  }

  lemma {:induction false} ListedTimesRise(actions: seq<Store.Action>, m: nat, n: nat, userId: string, x: Item, y: Item)
    requires ClockRises(actions) && m <= n <= |actions| && x.sessionId == y.sessionId
    requires forall a :: a in actions ==> Store.HasStableOwner(a)
    requires x in Rows(Store.After(Store.EMPTY, actions[..m]).tables.recent, userId)
    requires y in Rows(Store.After(Store.EMPTY, actions[..n]).tables.recent, userId)
    ensures !StringLess(y.lastActiveAt, x.lastActiveAt)
  {
    hide ClockRises, Rows, Store.After, Store.HasStableOwner;
    ListedTimeIsSessionTime(actions, m, userId, x);
    ListedTimeIsSessionTime(actions, n, userId, y);
    TimesRise(actions, m, n, x.sessionId);
  }

  /**
   While sessions are created, run, renamed and archived under a clock that does not go back, no client that follows
   the cursors sees a session twice.
   */
  lemma {:induction false} NoSessionSeenTwice(codec: Codec<Cursor>, actions: seq<Store.Action>, cuts: seq<nat>,
                                              userId: string, limit: nat, pages: seq<Page>)
    requires IsLawful(codec) && limit >= 1 && ClockRises(actions)
    requires forall a :: a in actions ==> Store.HasStableOwner(a)
    requires forall k :: 0 <= k < |cuts| ==> cuts[k] <= |actions|
    requires forall k, j :: 0 <= k < j < |cuts| ==> cuts[k] <= cuts[j]
    requires IsTraversal(codec, ProjectionsAt(actions, cuts), userId, limit, pages)
    ensures forall i, j :: 0 <= i < j < |Listed(pages)| ==> Listed(pages)[i].sessionId != Listed(pages)[j].sessionId
  {
    hide Less, ClockRises, Rows, Reads, Store.After, Store.NormalizeUserId, Store.HasStableOwner;
    var tables := ProjectionsAt(actions, cuts);
    var times := RowsAt(tables, userId);
    TraversalReads(codec, tables, userId, limit, pages);
    ReadsDescend(times, pages);
    forall i, j | 0 <= i < j < |Listed(pages)| ensures Listed(pages)[i].sessionId != Listed(pages)[j].sessionId {
      var x, y := Listed(pages)[i], Listed(pages)[j];
      if x.sessionId == y.sessionId {
        var k := ListedFrom(pages, x);
        var l := ListedFrom(pages, y);
        RowOfPage(times, pages, k, x);
        RowOfPage(times, pages, l, y);
        LessOrder(Key(x), Key(y));
        if l < k {
          LaterPagesAreBelow(times, pages, l, k, y, x);
        } else {
          ListedTimesRise(actions, cuts[k], cuts[l], Store.NormalizeUserId(userId), x, y);
          OlderRow(x, y);
        }
        assert false;
      }
    }
  }

  // ----- sessions left alone while a client reads -----

  lemma {:induction false} OtherRowsStay(s: Store.State, action: Store.Action, key: Store.RecentKey)
    requires Store.Captures(s) && action.sessionId != key.sessionId
    ensures var recent, next := s.tables.recent, Store.Step(s, action).tables.recent;
            (key in next <==> key in recent) && (key in recent ==> next[key] == recent[key])
  {
    hide Store.IsCaptured, Store.Merged, Store.NewRow, Store.NormalizeUserId;
    Store.CapturedKey(s, action.sessionId);
  }

  lemma {:induction false} RowStaysBetween(actions: seq<Store.Action>, m: nat, n: nat, key: Store.RecentKey)
    requires m <= n <= |actions| && forall k :: m <= k < n ==> actions[k].sessionId != key.sessionId
    ensures var before, after := Store.After(Store.EMPTY, actions[..m]).tables.recent,
                                 Store.After(Store.EMPTY, actions[..n]).tables.recent;
            (key in after <==> key in before) && (key in before ==> after[key] == before[key])
    decreases n
  {
    if m < n {
      assert actions[..n][..n - 1] == actions[..n - 1];
      RowStaysBetween(actions, m, n - 1, key);
      Store.CapturesAlways(Store.EMPTY, actions[..n - 1]);
      OtherRowsStay(Store.After(Store.EMPTY, actions[..n - 1]), actions[n - 1], key);
    }
  }

  /** The place of a listed row. */
  lemma {:induction false} ListedAt(pages: seq<Page>, item: Item) returns (i: nat)
    requires item in Listed(pages)
    ensures i < |Listed(pages)| && Listed(pages)[i] == item
  {
    i :| i < |Listed(pages)| && Listed(pages)[i] == item;
  }

  /**
   While the service goes on in any way, a listed session that no call names between a client's first page and its
   last is seen exactly once by the time the client is told that there is no more.
   */
  lemma {:induction false} SessionLeftAloneSeenOnce(codec: Codec<Cursor>, actions: seq<Store.Action>, cuts: seq<nat>,
                                                    userId: string, limit: nat, pages: seq<Page>, id: string)
    requires IsLawful(codec) && limit >= 1 && pages != [] && !pages[|pages| - 1].hasMore
    requires forall k :: 0 <= k < |cuts| ==> cuts[k] <= |actions|
    requires forall k, j :: 0 <= k < j < |cuts| ==> cuts[k] <= cuts[j]
    requires IsTraversal(codec, ProjectionsAt(actions, cuts), userId, limit, pages)
    requires Store.RecentKey(Store.NormalizeUserId(userId), id)
             in Store.After(Store.EMPTY, actions[..cuts[0]]).tables.recent
    requires forall k :: cuts[0] <= k < cuts[|cuts| - 1] ==> actions[k].sessionId != id
    ensures exists i :: 0 <= i < |Listed(pages)| && Listed(pages)[i].sessionId == id
                        && forall j :: 0 <= j < |Listed(pages)| && Listed(pages)[j].sessionId == id ==> j == i
  {
    hide IsLawful, AnswersRequest, Store.NormalizeUserId, Store.After;
    var tables, key := ProjectionsAt(actions, cuts), Store.RecentKey(Store.NormalizeUserId(userId), id);
    assert tables[0] == Store.After(Store.EMPTY, actions[..cuts[0]]).tables.recent;
    var item := Item(id, tables[0][key].sessionName, tables[0][key].lastActiveAt);
    forall k | 0 <= k < |tables| ensures item in Rows(tables[k], key.userId) {
      RowStaysBetween(actions, cuts[0], cuts[k], key);
      assert tables[k] == Store.After(Store.EMPTY, actions[..cuts[k]]).tables.recent;
    }
    UntouchedRowSeenOnce(codec, tables, userId, limit, pages, item);
    var i := ListedAt(pages, item);
    assert Listed(pages)[i].sessionId == id;
  }
}
