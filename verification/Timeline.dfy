/**
 * Paging through a project's messages (war_room.py): each page asks for the messages before a cursor, newest first,
 * and the cursor it returns names its last message. Messages may come and go between the pages.
 */
module Timeline {
  import opened Wrappers
  import opened Cursor

  /** The sort key; ids are unique, and their order is that of their code points. */
  datatype Key = Key(at: int, id: seq<CodePoint>)

  datatype Message = Message(project: string, kind: string, author: string, statuses: set<string>)

  type Table = map<Key, Message>

  datatype Query = Query(
    project: string, kind: Option<string>, author: Option<string>, status: Option<string>,
    since: Option<int>, until: Option<int>)

  datatype Answer = Answer(items: seq<Key>, hasMore: bool, next: Option<seq<int>>)

  // ----- the order -----------------------------------------------------------------------------

  predicate LexLess(a: seq<CodePoint>, b: seq<CodePoint>) {
    b != [] && (a == [] || a[0] < b[0] || (a[0] == b[0] && LexLess(a[1..], b[1..])))
  }

  predicate Less(a: Key, b: Key) { a.at < b.at || (a.at == b.at && LexLess(a.id, b.id)) }

  lemma {:induction false} LexTotal(a: seq<CodePoint>, b: seq<CodePoint>)
    ensures LexLess(a, b) || LexLess(b, a) || a == b
    ensures !(LexLess(a, b) && LexLess(b, a))
    ensures LexLess(a, b) ==> a != b
  {
    if a != [] && b != [] && a[0] == b[0] {
      LexTotal(a[1..], b[1..]);
      assert a == [a[0]] + a[1..] && b == [b[0]] + b[1..];
    }
  }

  lemma {:induction false} LexTransitive(a: seq<CodePoint>, b: seq<CodePoint>, c: seq<CodePoint>)
    requires LexLess(a, b) && LexLess(b, c)
    ensures LexLess(a, c)
  {
    if a != [] && a[0] == b[0] && b[0] == c[0] { LexTransitive(a[1..], b[1..], c[1..]); }
  }

  lemma Total(a: Key, b: Key)
    ensures Less(a, b) || Less(b, a) || a == b
    ensures !(Less(a, b) && Less(b, a)) && !Less(a, a)
  {
    LexTotal(a.id, b.id);
    LexTotal(a.id, a.id);
  }

  lemma Transitive(a: Key, b: Key, c: Key)
    requires Less(a, b) && Less(b, c)
    ensures Less(a, c)
  {
    if a.at == b.at && b.at == c.at { LexTransitive(a.id, b.id, c.id); }
  }

  predicate IsTop(s: set<Key>, m: Key) { m in s && forall x :: x in s && x != m ==> Less(x, m) }

  lemma {:induction false} TopExists(s: set<Key>)
    requires s != {}
    ensures exists m :: IsTop(s, m)
    decreases |s|
  {
    var x :| x in s;
    if s == {x} {
      assert IsTop(s, x);
    } else {
      assert s - {x} != {};
      TopExists(s - {x});
      var m :| IsTop(s - {x}, m);
      Total(x, m);
      if Less(x, m) {
        assert IsTop(s, m);
      } else {
        forall y | y in s && y != x ensures Less(y, x) {
          if y != m { Transitive(y, m, x); }
        }
        assert IsTop(s, x);
      }
    }
  }

  lemma TopIsUnique(s: set<Key>, a: Key, b: Key)
    requires IsTop(s, a) && IsTop(s, b)
    ensures a == b
  {
    Total(a, b);
  }

  /** The whole set in descending order. */
  function Descending(s: set<Key>): seq<Key> {
    if s == {} then []
    else
      TopExists(s);
      assert forall a, b :: IsTop(s, a) && IsTop(s, b) ==> a == b by {
        forall a, b | IsTop(s, a) && IsTop(s, b) ensures a == b { TopIsUnique(s, a, b); }
      }
      var m :| IsTop(s, m);
      [m] + Descending(s - {m})
  }

  predicate IsDescending(xs: seq<Key>) { forall i, j :: 0 <= i < j < |xs| ==> Less(xs[j], xs[i]) }

  lemma PutsFirst(m: Key, rest: seq<Key>)
    requires IsDescending(rest) && forall i :: 0 <= i < |rest| ==> Less(rest[i], m)
    ensures IsDescending([m] + rest)
  {
  }

  lemma {:induction false} DescendingIsSorted(s: set<Key>)
    ensures IsDescending(Descending(s)) && |Descending(s)| == |s|
    ensures forall x :: x in Descending(s) <==> x in s
    decreases |s|
  {
    if s != {} {
      var m := Descending(s)[0];
      var rest := Descending(s - {m});
      DescendingIsSorted(s - {m});
      assert IsTop(s, m);
      forall i | 0 <= i < |rest| ensures Less(rest[i], m) { assert rest[i] in rest; }
      PutsFirst(m, rest);
      assert Descending(s) == [m] + rest;
    }
  }

  lemma DescendingIsDistinct(xs: seq<Key>)
    requires IsDescending(xs)
    ensures forall i, j :: 0 <= i < j < |xs| ==> xs[i] != xs[j]
  {
    forall i, j | 0 <= i < j < |xs| ensures xs[i] != xs[j] { Total(xs[i], xs[i]); }
  }

  lemma HeadIn(xs: seq<Key>)
    ensures xs != [] ==> xs[0] in xs
  {
  }

  /** A set has only one descending listing. */
  lemma {:induction false} ListingIsUnique(xs: seq<Key>, ys: seq<Key>)
    requires IsDescending(xs) && IsDescending(ys) && forall x :: x in xs <==> x in ys
    ensures xs == ys
  {
    HeadIn(xs);
    HeadIn(ys);
    if xs != [] {
      var x, y := xs[0], ys[0];
      assert y in xs;
      if x != y {
        var i :| 0 <= i < |xs| && xs[i] == y;
        var j :| 0 <= j < |ys| && ys[j] == x;
        assert Less(y, x) && Less(x, y);
        Total(x, y);
      }
      forall z ensures z in xs[1..] <==> z in ys[1..] {
        Total(x, x);
        assert z in xs <==> z in ys;
      }
      ListingIsUnique(xs[1..], ys[1..]);
    }
  }

  // ----- one page --------------------------------------------------------------------------------

  predicate Within(at: int, since: Option<int>, until: Option<int>) {
    (since.Some? ==> since.value <= at) && (until.Some? ==> at <= until.value)
  }

  predicate Matches(k: Key, m: Message, q: Query) {
    && m.project == q.project && (q.kind.Some? ==> m.kind == q.kind.value)
       && (q.author.Some? ==> m.author == q.author.value)
    && (q.status.Some? ==> q.status.value in m.statuses) && Within(k.at, q.since, q.until)
  }

  function Matching(table: Table, q: Query): set<Key> { set k | k in table && Matches(k, table[k], q) }

  function Below(keys: set<Key>, before: Option<Key>): set<Key>
  {
    set k | k in keys && (before.Some? ==> Less(k, before.value))
  }

  function FirstOf(xs: seq<Key>, n: nat): seq<Key> { if |xs| <= n then xs else xs[..n] }

  function NextOf(items: seq<Key>, hasMore: bool): Option<seq<int>> {
    if hasMore && items != [] then Some(EncodeCursor(items[|items| - 1].at, items[|items| - 1].id)) else None
  }

  predicate Readable(text: Option<seq<int>>) {
    text.Some? ==> 1 <= |text.value| <= 256 && DecodeCursor(text.value).Some?
  }

  function KeyOf(text: Option<seq<int>>): Option<Key>
    requires Readable(text)
  {
    if text.None? then None
    else
      var (at, id) := DecodeCursor(text.value).value;
      Some(Key(at, id))
  }

  /** The page a request gets; `None` is the 422 answer. */
  function Page(table: Table, q: Query, limit: nat, before: Option<seq<int>>): Option<Answer> {
    if (q.since.Some? && q.until.Some? && q.since.value > q.until.value) || !Readable(before) then None
    else Some(CutPage(Descending(Below(Matching(table, q), KeyOf(before))), limit))
  }

  /** One row more than the page is fetched, to see whether more follows. */
  function CutPage(all: seq<Key>, limit: nat): Answer {
    var rows := FirstOf(all, limit + 1);
    var hasMore := |rows| > limit;
    Answer(FirstOf(rows, limit), hasMore, NextOf(FirstOf(rows, limit), hasMore))
  }

  // ----- what a page shows, in terms of the table -------------------------------------------------------

  /** The ids are the same up to `n`, where `a` ends or has the smaller code point. */
  ghost predicate IdBelowAt(a: seq<CodePoint>, b: seq<CodePoint>, n: nat) {
    n <= |a| && n < |b| && a[..n] == b[..n] && (n == |a| || a[n] < b[n])
  }

  ghost predicate IdBelow(a: seq<CodePoint>, b: seq<CodePoint>) { exists n: nat :: IdBelowAt(a, b, n) }

  /** By time, and at the same time by id. */
  ghost predicate Earlier(a: Key, b: Key) { a.at < b.at || (a.at == b.at && IdBelow(a.id, b.id)) }

  ghost predicate Meets(k: Key, m: Message, q: Query) {
    && m.project == q.project && q.kind in {None, Some(m.kind)} && q.author in {None, Some(m.author)}
    && (forall status :: q.status == Some(status) ==> status in m.statuses)
    && (forall at :: q.since == Some(at) ==> at <= k.at) && (forall at :: q.until == Some(at) ==> k.at <= at)
  }

  /** The message belongs to what is asked for, below the cursor if there is one. */
  ghost predicate Wanted(table: Table, q: Query, cursor: Option<Key>, k: Key) {
    k in table && Meets(k, table[k], q) && forall top :: cursor == Some(top) ==> Earlier(k, top)
  }

  /**
   * The page shows the latest wanted messages, as many as fit, latest first; when some do not fit it says so and its
   * cursor names the last one shown.
   */
  ghost predicate Shows(table: Table, q: Query, limit: nat, cursor: Option<Key>, a: Answer) {
    && |a.items| <= limit && (forall i, j :: 0 <= i < j < |a.items| ==> Earlier(a.items[j], a.items[i]))
    && (forall k :: k in a.items ==> Wanted(table, q, cursor, k))
    && (forall k :: Wanted(table, q, cursor, k) && k !in a.items ==>
          |a.items| == limit && forall shown :: shown in a.items ==> Earlier(k, shown))
    && (a.hasMore <==> exists k :: Wanted(table, q, cursor, k) && k !in a.items)
    && a.next == if a.hasMore && a.items != [] then
                   Some(EncodeCursor(a.items[|a.items| - 1].at, a.items[|a.items| - 1].id)) else None
  }

  /** The key that the cursor's text stands for. */
  ghost predicate CursorIs(before: Option<seq<int>>, cursor: Option<Key>) {
    if before.None? then cursor == None
    else cursor.Some? && DecodeCursor(before.value) == Some((cursor.value.at, cursor.value.id))
  }

  /** The request is refused for a range that ends before it begins or a cursor that cannot be read. */
  ghost predicate Refuses(q: Query, before: Option<seq<int>>) {
    || (q.since.Some? && q.until.Some? && q.until.value < q.since.value)
    || (before.Some? && (|before.value| < 1 || |before.value| > 256 || DecodeCursor(before.value).None?))
  }

  lemma {:induction false} IdBelowIff(a: seq<CodePoint>, b: seq<CodePoint>)
    ensures LexLess(a, b) <==> IdBelow(a, b)
  {
    if b != [] && (a == [] || a[0] < b[0]) {
      assert IdBelowAt(a, b, 0);
    } else if a != [] && b != [] {
      FirstDecides(a, b);
      if a[0] == b[0] { IdBelowIff(a[1..], b[1..]); }
    }
  }

  lemma FirstDecides(a: seq<CodePoint>, b: seq<CodePoint>)
    requires a != [] && b != [] && b[0] <= a[0]
    ensures IdBelow(a, b) <==> a[0] == b[0] && IdBelow(a[1..], b[1..])
  {
    if IdBelow(a, b) {
      var n: nat :| IdBelowAt(a, b, n);
      FirstThenAt(a, b, n - 1);
    }
    if a[0] == b[0] && IdBelow(a[1..], b[1..]) {
      var n: nat :| IdBelowAt(a[1..], b[1..], n);
      FirstThenAt(a, b, n);
    }
  }

  lemma FirstThenAt(a: seq<CodePoint>, b: seq<CodePoint>, n: nat)
    requires a != [] && b != []
    ensures IdBelowAt(a, b, n + 1) <==> a[0] == b[0] && IdBelowAt(a[1..], b[1..], n)
  {
    if n + 1 <= |a| && n + 1 < |b| {
      assert a[..n + 1] == [a[0]] + a[1..][..n] && b[..n + 1] == [b[0]] + b[1..][..n];
    }
  }

  lemma EarlierIff(a: Key, b: Key)
    ensures Less(a, b) <==> Earlier(a, b)
  {
    IdBelowIff(a.id, b.id);
  }

  lemma WantedIff(table: Table, q: Query, cursor: Option<Key>, k: Key)
    ensures k in Below(Matching(table, q), cursor) <==> Wanted(table, q, cursor, k)
  {
    if cursor.Some? { EarlierIff(k, cursor.value); }
  }

  /** What does not fit comes later in the listing, and is earlier in time than all that is shown. */
  lemma CutOff(all: seq<Key>, n: nat, k: Key)
    requires IsDescending(all) && n <= |all| && k in all && k !in all[..n]
    ensures n < |all| && forall shown :: shown in all[..n] ==> Earlier(k, shown)
  {
    AmongFirstOrLater(all, n, k);
    var j :| n <= j < |all| && all[j] == k;
    forall shown | shown in all[..n] ensures Earlier(k, shown) { EarlierIff(k, shown); }
  }

  lemma CutItems(all: seq<Key>, limit: nat, n: nat)
    requires n == if |all| <= limit then |all| else limit
    ensures CutPage(all, limit) == Answer(all[..n], |all| > limit, NextOf(all[..n], |all| > limit))
  {
    if |all| > limit { assert all[..limit + 1][..limit] == all[..limit]; }
    assert all[..|all|] == all;
  }

  lemma FirstInOrder(all: seq<Key>, n: nat, items: seq<Key>)
    requires IsDescending(all) && n <= |all| && items == all[..n]
    ensures forall i, j :: 0 <= i < j < |items| ==> Earlier(items[j], items[i])
    ensures forall k :: k in items ==> k in all
    ensures n < |all| ==> exists k :: k in all && k !in items
  {
    forall i, j | 0 <= i < j < n ensures Earlier(all[j], all[i]) { EarlierIff(all[j], all[i]); }
    if n < |all| { NotAmongFirst(all, n); }
  }

  /** The first `limit` of a descending listing of all that is wanted are what the page shows. */
  lemma CutShows(table: Table, q: Query, limit: nat, cursor: Option<Key>, all: seq<Key>, n: nat, items: seq<Key>,
                 a: Answer)
    requires IsDescending(all) && forall k :: k in all <==> Wanted(table, q, cursor, k)
    requires n == (if |all| <= limit then |all| else limit) && items == all[..n]
    requires a == Answer(items, |all| > limit, NextOf(items, |all| > limit))
    ensures Shows(table, q, limit, cursor, a)
  {
    FirstInOrder(all, n, items);
    forall k | k in all && k !in items ensures n < |all| && forall shown :: shown in items ==> Earlier(k, shown) {
      CutOff(all, n, k);
    }
  }

  lemma AmongFirstOrLater(all: seq<Key>, n: nat, k: Key)
    requires n <= |all| && k in all
    ensures k in all[..n] || exists j :: n <= j < |all| && all[j] == k
  {
    var j :| 0 <= j < |all| && all[j] == k;
    if j < n { assert all[..n][j] == k; }
  }

  lemma NotAmongFirst(all: seq<Key>, n: nat)
    requires IsDescending(all) && n < |all|
    ensures all[n] in all && all[n] !in all[..n]
  {
    DescendingIsDistinct(all);
  }

  lemma ReadableCursor(q: Query, before: Option<seq<int>>)
    ensures Refuses(q, before) <==>
            (q.since.Some? && q.until.Some? && q.since.value > q.until.value) || !Readable(before)
    ensures Readable(before) ==> CursorIs(before, KeyOf(before))
  {
  }

  lemma PageShows(table: Table, q: Query, limit: nat, cursor: Option<Key>)
    ensures Shows(table, q, limit, cursor, CutPage(Descending(Below(Matching(table, q), cursor)), limit))
  {
    var keys := Below(Matching(table, q), cursor);
    DescendingIsSorted(keys);
    forall k ensures k in Descending(keys) <==> Wanted(table, q, cursor, k) { WantedIff(table, q, cursor, k); }
    var all := Descending(keys);
    var n := if |all| <= limit then |all| else limit;
    CutItems(all, limit, n);
    CutShows(table, q, limit, cursor, all, n, all[..n], CutPage(all, limit));
  }

  // ----- one page as it is made ------------------------------------------------------------------------

  /** One condition of the query's WHERE clause. */
  datatype Condition =
    | ProjectIs(project: string) | KindIs(kind: string) | AuthorIs(author: string) | HasStatus(status: string)
    | Since(at: int) | Until(at: int) | Before(key: Key)

  predicate Holds(c: Condition, k: Key, m: Message) {
    match c
    case ProjectIs(project) => m.project == project
    case KindIs(kind) => m.kind == kind
    case AuthorIs(author) => m.author == author
    case HasStatus(status) => status in m.statuses
    case Since(at) => k.at >= at
    case Until(at) => k.at <= at
    case Before(key) => k.at < key.at || (k.at == key.at && LexLess(k.id, key.id))
  }

  predicate AllHold(cs: seq<Condition>, k: Key, m: Message) { forall i :: 0 <= i < |cs| ==> Holds(cs[i], k, m) }

  lemma OneMoreCondition(cs: seq<Condition>, c: Condition)
    ensures forall k, m :: AllHold(cs + [c], k, m) <==> AllHold(cs, k, m) && Holds(c, k, m)
  {
    forall k, m ensures AllHold(cs + [c], k, m) <==> AllHold(cs, k, m) && Holds(c, k, m) {
      assert (cs + [c])[|cs|] == c;
      assert forall i :: 0 <= i < |cs| ==> (cs + [c])[i] == cs[i];
    }
  }

  method BuildConditions(q: Query, before: Option<Key>) returns (cs: seq<Condition>)
    ensures forall k, m :: AllHold(cs, k, m) <==> Matches(k, m, q) && (before.Some? ==> Less(k, before.value))
  {
    OneMoreCondition([], ProjectIs(q.project));
    cs := [] + [ProjectIs(q.project)];
    if q.kind.Some? {
      OneMoreCondition(cs, KindIs(q.kind.value));
      cs := cs + [KindIs(q.kind.value)];
    }
    if q.author.Some? {
      OneMoreCondition(cs, AuthorIs(q.author.value));
      cs := cs + [AuthorIs(q.author.value)];
    }
    if q.status.Some? {
      OneMoreCondition(cs, HasStatus(q.status.value));
      cs := cs + [HasStatus(q.status.value)];
    }
    if q.since.Some? {
      OneMoreCondition(cs, Since(q.since.value));
      cs := cs + [Since(q.since.value)];
    }
    if q.until.Some? {
      OneMoreCondition(cs, Until(q.until.value));
      cs := cs + [Until(q.until.value)];
    }
    if before.Some? {
      OneMoreCondition(cs, Before(before.value));
      cs := cs + [Before(before.value)];
    }
    forall k, m ensures AllHold(cs, k, m) <==> Matches(k, m, q) && (before.Some? ==> Less(k, before.value)) {
      assert AllHold([], k, m);
    }
  }

  method GetTimeline(table: Table, q: Query, limit: nat, before: Option<seq<int>>) returns (answer: Option<Answer>)
    ensures answer == Page(table, q, limit, before) && (answer.None? <==> Refuses(q, before))
    ensures answer.Some? ==> exists cursor :: CursorIs(before, cursor) && Shows(table, q, limit, cursor, answer.value)
  {
    ReadableCursor(q, before);
    if q.since.Some? && q.until.Some? && q.since.value > q.until.value { return None; }
    if !Readable(before) { return None; }
    var cs := BuildConditions(q, KeyOf(before));
    var keys := set k | k in table && AllHold(cs, k, table[k]);
    assert keys == Below(Matching(table, q), KeyOf(before));
    PageShows(table, q, limit, KeyOf(before));
    var rows := FirstOf(Descending(keys), limit + 1);
    var hasMore := |rows| > limit;
    var items := FirstOf(rows, limit);
    var next := NextOf(items, hasMore);
    answer := Some(Answer(items, hasMore, next));
  }
}
