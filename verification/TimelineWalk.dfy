/**
 * Following the returned cursors from the first page on, while the messages may change before every request.
 */
module TimelineWalk {
  import opened Wrappers
  import opened Cursor
  import opened Timeline

  /** Ids as a database stores them, none so long that its cursor outgrows the endpoint's limit of 256 characters. */
  predicate Storable(k: Key) { NoSplitPair(k.id) && |Payload(k.at, k.id)| <= 192 }

  predicate StorableTable(table: Table) { forall k :: k in table ==> Storable(k) }

  predicate ValidRange(q: Query) { q.since.Some? && q.until.Some? ==> q.since.value <= q.until.value }

  lemma CursorNamesKey(k: Key)
    requires Storable(k)
    ensures Readable(Some(EncodeCursor(k.at, k.id))) && KeyOf(Some(EncodeCursor(k.at, k.id))) == Some(k)
  {
    CursorRoundTripIff(k.at, k.id);
    CursorFitsIff(k.at, k.id);
    CursorIsNotNumeric(k.at, k.id);
  }

  /** A page of the matching keys: the largest below `before`, and more after it exactly when it says so. */
  ghost predicate GoodRows(keys: set<Key>, limit: nat, before: Option<Key>, items: seq<Key>, more: bool) {
    && IsDescending(items) && |items| <= limit && (more ==> |items| == limit > 0)
    && (forall x :: x in items ==> x in Below(keys, before))
    && forall x :: x in Below(keys, before) ==> x in items || (more && Less(x, items[limit - 1]))
  }

  /** The answer's cursor is there exactly when more follows, and names the last row. */
  ghost predicate GoodPage(table: Table, q: Query, limit: nat, before: Option<Key>, a: Answer) {
    && GoodRows(Matching(table, q), limit, before, a.items, a.next.Some?)
    && a.hasMore == a.next.Some?
    && (a.next.Some? ==> Readable(a.next) && KeyOf(a.next) == Some(a.items[limit - 1]))
  }

  /** The first `limit` of the listing, with more after them. */
  lemma FullPageIsGood(keys: set<Key>, limit: nat, before: Option<Key>, all: seq<Key>)
    requires IsDescending(all) && 0 < limit < |all| && forall x :: x in all <==> x in Below(keys, before)
    ensures GoodRows(keys, limit, before, all[..limit], true)
  {
    var items, last := all[..limit], all[limit - 1];
    forall x | x in Below(keys, before) ensures x in items || Less(x, last) {
      var i :| 0 <= i < |all| && all[i] == x;
      if i < limit { assert items[i] == x; }
    }
    forall x | x in items ensures x in Below(keys, before) { assert x in all; }
  }

  lemma ShortPageIsGood(keys: set<Key>, limit: nat, before: Option<Key>, all: seq<Key>)
    requires IsDescending(all) && |all| <= limit && forall x :: x in all <==> x in Below(keys, before)
    ensures GoodRows(keys, limit, before, all, false)
  {
  }

  /** Asking for one row more than the page tells whether more follows. */
  lemma CutPageIs(all: seq<Key>, limit: nat)
    ensures CutPage(all, limit)
            == Answer(FirstOf(all, limit), |all| > limit, NextOf(FirstOf(all, limit), |all| > limit))
  {
    if |all| > limit { assert all[..limit + 1][..limit] == all[..limit]; }
  }

  lemma PageIs(table: Table, q: Query, limit: nat, before: Option<seq<int>>, all: seq<Key>, a: Answer)
    requires ValidRange(q) && Readable(before) && all == Descending(Below(Matching(table, q), KeyOf(before)))
    requires a == Answer(FirstOf(all, limit), |all| > limit, NextOf(FirstOf(all, limit), |all| > limit))
    ensures Page(table, q, limit, before) == Some(a)
  {
    CutPageIs(all, limit);
  }

  lemma AnswerNamesLast(items: seq<Key>, limit: nat)
    requires |items| == limit > 0 && Storable(items[limit - 1])
    ensures NextOf(items, true).Some? && Readable(NextOf(items, true))
            && KeyOf(NextOf(items, true)) == Some(items[limit - 1])
  {
    CursorNamesKey(items[limit - 1]);
  }

  lemma PageIsGood(table: Table, q: Query, limit: nat, before: Option<seq<int>>)
    requires StorableTable(table) && ValidRange(q) && Readable(before) && limit >= 1
    ensures Page(table, q, limit, before).Some?
    ensures GoodPage(table, q, limit, KeyOf(before), Page(table, q, limit, before).value)
  {
    var keys := Below(Matching(table, q), KeyOf(before));
    var all := Descending(keys);
    DescendingIsSorted(keys);
    PageIs(table, q, limit, before, all,
           Answer(FirstOf(all, limit), |all| > limit, NextOf(FirstOf(all, limit), |all| > limit)));
    if |all| <= limit {
      ShortPageIsGood(Matching(table, q), limit, KeyOf(before), all);
    } else {
      FullPageIsGood(Matching(table, q), limit, KeyOf(before), all);
      assert all[limit - 1] in keys;
      AnswerNamesLast(all[..limit], limit);
    }
  }

  // ----- walks, seen as keys -------------------------------------------------------------------

  function BeforeOf(parts: seq<seq<Key>>, i: nat): Option<Key>
    requires i <= |parts|
  {
    if i == 0 || parts[i - 1] == [] then None else Some(parts[i - 1][|parts[i - 1]| - 1])
  }

  /** Page after page, each from the keys that match at its time, below the last row of the page before. */
  ghost predicate KeyWalk(sets: seq<set<Key>>, limit: nat, parts: seq<seq<Key>>, more: bool) {
    && |sets| == |parts| && limit >= 1
    && forall i :: 0 <= i < |parts| ==> GoodRows(sets[i], limit, BeforeOf(parts, i), parts[i], i < |parts| - 1 || more)
  }

  function Flat(parts: seq<seq<Key>>): seq<Key> {
    if parts == [] then [] else Flat(parts[..|parts| - 1]) + parts[|parts| - 1]
  }

  lemma EarlierWalk(sets: seq<set<Key>>, limit: nat, parts: seq<seq<Key>>, more: bool)
    requires KeyWalk(sets, limit, parts, more) && parts != []
    ensures KeyWalk(sets[..|sets| - 1], limit, parts[..|parts| - 1], true)
  {
    var n := |parts| - 1;
    forall i | 0 <= i < n ensures GoodRows(sets[..n][i], limit, BeforeOf(parts[..n], i), parts[..n][i], true) {
      assert BeforeOf(parts[..n], i) == BeforeOf(parts, i);
      assert GoodRows(sets[i], limit, BeforeOf(parts, i), parts[i], i < n || more);
    }
  }

  lemma JoinDescends(xs: seq<Key>, ys: seq<Key>)
    requires IsDescending(xs) && IsDescending(ys)
    requires xs != [] ==> forall y :: y in ys ==> Less(y, xs[|xs| - 1])
    ensures IsDescending(xs + ys)
  {
    forall i, j | 0 <= i < j < |xs + ys| ensures Less((xs + ys)[j], (xs + ys)[i]) {
      if i < |xs| <= j {
        assert ys[j - |xs|] in ys;
        if i < |xs| - 1 { Transitive(ys[j - |xs|], xs[|xs| - 1], xs[i]); }
      }
    }
  }

  /** The last page lies below the rows before it. */
  lemma LastPart(sets: seq<set<Key>>, limit: nat, parts: seq<seq<Key>>, more: bool)
    requires KeyWalk(sets, limit, parts, more) && parts != []
    ensures var n := |parts| - 1;
            && IsDescending(parts[n]) && (more ==> |parts[n]| == limit)
            && forall y :: y in parts[n] ==>
                 y in sets[n] && (BeforeOf(parts, n).Some? ==> Less(y, BeforeOf(parts, n).value))
  {
    var n := |parts| - 1;
    assert GoodRows(sets[n], limit, BeforeOf(parts, n), parts[n], more);
  }

  lemma LastCovers(sets: seq<set<Key>>, limit: nat, parts: seq<seq<Key>>, more: bool, x: Key)
    requires KeyWalk(sets, limit, parts, more) && parts != [] && x in sets[|parts| - 1]
    requires var before := BeforeOf(parts, |parts| - 1);
             before.Some? ==> Less(x, before.value)
    ensures var last := parts[|parts| - 1];
            x in last || (more && last != [] && Less(x, last[|last| - 1]))
  {
    var n := |parts| - 1;
    assert GoodRows(sets[n], limit, BeforeOf(parts, n), parts[n], more);
  }

  lemma BeforeStays(parts: seq<seq<Key>>, n: nat)
    requires n <= |parts|
    ensures BeforeOf(parts[..n], n) == BeforeOf(parts, n)
  {
  }

  /** The rows of `n` full pages. */
  function Full(n: nat, limit: nat): nat { if n == 0 then 0 else Full(n - 1, limit) + limit }

  lemma {:induction false} FullIsProduct(n: nat, limit: nat)
    ensures Full(n, limit) == n * limit
  {
    if n > 0 {
      FullIsProduct(n - 1, limit);
      assert n * limit == (n - 1) * limit + limit;
    }
  }

  /**
   * The rows of the first `n` pages descend, and while more follows every page was full and `before` is the last row.
   */
  ghost predicate Stands(rows: seq<Key>, n: nat, limit: nat, more: bool, before: Option<Key>) {
    && IsDescending(rows)
    && (more ==> |rows| == Full(n, limit))
    && (more && n > 0 ==> rows != [] && before == Some(rows[|rows| - 1]))
  }

  function LastOf(rows: seq<Key>): Option<Key> { if rows == [] then None else Some(rows[|rows| - 1]) }

  lemma OneMorePart(front: seq<Key>, before: Option<Key>, part: seq<Key>, limit: nat, n: nat, more: bool)
    requires Stands(front, n, limit, true, before) && limit >= 1 && (n == 0 ==> before.None?)
    requires IsDescending(part) && forall y :: y in part && before.Some? ==> Less(y, before.value)
    requires more ==> |part| == limit
    ensures Stands(front + part, n + 1, limit, more, LastOf(part))
  {
    JoinDescends(front, part);
  }

  lemma PartsEnd(parts: seq<seq<Key>>, n: nat)
    requires n + 1 == |parts|
    ensures Flat(parts) == Flat(parts[..n]) + parts[n] && BeforeOf(parts, n + 1) == LastOf(parts[n])
    ensures BeforeOf(parts[..n], n) == BeforeOf(parts, n)
  {
  }

  lemma LastStep(sets: seq<set<Key>>, limit: nat, parts: seq<seq<Key>>, more: bool, n: nat, rows: seq<Key>)
    requires KeyWalk(sets, limit, parts, more) && n + 1 == |parts|
    requires Stands(rows, n, limit, true, BeforeOf(parts, n))
    ensures Stands(rows + parts[n], n + 1, limit, more, LastOf(parts[n]))
  {
    LastPart(sets, limit, parts, more);
    OneMorePart(rows, BeforeOf(parts, n), parts[n], limit, n, more);
  }

  /** The joined rows descend, and while more follows every page was full. */
  lemma {:induction false} WalkStands(sets: seq<set<Key>>, limit: nat, parts: seq<seq<Key>>, more: bool, n: nat)
    requires KeyWalk(sets, limit, parts, more) && n == |parts|
    ensures Stands(Flat(parts), n, limit, more, BeforeOf(parts, n))
    decreases n
  {
    if n > 0 {
      EarlierWalk(sets, limit, parts, more);
      WalkStands(sets[..n - 1], limit, parts[..n - 1], true, n - 1);
      PartsEnd(parts, n - 1);
      LastStep(sets, limit, parts, more, n - 1, Flat(parts[..n - 1]));
    }
  }

  lemma {:induction false} RowsComeFrom(sets: seq<set<Key>>, limit: nat, parts: seq<seq<Key>>, more: bool, x: Key)
    returns (i: nat)
    requires KeyWalk(sets, limit, parts, more) && x in Flat(parts)
    ensures i < |sets| && x in sets[i]
    decreases |parts|
  {
    var n := |parts| - 1;
    if x in Flat(parts[..n]) {
      EarlierWalk(sets, limit, parts, more);
      i := RowsComeFrom(sets[..n], limit, parts[..n], true, x);
    } else {
      i := n;
      assert GoodRows(sets[n], limit, BeforeOf(parts, n), parts[n], more);
    }
  }

  /** A key that matches throughout is among the rows so far or still below the last one. */
  lemma {:induction false} SeenOrAhead(sets: seq<set<Key>>, limit: nat, parts: seq<seq<Key>>, more: bool, x: Key)
    requires KeyWalk(sets, limit, parts, more) && parts != [] && forall i :: 0 <= i < |sets| ==> x in sets[i]
    ensures x in Flat(parts) || (more && BeforeOf(parts, |parts|).Some? && Less(x, BeforeOf(parts, |parts|).value))
    decreases |parts|
  {
    var n := |parts| - 1;
    if n > 0 {
      EarlierWalk(sets, limit, parts, more);
      SeenOrAhead(sets[..n], limit, parts[..n], true, x);
    }
    PartsEnd(parts, n);
    assert x in sets[n];
    if x !in Flat(parts[..n]) { LastCovers(sets, limit, parts, more, x); }
  }

  function KeysOf(xs: seq<Key>): set<Key> { set x | x in xs }

  lemma {:induction false} DistinctCount(xs: seq<Key>)
    requires forall i, j :: 0 <= i < j < |xs| ==> xs[i] != xs[j]
    ensures |KeysOf(xs)| == |xs|
  {
    if xs != [] {
      var n := |xs| - 1;
      DistinctCount(xs[..n]);
      assert KeysOf(xs) == KeysOf(xs[..n]) + {xs[n]};
    }
  }

  lemma SubsetIsSmaller(a: set<Key>, b: set<Key>)
    requires a <= b
    ensures |a| <= |b|
    decreases b
  {
    if a != {} {
      var x :| x in a;
      SubsetIsSmaller(a - {x}, b - {x});
    }
  }

  lemma ScaleUp(a: nat, b: nat, limit: nat)
    ensures a <= b ==> a * limit <= b * limit
  {
  }

  lemma DivideBound(n: nat, limit: nat, size: nat)
    requires limit >= 1 && n * limit <= size
    ensures n <= size / limit
  {
    var q, r := size / limit, size % limit;
    assert size == q * limit + r && (q + 1) * limit == q * limit + limit;
    ScaleUp(q + 1, n, limit);
  }

  /** The rows of a walk that goes on are bounded by the keys there ever were. */
  lemma FullPagesBounded(sets: seq<set<Key>>, limit: nat, parts: seq<seq<Key>>, universe: set<Key>)
    requires KeyWalk(sets, limit, parts, true) && forall i :: 0 <= i < |sets| ==> sets[i] <= universe
    ensures |parts| <= |universe| / limit
  {
    WalkStands(sets, limit, parts, true, |parts|);
    DescendingIsDistinct(Flat(parts));
    DistinctCount(Flat(parts));
    forall x | x in KeysOf(Flat(parts)) ensures x in universe {
      var i := RowsComeFrom(sets, limit, parts, true, x);
    }
    SubsetIsSmaller(KeysOf(Flat(parts)), universe);
    FullIsProduct(|parts|, limit);
    DivideBound(|parts|, limit, |universe|);
  }

  /** All rows after the first page lie below its last row. */
  lemma {:induction false} LaterRowsAreBelow(sets: seq<set<Key>>, limit: nat, parts: seq<seq<Key>>, more: bool, i: nat,
                                             x: Key)
    requires KeyWalk(sets, limit, parts, more) && 1 <= i < |parts| && x in parts[i]
    ensures BeforeOf(parts, 1).Some? && Less(x, BeforeOf(parts, 1).value)
  {
    assert GoodRows(sets[i - 1], limit, BeforeOf(parts, i - 1), parts[i - 1], true);
    assert GoodRows(sets[i], limit, BeforeOf(parts, i), parts[i], i < |parts| - 1 || more);
    assert x in Below(sets[i], BeforeOf(parts, i));
    if i > 1 {
      var y := parts[i - 1][limit - 1];
      LaterRowsAreBelow(sets, limit, parts, more, i - 1, y);
      Transitive(x, y, BeforeOf(parts, 1).value);
    }
  }

  /** What the later pages choose from, as long as it lies below the last row of the first page. */
  function TailSets(sets: seq<set<Key>>, parts: seq<seq<Key>>): seq<set<Key>>
    requires |sets| == |parts| >= 1
  {
    seq(|sets| - 1, i requires 0 <= i < |sets| - 1 => Below(sets[i + 1], BeforeOf(parts, 1)))
  }

  lemma TailIsWalk(sets: seq<set<Key>>, limit: nat, parts: seq<seq<Key>>, more: bool)
    requires KeyWalk(sets, limit, parts, more) && |parts| >= 2
    ensures KeyWalk(TailSets(sets, parts), limit, parts[1..], more)
  {
    var tails, rest := TailSets(sets, parts), parts[1..];
    forall i | 0 <= i < |rest|
      ensures GoodRows(tails[i], limit, BeforeOf(rest, i), rest[i], i < |rest| - 1 || more)
    {
      TailRowsAreGood(sets, limit, parts, more, i, BeforeOf(rest, i), tails[i], rest[i]);
    }
  }

  lemma TailRowsAreGood(sets: seq<set<Key>>, limit: nat, parts: seq<seq<Key>>, more: bool, i: nat, before: Option<Key>,
                        lower: set<Key>, rows: seq<Key>)
    requires KeyWalk(sets, limit, parts, more) && i + 1 < |parts| && before == BeforeOf(parts[1..], i)
    requires lower == Below(sets[i + 1], BeforeOf(parts, 1)) && rows == parts[i + 1]
    ensures GoodRows(lower, limit, before, rows, i + 1 < |parts| - 1 || more)
  {
    assert GoodRows(sets[i + 1], limit, BeforeOf(parts, i + 1), rows, i + 1 < |parts| - 1 || more);
    var mine, all := Below(lower, before), Below(sets[i + 1], BeforeOf(parts, i + 1));
    forall x | x in rows ensures x in mine { LaterRowsAreBelow(sets, limit, parts, more, i + 1, x); }
    forall x | x in mine ensures x in all {}
  }

  lemma TailBounded(sets: seq<set<Key>>, limit: nat, parts: seq<seq<Key>>, more: bool, universe: set<Key>)
    requires KeyWalk(sets, limit, parts, more) && |parts| >= 2
    requires forall i :: 1 <= i < |sets| ==> Below(sets[i], BeforeOf(parts, 1)) <= universe
    ensures |parts| <= |universe| / limit + 2
  {
    var tails, rest := TailSets(sets, parts), parts[1..];
    TailIsWalk(sets, limit, parts, more);
    EarlierWalk(tails, limit, rest, more);
    var full := tails[..|tails| - 1];
    forall i | 0 <= i < |full| ensures full[i] <= universe { assert full[i] == Below(sets[i + 1], BeforeOf(parts, 1)); }
    FullPagesBounded(full, limit, rest[..|rest| - 1], universe);
  }

  // ----- walks by cursor ---------------------------------------------------------------------------

  function CursorBefore(pages: seq<Answer>, i: nat): Option<seq<int>>
    requires i <= |pages|
  {
    if i == 0 then None else pages[i - 1].next
  }

  /**
   * `a` is the answer for the cursor; over every limit equal to `limit`, so that a page is worked out only where one
   * is named.
   */
  ghost predicate Answers(table: Table, q: Query, limit: nat, before: Option<seq<int>>, a: Answer) {
    forall l: nat :: l == limit ==> Page(table, q, l, before) == Some(a)
  }

  /** Page `i` was answered from the messages as they were then, for the cursor of the page before it. */
  ghost predicate IsWalk(tables: seq<Table>, q: Query, limit: nat, pages: seq<Answer>) {
    && |tables| == |pages| && limit >= 1 && ValidRange(q)
    && (forall i :: 0 <= i < |tables| ==> StorableTable(tables[i]))
    && (forall i :: 0 <= i < |pages| ==> Answers(tables[i], q, limit, CursorBefore(pages, i), pages[i]))
    && forall i :: 0 <= i < |pages| - 1 ==> pages[i].next.Some?
  }

  function Parts(pages: seq<Answer>): seq<seq<Key>> { seq(|pages|, i requires 0 <= i < |pages| => pages[i].items) }

  function Joined(pages: seq<Answer>): seq<Key> { Flat(Parts(pages)) }

  function Sets(tables: seq<Table>, q: Query): seq<set<Key>> {
    seq(|tables|, i requires 0 <= i < |tables| => Matching(tables[i], q))
  }

  lemma AnswerIsGood(table: Table, q: Query, limit: nat, before: Option<seq<int>>, a: Answer)
    requires StorableTable(table) && ValidRange(q) && Readable(before) && limit >= 1
             && Answers(table, q, limit, before, a)
    ensures GoodPage(table, q, limit, KeyOf(before), a)
  {
    PageIsGood(table, q, limit, before);
  }

  lemma {:induction false} PagesAreGood(tables: seq<Table>, q: Query, limit: nat, pages: seq<Answer>, i: nat)
    requires IsWalk(tables, q, limit, pages) && i < |pages|
    ensures Readable(CursorBefore(pages, i)) && KeyOf(CursorBefore(pages, i)) == BeforeOf(Parts(pages), i)
    ensures GoodPage(tables[i], q, limit, BeforeOf(Parts(pages), i), pages[i])
  {
    if i > 0 {
      PagesAreGood(tables, q, limit, pages, i - 1);
      assert pages[i - 1].next.Some?;
      assert Parts(pages)[i - 1] == pages[i - 1].items;
    }
    assert Answers(tables[i], q, limit, CursorBefore(pages, i), pages[i]);
    AnswerIsGood(tables[i], q, limit, CursorBefore(pages, i), pages[i]);
  }

  lemma PartIsGood(tables: seq<Table>, q: Query, limit: nat, pages: seq<Answer>, i: nat)
    requires IsWalk(tables, q, limit, pages) && i < |pages|
    ensures GoodRows(Matching(tables[i], q), limit, BeforeOf(Parts(pages), i), pages[i].items, pages[i].next.Some?)
    ensures i < |pages| - 1 ==> pages[i].next.Some?
  {
    PagesAreGood(tables, q, limit, pages, i);
  }

  lemma WalksInKeys(tables: seq<Table>, q: Query, limit: nat, pages: seq<Answer>)
    requires IsWalk(tables, q, limit, pages) && pages != []
    ensures KeyWalk(Sets(tables, q), limit, Parts(pages), pages[|pages| - 1].next.Some?)
  {
    var sets, parts, more := Sets(tables, q), Parts(pages), pages[|pages| - 1].next.Some?;
    forall i | 0 <= i < |parts|
      ensures GoodRows(sets[i], limit, BeforeOf(parts, i), parts[i], i < |parts| - 1 || more)
    {
      RowsAreGood(tables, q, limit, pages, i, sets[i], BeforeOf(parts, i), parts[i], i < |parts| - 1 || more);
    }
  }

  lemma RowsAreGood(tables: seq<Table>, q: Query, limit: nat, pages: seq<Answer>, i: nat,
                    keys: set<Key>, before: Option<Key>, items: seq<Key>, more: bool)
    requires IsWalk(tables, q, limit, pages) && i < |pages|
    requires keys == Matching(tables[i], q) && before == BeforeOf(Parts(pages), i) && items == pages[i].items
    requires more == (i < |pages| - 1 || pages[|pages| - 1].next.Some?)
    ensures GoodRows(keys, limit, before, items, more)
  {
    PartIsGood(tables, q, limit, pages, i);
  }

  /** Following a cursor is never refused. */
  lemma NextPageIsServed(tables: seq<Table>, q: Query, limit: nat, pages: seq<Answer>, table: Table)
    requires IsWalk(tables, q, limit, pages) && pages != [] && StorableTable(table)
    ensures Page(table, q, limit, pages[|pages| - 1].next).Some?
  {
    PagesAreGood(tables, q, limit, pages, |pages| - 1);
    PageIsGood(table, q, limit, pages[|pages| - 1].next);
  }

  /** A last row whose pair takes more than 192 characters cannot be paged past: its cursor is refused. */
  lemma LongCursorIsRefused(table: Table, q: Query, limit: nat, last: Key)
    requires ValidRange(q) && NoSplitPair(last.id)
    ensures Page(table, q, limit, Some(EncodeCursor(last.at, last.id))) == None <==> |Payload(last.at, last.id)| > 192
  {
    CursorRoundTripIff(last.at, last.id);
    CursorFitsIff(last.at, last.id);
    CursorIsNotNumeric(last.at, last.id);
  }

  /** No message comes twice: the joined pages strictly descend. */
  lemma WalkDescends(tables: seq<Table>, q: Query, limit: nat, pages: seq<Answer>)
    requires IsWalk(tables, q, limit, pages) && pages != []
    ensures IsDescending(Joined(pages))
    ensures forall i, j :: 0 <= i < j < |Joined(pages)| ==> Joined(pages)[i] != Joined(pages)[j]
  {
    WalksInKeys(tables, q, limit, pages);
    WalkStands(Sets(tables, q), limit, Parts(pages), pages[|pages| - 1].next.Some?, |pages|);
    DescendingIsDistinct(Joined(pages));
  }

  /**
   * A walk ends, however many messages come in above the last row of its first page: with `universe` holding every
   * message that ever matches below that row, it has at most |universe| / limit + 2 pages.
   */
  lemma WalkEnds(tables: seq<Table>, q: Query, limit: nat, pages: seq<Answer>, universe: set<Key>)
    requires IsWalk(tables, q, limit, pages) && pages != []
    requires forall i :: 1 <= i < |tables| ==> Below(Matching(tables[i], q), BeforeOf(Parts(pages), 1)) <= universe
    ensures |pages| <= |universe| / limit + 2
  {
    if |pages| >= 2 {
      WalksInKeys(tables, q, limit, pages);
      TailBounded(Sets(tables, q), limit, Parts(pages), pages[|pages| - 1].next.Some?, universe);
    }
  }

  /** A finished walk has shown every message that matched throughout. */
  lemma WalkIsComplete(tables: seq<Table>, q: Query, limit: nat, pages: seq<Answer>, x: Key)
    requires IsWalk(tables, q, limit, pages) && pages != [] && pages[|pages| - 1].next.None?
    requires forall i :: 0 <= i < |tables| ==> x in Matching(tables[i], q)
    ensures x in Joined(pages)
  {
    WalksInKeys(tables, q, limit, pages);
    SeenOrAhead(Sets(tables, q), limit, Parts(pages), false, x);
  }

  /** On messages that do not change, the joined pages are the whole sorted list. */
  lemma WalkOfFixedTable(tables: seq<Table>, q: Query, limit: nat, pages: seq<Answer>, table: Table)
    requires IsWalk(tables, q, limit, pages) && pages != [] && pages[|pages| - 1].next.None?
    requires forall i :: 0 <= i < |tables| ==> tables[i] == table
    ensures Joined(pages) == Descending(Matching(table, q))
    ensures forall k :: k in Joined(pages) <==> Wanted(table, q, None, k)
    ensures forall i, j :: 0 <= i < j < |Joined(pages)| ==> Earlier(Joined(pages)[j], Joined(pages)[i])
  {
    WalkDescends(tables, q, limit, pages);
    DescendingIsSorted(Matching(table, q));
    forall x ensures x in Joined(pages) <==> x in Descending(Matching(table, q)) {
      if x in Matching(table, q) { WalkIsComplete(tables, q, limit, pages, x); }
      if x in Joined(pages) {
        WalksInKeys(tables, q, limit, pages);
        var i := RowsComeFrom(Sets(tables, q), limit, Parts(pages), false, x);
      }
    }
    ListingIsUnique(Joined(pages), Descending(Matching(table, q)));
    ListedInOrder(table, q, Joined(pages));
  }

  lemma ListedInOrder(table: Table, q: Query, rows: seq<Key>)
    requires rows == Descending(Matching(table, q))
    ensures forall k :: k in rows <==> Wanted(table, q, None, k)
    ensures forall i, j :: 0 <= i < j < |rows| ==> Earlier(rows[j], rows[i])
  {
    DescendingIsSorted(Matching(table, q));
    forall k ensures k in Matching(table, q) <==> Wanted(table, q, None, k) { WantedIff(table, q, None, k); }
    forall i, j | 0 <= i < j < |rows| ensures Earlier(rows[j], rows[i]) { EarlierIff(rows[j], rows[i]); }
  }
}
