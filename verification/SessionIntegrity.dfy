/**
 * Comparing two snapshots of the business sessions (war_room_session_integrity.py) and the gate that reads the
 * comparison's counts (war_room_actions.py).
 */
module SessionIntegrity {
  import opened Wrappers

  datatype Session = Session(
    agent: string, key: string, present: bool, messages: int, size: int, mtime: Option<string>, sha: string)

  datatype Snapshot = Snapshot(encoding: Option<string>, sessions: seq<Session>)

  datatype Key = Key(agent: string, key: string)

  datatype Field = Exists | MessageCount | Size | Mtime | Sha256

  datatype Change = Change(key: Key, fields: seq<Field>)

  datatype Report = Report(preCount: int, postCount: int, deleted: int, uncertain: int, changes: seq<Change>)

  const EXACT := "decimal_string"

  function KeyOf(s: Session): Key { Key(s.agent, s.key) }

  /** One entry per key; a later row replaces an earlier one. */
  function Index(rows: seq<Session>): map<Key, Session> {
    if rows == [] then map[] else Index(rows[..|rows| - 1])[KeyOf(rows[|rows| - 1]) := rows[|rows| - 1]]
  }

  /** The keys in the order of their first appearance. */
  function Order(rows: seq<Session>): seq<Key> {
    if rows == [] then []
    else
      var before := Order(rows[..|rows| - 1]);
      var k := KeyOf(rows[|rows| - 1]);
      if k in before then before else before + [k]
  }

  lemma {:induction false} OrderIsKeys(rows: seq<Session>)
    ensures NoDuplicates(Order(rows)) && forall k :: k in Order(rows) <==> k in Index(rows)
  {
    if rows != [] { OrderIsKeys(rows[..|rows| - 1]); }
  }

  predicate Differs(f: Field, a: Session, b: Session) {
    match f
    case Exists => a.present != b.present
    case MessageCount => a.messages != b.messages
    case Size => a.size != b.size
    case Mtime => a.mtime != b.mtime
    case Sha256 => a.sha != b.sha
  }

  predicate SameTracked(a: Session, b: Session) {
    a.present == b.present && a.messages == b.messages && a.size == b.size && a.mtime == b.mtime && a.sha == b.sha
  }

  const FIELDS := [Exists, MessageCount, Size, Mtime, Sha256]

  function Differing(fields: seq<Field>, a: Session, b: Session): seq<Field> {
    if fields == [] then []
    else
      var before := Differing(fields[..|fields| - 1], a, b);
      var f := fields[|fields| - 1];
      if Differs(f, a, b) then before + [f] else before
  }

  function ChangedFields(k: Key, was: Session, after: map<Key, Session>): seq<Field> {
    if k !in after then FIELDS else Differing(FIELDS, was, after[k])
  }

  predicate IsDeleted(k: Key, before: map<Key, Session>, after: map<Key, Session>)
    requires k in before
  {
    before[k].present && (k !in after || !after[k].present)
  }

  function Changes(order: seq<Key>, before: map<Key, Session>, after: map<Key, Session>): seq<Change>
    requires forall k :: k in order ==> k in before
    decreases |order|
  {
    if order == [] then []
    else
      var k := order[|order| - 1];
      var rest := Changes(order[..|order| - 1], before, after);
      if ChangedFields(k, before[k], after) != [] then rest + [Change(k, ChangedFields(k, before[k], after))] else rest
  }

  function Deletions(order: seq<Key>, before: map<Key, Session>, after: map<Key, Session>): nat
    requires forall k :: k in order ==> k in before
    decreases |order|
  {
    if order == [] then 0
    else Deletions(order[..|order| - 1], before, after) + if IsDeleted(order[|order| - 1], before, after) then 1 else 0
  }

  predicate BothExact(pre: Snapshot, post: Snapshot) { pre.encoding == Some(EXACT) && post.encoding == Some(EXACT) }

  function Compared(pre: Snapshot, post: Snapshot): Report {
    if !BothExact(pre, post) then Report(|pre.sessions|, |post.sessions|, 0, 1, [])
    else
      OrderIsKeys(pre.sessions);
      var before, after, order := Index(pre.sessions), Index(post.sessions), Order(pre.sessions);
      Report(|before|, |after|, Deletions(order, before, after), 0, Changes(order, before, after))
  }

  // ----- what a comparison reports, in terms of the rows -------------------------------------------------

  /** The row that counts for its key: the last one with that agent and session key. */
  ghost predicate IsRowOf(rows: seq<Session>, k: Key, s: Session) {
    exists i :: 0 <= i < |rows| && rows[i] == s && (s.agent, s.key) == (k.agent, k.key)
                && forall j :: i < j < |rows| ==> (rows[j].agent, rows[j].key) != (k.agent, k.key)
  }

  ghost predicate HasRow(rows: seq<Session>, k: Key) {
    exists i :: 0 <= i < |rows| && (rows[i].agent, rows[i].key) == (k.agent, k.key)
  }

  ghost function KeysOf(rows: seq<Session>): set<Key> { set s | s in rows :: Key(s.agent, s.key) }

  /** The tracked fields in which two rows of a session differ, in the order of the report. */
  ghost function FieldsBetween(a: Session, b: Session): seq<Field> {
    (if a.present == b.present then [] else [Exists])
    + (if a.messages == b.messages then [] else [MessageCount])
    + (if a.size == b.size then [] else [Size])
    + (if a.mtime == b.mtime then [] else [Mtime])
    + (if a.sha == b.sha then [] else [Sha256])
  }

  /** These fields of the session have changed; when it is gone, all of them have. */
  ghost predicate HasChanged(pre: seq<Session>, post: seq<Session>, k: Key, fields: seq<Field>) {
    && HasRow(pre, k)
    && if HasRow(post, k) then
         exists a, b :: IsRowOf(pre, k, a) && IsRowOf(post, k, b) && fields == FieldsBetween(a, b)
       else fields == [Exists, MessageCount, Size, Mtime, Sha256]
  }

  /** The session was there and is no more. */
  ghost predicate Vanished(pre: seq<Session>, post: seq<Session>, k: Key) {
    (exists a :: IsRowOf(pre, k, a) && a.present) && forall b :: IsRowOf(post, k, b) ==> !b.present
  }

  /** Key `k` appears in the rows before key `l` first does. */
  ghost predicate AppearsBefore(rows: seq<Session>, k: Key, l: Key) {
    exists n :: 0 <= n < |rows| && KeyOf(rows[n]) == k && forall m :: 0 <= m <= n ==> KeyOf(rows[m]) != l
  }

  /** One change for each session whose tracked fields differ, in the order in which the sessions first appear. */
  ghost predicate ListsChanges(pre: seq<Session>, post: seq<Session>, changes: seq<Change>) {
    && (forall i :: 0 <= i < |changes| ==>
          changes[i].fields != [] && HasChanged(pre, post, changes[i].key, changes[i].fields))
    && (forall k, fields :: HasChanged(pre, post, k, fields) && fields != [] ==> Change(k, fields) in changes)
    && forall i, j :: 0 <= i < j < |changes| ==> AppearsBefore(pre, changes[i].key, changes[j].key)
  }

  /** What the report of a comparison says. */
  ghost predicate Reports(pre: Snapshot, post: Snapshot, r: Report) {
    if pre.encoding == Some("decimal_string") && post.encoding == Some("decimal_string") then
      && r.preCount == |KeysOf(pre.sessions)| && r.postCount == |KeysOf(post.sessions)| && r.uncertain == 0
      && r.deleted == |set k | k in KeysOf(pre.sessions) && Vanished(pre.sessions, post.sessions, k)|
      && ListsChanges(pre.sessions, post.sessions, r.changes)
    else r == Report(|pre.sessions|, |post.sessions|, 0, 1, [])
  }

  /** The index holds for each key the row that counts. */
  lemma {:induction false} IndexIsLast(rows: seq<Session>, k: Key)
    ensures k in Index(rows) <==> HasRow(rows, k)
    ensures k in Index(rows) ==> IsRowOf(rows, k, Index(rows)[k])
  {
    if rows != [] {
      var n := |rows| - 1;
      IndexIsLast(rows[..n], k);
      if HasRow(rows, k) && KeyOf(rows[n]) != k {
        var i :| 0 <= i < |rows| && (rows[i].agent, rows[i].key) == (k.agent, k.key);
        assert rows[..n][i] == rows[i];
        var s := Index(rows[..n])[k];
        var j :| 0 <= j < n && rows[..n][j] == s
                 && forall m :: j < m < n ==> (rows[..n][m].agent, rows[..n][m].key) != (k.agent, k.key);
        assert forall m :: j < m < n ==> rows[..n][m] == rows[m];
      } else if HasRow(rows[..n], k) {
        var i :| 0 <= i < n && (rows[..n][i].agent, rows[..n][i].key) == (k.agent, k.key);
        assert rows[i] == rows[..n][i];
      }
    }
  }

  lemma OneRowEach(rows: seq<Session>, k: Key, s: Session)
    requires IsRowOf(rows, k, s)
    ensures k in Index(rows) && Index(rows)[k] == s
  {
    IndexIsLast(rows, k);
    var i :| 0 <= i < |rows| && rows[i] == s && (s.agent, s.key) == (k.agent, k.key)
             && forall j :: i < j < |rows| ==> (rows[j].agent, rows[j].key) != (k.agent, k.key);
    assert HasRow(rows, k);
    var t := Index(rows)[k];
    var j :| 0 <= j < |rows| && rows[j] == t && (t.agent, t.key) == (k.agent, k.key)
             && forall m :: j < m < |rows| ==> (rows[m].agent, rows[m].key) != (k.agent, k.key);
    assert i == j;
  }

  lemma IndexKeys(rows: seq<Session>)
    ensures Index(rows).Keys == KeysOf(rows)
  {
    forall k ensures k in Index(rows) <==> k in KeysOf(rows) {
      IndexIsLast(rows, k);
      if k in KeysOf(rows) {
        var s :| s in rows && k == Key(s.agent, s.key);
        var i :| 0 <= i < |rows| && rows[i] == s;
      }
    }
  }

  lemma DifferingIs(a: Session, b: Session)
    ensures Differing(FIELDS, a, b) == FieldsBetween(a, b)
  {
    var f1, f2, f3, f4 := FIELDS[..1], FIELDS[..2], FIELDS[..3], FIELDS[..4];
    assert f1 == [Exists] && f2 == [Exists, MessageCount] && f3 == [Exists, MessageCount, Size];
    assert f4 == [Exists, MessageCount, Size, Mtime];
    DifferingNext([], Exists, a, b);
    DifferingNext(f1, MessageCount, a, b);
    DifferingNext(f2, Size, a, b);
    DifferingNext(f3, Mtime, a, b);
    DifferingNext(f4, Sha256, a, b);
    assert [] + [Exists] == f1 && f1 + [MessageCount] == f2 && f2 + [Size] == f3 && f3 + [Mtime] == f4;
    assert f4 + [Sha256] == FIELDS;
  }

  lemma DifferingNext(fields: seq<Field>, f: Field, a: Session, b: Session)
    ensures Differing(fields + [f], a, b) == Differing(fields, a, b) + if Differs(f, a, b) then [f] else []
  {
    assert (fields + [f])[..|fields|] == fields;
  }

  lemma ChangedIs(pre: seq<Session>, post: seq<Session>, k: Key)
    requires k in Index(pre)
    ensures HasChanged(pre, post, k, ChangedFields(k, Index(pre)[k], Index(post)))
    ensures forall fields :: HasChanged(pre, post, k, fields) ==> fields == ChangedFields(k, Index(pre)[k], Index(post))
  {
    IndexIsLast(pre, k);
    IndexIsLast(post, k);
    if k in Index(post) { DifferingIs(Index(pre)[k], Index(post)[k]); }
    forall fields | HasChanged(pre, post, k, fields)
      ensures fields == ChangedFields(k, Index(pre)[k], Index(post))
    {
      if HasRow(post, k) {
        var a, b :| IsRowOf(pre, k, a) && IsRowOf(post, k, b) && fields == FieldsBetween(a, b);
        OneRowEach(pre, k, a);
        OneRowEach(post, k, b);
      }
    }
  }

  lemma VanishedIff(pre: seq<Session>, post: seq<Session>, k: Key)
    requires k in Index(pre)
    ensures IsDeleted(k, Index(pre), Index(post)) <==> Vanished(pre, post, k)
  {
    IndexIsLast(pre, k);
    IndexIsLast(post, k);
    forall a | IsRowOf(pre, k, a) ensures a == Index(pre)[k] { OneRowEach(pre, k, a); }
    forall b | IsRowOf(post, k, b) ensures k in Index(post) && b == Index(post)[k] { OneRowEach(post, k, b); }
  }

  ghost function Gone(order: seq<Key>, before: map<Key, Session>, after: map<Key, Session>): set<Key>
    requires forall k :: k in order ==> k in before
  {
    set k | k in order && IsDeleted(k, before, after)
  }

  lemma GoneNext(order: seq<Key>, n: nat, before: map<Key, Session>, after: map<Key, Session>)
    requires NoDuplicates(order) && n + 1 == |order| && forall k :: k in order ==> k in before
    ensures order[n] !in Gone(order[..n], before, after)
    ensures Gone(order, before, after) ==
            if IsDeleted(order[n], before, after) then Gone(order[..n], before, after) + {order[n]}
            else Gone(order[..n], before, after)
  {
    forall k ensures k in order <==> k in order[..n] || k == order[n] {}
  }

  lemma {:induction false} DeletionsCount(order: seq<Key>, before: map<Key, Session>, after: map<Key, Session>)
    requires NoDuplicates(order) && forall k :: k in order ==> k in before
    ensures Deletions(order, before, after) == |Gone(order, before, after)|
    decreases |order|
  {
    if order != [] {
      var n := |order| - 1;
      DeletionsCount(order[..n], before, after);
      GoneNext(order, n, before, after);
    }
  }

  /** Positions in the order show in the rows. */
  lemma {:induction false} OrderAppears(rows: seq<Session>, i: nat, j: nat)
    requires i < j < |Order(rows)|
    ensures AppearsBefore(rows, Order(rows)[i], Order(rows)[j])
  {
    var n := |rows| - 1;
    var k, l := Order(rows)[i], Order(rows)[j];
    OrderIsKeys(rows[..n]);
    if j < |Order(rows[..n])| {
      OrderAppears(rows[..n], i, j);
      var m :| 0 <= m < n && KeyOf(rows[..n][m]) == k && forall p :: 0 <= p <= m ==> KeyOf(rows[..n][p]) != l;
      assert forall p :: 0 <= p <= m ==> rows[..n][p] == rows[p];
    } else {
      assert k in Order(rows[..n]) && l !in Order(rows[..n]);
      IndexIsLast(rows[..n], k);
      IndexIsLast(rows[..n], l);
      var m :| 0 <= m < n && (rows[..n][m].agent, rows[..n][m].key) == (k.agent, k.key);
      forall p | 0 <= p <= m ensures KeyOf(rows[p]) != l { assert rows[..n][p] == rows[p]; }
      assert KeyOf(rows[m]) == k;
    }
  }

  /** The changes are those of the keys in order that have one. */
  lemma {:induction false} ChangesFollow(order: seq<Key>, before: map<Key, Session>, after: map<Key, Session>)
    requires forall k :: k in order ==> k in before
    ensures forall c :: c in Changes(order, before, after) <==>
              c.key in order && c.fields != [] && c.fields == ChangedFields(c.key, before[c.key], after)
    decreases |order|
  {
    if order != [] {
      var n := |order| - 1;
      ChangesFollow(order[..n], before, after);
      assert forall k :: k in order <==> k in order[..n] || k == order[n];
    }
  }

  lemma {:induction false} ChangesInOrder(order: seq<Key>, before: map<Key, Session>, after: map<Key, Session>,
                                          i: nat, j: nat) returns (p: nat, q: nat)
    requires forall k :: k in order ==> k in before
    requires i < j < |Changes(order, before, after)|
    ensures p < q < |order|
    ensures order[p] == Changes(order, before, after)[i].key && order[q] == Changes(order, before, after)[j].key
    decreases |order|
  {
    var n := |order| - 1;
    var rest := Changes(order[..n], before, after);
    if j < |rest| {
      p, q := ChangesInOrder(order[..n], before, after, i, j);
    } else {
      ChangesFollow(order[..n], before, after);
      assert rest[i] in rest;
      p :| 0 <= p < n && order[..n][p] == rest[i].key;
      q := n;
    }
  }

  /** The comparison reports just that. */
  lemma ComparedMeans(pre: Snapshot, post: Snapshot)
    ensures Reports(pre, post, Compared(pre, post))
  {
    if BothExact(pre, post) {
      var before, after, order := Index(pre.sessions), Index(post.sessions), Order(pre.sessions);
      OrderIsKeys(pre.sessions);
      IndexKeys(pre.sessions);
      IndexKeys(post.sessions);
      assert |before| == |before.Keys| && |after| == |after.Keys|;
      CountsVanished(pre.sessions, post.sessions, order);
      ListedChanges(pre.sessions, post.sessions, order);
    }
  }

  lemma CountsVanished(pre: seq<Session>, post: seq<Session>, order: seq<Key>)
    requires order == Order(pre) && forall k :: k in order ==> k in Index(pre)
    ensures Deletions(order, Index(pre), Index(post)) == |set k | k in KeysOf(pre) && Vanished(pre, post, k)|
  {
    OrderIsKeys(pre);
    IndexKeys(pre);
    DeletionsCount(order, Index(pre), Index(post));
    forall k | k in order ensures IsDeleted(k, Index(pre), Index(post)) <==> Vanished(pre, post, k) {
      VanishedIff(pre, post, k);
    }
    assert Gone(order, Index(pre), Index(post)) == (set k | k in KeysOf(pre) && Vanished(pre, post, k));
  }

  lemma ListedChanges(pre: seq<Session>, post: seq<Session>, order: seq<Key>)
    requires order == Order(pre) && forall k :: k in order ==> k in Index(pre)
    ensures ListsChanges(pre, post, Changes(order, Index(pre), Index(post)))
  {
    var before, after := Index(pre), Index(post);
    var changes := Changes(order, before, after);
    ChangesFollow(order, before, after);
    forall i | 0 <= i < |changes|
      ensures changes[i].fields != [] && HasChanged(pre, post, changes[i].key, changes[i].fields)
    {
      assert changes[i] in changes;
      ChangedIs(pre, post, changes[i].key);
    }
    forall k, fields | HasChanged(pre, post, k, fields) && fields != [] ensures Change(k, fields) in changes {
      OrderIsKeys(pre);
      IndexIsLast(pre, k);
      ChangedIs(pre, post, k);
      assert Change(k, fields).key in order;
    }
    forall i, j | 0 <= i < j < |changes| ensures AppearsBefore(pre, changes[i].key, changes[j].key) {
      var p, q := ChangesInOrder(order, before, after, i, j);
      OrderAppears(pre, p, q);
    }
  }

  // ----- the comparison as it runs -----------------------------------------------------------------------

  method IndexRows(rows: seq<Session>) returns (index: map<Key, Session>, order: seq<Key>)
    ensures index == Index(rows) && order == Order(rows)
    ensures forall k :: (k in index <==> HasRow(rows, k)) && (k in index ==> IsRowOf(rows, k, index[k]))
  {
    forall k
      ensures (k in Index(rows) <==> HasRow(rows, k)) && (k in Index(rows) ==> IsRowOf(rows, k, Index(rows)[k]))
    {
      IndexIsLast(rows, k);
    }
    index, order := map[], [];
    for i := 0 to |rows|
      invariant index == Index(rows[..i]) && order == Order(rows[..i])
    {
      assert rows[..i + 1][..i] == rows[..i];
      var k := KeyOf(rows[i]);
      index := index[k := rows[i]];
      if k !in order { order := order + [k]; }
    }
    assert rows[..|rows|] == rows;
  }

  method CompareFields(a: Session, b: Session) returns (fields: seq<Field>)
    ensures fields == Differing(FIELDS, a, b) == FieldsBetween(a, b)
  {
    DifferingIs(a, b);
    fields := [];
    for i := 0 to |FIELDS|
      invariant fields == Differing(FIELDS[..i], a, b)
    {
      assert FIELDS[..i + 1][..i] == FIELDS[..i];
      if Differs(FIELDS[i], a, b) { fields := fields + [FIELDS[i]]; }
    }
    assert FIELDS[..|FIELDS|] == FIELDS;
  }

  /** The two walks over the earlier sessions. */
  method CompareSessions(order: seq<Key>, before: map<Key, Session>, after: map<Key, Session>)
    returns (changes: seq<Change>, deleted: nat)
    requires forall k :: k in order ==> k in before
    ensures changes == Changes(order, before, after) && deleted == Deletions(order, before, after)
  {
    changes, deleted := [], 0;
    for i := 0 to |order|
      invariant changes == Changes(order[..i], before, after)
      invariant deleted == Deletions(order[..i], before, after)
    {
      assert order[..i + 1][..i] == order[..i];
      var k := order[i];
      assert k in order;
      var fields := FIELDS;
      if k in after { fields := CompareFields(before[k], after[k]); }
      if fields != [] { changes := changes + [Change(k, fields)]; }
      if before[k].present && (k !in after || !after[k].present) { deleted := deleted + 1; }
    }
    assert order[..|order|] == order;
  }

  method Compare(pre: Snapshot, post: Snapshot) returns (r: Report)
    ensures r == Compared(pre, post) && Reports(pre, post, r)
  {
    ComparedMeans(pre, post);
    if pre.encoding != Some(EXACT) || post.encoding != Some(EXACT) {
      return Report(|pre.sessions|, |post.sessions|, 0, 1, []);
    }
    var before, order := IndexRows(pre.sessions);
    var after, _ := IndexRows(post.sessions);
    OrderIsKeys(pre.sessions);
    var changes, deleted := CompareSessions(order, before, after);
    r := Report(|before|, |after|, deleted, 0, changes);
  }

  /** The gate: equal counts, and nothing changed, deleted or uncertain. */
  predicate GateAccepts(r: Report) {
    r.preCount == r.postCount && |r.changes| == 0 && r.deleted == 0 && r.uncertain == 0
  }

  // ----- the gate is exact ---------------------------------------------------------------------

  lemma {:induction false} DifferingIsEmpty(fields: seq<Field>, a: Session, b: Session)
    ensures Differing(fields, a, b) == [] <==> forall i :: 0 <= i < |fields| ==> !Differs(fields[i], a, b)
  {
    if fields != [] { DifferingIsEmpty(fields[..|fields| - 1], a, b); }
  }

  lemma TrackedIffNoField(a: Session, b: Session)
    ensures Differing(FIELDS, a, b) == [] <==> SameTracked(a, b)
  {
    DifferingIsEmpty(FIELDS, a, b);
    assert FIELDS[0] == Exists && FIELDS[1] == MessageCount && FIELDS[2] == Size && FIELDS[3] == Mtime
           && FIELDS[4] == Sha256;
  }

  ghost predicate Kept(k: Key, before: map<Key, Session>, after: map<Key, Session>)
    requires k in before
  {
    k in after && SameTracked(before[k], after[k])
  }

  lemma {:induction false} NoChangesIffKept(order: seq<Key>, before: map<Key, Session>, after: map<Key, Session>)
    requires forall k :: k in order ==> k in before
    ensures Changes(order, before, after) == [] <==> forall k :: k in order ==> Kept(k, before, after)
    ensures Changes(order, before, after) == [] ==> Deletions(order, before, after) == 0
    decreases |order|
  {
    if order != [] {
      var n := |order| - 1;
      var last := order[n];
      NoChangesIffKept(order[..n], before, after);
      if last in after { TrackedIffNoField(before[last], after[last]); }
      assert ChangedFields(last, before[last], after) == [] <==> Kept(last, before, after);
      assert last in order && forall k :: k in order[..n] ==> k in order;
      assert forall k :: k in order ==> k in order[..n] || k == last;
    }
  }

  lemma SameSizeSubset(a: set<Key>, b: set<Key>)
    requires a <= b && |a| == |b|
    ensures a == b
    decreases a
  {
    if a != {} {
      var x :| x in a;
      SameSizeSubset(a - {x}, b - {x});
    }
  }

  /** The same sessions, each with the same five tracked fields. */
  ghost predicate SameSessions(before: map<Key, Session>, after: map<Key, Session>) {
    before.Keys == after.Keys && forall k :: k in before ==> Kept(k, before, after)
  }

  /**
   * The gate accepts a comparison exactly when both snapshots carry exact times and hold the same sessions with the
   * same tracked fields.
   */
  lemma GateIsExact(pre: Snapshot, post: Snapshot)
    ensures GateAccepts(Compared(pre, post)) <==>
            BothExact(pre, post) && SameSessions(Index(pre.sessions), Index(post.sessions))
  {
    if BothExact(pre, post) {
      var before, after := Index(pre.sessions), Index(post.sessions);
      OrderIsKeys(pre.sessions);
      NoChangesIffKept(Order(pre.sessions), before, after);
      assert |before| == |before.Keys| && |after| == |after.Keys|;
      if GateAccepts(Compared(pre, post)) {
        forall k | k in before ensures Kept(k, before, after) { assert k in Order(pre.sessions); }
        SameSizeSubset(before.Keys, after.Keys);
      }
    }
  }
}
