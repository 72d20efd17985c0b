/**
 What the engine's tables and its change feed have in common
 (internal/engine/apply.go, internal/store/migrations).

 A table is a map from row id to row. A query is a set of ids, handed back in whatever
 order the database likes: every result holds for every `RowOrder`.
 */
module Store {
  import opened Results

  // ---------------------------------------------------------------------------
  // Row ids

  lemma Member<T>(s: set<T>) returns (x: T)
    requires s != {}
    ensures x in s
  {
    x :| x in s;
  }

  lemma {:induction false} HasMax(s: set<int>)
    requires s != {}
    ensures exists m :: m in s && forall y <- s :: y <= m
  {
    var x := Member(s);
    var rest := s - {x};
    if rest == {} {
      assert s == {x};
    } else {
      HasMax(rest);
      var m :| m in rest && forall y <- rest :: y <= m;
      var top := if m < x then x else m;
      forall y <- s ensures y <= top {
        assert y == x || y in rest;
      }
      assert top in s;
    }
  }

  function MaxOf(s: set<int>): (m: int)
    requires s != {}
    ensures m in s && forall y <- s :: y <= m
  {
    HasMax(s);
    var m :| m in s && forall y <- s :: y <= m;
    m
  }

  lemma ValuesGrow(ids: map<string, int>, key: string, id: int)
    requires key !in ids
    ensures ids.Values <= ids[key := id].Values
  {
    forall v <- ids.Values ensures v in ids[key := id].Values {
      var k :| k in ids && ids[k] == v;
      assert ids[key := id][k] == v;
    }
  }

  /** The id SQLite gives the next row of a table: one more than the largest in use. */
  function NextId<T>(rows: map<int, T>): (id: int)
    ensures id !in rows && forall k <- rows :: k < id
  {
    if |rows.Keys| == 0 then 1 else MaxOf(rows.Keys) + 1
  }

  type RowOrder = set<int> -> seq<int>

  /** `order` lists every set of ids completely and without repeats. */
  ghost predicate Lists(order: RowOrder) {
    forall s: set<int> :: ListOf(order(s), s)
  }

  ghost predicate ListOf<T>(ids: seq<T>, s: set<T>) {
    && (forall i, j | 0 <= i < j < |ids| :: ids[i] != ids[j])
    && (forall i | 0 <= i < |ids| :: ids[i] in s)
    && (forall x <- s :: x in ids)
  }

  // ---------------------------------------------------------------------------
  // The change feed

  datatype Entity = HostEntity | ServiceEntity | PortEntity | RouteEntity | CertEntity | DomainEntity | ImageEntity

  datatype Kind = Added | Modified | Removed

  type Fields = map<string, string>
  type Diff = map<string, (string, string)>

  /** One scan: which connector it read, the run it is filed under, and when. */
  datatype Scan = Scan(connector: int, run: int, now: int)

  /** One line of the feed: which run filed it, when, about which row, and what. */
  datatype Change = Change(run: int, at: int, entity: Entity, id: int, kind: Kind, diff: Diff)

  function Entry(scan: Scan, e: Entity, id: int, kind: Kind, diff: Diff): Change {
    Change(scan.run, scan.now, e, id, kind, diff)
  }

  function Before(before: Fields, k: string): string {
    if k in before then before[k] else ""
  }

  function FieldsDiff(before: Fields, after: Fields): (d: Diff)
    ensures d == map[] <==> forall k <- after :: Before(before, k) == after[k]
    ensures forall k <- d :: k in after && d[k] == (Before(before, k), after[k]) && Before(before, k) != after[k]
    ensures forall k <- after :: k in d || Before(before, k) == after[k]
  {
    var d := map k | k in after && Before(before, k) != after[k] :: (Before(before, k), after[k]);
    assert d == map[] ==> forall k <- after :: Before(before, k) == after[k] by {
      if d == map[] {
        forall k <- after ensures Before(before, k) == after[k] {
          assert k !in d;
        }
      }
    }
    d
  }

  function DefaultString(v: string, d: string): string {
    if v == "" then d else v
  }

  /** The kind of the last entry about one row, if there is any. */
  function Last(log: seq<Change>, e: Entity, id: int): Option<Change> {
    if |log| == 0 then None
    else if log[|log| - 1].entity == e && log[|log| - 1].id == id then Some(log[|log| - 1])
    else Last(log[..|log| - 1], e, id)
  }

  /** An entry that may follow `last` in the story of one row. */
  predicate MayFollow(last: Option<Change>, c: Change) {
    match c.kind
    case Added => last.None? || last.value.kind == Removed
    case Removed => last.Some? && last.value.kind != Removed
    case Modified =>
      last.Some? && c.diff != map[] &&
      (last.value.kind == Removed ==> "state" in c.diff && c.diff["state"].0 == "gone")
  }

  /**
   The feed tells a lawful story about every row: it is added first, it is removed only while it
   is there, and after a removal comes either a modification that moves its state away from
   "gone" or, once the row was purged and its id used again, an addition.
   */
  predicate Lawful(log: seq<Change>) {
    |log| == 0 ||
    (Lawful(log[..|log| - 1]) &&
     MayFollow(Last(log[..|log| - 1], log[|log| - 1].entity, log[|log| - 1].id), log[|log| - 1]))
  }

  lemma Append(log: seq<Change>, c: Change)
    ensures Lawful(log + [c]) <==> Lawful(log) && MayFollow(Last(log, c.entity, c.id), c)
    ensures Last(log + [c], c.entity, c.id) == Some(c)
    ensures forall e, id | e != c.entity || id != c.id :: Last(log + [c], e, id) == Last(log, e, id)
    ensures forall e | e != c.entity :: SameStory(log, log + [c], e)
  {
    assert (log + [c])[..|log|] == log;
  }

  /** The entries about one kind of row. */
  function About(log: seq<Change>, e: Entity): seq<Change> {
    if |log| == 0 then []
    else About(log[..|log| - 1], e) + (if log[|log| - 1].entity == e then [log[|log| - 1]] else [])
  }

  lemma {:induction false} LastAbout(log: seq<Change>, e: Entity, id: int)
    ensures Last(log, e, id) == Last(About(log, e), e, id)
  {
    if |log| > 0 {
      var init, c := log[..|log| - 1], log[|log| - 1];
      LastAbout(init, e, id);
      if c.entity == e {
        Append(About(init, e), c);
      } else {
        assert About(log, e) == About(init, e);
      }
    }
  }

  // ---------------------------------------------------------------------------
  // Rows that outlive their observation

  /** A row of hosts, services, routes, certs or domains; `data` is what the kinds do not share. */
  datatype Row<+D> = Row(connector: int, key: string, state: string, updatedAt: int, data: D)

  const GONE := "gone"
  const ACTIVE := "active"

  ghost predicate Unique<D>(rows: map<int, Row<D>>) {
    forall i, j | i in rows && j in rows && rows[i].connector == rows[j].connector && rows[i].key == rows[j].key :: i == j
  }

  /** The row a connector holds under a key. */
  function FindKey<D>(rows: map<int, Row<D>>, connector: int, key: string): (r: Option<int>)
    ensures r.Some? ==> r.value in rows && rows[r.value].connector == connector && rows[r.value].key == key
    ensures r.None? ==> forall id <- rows :: rows[id].connector != connector || rows[id].key != key
  {
    var hits := set id | id in rows && rows[id].connector == connector && rows[id].key == key;
    if |hits| == 0 then
      assert forall id <- rows :: rows[id].connector == connector && rows[id].key == key ==> id in hits;
      None
    else Some(MaxOf(hits))
  }

  lemma FindKeyIs<D>(rows: map<int, Row<D>>, id: int)
    requires Unique(rows) && id in rows
    ensures FindKey(rows, rows[id].connector, rows[id].key) == Some(id)
  {
  }

  lemma PutUnique<D>(rows: map<int, Row<D>>, id: int, row: Row<D>)
    requires Unique(rows)
    requires FindKey(rows, row.connector, row.key).Some? ==> FindKey(rows, row.connector, row.key) == Some(id)
    ensures Unique(rows[id := row])
  {
    forall i | i in rows && i != id && rows[i].connector == row.connector ensures rows[i].key != row.key {
      if rows[i].key == row.key {
        FindKeyIs(rows, i);
      }
    }
  }

  /** The rows `markGone` ends: the connector's rows, not already gone, that the scan did not see. */
  function Absent<D>(rows: map<int, Row<D>>, connector: int, seen: set<string>): set<int> {
    set id | id in rows && rows[id].connector == connector && rows[id].state != GONE && rows[id].key !in seen
  }

  function Ended<D>(rows: map<int, Row<D>>, ids: set<int>, now: int): map<int, Row<D>> {
    map id | id in rows :: if id in ids then rows[id].(state := GONE, updatedAt := now) else rows[id]
  }

  lemma EndedUnique<D>(rows: map<int, Row<D>>, ids: set<int>, now: int)
    requires Unique(rows)
    ensures Unique(Ended(rows, ids, now))
  {
  }

  function RemovedEntry(e: Entity, scan: Scan, id: int): Change {
    Entry(scan, e, id, Removed, map["state" := (ACTIVE, GONE)])
  }

  function RemovedEntries(e: Entity, scan: Scan, ids: seq<int>): seq<Change> {
    if |ids| == 0 then []
    else RemovedEntries(e, scan, ids[..|ids| - 1]) + [RemovedEntry(e, scan, ids[|ids| - 1])]
  }

  /** The scan reported the row's key. */
  ghost predicate Claimed<D>(connector: int, keys: set<string>, row: Row<D>) {
    row.connector == connector && row.key in keys
  }

  /** A row no reported key has claimed is as it was. */
  ghost predicate Untouched<D>(connector: int, before: map<int, Row<D>>, keys: set<string>, rows: map<int, Row<D>>) {
    forall id <- rows :: Claimed(connector, keys, rows[id]) || (id in before && rows[id] == before[id])
  }

  lemma UntouchedKeeps<D>(connector: int, before: map<int, Row<D>>, keys: set<string>, rows: map<int, Row<D>>, id: int, row: Row<D>)
    requires Untouched(connector, before, keys, rows) && row.connector == connector
    ensures Untouched(connector, before, keys + {row.key}, rows[id := row])
  {
  }

  /** A row the scan did not report: another connector's is as it was, the connector's own is gone. */
  ghost predicate LeftBehind<D>(scan: Scan, before: map<int, Row<D>>, id: int, row: Row<D>) {
    id in before &&
    if before[id].connector != scan.connector || before[id].state == GONE then row == before[id]
    else row == before[id].(state := GONE, updatedAt := scan.now)
  }

  function PurgedRows<D>(rows: map<int, Row<D>>, cutoff: int): map<int, Row<D>> {
    map id | id in rows && !(rows[id].state == GONE && rows[id].updatedAt < cutoff) :: rows[id]
  }

  /** Rows that agree on everything but the time they were last written. */
  predicate SameRow<D(==)>(a: Row<D>, b: Row<D>) {
    a.(updatedAt := 0) == b.(updatedAt := 0)
  }

  predicate SameRows<D(==)>(a: map<int, Row<D>>, b: map<int, Row<D>>) {
    a.Keys == b.Keys && forall id <- a :: SameRow(a[id], b[id])
  }

  lemma SameRowAt<D>(a: map<int, Row<D>>, b: map<int, Row<D>>, id: int)
    requires SameRows(a, b) && id in a
    ensures id in b && SameRow(a[id], b[id])
  {
  }

  lemma SameRowsTrans<D>(a: map<int, Row<D>>, b: map<int, Row<D>>, c: map<int, Row<D>>)
    requires SameRows(a, b) && SameRows(b, c)
    ensures SameRows(a, c)
  {
    forall id <- a ensures SameRow(a[id], c[id]) {
      assert SameRow(a[id], b[id]) && SameRow(b[id], c[id]);
    }
  }

  lemma SameRowsUnique<D>(a: map<int, Row<D>>, b: map<int, Row<D>>)
    requires Unique(a) && SameRows(a, b)
    ensures Unique(b)
  {
    forall id <- b ensures b[id].connector == a[id].connector && b[id].key == a[id].key {
      assert SameRow(a[id], b[id]);
    }
  }

  lemma SameRowsFind<D>(a: map<int, Row<D>>, b: map<int, Row<D>>, connector: int, key: string)
    requires SameRows(a, b)
    ensures FindKey(a, connector, key) == FindKey(b, connector, key)
  {
    forall id <- a ensures a[id].connector == b[id].connector && a[id].key == b[id].key {
      assert SameRow(a[id], b[id]);
    }
    var x := set id | id in a && a[id].connector == connector && a[id].key == key;
    var y := set id | id in b && b[id].connector == connector && b[id].key == key;
    assert x == y;
  }

  // ---------------------------------------------------------------------------
  // The feed and the table

  /** For each row there is a last entry; it is a removal exactly when the row is gone, filed when the row was last written. */
  ghost predicate Tells<D>(rows: map<int, Row<D>>, log: seq<Change>, e: Entity) {
    && (forall id <- rows :: Last(log, e, id).Some? && LastWord(rows[id], Last(log, e, id).value))
    && (forall id | id !in rows :: Vacant(log, e, id))
  }

  ghost predicate LastWord<D>(row: Row<D>, last: Change) {
    (last.kind == Removed <==> row.state == GONE) && (row.state == GONE ==> last.at == row.updatedAt)
  }

  /** The row id is free: it was never used, or its last row was removed. */
  ghost predicate Vacant(log: seq<Change>, e: Entity, id: int) {
    Last(log, e, id).Some? ==> Last(log, e, id).value.kind == Removed
  }

  /** Nothing was filed about this kind of row in between. */
  ghost predicate SameStory(a: seq<Change>, b: seq<Change>, e: Entity) {
    About(a, e) == About(b, e)
  }

  lemma SameLast(a: seq<Change>, b: seq<Change>, e: Entity)
    requires SameStory(a, b, e)
    ensures forall id :: Last(a, e, id) == Last(b, e, id)
  {
    forall id ensures Last(a, e, id) == Last(b, e, id) {
      LastAbout(a, e, id);
      LastAbout(b, e, id);
    }
  }

  /** Filing one entry about one row, with the row it leaves behind. */
  lemma EntryTells<D>(rows: map<int, Row<D>>, log: seq<Change>, id: int, row: Row<D>, c: Change)
    requires Lawful(log) && Tells(rows, log, c.entity) && c.id == id
    requires MayFollow(Last(log, c.entity, id), c)
    requires LastWord(row, c)
    ensures Lawful(log + [c]) && Tells(rows[id := row], log + [c], c.entity)
    ensures forall o | o != c.entity :: SameStory(log, log + [c], o)
  {
    Append(log, c);
  }

  lemma SameStories(a: seq<Change>, b: seq<Change>, c: seq<Change>, e: Entity)
    requires forall o | o != e :: SameStory(a, b, o)
    requires forall o | o != e :: SameStory(b, c, o)
    ensures forall o | o != e :: SameStory(a, c, o)
  {
    forall o | o != e ensures SameStory(a, c, o) {
      assert SameStory(a, b, o) && SameStory(b, c, o);
    }
  }

  function Drop(s: set<int>, id: int): set<int> {
    s - {id}
  }

  lemma DropList(ids: seq<int>, s: set<int>)
    requires ListOf(ids, s) && |ids| > 0
    ensures ListOf(ids[..|ids| - 1], Drop(s, ids[|ids| - 1])) && ids[|ids| - 1] in s
  {
    var init, rest := ids[..|ids| - 1], Drop(s, ids[|ids| - 1]);
    forall x <- rest ensures x in init {
      assert x in ids;
    }
  }

  lemma {:induction false} RemovedTell<D>(rows: map<int, Row<D>>, log: seq<Change>, e: Entity, scan: Scan,
                                          ids: seq<int>, s: set<int>)
    requires Lawful(log) && Tells(rows, log, e) && ListOf(ids, s)
    requires forall id <- s :: id in rows && rows[id].state != GONE
    ensures
      var log' := log + RemovedEntries(e, scan, ids);
      Lawful(log') && Tells(Ended(rows, s, scan.now), log', e)
    ensures forall o | o != e :: SameStory(log, log + RemovedEntries(e, scan, ids), o)
    decreases |ids|
  {
    if |ids| == 0 {
      assert log + RemovedEntries(e, scan, ids) == log;
      assert forall id <- rows :: id !in s;
      assert Ended(rows, s, scan.now) == rows;
    } else {
      var init, id := ids[..|ids| - 1], ids[|ids| - 1];
      var rest := Drop(s, id);
      DropList(ids, s);
      RemovedTell(rows, log, e, scan, init, rest);
      var log1 := log + RemovedEntries(e, scan, init);
      var rows1 := Ended(rows, rest, scan.now);
      var c, row := RemovedEntry(e, scan, id), rows[id].(state := GONE, updatedAt := scan.now);
      assert log + RemovedEntries(e, scan, ids) == log1 + [c];
      assert Ended(rows, s, scan.now) == rows1[id := row];
      assert rows1[id] == rows[id];
      EntryTells(rows1, log1, id, row, c);
      SameStories(log, log1, log1 + [c], e);
    }
  }

  lemma MarkGoneTells<D>(rows: map<int, Row<D>>, log: seq<Change>, e: Entity, scan: Scan, seen: set<string>, order: RowOrder)
    requires Lists(order) && Lawful(log) && Tells(rows, log, e)
    ensures
      var absent := Absent(rows, scan.connector, seen);
      var log' := log + RemovedEntries(e, scan, order(absent));
      Lawful(log') && Tells(Ended(rows, absent, scan.now), log', e) && forall o | o != e :: SameStory(log, log', o)
  {
    var absent := Absent(rows, scan.connector, seen);
    assert ListOf(order(absent), absent);
    RemovedTell(rows, log, e, scan, order(absent), absent);
  }

  lemma StillTells<D>(rows: map<int, Row<D>>, a: seq<Change>, b: seq<Change>, e: Entity)
    requires Tells(rows, a, e) && SameStory(a, b, e)
    ensures Tells(rows, b, e)
  {
    SameLast(a, b, e);
    forall id | id !in rows ensures Vacant(b, e, id) {
      assert Vacant(a, e, id);
    }
  }

  lemma PurgeTells<D>(rows: map<int, Row<D>>, log: seq<Change>, e: Entity, cutoff: int)
    requires Tells(rows, log, e)
    ensures Tells(PurgedRows(rows, cutoff), log, e)
  {
  }

  lemma {:induction false} RemovedEntriesLength(e: Entity, scan: Scan, ids: seq<int>)
    ensures |RemovedEntries(e, scan, ids)| == |ids|
  {
    if |ids| > 0 {
      RemovedEntriesLength(e, scan, ids[..|ids| - 1]);
    }
  }

  // ---------------------------------------------------------------------------
  // What a scan files about one row

  /** The entries about one row. */
  function Story(log: seq<Change>, e: Entity, id: int): seq<Change> {
    if |log| == 0 then []
    else
      var c := log[|log| - 1];
      Story(log[..|log| - 1], e, id) + (if c.entity == e && c.id == id then [c] else [])
  }

  /** Between the two feeds exactly these entries were filed about the row. */
  predicate Filed(before: seq<Change>, after: seq<Change>, e: Entity, id: int, entries: seq<Change>) {
    Story(after, e, id) == Story(before, e, id) + entries
  }

  /** Of columns with their old and new values, those that moved. */
  function Changed(columns: map<string, (string, string)>): (diff: Diff)
    ensures forall k :: k in diff <==> k in columns && columns[k].0 != columns[k].1
    ensures forall k <- diff :: diff[k] == columns[k]
  {
    map k | k in columns && columns[k].0 != columns[k].1 :: columns[k]
  }

  lemma StoryAppend(log: seq<Change>, c: Change, e: Entity, id: int)
    ensures Story(log + [c], e, id) == Story(log, e, id) + (if c.entity == e && c.id == id then [c] else [])
  {
    assert (log + [c])[..|log|] == log;
  }

  /** At most one entry, about the row or about another. */
  lemma StoryOf(log: seq<Change>, entries: seq<Change>, e: Entity, id: int, at: int)
    requires |entries| <= 1 && forall c <- entries :: c.entity == e && c.id == at
    ensures Filed(log, log + entries, e, id, if id == at then entries else [])
  {
    if |entries| == 0 {
      assert log + entries == log;
    } else {
      assert entries == [entries[0]] && entries[0] in entries;
      StoryAppend(log, entries[0], e, id);
    }
  }

  /** One more entry at most, about one row. */
  lemma StoryGoesOn(log: seq<Change>, now: seq<Change>, entries: seq<Change>, e: Entity, id: int, at: int, filed: seq<Change>)
    requires Filed(log, now, e, id, filed)
    requires |entries| <= 1 && forall c <- entries :: c.entity == e && c.id == at
    ensures Filed(log, now + entries, e, id, if id == at then filed + entries else filed)
  {
    StoryOf(now, entries, e, id, at);
  }

  lemma {:induction false} RemovedStory(log: seq<Change>, e: Entity, scan: Scan, ids: seq<int>, id: int)
    requires forall i, j | 0 <= i < j < |ids| :: ids[i] != ids[j]
    ensures Filed(log, log + RemovedEntries(e, scan, ids), e, id, if id in ids then [RemovedEntry(e, scan, id)] else [])
  {
    if |ids| == 0 {
      assert log + RemovedEntries(e, scan, ids) == log;
    } else {
      var init, c := ids[..|ids| - 1], RemovedEntry(e, scan, ids[|ids| - 1]);
      RemovedStory(log, e, scan, init, id);
      assert log + RemovedEntries(e, scan, ids) == log + RemovedEntries(e, scan, init) + [c];
      StoryAppend(log + RemovedEntries(e, scan, init), c, e, id);
      assert id in ids <==> id in init || id == ids[|ids| - 1];
    }
  }

  /** `markGone` files one removal about each row it ends, and nothing about any other. */
  lemma AbsentStory<D>(rows: map<int, Row<D>>, log: seq<Change>, e: Entity, scan: Scan, seen: set<string>, order: RowOrder, id: int)
    requires Lists(order)
    ensures
      var absent := Absent(rows, scan.connector, seen);
      Filed(log, log + RemovedEntries(e, scan, order(absent)), e, id,
            if id in absent then [Change(scan.run, scan.now, e, id, Removed, map["state" := ("active", "gone")])] else [])
  {
    var absent := Absent(rows, scan.connector, seen);
    assert ListOf(order(absent), absent);
    RemovedStory(log, e, scan, order(absent), id);
  }

  /** What becomes of a row no reported key is on: the connector's live one is ended with one removal. */
  lemma UnreportedEnds<D>(before: map<int, Row<D>>, rows: map<int, Row<D>>, log: seq<Change>, now: seq<Change>, e: Entity,
                          scan: Scan, seen: set<string>, order: RowOrder, id: int)
    requires Lists(order) && Filed(log, now, e, id, [])
    requires id in rows <==> id in before
    requires id in before ==> rows[id] == before[id] && (rows[id].connector == scan.connector ==> rows[id].key !in seen)
    ensures
      var absent := Absent(rows, scan.connector, seen);
      var ended, after := Ended(rows, absent, scan.now), now + RemovedEntries(e, scan, order(absent));
      if id in before && before[id].connector == scan.connector && before[id].state != "gone" then
        && id in ended && ended[id] == before[id].(state := "gone", updatedAt := scan.now)
        && Filed(log, after, e, id, [Change(scan.run, scan.now, e, id, Removed, map["state" := ("active", "gone")])])
      else
        && (id in ended <==> id in before) && (id in before ==> ended[id] == before[id])
        && Filed(log, after, e, id, [])
  {
    AbsentStory(rows, now, e, scan, seen, order, id);
  }

  lemma FiledThen(a: seq<Change>, b: seq<Change>, c: seq<Change>, e: Entity, id: int, x: seq<Change>, y: seq<Change>)
    requires Filed(a, b, e, id, x) && Filed(b, c, e, id, y)
    ensures Filed(a, c, e, id, x + y)
  {
  }

  /** What the difference of two rows' compared columns comes to. */
  lemma DiffIsChanged(before: Fields, after: Fields, columns: map<string, (string, string)>)
    requires columns.Keys == after.Keys && forall k <- columns :: columns[k] == (Before(before, k), after[k])
    ensures FieldsDiff(before, after) == Changed(columns)
  {
  }
}
