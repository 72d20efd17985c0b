/**
 Routes, certificates and domains (internal/engine/apply.go, applyRoutes, applyCerts, applyDomains):
 one loop, three tables. A row is found by (connector, key) or inserted, its columns are overwritten,
 an entry is filed when a tracked column or the state moved, and what the scan missed goes.
 */
module Observed {
  import opened Results
  import opened Store

  /** What a scan reports: the key, the columns the feed compares, and the columns it does not. */
  datatype Item<+P> = Item(key: string, tracked: Fields, payload: P)

  datatype Stored<+P> = Stored(tracked: Fields, payload: P)

  type Rows<P> = map<int, Row<Stored<P>>>

  datatype Context = Context(entity: Entity, scan: Scan, order: RowOrder)

  function KeysOf<P>(items: seq<Item<P>>): set<string> {
    if |items| == 0 then {} else KeysOf(items[..|items| - 1]) + {items[|items| - 1].key}
  }

  predicate Distinct<P>(items: seq<Item<P>>) {
    |items| == 0 || (Distinct(items[..|items| - 1]) && items[|items| - 1].key !in KeysOf(items[..|items| - 1]))
  }

  lemma {:induction false} NotAKey<P>(items: seq<Item<P>>, key: string)
    requires forall i | 0 <= i < |items| :: items[i].key != key
    ensures key !in KeysOf(items)
  {
    if |items| > 0 {
      NotAKey(items[..|items| - 1], key);
    }
  }

  lemma {:induction false} DistinctPairs<P>(items: seq<Item<P>>)
    requires forall i, j | 0 <= i < j < |items| :: items[i].key != items[j].key
    ensures Distinct(items)
  {
    if |items| > 0 {
      DistinctPairs(items[..|items| - 1]);
      NotAKey(items[..|items| - 1], items[|items| - 1].key);
    }
  }

  lemma {:induction false} KeyOfItem<P>(items: seq<Item<P>>, i: nat)
    requires i < |items|
    ensures items[i].key in KeysOf(items)
  {
    if i < |items| - 1 {
      KeyOfItem(items[..|items| - 1], i);
    }
  }

  lemma {:induction false} ItemOfKey<P>(items: seq<Item<P>>, key: string) returns (i: nat)
    requires key in KeysOf(items)
    ensures i < |items| && items[i].key == key
  {
    if items[|items| - 1].key == key {
      i := |items| - 1;
    } else {
      i := ItemOfKey(items[..|items| - 1], key);
    }
  }

  function NewRow<P>(cx: Context, t: Item<P>): Row<Stored<P>> {
    Row(cx.scan.connector, t.key, ACTIVE, cx.scan.now, Stored(t.tracked, t.payload))
  }

  function Tracked<P>(r: Row<Stored<P>>): Fields {
    r.data.tracked["state" := r.state]
  }

  function EntryFor<P>(cx: Context, rows: Rows<P>, id: int, row: Row<Stored<P>>): seq<Change> {
    if id !in rows then [Entry(cx.scan, cx.entity, id, Added, map[])]
    else
      var diff := FieldsDiff(Tracked(rows[id]), Tracked(row));
      if diff == map[] then [] else [Entry(cx.scan, cx.entity, id, Modified, diff)]
  }

  datatype Progress<P> = Progress(rows: Rows<P>, log: seq<Change>)

  function IdFor<P>(cx: Context, rows: Rows<P>, t: Item<P>): int {
    match FindKey(rows, cx.scan.connector, t.key)
    case Some(id) => id
    case None => NextId(rows)
  }

  function Step<P>(cx: Context, p: Progress<P>, t: Item<P>): Progress<P> {
    var id, row := IdFor(cx, p.rows, t), NewRow(cx, t);
    Progress(p.rows[id := row], p.log + EntryFor(cx, p.rows, id, row))
  }

  function Fold<P>(cx: Context, rows: Rows<P>, log: seq<Change>, items: seq<Item<P>>): Progress<P> {
    if |items| == 0 then Progress(rows, log) else Step(cx, Fold(cx, rows, log, items[..|items| - 1]), items[|items| - 1])
  }

  function Finish<P>(cx: Context, p: Progress<P>, keys: set<string>): Progress<P> {
    var absent := Absent(p.rows, cx.scan.connector, keys);
    Progress(Ended(p.rows, absent, cx.scan.now), p.log + RemovedEntries(cx.entity, cx.scan, cx.order(absent)))
  }

  function Applied<P>(cx: Context, rows: Rows<P>, log: seq<Change>, items: seq<Item<P>>): Progress<P> {
    Finish(cx, Fold(cx, rows, log, items), KeysOf(items))
  }

  // ---------------------------------------------------------------------------
  // What the fold keeps

  ghost predicate Landed<P>(cx: Context, before: Rows<P>, rows: Rows<P>, t: Item<P>) {
    var at := FindKey(rows, cx.scan.connector, t.key);
    at.Some? && rows[at.value] == NewRow(cx, t) &&
    match FindKey(before, cx.scan.connector, t.key)
    case Some(id) => at.value == id
    case None => at.value !in before
  }

  ghost predicate Inv<P>(cx: Context, before: Rows<P>, items: seq<Item<P>>, rows: Rows<P>) {
    && Unique(rows)
    && before.Keys <= rows.Keys
    && (forall i | 0 <= i < |items| :: Landed(cx, before, rows, items[i]))
    && Untouched(cx.scan.connector, before, KeysOf(items), rows)
  }

  lemma StillUnderItsKey<P>(cx: Context, before: Rows<P>, items: seq<Item<P>>, rows: Rows<P>, id: int)
    requires Unique(before) && Inv(cx, before, items, rows) && id in before
    ensures rows[id].key == before[id].key && rows[id].connector == before[id].connector
  {
    if rows[id] != before[id] {
      var i := ItemOfKey(items, rows[id].key);
      assert Landed(cx, before, rows, items[i]);
      FindKeyIs(rows, id);
    }
  }

  lemma KeyNotYetTaken<P>(cx: Context, before: Rows<P>, items: seq<Item<P>>, rows: Rows<P>, t: Item<P>)
    requires Unique(before) && Inv(cx, before, items, rows) && t.key !in KeysOf(items)
    ensures FindKey(rows, cx.scan.connector, t.key) == FindKey(before, cx.scan.connector, t.key)
  {
    var was, now := FindKey(before, cx.scan.connector, t.key), FindKey(rows, cx.scan.connector, t.key);
    if now.Some? {
      FindKeyIs(before, now.value);
    } else if was.Some? {
      StillUnderItsKey(cx, before, items, rows, was.value);
    }
  }

  lemma LandedKeeps<P>(cx: Context, before: Rows<P>, rows: Rows<P>, t: Item<P>, id: int, row: Row<Stored<P>>)
    requires Landed(cx, before, rows, t) && Unique(rows) && Unique(rows[id := row]) && row.key != t.key
    requires id in rows ==> rows[id].connector != cx.scan.connector || rows[id].key != t.key
    ensures Landed(cx, before, rows[id := row], t)
  {
    FindKeyIs(rows[id := row], FindKey(rows, cx.scan.connector, t.key).value);
  }

  lemma AllLanded<P>(cx: Context, before: Rows<P>, items: seq<Item<P>>, rows: Rows<P>, t: Item<P>, id: int)
    requires forall i | 0 <= i < |items| :: Landed(cx, before, rows, items[i])
    requires Unique(rows) && Unique(rows[id := NewRow(cx, t)]) && t.key !in KeysOf(items)
    requires id in rows ==> !Claimed(cx.scan.connector, KeysOf(items), rows[id])
    requires Landed(cx, before, rows[id := NewRow(cx, t)], t)
    ensures forall i | 0 <= i <= |items| :: Landed(cx, before, rows[id := NewRow(cx, t)], (items + [t])[i])
  {
    forall i | 0 <= i <= |items| ensures Landed(cx, before, rows[id := NewRow(cx, t)], (items + [t])[i]) {
      if i < |items| {
        KeyOfItem(items, i);
        LandedKeeps(cx, before, rows, items[i], id, NewRow(cx, t));
      }
    }
  }

  lemma KeysGrow<P>(items: seq<Item<P>>, t: Item<P>)
    ensures KeysOf(items + [t]) == KeysOf(items) + {t.key}
  {
    assert (items + [t])[..|items|] == items;
  }

  /** A step writes a row no reported item holds, and leaves the table unique. */
  lemma StepIs<P>(cx: Context, before: Rows<P>, items: seq<Item<P>>, rows: Rows<P>, t: Item<P>)
    requires Unique(before) && Inv(cx, before, items, rows) && t.key !in KeysOf(items)
    ensures
      var id, row := IdFor(cx, rows, t), NewRow(cx, t);
      && (id in rows ==> !Claimed(cx.scan.connector, KeysOf(items), rows[id]))
      && Unique(rows[id := row]) && Landed(cx, before, rows[id := row], t)
  {
    var id, row := IdFor(cx, rows, t), NewRow(cx, t);
    KeyNotYetTaken(cx, before, items, rows, t);
    PutUnique(rows, id, row);
    FindKeyIs(rows[id := row], id);
  }

  lemma StepKeeps<P>(cx: Context, before: Rows<P>, items: seq<Item<P>>, p: Progress<P>, t: Item<P>)
    requires Unique(before) && Inv(cx, before, items, p.rows) && t.key !in KeysOf(items)
    ensures Inv(cx, before, items + [t], Step(cx, p, t).rows)
  {
    hide FindKey, NextId, IdFor, EntryFor, Landed, Unique, Claimed, Untouched, KeysOf;
    var id, row := IdFor(cx, p.rows, t), NewRow(cx, t);
    KeysGrow(items, t);
    StepIs(cx, before, items, p.rows, t);
    AllLanded(cx, before, items, p.rows, t, id);
    UntouchedKeeps(cx.scan.connector, before, KeysOf(items), p.rows, id, row);
  }

  lemma {:induction false} FoldKeeps<P>(cx: Context, before: Rows<P>, log: seq<Change>, items: seq<Item<P>>)
    requires Unique(before) && Distinct(items)
    ensures Inv(cx, before, items, Fold(cx, before, log, items).rows)
  {
    if |items| > 0 {
      var init, t := items[..|items| - 1], items[|items| - 1];
      assert init + [t] == items;
      FoldKeeps(cx, before, log, init);
      StepKeeps(cx, before, init, Fold(cx, before, log, init), t);
    }
  }

  // ---------------------------------------------------------------------------
  // What a whole scan leaves

  ghost predicate After<P>(cx: Context, before: Rows<P>, items: seq<Item<P>>, rows: Rows<P>) {
    && Unique(rows)
    && before.Keys <= rows.Keys
    && (forall i | 0 <= i < |items| :: Landed(cx, before, rows, items[i]))
    && (forall id <- rows :: Claimed(cx.scan.connector, KeysOf(items), rows[id]) || LeftBehind(cx.scan, before, id, rows[id]))
  }

  lemma LandedSurvives<P>(cx: Context, before: Rows<P>, items: seq<Item<P>>, rows: Rows<P>, i: nat)
    requires Unique(rows) && i < |items| && Landed(cx, before, rows, items[i])
    ensures
      var ended := Ended(rows, Absent(rows, cx.scan.connector, KeysOf(items)), cx.scan.now);
      Unique(ended) && Landed(cx, before, ended, items[i])
  {
    KeyOfItem(items, i);
    var ended := Ended(rows, Absent(rows, cx.scan.connector, KeysOf(items)), cx.scan.now);
    FindKeyIs(ended, FindKey(rows, cx.scan.connector, items[i].key).value);
  }

  /** After a scan: every reported item on its row, every other row as it was or gone. */
  lemma AppliedLeaves<P>(cx: Context, before: Rows<P>, log: seq<Change>, items: seq<Item<P>>)
    requires Unique(before) && Distinct(items)
    ensures After(cx, before, items, Applied(cx, before, log, items).rows)
  {
    hide Landed, FindKey, Unique;
    FoldKeeps(cx, before, log, items);
    var rows := Fold(cx, before, log, items).rows;
    forall i | 0 <= i < |items| ensures Landed(cx, before, Applied(cx, before, log, items).rows, items[i]) {
      LandedSurvives(cx, before, items, rows, i);
    }
    EndedUnique(rows, Absent(rows, cx.scan.connector, KeysOf(items)), cx.scan.now);
  }

  // ---------------------------------------------------------------------------
  // A second scan that sees the same

  /** The tracked columns and the key of every reported item are stored already. */
  ghost predicate Settled<P>(cx: Context, rows: Rows<P>, items: seq<Item<P>>) {
    && Unique(rows)
    && (forall i | 0 <= i < |items| :: Still(cx, rows, items[i]))
    && Absent(rows, cx.scan.connector, KeysOf(items)) == {}
  }

  ghost predicate Still<P>(cx: Context, rows: Rows<P>, t: Item<P>) {
    var at := FindKey(rows, cx.scan.connector, t.key);
    at.Some? && Tracked(rows[at.value]) == Tracked(NewRow(cx, t))
  }

  lemma AfterSettles<P>(cx: Context, cx2: Context, before: Rows<P>, items: seq<Item<P>>, rows: Rows<P>)
    requires After(cx, before, items, rows) && cx2.scan.connector == cx.scan.connector
    ensures Settled(cx2, rows, items)
  {
    forall i | 0 <= i < |items| ensures Still(cx2, rows, items[i]) {
      assert Landed(cx, before, rows, items[i]);
    }
    forall id <- rows ensures id !in Absent(rows, cx.scan.connector, KeysOf(items)) {
    }
    assert Absent(rows, cx.scan.connector, KeysOf(items)) == {};
  }

  /** The same rows under the same keys, with the same tracked columns and states. */
  ghost predicate SameTracked<P>(a: Rows<P>, b: Rows<P>) {
    a.Keys == b.Keys &&
    forall id <- a :: a[id].connector == b[id].connector && a[id].key == b[id].key && Tracked(a[id]) == Tracked(b[id])
                      && a[id].state == b[id].state
  }

  lemma SameTrackedAt<P>(a: Rows<P>, b: Rows<P>, id: int)
    requires Unique(a) && SameTracked(a, b) && id in a
    ensures id in b && Unique(b) && Tracked(a[id]) == Tracked(b[id])
    ensures FindKey(b, a[id].connector, a[id].key) == Some(id)
  {
  }

  lemma StepAgain<P>(cx: Context, rows: Rows<P>, p: Progress<P>, t: Item<P>)
    requires Unique(rows) && Still(cx, rows, t) && SameTracked(rows, p.rows)
    ensures SameTracked(rows, Step(cx, p, t).rows) && Step(cx, p, t).log == p.log
  {
    var id := FindKey(rows, cx.scan.connector, t.key).value;
    SameTrackedAt(rows, p.rows, id);
    assert Tracked(rows[id])["state"] == rows[id].state && Tracked(NewRow(cx, t))["state"] == ACTIVE;
    assert EntryFor(cx, p.rows, id, NewRow(cx, t)) == [];
  }

  lemma {:induction false} FoldAgain<P>(cx: Context, rows: Rows<P>, log: seq<Change>, items: seq<Item<P>>, n: nat)
    requires Settled(cx, rows, items) && n <= |items|
    ensures
      var p := Fold(cx, rows, log, items[..n]);
      SameTracked(rows, p.rows) && p.log == log
  {
    if n > 0 {
      assert items[..n][..n - 1] == items[..n - 1];
      FoldAgain(cx, rows, log, items, n - 1);
      assert Still(cx, rows, items[n - 1]);
      StepAgain(cx, rows, Fold(cx, rows, log, items[..n - 1]), items[n - 1]);
    }
  }

  /** Nothing is filed about rows that already read as reported. */
  lemma SettledIsSilent<P>(cx: Context, rows: Rows<P>, log: seq<Change>, items: seq<Item<P>>)
    requires Lists(cx.order) && Settled(cx, rows, items)
    ensures
      var q := Applied(cx, rows, log, items);
      q.log == log && SameTracked(rows, q.rows)
  {
    assert items[..|items|] == items;
    FoldAgain(cx, rows, log, items, |items|);
    var f := Fold(cx, rows, log, items);
    NoneAbsent(cx, rows, f.rows, KeysOf(items));
    assert ListOf(cx.order({}), {});
    assert Ended(f.rows, {}, cx.scan.now) == f.rows;
  }

  lemma NoneAbsent<P>(cx: Context, rows: Rows<P>, again: Rows<P>, seen: set<string>)
    requires SameTracked(rows, again) && Absent(rows, cx.scan.connector, seen) == {}
    ensures Absent(again, cx.scan.connector, seen) == {}
  {
    forall id <- again ensures id !in Absent(again, cx.scan.connector, seen) {
      assert id !in Absent(rows, cx.scan.connector, seen);
    }
  }

  /** The whole row of every reported item is stored already, give or take the time. */
  ghost predicate AtRest<P>(cx: Context, rows: Rows<P>, items: seq<Item<P>>) {
    Unique(rows) && forall i | 0 <= i < |items| :: Rests(cx, rows, items[i])
  }

  ghost predicate Rests<P>(cx: Context, rows: Rows<P>, t: Item<P>) {
    var at := FindKey(rows, cx.scan.connector, t.key);
    at.Some? && SameRow(rows[at.value], NewRow(cx, t))
  }

  lemma AfterRests<P>(cx: Context, cx2: Context, before: Rows<P>, items: seq<Item<P>>, rows: Rows<P>)
    requires After(cx, before, items, rows) && cx2.scan.connector == cx.scan.connector
    ensures AtRest(cx2, rows, items)
  {
    forall i | 0 <= i < |items| ensures Rests(cx2, rows, items[i]) {
      assert Landed(cx, before, rows, items[i]);
    }
  }

  lemma StepRests<P>(cx: Context, rows: Rows<P>, p: Progress<P>, t: Item<P>)
    requires Rests(cx, rows, t) && SameRows(rows, p.rows)
    ensures SameRows(rows, Step(cx, p, t).rows)
  {
    SameRowsFind(rows, p.rows, cx.scan.connector, t.key);
  }

  lemma {:induction false} FoldRests<P>(cx: Context, rows: Rows<P>, log: seq<Change>, items: seq<Item<P>>, n: nat)
    requires AtRest(cx, rows, items) && n <= |items|
    ensures SameRows(rows, Fold(cx, rows, log, items[..n]).rows)
  {
    if n > 0 {
      assert items[..n][..n - 1] == items[..n - 1];
      FoldRests(cx, rows, log, items, n - 1);
      assert Rests(cx, rows, items[n - 1]);
      StepRests(cx, rows, Fold(cx, rows, log, items[..n - 1]), items[n - 1]);
    }
  }

  /** Then no row changes, but for the time of writing. */
  lemma RestsThrough<P>(cx: Context, rows: Rows<P>, log: seq<Change>, items: seq<Item<P>>)
    requires AtRest(cx, rows, items) && Absent(rows, cx.scan.connector, KeysOf(items)) == {}
    ensures SameRows(rows, Applied(cx, rows, log, items).rows)
  {
    assert items[..|items|] == items;
    FoldRests(cx, rows, log, items, |items|);
    var f := Fold(cx, rows, log, items);
    forall id <- f.rows ensures id !in Absent(f.rows, cx.scan.connector, KeysOf(items)) {
      assert SameRow(rows[id], f.rows[id]);
      assert id !in Absent(rows, cx.scan.connector, KeysOf(items));
    }
    assert Absent(f.rows, cx.scan.connector, KeysOf(items)) == {};
    assert Ended(f.rows, {}, cx.scan.now) == f.rows;
  }

  /** Scanning twice: the second scan files nothing and leaves every row as the first left it. */
  lemma ObservedRescan<P>(cx: Context, cx2: Context, before: Rows<P>, log: seq<Change>, items: seq<Item<P>>, log2: seq<Change>)
    requires Lists(cx2.order) && cx2.scan.connector == cx.scan.connector
    requires Unique(before) && Distinct(items)
    ensures
      var rows := Applied(cx, before, log, items).rows;
      var q := Applied(cx2, rows, log2, items);
      q.log == log2 && SameRows(rows, q.rows)
  {
    var rows := Applied(cx, before, log, items).rows;
    AppliedLeaves(cx, before, log, items);
    AfterSettles(cx, cx2, before, items, rows);
    SettledIsSilent(cx2, rows, log2, items);
    AfterRests(cx, cx2, before, items, rows);
    RestsThrough(cx2, rows, log2, items);
  }

  // ---------------------------------------------------------------------------
  // The feed

  lemma EntryShape<P>(cx: Context, rows: Rows<P>, id: int, row: Row<Stored<P>>)
    requires row.state == ACTIVE
    ensures
      var entries := EntryFor(cx, rows, id, row);
      if entries == [] then id in rows && rows[id].state == row.state
      else
        |entries| == 1 && entries[0].entity == cx.entity && entries[0].id == id && entries[0].kind != Removed &&
        (entries[0].kind == Added <==> id !in rows) &&
        (id in rows ==> entries[0].diff != map[]) &&
        (id in rows && rows[id].state == GONE ==> "state" in entries[0].diff && entries[0].diff["state"].0 == GONE)
  {
    if id in rows {
      assert Before(Tracked(rows[id]), "state") == rows[id].state && Tracked(row)["state"] == row.state;
    }
  }

  lemma StepTells<P>(cx: Context, p: Progress<P>, t: Item<P>)
    requires Lawful(p.log) && Tells(p.rows, p.log, cx.entity)
    ensures
      var q := Step(cx, p, t);
      Lawful(q.log) && Tells(q.rows, q.log, cx.entity) && forall o | o != cx.entity :: SameStory(p.log, q.log, o)
  {
    var id, row := IdFor(cx, p.rows, t), NewRow(cx, t);
    var entries := EntryFor(cx, p.rows, id, row);
    EntryShape(cx, p.rows, id, row);
    if entries == [] {
      assert p.log + entries == p.log;
    } else {
      EntryTells(p.rows, p.log, id, row, entries[0]);
    }
  }

  lemma {:induction false} FoldTells<P>(cx: Context, before: Rows<P>, log: seq<Change>, items: seq<Item<P>>)
    requires Lawful(log) && Tells(before, log, cx.entity)
    ensures
      var p := Fold(cx, before, log, items);
      Lawful(p.log) && Tells(p.rows, p.log, cx.entity) && forall o | o != cx.entity :: SameStory(log, p.log, o)
  {
    if |items| > 0 {
      var init, t := items[..|items| - 1], items[|items| - 1];
      FoldTells(cx, before, log, init);
      var p := Fold(cx, before, log, init);
      StepTells(cx, p, t);
      SameStories(log, p.log, Step(cx, p, t).log, cx.entity);
    }
  }

  lemma ObservedTell<P>(cx: Context, before: Rows<P>, log: seq<Change>, items: seq<Item<P>>)
    requires Lists(cx.order) && Lawful(log) && Tells(before, log, cx.entity)
    ensures
      var p := Applied(cx, before, log, items);
      Lawful(p.log) && Tells(p.rows, p.log, cx.entity) && forall o | o != cx.entity :: SameStory(log, p.log, o)
  {
    FoldTells(cx, before, log, items);
    var p := Fold(cx, before, log, items);
    MarkGoneTells(p.rows, p.log, cx.entity, cx.scan, KeysOf(items), cx.order);
    SameStories(log, p.log, Applied(cx, before, log, items).log, cx.entity);
  }

  // ---------------------------------------------------------------------------
  // What exactly is filed

  /** Of each reported item the entry its row calls for, of no other row any. */
  ghost predicate FoldFiles<P>(cx: Context, before: Rows<P>, log: seq<Change>, items: seq<Item<P>>, p: Progress<P>) {
    && (forall i | 0 <= i < |items| :: ItemFiles(cx, before, log, p, items[i]))
    && (forall id | id in p.rows ==> !Claimed(cx.scan.connector, KeysOf(items), p.rows[id]) :: Filed(log, p.log, cx.entity, id, []))
  }

  ghost predicate ItemFiles<P>(cx: Context, before: Rows<P>, log: seq<Change>, p: Progress<P>, t: Item<P>) {
    var at := FindKey(p.rows, cx.scan.connector, t.key);
    at.Some? && Filed(log, p.log, cx.entity, at.value, EntryFor(cx, before, at.value, NewRow(cx, t)))
  }

  lemma OneEntry<P>(cx: Context, rows: Rows<P>, id: int, row: Row<Stored<P>>)
    ensures |EntryFor(cx, rows, id, row)| <= 1 && forall c <- EntryFor(cx, rows, id, row) :: c.entity == cx.entity && c.id == id
  {
  }

  lemma StepEntry<P>(cx: Context, before: Rows<P>, items: seq<Item<P>>, rows: Rows<P>, t: Item<P>)
    requires Unique(before) && Inv(cx, before, items, rows) && t.key !in KeysOf(items)
    ensures
      var id, row := IdFor(cx, rows, t), NewRow(cx, t);
      && (id in rows ==> !Claimed(cx.scan.connector, KeysOf(items), rows[id]))
      && EntryFor(cx, rows, id, row) == EntryFor(cx, before, id, row)
      && Unique(rows[id := row]) && FindKey(rows[id := row], cx.scan.connector, t.key) == Some(id)
  {
    StepIs(cx, before, items, rows, t);
    FindKeyIs(rows[IdFor(cx, rows, t) := NewRow(cx, t)], IdFor(cx, rows, t));
  }

  /** An item already stored stays where it is. */
  lemma StaysFound<P>(cx: Context, rows: Rows<P>, items: seq<Item<P>>, i: nat, id: int, row: Row<Stored<P>>)
    requires Unique(rows[id := row]) && i < |items| && FindKey(rows, cx.scan.connector, items[i].key).Some?
    requires id in rows ==> !Claimed(cx.scan.connector, KeysOf(items), rows[id])
    ensures FindKey(rows[id := row], cx.scan.connector, items[i].key) == FindKey(rows, cx.scan.connector, items[i].key)
    ensures FindKey(rows, cx.scan.connector, items[i].key) != Some(id)
  {
    KeyOfItem(items, i);
    FindKeyIs(rows[id := row], FindKey(rows, cx.scan.connector, items[i].key).value);
  }

  lemma ItemStillFiles<P>(cx: Context, before: Rows<P>, log: seq<Change>, items: seq<Item<P>>, p: Progress<P>, i: nat,
                          q: Progress<P>, id: int, row: Row<Stored<P>>, entries: seq<Change>)
    requires i < |items| && ItemFiles(cx, before, log, p, items[i])
    requires q.rows == p.rows[id := row] && q.log == p.log + entries && Unique(q.rows)
    requires id in p.rows ==> !Claimed(cx.scan.connector, KeysOf(items), p.rows[id])
    requires |entries| <= 1 && forall c <- entries :: c.entity == cx.entity && c.id == id
    ensures ItemFiles(cx, before, log, q, items[i])
  {
    StaysFound(cx, p.rows, items, i, id, row);
    hide FindKey, Unique, KeysOf, EntryFor, Filed;
    var at := FindKey(p.rows, cx.scan.connector, items[i].key).value;
    StoryGoesOn(log, p.log, entries, cx.entity, at, id, EntryFor(cx, before, at, NewRow(cx, items[i])));
  }

  lemma RowIsClaimed<P>(cx: Context, items: seq<Item<P>>, rows: Rows<P>, id: int, t: Item<P>)
    requires id in rows && rows[id] == NewRow(cx, t)
    ensures Claimed(cx.scan.connector, KeysOf(items + [t]), rows[id])
    ensures forall row: Row<Stored<P>> :: Claimed(cx.scan.connector, KeysOf(items), row) ==> Claimed(cx.scan.connector, KeysOf(items + [t]), row)
  {
    KeysGrow(items, t);
  }

  lemma StepFiles<P>(cx: Context, before: Rows<P>, log: seq<Change>, items: seq<Item<P>>, p: Progress<P>, t: Item<P>)
    requires Unique(before) && Inv(cx, before, items, p.rows) && FoldFiles(cx, before, log, items, p) && t.key !in KeysOf(items)
    ensures FoldFiles(cx, before, log, items + [t], Step(cx, p, t))
  {
    hide EntryFor, IdFor, FindKey, NextId, Filed, Inv, Unique, KeysOf, Claimed, Landed;
    var q, id, row := Step(cx, p, t), IdFor(cx, p.rows, t), NewRow(cx, t);
    StepEntry(cx, before, items, p.rows, t);
    KeysGrow(items, t);
    var entries := EntryFor(cx, before, id, row);
    OneEntry(cx, before, id, row);
    forall i | 0 <= i < |items + [t]| ensures ItemFiles(cx, before, log, q, (items + [t])[i]) {
      if i < |items| {
        ItemStillFiles(cx, before, log, items, p, i, q, id, row, entries);
      } else {
        StoryGoesOn(log, p.log, entries, cx.entity, id, id, []);
        assert [] + entries == entries;
      }
    }
    forall at | at in q.rows ==> !Claimed(cx.scan.connector, KeysOf(items + [t]), q.rows[at]) ensures Filed(log, q.log, cx.entity, at, []) {
      RowIsClaimed(cx, items, q.rows, id, t);
      StoryGoesOn(log, p.log, entries, cx.entity, at, id, []);
    }
  }

  lemma {:induction false} FoldFilesAll<P>(cx: Context, before: Rows<P>, log: seq<Change>, items: seq<Item<P>>)
    requires Unique(before) && Distinct(items)
    ensures FoldFiles(cx, before, log, items, Fold(cx, before, log, items))
  {
    if |items| > 0 {
      hide FoldFiles, Inv, Step;
      var init, t := items[..|items| - 1], items[|items| - 1];
      assert init + [t] == items;
      FoldFilesAll(cx, before, log, init);
      FoldKeeps(cx, before, log, init);
      StepFiles(cx, before, log, init, Fold(cx, before, log, init), t);
    }
  }

  /** A reported item's row after the scan, and the entry it calls for. */
  lemma ReportedFiles<P>(cx: Context, before: Rows<P>, log: seq<Change>, items: seq<Item<P>>, i: nat)
    requires Lists(cx.order) && Unique(before) && Distinct(items) && i < |items|
    ensures
      var p := Applied(cx, before, log, items);
      Landed(cx, before, p.rows, items[i]) && ItemFiles(cx, before, log, p, items[i])
  {
    var p, f := Applied(cx, before, log, items), Fold(cx, before, log, items);
    AppliedLeaves(cx, before, log, items);
    assert Landed(cx, before, p.rows, items[i]);
    FoldFilesAll(cx, before, log, items);
    assert ItemFiles(cx, before, log, f, items[i]);
    FoldKeeps(cx, before, log, items);
    FoundAlike(cx, before, items, f.rows, i);
    var at := FindKey(f.rows, cx.scan.connector, items[i].key).value;
    AbsentStory(f.rows, f.log, cx.entity, cx.scan, KeysOf(items), cx.order, at);
    hide EntryFor, Filed, FindKey, Inv, Unique, Landed;
    FiledThen(log, f.log, p.log, cx.entity, at, EntryFor(cx, before, at, NewRow(cx, items[i])), []);
  }

  lemma FoundAlike<P>(cx: Context, before: Rows<P>, items: seq<Item<P>>, rows: Rows<P>, i: nat)
    requires Inv(cx, before, items, rows) && i < |items|
    ensures
      var absent, at := Absent(rows, cx.scan.connector, KeysOf(items)), FindKey(rows, cx.scan.connector, items[i].key);
      at.Some? && at.value !in absent && FindKey(Ended(rows, absent, cx.scan.now), cx.scan.connector, items[i].key) == at
  {
    assert Landed(cx, before, rows, items[i]);
    KeyOfItem(items, i);
    var absent := Absent(rows, cx.scan.connector, KeysOf(items));
    EndedUnique(rows, absent, cx.scan.now);
    FindKeyIs(Ended(rows, absent, cx.scan.now), FindKey(rows, cx.scan.connector, items[i].key).value);
  }

  /** A row under no reported key: the connector's live one is ended with one removal, any other is left alone. */
  lemma UnreportedIsTold<P>(cx: Context, before: Rows<P>, log: seq<Change>, items: seq<Item<P>>, id: int)
    requires Lists(cx.order) && Unique(before) && Distinct(items)
    requires
      var rows := Applied(cx, before, log, items).rows;
      id in rows ==> rows[id].connector != cx.scan.connector || rows[id].key !in KeysOf(items)
    ensures
      var p := Applied(cx, before, log, items);
      if id in before && before[id].connector == cx.scan.connector && before[id].state != "gone" then
        && id in p.rows && p.rows[id] == before[id].(state := "gone", updatedAt := cx.scan.now)
        && Filed(log, p.log, cx.entity, id,
                 [Change(cx.scan.run, cx.scan.now, cx.entity, id, Removed, map["state" := ("active", "gone")])])
      else
        && (id in p.rows <==> id in before) && (id in before ==> p.rows[id] == before[id])
        && Filed(log, p.log, cx.entity, id, [])
  {
    var f := Fold(cx, before, log, items);
    FoldFilesAll(cx, before, log, items);
    FoldKeeps(cx, before, log, items);
    assert id in f.rows <==> id in before;
    hide Filed, Inv, EntryFor, Absent, RemovedEntries;
    UnreportedEnds(before, f.rows, log, f.log, cx.entity, cx.scan, KeysOf(items), cx.order, id);
  }
}
