/**
 How a scan's hosts are folded into the stored ones (internal/engine/apply.go, applyHosts): parents
 first, facts the source could not read kept, and each host linked to a parent already written.
 */
module Hosts {
  import opened Results
  import opened Store
  import opened ParentsFirst
  import opened Strings

  datatype Stored = Stored(
    name: string, kind: string, address: string, os: string, arch: string, aliases: seq<string>, power: string,
    parent: Option<int>)

  type Rows = map<int, Row<Stored>>

  datatype Context = Context(scan: Scan, order: RowOrder)

  predicate Reportable(h: Host) {
    h.key != "" && h.name != ""
  }

  /** The row a host is stored as; `prev` is the row it already has. */
  function NewRow(cx: Context, prev: Option<Row<Stored>>, parent: Option<int>, h: Host): Row<Stored> {
    var keepName := prev.Some? && h.nameUnread;
    var keepAddresses := prev.Some? && h.addressesUnread;
    Row(cx.scan.connector, h.key, ACTIVE, cx.scan.now,
        Stored(if keepName then prev.value.data.name else h.name,
               h.kind,
               if keepAddresses then prev.value.data.address else h.address,
               h.os, h.arch,
               Normalize(if keepAddresses then prev.value.data.aliases else h.aliases),
               h.power, parent))
  }

  function NameAt(rows: Rows, parent: Option<int>): string {
    if parent.Some? && parent.value in rows then rows[parent.value].data.name else ""
  }

  /** The columns whose changes reach the feed; a parent counts by its name. */
  function Tracked(rows: Rows, r: Row<Stored>, aliases: seq<string>): Fields {
    map["name" := r.data.name, "kind" := r.data.kind, "address" := r.data.address, "os" := r.data.os,
        "arch" := r.data.arch, "state" := r.state, "aliases" := Join(aliases), "power" := r.data.power,
        "parent" := NameAt(rows, r.data.parent)]
  }

  function EntryFor(cx: Context, rows: Rows, id: int, row: Row<Stored>): seq<Change> {
    if id !in rows then [Entry(cx.scan, HostEntity, id, Added, map[])]
    else
      var diff := FieldsDiff(Tracked(rows, rows[id], Normalize(rows[id].data.aliases)), Tracked(rows, row, row.data.aliases));
      if diff == map[] then [] else [Entry(cx.scan, HostEntity, id, Modified, diff)]
  }

  datatype Progress = Progress(rows: Rows, log: seq<Change>, ids: map<string, int>)

  function ParentFor(ids: map<string, int>, h: Host): Option<int> {
    if h.parentKey in ids && h.parentKey != "" then Some(ids[h.parentKey]) else None
  }

  function PrevRow(cx: Context, rows: Rows, h: Host): Option<Row<Stored>> {
    match FindKey(rows, cx.scan.connector, h.key)
    case Some(id) => Some(rows[id])
    case None => None
  }

  function IdFor(cx: Context, rows: Rows, h: Host): int {
    match FindKey(rows, cx.scan.connector, h.key)
    case Some(id) => id
    case None => NextId(rows)
  }

  function Step(cx: Context, p: Progress, h: Host): Progress {
    var id := IdFor(cx, p.rows, h);
    var row := NewRow(cx, PrevRow(cx, p.rows, h), ParentFor(p.ids, h), h);
    Progress(p.rows[id := row], p.log + EntryFor(cx, p.rows, id, row), p.ids[h.key := id])
  }

  function Fold(cx: Context, rows: Rows, log: seq<Change>, hs: seq<Host>): Progress {
    if |hs| == 0 then Progress(rows, log, map[]) else Step(cx, Fold(cx, rows, log, hs[..|hs| - 1]), hs[|hs| - 1])
  }

  function Finish(cx: Context, p: Progress, keys: set<string>): Progress {
    var absent := Absent(p.rows, cx.scan.connector, keys);
    Progress(Ended(p.rows, absent, cx.scan.now),
             p.log + RemovedEntries(HostEntity, cx.scan, cx.order(absent)), p.ids)
  }

  /** The hosts table, the feed and the ids after a whole scan. */
  function Applied(cx: Context, rows: Rows, log: seq<Change>, items: seq<Host>): Progress {
    var hs := Ordered(items);
    Finish(cx, Fold(cx, rows, log, hs), KeysOf(hs))
  }

  // ---------------------------------------------------------------------------
  // What the fold keeps

  /** The parent the i-th host is linked to: the row of an earlier host, if it names one. */
  function ParentAt(ids: map<string, int>, hs: seq<Host>, i: nat): Option<int>
    requires i < |hs|
  {
    if hs[i].parentKey != "" && hs[i].parentKey in KeysOf(hs[..i]) && hs[i].parentKey in ids
    then Some(ids[hs[i].parentKey]) else None
  }

  ghost predicate Landed(cx: Context, before: Rows, hs: seq<Host>, p: Progress, i: nat)
    requires i < |hs|
  {
    var h := hs[i];
    h.key in p.ids && p.ids[h.key] in p.rows &&
    p.rows[p.ids[h.key]] == NewRow(cx, PrevRow(cx, before, h), ParentAt(p.ids, hs, i), h) &&
    match FindKey(before, cx.scan.connector, h.key)
    case Some(id) => p.ids[h.key] == id
    case None => p.ids[h.key] !in before
  }

  ghost predicate Inv(cx: Context, before: Rows, hs: seq<Host>, p: Progress) {
    && Unique(p.rows)
    && p.ids.Keys == KeysOf(hs)
    && before.Keys <= p.rows.Keys
    && (forall i: nat | i < |hs| :: Landed(cx, before, hs, p, i))
    && Untouched(cx.scan.connector, before, p.ids.Keys, p.rows)
  }

  lemma KeyNotYetTaken(cx: Context, before: Rows, hs: seq<Host>, p: Progress, h: Host)
    requires Unique(before) && Inv(cx, before, hs, p) && h.key !in KeysOf(hs)
    ensures FindKey(p.rows, cx.scan.connector, h.key) == FindKey(before, cx.scan.connector, h.key)
    ensures PrevRow(cx, p.rows, h) == PrevRow(cx, before, h)
  {
    var was, now := FindKey(before, cx.scan.connector, h.key), FindKey(p.rows, cx.scan.connector, h.key);
    if now.Some? {
      FindKeyIs(before, now.value);
    } else if was.Some? {
      StillUnderItsKey(cx, before, hs, p, was.value);
    }
  }

  lemma StillUnderItsKey(cx: Context, before: Rows, hs: seq<Host>, p: Progress, id: int)
    requires Unique(before) && Inv(cx, before, hs, p) && id in before
    ensures p.rows[id].key == before[id].key && p.rows[id].connector == before[id].connector
  {
    if p.rows[id] != before[id] {
      var i := HostOfKey(hs, p.rows[id].key);
      assert Landed(cx, before, hs, p, i);
      assert p.ids[hs[i].key] == id;
    }
  }

  lemma StepIs(cx: Context, before: Rows, hs: seq<Host>, p: Progress, h: Host)
    requires Unique(before) && Inv(cx, before, hs, p) && h.key !in KeysOf(hs)
    ensures
      var id := IdFor(cx, p.rows, h);
      Step(cx, p, h).rows == p.rows[id := NewRow(cx, PrevRow(cx, before, h), ParentFor(p.ids, h), h)] &&
      (id in p.rows ==> id in before && p.rows[id] == before[id] && !Claimed(cx.scan.connector, p.ids.Keys, p.rows[id])) &&
      (FindKey(p.rows, cx.scan.connector, h.key).Some? ==> FindKey(p.rows, cx.scan.connector, h.key) == Some(id)) &&
      match FindKey(before, cx.scan.connector, h.key)
      case Some(known) => id == known
      case None => id !in before
  {
    KeyNotYetTaken(cx, before, hs, p, h);
  }

  lemma AllLanded(cx: Context, before: Rows, hs: seq<Host>, p: Progress, h: Host, q: Progress, id: int)
    requires p.ids.Keys == KeysOf(hs) && h.key !in p.ids
    requires forall i: nat | i < |hs| :: Landed(cx, before, hs, p, i)
    requires id in p.rows ==> !Claimed(cx.scan.connector, p.ids.Keys, p.rows[id])
    requires q.rows == p.rows[id := NewRow(cx, PrevRow(cx, before, h), ParentFor(p.ids, h), h)] && q.ids == p.ids[h.key := id]
    requires match FindKey(before, cx.scan.connector, h.key) case Some(known) => id == known case None => id !in before
    ensures forall i: nat | i < |hs + [h]| :: Landed(cx, before, hs + [h], q, i)
  {
    var all := hs + [h];
    forall i: nat | i < |all| ensures Landed(cx, before, all, q, i) {
      if i < |hs| {
        assert all[..i] == hs[..i];
        KeyIn(hs, i);
        assert Landed(cx, before, hs, p, i);
        ParentKept(cx, hs, p.ids, h, id, i);
      } else {
        assert all[..i] == hs;
      }
    }
  }

  lemma ParentKept(cx: Context, hs: seq<Host>, ids: map<string, int>, h: Host, id: int, i: nat)
    requires i < |hs| && ids.Keys == KeysOf(hs) && h.key !in ids
    ensures ParentAt(ids[h.key := id], hs + [h], i) == ParentAt(ids, hs, i)
  {
    assert (hs + [h])[..i] == hs[..i];
    if hs[i].parentKey in KeysOf(hs[..i]) {
      var j := HostOfKey(hs[..i], hs[i].parentKey);
      KeyIn(hs, j);
    }
  }

  lemma PutKeeps(cx: Context, before: Rows, hs: seq<Host>, p: Progress, h: Host, q: Progress, id: int)
    requires Inv(cx, before, hs, p) && h.key !in KeysOf(hs)
    requires id in p.rows ==> !Claimed(cx.scan.connector, p.ids.Keys, p.rows[id])
    requires FindKey(p.rows, cx.scan.connector, h.key).Some? ==> FindKey(p.rows, cx.scan.connector, h.key) == Some(id)
    requires q.rows == p.rows[id := NewRow(cx, PrevRow(cx, before, h), ParentFor(p.ids, h), h)] && q.ids == p.ids[h.key := id]
    requires match FindKey(before, cx.scan.connector, h.key) case Some(known) => id == known case None => id !in before
    ensures Inv(cx, before, hs + [h], q)
  {
    hide Landed, Unique, Untouched, Claimed, FindKey, Normalize, ParentFor, PrevRow;
    var row := NewRow(cx, PrevRow(cx, before, h), ParentFor(p.ids, h), h);
    PutUnique(p.rows, id, row);
    AllLanded(cx, before, hs, p, h, q, id);
    UntouchedKeeps(cx.scan.connector, before, p.ids.Keys, p.rows, id, row);
    KeysGrow(hs, p.ids, h, id);
  }

  lemma KeysGrow(hs: seq<Host>, ids: map<string, int>, h: Host, id: int)
    requires ids.Keys == KeysOf(hs)
    ensures ids[h.key := id].Keys == KeysOf(hs + [h]) == ids.Keys + {h.key}
  {
    assert (hs + [h])[..|hs|] == hs;
  }

  lemma StepKeeps(cx: Context, before: Rows, hs: seq<Host>, p: Progress, h: Host)
    requires Unique(before) && Inv(cx, before, hs, p) && h.key !in KeysOf(hs)
    ensures Inv(cx, before, hs + [h], Step(cx, p, h))
  {
    StepIs(cx, before, hs, p, h);
    PutKeeps(cx, before, hs, p, h, Step(cx, p, h), IdFor(cx, p.rows, h));
  }

  lemma {:induction false} FoldKeeps(cx: Context, before: Rows, log: seq<Change>, hs: seq<Host>)
    requires Unique(before) && Distinct(hs)
    ensures Inv(cx, before, hs, Fold(cx, before, log, hs))
  {
    if |hs| == 0 {
      assert hs == [];
    } else {
      var init, h := hs[..|hs| - 1], hs[|hs| - 1];
      assert init + [h] == hs;
      FoldKeeps(cx, before, log, init);
      StepKeeps(cx, before, init, Fold(cx, before, log, init), h);
    }
  }

  // ---------------------------------------------------------------------------
  // What a whole scan leaves

  ghost predicate After(cx: Context, before: Rows, hs: seq<Host>, p: Progress) {
    && Unique(p.rows)
    && p.ids.Keys == KeysOf(hs)
    && before.Keys <= p.rows.Keys
    && (forall i: nat | i < |hs| :: Landed(cx, before, hs, p, i))
    && (forall id <- p.rows :: Claimed(cx.scan.connector, p.ids.Keys, p.rows[id]) || LeftBehind(cx.scan, before, id, p.rows[id]))
  }

  lemma FinishLeaves(cx: Context, before: Rows, hs: seq<Host>, p: Progress)
    requires Inv(cx, before, hs, p)
    ensures After(cx, before, hs, Finish(cx, p, KeysOf(hs)))
  {
    var q := Finish(cx, p, KeysOf(hs));
    forall i: nat | i < |hs| ensures Landed(cx, before, hs, q, i) {
      assert Landed(cx, before, hs, p, i);
      KeyIn(hs, i);
    }
  }

  /** After a scan: every reported host on its row, every other row as it was or gone. */
  lemma AppliedLeaves(cx: Context, before: Rows, log: seq<Change>, items: seq<Host>)
    requires Unique(before) && Distinct(items)
    ensures After(cx, before, Ordered(items), Applied(cx, before, log, items))
  {
    var hs := Ordered(items);
    OrderDistinct(items);
    FoldKeeps(cx, before, log, hs);
    FinishLeaves(cx, before, hs, Fold(cx, before, log, hs));
  }

  // ---------------------------------------------------------------------------
  // No host is its own ancestor

  /** Parents come before children in `rank`. */
  ghost predicate Ranked(rows: Rows, rank: map<int, nat>) {
    forall id <- rows :: id in rank &&
      (rows[id].data.parent.Some? ==>
        rows[id].data.parent.value in rows && rows[id].data.parent.value in rank &&
        rank[rows[id].data.parent.value] < rank[id])
  }

  ghost predicate Acyclic(rows: Rows) {
    exists rank: map<int, nat> :: Ranked(rows, rank)
  }

  /** A walk from a row to its parent, to that row's parent, and so on. */
  ghost predicate Climbs(rows: Rows, path: seq<int>) {
    && (forall i | 0 <= i < |path| :: path[i] in rows)
    && (forall i | 0 < i < |path| :: rows[path[i - 1]].data.parent == Some(path[i]))
  }

  lemma ParentsExist(rows: Rows)
    requires Acyclic(rows)
    ensures forall id <- rows :: rows[id].data.parent.Some? ==> rows[id].data.parent.value in rows
  {
    var rank: map<int, nat> :| Ranked(rows, rank);
  }

  lemma RankedAt(rows: Rows, rank: map<int, nat>, id: int)
    requires Ranked(rows, rank) && id in rows
    ensures id in rank
    ensures rows[id].data.parent.Some? ==>
      rows[id].data.parent.value in rank && rank[rows[id].data.parent.value] < rank[id]
  {
  }

  lemma {:induction false} ClimbDescends(rows: Rows, rank: map<int, nat>, path: seq<int>, i: nat)
    requires Ranked(rows, rank) && Climbs(rows, path) && 0 < i < |path|
    ensures path[0] in rank && path[i] in rank && rank[path[i]] < rank[path[0]]
  {
    RankedAt(rows, rank, path[i - 1]);
    if i > 1 {
      ClimbDescends(rows, rank, path, i - 1);
    }
  }

  /** What Acyclic means: no walk comes back to where it began. */
  lemma NoCycle(rows: Rows, path: seq<int>)
    requires Acyclic(rows) && Climbs(rows, path) && |path| > 1
    ensures path[|path| - 1] != path[0]
  {
    var rank: map<int, nat> :| Ranked(rows, rank);
    ClimbDescends(rows, rank, path, |path| - 1);
  }

  function {:induction false} Place(hs: seq<Host>, key: string): (n: nat)
    ensures key in KeysOf(hs) ==> n < |hs| && hs[n].key == key
    ensures n <= |hs|
  {
    if |hs| == 0 then 0
    else if key in KeysOf(hs[..|hs| - 1]) then Place(hs[..|hs| - 1], key) else |hs| - 1
  }

  /** Reported hosts in the order they were written, then everything else as before. */
  function NewRank(cx: Context, hs: seq<Host>, p: Progress, rank: map<int, nat>): map<int, nat> {
    map id | id in p.rows ::
      if p.rows[id].connector == cx.scan.connector && p.rows[id].key in KeysOf(hs) then Place(hs, p.rows[id].key)
      else |hs| + (if id in rank then rank[id] else 0)
  }

  lemma ReportedParent(cx: Context, before: Rows, hs: seq<Host>, p: Progress, rank: map<int, nat>, id: int)
    requires After(cx, before, hs, p) && Distinct(hs) && id in p.rows && Claimed(cx.scan.connector, p.ids.Keys, p.rows[id])
    requires p.rows[id].data.parent.Some?
    ensures
      var up, r := p.rows[id].data.parent.value, NewRank(cx, hs, p, rank);
      up in p.rows && r[up] < r[id]
  {
    var i := Place(hs, p.rows[id].key);
    assert Landed(cx, before, hs, p, i);
    assert p.ids[hs[i].key] == id;
    var j := HostOfKey(hs[..i], hs[i].parentKey);
    assert hs[j].key == hs[i].parentKey;
    assert Landed(cx, before, hs, p, j);
    KeyIn(hs, j);
    var k := Place(hs, hs[j].key);
    SameKeySameHost(hs, j, k);
  }

  lemma LeftParent(cx: Context, before: Rows, hs: seq<Host>, p: Progress, rank: map<int, nat>, id: int)
    requires After(cx, before, hs, p) && Ranked(before, rank)
    requires id in p.rows && !Claimed(cx.scan.connector, p.ids.Keys, p.rows[id]) && p.rows[id].data.parent.Some?
    ensures
      var up, r := p.rows[id].data.parent.value, NewRank(cx, hs, p, rank);
      up in p.rows && r[up] < r[id]
  {
    assert LeftBehind(cx.scan, before, id, p.rows[id]);
  }

  /** A scan leaves the parent links without a cycle, gone rows included. */
  lemma ScanKeepsAcyclic(cx: Context, before: Rows, log: seq<Change>, items: seq<Host>)
    requires Unique(before) && Distinct(items) && Acyclic(before)
    ensures Acyclic(Applied(cx, before, log, items).rows)
  {
    var hs, p := Ordered(items), Applied(cx, before, log, items);
    var rank: map<int, nat> :| Ranked(before, rank);
    AppliedLeaves(cx, before, log, items);
    OrderDistinct(items);
    var r := NewRank(cx, hs, p, rank);
    forall id <- p.rows | p.rows[id].data.parent.Some?
      ensures p.rows[id].data.parent.value in p.rows && r[p.rows[id].data.parent.value] < r[id]
    {
      if Claimed(cx.scan.connector, p.ids.Keys, p.rows[id]) {
        ReportedParent(cx, before, hs, p, rank, id);
      } else {
        LeftParent(cx, before, hs, p, rank, id);
      }
    }
    assert Ranked(p.rows, r);
  }

  /** Purging old rows: their children lose the link (the foreign key sets it to null). */
  function Purged(rows: Rows, cutoff: int): Rows {
    var kept := PurgedRows(rows, cutoff);
    map id | id in kept ::
      if kept[id].data.parent.Some? && kept[id].data.parent.value !in kept
      then kept[id].(data := kept[id].data.(parent := None)) else kept[id]
  }

  lemma PurgeKeepsAcyclic(rows: Rows, cutoff: int)
    requires Acyclic(rows)
    ensures Acyclic(Purged(rows, cutoff))
  {
    var rank: map<int, nat> :| Ranked(rows, rank);
    assert Ranked(Purged(rows, cutoff), rank);
  }

  /** A host whose parent chain reaches a root is linked to the row of the parent it names. */
  lemma GroundedHostIsLinked(cx: Context, before: Rows, log: seq<Change>, items: seq<Host>, h: Host)
    requires Unique(before) && Distinct(items) && h in items
    requires Grounded(items, h.key) && !IsRoot(h, ParentsFirst.KeysOf(items))
    ensures
      var p := Applied(cx, before, log, items);
      h.key in p.ids && h.parentKey in p.ids && p.ids[h.key] in p.rows &&
      p.rows[p.ids[h.key]].data.parent == Some(p.ids[h.parentKey])
  {
    var i := GroundedPlace(items, h);
    OrderDistinct(items);
    AppliedLeaves(cx, before, log, items);
    PlacedHostIsLinked(cx, before, Ordered(items), Applied(cx, before, log, items), i);
  }

  lemma PlacedHostIsLinked(cx: Context, before: Rows, hs: seq<Host>, p: Progress, i: nat)
    requires After(cx, before, hs, p) && i < |hs|
    requires hs[i].parentKey != "" && hs[i].parentKey in KeysOf(hs[..i])
    ensures
      var h := hs[i];
      h.key in p.ids && h.parentKey in p.ids && p.ids[h.key] in p.rows &&
      p.rows[p.ids[h.key]].data.parent == Some(p.ids[h.parentKey])
  {
    assert Landed(cx, before, hs, p, i);
    var j := HostOfKey(hs[..i], hs[i].parentKey);
    KeyIn(hs, j);
  }

  // ---------------------------------------------------------------------------
  // A second scan that sees the same

  /** Seen again, a host keeps its row: facts it could not read are the stored ones, aliases are in normal form. */
  lemma NewRowAgain(cx: Context, cx2: Context, prev: Option<Row<Stored>>, row: Row<Stored>, parent: Option<int>, h: Host)
    requires SameRow(row, NewRow(cx, prev, parent, h)) && cx2.scan.connector == cx.scan.connector
    ensures SameRow(row, NewRow(cx2, Some(row), parent, h))
    ensures Normalize(row.data.aliases) == row.data.aliases
  {
    NormalizeTwice(if prev.Some? && h.addressesUnread then prev.value.data.aliases else h.aliases);
  }

  ghost predicate Still(cx: Context, rows: Rows, hs: seq<Host>, ids: map<string, int>, i: nat)
    requires i < |hs|
  {
    hs[i].key in ids && ids[hs[i].key] in rows &&
    var row := rows[ids[hs[i].key]];
    SameRow(row, NewRow(cx, Some(row), ParentAt(ids, hs, i), hs[i])) && Normalize(row.data.aliases) == row.data.aliases
  }

  ghost predicate Settled(cx: Context, rows: Rows, hs: seq<Host>, ids: map<string, int>) {
    && Unique(rows)
    && ids.Keys == KeysOf(hs)
    && (forall i: nat | i < |hs| :: Still(cx, rows, hs, ids, i))
    && Absent(rows, cx.scan.connector, KeysOf(hs)) == {}
  }

  lemma AfterSettles(cx: Context, cx2: Context, before: Rows, hs: seq<Host>, p: Progress)
    requires After(cx, before, hs, p) && cx2.scan.connector == cx.scan.connector
    ensures Settled(cx2, p.rows, hs, p.ids)
  {
    forall i: nat | i < |hs| ensures Still(cx2, p.rows, hs, p.ids, i) {
      assert Landed(cx, before, hs, p, i);
      NewRowAgain(cx, cx2, PrevRow(cx, before, hs[i]), p.rows[p.ids[hs[i].key]], ParentAt(p.ids, hs, i), hs[i]);
    }
    forall id <- p.rows ensures id !in Absent(p.rows, cx.scan.connector, KeysOf(hs)) {
    }
    assert Absent(p.rows, cx.scan.connector, KeysOf(hs)) == {};
  }

  ghost predicate Unmoved(rows: Rows, log: seq<Change>, ids: map<string, int>, keys: set<string>, p: Progress) {
    SameRows(rows, p.rows) && p.log == log && p.ids.Keys == keys && forall k <- keys :: k in ids && p.ids[k] == ids[k]
  }

  lemma SameRowsKeys(a: Rows, b: Rows, id: int)
    requires Unique(a) && SameRows(a, b) && id in a
    ensures id in b && SameRow(a[id], b[id]) && FindKey(b, a[id].connector, a[id].key) == Some(id)
  {
    forall i <- b ensures b[i].connector == a[i].connector && b[i].key == a[i].key {
      assert SameRow(a[i], b[i]);
    }
  }

  lemma NothingFiled(cx: Context, rows: Rows, id: int, row: Row<Stored>)
    requires id in rows && SameRow(rows[id], row) && Normalize(row.data.aliases) == row.data.aliases
    ensures EntryFor(cx, rows, id, row) == []
  {
  }

  lemma StepAgain(cx: Context, rows: Rows, log: seq<Change>, hs: seq<Host>, ids: map<string, int>, i: nat, p: Progress)
    requires i < |hs| && Unique(rows) && Still(cx, rows, hs, ids, i) && ids.Keys == KeysOf(hs)
    requires Unmoved(rows, log, ids, KeysOf(hs[..i]), p)
    ensures Unmoved(rows, log, ids, KeysOf(hs[..i]) + {hs[i].key}, Step(cx, p, hs[i]))
  {
    var h := hs[i];
    var id := ids[h.key];
    SameRowsKeys(rows, p.rows, id);
    assert rows[id].connector == cx.scan.connector && rows[id].key == h.key;
    assert ParentFor(p.ids, h) == ParentAt(ids, hs, i);
    var row := NewRow(cx, Some(p.rows[id]), ParentAt(ids, hs, i), h);
    assert SameRow(p.rows[id], row);
    NothingFiled(cx, p.rows, id, row);
    assert p.log + [] == p.log;
    SameRowsTrans(rows, p.rows, Step(cx, p, h).rows);
  }

  lemma {:induction false} FoldAgain(cx: Context, rows: Rows, log: seq<Change>, hs: seq<Host>, ids: map<string, int>, n: nat)
    requires Settled(cx, rows, hs, ids) && n <= |hs|
    ensures Unmoved(rows, log, ids, KeysOf(hs[..n]), Fold(cx, rows, log, hs[..n]))
  {
    if n > 0 {
      assert hs[..n][..n - 1] == hs[..n - 1];
      FoldAgain(cx, rows, log, hs, ids, n - 1);
      assert Still(cx, rows, hs, ids, n - 1);
      StepAgain(cx, rows, log, hs, ids, n - 1, Fold(cx, rows, log, hs[..n - 1]));
    }
  }

  lemma RescanSettled(cx: Context, rows: Rows, log: seq<Change>, hs: seq<Host>, ids: map<string, int>)
    requires Lists(cx.order) && Settled(cx, rows, hs, ids)
    ensures
      var q := Finish(cx, Fold(cx, rows, log, hs), KeysOf(hs));
      q.log == log && q.ids == ids && SameRows(rows, q.rows)
  {
    assert hs[..|hs|] == hs;
    FoldAgain(cx, rows, log, hs, ids, |hs|);
    var f := Fold(cx, rows, log, hs);
    assert Absent(f.rows, cx.scan.connector, KeysOf(hs)) == {} by {
      forall id <- f.rows ensures id !in Absent(f.rows, cx.scan.connector, KeysOf(hs)) {
        assert SameRow(rows[id], f.rows[id]);
        assert id !in Absent(rows, cx.scan.connector, KeysOf(hs));
      }
    }
    assert ListOf(cx.order({}), {});
    assert Ended(f.rows, {}, cx.scan.now) == f.rows;
  }

  /** Scanning twice: unread facts and parents caught in a cycle included, the second scan files nothing. */
  lemma HostsRescan(cx: Context, cx2: Context, before: Rows, log: seq<Change>, items: seq<Host>, log2: seq<Change>)
    requires Lists(cx.order) && cx2.order == cx.order && cx2.scan.connector == cx.scan.connector
    requires Unique(before) && Distinct(items)
    ensures
      var p := Applied(cx, before, log, items);
      var q := Applied(cx2, p.rows, log2, items);
      q.log == log2 && q.ids == p.ids && SameRows(p.rows, q.rows)
  {
    var p := Applied(cx, before, log, items);
    AppliedLeaves(cx, before, log, items);
    AfterSettles(cx, cx2, before, Ordered(items), p);
    RescanSettled(cx2, p.rows, log2, Ordered(items), p.ids);
  }

  // ---------------------------------------------------------------------------
  // The feed

  lemma StepTells(cx: Context, p: Progress, h: Host)
    requires Lawful(p.log) && Tells(p.rows, p.log, HostEntity)
    ensures
      var q := Step(cx, p, h);
      Lawful(q.log) && Tells(q.rows, q.log, HostEntity) && forall o | o != HostEntity :: SameStory(p.log, q.log, o)
  {
    var id := IdFor(cx, p.rows, h);
    var row := NewRow(cx, PrevRow(cx, p.rows, h), ParentFor(p.ids, h), h);
    var entries := EntryFor(cx, p.rows, id, row);
    EntryShape(cx, p.rows, id, row);
    if entries == [] {
      assert p.log + entries == p.log;
    } else {
      EntryTells(p.rows, p.log, id, row, entries[0]);
    }
  }

  lemma EntryShape(cx: Context, rows: Rows, id: int, row: Row<Stored>)
    requires row.state != GONE
    ensures
      var entries := EntryFor(cx, rows, id, row);
      if entries == [] then id in rows && rows[id].state == row.state
      else
        |entries| == 1 && entries[0].entity == HostEntity && entries[0].id == id && entries[0].kind != Removed &&
        (entries[0].kind == Added <==> id !in rows) &&
        (id in rows ==> entries[0].diff != map[]) &&
        (id in rows && rows[id].state == GONE ==> "state" in entries[0].diff && entries[0].diff["state"].0 == GONE)
  {
    if id in rows {
      var was, now := Tracked(rows, rows[id], Normalize(rows[id].data.aliases)), Tracked(rows, row, row.data.aliases);
      assert Before(was, "state") == rows[id].state && now["state"] == row.state;
    }
  }

  lemma {:induction false} FoldTells(cx: Context, before: Rows, log: seq<Change>, hs: seq<Host>)
    requires Lawful(log) && Tells(before, log, HostEntity)
    ensures
      var p := Fold(cx, before, log, hs);
      Lawful(p.log) && Tells(p.rows, p.log, HostEntity) && forall o | o != HostEntity :: SameStory(log, p.log, o)
  {
    if |hs| > 0 {
      var init, h := hs[..|hs| - 1], hs[|hs| - 1];
      FoldTells(cx, before, log, init);
      var p := Fold(cx, before, log, init);
      StepTells(cx, p, h);
      SameStories(log, p.log, Step(cx, p, h).log, HostEntity);
    }
  }

  lemma HostsTell(cx: Context, before: Rows, log: seq<Change>, items: seq<Host>)
    requires Lists(cx.order) && Lawful(log) && Tells(before, log, HostEntity)
    ensures
      var p := Applied(cx, before, log, items);
      Lawful(p.log) && Tells(p.rows, p.log, HostEntity) && forall o | o != HostEntity :: SameStory(log, p.log, o)
  {
    var hs := Ordered(items);
    FoldTells(cx, before, log, hs);
    var p := Fold(cx, before, log, hs);
    MarkGoneTells(p.rows, p.log, HostEntity, cx.scan, KeysOf(hs), cx.order);
    SameStories(log, p.log, Applied(cx, before, log, items).log, HostEntity);
  }

  // ---------------------------------------------------------------------------
  // What exactly is stored and filed

  /** The name of a linked host when the i-th was written: its new one if it was written before, else the stored one. */
  ghost function NameThen(before: Rows, p: Progress, hs: seq<Host>, i: nat, link: Option<int>): string
    requires i <= |hs|
  {
    if exists j :: 0 <= j < i && hs[j].key in p.ids && link == Some(p.ids[hs[j].key]) then NameAt(p.rows, link) else NameAt(before, link)
  }

  /** The nine compared columns of the i-th host, before and after. */
  ghost function Columns(before: Rows, p: Progress, hs: seq<Host>, i: nat, was: Row<Stored>, row: Row<Stored>)
    : map<string, (string, string)>
    requires i <= |hs|
  {
    map["name" := (was.data.name, row.data.name), "kind" := (was.data.kind, row.data.kind),
        "address" := (was.data.address, row.data.address), "os" := (was.data.os, row.data.os),
        "arch" := (was.data.arch, row.data.arch), "state" := (was.state, row.state),
        "aliases" := (Join(Normalize(was.data.aliases)), Join(row.data.aliases)), "power" := (was.data.power, row.data.power),
        "parent" := (NameThen(before, p, hs, i, was.data.parent), NameThen(before, p, hs, i, row.data.parent))]
  }

  ghost function EntryThen(cx: Context, before: Rows, p: Progress, hs: seq<Host>, i: nat): seq<Change>
    requires i < |hs| && hs[i].key in p.ids && p.ids[hs[i].key] in p.rows
  {
    var id := p.ids[hs[i].key];
    if id !in before then [Change(cx.scan.run, cx.scan.now, HostEntity, id, Added, map[])]
    else
      var moved := Changed(Columns(before, p, hs, i, before[id], p.rows[id]));
      if moved == map[] then [] else [Change(cx.scan.run, cx.scan.now, HostEntity, id, Modified, moved)]
  }

  ghost predicate HostFiles(cx: Context, before: Rows, log: seq<Change>, hs: seq<Host>, p: Progress, i: nat)
    requires i < |hs|
  {
    hs[i].key in p.ids && p.ids[hs[i].key] in p.rows &&
    Filed(log, p.log, HostEntity, p.ids[hs[i].key], EntryThen(cx, before, p, hs, i))
  }

  ghost predicate FoldFiles(cx: Context, before: Rows, log: seq<Change>, hs: seq<Host>, p: Progress) {
    && (forall i: nat | i < |hs| :: HostFiles(cx, before, log, hs, p, i))
    && (forall id | id !in p.ids.Values :: Filed(log, p.log, HostEntity, id, []))
  }

  lemma HeldIsClaimed(cx: Context, before: Rows, hs: seq<Host>, p: Progress, id: int)
    requires Inv(cx, before, hs, p)
    ensures id in p.ids.Values <==> id in p.rows && Claimed(cx.scan.connector, p.ids.Keys, p.rows[id])
    ensures id in p.ids.Values <==> exists j :: 0 <= j < |hs| && hs[j].key in p.ids && p.ids[hs[j].key] == id
  {
    forall k <- p.ids ensures p.ids[k] in p.rows && p.rows[p.ids[k]].key == k && p.rows[p.ids[k]].connector == cx.scan.connector {
      var j := HostOfKey(hs, k);
      assert Landed(cx, before, hs, p, j);
    }
    if id in p.rows && Claimed(cx.scan.connector, p.ids.Keys, p.rows[id]) {
      var j := HostOfKey(hs, p.rows[id].key);
      assert p.ids[hs[j].key] == id;
    }
    if id in p.ids.Values {
      var k :| k in p.ids && p.ids[k] == id;
      var j := HostOfKey(hs, k);
      assert p.ids[hs[j].key] == id;
    }
  }

  /** While the next host is written, every linked host has the name `NameThen` says. */
  lemma NameThenIs(cx: Context, before: Rows, hs: seq<Host>, p: Progress, h: Host, q: Progress, link: Option<int>, id: int)
    requires Inv(cx, before, hs, p) && h.key !in p.ids
    requires q.ids == p.ids[h.key := id] && id !in p.ids.Values && id in q.rows && q.rows == p.rows[id := q.rows[id]]
    ensures NameThen(before, q, hs + [h], |hs|, link) == NameAt(p.rows, link)
  {
    var all := hs + [h];
    forall j | 0 <= j < |hs| ensures hs[j].key in p.ids && q.ids[hs[j].key] == p.ids[hs[j].key] && all[j] == hs[j] {
      KeyIn(hs, j);
    }
    if link.Some? {
      HeldIsClaimed(cx, before, hs, p, link.value);
      if link.value in p.ids.Values {
        var j :| 0 <= j < |hs| && hs[j].key in p.ids && p.ids[hs[j].key] == link.value;
        assert all[j].key in q.ids && link == Some(q.ids[all[j].key]);
      }
    }
  }

  /** What is said of a host written before stays said. */
  lemma NameThenStays(before: Rows, hs: seq<Host>, p: Progress, h: Host, q: Progress, i: nat, link: Option<int>, id: int)
    requires i <= |hs| && h.key !in p.ids && p.ids.Keys == KeysOf(hs) && id !in p.ids.Values
    requires q.ids == p.ids[h.key := id] && forall at: int | at != id :: NameAt(q.rows, Some(at)) == NameAt(p.rows, Some(at))
    ensures NameThen(before, q, hs + [h], i, link) == NameThen(before, p, hs, i, link)
  {
    var all := hs + [h];
    forall j | 0 <= j < i ensures hs[j].key in p.ids && q.ids[all[j].key] == p.ids[hs[j].key] && all[j] == hs[j] {
      KeyIn(hs, j);
    }
    if j :| 0 <= j < i && hs[j].key in p.ids && link == Some(p.ids[hs[j].key]) {
      assert all[j].key in q.ids && link == Some(q.ids[all[j].key]);
      assert p.ids[hs[j].key] in p.ids.Values;
    } else {
      assert !exists j :: 0 <= j < i && all[j].key in q.ids && link == Some(q.ids[all[j].key]);
    }
  }

  lemma StepEntry(cx: Context, before: Rows, hs: seq<Host>, p: Progress, h: Host)
    requires Unique(before) && Inv(cx, before, hs, p) && h.key !in KeysOf(hs)
    ensures
      var q, id := Step(cx, p, h), IdFor(cx, p.rows, h);
      && q.rows.Keys == p.rows.Keys + {id} && q.ids == p.ids[h.key := id] && id !in p.ids.Values
      && (forall at: int | at != id && at in p.rows :: q.rows[at] == p.rows[at])
      && q.log == p.log + EntryThen(cx, before, q, hs + [h], |hs|)
  {
    var q, id := Step(cx, p, h), IdFor(cx, p.rows, h);
    StepIs(cx, before, hs, p, h);
    HeldIsClaimed(cx, before, hs, p, id);
    NameThenIs(cx, before, hs, p, h, q, q.rows[id].data.parent, id);
    if id in before {
      NameThenIs(cx, before, hs, p, h, q, before[id].data.parent, id);
    }
    assert (hs + [h])[|hs|] == h;
    assert id in p.rows <==> id in before;
    hide Inv, Normalize, Join, NameThen, NameAt, Claimed, Unique, EntryFor, EntryThen;
    EntryIsThen(cx, before, p.rows, q, hs + [h], |hs|, id);
  }

  lemma EntryIsThen(cx: Context, before: Rows, rows: Rows, q: Progress, all: seq<Host>, i: nat, id: int)
    requires i < |all| && all[i].key in q.ids && q.ids[all[i].key] == id && id in q.rows
    requires (id in rows <==> id in before) && (id in before ==> rows[id] == before[id])
    requires NameThen(before, q, all, i, q.rows[id].data.parent) == NameAt(rows, q.rows[id].data.parent)
    requires id in before ==> NameThen(before, q, all, i, before[id].data.parent) == NameAt(rows, before[id].data.parent)
    ensures EntryFor(cx, rows, id, q.rows[id]) == EntryThen(cx, before, q, all, i)
  {
    hide Normalize, Join, NameThen, NameAt;
    if id in before {
      ColumnsMoved(before, rows, q, all, i, before[id], q.rows[id]);
    }
  }

  lemma ColumnsMoved(before: Rows, rows: Rows, q: Progress, hs: seq<Host>, i: nat, was: Row<Stored>, row: Row<Stored>)
    requires i <= |hs|
    requires NameThen(before, q, hs, i, was.data.parent) == NameAt(rows, was.data.parent)
    requires NameThen(before, q, hs, i, row.data.parent) == NameAt(rows, row.data.parent)
    ensures FieldsDiff(Tracked(rows, was, Normalize(was.data.aliases)), Tracked(rows, row, row.data.aliases))
         == Changed(Columns(before, q, hs, i, was, row))
  {
    hide Normalize, Join, NameThen, NameAt;
    DiffIsChanged(Tracked(rows, was, Normalize(was.data.aliases)), Tracked(rows, row, row.data.aliases),
                  Columns(before, q, hs, i, was, row));
  }

  lemma EntryStays(cx: Context, before: Rows, hs: seq<Host>, p: Progress, h: Host, q: Progress, i: nat, id: int)
    requires i < |hs| && h.key !in p.ids && p.ids.Keys == KeysOf(hs) && id !in p.ids.Values
    requires hs[i].key in p.ids && p.ids[hs[i].key] in p.rows
    requires q.ids == p.ids[h.key := id] && q.rows.Keys == p.rows.Keys + {id}
    requires forall at: int | at != id && at in p.rows :: q.rows[at] == p.rows[at]
    ensures EntryThen(cx, before, q, hs + [h], i) == EntryThen(cx, before, p, hs, i)
  {
    var at := p.ids[hs[i].key];
    assert at in p.ids.Values && (hs + [h])[i] == hs[i];
    assert forall x: int | x != id :: NameAt(q.rows, Some(x)) == NameAt(p.rows, Some(x));
    if at in before {
      NameThenStays(before, hs, p, h, q, i, before[at].data.parent, id);
      NameThenStays(before, hs, p, h, q, i, p.rows[at].data.parent, id);
    }
  }

  lemma OneEntry(cx: Context, before: Rows, p: Progress, hs: seq<Host>, i: nat)
    requires i < |hs| && hs[i].key in p.ids && p.ids[hs[i].key] in p.rows
    ensures
      var entries := EntryThen(cx, before, p, hs, i);
      |entries| <= 1 && forall c <- entries :: c.entity == HostEntity && c.id == p.ids[hs[i].key]
  {
  }

  lemma StepFiles(cx: Context, before: Rows, log: seq<Change>, hs: seq<Host>, p: Progress, h: Host)
    requires Unique(before) && Inv(cx, before, hs, p) && FoldFiles(cx, before, log, hs, p) && h.key !in KeysOf(hs)
    ensures FoldFiles(cx, before, log, hs + [h], Step(cx, p, h))
  {
    hide EntryThen, Filed, IdFor, Unique, Step;
    var q, id, all := Step(cx, p, h), IdFor(cx, p.rows, h), hs + [h];
    StepEntry(cx, before, hs, p, h);
    var entries := EntryThen(cx, before, q, all, |hs|);
    OneEntry(cx, before, q, all, |hs|);
    forall i: nat | i < |all| ensures HostFiles(cx, before, log, all, q, i) {
      if i < |hs| {
        assert HostFiles(cx, before, log, hs, p, i);
        var at := p.ids[hs[i].key];
        assert at in p.ids.Values;
        KeyIn(hs, i);
        EntryStays(cx, before, hs, p, h, q, i, id);
        StoryGoesOn(log, p.log, entries, HostEntity, at, id, EntryThen(cx, before, p, hs, i));
      } else {
        StoryGoesOn(log, p.log, entries, HostEntity, id, id, []);
        assert [] + entries == entries;
      }
    }
    forall at | at !in q.ids.Values ensures Filed(log, q.log, HostEntity, at, []) {
      assert q.ids[h.key] == id;
      assert at !in p.ids.Values by { ValuesGrow(p.ids, h.key, id); }
      StoryGoesOn(log, p.log, entries, HostEntity, at, id, []);
    }
  }

  lemma {:induction false} FoldFilesAll(cx: Context, before: Rows, log: seq<Change>, hs: seq<Host>)
    requires Unique(before) && Distinct(hs)
    ensures FoldFiles(cx, before, log, hs, Fold(cx, before, log, hs))
  {
    if |hs| > 0 {
      hide FoldFiles, Inv, Step;
      var init, h := hs[..|hs| - 1], hs[|hs| - 1];
      assert init + [h] == hs;
      FoldFilesAll(cx, before, log, init);
      FoldKeeps(cx, before, log, init);
      StepFiles(cx, before, log, init, Fold(cx, before, log, init), h);
    }
  }

  /** What was filed by the loop is all that is filed about a reported host. */
  lemma ReportedFiles(cx: Context, before: Rows, log: seq<Change>, items: seq<Host>, i: nat)
    requires Lists(cx.order) && Unique(before) && Distinct(items) && i < |Ordered(items)|
    ensures
      var hs, p := Ordered(items), Applied(cx, before, log, items);
      Landed(cx, before, hs, p, i) && Filed(log, p.log, HostEntity, p.ids[hs[i].key], EntryThen(cx, before, p, hs, i))
  {
    var hs, p := Ordered(items), Applied(cx, before, log, items);
    var f := Fold(cx, before, log, hs);
    OrderDistinct(items);
    AppliedLeaves(cx, before, log, items);
    assert Landed(cx, before, hs, p, i);
    FoldFilesAll(cx, before, log, hs);
    assert HostFiles(cx, before, log, hs, f, i);
    FoldKeeps(cx, before, log, hs);
    assert Landed(cx, before, hs, f, i);
    KeyIn(hs, i);
    var id, absent := f.ids[hs[i].key], Absent(f.rows, cx.scan.connector, KeysOf(hs));
    AbsentStory(f.rows, f.log, HostEntity, cx.scan, KeysOf(hs), cx.order, id);
    SameAfterEnding(cx, before, hs, f, p, i);
    hide EntryThen, Filed, Landed, Inv;
    FiledThen(log, f.log, p.log, HostEntity, id, EntryThen(cx, before, f, hs, i), []);
  }

  lemma SameAfterEnding(cx: Context, before: Rows, hs: seq<Host>, f: Progress, p: Progress, i: nat)
    requires i < |hs| && hs[i].key in f.ids && f.ids[hs[i].key] in f.rows && p.ids == f.ids
    requires exists ids :: p.rows == Ended(f.rows, ids, cx.scan.now) && f.ids[hs[i].key] !in ids
    ensures f.ids[hs[i].key] in p.rows && EntryThen(cx, before, p, hs, i) == EntryThen(cx, before, f, hs, i)
  {
    assert forall link :: NameAt(p.rows, link) == NameAt(f.rows, link);
    assert forall link :: NameThen(before, p, hs, i, link) == NameThen(before, f, hs, i, link);
  }

  /**
   A reported host, column by column: what its row holds after the scan, and what is filed. A name or the
   addresses the source could not read are the stored ones; everything else is as reported. On a row that was
   there one entry names exactly the columns that moved, the parent by its name, and none moved no entry.
   */
  lemma ReportedIsTold(cx: Context, before: Rows, log: seq<Change>, items: seq<Host>, i: nat)
    requires Lists(cx.order) && Unique(before) && Distinct(items) && i < |Ordered(items)|
    ensures
      var hs, p := Ordered(items), Applied(cx, before, log, items);
      var h := hs[i];
      h.key in p.ids && p.ids[h.key] in p.rows &&
      var id, row := p.ids[h.key], p.rows[p.ids[h.key]];
      && (id in before <==> FindKey(before, cx.scan.connector, h.key) == Some(id))
      && row.connector == cx.scan.connector && row.key == h.key && row.state == "active" && row.updatedAt == cx.scan.now
      && row.data.name == (if id in before && h.nameUnread then before[id].data.name else h.name)
      && row.data.address == (if id in before && h.addressesUnread then before[id].data.address else h.address)
      && row.data.aliases == Normalize(if id in before && h.addressesUnread then before[id].data.aliases else h.aliases)
      && row.data.kind == h.kind && row.data.os == h.os && row.data.arch == h.arch && row.data.power == h.power
      && (if h.parentKey != "" && h.parentKey in KeysOf(hs[..i]) then h.parentKey in p.ids && row.data.parent == Some(p.ids[h.parentKey])
          else row.data.parent == None)
      && Filed(log, p.log, HostEntity, id,
           if id !in before then [Change(cx.scan.run, cx.scan.now, HostEntity, id, Added, map[])]
           else
             var was := before[id];
             var moved := Changed(
               map["name" := (was.data.name, row.data.name), "kind" := (was.data.kind, h.kind),
                   "address" := (was.data.address, row.data.address), "os" := (was.data.os, h.os),
                   "arch" := (was.data.arch, h.arch), "state" := (was.state, "active"),
                   "aliases" := (Join(Normalize(was.data.aliases)), Join(row.data.aliases)), "power" := (was.data.power, h.power),
                   "parent" := (NameThen(before, p, hs, i, was.data.parent), NameThen(before, p, hs, i, row.data.parent))]);
             if moved == map[] then [] else [Change(cx.scan.run, cx.scan.now, HostEntity, id, Modified, moved)])
  {
    var hs, p := Ordered(items), Applied(cx, before, log, items);
    ReportedFiles(cx, before, log, items, i);
    OrderDistinct(items);
    AppliedLeaves(cx, before, log, items);
    KeysOfPrefix(hs, i);
    hide Applied, Filed, Changed, Normalize, Join, NameThen;
  }

  lemma KeysOfPrefix(hs: seq<Host>, i: nat)
    requires i <= |hs|
    ensures KeysOf(hs[..i]) <= KeysOf(hs)
  {
    forall k <- KeysOf(hs[..i]) ensures k in KeysOf(hs) {
      var j := HostOfKey(hs[..i], k);
      KeyIn(hs, j);
    }
  }

  /** A row no reported host is on: the connector's live one is ended with one removal, any other is left alone. */
  lemma UnreportedIsTold(cx: Context, before: Rows, log: seq<Change>, items: seq<Host>, id: int)
    requires Lists(cx.order) && Unique(before) && Distinct(items)
    requires id !in Applied(cx, before, log, items).ids.Values
    ensures
      var p := Applied(cx, before, log, items);
      if id in before && before[id].connector == cx.scan.connector && before[id].state != "gone" then
        && id in p.rows && p.rows[id] == before[id].(state := "gone", updatedAt := cx.scan.now)
        && Filed(log, p.log, HostEntity, id,
                 [Change(cx.scan.run, cx.scan.now, HostEntity, id, Removed, map["state" := ("active", "gone")])])
      else
        && (id in p.rows <==> id in before) && (id in before ==> p.rows[id] == before[id])
        && Filed(log, p.log, HostEntity, id, [])
  {
    var hs := Ordered(items);
    var f := Fold(cx, before, log, hs);
    OrderDistinct(items);
    FoldFilesAll(cx, before, log, hs);
    FoldKeeps(cx, before, log, hs);
    HeldIsClaimed(cx, before, hs, f, id);
    assert id in f.rows <==> id in before;
    hide Filed, Inv, HostFiles, Absent, Ended, RemovedEntries;
    UnreportedEnds(before, f.rows, log, f.log, HostEntity, cx.scan, KeysOf(hs), cx.order, id);
  }
}
