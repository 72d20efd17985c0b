/**
 How a scan's services are folded into the stored ones (internal/engine/apply.go, applyServices):
 matched by natural key, or adopted from a live row whose key moved, or inserted.
 */
module Services {
  import opened Results
  import opened Store

  /** A service as a connector reports it. */
  datatype Service = Service(
    key: string, hostKey: string, name: string, kind: string, stack: string, image: string, tag: string,
    digest: string, state: string, health: string)

  datatype Stored = Stored(
    host: Option<int>, name: string, kind: string, stack: string, image: string, tag: string, digest: string,
    health: string)

  type Rows = map<int, Row<Stored>>

  /** What one call works with: the scan, the ids its hosts were given, the keys it reports, the row order. */
  datatype Context = Context(scan: Scan, hosts: map<string, int>, incoming: set<string>, order: RowOrder)

  predicate Reportable(s: Service) {
    s.key != "" && s.name != ""
  }

  function KeysOf(items: seq<Service>): set<string> {
    if |items| == 0 then {} else KeysOf(items[..|items| - 1]) + {items[|items| - 1].key}
  }

  /** No key is reported twice. */
  predicate Distinct(items: seq<Service>) {
    |items| == 0 || (Distinct(items[..|items| - 1]) && items[|items| - 1].key !in KeysOf(items[..|items| - 1]))
  }

  lemma {:induction false} KeyOfItem(items: seq<Service>, i: nat)
    requires i < |items|
    ensures items[i].key in KeysOf(items)
  {
    if i < |items| - 1 {
      KeyOfItem(items[..|items| - 1], i);
    }
  }

  function HostOf(cx: Context, s: Service): Option<int> {
    if s.hostKey in cx.hosts then Some(cx.hosts[s.hostKey]) else None
  }

  /** The row a reported service is stored as, whichever way its id is found. */
  function RowOf(cx: Context, s: Service): Row<Stored> {
    Row(cx.scan.connector, s.key, DefaultString(s.state, "unknown"), cx.scan.now,
        Stored(HostOf(cx, s), s.name, DefaultString(s.kind, "container"), s.stack, s.image, s.tag, s.digest, s.health))
  }

  /** The columns whose changes reach the feed. */
  function Tracked(r: Row<Stored>): Fields {
    map["name" := r.data.name, "stack" := r.data.stack, "image" := r.data.image, "tag" := r.data.tag,
        "digest" := r.data.digest, "state" := r.state]
  }

  /** Live rows of the same connector, name, stack and host. */
  function Namesakes(cx: Context, rows: Rows, s: Service): set<int> {
    set id | id in rows && rows[id].connector == cx.scan.connector && rows[id].data.name == s.name
             && rows[id].data.stack == s.stack && rows[id].data.host == HostOf(cx, s) && rows[id].state != GONE
  }

  /** Those whose own key the scan does not report: the rows the service may take over. */
  function Adoptable(cx: Context, rows: Rows, s: Service): set<int> {
    set id | id in Namesakes(cx, rows, s) && rows[id].key !in cx.incoming
  }

  /** The first candidate whose own key the scan does not report. */
  function FirstMoved(rows: Rows, ids: seq<int>, incoming: set<string>): (r: Option<int>)
    requires forall i | 0 <= i < |ids| :: ids[i] in rows
    ensures r.Some? ==> r.value in ids && r.value in rows && rows[r.value].key !in incoming
    ensures r.None? ==> forall i | 0 <= i < |ids| :: rows[ids[i]].key in incoming
  {
    if |ids| == 0 then None
    else if rows[ids[0]].key !in incoming then Some(ids[0])
    else FirstMoved(rows, ids[1..], incoming)
  }

  datatype Progress = Progress(rows: Rows, log: seq<Change>, ids: map<string, int>)

  /** The row a reported service lands on: its key's, or one it takes over, or a new one. */
  ghost function IdFor(cx: Context, rows: Rows, s: Service): int
    requires Lists(cx.order)
  {
    match FindKey(rows, cx.scan.connector, s.key)
    case Some(id) => id
    case None =>
      match Moved(cx, rows, s)
      case Some(id) => id
      case None => NextId(rows)
  }

  /** The entry filed about it: none for a row whose tracked columns stay as they were. */
  function EntryFor(cx: Context, rows: Rows, s: Service, id: int): seq<Change> {
    if id !in rows then [Entry(cx.scan, ServiceEntity, id, Added, map[])]
    else
      var diff := FieldsDiff(Tracked(rows[id]), Tracked(RowOf(cx, s)));
      if diff == map[] then []
      else if rows[id].key == s.key then [Entry(cx.scan, ServiceEntity, id, Modified, diff)]
      else [Entry(cx.scan, ServiceEntity, id, Modified, diff["natural_key" := (rows[id].key, s.key)])]
  }

  /** One reported service. */
  ghost function Step(cx: Context, p: Progress, s: Service): Progress
    requires Lists(cx.order)
  {
    var id := IdFor(cx, p.rows, s);
    Progress(p.rows[id := RowOf(cx, s)], p.log + EntryFor(cx, p.rows, s, id), p.ids[s.key := id])
  }

  /** The row a service whose key is new takes over, if there is one. */
  ghost function Moved(cx: Context, rows: Rows, s: Service): (r: Option<int>)
    requires Lists(cx.order)
    ensures r.Some? ==> r.value in Adoptable(cx, rows, s)
    ensures r.None? ==> Adoptable(cx, rows, s) == {}
  {
    var found := Namesakes(cx, rows, s);
    assert ListOf(cx.order(found), found);
    FirstMoved(rows, cx.order(found), cx.incoming)
  }

  ghost function Fold(cx: Context, rows: Rows, log: seq<Change>, items: seq<Service>): Progress
    requires Lists(cx.order)
  {
    if |items| == 0 then Progress(rows, log, map[])
    else Step(cx, Fold(cx, rows, log, items[..|items| - 1]), items[|items| - 1])
  }

  /** The services table, the feed and the ids after a whole scan: the fold, then `markGone`. */
  ghost function Applied(cx: Context, rows: Rows, log: seq<Change>, items: seq<Service>): Progress
    requires Lists(cx.order)
  {
    var p := Fold(cx, rows, log, items);
    var absent := Absent(p.rows, cx.scan.connector, KeysOf(items));
    Progress(Ended(p.rows, absent, cx.scan.now),
             p.log + RemovedEntries(ServiceEntity, cx.scan, cx.order(absent)), p.ids)
  }

  // ---------------------------------------------------------------------------
  // What the fold keeps

  /**
   Where the id of a reported service comes from: it is the row under its key; a service whose key is new
   takes over an adoptable row, and gets a new row only if other services hold every adoptable one.
   */
  ghost predicate Origin(cx: Context, before: Rows, ids: map<string, int>, s: Service, id: int) {
    match FindKey(before, cx.scan.connector, s.key)
    case Some(known) => id == known
    case None =>
      if id in before then id in Adoptable(cx, before, s) else Adoptable(cx, before, s) <= ids.Values
  }

  ghost predicate Landed(cx: Context, before: Rows, p: Progress, s: Service) {
    s.key in p.ids && p.ids[s.key] in p.rows && p.rows[p.ids[s.key]] == RowOf(cx, s) && Origin(cx, before, p.ids, s, p.ids[s.key])
  }

  ghost predicate Inv(cx: Context, before: Rows, items: seq<Service>, p: Progress) {
    && Unique(p.rows)
    && p.ids.Keys == KeysOf(items)
    && before.Keys <= p.rows.Keys
    && (forall i | 0 <= i < |items| :: Landed(cx, before, p, items[i]))
    && Untouched(cx.scan.connector, before, p.ids.Keys, p.rows)
  }

  lemma {:induction false} ItemOfKey(items: seq<Service>, key: string) returns (i: nat)
    requires key in KeysOf(items)
    ensures i < |items| && items[i].key == key
  {
    if items[|items| - 1].key == key {
      i := |items| - 1;
    } else {
      i := ItemOfKey(items[..|items| - 1], key);
    }
  }

  /** A stored row changes its key only from one the scan does not report. */
  lemma RekeyedFromOutside(cx: Context, before: Rows, items: seq<Service>, p: Progress, id: int)
    requires Unique(before) && Inv(cx, before, items, p) && id in before
    ensures p.rows[id] == before[id] || p.rows[id].key == before[id].key || before[id].key !in cx.incoming
    ensures p.rows[id].connector == before[id].connector
  {
    if p.rows[id] != before[id] {
      var i := ItemOfKey(items, p.rows[id].key);
      assert Landed(cx, before, p, items[i]);
      assert p.ids[items[i].key] == id;
    }
  }

  lemma KeyNotYetTaken(cx: Context, before: Rows, items: seq<Service>, p: Progress, s: Service)
    requires Unique(before) && Inv(cx, before, items, p)
    requires s.key !in KeysOf(items) && KeysOf(items) <= cx.incoming && s.key in cx.incoming
    ensures FindKey(p.rows, cx.scan.connector, s.key) == FindKey(before, cx.scan.connector, s.key)
  {
    var was, now := FindKey(before, cx.scan.connector, s.key), FindKey(p.rows, cx.scan.connector, s.key);
    if now.Some? {
      FindKeyIs(before, now.value);
    } else if was.Some? {
      RekeyedFromOutside(cx, before, items, p, was.value);
    }
  }

  /** An adoptable row no longer there to take is held by a service reported before. */
  lemma NoneLeft(cx: Context, before: Rows, items: seq<Service>, p: Progress, s: Service)
    requires Inv(cx, before, items, p) && Adoptable(cx, p.rows, s) == {}
    ensures Adoptable(cx, before, s) <= p.ids.Values
  {
    forall id <- Adoptable(cx, before, s) ensures id in p.ids.Values {
      assert p.rows[id] == before[id] ==> id in Adoptable(cx, p.rows, s);
      var i := ItemOfKey(items, p.rows[id].key);
      assert Landed(cx, before, p, items[i]);
      assert p.ids[items[i].key] == id;
    }
  }

  /** The row a step writes is either new or untouched so far, and its id comes from where it may. */
  lemma StepOrigin(cx: Context, before: Rows, items: seq<Service>, p: Progress, s: Service)
    requires Lists(cx.order) && Unique(before) && Inv(cx, before, items, p)
    requires s.key !in KeysOf(items) && KeysOf(items) <= cx.incoming && s.key in cx.incoming
    ensures
      var id := IdFor(cx, p.rows, s);
      (id in p.rows ==> id in before && p.rows[id] == before[id] && !Claimed(cx.scan.connector, p.ids.Keys, p.rows[id])) &&
      (FindKey(p.rows, cx.scan.connector, s.key).Some? ==> FindKey(p.rows, cx.scan.connector, s.key) == Some(id)) &&
      Origin(cx, before, p.ids, s, id)
  {
    KeyNotYetTaken(cx, before, items, p, s);
    if FindKey(before, cx.scan.connector, s.key).None? && Moved(cx, p.rows, s).None? {
      NoneLeft(cx, before, items, p, s);
    }
  }

  lemma LandedKeeps(cx: Context, before: Rows, p: Progress, s: Service, t: Service, id: int, log: seq<Change>)
    requires Landed(cx, before, p, t) && t.key != s.key && s.key !in p.ids
    requires id in p.rows ==> !Claimed(cx.scan.connector, p.ids.Keys, p.rows[id])
    ensures Landed(cx, before, Progress(p.rows[id := RowOf(cx, s)], log, p.ids[s.key := id]), t)
  {
    ValuesGrow(p.ids, s.key, id);
  }

  lemma AllLanded(cx: Context, before: Rows, items: seq<Service>, p: Progress, s: Service, q: Progress, id: int)
    requires forall i | 0 <= i < |items| :: Landed(cx, before, p, items[i])
    requires p.ids.Keys == KeysOf(items) && s.key !in KeysOf(items) && Origin(cx, before, p.ids, s, id)
    requires id in p.rows ==> !Claimed(cx.scan.connector, p.ids.Keys, p.rows[id])
    requires q.rows == p.rows[id := RowOf(cx, s)] && q.ids == p.ids[s.key := id]
    ensures forall i | 0 <= i <= |items| :: Landed(cx, before, q, (items + [s])[i])
  {
    forall i | 0 <= i <= |items| ensures Landed(cx, before, q, (items + [s])[i]) {
      if i < |items| {
        KeyOfItem(items, i);
        LandedKeeps(cx, before, p, s, items[i], id, q.log);
      } else {
        ValuesGrow(p.ids, s.key, id);
      }
    }
  }

  lemma PutKeeps(cx: Context, before: Rows, items: seq<Service>, p: Progress, s: Service, q: Progress, id: int)
    requires Inv(cx, before, items, p) && s.key !in KeysOf(items) && Origin(cx, before, p.ids, s, id)
    requires id in p.rows ==> !Claimed(cx.scan.connector, p.ids.Keys, p.rows[id])
    requires FindKey(p.rows, cx.scan.connector, s.key).Some? ==> FindKey(p.rows, cx.scan.connector, s.key) == Some(id)
    requires q.rows == p.rows[id := RowOf(cx, s)] && q.ids == p.ids[s.key := id]
    ensures Inv(cx, before, items + [s], q)
  {
    PutUnique(p.rows, id, RowOf(cx, s));
    AllLanded(cx, before, items, p, s, q, id);
    UntouchedKeeps(cx.scan.connector, before, p.ids.Keys, p.rows, id, RowOf(cx, s));
    assert (items + [s])[..|items|] == items;
  }

  lemma StepKeeps(cx: Context, before: Rows, items: seq<Service>, p: Progress, s: Service)
    requires Lists(cx.order) && Unique(before) && Inv(cx, before, items, p)
    requires s.key !in KeysOf(items) && KeysOf(items) <= cx.incoming && s.key in cx.incoming
    ensures Inv(cx, before, items + [s], Step(cx, p, s))
  {
    StepOrigin(cx, before, items, p, s);
    PutKeeps(cx, before, items, p, s, Step(cx, p, s), IdFor(cx, p.rows, s));
  }

  lemma {:induction false} FoldKeeps(cx: Context, before: Rows, log: seq<Change>, items: seq<Service>)
    requires Lists(cx.order) && Unique(before) && Distinct(items) && KeysOf(items) <= cx.incoming
    ensures Inv(cx, before, items, Fold(cx, before, log, items))
  {
    if |items| > 0 {
      var init, s := items[..|items| - 1], items[|items| - 1];
      assert items == init + [s];
      FoldKeeps(cx, before, log, init);
      StepKeeps(cx, before, init, Fold(cx, before, log, init), s);
    }
  }

  // ---------------------------------------------------------------------------
  // What a whole scan leaves

  ghost predicate After(cx: Context, before: Rows, items: seq<Service>, p: Progress) {
    && Unique(p.rows)
    && p.ids.Keys == KeysOf(items)
    && before.Keys <= p.rows.Keys
    && (forall i | 0 <= i < |items| :: Landed(cx, before, p, items[i]))
    && (forall id <- p.rows :: Claimed(cx.scan.connector, p.ids.Keys, p.rows[id]) || LeftBehind(cx.scan, before, id, p.rows[id]))
  }

  lemma LandedSurvives(cx: Context, before: Rows, items: seq<Service>, p: Progress, q: Progress, i: nat)
    requires i < |items| && Landed(cx, before, p, items[i]) && q.ids == p.ids
    requires q.rows == Ended(p.rows, Absent(p.rows, cx.scan.connector, KeysOf(items)), cx.scan.now)
    ensures Landed(cx, before, q, items[i])
  {
    KeyOfItem(items, i);
  }

  lemma FinishLeaves(cx: Context, before: Rows, items: seq<Service>, p: Progress, q: Progress)
    requires Inv(cx, before, items, p) && q.ids == p.ids
    requires q.rows == Ended(p.rows, Absent(p.rows, cx.scan.connector, KeysOf(items)), cx.scan.now)
    ensures After(cx, before, items, q)
  {
    forall i | 0 <= i < |items| ensures Landed(cx, before, q, items[i]) {
      LandedSurvives(cx, before, items, p, q, i);
    }
  }

  lemma AppliedLeaves(cx: Context, before: Rows, log: seq<Change>, items: seq<Service>)
    requires Lists(cx.order) && Unique(before) && Distinct(items) && cx.incoming == KeysOf(items)
    ensures After(cx, before, items, Applied(cx, before, log, items))
  {
    FoldKeeps(cx, before, log, items);
    FinishLeaves(cx, before, items, Fold(cx, before, log, items), Applied(cx, before, log, items));
  }

  /** A new row is given only to a service all of whose adoptable rows went to other new services of its name. */
  lemma NewRowMeansNoneLeft(cx: Context, before: Rows, log: seq<Change>, items: seq<Service>, i: nat, id: int)
    requires Lists(cx.order) && Unique(before) && Distinct(items) && cx.incoming == KeysOf(items)
    requires i < |items| && FindKey(before, cx.scan.connector, items[i].key).None?
    requires items[i].key in Applied(cx, before, log, items).ids ==> Applied(cx, before, log, items).ids[items[i].key] !in before
    requires id in Adoptable(cx, before, items[i])
    ensures
      var ids := Applied(cx, before, log, items).ids;
      exists j :: 0 <= j < |items| && j != i && items[j].key in ids && ids[items[j].key] == id
        && FindKey(before, cx.scan.connector, items[j].key).None?
        && items[j].name == items[i].name && items[j].stack == items[i].stack && HostOf(cx, items[j]) == HostOf(cx, items[i])
  {
    AppliedLeaves(cx, before, log, items);
    var p := Applied(cx, before, log, items);
    assert Landed(cx, before, p, items[i]);
    var k :| k in p.ids && p.ids[k] == id;
    var j := ItemOfKey(items, k);
    assert Landed(cx, before, p, items[j]);
  }

  /** Replicas never collapse: two reported keys, two rows. */
  lemma DistinctKeysDistinctRows(cx: Context, before: Rows, log: seq<Change>, items: seq<Service>, i: nat, j: nat)
    requires Lists(cx.order) && Unique(before) && Distinct(items) && cx.incoming == KeysOf(items)
    requires i < j < |items|
    ensures
      var ids := Applied(cx, before, log, items).ids;
      items[i].key in ids && items[j].key in ids && ids[items[i].key] != ids[items[j].key]
  {
    AppliedLeaves(cx, before, log, items);
    var p := Applied(cx, before, log, items);
    assert Landed(cx, before, p, items[i]) && Landed(cx, before, p, items[j]);
    DistinctAt(items, i, j);
  }

  lemma {:induction false} DistinctAt(items: seq<Service>, i: nat, j: nat)
    requires Distinct(items) && i < j < |items|
    ensures items[i].key != items[j].key
  {
    if j == |items| - 1 {
      KeyOfItem(items[..j], i);
    } else {
      DistinctAt(items[..|items| - 1], i, j);
    }
  }

  // ---------------------------------------------------------------------------
  // Services known again, whatever they are called now

  /** The row a reported service has to be: the one under its key, or the only one it may take over. */
  ghost predicate Recognises(cx: Context, before: Rows, s: Service, id: int) {
    match FindKey(before, cx.scan.connector, s.key)
    case Some(known) => id == known
    case None => Adoptable(cx, before, s) == {id}
  }

  /** `home` gives every reported service such a row, and no row to two of them. */
  ghost predicate Recognised(cx: Context, before: Rows, items: seq<Service>, home: map<string, int>) {
    && (forall i | 0 <= i < |items| :: items[i].key in home && Recognises(cx, before, items[i], home[items[i].key]))
    && (forall a, b | a in home && b in home && home[a] == home[b] :: a == b)
  }

  /** What the feed compares is as stored. */
  ghost predicate Unchanged(cx: Context, before: Rows, items: seq<Service>, home: map<string, int>) {
    forall i | 0 <= i < |items| ::
      items[i].key in home && home[items[i].key] in before && Tracked(before[home[items[i].key]]) == Tracked(RowOf(cx, items[i]))
  }

  lemma StepHome(cx: Context, before: Rows, items: seq<Service>, p: Progress, s: Service, home: map<string, int>)
    requires Lists(cx.order) && Unique(before) && Inv(cx, before, items, p)
    requires s.key !in KeysOf(items) && KeysOf(items) <= cx.incoming && s.key in cx.incoming
    requires Recognised(cx, before, items + [s], home)
    requires forall k <- p.ids :: k in home && p.ids[k] == home[k]
    ensures s.key in home && home[s.key] in before && IdFor(cx, p.rows, s) == home[s.key]
    ensures home[s.key] in p.rows && p.rows[home[s.key]] == before[home[s.key]]
  {
    assert (items + [s])[|items|] == s;
    var id, at := IdFor(cx, p.rows, s), home[s.key];
    StepOrigin(cx, before, items, p, s);
    if FindKey(before, cx.scan.connector, s.key).None? {
      assert at in Adoptable(cx, before, s);
      forall k <- p.ids ensures p.ids[k] != at {
      }
    }
  }

  lemma FewerRecognised(cx: Context, before: Rows, items: seq<Service>, s: Service, home: map<string, int>)
    requires Recognised(cx, before, items + [s], home)
    ensures Recognised(cx, before, items, home)
    ensures Unchanged(cx, before, items + [s], home) ==> Unchanged(cx, before, items, home)
  {
    assert forall i | 0 <= i < |items| :: (items + [s])[i] == items[i];
  }

  /** Every service so far is on its row, none was added, and if nothing had moved nothing was filed. */
  ghost predicate AtHome(cx: Context, before: Rows, log: seq<Change>, items: seq<Service>, home: map<string, int>, p: Progress) {
    && p.rows.Keys == before.Keys
    && (forall k <- p.ids :: k in home && p.ids[k] == home[k])
    && (Unchanged(cx, before, items, home) ==> p.log == log)
  }

  lemma StepAtHome(cx: Context, before: Rows, log: seq<Change>, items: seq<Service>, p: Progress, s: Service, home: map<string, int>)
    requires Lists(cx.order) && Unique(before) && Inv(cx, before, items, p)
    requires s.key !in KeysOf(items) && KeysOf(items) <= cx.incoming && s.key in cx.incoming
    requires Recognised(cx, before, items + [s], home) && AtHome(cx, before, log, items, home, p)
    ensures AtHome(cx, before, log, items + [s], home, Step(cx, p, s))
  {
    StepHome(cx, before, items, p, s, home);
    FewerRecognised(cx, before, items, s, home);
    if Unchanged(cx, before, items + [s], home) {
      assert (items + [s])[|items|] == s;
      assert EntryFor(cx, p.rows, s, home[s.key]) == [];
    }
  }

  lemma {:induction false} FoldHome(cx: Context, before: Rows, log: seq<Change>, items: seq<Service>, home: map<string, int>)
    requires Lists(cx.order) && Unique(before) && Distinct(items) && KeysOf(items) <= cx.incoming
    requires Recognised(cx, before, items, home)
    ensures AtHome(cx, before, log, items, home, Fold(cx, before, log, items))
  {
    if |items| > 0 {
      hide AtHome, Inv, Recognised, Step;
      var init, s := items[..|items| - 1], items[|items| - 1];
      assert init + [s] == items;
      FewerRecognised(cx, before, init, s, home);
      FoldHome(cx, before, log, init, home);
      FoldKeeps(cx, before, log, init);
      StepAtHome(cx, before, log, init, Fold(cx, before, log, init), s, home);
    }
  }

  /** A service whose row can be told keeps it, under whatever key it is reported now; no row is added. */
  lemma RekeyKeepsRows(cx: Context, before: Rows, log: seq<Change>, items: seq<Service>, home: map<string, int>)
    requires Lists(cx.order) && Unique(before) && Distinct(items) && cx.incoming == KeysOf(items)
    requires Recognised(cx, before, items, home) && home.Keys == KeysOf(items)
    ensures
      var p := Applied(cx, before, log, items);
      p.ids == home && p.rows.Keys == before.Keys && forall k <- home :: home[k] in p.rows && p.rows[home[k]].key == k
  {
    FoldHome(cx, before, log, items, home);
    AppliedLeaves(cx, before, log, items);
    var p := Applied(cx, before, log, items);
    forall k <- home ensures home[k] in p.rows && p.rows[home[k]].key == k {
      var i := ItemOfKey(items, k);
      assert Landed(cx, before, p, items[i]);
    }
  }

  /** And when nothing else moved with the keys, nothing is filed. */
  lemma RekeyIsSilent(cx: Context, before: Rows, log: seq<Change>, items: seq<Service>, home: map<string, int>)
    requires Lists(cx.order) && Unique(before) && Distinct(items) && cx.incoming == KeysOf(items)
    requires Recognised(cx, before, items, home) && home.Keys == KeysOf(items) && Unchanged(cx, before, items, home)
    requires forall id <- before :: before[id].connector == cx.scan.connector && before[id].state != GONE ==> id in home.Values
    ensures Applied(cx, before, log, items).log == log
  {
    FoldHome(cx, before, log, items, home);
    FoldKeeps(cx, before, log, items);
    var p := Fold(cx, before, log, items);
    forall id <- p.rows ensures id !in Absent(p.rows, cx.scan.connector, KeysOf(items)) {
      if id in home.Values {
        var k :| k in home && home[k] == id;
        var i := ItemOfKey(items, k);
        assert Landed(cx, before, p, items[i]);
      }
    }
    assert Absent(p.rows, cx.scan.connector, KeysOf(items)) == {};
    assert ListOf(cx.order({}), {});
  }

  // ---------------------------------------------------------------------------
  // A second scan that sees the same

  /** `rows` is what the first scan left, give or take the times. */
  ghost predicate Settled(cx: Context, rows: Rows, items: seq<Service>, ids: map<string, int>) {
    && Unique(rows)
    && ids.Keys == KeysOf(items)
    && (forall i | 0 <= i < |items| ::
          items[i].key in ids && ids[items[i].key] in rows && SameRow(rows[ids[items[i].key]], RowOf(cx, items[i])))
    && Absent(rows, cx.scan.connector, KeysOf(items)) == {}
  }

  lemma AppliedSettles(cx: Context, before: Rows, log: seq<Change>, items: seq<Service>)
    requires Lists(cx.order) && Unique(before) && Distinct(items) && cx.incoming == KeysOf(items)
    ensures
      var p := Applied(cx, before, log, items);
      Settled(cx, p.rows, items, p.ids)
  {
    AppliedLeaves(cx, before, log, items);
    var p := Applied(cx, before, log, items);
    forall i | 0 <= i < |items|
      ensures items[i].key in p.ids && p.ids[items[i].key] in p.rows && SameRow(p.rows[p.ids[items[i].key]], RowOf(cx, items[i]))
    {
      assert Landed(cx, before, p, items[i]);
    }
    forall id <- p.rows ensures id !in Absent(p.rows, cx.scan.connector, KeysOf(items)) {
    }
    assert Absent(p.rows, cx.scan.connector, KeysOf(items)) == {};
  }

  /** One service seen again: its own row, nothing filed. */
  lemma StepAgain(cx: Context, p: Progress, s: Service, id: int)
    requires Lists(cx.order) && Unique(p.rows) && id in p.rows && SameRow(p.rows[id], RowOf(cx, s))
    ensures Step(cx, p, s) == Progress(p.rows[id := RowOf(cx, s)], p.log, p.ids[s.key := id])
    ensures SameRows(p.rows, Step(cx, p, s).rows)
  {
    FindKeyIs(p.rows, id);
    assert EntryFor(cx, p.rows, s, id) == [];
  }

  ghost predicate Unmoved(rows: Rows, log: seq<Change>, ids: map<string, int>, keys: set<string>, p: Progress) {
    SameRows(rows, p.rows) && p.log == log && p.ids.Keys == keys && forall k <- keys :: k in ids && p.ids[k] == ids[k]
  }

  lemma UnmovedNext(cx: Context, rows: Rows, log: seq<Change>, ids: map<string, int>, keys: set<string>, p: Progress, s: Service)
    requires Lists(cx.order) && Unique(rows) && Unmoved(rows, log, ids, keys, p)
    requires s.key in ids && ids[s.key] in rows && SameRow(rows[ids[s.key]], RowOf(cx, s))
    ensures Unmoved(rows, log, ids, keys + {s.key}, Step(cx, p, s))
  {
    var id := ids[s.key];
    SameRowsUnique(rows, p.rows);
    SameRowAt(rows, p.rows, id);
    StepAgain(cx, p, s, id);
    SameRowsTrans(rows, p.rows, Step(cx, p, s).rows);
  }

  lemma {:induction false} FoldAgain(cx: Context, rows: Rows, log: seq<Change>, all: seq<Service>, n: nat, ids: map<string, int>)
    requires Lists(cx.order) && Settled(cx, rows, all, ids) && n <= |all|
    ensures Unmoved(rows, log, ids, KeysOf(all[..n]), Fold(cx, rows, log, all[..n]))
  {
    if n > 0 {
      FoldAgain(cx, rows, log, all, n - 1, ids);
      assert all[..n][..n - 1] == all[..n - 1];
      UnmovedNext(cx, rows, log, ids, KeysOf(all[..n - 1]), Fold(cx, rows, log, all[..n - 1]), all[n - 1]);
    }
  }

  /** Scanning twice: the second scan files nothing and leaves every row and id as the first left it. */
  lemma ServicesRescan(cx: Context, cx2: Context, before: Rows, log: seq<Change>, items: seq<Service>, log2: seq<Change>)
    requires Lists(cx.order) && Unique(before) && Distinct(items) && cx.incoming == KeysOf(items)
    requires cx2.(scan := cx.scan) == cx && cx2.scan.connector == cx.scan.connector
    ensures
      var p := Applied(cx, before, log, items);
      var q := Applied(cx2, p.rows, log2, items);
      q.log == log2 && q.ids == p.ids && SameRows(p.rows, q.rows)
  {
    var p := Applied(cx, before, log, items);
    AppliedSettles(cx, before, log, items);
    assert Settled(cx2, p.rows, items, p.ids) by {
      forall i | 0 <= i < |items| ensures SameRow(RowOf(cx, items[i]), RowOf(cx2, items[i])) {
      }
    }
    RescanSettled(cx2, p.rows, log2, items, p.ids);
  }

  lemma RescanSettled(cx: Context, rows: Rows, log: seq<Change>, items: seq<Service>, ids: map<string, int>)
    requires Lists(cx.order) && Settled(cx, rows, items, ids)
    ensures
      var q := Applied(cx, rows, log, items);
      q.log == log && q.ids == ids && SameRows(rows, q.rows)
  {
    FoldAgain(cx, rows, log, items, |items|, ids);
    assert items[..|items|] == items;
    var f := Fold(cx, rows, log, items);
    NoneAbsent(cx, rows, f.rows, KeysOf(items));
    assert ListOf(cx.order({}), {});
    assert Ended(f.rows, {}, cx.scan.now) == f.rows;
  }

  lemma NoneAbsent(cx: Context, rows: Rows, again: Rows, seen: set<string>)
    requires SameRows(rows, again) && Absent(rows, cx.scan.connector, seen) == {}
    ensures Absent(again, cx.scan.connector, seen) == {}
  {
    forall id <- again ensures id !in Absent(again, cx.scan.connector, seen) {
      assert SameRow(rows[id], again[id]);
      assert id !in Absent(rows, cx.scan.connector, seen);
    }
  }

  // ---------------------------------------------------------------------------
  // The feed

  /** No connector reports a service in the state the engine keeps for itself. */
  predicate NoneReportedGone(items: seq<Service>) {
    forall i | 0 <= i < |items| :: items[i].state != GONE
  }

  /**
   A report the feed can take: the service is not said to be gone, or its row is gone already, since this
   very moment, and nothing the feed compares has moved.
   */
  predicate Fine(cx: Context, before: Rows, s: Service) {
    s.state != GONE ||
    (FindKey(before, cx.scan.connector, s.key).Some? &&
     var row := before[FindKey(before, cx.scan.connector, s.key).value];
     row.updatedAt == cx.scan.now && FieldsDiff(Tracked(row), Tracked(RowOf(cx, s))) == map[])
  }

  lemma StepTells(cx: Context, p: Progress, s: Service)
    requires Lists(cx.order) && Fine(cx, p.rows, s) && Lawful(p.log) && Tells(p.rows, p.log, ServiceEntity)
    requires Unique(p.rows)
    ensures
      var q := Step(cx, p, s);
      Lawful(q.log) && Tells(q.rows, q.log, ServiceEntity) &&
      forall o | o != ServiceEntity :: SameStory(p.log, q.log, o)
  {
    var id := IdFor(cx, p.rows, s);
    var entries := EntryFor(cx, p.rows, s, id);
    if entries == [] {
      assert p.log + entries == p.log;
      assert Before(Tracked(p.rows[id]), "state") == Tracked(RowOf(cx, s))["state"];
    } else {
      EntryTells(p.rows, p.log, id, RowOf(cx, s), entries[0]);
    }
  }

  lemma FineStill(cx: Context, before: Rows, items: seq<Service>, p: Progress, s: Service)
    requires Lists(cx.order) && Unique(before) && Inv(cx, before, items, p)
    requires s.key !in KeysOf(items) && KeysOf(items) <= cx.incoming && s.key in cx.incoming
    ensures Fine(cx, before, s) == Fine(cx, p.rows, s)
  {
    KeyNotYetTaken(cx, before, items, p, s);
    StepOrigin(cx, before, items, p, s);
  }

  lemma {:induction false} FoldTells(cx: Context, before: Rows, log: seq<Change>, items: seq<Service>)
    requires Lists(cx.order) && Unique(before) && Distinct(items) && KeysOf(items) <= cx.incoming
    requires Lawful(log) && Tells(before, log, ServiceEntity) && forall i | 0 <= i < |items| :: Fine(cx, before, items[i])
    ensures
      var p := Fold(cx, before, log, items);
      Lawful(p.log) && Tells(p.rows, p.log, ServiceEntity) && forall o | o != ServiceEntity :: SameStory(log, p.log, o)
  {
    if |items| > 0 {
      var init, s := items[..|items| - 1], items[|items| - 1];
      FoldTells(cx, before, log, init);
      FoldKeeps(cx, before, log, init);
      var p := Fold(cx, before, log, init);
      FineStill(cx, before, init, p, s);
      StepTells(cx, p, s);
      SameStories(log, p.log, Step(cx, p, s).log, ServiceEntity);
    }
  }

  /** The row of a reported service is gone, but the last entry about it is not its removal then. */
  ghost predicate Misreported(p: Progress, s: Service) {
    s.key in p.ids && p.ids[s.key] in p.rows &&
    var row, last := p.rows[p.ids[s.key]], Last(p.log, ServiceEntity, p.ids[s.key]);
    row.state == GONE && last.Some? && (last.value.kind != Removed || last.value.at != row.updatedAt)
  }

  lemma StepMisreports(cx: Context, p: Progress, s: Service)
    requires Lists(cx.order) && Unique(p.rows) && !Fine(cx, p.rows, s) && Tells(p.rows, p.log, ServiceEntity)
    ensures Misreported(Step(cx, p, s), s)
  {
    var id := IdFor(cx, p.rows, s);
    var entries := EntryFor(cx, p.rows, s, id);
    if entries == [] {
      assert p.log + entries == p.log;
      assert Before(Tracked(p.rows[id]), "state") == Tracked(RowOf(cx, s))["state"];
    } else {
      Append(p.log, entries[0]);
    }
  }

  lemma MisreportedStays(cx: Context, before: Rows, items: seq<Service>, p: Progress, s: Service, t: Service)
    requires Lists(cx.order) && Unique(before) && Inv(cx, before, items, p) && Misreported(p, t)
    requires s.key !in KeysOf(items) && KeysOf(items) <= cx.incoming && s.key in cx.incoming
    requires t in items && t.key != s.key
    ensures Misreported(Step(cx, p, s), t)
  {
    var i :| 0 <= i < |items| && items[i] == t;
    assert Landed(cx, before, p, items[i]);
    StepOrigin(cx, before, items, p, s);
    var id := IdFor(cx, p.rows, s);
    var entries := EntryFor(cx, p.rows, s, id);
    if entries == [] {
      assert p.log + entries == p.log;
    } else {
      Append(p.log, entries[0]);
    }
  }

  lemma {:induction false} FoldMisreports(cx: Context, before: Rows, log: seq<Change>, items: seq<Service>, i: nat)
    requires Lists(cx.order) && Unique(before) && Distinct(items) && KeysOf(items) <= cx.incoming
    requires Lawful(log) && Tells(before, log, ServiceEntity)
    requires i < |items| && !Fine(cx, before, items[i]) && forall j | 0 <= j < i :: Fine(cx, before, items[j])
    ensures Misreported(Fold(cx, before, log, items), items[i])
  {
    var n := |items| - 1;
    var init, s := items[..n], items[n];
    var p := Fold(cx, before, log, init);
    FoldKeeps(cx, before, log, init);
    if i == n {
      FineStill(cx, before, init, p, s);
      FoldTells(cx, before, log, init);
      StepMisreports(cx, p, s);
    } else {
      FoldMisreports(cx, before, log, init, i);
      KeyOfItem(init, i);
      assert init[i] in init;
      MisreportedStays(cx, before, init, p, s, items[i]);
    }
  }

  lemma {:induction false} RemovedElsewhere(log: seq<Change>, scan: Scan, ids: seq<int>, id: int)
    requires id !in ids
    ensures Last(log + RemovedEntries(ServiceEntity, scan, ids), ServiceEntity, id) == Last(log, ServiceEntity, id)
  {
    if |ids| == 0 {
      assert log + RemovedEntries(ServiceEntity, scan, ids) == log;
    } else {
      var n := |ids| - 1;
      var c := RemovedEntry(ServiceEntity, scan, ids[n]);
      assert log + RemovedEntries(ServiceEntity, scan, ids) == log + RemovedEntries(ServiceEntity, scan, ids[..n]) + [c];
      RemovedElsewhere(log, scan, ids[..n], id);
      Append(log + RemovedEntries(ServiceEntity, scan, ids[..n]), c);
      assert ids[n] != id;
    }
  }

  lemma MisreportedForGood(cx: Context, before: Rows, log: seq<Change>, items: seq<Service>, i: nat)
    requires Lists(cx.order) && Unique(before) && Distinct(items) && cx.incoming == KeysOf(items)
    requires Lawful(log) && Tells(before, log, ServiceEntity)
    requires i < |items| && !Fine(cx, before, items[i]) && forall j | 0 <= j < i :: Fine(cx, before, items[j])
    ensures Misreported(Applied(cx, before, log, items), items[i])
  {
    var p := Fold(cx, before, log, items);
    var absent := Absent(p.rows, cx.scan.connector, KeysOf(items));
    FoldMisreports(cx, before, log, items, i);
    assert ListOf(cx.order(absent), absent);
    var id := p.ids[items[i].key];
    assert id !in absent;
    RemovedElsewhere(p.log, cx.scan, cx.order(absent), id);
  }

  /**
   When the engine is told that a service is "gone" the feed is left telling a lie, exactly unless the
   service's row is gone already, since this very moment, and reads the same.
   */
  lemma ServicesTellExactly(cx: Context, before: Rows, log: seq<Change>, items: seq<Service>)
    requires Lists(cx.order) && Unique(before) && Distinct(items) && cx.incoming == KeysOf(items)
    requires Lawful(log) && Tells(before, log, ServiceEntity)
    ensures
      var p := Applied(cx, before, log, items);
      (Lawful(p.log) && Tells(p.rows, p.log, ServiceEntity)) <==> forall i | 0 <= i < |items| :: Fine(cx, before, items[i])
  {
    if forall i | 0 <= i < |items| :: Fine(cx, before, items[i]) {
      AllFineTells(cx, before, log, items);
    } else {
      var i := FirstUnfine(cx, before, items);
      MisreportedForGood(cx, before, log, items, i);
    }
  }

  lemma FirstUnfine(cx: Context, before: Rows, items: seq<Service>) returns (i: nat)
    requires exists j :: 0 <= j < |items| && !Fine(cx, before, items[j])
    ensures i < |items| && !Fine(cx, before, items[i]) && forall j | 0 <= j < i :: Fine(cx, before, items[j])
  {
    i := 0;
    while Fine(cx, before, items[i])
      invariant i < |items| && forall j | 0 <= j < i :: Fine(cx, before, items[j])
      decreases |items| - i
    {
      i := i + 1;
    }
  }

  /** Such a report: one live service, said to be gone, and the feed's last word about it is still that it was added. */
  lemma GoneServiceIsMisreported(order: RowOrder)
    requires Lists(order)
    ensures
      var cx := Context(Scan(1, 2, 20), map[], {"web"}, order);
      var before := map[7 := Row(1, "web", "running", 10, Stored(None, "web", "container", "", "", "", "", ""))];
      var log := [Entry(Scan(1, 1, 10), ServiceEntity, 7, Added, map[])];
      var items := [Service("web", "", "web", "container", "", "", "", "", "gone", "")];
      var p := Applied(cx, before, log, items);
      && Unique(before) && Distinct(items) && cx.incoming == KeysOf(items) && Lawful(log) && Tells(before, log, ServiceEntity)
      && !(Lawful(p.log) && Tells(p.rows, p.log, ServiceEntity))
  {
    var cx := Context(Scan(1, 2, 20), map[], {"web"}, order);
    var before := map[7 := Row(1, "web", "running", 10, Stored(None, "web", "container", "", "", "", "", ""))];
    var c := Entry(Scan(1, 1, 10), ServiceEntity, 7, Added, map[]);
    var items := [Service("web", "", "web", "container", "", "", "", "", "gone", "")];
    Append([], c);
    assert [] + [c] == [c] && items[..0] == [];
    FindKeyIs(before, 7);
    assert !Fine(cx, before, items[0]);
    ServicesTellExactly(cx, before, [c], items);
  }

  lemma AllFineTells(cx: Context, before: Rows, log: seq<Change>, items: seq<Service>)
    requires Lists(cx.order) && Unique(before) && Distinct(items) && cx.incoming == KeysOf(items)
    requires Lawful(log) && Tells(before, log, ServiceEntity) && forall i | 0 <= i < |items| :: Fine(cx, before, items[i])
    ensures
      var p := Applied(cx, before, log, items);
      Lawful(p.log) && Tells(p.rows, p.log, ServiceEntity) && forall o | o != ServiceEntity :: SameStory(log, p.log, o)
  {
    FoldTells(cx, before, log, items);
    var p, q := Fold(cx, before, log, items), Applied(cx, before, log, items);
    MarkGoneTells(p.rows, p.log, ServiceEntity, cx.scan, KeysOf(items), cx.order);
    SameStories(log, p.log, q.log, ServiceEntity);
  }

  /** A whole scan keeps the feed lawful and the feed's last word about every service true. */
  lemma ServicesTell(cx: Context, before: Rows, log: seq<Change>, items: seq<Service>)
    requires Lists(cx.order) && Unique(before) && Distinct(items) && cx.incoming == KeysOf(items)
    requires Lawful(log) && Tells(before, log, ServiceEntity) && NoneReportedGone(items)
    ensures
      var p := Applied(cx, before, log, items);
      Lawful(p.log) && Tells(p.rows, p.log, ServiceEntity) && forall o | o != ServiceEntity :: SameStory(log, p.log, o)
  {
    AllFineTells(cx, before, log, items);
  }

  // ---------------------------------------------------------------------------
  // What exactly is stored and filed

  ghost predicate FoldFiles(cx: Context, before: Rows, log: seq<Change>, items: seq<Service>, p: Progress) {
    && (forall i | 0 <= i < |items| ::
          items[i].key in p.ids &&
          Filed(log, p.log, ServiceEntity, p.ids[items[i].key], EntryFor(cx, before, items[i], p.ids[items[i].key])))
    && (forall id | id !in p.ids.Values :: Filed(log, p.log, ServiceEntity, id, []))
  }

  lemma EntryShape(cx: Context, rows: Rows, s: Service, id: int)
    ensures |EntryFor(cx, rows, s, id)| <= 1 && forall c <- EntryFor(cx, rows, s, id) :: c.entity == ServiceEntity && c.id == id
  {
  }

  lemma StepFiles(cx: Context, before: Rows, log: seq<Change>, items: seq<Service>, p: Progress, s: Service)
    requires Lists(cx.order) && Unique(before) && Inv(cx, before, items, p) && FoldFiles(cx, before, log, items, p)
    requires s.key !in KeysOf(items) && KeysOf(items) <= cx.incoming && s.key in cx.incoming
    ensures FoldFiles(cx, before, log, items + [s], Step(cx, p, s))
  {
    var q, id := Step(cx, p, s), IdFor(cx, p.rows, s);
    StepEntry(cx, before, items, p, s);
    ValuesGrow(p.ids, s.key, id);
    var entries := EntryFor(cx, before, s, id);
    EntryShape(cx, before, s, id);
    hide EntryFor, IdFor, Filed, Inv, RowOf;
    forall i | 0 <= i < |items + [s]|
      ensures
        var t := (items + [s])[i];
        t.key in q.ids && Filed(log, q.log, ServiceEntity, q.ids[t.key], EntryFor(cx, before, t, q.ids[t.key]))
    {
      if i < |items| {
        KeyOfItem(items, i);
        var at := p.ids[items[i].key];
        assert at in p.ids.Values;
        StoryGoesOn(log, p.log, entries, ServiceEntity, at, id, EntryFor(cx, before, items[i], at));
      } else {
        StoryGoesOn(log, p.log, entries, ServiceEntity, id, id, []);
        assert [] + entries == entries;
      }
    }
    forall at | at !in q.ids.Values ensures Filed(log, q.log, ServiceEntity, at, []) {
      assert q.ids[s.key] == id;
      StoryGoesOn(log, p.log, entries, ServiceEntity, at, id, []);
    }
  }

  lemma StepEntry(cx: Context, before: Rows, items: seq<Service>, p: Progress, s: Service)
    requires Lists(cx.order) && Unique(before) && Inv(cx, before, items, p)
    requires s.key !in KeysOf(items) && KeysOf(items) <= cx.incoming && s.key in cx.incoming
    ensures
      var id := IdFor(cx, p.rows, s);
      id !in p.ids.Values && EntryFor(cx, p.rows, s, id) == EntryFor(cx, before, s, id) && p.ids.Keys == KeysOf(items)
  {
    StepOrigin(cx, before, items, p, s);
    NotHeld(cx, before, items, p, IdFor(cx, p.rows, s));
  }

  /** A row no reported service is on yet is not on any service's id. */
  lemma NotHeld(cx: Context, before: Rows, items: seq<Service>, p: Progress, id: int)
    requires Inv(cx, before, items, p) && (id in p.rows ==> !Claimed(cx.scan.connector, p.ids.Keys, p.rows[id]))
    ensures id !in p.ids.Values
  {
    forall k <- p.ids ensures p.ids[k] != id {
      var i := ItemOfKey(items, k);
      assert Landed(cx, before, p, items[i]);
    }
  }

  lemma {:induction false} FoldFilesAll(cx: Context, before: Rows, log: seq<Change>, items: seq<Service>)
    requires Lists(cx.order) && Unique(before) && Distinct(items) && KeysOf(items) <= cx.incoming
    ensures FoldFiles(cx, before, log, items, Fold(cx, before, log, items))
  {
    if |items| > 0 {
      hide FoldFiles, Inv, Step;
      var init, s := items[..|items| - 1], items[|items| - 1];
      assert init + [s] == items;
      FoldFilesAll(cx, before, log, init);
      FoldKeeps(cx, before, log, init);
      StepFiles(cx, before, log, init, Fold(cx, before, log, init), s);
    }
  }

  lemma ReportedFiles(cx: Context, before: Rows, log: seq<Change>, items: seq<Service>, i: nat)
    requires Lists(cx.order) && Unique(before) && Distinct(items) && cx.incoming == KeysOf(items) && i < |items|
    ensures
      var p, s := Applied(cx, before, log, items), items[i];
      Landed(cx, before, p, s) && Filed(log, p.log, ServiceEntity, p.ids[s.key], EntryFor(cx, before, s, p.ids[s.key]))
  {
    var p, f, s := Applied(cx, before, log, items), Fold(cx, before, log, items), items[i];
    AppliedLeaves(cx, before, log, items);
    assert Landed(cx, before, p, s);
    FoldFilesAll(cx, before, log, items);
    AbsentStory(f.rows, f.log, ServiceEntity, cx.scan, KeysOf(items), cx.order, p.ids[s.key]);
    NotAbsent(cx, before, log, items, i);
    hide EntryFor, Filed, Landed, Inv;
    FiledThen(log, f.log, p.log, ServiceEntity, p.ids[s.key], EntryFor(cx, before, s, p.ids[s.key]), []);
  }

  lemma NotAbsent(cx: Context, before: Rows, log: seq<Change>, items: seq<Service>, i: nat)
    requires Lists(cx.order) && Unique(before) && Distinct(items) && cx.incoming == KeysOf(items) && i < |items|
    ensures
      var f := Fold(cx, before, log, items);
      items[i].key in f.ids && f.ids[items[i].key] !in Absent(f.rows, cx.scan.connector, KeysOf(items))
  {
    FoldKeeps(cx, before, log, items);
    assert Landed(cx, before, Fold(cx, before, log, items), items[i]);
    KeyOfItem(items, i);
  }

  lemma ClaimedIsHeld(cx: Context, before: Rows, items: seq<Service>, p: Progress, id: int)
    requires Inv(cx, before, items, p)
    ensures id in p.rows && Claimed(cx.scan.connector, p.ids.Keys, p.rows[id]) ==> id in p.ids.Values
  {
    if id in p.rows && Claimed(cx.scan.connector, p.ids.Keys, p.rows[id]) {
      var i := ItemOfKey(items, p.rows[id].key);
      assert Landed(cx, before, p, items[i]);
      assert p.ids[items[i].key] == id;
    }
  }

  /**
   A reported service, column by column: what its row holds after the scan, and what is filed. On a row that was
   there, one entry names exactly the columns that moved, and the key with them if it moved too; on a new row it
   is an addition; a row on which none of the six columns moved has no entry at all.
   */
  lemma ReportedIsTold(cx: Context, before: Rows, log: seq<Change>, items: seq<Service>, i: nat)
    requires Lists(cx.order) && Unique(before) && Distinct(items) && cx.incoming == KeysOf(items) && i < |items|
    ensures
      var p, s := Applied(cx, before, log, items), items[i];
      s.key in p.ids && p.ids[s.key] in p.rows &&
      var id, row := p.ids[s.key], p.rows[p.ids[s.key]];
      var state := if s.state == "" then "unknown" else s.state;
      && row.connector == cx.scan.connector && row.key == s.key && row.state == state && row.updatedAt == cx.scan.now
      && row.data.name == s.name && row.data.kind == (if s.kind == "" then "container" else s.kind)
      && row.data.stack == s.stack && row.data.image == s.image && row.data.tag == s.tag
      && row.data.digest == s.digest && row.data.health == s.health
      && row.data.host == (if s.hostKey in cx.hosts then Some(cx.hosts[s.hostKey]) else None)
      && Filed(log, p.log, ServiceEntity, id,
           if id !in before then [Change(cx.scan.run, cx.scan.now, ServiceEntity, id, Added, map[])]
           else
             var was := before[id];
             var moved := Changed(map["name" := (was.data.name, s.name), "stack" := (was.data.stack, s.stack),
                                    "image" := (was.data.image, s.image), "tag" := (was.data.tag, s.tag),
                                    "digest" := (was.data.digest, s.digest), "state" := (was.state, state)]);
             if moved == map[] then []
             else [Change(cx.scan.run, cx.scan.now, ServiceEntity, id, Modified,
                          if was.key == s.key then moved else moved["natural_key" := (was.key, s.key)])])
  {
    var p, s := Applied(cx, before, log, items), items[i];
    ReportedFiles(cx, before, log, items, i);
    hide Applied, Filed, Origin;
    if p.ids[s.key] in before {
      ColumnsMoved(cx, before[p.ids[s.key]], s);
    }
  }

  lemma ColumnsMoved(cx: Context, was: Row<Stored>, s: Service)
    ensures
      var state := if s.state == "" then "unknown" else s.state;
      FieldsDiff(Tracked(was), Tracked(RowOf(cx, s)))
      == Changed(map["name" := (was.data.name, s.name), "stack" := (was.data.stack, s.stack),
                     "image" := (was.data.image, s.image), "tag" := (was.data.tag, s.tag),
                     "digest" := (was.data.digest, s.digest), "state" := (was.state, state)])
  {
    var state := DefaultString(s.state, "unknown");
    DiffIsChanged(Tracked(was), Tracked(RowOf(cx, s)),
                  map["name" := (was.data.name, s.name), "stack" := (was.data.stack, s.stack),
                      "image" := (was.data.image, s.image), "tag" := (was.data.tag, s.tag),
                      "digest" := (was.data.digest, s.digest), "state" := (was.state, state)]);
  }

  /** A row no reported service is on: the connector's live one is ended with one removal, any other is left alone. */
  lemma UnreportedIsTold(cx: Context, before: Rows, log: seq<Change>, items: seq<Service>, id: int)
    requires Lists(cx.order) && Unique(before) && Distinct(items) && cx.incoming == KeysOf(items)
    requires id !in Applied(cx, before, log, items).ids.Values
    ensures
      var p := Applied(cx, before, log, items);
      if id in before && before[id].connector == cx.scan.connector && before[id].state != "gone" then
        && id in p.rows && p.rows[id] == before[id].(state := "gone", updatedAt := cx.scan.now)
        && Filed(log, p.log, ServiceEntity, id,
                 [Change(cx.scan.run, cx.scan.now, ServiceEntity, id, Removed, map["state" := ("active", "gone")])])
      else
        && (id in p.rows <==> id in before) && (id in before ==> p.rows[id] == before[id])
        && Filed(log, p.log, ServiceEntity, id, [])
  {
    var f := Fold(cx, before, log, items);
    FoldFilesAll(cx, before, log, items);
    FoldKeeps(cx, before, log, items);
    UnclaimedStands(cx, before, items, f, id);
    hide Filed, Inv, EntryFor, Absent, Ended, RemovedEntries;
    UnreportedEnds(before, f.rows, log, f.log, ServiceEntity, cx.scan, KeysOf(items), cx.order, id);
  }

  lemma UnclaimedStands(cx: Context, before: Rows, items: seq<Service>, p: Progress, id: int)
    requires Inv(cx, before, items, p) && id !in p.ids.Values
    ensures id in p.rows <==> id in before
    ensures id in before ==> p.rows[id] == before[id] && (p.rows[id].connector == cx.scan.connector ==> p.rows[id].key !in KeysOf(items))
  {
    ClaimedIsHeld(cx, before, items, p, id);
  }
}
