/**
 How a scan's ports are folded into the stored ones (internal/engine/apply.go, applyPorts).

 A port's natural key embeds the key of its service, so it moves whenever the service is
 re-keyed; the identity (service row and port tuple) does not. A stored row is found by key, or else
 adopted by identity; what is found neither way is inserted, and what nobody claims is deleted.
 */
module Ports {
  import opened Results
  import opened Store

  /** The tuple a port exposes. */
  datatype Tuple = Tuple(hostIP: string, protocol: string, number: int, containerPort: int)

  /** A port's natural key. */
  datatype PortKey = PortKey(serviceKey: string, tuple: Tuple)

  datatype Port = Port(serviceKey: string, hostKey: string, tuple: Tuple, published: bool, source: string) {
    function Key(): PortKey {
      PortKey(serviceKey, tuple)
    }
  }

  datatype PortRow = PortRow(
    connector: int, key: PortKey, service: int, host: Option<int>, tuple: Tuple, published: bool, source: string)

  type Rows = map<int, PortRow>

  datatype Context = Context(scan: Scan, hosts: map<string, int>, services: map<string, int>, order: RowOrder)

  function KeysOf(items: seq<Port>): set<PortKey> {
    if |items| == 0 then {} else KeysOf(items[..|items| - 1]) + {items[|items| - 1].Key()}
  }

  /** A snapshot may repeat a natural key; the first is kept. */
  function Deduped(items: seq<Port>): seq<Port> {
    if |items| == 0 then []
    else
      var init, p := Deduped(items[..|items| - 1]), items[|items| - 1];
      if p.Key() in KeysOf(items[..|items| - 1]) then init else init + [p]
  }

  /** Every port names a service of the snapshot and, as connectors report them, a protocol. */
  predicate Resolvable(cx: Context, items: seq<Port>) {
    forall i | 0 <= i < |items| :: items[i].serviceKey in cx.services
  }

  predicate Protocols(items: seq<Port>) {
    forall i | 0 <= i < |items| :: items[i].tuple.protocol != ""
  }

  function RowOf(cx: Context, p: Port): PortRow
    requires p.serviceKey in cx.services
  {
    PortRow(cx.scan.connector, p.Key(), cx.services[p.serviceKey],
            if p.hostKey in cx.hosts then Some(cx.hosts[p.hostKey]) else None,
            p.tuple.(protocol := DefaultString(p.tuple.protocol, "tcp")), p.published, p.source)
  }

  function ByKey(rows: Rows, connector: int, key: PortKey): (r: Option<int>)
    ensures r.Some? ==> r.value in rows && rows[r.value].connector == connector && rows[r.value].key == key
    ensures r.None? ==> forall id <- rows :: rows[id].connector != connector || rows[id].key != key
  {
    var hits := set id | id in rows && rows[id].connector == connector && rows[id].key == key;
    if |hits| == 0 then
      assert forall id <- rows :: rows[id].connector == connector && rows[id].key == key ==> id in hits;
      None
    else Some(MaxOf(hits))
  }

  function ByIdentity(rows: Rows, connector: int, service: int, tuple: Tuple): (r: Option<int>)
    ensures r.Some? ==> r.value in rows && rows[r.value].connector == connector
                        && rows[r.value].service == service && rows[r.value].tuple == tuple
    ensures r.None? ==> forall id <- rows :: rows[id].connector != connector || rows[id].service != service || rows[id].tuple != tuple
  {
    var hits := set id | id in rows && rows[id].connector == connector && rows[id].service == service && rows[id].tuple == tuple;
    if |hits| == 0 then
      assert forall id <- rows ::
        rows[id].connector == connector && rows[id].service == service && rows[id].tuple == tuple ==> id in hits;
      None
    else Some(MaxOf(hits))
  }

  datatype Progress = Progress(rows: Rows, log: seq<Change>, used: set<int>)

  /** The stored row a port claims: its key's, or the one with its identity if no port has claimed that yet. */
  function ClaimFor(cx: Context, stored: Rows, used: set<int>, p: Port): (r: Option<int>)
    requires p.serviceKey in cx.services
    ensures r.Some? ==> r.value in stored && stored[r.value].connector == cx.scan.connector
  {
    match ByKey(stored, cx.scan.connector, p.Key())
    case Some(id) => Some(id)
    case None =>
      match ByIdentity(stored, cx.scan.connector, cx.services[p.serviceKey], RowOf(cx, p).tuple)
      case Some(id) => if id in used then None else Some(id)
      case None => None
  }

  function Flag(b: bool): string {
    if b then "true" else "false"
  }

  function Tracked(r: PortRow): Fields {
    map["published" := Flag(r.published), "source" := r.source]
  }

  /** A claimed row's new contents: its key always, the rest only when something in it moved. */
  function Carried(cx: Context, prev: PortRow, p: Port): PortRow
    requires p.serviceKey in cx.services
  {
    var row := RowOf(cx, p);
    var keyed := prev.(key := p.Key());
    if prev.published != row.published || prev.source != row.source || prev.service != row.service || prev.host != row.host
    then keyed.(service := row.service, host := row.host, tuple := row.tuple, published := row.published, source := row.source)
    else keyed
  }

  function Step(cx: Context, stored: Rows, g: Progress, p: Port): Progress
    requires p.serviceKey in cx.services
    requires stored.Keys <= g.rows.Keys
  {
    match ClaimFor(cx, stored, g.used, p)
    case Some(id) =>
      var diff := FieldsDiff(Tracked(stored[id]), Tracked(RowOf(cx, p)));
      Progress(g.rows[id := Carried(cx, stored[id], p)],
               if diff == map[] then g.log else g.log + [Entry(cx.scan, PortEntity, id, Modified, diff)],
               g.used + {id})
    case None =>
      var id := NextId(g.rows);
      Progress(g.rows[id := RowOf(cx, p)], g.log + [Entry(cx.scan, PortEntity, id, Added, map[])], g.used)
  }

  function Fold(cx: Context, stored: Rows, log: seq<Change>, items: seq<Port>): (g: Progress)
    requires Resolvable(cx, items)
    ensures stored.Keys <= g.rows.Keys
  {
    if |items| == 0 then Progress(stored, log, {})
    else Step(cx, stored, Fold(cx, stored, log, items[..|items| - 1]), items[|items| - 1])
  }

  function Unclaimed(stored: Rows, connector: int, used: set<int>): set<int> {
    set id | id in stored && stored[id].connector == connector && id !in used
  }

  function Without(rows: Rows, ids: set<int>): Rows {
    map id | id in rows && id !in ids :: rows[id]
  }

  function DeletedEntries(scan: Scan, ids: seq<int>): seq<Change> {
    if |ids| == 0 then []
    else DeletedEntries(scan, ids[..|ids| - 1]) + [Entry(scan, PortEntity, ids[|ids| - 1], Removed, map[])]
  }

  lemma {:induction false} DedupedResolvable(cx: Context, items: seq<Port>)
    requires Resolvable(cx, items)
    ensures Resolvable(cx, Deduped(items))
  {
    if |items| > 0 {
      DedupedResolvable(cx, items[..|items| - 1]);
    }
  }

  lemma {:induction false} DedupedIs(items: seq<Port>)
    ensures Distinct(Deduped(items)) && KeysOf(Deduped(items)) == KeysOf(items)
    ensures Protocols(items) ==> Protocols(Deduped(items))
  {
    if |items| > 0 {
      var init, p := items[..|items| - 1], items[|items| - 1];
      assert (Deduped(init) + [p])[..|Deduped(init)|] == Deduped(init);
      DedupedIs(init);
    }
  }

  datatype Outcome = Outcome(rows: Rows, log: seq<Change>)

  /** The ports table and the feed after a whole scan. */
  function Applied(cx: Context, stored: Rows, log: seq<Change>, items: seq<Port>): Outcome
    requires Resolvable(cx, items)
  {
    DedupedResolvable(cx, items);
    var g := Fold(cx, stored, log, Deduped(items));
    var gone := Unclaimed(stored, cx.scan.connector, g.used);
    Outcome(Without(g.rows, gone), g.log + DeletedEntries(cx.scan, cx.order(gone)))
  }

  // ---------------------------------------------------------------------------
  // Stored ports and the services they hang off

  /** (connector, key) is unique. */
  ghost predicate Unique(rows: Rows) {
    forall i, j | i in rows && j in rows && rows[i].connector == rows[j].connector && rows[i].key == rows[j].key :: i == j
  }

  /**
   What every finished scan leaves: each row's key is made of its own tuple and of the key `keyOf`
   gives its service row, and different service rows of one connector have different keys.
   */
  ghost predicate Tied(rows: Rows, connector: int, keyOf: map<int, string>) {
    && (forall id <- rows :: rows[id].connector == connector ==>
          && rows[id].tuple.protocol != ""
          && rows[id].service in keyOf
          && rows[id].key == PortKey(keyOf[rows[id].service], rows[id].tuple))
    && (forall i, j | i in keyOf && j in keyOf && keyOf[i] == keyOf[j] :: i == j)
  }

  /**
   How applyServices has moved the services in between: a service row that is reported under a
   new key had an stored key the scan does not report, and one reported under its stored key is its own row.
   */
  ghost predicate Rekeyed(cx: Context, keyOf: map<int, string>) {
    && (forall a, b | a in cx.services && b in cx.services && cx.services[a] == cx.services[b] :: a == b)
    && (forall k <- cx.services :: forall id <- keyOf :: keyOf[id] == k ==> cx.services[k] == id)
  }

  /** The stored row with a reported port's identity. */
  function Claim(cx: Context, stored: Rows, p: Port): Option<int>
    requires p.serviceKey in cx.services
  {
    ByIdentity(stored, cx.scan.connector, cx.services[p.serviceKey], p.tuple)
  }

  lemma IdentityIs(stored: Rows, connector: int, keyOf: map<int, string>, id: int)
    requires Unique(stored) && Tied(stored, connector, keyOf) && id in stored && stored[id].connector == connector
    ensures ByIdentity(stored, connector, stored[id].service, stored[id].tuple) == Some(id)
  {
  }

  /** By key or by identity, a port claims the row with its identity; a hit is never another port's row. */
  lemma ClaimIsIdentity(cx: Context, stored: Rows, keyOf: map<int, string>, used: set<int>, p: Port)
    requires Unique(stored) && Tied(stored, cx.scan.connector, keyOf) && Rekeyed(cx, keyOf)
    requires p.serviceKey in cx.services && p.tuple.protocol != ""
    requires Claim(cx, stored, p).Some? ==> Claim(cx, stored, p).value !in used
    ensures ClaimFor(cx, stored, used, p) == Claim(cx, stored, p)
  {
    var hit := ByKey(stored, cx.scan.connector, p.Key());
    if hit.Some? {
      IdentityIs(stored, cx.scan.connector, keyOf, hit.value);
    }
  }

  lemma SameClaimSamePort(cx: Context, stored: Rows, keyOf: map<int, string>, p: Port, q: Port)
    requires Rekeyed(cx, keyOf) && p.serviceKey in cx.services && q.serviceKey in cx.services
    requires Claim(cx, stored, p).Some? && Claim(cx, stored, p) == Claim(cx, stored, q)
    ensures p.Key() == q.Key()
  {
  }

  /** Where a reported port ends up: on the row it claims, or on a row of its own. */
  ghost predicate Landed(cx: Context, stored: Rows, rows: Rows, p: Port) {
    p.serviceKey in cx.services &&
    var at := ByKey(rows, cx.scan.connector, p.Key());
    at.Some? && rows[at.value] == RowOf(cx, p) &&
    match Claim(cx, stored, p)
    case Some(id) => at.value == id
    case None => at.value !in stored
  }

  ghost predicate Booked(cx: Context, stored: Rows, used: set<int>, p: Port) {
    p.serviceKey in cx.services && (Claim(cx, stored, p).Some? ==> Claim(cx, stored, p).value in used)
  }

  ghost predicate Mine(cx: Context, items: seq<Port>, row: PortRow) {
    row.connector == cx.scan.connector && row.key in KeysOf(items)
  }

  ghost predicate Inv(cx: Context, stored: Rows, items: seq<Port>, g: Progress) {
    && Unique(g.rows)
    && stored.Keys <= g.rows.Keys
    && (forall i | 0 <= i < |items| :: Landed(cx, stored, g.rows, items[i]))
    && (forall i | 0 <= i < |items| :: Booked(cx, stored, g.used, items[i]))
    && (forall id <- g.rows :: id !in stored || id in g.used ==> Mine(cx, items, g.rows[id]))
    && (forall id <- stored :: id !in g.used ==> g.rows[id] == stored[id])
    && (forall id <- g.used :: id in stored && stored[id].connector == cx.scan.connector)
  }

  predicate Distinct(items: seq<Port>) {
    |items| == 0 || (Distinct(items[..|items| - 1]) && items[|items| - 1].Key() !in KeysOf(items[..|items| - 1]))
  }

  lemma {:induction false} KeyOfItem(items: seq<Port>, i: nat)
    requires i < |items|
    ensures items[i].Key() in KeysOf(items)
  {
    if i < |items| - 1 {
      KeyOfItem(items[..|items| - 1], i);
    }
  }

  lemma {:induction false} ItemOfKey(items: seq<Port>, key: PortKey) returns (i: nat)
    requires key in KeysOf(items)
    ensures i < |items| && items[i].Key() == key
  {
    if items[|items| - 1].Key() == key {
      i := |items| - 1;
    } else {
      i := ItemOfKey(items[..|items| - 1], key);
    }
  }

  lemma ByKeyIs(rows: Rows, id: int)
    requires Unique(rows) && id in rows
    ensures ByKey(rows, rows[id].connector, rows[id].key) == Some(id)
  {
  }

  /** No port finds its row taken. */
  lemma ClaimIsFree(cx: Context, stored: Rows, keyOf: map<int, string>, items: seq<Port>, g: Progress, p: Port)
    requires Rekeyed(cx, keyOf) && Inv(cx, stored, items, g)
    requires p.serviceKey in cx.services && p.Key() !in KeysOf(items)
    ensures Claim(cx, stored, p).Some? ==> Claim(cx, stored, p).value !in g.used
  {
    var c := Claim(cx, stored, p);
    if c.Some? && c.value in g.used {
      assert Mine(cx, items, g.rows[c.value]);
      var i := ItemOfKey(items, g.rows[c.value].key);
      assert Landed(cx, stored, g.rows, items[i]);
      ByKeyIs(g.rows, c.value);
      SameClaimSamePort(cx, stored, keyOf, p, items[i]);
    }
  }

  lemma CarriedIsRow(cx: Context, stored: Rows, p: Port)
    requires p.serviceKey in cx.services && p.tuple.protocol != "" && Claim(cx, stored, p).Some?
    ensures Carried(cx, stored[Claim(cx, stored, p).value], p) == RowOf(cx, p)
  {
  }

  lemma PutUnique(rows: Rows, id: int, row: PortRow)
    requires Unique(rows)
    requires ByKey(rows, row.connector, row.key).Some? ==> ByKey(rows, row.connector, row.key) == Some(id)
    ensures Unique(rows[id := row]) && ByKey(rows[id := row], row.connector, row.key) == Some(id)
  {
    forall i | i in rows && i != id && rows[i].connector == row.connector ensures rows[i].key != row.key {
      if rows[i].key == row.key {
        ByKeyIs(rows, i);
      }
    }
    ByKeyIs(rows[id := row], id);
  }

  /** The row id a step writes to. */
  function IdFor(cx: Context, stored: Rows, g: Progress, p: Port): int
    requires p.serviceKey in cx.services
  {
    match Claim(cx, stored, p)
    case Some(id) => id
    case None => NextId(g.rows)
  }

  lemma ClaimForIs(cx: Context, stored: Rows, keyOf: map<int, string>, items: seq<Port>, g: Progress, p: Port)
    requires Unique(stored) && Tied(stored, cx.scan.connector, keyOf) && Rekeyed(cx, keyOf)
    requires Inv(cx, stored, items, g)
    requires p.serviceKey in cx.services && p.tuple.protocol != "" && p.Key() !in KeysOf(items)
    ensures ClaimFor(cx, stored, g.used, p) == Claim(cx, stored, p)
    ensures Claim(cx, stored, p).Some? ==> Claim(cx, stored, p).value !in g.used
  {
    ClaimIsFree(cx, stored, keyOf, items, g, p);
    ClaimIsIdentity(cx, stored, keyOf, g.used, p);
  }

  /** With the stored ports tied to their services, a step is one row written at the claimed id. */
  lemma StepIs(cx: Context, stored: Rows, g: Progress, p: Port)
    requires stored.Keys <= g.rows.Keys
    requires p.serviceKey in cx.services && p.tuple.protocol != ""
    requires ClaimFor(cx, stored, g.used, p) == Claim(cx, stored, p)
    ensures
      var h, c := Step(cx, stored, g, p), Claim(cx, stored, p);
      h.rows == g.rows[IdFor(cx, stored, g, p) := RowOf(cx, p)] &&
      h.used == g.used + (if c.Some? then {c.value} else {})
  {
    if Claim(cx, stored, p).Some? {
      CarriedIsRow(cx, stored, p);
    }
  }

  lemma KeyIsFree(cx: Context, stored: Rows, keyOf: map<int, string>, items: seq<Port>, g: Progress, p: Port)
    requires Unique(stored) && Tied(stored, cx.scan.connector, keyOf) && Rekeyed(cx, keyOf)
    requires Inv(cx, stored, items, g)
    requires p.serviceKey in cx.services && p.Key() !in KeysOf(items)
    ensures
      var at := ByKey(g.rows, cx.scan.connector, p.Key());
      at.Some? ==> at == Some(IdFor(cx, stored, g, p))
  {
    var at := ByKey(g.rows, cx.scan.connector, p.Key());
    if at.Some? {
      assert !Mine(cx, items, g.rows[at.value]);
      assert at.value in stored && g.rows[at.value] == stored[at.value];
      IdentityIs(stored, cx.scan.connector, keyOf, at.value);
    }
  }

  lemma LandedKeeps(cx: Context, stored: Rows, rows: Rows, q: Port, id: int, row: PortRow)
    requires Unique(rows) && Unique(rows[id := row]) && Landed(cx, stored, rows, q)
    requires row.key != q.Key()
    requires id in rows ==> rows[id].connector != cx.scan.connector || rows[id].key != q.Key()
    ensures Landed(cx, stored, rows[id := row], q)
  {
    var at := ByKey(rows, cx.scan.connector, q.Key()).value;
    ByKeyIs(rows[id := row], at);
  }

  lemma NotYetMine(cx: Context, stored: Rows, keyOf: map<int, string>, items: seq<Port>, g: Progress, p: Port)
    requires Rekeyed(cx, keyOf) && Inv(cx, stored, items, g)
    requires p.serviceKey in cx.services && p.Key() !in KeysOf(items)
    ensures
      var id := IdFor(cx, stored, g, p);
      id in g.rows ==> !Mine(cx, items, g.rows[id])
  {
    var id := IdFor(cx, stored, g, p);
    if id in g.rows && Mine(cx, items, g.rows[id]) {
      var i := ItemOfKey(items, g.rows[id].key);
      assert Landed(cx, stored, g.rows, items[i]);
      ByKeyIs(g.rows, id);
      SameClaimSamePort(cx, stored, keyOf, p, items[i]);
    }
  }

  /** A step writes one row, at an id no reported port holds, and leaves the table unique. */
  ghost predicate Writes(cx: Context, stored: Rows, items: seq<Port>, g: Progress, p: Port, h: Progress, id: int) {
    && p.serviceKey in cx.services
    && p.Key() !in KeysOf(items)
    && id == IdFor(cx, stored, g, p)
    && h.rows == g.rows[id := RowOf(cx, p)]
    && h.used == g.used + (if Claim(cx, stored, p).Some? then {id} else {})
    && (id in g.rows ==> !Mine(cx, items, g.rows[id]))
    && Unique(h.rows)
    && ByKey(h.rows, cx.scan.connector, p.Key()) == Some(id)
  }

  lemma StepWrites(cx: Context, stored: Rows, keyOf: map<int, string>, items: seq<Port>, g: Progress, p: Port)
    requires Unique(stored) && Tied(stored, cx.scan.connector, keyOf) && Rekeyed(cx, keyOf)
    requires Inv(cx, stored, items, g)
    requires p.serviceKey in cx.services && p.tuple.protocol != "" && p.Key() !in KeysOf(items)
    ensures Writes(cx, stored, items, g, p, Step(cx, stored, g, p), IdFor(cx, stored, g, p))
  {
    ClaimForIs(cx, stored, keyOf, items, g, p);
    StepIs(cx, stored, g, p);
    KeyIsFree(cx, stored, keyOf, items, g, p);
    PutUnique(g.rows, IdFor(cx, stored, g, p), RowOf(cx, p));
    NotYetMine(cx, stored, keyOf, items, g, p);
  }

  lemma AllLanded(cx: Context, stored: Rows, items: seq<Port>, g: Progress, p: Port, h: Progress, id: int)
    requires Inv(cx, stored, items, g) && Writes(cx, stored, items, g, p, h, id)
    ensures forall i | 0 <= i <= |items| :: Landed(cx, stored, h.rows, (items + [p])[i])
  {
    forall i | 0 <= i <= |items| ensures Landed(cx, stored, h.rows, (items + [p])[i]) {
      if i < |items| {
        KeyOfItem(items, i);
        LandedKeeps(cx, stored, g.rows, items[i], id, RowOf(cx, p));
      }
    }
  }

  lemma KeysGrow(items: seq<Port>, p: Port)
    ensures KeysOf(items + [p]) == KeysOf(items) + {p.Key()}
  {
    assert (items + [p])[..|items|] == items;
  }

  lemma MineGrows(cx: Context, stored: Rows, items: seq<Port>, g: Progress, p: Port, h: Progress, id: int)
    requires p.serviceKey in cx.services && stored.Keys <= g.rows.Keys
    requires forall i <- g.rows :: i !in stored || i in g.used ==> Mine(cx, items, g.rows[i])
    requires forall i <- stored :: i !in g.used ==> g.rows[i] == stored[i]
    requires forall i <- g.used :: i in stored && stored[i].connector == cx.scan.connector
    requires id == IdFor(cx, stored, g, p) && h.rows == g.rows[id := RowOf(cx, p)]
    requires h.used == g.used + (if Claim(cx, stored, p).Some? then {id} else {})
    ensures forall i <- h.rows :: i !in stored || i in h.used ==> Mine(cx, items + [p], h.rows[i])
    ensures forall i <- stored :: i !in h.used ==> h.rows[i] == stored[i]
    ensures forall i <- h.used :: i in stored && stored[i].connector == cx.scan.connector
  {
    KeysGrow(items, p);
  }

  lemma AllBooked(cx: Context, stored: Rows, items: seq<Port>, g: Progress, p: Port, h: Progress)
    requires p.serviceKey in cx.services
    requires forall i | 0 <= i < |items| :: Booked(cx, stored, g.used, items[i])
    requires g.used <= h.used && (Claim(cx, stored, p).Some? ==> Claim(cx, stored, p).value in h.used)
    ensures forall i | 0 <= i <= |items| :: Booked(cx, stored, h.used, (items + [p])[i])
  {
    forall i | 0 <= i <= |items| ensures Booked(cx, stored, h.used, (items + [p])[i]) {
      assert i < |items| ==> Booked(cx, stored, g.used, items[i]);
    }
  }

  lemma WritesKeeps(cx: Context, stored: Rows, items: seq<Port>, g: Progress, p: Port, h: Progress, id: int)
    requires Inv(cx, stored, items, g) && Writes(cx, stored, items, g, p, h, id)
    ensures Inv(cx, stored, items + [p], h)
  {
    AllLanded(cx, stored, items, g, p, h, id);
    AllBooked(cx, stored, items, g, p, h);
    MineGrows(cx, stored, items, g, p, h, id);
  }

  lemma StepKeeps(cx: Context, stored: Rows, keyOf: map<int, string>, items: seq<Port>, g: Progress, p: Port)
    requires Unique(stored) && Tied(stored, cx.scan.connector, keyOf) && Rekeyed(cx, keyOf)
    requires Inv(cx, stored, items, g)
    requires p.serviceKey in cx.services && p.tuple.protocol != "" && p.Key() !in KeysOf(items)
    ensures Inv(cx, stored, items + [p], Step(cx, stored, g, p))
  {
    StepWrites(cx, stored, keyOf, items, g, p);
    WritesKeeps(cx, stored, items, g, p, Step(cx, stored, g, p), IdFor(cx, stored, g, p));
  }

  lemma {:induction false} FoldKeeps(cx: Context, stored: Rows, log: seq<Change>, keyOf: map<int, string>, items: seq<Port>)
    requires Unique(stored) && Tied(stored, cx.scan.connector, keyOf) && Rekeyed(cx, keyOf)
    requires Resolvable(cx, items) && Protocols(items) && Distinct(items)
    ensures Inv(cx, stored, items, Fold(cx, stored, log, items))
  {
    if |items| == 0 {
      StartsInv(cx, stored, log);
      assert items == [];
    } else {
      var init, p := items[..|items| - 1], items[|items| - 1];
      assert init + [p] == items;
      FoldKeeps(cx, stored, log, keyOf, init);
      StepKeeps(cx, stored, keyOf, init, Fold(cx, stored, log, init), p);
    }
  }

  lemma StartsInv(cx: Context, stored: Rows, log: seq<Change>)
    requires Unique(stored)
    ensures Inv(cx, stored, [], Progress(stored, log, {}))
  {
  }

  // ---------------------------------------------------------------------------
  // What a whole scan leaves

  /** The connector's rows are exactly the reported ports; nobody else's row is touched. */
  ghost predicate After(cx: Context, stored: Rows, items: seq<Port>, rows: Rows) {
    && Unique(rows)
    && (forall i | 0 <= i < |items| :: Landed(cx, stored, rows, items[i]))
    && (forall id <- rows :: rows[id].connector == cx.scan.connector ==> rows[id].key in KeysOf(items))
    && (forall id <- rows :: rows[id].connector != cx.scan.connector ==> id in stored && rows[id] == stored[id])
    && (forall id <- stored :: stored[id].connector != cx.scan.connector ==> id in rows && rows[id] == stored[id])
  }

  lemma LandedSurvives(cx: Context, stored: Rows, rows: Rows, ids: set<int>, p: Port)
    requires Unique(rows) && Landed(cx, stored, rows, p)
    requires ByKey(rows, cx.scan.connector, p.Key()).value !in ids
    ensures Unique(Without(rows, ids)) && Landed(cx, stored, Without(rows, ids), p)
  {
    ByKeyIs(Without(rows, ids), ByKey(rows, cx.scan.connector, p.Key()).value);
  }

  lemma AllSurvive(cx: Context, stored: Rows, items: seq<Port>, g: Progress)
    requires Inv(cx, stored, items, g)
    ensures
      var rows := Without(g.rows, Unclaimed(stored, cx.scan.connector, g.used));
      forall i | 0 <= i < |items| :: Landed(cx, stored, rows, items[i])
  {
    var gone := Unclaimed(stored, cx.scan.connector, g.used);
    forall i | 0 <= i < |items| ensures Landed(cx, stored, Without(g.rows, gone), items[i]) {
      assert Landed(cx, stored, g.rows, items[i]) && Booked(cx, stored, g.used, items[i]);
      LandedSurvives(cx, stored, g.rows, gone, items[i]);
    }
  }

  lemma OnlyMine(cx: Context, stored: Rows, items: seq<Port>, g: Progress)
    requires Inv(cx, stored, items, g)
    ensures
      var rows := Without(g.rows, Unclaimed(stored, cx.scan.connector, g.used));
      && Unique(rows)
      && (forall id <- rows :: rows[id].connector == cx.scan.connector ==> rows[id].key in KeysOf(items))
      && (forall id <- rows :: rows[id].connector != cx.scan.connector ==> id in stored && rows[id] == stored[id])
      && (forall id <- stored :: stored[id].connector != cx.scan.connector ==> id in rows && rows[id] == stored[id])
  {
    forall id <- g.rows
      ensures Mine(cx, items, g.rows[id]) || (id in stored && id !in g.used && g.rows[id] == stored[id])
    {
    }
  }

  /**
   After every scan the connector's port rows are the snapshot's ports, one row each and on the row
   with the port's identity when there was one; no other connector's port is touched.
   */
  lemma AppliedLeaves(cx: Context, stored: Rows, log: seq<Change>, keyOf: map<int, string>, items: seq<Port>)
    requires Unique(stored) && Tied(stored, cx.scan.connector, keyOf) && Rekeyed(cx, keyOf)
    requires Resolvable(cx, items) && Protocols(items)
    ensures After(cx, stored, Deduped(items), Applied(cx, stored, log, items).rows)
  {
    var ports := Deduped(items);
    DedupedIs(items);
    DedupedResolvable(cx, items);
    FoldKeeps(cx, stored, log, keyOf, ports);
    var g := Fold(cx, stored, log, ports);
    AllSurvive(cx, stored, ports, g);
    OnlyMine(cx, stored, ports, g);
  }

  /** The keys the services have after the scan: each service row's is the key it was reported under. */
  ghost predicate KeysAfter(cx: Context, keyOf: map<int, string>) {
    && (forall k <- cx.services :: cx.services[k] in keyOf && keyOf[cx.services[k]] == k)
    && (forall i, j | i in keyOf && j in keyOf && keyOf[i] == keyOf[j] :: i == j)
  }

  /** So every port's key again matches its service's, ready for the next scan. */
  lemma AppliedTies(cx: Context, stored: Rows, log: seq<Change>, keyOf: map<int, string>, items: seq<Port>, keyOf': map<int, string>)
    requires Unique(stored) && Tied(stored, cx.scan.connector, keyOf) && Rekeyed(cx, keyOf) && KeysAfter(cx, keyOf')
    requires Resolvable(cx, items) && Protocols(items)
    ensures Tied(Applied(cx, stored, log, items).rows, cx.scan.connector, keyOf')
  {
    AppliedLeaves(cx, stored, log, keyOf, items);
    DedupedIs(items);
    var rows, ports := Applied(cx, stored, log, items).rows, Deduped(items);
    forall id <- rows | rows[id].connector == cx.scan.connector
      ensures rows[id].tuple.protocol != "" && rows[id].service in keyOf'
      ensures rows[id].key == PortKey(keyOf'[rows[id].service], rows[id].tuple)
    {
      var i := ItemOfKey(ports, rows[id].key);
      assert Landed(cx, stored, rows, ports[i]);
      ByKeyIs(rows, id);
    }
  }

  // ---------------------------------------------------------------------------
  // What is filed

  /** The entry about a reported port that claims a stored row: only if something a reader sees moved. */
  function Seen(cx: Context, stored: Rows, p: Port): bool
    requires p.serviceKey in cx.services
  {
    var c := Claim(cx, stored, p);
    c.Some? && stored[c.value].published == p.published && stored[c.value].source == p.source
  }

  lemma {:induction false} FoldIsSilent(cx: Context, stored: Rows, log: seq<Change>, keyOf: map<int, string>, items: seq<Port>)
    requires Unique(stored) && Tied(stored, cx.scan.connector, keyOf) && Rekeyed(cx, keyOf)
    requires Resolvable(cx, items) && Protocols(items) && Distinct(items)
    requires forall i | 0 <= i < |items| :: Seen(cx, stored, items[i])
    ensures
      var g := Fold(cx, stored, log, items);
      g.log == log && g.rows.Keys == stored.Keys && g.used <= stored.Keys
  {
    if |items| > 0 {
      var init, p := items[..|items| - 1], items[|items| - 1];
      assert Seen(cx, stored, p);
      FoldIsSilent(cx, stored, log, keyOf, init);
      FoldKeeps(cx, stored, log, keyOf, init);
      var g := Fold(cx, stored, log, init);
      ClaimForIs(cx, stored, keyOf, init, g, p);
      SeenIsSilent(cx, stored, g, p);
    }
  }

  lemma SeenIsSilent(cx: Context, stored: Rows, g: Progress, p: Port)
    requires stored.Keys <= g.rows.Keys && p.serviceKey in cx.services
    requires ClaimFor(cx, stored, g.used, p) == Claim(cx, stored, p) && Seen(cx, stored, p)
    ensures
      var h, id := Step(cx, stored, g, p), Claim(cx, stored, p).value;
      h.log == g.log && h.rows.Keys == g.rows.Keys && h.used == g.used + {id} && id in stored
  {
    assert FieldsDiff(Tracked(stored[Claim(cx, stored, p).value]), Tracked(RowOf(cx, p))) == map[];
  }

  /** Every row of the connector is claimed by some reported port. */
  ghost predicate AllClaimed(cx: Context, stored: Rows, items: seq<Port>)
    requires Resolvable(cx, items)
  {
    forall id <- stored :: stored[id].connector == cx.scan.connector ==>
      exists i :: 0 <= i < |items| && Claim(cx, stored, items[i]) == Some(id)
  }

  /**
   A re-key by itself files nothing: when the ports are the ones stored, under whatever new service
   keys, the feed and the set of row ids stay as they were.
   */
  lemma RekeyIsSilent(cx: Context, stored: Rows, log: seq<Change>, keyOf: map<int, string>, items: seq<Port>)
    requires Lists(cx.order)
    requires Unique(stored) && Tied(stored, cx.scan.connector, keyOf) && Rekeyed(cx, keyOf)
    requires Resolvable(cx, items) && Protocols(items)
    requires Resolvable(cx, Deduped(items)) && AllClaimed(cx, stored, Deduped(items))
    requires forall i | 0 <= i < |Deduped(items)| :: Seen(cx, stored, Deduped(items)[i])
    ensures Applied(cx, stored, log, items).log == log
    ensures Applied(cx, stored, log, items).rows.Keys == stored.Keys
  {
    var ports := Deduped(items);
    DedupedIs(items);
    FoldIsSilent(cx, stored, log, keyOf, ports);
    FoldKeeps(cx, stored, log, keyOf, ports);
    var g := Fold(cx, stored, log, ports);
    NoneUnclaimed(cx, stored, ports, g);
    NoneDeleted(cx, g.rows);
  }

  lemma NoneDeleted(cx: Context, rows: Rows)
    requires Lists(cx.order)
    ensures DeletedEntries(cx.scan, cx.order({})) == [] && Without(rows, {}) == rows
  {
    assert ListOf(cx.order({}), {});
  }

  lemma NoneUnclaimed(cx: Context, stored: Rows, ports: seq<Port>, g: Progress)
    requires Resolvable(cx, ports) && AllClaimed(cx, stored, ports)
    requires forall i | 0 <= i < |ports| :: Booked(cx, stored, g.used, ports[i])
    ensures Unclaimed(stored, cx.scan.connector, g.used) == {}
  {
    forall id <- stored | stored[id].connector == cx.scan.connector ensures id in g.used {
      var i :| 0 <= i < |ports| && Claim(cx, stored, ports[i]) == Some(id);
      assert Booked(cx, stored, g.used, ports[i]);
    }
  }

  // ---------------------------------------------------------------------------
  // A second scan that sees the same

  /** The row a port claims is already the row it reports. */
  ghost predicate AtRest(cx: Context, stored: Rows, p: Port) {
    p.serviceKey in cx.services && Claim(cx, stored, p).Some? && stored[Claim(cx, stored, p).value] == RowOf(cx, p)
  }

  lemma {:induction false} FoldRests(cx: Context, stored: Rows, log: seq<Change>, keyOf: map<int, string>, items: seq<Port>)
    requires Unique(stored) && Tied(stored, cx.scan.connector, keyOf) && Rekeyed(cx, keyOf)
    requires Resolvable(cx, items) && Protocols(items) && Distinct(items)
    requires forall i | 0 <= i < |items| :: AtRest(cx, stored, items[i])
    ensures Fold(cx, stored, log, items).rows == stored && Fold(cx, stored, log, items).log == log
  {
    if |items| > 0 {
      var init, p := items[..|items| - 1], items[|items| - 1];
      assert AtRest(cx, stored, p);
      FoldRests(cx, stored, log, keyOf, init);
      FoldKeeps(cx, stored, log, keyOf, init);
      var g := Fold(cx, stored, log, init);
      ClaimForIs(cx, stored, keyOf, init, g, p);
      SeenIsSilent(cx, stored, g, p);
      StepIs(cx, stored, g, p);
    }
  }

  /** A port of the first scan claims, in the second, the row the first put it on. */
  lemma LandedRests(cx: Context, stored: Rows, cx2: Context, rows: Rows, keyOf: map<int, string>, p: Port)
    requires Landed(cx, stored, rows, p) && Unique(rows) && p.tuple.protocol != ""
    requires cx2.scan.connector == cx.scan.connector && cx2.services == cx.services && cx2.hosts == cx.hosts
    requires Tied(rows, cx.scan.connector, keyOf)
    ensures AtRest(cx2, rows, p)
    ensures Claim(cx2, rows, p) == ByKey(rows, cx.scan.connector, p.Key())
  {
    IdentityIs(rows, cx.scan.connector, keyOf, ByKey(rows, cx.scan.connector, p.Key()).value);
  }

  /** Scanning twice: the second scan files nothing and changes no port. */
  lemma PortsRescan(cx: Context, cx2: Context, stored: Rows, log: seq<Change>, keyOf: map<int, string>, items: seq<Port>,
                    keyOf': map<int, string>, log2: seq<Change>)
    requires Lists(cx.order) && cx2.order == cx.order
    requires cx2.scan.connector == cx.scan.connector && cx2.services == cx.services && cx2.hosts == cx.hosts
    requires Unique(stored) && Tied(stored, cx.scan.connector, keyOf) && Rekeyed(cx, keyOf)
    requires KeysAfter(cx, keyOf') && Rekeyed(cx2, keyOf')
    requires Resolvable(cx, items) && Protocols(items)
    ensures
      var rows := Applied(cx, stored, log, items).rows;
      Applied(cx2, rows, log2, items) == Outcome(rows, log2)
  {
    var rows, ports := Applied(cx, stored, log, items).rows, Deduped(items);
    AppliedLeaves(cx, stored, log, keyOf, items);
    AppliedTies(cx, stored, log, keyOf, items, keyOf');
    DedupedIs(items);
    DedupedResolvable(cx2, items);
    forall i | 0 <= i < |ports| ensures AtRest(cx2, rows, ports[i]) {
      assert Landed(cx, stored, rows, ports[i]);
      LandedRests(cx, stored, cx2, rows, keyOf', ports[i]);
    }
    RestsThrough(cx2, rows, log2, keyOf', items);
  }

  lemma RestsThrough(cx: Context, rows: Rows, log: seq<Change>, keyOf: map<int, string>, items: seq<Port>)
    requires Lists(cx.order)
    requires Unique(rows) && Tied(rows, cx.scan.connector, keyOf) && Rekeyed(cx, keyOf)
    requires Resolvable(cx, items) && Protocols(items)
    requires forall i | 0 <= i < |Deduped(items)| :: AtRest(cx, rows, Deduped(items)[i])
    requires forall id <- rows :: rows[id].connector == cx.scan.connector ==> rows[id].key in KeysOf(items)
    ensures Applied(cx, rows, log, items) == Outcome(rows, log)
  {
    var ports := Deduped(items);
    DedupedIs(items);
    DedupedResolvable(cx, items);
    FoldRests(cx, rows, log, keyOf, ports);
    FoldKeeps(cx, rows, log, keyOf, ports);
    var g := Fold(cx, rows, log, ports);
    forall id <- rows | rows[id].connector == cx.scan.connector
      ensures exists i :: 0 <= i < |ports| && Claim(cx, rows, ports[i]) == Some(id)
    {
      var i := ItemOfKey(ports, rows[id].key);
      RestClaims(cx, rows, keyOf, ports[i], id);
    }
    NoneUnclaimed(cx, rows, ports, g);
    NoneDeleted(cx, g.rows);
  }

  lemma RestClaims(cx: Context, rows: Rows, keyOf: map<int, string>, p: Port, id: int)
    requires Unique(rows) && AtRest(cx, rows, p)
    requires id in rows && rows[id].connector == cx.scan.connector && rows[id].key == p.Key()
    ensures Claim(cx, rows, p) == Some(id)
  {
  }

  /** A port with the service row and tuple of a stored one stays on that row, whatever the service is called now. */
  lemma PortKeepsRow(cx: Context, stored: Rows, log: seq<Change>, keyOf: map<int, string>, items: seq<Port>, i: nat, id: int)
    requires Unique(stored) && Tied(stored, cx.scan.connector, keyOf) && Rekeyed(cx, keyOf)
    requires Resolvable(cx, items) && Protocols(items) && i < |Deduped(items)|
    requires Deduped(items)[i].serviceKey in cx.services
    requires id in stored && stored[id].connector == cx.scan.connector
    requires stored[id].service == cx.services[Deduped(items)[i].serviceKey] && stored[id].tuple == Deduped(items)[i].tuple
    ensures
      var rows := Applied(cx, stored, log, items).rows;
      id in rows && rows[id] == RowOf(cx, Deduped(items)[i])
  {
    AppliedLeaves(cx, stored, log, keyOf, items);
    assert Landed(cx, stored, Applied(cx, stored, log, items).rows, Deduped(items)[i]);
    IdentityIs(stored, cx.scan.connector, keyOf, id);
  }

  // ---------------------------------------------------------------------------
  // The feed

  /** Every port row has a story that has not ended, every other id one that has or never began. */
  ghost predicate Alive(rows: Rows, log: seq<Change>) {
    && (forall id <- rows :: Last(log, PortEntity, id).Some? && Last(log, PortEntity, id).value.kind != Removed)
    && (forall id | id !in rows :: Vacant(log, PortEntity, id))
  }

  lemma StillAlive(rows: Rows, a: seq<Change>, b: seq<Change>)
    requires Alive(rows, a) && SameStory(a, b, PortEntity)
    ensures Alive(rows, b)
  {
    SameLast(a, b, PortEntity);
    forall id | id !in rows ensures Vacant(b, PortEntity, id) {
      assert Vacant(a, PortEntity, id);
    }
  }

  lemma StepAlive(cx: Context, stored: Rows, g: Progress, p: Port)
    requires stored.Keys <= g.rows.Keys && p.serviceKey in cx.services
    requires Lawful(g.log) && Alive(g.rows, g.log)
    ensures
      var h := Step(cx, stored, g, p);
      Lawful(h.log) && Alive(h.rows, h.log) && forall o | o != PortEntity :: SameStory(g.log, h.log, o)
  {
    var h := Step(cx, stored, g, p);
    if h.log != g.log {
      Append(g.log, h.log[|g.log|]);
      assert h.log == g.log + [h.log[|g.log|]];
    }
  }

  lemma {:induction false} FoldAlive(cx: Context, stored: Rows, log: seq<Change>, items: seq<Port>)
    requires Resolvable(cx, items) && Lawful(log) && Alive(stored, log)
    ensures
      var g := Fold(cx, stored, log, items);
      Lawful(g.log) && Alive(g.rows, g.log) && forall o | o != PortEntity :: SameStory(log, g.log, o)
  {
    if |items| > 0 {
      var init := items[..|items| - 1];
      FoldAlive(cx, stored, log, init);
      var g := Fold(cx, stored, log, init);
      StepAlive(cx, stored, g, items[|items| - 1]);
      SameStories(log, g.log, Step(cx, stored, g, items[|items| - 1]).log, PortEntity);
    }
  }

  lemma {:induction false} DeletedAlive(rows: Rows, log: seq<Change>, scan: Scan, ids: seq<int>, s: set<int>)
    requires Lawful(log) && Alive(rows, log) && ListOf(ids, s) && s <= rows.Keys
    ensures
      var log' := log + DeletedEntries(scan, ids);
      Lawful(log') && Alive(Without(rows, s), log') && forall o | o != PortEntity :: SameStory(log, log', o)
    decreases |ids|
  {
    if |ids| == 0 {
      assert log + DeletedEntries(scan, ids) == log;
      assert Without(rows, s) == rows;
    } else {
      var init, id := ids[..|ids| - 1], ids[|ids| - 1];
      var rest := Drop(s, id);
      var c := Entry(scan, PortEntity, id, Removed, map[]);
      var log1 := log + DeletedEntries(scan, init);
      assert log + DeletedEntries(scan, ids) == log1 + [c];
      DropList(ids, s);
      DeletedAlive(rows, log, scan, init, rest);
      DeleteOne(Without(rows, rest), log1, c);
      assert Without(rows, s) == Without(Without(rows, rest), {id});
      SameStories(log, log1, log1 + [c], PortEntity);
    }
  }

  lemma DeleteOne(rows: Rows, log: seq<Change>, c: Change)
    requires Lawful(log) && Alive(rows, log) && c.entity == PortEntity && c.kind == Removed && c.id in rows
    ensures Lawful(log + [c]) && Alive(Without(rows, {c.id}), log + [c])
    ensures forall o | o != PortEntity :: SameStory(log, log + [c], o)
  {
    Append(log, c);
  }

  lemma PortsTell(cx: Context, stored: Rows, log: seq<Change>, items: seq<Port>)
    requires Lists(cx.order) && Resolvable(cx, items) && Lawful(log) && Alive(stored, log)
    ensures
      var o := Applied(cx, stored, log, items);
      Lawful(o.log) && Alive(o.rows, o.log) && forall e | e != PortEntity :: SameStory(log, o.log, e)
  {
    DedupedResolvable(cx, items);
    FoldAlive(cx, stored, log, Deduped(items));
    var g := Fold(cx, stored, log, Deduped(items));
    var gone := Unclaimed(stored, cx.scan.connector, g.used);
    assert ListOf(cx.order(gone), gone);
    DeletedAlive(g.rows, g.log, cx.scan, cx.order(gone), gone);
    SameStories(log, g.log, Applied(cx, stored, log, items).log, PortEntity);
  }

  // ---------------------------------------------------------------------------
  // What exactly is stored and filed

  /** Of the ports with one natural key exactly the first is kept, in the order they came. */
  lemma {:induction false} DedupedKeepsFirst(items: seq<Port>)
    ensures forall p :: p in Deduped(items) <==> exists i :: FirstAt(items, i, p)
  {
    if |items| > 0 {
      var n := |items| - 1;
      var init := items[..n];
      DedupedKeepsFirst(init);
      assert forall i | 0 <= i <= n :: init[..i] == items[..i];
      forall p ensures p in Deduped(items) <==> exists i :: FirstAt(items, i, p) {
        assert forall i | 0 <= i < n :: FirstAt(init, i, p) <==> FirstAt(items, i, p);
        assert FirstAt(items, n, p) <==> p == items[n] && p.Key() !in KeysOf(init);
      }
    }
  }

  predicate FirstAt(items: seq<Port>, i: int, p: Port) {
    0 <= i < |items| && items[i] == p && p.Key() !in KeysOf(items[..i])
  }

  function EntryFor(cx: Context, stored: Rows, p: Port, id: int): seq<Change>
    requires p.serviceKey in cx.services
  {
    if id !in stored then [Entry(cx.scan, PortEntity, id, Added, map[])]
    else
      var diff := FieldsDiff(Tracked(stored[id]), Tracked(RowOf(cx, p)));
      if diff == map[] then [] else [Entry(cx.scan, PortEntity, id, Modified, diff)]
  }

  ghost predicate PortFiles(cx: Context, stored: Rows, log: seq<Change>, g: Progress, p: Port) {
    p.serviceKey in cx.services &&
    var at := ByKey(g.rows, cx.scan.connector, p.Key());
    at.Some? && Filed(log, g.log, PortEntity, at.value, EntryFor(cx, stored, p, at.value))
  }

  ghost predicate FoldFiles(cx: Context, stored: Rows, log: seq<Change>, items: seq<Port>, g: Progress) {
    && (forall i | 0 <= i < |items| :: PortFiles(cx, stored, log, g, items[i]))
    && (forall id | id in g.rows ==> !Mine(cx, items, g.rows[id]) :: Filed(log, g.log, PortEntity, id, []))
  }

  lemma OneEntry(cx: Context, stored: Rows, p: Port, id: int)
    requires p.serviceKey in cx.services
    ensures |EntryFor(cx, stored, p, id)| <= 1 && forall c <- EntryFor(cx, stored, p, id) :: c.entity == PortEntity && c.id == id
  {
  }

  lemma StepLogs(cx: Context, stored: Rows, g: Progress, p: Port)
    requires stored.Keys <= g.rows.Keys && p.serviceKey in cx.services
    requires ClaimFor(cx, stored, g.used, p) == Claim(cx, stored, p)
    ensures Step(cx, stored, g, p).log == g.log + EntryFor(cx, stored, p, IdFor(cx, stored, g, p))
  {
  }

  lemma PortStays(cx: Context, stored: Rows, log: seq<Change>, items: seq<Port>, g: Progress, i: nat, h: Progress, id: int,
                  row: PortRow, entries: seq<Change>)
    requires i < |items| && PortFiles(cx, stored, log, g, items[i])
    requires h.rows == g.rows[id := row] && h.log == g.log + entries && Unique(h.rows)
    requires id in g.rows ==> !Mine(cx, items, g.rows[id])
    requires |entries| <= 1 && forall c <- entries :: c.entity == PortEntity && c.id == id
    ensures PortFiles(cx, stored, log, h, items[i])
  {
    var at := ByKey(g.rows, cx.scan.connector, items[i].Key()).value;
    KeyOfItem(items, i);
    ByKeyIs(h.rows, at);
    hide EntryFor, Filed, Unique, ByKey;
    StoryGoesOn(log, g.log, entries, PortEntity, at, id, EntryFor(cx, stored, items[i], at));
  }

  lemma StepPuts(cx: Context, stored: Rows, keyOf: map<int, string>, items: seq<Port>, g: Progress, p: Port)
    requires Unique(stored) && Tied(stored, cx.scan.connector, keyOf) && Rekeyed(cx, keyOf)
    requires Inv(cx, stored, items, g)
    requires p.serviceKey in cx.services && p.tuple.protocol != "" && p.Key() !in KeysOf(items)
    ensures
      var h, id := Step(cx, stored, g, p), IdFor(cx, stored, g, p);
      && h.rows == g.rows[id := RowOf(cx, p)] && h.log == g.log + EntryFor(cx, stored, p, id)
      && (id in g.rows ==> !Mine(cx, items, g.rows[id]))
      && Unique(h.rows) && ByKey(h.rows, cx.scan.connector, p.Key()) == Some(id)
  {
    StepWrites(cx, stored, keyOf, items, g, p);
    ClaimForIs(cx, stored, keyOf, items, g, p);
    hide EntryFor, Unique, ByKey, Step, IdFor, Claim, ClaimFor, Tied, Rekeyed, RowOf, KeysOf, Mine, Landed, Booked;
    StepLogs(cx, stored, g, p);
  }

  lemma StepFiles(cx: Context, stored: Rows, log: seq<Change>, keyOf: map<int, string>, items: seq<Port>, g: Progress, p: Port)
    requires Unique(stored) && Tied(stored, cx.scan.connector, keyOf) && Rekeyed(cx, keyOf)
    requires stored.Keys <= g.rows.Keys && Inv(cx, stored, items, g) && FoldFiles(cx, stored, log, items, g)
    requires p.serviceKey in cx.services && p.tuple.protocol != "" && p.Key() !in KeysOf(items)
    ensures FoldFiles(cx, stored, log, items + [p], Step(cx, stored, g, p))
  {
    hide EntryFor, Filed, Unique, ByKey, Step, IdFor, Inv, Claim, Tied, Rekeyed, RowOf, KeysOf, Mine;
    var h, id := Step(cx, stored, g, p), IdFor(cx, stored, g, p);
    StepPuts(cx, stored, keyOf, items, g, p);
    var entries := EntryFor(cx, stored, p, id);
    OneEntry(cx, stored, p, id);
    forall i | 0 <= i < |items + [p]| ensures PortFiles(cx, stored, log, h, (items + [p])[i]) {
      if i < |items| {
        PortStays(cx, stored, log, items, g, i, h, id, RowOf(cx, p), entries);
      } else {
        StoryGoesOn(log, g.log, entries, PortEntity, id, id, []);
        assert [] + entries == entries;
      }
    }
    forall at | at in h.rows ==> !Mine(cx, items + [p], h.rows[at]) ensures Filed(log, h.log, PortEntity, at, []) {
      MineNow(cx, items, p);
      StoryGoesOn(log, g.log, entries, PortEntity, at, id, []);
    }
  }

  lemma MineNow(cx: Context, items: seq<Port>, p: Port)
    requires p.serviceKey in cx.services
    ensures Mine(cx, items + [p], RowOf(cx, p))
    ensures forall row :: Mine(cx, items, row) ==> Mine(cx, items + [p], row)
  {
    KeysGrow(items, p);
  }

  lemma {:induction false} FoldFilesAll(cx: Context, stored: Rows, log: seq<Change>, keyOf: map<int, string>, items: seq<Port>)
    requires Unique(stored) && Tied(stored, cx.scan.connector, keyOf) && Rekeyed(cx, keyOf)
    requires Resolvable(cx, items) && Protocols(items) && Distinct(items)
    ensures FoldFiles(cx, stored, log, items, Fold(cx, stored, log, items))
  {
    if |items| > 0 {
      hide FoldFiles, Inv, Step, Tied, Rekeyed, Unique;
      var init, p := items[..|items| - 1], items[|items| - 1];
      assert init + [p] == items;
      FoldFilesAll(cx, stored, log, keyOf, init);
      FoldKeeps(cx, stored, log, keyOf, init);
      StepFiles(cx, stored, log, keyOf, init, Fold(cx, stored, log, init), p);
    }
  }

  lemma {:induction false} DeletedStory(log: seq<Change>, scan: Scan, ids: seq<int>, id: int)
    requires forall i, j | 0 <= i < j < |ids| :: ids[i] != ids[j]
    ensures Filed(log, log + DeletedEntries(scan, ids), PortEntity, id,
                  if id in ids then [Change(scan.run, scan.now, PortEntity, id, Removed, map[])] else [])
  {
    if |ids| == 0 {
      assert log + DeletedEntries(scan, ids) == log;
    } else {
      var init, c := ids[..|ids| - 1], Entry(scan, PortEntity, ids[|ids| - 1], Removed, map[]);
      DeletedStory(log, scan, init, id);
      assert log + DeletedEntries(scan, ids) == log + DeletedEntries(scan, init) + [c];
      StoryAppend(log + DeletedEntries(scan, init), c, PortEntity, id);
      assert id in ids <==> id in init || id == ids[|ids| - 1];
    }
  }

  /** The scan's deletions, one removal each. */
  lemma GoneStory(cx: Context, stored: Rows, log: seq<Change>, items: seq<Port>, id: int)
    requires Lists(cx.order) && Resolvable(cx, items) && Resolvable(cx, Deduped(items))
    ensures
      var g := Fold(cx, stored, log, Deduped(items));
      Filed(g.log, Applied(cx, stored, log, items).log, PortEntity, id,
            if id in Unclaimed(stored, cx.scan.connector, g.used)
            then [Change(cx.scan.run, cx.scan.now, PortEntity, id, Removed, map[])] else [])
  {
    var g := Fold(cx, stored, log, Deduped(items));
    var gone := Unclaimed(stored, cx.scan.connector, g.used);
    assert ListOf(cx.order(gone), gone);
    DeletedStory(g.log, cx.scan, cx.order(gone), id);
  }

  /** A reported port's row outlives the deletions. */
  lemma ReportedStays(cx: Context, stored: Rows, items: seq<Port>, g: Progress, i: nat)
    requires Inv(cx, stored, items, g) && i < |items|
    ensures
      var gone, at := Unclaimed(stored, cx.scan.connector, g.used), ByKey(g.rows, cx.scan.connector, items[i].Key());
      at.Some? && at.value !in gone && ByKey(Without(g.rows, gone), cx.scan.connector, items[i].Key()) == at
  {
    assert Landed(cx, stored, g.rows, items[i]) && Booked(cx, stored, g.used, items[i]);
    var gone := Unclaimed(stored, cx.scan.connector, g.used);
    ByKeyIs(Without(g.rows, gone), ByKey(g.rows, cx.scan.connector, items[i].Key()).value);
  }

  lemma ReportedFiles(cx: Context, stored: Rows, log: seq<Change>, keyOf: map<int, string>, items: seq<Port>, i: nat)
    requires Lists(cx.order)
    requires Unique(stored) && Tied(stored, cx.scan.connector, keyOf) && Rekeyed(cx, keyOf)
    requires Resolvable(cx, items) && Protocols(items) && i < |Deduped(items)|
    ensures
      var o, p := Applied(cx, stored, log, items), Deduped(items)[i];
      Landed(cx, stored, o.rows, p) &&
      var id := ByKey(o.rows, cx.scan.connector, p.Key()).value;
      Filed(log, o.log, PortEntity, id, EntryFor(cx, stored, p, id))
  {
    var ports := Deduped(items);
    DedupedIs(items);
    DedupedResolvable(cx, items);
    AppliedLeaves(cx, stored, log, keyOf, items);
    FoldFilesAll(cx, stored, log, keyOf, ports);
    FoldKeeps(cx, stored, log, keyOf, ports);
    var g, o := Fold(cx, stored, log, ports), Applied(cx, stored, log, items);
    assert Landed(cx, stored, o.rows, ports[i]) && PortFiles(cx, stored, log, g, ports[i]);
    ReportedStays(cx, stored, ports, g, i);
    var id := ByKey(g.rows, cx.scan.connector, ports[i].Key()).value;
    GoneStory(cx, stored, log, items, id);
    hide EntryFor, Filed, Landed, Inv, Tied, Rekeyed, Unique;
    FiledThen(log, g.log, o.log, PortEntity, id, EntryFor(cx, stored, ports[i], id), []);
  }

  /**
   A reported port, column by column: its row after the scan and what is filed. On a row that was there an entry
   names what moved of `published` and `source` and nothing else, however the port was re-keyed or re-linked.
   */
  lemma ReportedIsTold(cx: Context, stored: Rows, log: seq<Change>, keyOf: map<int, string>, items: seq<Port>, i: nat)
    requires Lists(cx.order)
    requires Unique(stored) && Tied(stored, cx.scan.connector, keyOf) && Rekeyed(cx, keyOf)
    requires Resolvable(cx, items) && Protocols(items) && i < |Deduped(items)|
    ensures
      var o, p := Applied(cx, stored, log, items), Deduped(items)[i];
      var at := ByKey(o.rows, cx.scan.connector, PortKey(p.serviceKey, p.tuple));
      at.Some? && p.serviceKey in cx.services &&
      var id, row := at.value, o.rows[at.value];
      && row.service == cx.services[p.serviceKey] && row.tuple == p.tuple && row.published == p.published && row.source == p.source
      && row.host == (if p.hostKey in cx.hosts then Some(cx.hosts[p.hostKey]) else None)
      && Filed(log, o.log, PortEntity, id,
           if id !in stored then [Change(cx.scan.run, cx.scan.now, PortEntity, id, Added, map[])]
           else
             var was := stored[id];
             var moved := Changed(map["published" := (if was.published then "true" else "false", if p.published then "true" else "false"),
                                      "source" := (was.source, p.source)]);
             if moved == map[] then [] else [Change(cx.scan.run, cx.scan.now, PortEntity, id, Modified, moved)])
  {
    var o, p := Applied(cx, stored, log, items), Deduped(items)[i];
    ReportedFiles(cx, stored, log, keyOf, items, i);
    DedupedIs(items);
    hide Applied, Filed, Deduped, Changed, Tracked, Tied, Rekeyed, Unique, ByKey, Claim;
    var id := ByKey(o.rows, cx.scan.connector, p.Key()).value;
    if id in stored {
      ColumnsMoved(cx, stored[id], p);
    }
  }

  lemma ColumnsMoved(cx: Context, was: PortRow, p: Port)
    requires p.serviceKey in cx.services
    ensures FieldsDiff(Tracked(was), Tracked(RowOf(cx, p)))
         == Changed(map["published" := (if was.published then "true" else "false", if p.published then "true" else "false"),
                        "source" := (was.source, p.source)])
  {
    DiffIsChanged(Tracked(was), Tracked(RowOf(cx, p)),
                  map["published" := (if was.published then "true" else "false", if p.published then "true" else "false"),
                      "source" := (was.source, p.source)]);
  }

  /** A row on which no reported port is: the connector's is deleted with one removal, and nothing is filed about any other. */
  lemma UnreportedIsTold(cx: Context, stored: Rows, log: seq<Change>, keyOf: map<int, string>, items: seq<Port>, id: int)
    requires Lists(cx.order)
    requires Unique(stored) && Tied(stored, cx.scan.connector, keyOf) && Rekeyed(cx, keyOf)
    requires Resolvable(cx, items) && Protocols(items)
    requires
      var rows := Applied(cx, stored, log, items).rows;
      id in rows ==> rows[id].connector != cx.scan.connector
    ensures
      var o := Applied(cx, stored, log, items);
      if id in stored && stored[id].connector == cx.scan.connector then
        id !in o.rows && Filed(log, o.log, PortEntity, id, [Change(cx.scan.run, cx.scan.now, PortEntity, id, Removed, map[])])
      else
        (id in o.rows <==> id in stored) && (id in stored ==> o.rows[id] == stored[id]) && Filed(log, o.log, PortEntity, id, [])
  {
    var ports := Deduped(items);
    DedupedIs(items);
    DedupedResolvable(cx, items);
    AppliedLeaves(cx, stored, log, keyOf, items);
    FoldFilesAll(cx, stored, log, keyOf, ports);
    FoldKeeps(cx, stored, log, keyOf, ports);
    var g, o := Fold(cx, stored, log, ports), Applied(cx, stored, log, items);
    UnreportedRow(cx, stored, ports, g, id);
    GoneStory(cx, stored, log, items, id);
    hide Filed, Inv, Tied, Rekeyed, Unique, PortFiles;
    FiledThen(log, g.log, o.log, PortEntity, id, [],
              if id in Unclaimed(stored, cx.scan.connector, g.used)
              then [Change(cx.scan.run, cx.scan.now, PortEntity, id, Removed, map[])] else []);
  }

  lemma UnreportedRow(cx: Context, stored: Rows, items: seq<Port>, g: Progress, id: int)
    requires Inv(cx, stored, items, g)
    requires id in Without(g.rows, Unclaimed(stored, cx.scan.connector, g.used)) ==> g.rows[id].connector != cx.scan.connector
    ensures id in g.rows ==> !Mine(cx, items, g.rows[id])
    ensures id in Unclaimed(stored, cx.scan.connector, g.used) <==> id in stored && stored[id].connector == cx.scan.connector
  {
    if id in g.rows && Mine(cx, items, g.rows[id]) {
      var i := ItemOfKey(items, g.rows[id].key);
      ReportedStays(cx, stored, items, g, i);
      ByKeyIs(g.rows, id);
    }
  }
}
