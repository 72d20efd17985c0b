/**
 The whole reconciliation engine on values (internal/engine/apply.go, Apply and PurgeGone), and what
 holds of the store after any run of scans and purges.
 */
module Engine {
  import opened Results
  import opened Store
  import opened Domain
  import ParentsFirst
  import Hosts
  import Services
  import Ports
  import Observed

  datatype Snapshot = Snapshot(
    hosts: seq<ParentsFirst.Host>, services: seq<Services.Service>, ports: seq<Ports.Port>, routes: seq<Route>,
    certs: seq<Cert>, domains: seq<DomainName>)

  datatype Db = Db(
    hosts: Hosts.Rows, services: Services.Rows, ports: Ports.Rows, routes: Observed.Rows<RouteData>,
    certs: Observed.Rows<CertData>, domains: Observed.Rows<DomainData>, log: seq<Change>)

  const EMPTY: Db := Db(map[], map[], map[], map[], map[], map[], [])

  datatype Error = HostUnnamed | ServiceUnnamed | PortUnknownService | RouteUnnamed | CertUnnamed | DomainUnnamed

  function ServiceContext(order: RowOrder, scan: Scan, hosts: map<string, int>, items: seq<Services.Service>): Services.Context {
    Services.Context(scan, hosts, Services.KeysOf(items), order)
  }

  predicate HostsOk(s: Snapshot) {
    forall i | 0 <= i < |s.hosts| :: Hosts.Reportable(s.hosts[i])
  }

  predicate ServicesOk(s: Snapshot) {
    forall i | 0 <= i < |s.services| :: Services.Reportable(s.services[i])
  }

  predicate RoutesOk(s: Snapshot) {
    forall i | 0 <= i < |s.routes| :: s.routes[i].key != ""
  }

  predicate CertsOk(s: Snapshot) {
    forall i | 0 <= i < |s.certs| :: CertItem(s.certs[i]).key != ""
  }

  predicate DomainsOk(s: Snapshot) {
    forall i | 0 <= i < |s.domains| :: DomainItem(s.domains[i]).key != ""
  }

  /** The hosts and services of a scan, with the ids they were given. */
  ghost function HostsOf(order: RowOrder, db: Db, scan: Scan, s: Snapshot): Hosts.Progress {
    Hosts.Applied(Hosts.Context(scan, order), db.hosts, db.log, s.hosts)
  }

  ghost function ServicesOf(order: RowOrder, db: Db, scan: Scan, s: Snapshot): Services.Progress
    requires Lists(order)
  {
    var h := HostsOf(order, db, scan, s);
    Services.Applied(ServiceContext(order, scan, h.ids, s.services), db.services, h.log, s.services)
  }

  ghost function PortContext(order: RowOrder, db: Db, scan: Scan, s: Snapshot): Ports.Context
    requires Lists(order)
  {
    Ports.Context(scan, HostsOf(order, db, scan, s).ids, ServicesOf(order, db, scan, s).ids, order)
  }

  /** One scan, or the error that rolls it back. */
  ghost function Apply(order: RowOrder, db: Db, scan: Scan, s: Snapshot): Result<Db, Error>
    requires Lists(order)
  {
    if !HostsOk(s) then Err(HostUnnamed)
    else if !ServicesOk(s) then Err(ServiceUnnamed)
    else
      var h, v, cx := HostsOf(order, db, scan, s), ServicesOf(order, db, scan, s), PortContext(order, db, scan, s);
      if !Ports.Resolvable(cx, s.ports) then Err(PortUnknownService)
      else
        var p := Ports.Applied(cx, db.ports, v.log, s.ports);
        if !RoutesOk(s) then Err(RouteUnnamed)
        else
          var r := Observed.Applied(Observed.Context(RouteEntity, scan, order), db.routes, p.log,
                                    RouteItems(scan.connector, v.rows, v.ids, s.routes));
          if !CertsOk(s) then Err(CertUnnamed)
          else
            var c := Observed.Applied(Observed.Context(CertEntity, scan, order), db.certs, r.log, CertItems(s.certs));
            if !DomainsOk(s) then Err(DomainUnnamed)
            else
              var d := Observed.Applied(Observed.Context(DomainEntity, scan, order), db.domains, c.log, DomainItems(s.domains));
              Ok(Db(h.rows, v.rows, p.rows, r.rows, c.rows, d.rows, d.log))
  }

  /** Deleting old gone rows, with what the foreign keys take along. */
  function Purge(db: Db, cutoff: int): Db {
    var hosts, services := Hosts.Purged(db.hosts, cutoff), PurgedRows(db.services, cutoff);
    Db(hosts,
       map id | id in services ::
         if services[id].data.host.Some? && services[id].data.host.value !in hosts
         then services[id].(data := services[id].data.(host := None)) else services[id],
       map id | id in db.ports && db.ports[id].service in services
                && (db.ports[id].host.Some? ==> db.ports[id].host.value in hosts) :: db.ports[id],
       PurgedRoutes(db.routes, services, cutoff),
       PurgedRows(db.certs, cutoff), PurgedRows(db.domains, cutoff), db.log)
  }

  function PurgedRoutes(routes: Observed.Rows<RouteData>, services: Services.Rows, cutoff: int): Observed.Rows<RouteData> {
    var kept := PurgedRows(routes, cutoff);
    map id | id in kept ::
      if kept[id].data.payload.service.Some? && kept[id].data.payload.service.value !in services
      then kept[id].(data := kept[id].data.(payload := kept[id].data.payload.(service := None))) else kept[id]
  }

  // ---------------------------------------------------------------------------
  // What every store keeps

  /** The keys of one connector's services, by row. */
  function KeyOf(services: Services.Rows, connector: int): map<int, string> {
    map id | id in services && services[id].connector == connector :: services[id].key
  }

  /** A port hangs off a service, and a host if any, of its own connector that are still there. */
  ghost predicate Anchored(hosts: Hosts.Rows, services: Services.Rows, p: Ports.PortRow) {
    && p.service in services
    && services[p.service].connector == p.connector
    && services[p.service].state != GONE
    && (p.host.Some? ==>
          p.host.value in hosts && hosts[p.host.value].connector == p.connector && hosts[p.host.value].state != GONE)
  }

  ghost predicate AllAnchored(hosts: Hosts.Rows, services: Services.Rows, ports: Ports.Rows) {
    forall id <- ports :: Anchored(hosts, services, ports[id])
  }

  ghost predicate AllTied(services: Services.Rows, ports: Ports.Rows) {
    forall c: int :: Ports.Tied(ports, c, KeyOf(services, c))
  }

  /** (connector, key) is unique in every table. */
  ghost predicate Keyed(db: Db) {
    Unique(db.hosts) && Unique(db.services) && Ports.Unique(db.ports) && Unique(db.routes) && Unique(db.certs) && Unique(db.domains)
  }

  ghost predicate Told(db: Db) {
    && Lawful(db.log)
    && Tells(db.hosts, db.log, HostEntity)
    && Tells(db.services, db.log, ServiceEntity)
    && Ports.Alive(db.ports, db.log)
    && Tells(db.routes, db.log, RouteEntity)
    && Tells(db.certs, db.log, CertEntity)
    && Tells(db.domains, db.log, DomainEntity)
  }

  /** Every link leads to a row that is there (a host's parent does because the links have no cycle). */
  ghost predicate Linked(hosts: Hosts.Rows, services: Services.Rows, routes: Observed.Rows<RouteData>) {
    && (forall id <- services :: services[id].data.host.Some? ==> services[id].data.host.value in hosts)
    && (forall id <- routes :: routes[id].data.payload.service.Some? ==> routes[id].data.payload.service.value in services)
  }

  /** Stored services have a key; a stored route's compared upstream is the one in its own columns. */
  ghost predicate Formed(services: Services.Rows, routes: Observed.Rows<RouteData>) {
    && (forall id <- services :: services[id].key != "")
    && (forall id <- routes :: RouteColumns(routes[id]))
  }

  ghost predicate Valid(db: Db) {
    && Keyed(db)
    && Formed(db.services, db.routes)
    && Hosts.Acyclic(db.hosts)
    && Linked(db.hosts, db.services, db.routes)
    && AllTied(db.services, db.ports)
    && AllAnchored(db.hosts, db.services, db.ports)
    && Told(db)
  }

  /** What connectors promise of a snapshot: no key twice, a protocol on every port, no service called gone. */
  ghost predicate WellFormed(s: Snapshot) {
    && ParentsFirst.Distinct(s.hosts)
    && Services.Distinct(s.services)
    && Services.NoneReportedGone(s.services)
    && Ports.Protocols(s.ports)
    && (forall i, j | 0 <= i < j < |s.routes| :: s.routes[i].key != s.routes[j].key)
    && (forall i, j | 0 <= i < j < |s.certs| :: CertItem(s.certs[i]).key != CertItem(s.certs[j]).key)
    && (forall i, j | 0 <= i < j < |s.domains| :: DomainItem(s.domains[i]).key != DomainItem(s.domains[j]).key)
  }

  lemma ItemsDistinct(s: Snapshot, connector: int, services: Services.Rows, ids: map<string, int>)
    requires WellFormed(s)
    ensures Observed.Distinct(RouteItems(connector, services, ids, s.routes))
    ensures Observed.Distinct(CertItems(s.certs)) && Observed.Distinct(DomainItems(s.domains))
  {
    Observed.DistinctPairs(RouteItems(connector, services, ids, s.routes));
    Observed.DistinctPairs(CertItems(s.certs));
    Observed.DistinctPairs(DomainItems(s.domains));
  }

  // ---------------------------------------------------------------------------
  // Services and ports fit together

  lemma ServicesLeave(order: RowOrder, db: Db, scan: Scan, s: Snapshot)
    requires Lists(order) && Unique(db.services) && Services.Distinct(s.services)
    ensures
      var h := HostsOf(order, db, scan, s);
      Services.After(ServiceContext(order, scan, h.ids, s.services), db.services, s.services, ServicesOf(order, db, scan, s))
  {
    var h := HostsOf(order, db, scan, s);
    Services.AppliedLeaves(ServiceContext(order, scan, h.ids, s.services), db.services, h.log, s.services);
  }

  lemma IdsInjective(cx: Services.Context, before: Services.Rows, items: seq<Services.Service>, v: Services.Progress, a: string, b: string)
    requires Services.After(cx, before, items, v) && a in v.ids && b in v.ids && v.ids[a] == v.ids[b]
    ensures a == b
  {
    IdHasKey(cx, before, items, v, a);
    IdHasKey(cx, before, items, v, b);
  }

  lemma IdHasKey(cx: Services.Context, before: Services.Rows, items: seq<Services.Service>, v: Services.Progress, k: string)
    requires Services.After(cx, before, items, v) && k in v.ids
    ensures v.ids[k] in v.rows && v.rows[v.ids[k]].key == k && v.rows[v.ids[k]].connector == cx.scan.connector
    ensures FindKey(before, cx.scan.connector, k).Some? ==> FindKey(before, cx.scan.connector, k) == Some(v.ids[k])
    ensures Services.NoneReportedGone(items) ==> v.rows[v.ids[k]].state != GONE
  {
    var i := Services.ItemOfKey(items, k);
    assert Services.Landed(cx, before, v, items[i]);
    assert Services.Origin(cx, before, v.ids, items[i], v.ids[k]);
  }

  /** What applyPorts relies on of applyServices. */
  lemma RekeyedHolds(order: RowOrder, db: Db, scan: Scan, s: Snapshot)
    requires Lists(order) && Unique(db.services) && Services.Distinct(s.services)
    ensures Ports.Rekeyed(PortContext(order, db, scan, s), KeyOf(db.services, scan.connector))
  {
    var h, v := HostsOf(order, db, scan, s), ServicesOf(order, db, scan, s);
    var cx, keyOf := ServiceContext(order, scan, h.ids, s.services), KeyOf(db.services, scan.connector);
    ServicesLeave(order, db, scan, s);
    forall a, b | a in v.ids && b in v.ids && v.ids[a] == v.ids[b] ensures a == b {
      IdsInjective(cx, db.services, s.services, v, a, b);
    }
    forall k <- v.ids ensures forall id <- keyOf :: keyOf[id] == k ==> v.ids[k] == id {
      forall id <- keyOf | keyOf[id] == k ensures v.ids[k] == id {
        FindKeyIs(db.services, id);
        IdHasKey(cx, db.services, s.services, v, k);
      }
    }
  }

  lemma KeysAfterHold(order: RowOrder, db: Db, scan: Scan, s: Snapshot)
    requires Lists(order) && Unique(db.services) && Services.Distinct(s.services)
    ensures Ports.KeysAfter(PortContext(order, db, scan, s), KeyOf(ServicesOf(order, db, scan, s).rows, scan.connector))
  {
    var h, v := HostsOf(order, db, scan, s), ServicesOf(order, db, scan, s);
    var cx := ServiceContext(order, scan, h.ids, s.services);
    ServicesLeave(order, db, scan, s);
    forall k <- v.ids ensures v.ids[k] in KeyOf(v.rows, scan.connector) && KeyOf(v.rows, scan.connector)[v.ids[k]] == k {
      IdHasKey(cx, db.services, s.services, v, k);
    }
  }

  lemma OthersKeepKeys(order: RowOrder, db: Db, scan: Scan, s: Snapshot, c: int)
    requires Lists(order) && Unique(db.services) && Services.Distinct(s.services) && c != scan.connector
    ensures KeyOf(ServicesOf(order, db, scan, s).rows, c) == KeyOf(db.services, c)
  {
    var h, v := HostsOf(order, db, scan, s), ServicesOf(order, db, scan, s);
    var cx := ServiceContext(order, scan, h.ids, s.services);
    ServicesLeave(order, db, scan, s);
    forall id | id in v.rows || id in db.services
      ensures id in KeyOf(v.rows, c) <==> id in KeyOf(db.services, c)
      ensures id in KeyOf(v.rows, c) ==> v.rows[id].key == db.services[id].key
    {
      if id in v.rows && !Claimed(cx.scan.connector, v.ids.Keys, v.rows[id]) {
        assert LeftBehind(cx.scan, db.services, id, v.rows[id]);
      } else if id in db.services {
        ClaimedWasMine(cx, db.services, s.services, v, id);
      }
    }
  }

  lemma ClaimedWasMine(cx: Services.Context, before: Services.Rows, items: seq<Services.Service>, v: Services.Progress, id: int)
    requires Services.After(cx, before, items, v) && id in before && id in v.rows
    requires Claimed(cx.scan.connector, v.ids.Keys, v.rows[id])
    ensures before[id].connector == cx.scan.connector
  {
    var i := Services.ItemOfKey(items, v.rows[id].key);
    assert Services.Landed(cx, before, v, items[i]);
    assert v.rows[v.ids[items[i].key]].key == v.rows[id].key;
    assert v.ids[items[i].key] == id;
    assert Services.Origin(cx, before, v.ids, items[i], id);
  }

  /** A port's tie to its service, scan after scan. */
  lemma ScanTies(order: RowOrder, db: Db, scan: Scan, s: Snapshot)
    requires Lists(order) && Unique(db.services) && Ports.Unique(db.ports) && AllTied(db.services, db.ports)
    requires Services.Distinct(s.services) && Ports.Protocols(s.ports)
    requires Ports.Resolvable(PortContext(order, db, scan, s), s.ports)
    ensures
      var v := ServicesOf(order, db, scan, s);
      AllTied(v.rows, Ports.Applied(PortContext(order, db, scan, s), db.ports, v.log, s.ports).rows)
  {
    var v, cx := ServicesOf(order, db, scan, s), PortContext(order, db, scan, s);
    var rows, keyOf := Ports.Applied(cx, db.ports, v.log, s.ports).rows, KeyOf(db.services, scan.connector);
    assert Ports.Tied(db.ports, scan.connector, keyOf);
    RekeyedHolds(order, db, scan, s);
    KeysAfterHold(order, db, scan, s);
    Ports.AppliedLeaves(cx, db.ports, v.log, keyOf, s.ports);
    forall c: int ensures Ports.Tied(rows, c, KeyOf(v.rows, c)) {
      if c == scan.connector {
        Ports.AppliedTies(cx, db.ports, v.log, keyOf, s.ports, KeyOf(v.rows, c));
      } else {
        OthersKeepKeys(order, db, scan, s, c);
        assert Ports.Tied(db.ports, c, KeyOf(db.services, c));
        OthersStayTied(cx, db.ports, Ports.Deduped(s.ports), rows, c, KeyOf(v.rows, c));
      }
    }
  }

  lemma OthersStayTied(cx: Ports.Context, stored: Ports.Rows, items: seq<Ports.Port>, rows: Ports.Rows, c: int, keyOf: map<int, string>)
    requires Ports.After(cx, stored, items, rows) && c != cx.scan.connector && Ports.Tied(stored, c, keyOf)
    ensures Ports.Tied(rows, c, keyOf)
  {
  }

  lemma HostsLeave(order: RowOrder, db: Db, scan: Scan, s: Snapshot)
    requires Unique(db.hosts) && ParentsFirst.Distinct(s.hosts)
    ensures Hosts.After(Hosts.Context(scan, order), db.hosts, ParentsFirst.Ordered(s.hosts), HostsOf(order, db, scan, s))
  {
    Hosts.AppliedLeaves(Hosts.Context(scan, order), db.hosts, db.log, s.hosts);
  }

  lemma HostIsLive(cx: Hosts.Context, before: Hosts.Rows, hs: seq<ParentsFirst.Host>, h: Hosts.Progress, k: string)
    requires Hosts.After(cx, before, hs, h) && k in h.ids
    ensures h.ids[k] in h.rows && h.rows[h.ids[k]].connector == cx.scan.connector && h.rows[h.ids[k]].state == ACTIVE
  {
    var i := ParentsFirst.HostOfKey(hs, k);
    assert Hosts.Landed(cx, before, hs, h, i);
  }

  lemma OtherHostKept(cx: Hosts.Context, before: Hosts.Rows, hs: seq<ParentsFirst.Host>, h: Hosts.Progress, id: int)
    requires Hosts.After(cx, before, hs, h) && id in before && before[id].connector != cx.scan.connector
    ensures id in h.rows && h.rows[id] == before[id]
  {
    if Claimed(cx.scan.connector, h.ids.Keys, h.rows[id]) {
      var i := ParentsFirst.HostOfKey(hs, h.rows[id].key);
      assert Hosts.Landed(cx, before, hs, h, i);
      FindKeyIs(h.rows, id);
      FindKeyIs(h.rows, h.ids[hs[i].key]);
    } else {
      assert LeftBehind(cx.scan, before, id, h.rows[id]);
    }
  }

  lemma OtherServiceKept(cx: Services.Context, before: Services.Rows, items: seq<Services.Service>, v: Services.Progress, id: int)
    requires Services.After(cx, before, items, v) && id in before && before[id].connector != cx.scan.connector
    ensures id in v.rows && v.rows[id] == before[id]
  {
    if Claimed(cx.scan.connector, v.ids.Keys, v.rows[id]) {
      ClaimedWasMine(cx, before, items, v, id);
    } else {
      assert LeftBehind(cx.scan, before, id, v.rows[id]);
    }
  }

  /** No scan leaves a port on a service or host that is gone. */
  lemma ScanAnchors(order: RowOrder, db: Db, scan: Scan, s: Snapshot)
    requires Lists(order) && Unique(db.hosts) && Unique(db.services) && Ports.Unique(db.ports) && AllTied(db.services, db.ports)
    requires AllAnchored(db.hosts, db.services, db.ports)
    requires ParentsFirst.Distinct(s.hosts) && Services.Distinct(s.services) && Services.NoneReportedGone(s.services)
    requires Ports.Protocols(s.ports) && Ports.Resolvable(PortContext(order, db, scan, s), s.ports)
    ensures
      var h, v := HostsOf(order, db, scan, s), ServicesOf(order, db, scan, s);
      AllAnchored(h.rows, v.rows, Ports.Applied(PortContext(order, db, scan, s), db.ports, v.log, s.ports).rows)
  {
    var h, v, cx := HostsOf(order, db, scan, s), ServicesOf(order, db, scan, s), PortContext(order, db, scan, s);
    var rows, keyOf := Ports.Applied(cx, db.ports, v.log, s.ports).rows, KeyOf(db.services, scan.connector);
    assert Ports.Tied(db.ports, scan.connector, keyOf);
    RekeyedHolds(order, db, scan, s);
    Ports.AppliedLeaves(cx, db.ports, v.log, keyOf, s.ports);
    HostsLeave(order, db, scan, s);
    ServicesLeave(order, db, scan, s);
    forall id <- rows ensures Anchored(h.rows, v.rows, rows[id]) {
      if rows[id].connector == scan.connector {
        OwnPortAnchored(order, db, scan, s, Ports.Deduped(s.ports), rows, id);
      } else {
        OtherPortAnchored(order, db, scan, s, rows[id]);
      }
    }
  }

  lemma OwnPortAnchored(order: RowOrder, db: Db, scan: Scan, s: Snapshot, ports: seq<Ports.Port>, rows: Ports.Rows, id: int)
    requires Lists(order) && Services.NoneReportedGone(s.services)
    requires Hosts.After(Hosts.Context(scan, order), db.hosts, ParentsFirst.Ordered(s.hosts), HostsOf(order, db, scan, s))
    requires Services.After(ServiceContext(order, scan, HostsOf(order, db, scan, s).ids, s.services), db.services, s.services,
                            ServicesOf(order, db, scan, s))
    requires Ports.After(PortContext(order, db, scan, s), db.ports, ports, rows)
    requires id in rows && rows[id].connector == scan.connector
    ensures Anchored(HostsOf(order, db, scan, s).rows, ServicesOf(order, db, scan, s).rows, rows[id])
  {
    var h, v, cx := HostsOf(order, db, scan, s), ServicesOf(order, db, scan, s), PortContext(order, db, scan, s);
    var i := Ports.ItemOfKey(ports, rows[id].key);
    assert Ports.Landed(cx, db.ports, rows, ports[i]);
    Ports.ByKeyIs(rows, id);
    IdHasKey(ServiceContext(order, scan, h.ids, s.services), db.services, s.services, v, ports[i].serviceKey);
    if ports[i].hostKey in h.ids {
      HostIsLive(Hosts.Context(scan, order), db.hosts, ParentsFirst.Ordered(s.hosts), h, ports[i].hostKey);
    }
  }

  lemma OtherPortAnchored(order: RowOrder, db: Db, scan: Scan, s: Snapshot, p: Ports.PortRow)
    requires Lists(order)
    requires Hosts.After(Hosts.Context(scan, order), db.hosts, ParentsFirst.Ordered(s.hosts), HostsOf(order, db, scan, s))
    requires Services.After(ServiceContext(order, scan, HostsOf(order, db, scan, s).ids, s.services), db.services, s.services,
                            ServicesOf(order, db, scan, s))
    requires Anchored(db.hosts, db.services, p) && p.connector != scan.connector
    ensures Anchored(HostsOf(order, db, scan, s).rows, ServicesOf(order, db, scan, s).rows, p)
  {
    var h, v := HostsOf(order, db, scan, s), ServicesOf(order, db, scan, s);
    OtherServiceKept(ServiceContext(order, scan, h.ids, s.services), db.services, s.services, v, p.service);
    if p.host.Some? {
      OtherHostKept(Hosts.Context(scan, order), db.hosts, ParentsFirst.Ordered(s.hosts), h, p.host.value);
    }
  }

  // ---------------------------------------------------------------------------
  // The feed over a whole scan

  /** The tables after a scan that went through, one by one. */
  lemma ApplyIs(order: RowOrder, db: Db, scan: Scan, s: Snapshot)
    requires Lists(order) && Apply(order, db, scan, s).Ok?
    ensures
      var h, v, cx := HostsOf(order, db, scan, s), ServicesOf(order, db, scan, s), PortContext(order, db, scan, s);
      Ports.Resolvable(cx, s.ports) &&
      var p := Ports.Applied(cx, db.ports, v.log, s.ports);
      var r := Observed.Applied(Observed.Context(RouteEntity, scan, order), db.routes, p.log,
                                RouteItems(scan.connector, v.rows, v.ids, s.routes));
      var c := Observed.Applied(Observed.Context(CertEntity, scan, order), db.certs, r.log, CertItems(s.certs));
      var d := Observed.Applied(Observed.Context(DomainEntity, scan, order), db.domains, c.log, DomainItems(s.domains));
      Apply(order, db, scan, s).value == Db(h.rows, v.rows, p.rows, r.rows, c.rows, d.rows, d.log)
  {
  }

  lemma HostsStepTells(db: Db, cx: Hosts.Context, items: seq<ParentsFirst.Host>)
    requires Told(db) && Lists(cx.order)
    ensures
      var h := Hosts.Applied(cx, db.hosts, db.log, items);
      Told(db.(hosts := h.rows, log := h.log)) && forall o | o != HostEntity :: SameStory(db.log, h.log, o)
  {
    var h := Hosts.Applied(cx, db.hosts, db.log, items);
    Hosts.HostsTell(cx, db.hosts, db.log, items);
    StillTells(db.services, db.log, h.log, ServiceEntity);
    Ports.StillAlive(db.ports, db.log, h.log);
    StillTells(db.routes, db.log, h.log, RouteEntity);
    StillTells(db.certs, db.log, h.log, CertEntity);
    StillTells(db.domains, db.log, h.log, DomainEntity);
  }

  lemma ServicesStepTells(db: Db, cx: Services.Context, items: seq<Services.Service>)
    requires Told(db) && Lists(cx.order) && Unique(db.services)
    requires Services.Distinct(items) && Services.NoneReportedGone(items) && cx.incoming == Services.KeysOf(items)
    ensures
      var v := Services.Applied(cx, db.services, db.log, items);
      Told(db.(services := v.rows, log := v.log)) && forall o | o != ServiceEntity :: SameStory(db.log, v.log, o)
  {
    var v := Services.Applied(cx, db.services, db.log, items);
    Services.ServicesTell(cx, db.services, db.log, items);
    StillTells(db.hosts, db.log, v.log, HostEntity);
    Ports.StillAlive(db.ports, db.log, v.log);
    StillTells(db.routes, db.log, v.log, RouteEntity);
    StillTells(db.certs, db.log, v.log, CertEntity);
    StillTells(db.domains, db.log, v.log, DomainEntity);
  }

  lemma PortsStepTells(db: Db, cx: Ports.Context, items: seq<Ports.Port>)
    requires Told(db) && Lists(cx.order) && Ports.Resolvable(cx, items)
    ensures
      var p := Ports.Applied(cx, db.ports, db.log, items);
      Told(db.(ports := p.rows, log := p.log)) && forall o | o != PortEntity :: SameStory(db.log, p.log, o)
  {
    var p := Ports.Applied(cx, db.ports, db.log, items);
    Ports.PortsTell(cx, db.ports, db.log, items);
    StillTells(db.hosts, db.log, p.log, HostEntity);
    StillTells(db.services, db.log, p.log, ServiceEntity);
    StillTells(db.routes, db.log, p.log, RouteEntity);
    StillTells(db.certs, db.log, p.log, CertEntity);
    StillTells(db.domains, db.log, p.log, DomainEntity);
  }

  lemma RoutesStepTells(db: Db, cx: Observed.Context, items: seq<Observed.Item<RouteData>>)
    requires Told(db) && Lists(cx.order) && cx.entity == RouteEntity
    ensures
      var r := Observed.Applied(cx, db.routes, db.log, items);
      Told(db.(routes := r.rows, log := r.log)) && forall o | o != RouteEntity :: SameStory(db.log, r.log, o)
  {
    var r := Observed.Applied(cx, db.routes, db.log, items);
    Observed.ObservedTell(cx, db.routes, db.log, items);
    StillTells(db.hosts, db.log, r.log, HostEntity);
    StillTells(db.services, db.log, r.log, ServiceEntity);
    Ports.StillAlive(db.ports, db.log, r.log);
    StillTells(db.certs, db.log, r.log, CertEntity);
    StillTells(db.domains, db.log, r.log, DomainEntity);
  }

  lemma CertsStepTells(db: Db, cx: Observed.Context, items: seq<Observed.Item<CertData>>)
    requires Told(db) && Lists(cx.order) && cx.entity == CertEntity
    ensures
      var c := Observed.Applied(cx, db.certs, db.log, items);
      Told(db.(certs := c.rows, log := c.log)) && forall o | o != CertEntity :: SameStory(db.log, c.log, o)
  {
    var c := Observed.Applied(cx, db.certs, db.log, items);
    Observed.ObservedTell(cx, db.certs, db.log, items);
    StillTells(db.hosts, db.log, c.log, HostEntity);
    StillTells(db.services, db.log, c.log, ServiceEntity);
    Ports.StillAlive(db.ports, db.log, c.log);
    StillTells(db.routes, db.log, c.log, RouteEntity);
    StillTells(db.domains, db.log, c.log, DomainEntity);
  }

  lemma DomainsStepTells(db: Db, cx: Observed.Context, items: seq<Observed.Item<DomainData>>)
    requires Told(db) && Lists(cx.order) && cx.entity == DomainEntity
    ensures
      var d := Observed.Applied(cx, db.domains, db.log, items);
      Told(db.(domains := d.rows, log := d.log)) && forall o | o != DomainEntity :: SameStory(db.log, d.log, o)
  {
    var d := Observed.Applied(cx, db.domains, db.log, items);
    Observed.ObservedTell(cx, db.domains, db.log, items);
    StillTells(db.hosts, db.log, d.log, HostEntity);
    StillTells(db.services, db.log, d.log, ServiceEntity);
    Ports.StillAlive(db.ports, db.log, d.log);
    StillTells(db.routes, db.log, d.log, RouteEntity);
    StillTells(db.certs, db.log, d.log, CertEntity);
  }

  lemma ScanTells(order: RowOrder, db: Db, scan: Scan, s: Snapshot)
    requires Lists(order) && Keyed(db) && Told(db) && Apply(order, db, scan, s).Ok?
    requires Services.Distinct(s.services) && Services.NoneReportedGone(s.services)
    ensures Ports.Resolvable(PortContext(order, db, scan, s), s.ports)
    ensures Told(Apply(order, db, scan, s).value)
    ensures forall o | o == ServiceEntity || o == PortEntity ::
      SameStory(db.log, HostsOf(order, db, scan, s).log, o) &&
      SameStory(Ports.Applied(PortContext(order, db, scan, s), db.ports, ServicesOf(order, db, scan, s).log, s.ports).log,
                Apply(order, db, scan, s).value.log, o)
  {
    hide Hosts.Applied, Services.Applied, Ports.Applied, Observed.Applied, Told;
    ApplyIs(order, db, scan, s);
    var h, v, cx := HostsOf(order, db, scan, s), ServicesOf(order, db, scan, s), PortContext(order, db, scan, s);
    HostsStepTells(db, Hosts.Context(scan, order), s.hosts);
    var db0 := db.(hosts := h.rows, log := h.log);
    ServicesStepTells(db0, ServiceContext(order, scan, h.ids, s.services), s.services);
    var db1 := db0.(services := v.rows, log := v.log);
    PortsStepTells(db1, cx, s.ports);
    var p := Ports.Applied(cx, db.ports, v.log, s.ports);
    var db2 := db1.(ports := p.rows, log := p.log);
    var items := RouteItems(scan.connector, v.rows, v.ids, s.routes);
    RoutesStepTells(db2, Observed.Context(RouteEntity, scan, order), items);
    var r := Observed.Applied(Observed.Context(RouteEntity, scan, order), db.routes, p.log, items);
    var db3 := db2.(routes := r.rows, log := r.log);
    CertsStepTells(db3, Observed.Context(CertEntity, scan, order), CertItems(s.certs));
    var c := Observed.Applied(Observed.Context(CertEntity, scan, order), db.certs, r.log, CertItems(s.certs));
    DomainsStepTells(db3.(certs := c.rows, log := c.log), Observed.Context(DomainEntity, scan, order), DomainItems(s.domains));
    var d := Observed.Applied(Observed.Context(DomainEntity, scan, order), db.domains, c.log, DomainItems(s.domains));
    forall o | o == ServiceEntity || o == PortEntity
      ensures SameStory(db.log, h.log, o) && SameStory(p.log, Apply(order, db, scan, s).value.log, o)
    {
      assert SameStory(p.log, r.log, o) && SameStory(r.log, c.log, o) && SameStory(c.log, d.log, o);
    }
  }

  // ---------------------------------------------------------------------------
  // Links, and what belongs to other connectors

  lemma ServiceLinks(order: RowOrder, db: Db, scan: Scan, s: Snapshot)
    requires Lists(order) && Keyed(db) && WellFormed(s) && Linked(db.hosts, db.services, db.routes)
    ensures
      var h, v := HostsOf(order, db, scan, s), ServicesOf(order, db, scan, s);
      forall id <- v.rows :: v.rows[id].data.host.Some? ==> v.rows[id].data.host.value in h.rows
  {
    var h, v := HostsOf(order, db, scan, s), ServicesOf(order, db, scan, s);
    var cx := ServiceContext(order, scan, h.ids, s.services);
    HostsLeave(order, db, scan, s);
    ServicesLeave(order, db, scan, s);
    forall id <- v.rows | v.rows[id].data.host.Some? ensures v.rows[id].data.host.value in h.rows {
      if Claimed(scan.connector, v.ids.Keys, v.rows[id]) {
        var i := Services.ItemOfKey(s.services, v.rows[id].key);
        assert Services.Landed(cx, db.services, v, s.services[i]);
        assert v.ids[s.services[i].key] == id;
        HostIsLive(Hosts.Context(scan, order), db.hosts, ParentsFirst.Ordered(s.hosts), h, s.services[i].hostKey);
      } else {
        assert LeftBehind(scan, db.services, id, v.rows[id]);
      }
    }
  }

  lemma ItemRow<P>(cx: Observed.Context, before: Observed.Rows<P>, items: seq<Observed.Item<P>>, rows: Observed.Rows<P>, id: int)
    returns (i: nat)
    requires Observed.After(cx, before, items, rows) && id in rows
    requires Claimed(cx.scan.connector, Observed.KeysOf(items), rows[id])
    ensures i < |items| && rows[id] == Observed.NewRow(cx, items[i])
    ensures id in before ==> before[id].connector == cx.scan.connector
  {
    i := Observed.ItemOfKey(items, rows[id].key);
    assert Observed.Landed(cx, before, rows, items[i]);
    FindKeyIs(rows, id);
  }

  lemma RouteLinks(cx: Observed.Context, connector: int, before: Observed.Rows<RouteData>, was: Services.Rows,
                   services: Services.Rows, ids: map<string, int>, rs: seq<Route>, rows: Observed.Rows<RouteData>)
    requires Observed.After(cx, before, RouteItems(connector, services, ids, rs), rows)
    requires was.Keys <= services.Keys && forall k <- ids :: ids[k] in services
    requires forall id <- before :: before[id].data.payload.service.Some? ==> before[id].data.payload.service.value in was
    ensures forall id <- rows :: rows[id].data.payload.service.Some? ==> rows[id].data.payload.service.value in services
  {
    var items := RouteItems(connector, services, ids, rs);
    forall id <- rows | rows[id].data.payload.service.Some? ensures rows[id].data.payload.service.value in services {
      if Claimed(cx.scan.connector, Observed.KeysOf(items), rows[id]) {
        var i := ItemRow(cx, before, items, rows, id);
        assert items[i] == RouteItem(connector, services, ids, rs[i]);
      } else {
        assert LeftBehind(cx.scan, before, id, rows[id]);
      }
    }
  }

  /** The routes pass of a scan that went through. */
  lemma RoutesLeave(order: RowOrder, db: Db, scan: Scan, s: Snapshot)
    requires Lists(order) && Keyed(db) && WellFormed(s) && Apply(order, db, scan, s).Ok?
    ensures
      var v, out := ServicesOf(order, db, scan, s), Apply(order, db, scan, s).value;
      && Observed.After(Observed.Context(RouteEntity, scan, order), db.routes, RouteItems(scan.connector, v.rows, v.ids, s.routes), out.routes)
      && Observed.After(Observed.Context(CertEntity, scan, order), db.certs, CertItems(s.certs), out.certs)
      && Observed.After(Observed.Context(DomainEntity, scan, order), db.domains, DomainItems(s.domains), out.domains)
  {
    hide Hosts.Applied, Services.Applied, Ports.Applied, Observed.Applied, Ports.Resolvable;
    ApplyIs(order, db, scan, s);
    var v := ServicesOf(order, db, scan, s);
    ItemsDistinct(s, scan.connector, v.rows, v.ids);
    var p := Ports.Applied(PortContext(order, db, scan, s), db.ports, v.log, s.ports);
    var items := RouteItems(scan.connector, v.rows, v.ids, s.routes);
    Observed.AppliedLeaves(Observed.Context(RouteEntity, scan, order), db.routes, p.log, items);
    var r := Observed.Applied(Observed.Context(RouteEntity, scan, order), db.routes, p.log, items);
    Observed.AppliedLeaves(Observed.Context(CertEntity, scan, order), db.certs, r.log, CertItems(s.certs));
    var c := Observed.Applied(Observed.Context(CertEntity, scan, order), db.certs, r.log, CertItems(s.certs));
    Observed.AppliedLeaves(Observed.Context(DomainEntity, scan, order), db.domains, c.log, DomainItems(s.domains));
  }

  lemma ScanKeys(order: RowOrder, db: Db, scan: Scan, s: Snapshot)
    requires Lists(order) && Keyed(db) && AllTied(db.services, db.ports) && WellFormed(s) && Apply(order, db, scan, s).Ok?
    ensures Keyed(Apply(order, db, scan, s).value)
  {
    ApplyIs(order, db, scan, s);
    var v, cx := ServicesOf(order, db, scan, s), PortContext(order, db, scan, s);
    HostsLeave(order, db, scan, s);
    ServicesLeave(order, db, scan, s);
    RekeyedHolds(order, db, scan, s);
    assert Ports.Tied(db.ports, scan.connector, KeyOf(db.services, scan.connector));
    Ports.AppliedLeaves(cx, db.ports, v.log, KeyOf(db.services, scan.connector), s.ports);
    RoutesLeave(order, db, scan, s);
  }

  lemma ScanLinks(order: RowOrder, db: Db, scan: Scan, s: Snapshot)
    requires Lists(order) && Keyed(db) && WellFormed(s) && Linked(db.hosts, db.services, db.routes) && Apply(order, db, scan, s).Ok?
    ensures
      var out := Apply(order, db, scan, s).value;
      Linked(out.hosts, out.services, out.routes)
  {
    hide Hosts.Applied, Services.Applied, Ports.Applied, Observed.Applied, Ports.Resolvable, WellFormed;
    var v := ServicesOf(order, db, scan, s);
    ApplyIs(order, db, scan, s);
    ServiceLinks(order, db, scan, s);
    RoutesLeave(order, db, scan, s);
    assert Services.Distinct(s.services) by { ServicesDistinct(s); }
    ServicesLeave(order, db, scan, s);
    forall k <- v.ids ensures v.ids[k] in v.rows {
      IdHasKey(ServiceContext(order, scan, HostsOf(order, db, scan, s).ids, s.services), db.services, s.services, v, k);
    }
    RouteLinks(Observed.Context(RouteEntity, scan, order), scan.connector, db.routes, db.services, v.rows, v.ids, s.routes,
               Apply(order, db, scan, s).value.routes);
  }

  lemma ServicesNamed(order: RowOrder, db: Db, scan: Scan, s: Snapshot)
    requires Lists(order) && Keyed(db) && Services.Distinct(s.services) && ServicesOk(s)
    requires forall id <- db.services :: db.services[id].key != ""
    ensures forall id <- ServicesOf(order, db, scan, s).rows :: ServicesOf(order, db, scan, s).rows[id].key != ""
  {
    var v := ServicesOf(order, db, scan, s);
    ServicesLeave(order, db, scan, s);
    forall id <- v.rows ensures v.rows[id].key != "" {
      if Claimed(scan.connector, v.ids.Keys, v.rows[id]) {
        var i := Services.ItemOfKey(s.services, v.rows[id].key);
        assert Services.Reportable(s.services[i]);
      } else {
        assert LeftBehind(scan, db.services, id, v.rows[id]);
      }
    }
  }

  lemma RoutesFormed(cx: Observed.Context, before: Observed.Rows<RouteData>, connector: int, services: Services.Rows,
                     ids: map<string, int>, rs: seq<Route>, rows: Observed.Rows<RouteData>)
    requires Observed.After(cx, before, RouteItems(connector, services, ids, rs), rows)
    requires forall id <- before :: RouteColumns(before[id])
    ensures forall id <- rows :: RouteColumns(rows[id])
  {
    var items := RouteItems(connector, services, ids, rs);
    forall id <- rows ensures RouteColumns(rows[id]) {
      if Claimed(cx.scan.connector, Observed.KeysOf(items), rows[id]) {
        var i := ItemRow(cx, before, items, rows, id);
        assert items[i] == RouteItem(connector, services, ids, rs[i]);
      } else {
        assert LeftBehind(cx.scan, before, id, rows[id]);
        assert RouteColumns(before[id]);
      }
    }
  }

  lemma ScanForms(order: RowOrder, db: Db, scan: Scan, s: Snapshot)
    requires Lists(order) && Keyed(db) && WellFormed(s) && Formed(db.services, db.routes) && Apply(order, db, scan, s).Ok?
    ensures
      var out := Apply(order, db, scan, s).value;
      Formed(out.services, out.routes)
  {
    hide Hosts.Applied, Services.Applied, Ports.Applied, Observed.Applied, Ports.Resolvable, WellFormed, RouteColumns;
    ApplyIs(order, db, scan, s);
    ServicesDistinct(s);
    ServicesNamed(order, db, scan, s);
    RoutesLeave(order, db, scan, s);
    var v := ServicesOf(order, db, scan, s);
    RoutesFormed(Observed.Context(RouteEntity, scan, order), db.routes, scan.connector, v.rows, v.ids, s.routes,
                 Apply(order, db, scan, s).value.routes);
  }

  lemma ServicesDistinct(s: Snapshot)
    requires WellFormed(s)
    ensures Services.Distinct(s.services) && ParentsFirst.Distinct(s.hosts) && Ports.Protocols(s.ports)
  {
  }

  /** Between two tables no row of another connector came, went or changed. */
  ghost predicate OthersKept<D>(before: map<int, Row<D>>, after: map<int, Row<D>>, connector: int) {
    && (forall id <- before :: before[id].connector != connector ==> id in after && after[id] == before[id])
    && (forall id <- after :: after[id].connector != connector ==> id in before && after[id] == before[id])
  }

  ghost predicate OtherPortsKept(before: Ports.Rows, after: Ports.Rows, connector: int) {
    && (forall id <- before :: before[id].connector != connector ==> id in after && after[id] == before[id])
    && (forall id <- after :: after[id].connector != connector ==> id in before && after[id] == before[id])
  }

  lemma OtherItemsKept<P>(cx: Observed.Context, before: Observed.Rows<P>, items: seq<Observed.Item<P>>, rows: Observed.Rows<P>)
    requires Observed.After(cx, before, items, rows)
    ensures OthersKept(before, rows, cx.scan.connector)
  {
    forall id <- rows ensures id in before && before[id].connector != cx.scan.connector ==> rows[id] == before[id]
      ensures rows[id].connector != cx.scan.connector ==> id in before && rows[id] == before[id]
    {
      if Claimed(cx.scan.connector, Observed.KeysOf(items), rows[id]) {
        var i := ItemRow(cx, before, items, rows, id);
      } else {
        assert LeftBehind(cx.scan, before, id, rows[id]);
      }
    }
  }

  lemma OtherInventoryKept(order: RowOrder, db: Db, scan: Scan, s: Snapshot)
    requires Lists(order) && Keyed(db) && WellFormed(s)
    ensures OthersKept(db.hosts, HostsOf(order, db, scan, s).rows, scan.connector)
    ensures OthersKept(db.services, ServicesOf(order, db, scan, s).rows, scan.connector)
  {
    var h, v := HostsOf(order, db, scan, s), ServicesOf(order, db, scan, s);
    HostsLeave(order, db, scan, s);
    ServicesLeave(order, db, scan, s);
    forall id <- db.hosts | db.hosts[id].connector != scan.connector ensures id in h.rows && h.rows[id] == db.hosts[id] {
      OtherHostKept(Hosts.Context(scan, order), db.hosts, ParentsFirst.Ordered(s.hosts), h, id);
    }
    forall id <- db.services | db.services[id].connector != scan.connector ensures id in v.rows && v.rows[id] == db.services[id] {
      OtherServiceKept(ServiceContext(order, scan, h.ids, s.services), db.services, s.services, v, id);
    }
    forall id <- h.rows | h.rows[id].connector != scan.connector ensures id in db.hosts && h.rows[id] == db.hosts[id] {
      assert LeftBehind(scan, db.hosts, id, h.rows[id]);
    }
    forall id <- v.rows | v.rows[id].connector != scan.connector ensures id in db.services && v.rows[id] == db.services[id] {
      assert LeftBehind(scan, db.services, id, v.rows[id]);
    }
  }

  /** A scan touches nothing of what other connectors reported, in any table. */
  lemma ScanKeepsOthers(order: RowOrder, db: Db, scan: Scan, s: Snapshot)
    requires Lists(order) && Valid(db) && WellFormed(s) && Apply(order, db, scan, s).Ok?
    ensures
      var out := Apply(order, db, scan, s).value;
      && OthersKept(db.hosts, out.hosts, scan.connector) && OthersKept(db.services, out.services, scan.connector)
      && OtherPortsKept(db.ports, out.ports, scan.connector) && OthersKept(db.routes, out.routes, scan.connector)
      && OthersKept(db.certs, out.certs, scan.connector) && OthersKept(db.domains, out.domains, scan.connector)
  {
    hide Hosts.Applied, Services.Applied, Ports.Applied, Observed.Applied, WellFormed, Observed.After, OthersKept;
    var v, out := ServicesOf(order, db, scan, s), Apply(order, db, scan, s).value;
    ApplyIs(order, db, scan, s);
    ServicesDistinct(s);
    OtherInventoryKept(order, db, scan, s);
    RekeyedHolds(order, db, scan, s);
    assert Ports.Tied(db.ports, scan.connector, KeyOf(db.services, scan.connector));
    Ports.AppliedLeaves(PortContext(order, db, scan, s), db.ports, v.log, KeyOf(db.services, scan.connector), s.ports);
    RoutesLeave(order, db, scan, s);
    OtherItemsKept(Observed.Context(RouteEntity, scan, order), db.routes, RouteItems(scan.connector, v.rows, v.ids, s.routes), out.routes);
    OtherItemsKept(Observed.Context(CertEntity, scan, order), db.certs, CertItems(s.certs), out.certs);
    OtherItemsKept(Observed.Context(DomainEntity, scan, order), db.domains, DomainItems(s.domains), out.domains);
  }

  /** A scan that goes through keeps everything the store promises. */
  lemma ScanKeepsValid(order: RowOrder, db: Db, scan: Scan, s: Snapshot)
    requires Lists(order) && Valid(db) && WellFormed(s) && Apply(order, db, scan, s).Ok?
    ensures Valid(Apply(order, db, scan, s).value)
  {
    ApplyIs(order, db, scan, s);
    ScanKeys(order, db, scan, s);
    Hosts.ScanKeepsAcyclic(Hosts.Context(scan, order), db.hosts, db.log, s.hosts);
    ScanLinks(order, db, scan, s);
    ScanForms(order, db, scan, s);
    ScanTies(order, db, scan, s);
    ScanAnchors(order, db, scan, s);
    ScanTells(order, db, scan, s);
  }

  predicate Reports(s: Snapshot, key: string) {
    exists j :: 0 <= j < |s.services| && s.services[j].key == key
  }

  /** Everything a snapshot names is named, and its ports belong to its services. */
  ghost predicate Nameable(s: Snapshot) {
    && (forall i | 0 <= i < |s.hosts| :: s.hosts[i].key != "" && s.hosts[i].name != "")
    && (forall i | 0 <= i < |s.services| :: s.services[i].key != "" && s.services[i].name != "")
    && (forall i | 0 <= i < |s.ports| :: Reports(s, s.ports[i].serviceKey))
    && (forall i | 0 <= i < |s.routes| :: s.routes[i].key != "")
    && (forall i | 0 <= i < |s.certs| :: s.certs[i].key != "" || s.certs[i].endpoint != "")
    && (forall i | 0 <= i < |s.domains| :: s.domains[i].key != "" || s.domains[i].name != "")
  }

  /** A scan goes through exactly if everything in it is named and no port belongs to a service it does not report. */
  lemma GoesThroughExactly(order: RowOrder, db: Db, scan: Scan, s: Snapshot)
    requires Lists(order) && Keyed(db) && Services.Distinct(s.services)
    ensures Apply(order, db, scan, s).Ok? <==> Nameable(s)
  {
    hide Hosts.Applied, Services.Applied, Ports.Applied, Observed.Applied, Ports.Resolvable, Keyed;
    assert ServicesOf(order, db, scan, s).ids.Keys == Services.KeysOf(s.services) by { ServicesUnique(db); ServicesLeave(order, db, scan, s); }
    KnownServices(order, db, scan, s);
    OkWhen(order, db, scan, s);
    hide Apply, PortContext;
    assert CertsOk(s) <==> forall i | 0 <= i < |s.certs| :: s.certs[i].key != "" || s.certs[i].endpoint != "";
    assert DomainsOk(s) <==> forall i | 0 <= i < |s.domains| :: s.domains[i].key != "" || s.domains[i].name != "";
  }

  lemma ServicesUnique(db: Db)
    requires Keyed(db)
    ensures Unique(db.services)
  {
  }

  lemma OkWhen(order: RowOrder, db: Db, scan: Scan, s: Snapshot)
    requires Lists(order)
    ensures Apply(order, db, scan, s).Ok? <==>
      HostsOk(s) && ServicesOk(s) && Ports.Resolvable(PortContext(order, db, scan, s), s.ports) && RoutesOk(s) && CertsOk(s) && DomainsOk(s)
  {
    hide Hosts.Applied, Services.Applied, Ports.Applied, Observed.Applied, Ports.Resolvable;
  }

  lemma KnownServices(order: RowOrder, db: Db, scan: Scan, s: Snapshot)
    requires Lists(order) && ServicesOf(order, db, scan, s).ids.Keys == Services.KeysOf(s.services)
    ensures Ports.Resolvable(PortContext(order, db, scan, s), s.ports) <==>
      forall i | 0 <= i < |s.ports| :: Reports(s, s.ports[i].serviceKey)
  {
    hide Services.Applied, Hosts.Applied;
    var cx := PortContext(order, db, scan, s);
    assert cx.services.Keys == Services.KeysOf(s.services);
    forall i | 0 <= i < |s.ports|
      ensures s.ports[i].serviceKey in cx.services <==>
        Reports(s, s.ports[i].serviceKey)
    {
      if s.ports[i].serviceKey in Services.KeysOf(s.services) {
        var j := Services.ItemOfKey(s.services, s.ports[i].serviceKey);
      }
      if j :| 0 <= j < |s.services| && s.services[j].key == s.ports[i].serviceKey {
        Services.KeyOfItem(s.services, j);
      }
    }
  }

  // ---------------------------------------------------------------------------
  // Purges

  /** Because no port hangs off anything gone, a purge deletes gone rows only: no port goes with them. */
  lemma PurgeTakesNoPort(db: Db, cutoff: int)
    requires Valid(db)
    ensures Purge(db, cutoff).ports == db.ports
  {
    forall id <- db.ports
      ensures db.ports[id].service in PurgedRows(db.services, cutoff)
      ensures db.ports[id].host.Some? ==> db.ports[id].host.value in Hosts.Purged(db.hosts, cutoff)
    {
      assert Anchored(db.hosts, db.services, db.ports[id]);
    }
  }

  /** By the feed the row was removed before the cutoff. */
  predicate Lapsed(log: seq<Change>, e: Entity, id: int, cutoff: int) {
    var last := Last(log, e, id);
    last.Some? && last.value.kind == Removed && last.value.at < cutoff
  }

  /** A link to a row of kind `e`, cut if that row has lapsed. */
  function Cut(link: Option<int>, log: seq<Change>, e: Entity, cutoff: int): Option<int> {
    if link.Some? && Lapsed(log, e, link.value, cutoff) then None else link
  }

  lemma LapsedGo<D>(rows: map<int, Row<D>>, log: seq<Change>, e: Entity, cutoff: int)
    requires Tells(rows, log, e)
    ensures forall id :: id in PurgedRows(rows, cutoff) <==> id in rows && !Lapsed(log, e, id, cutoff)
  {
    forall id <- rows ensures Lapsed(log, e, id, cutoff) <==> rows[id].state == GONE && rows[id].updatedAt < cutoff {
      assert LastWord(rows[id], Last(log, e, id).value);
    }
  }

  /**
   A purge deletes exactly the rows whose removal was filed before the cutoff, cuts exactly the links to
   them, and changes nothing else in any table; nothing is filed.
   */
  lemma PurgeDeletesExactly(db: Db, cutoff: int)
    requires Valid(db)
    ensures
      var after, log := Purge(db, cutoff), db.log;
      && (forall id :: id in after.hosts <==> id in db.hosts && !Lapsed(log, HostEntity, id, cutoff))
      && (forall id :: id in after.services <==> id in db.services && !Lapsed(log, ServiceEntity, id, cutoff))
      && (forall id :: id in after.routes <==> id in db.routes && !Lapsed(log, RouteEntity, id, cutoff))
      && (forall id :: id in after.certs <==> id in db.certs && !Lapsed(log, CertEntity, id, cutoff))
      && (forall id :: id in after.domains <==> id in db.domains && !Lapsed(log, DomainEntity, id, cutoff))
      && (forall id <- after.hosts :: after.hosts[id]
            == db.hosts[id].(data := db.hosts[id].data.(parent := Cut(db.hosts[id].data.parent, log, HostEntity, cutoff))))
      && (forall id <- after.services :: after.services[id]
            == db.services[id].(data := db.services[id].data.(host := Cut(db.services[id].data.host, log, HostEntity, cutoff))))
      && (forall id <- after.routes ::
            var d := db.routes[id].data;
            after.routes[id] == db.routes[id].(data := d.(payload := d.payload.(service := Cut(d.payload.service, log, ServiceEntity, cutoff)))))
      && (forall id <- after.certs :: after.certs[id] == db.certs[id])
      && (forall id <- after.domains :: after.domains[id] == db.domains[id])
      && after.ports == db.ports && after.log == log
  {
    PurgeTakesNoPort(db, cutoff);
    LapsedGo(db.hosts, db.log, HostEntity, cutoff);
    LapsedGo(db.services, db.log, ServiceEntity, cutoff);
    LapsedGo(db.routes, db.log, RouteEntity, cutoff);
    LapsedGo(db.certs, db.log, CertEntity, cutoff);
    LapsedGo(db.domains, db.log, DomainEntity, cutoff);
    ParentsCut(db, cutoff);
    HostsCut(db, cutoff);
    ServicesCut(db, cutoff);
    hide Lapsed, Cut, Valid;
  }

  lemma ParentsCut(db: Db, cutoff: int)
    requires Hosts.Acyclic(db.hosts) && Tells(db.hosts, db.log, HostEntity)
    ensures forall id <- Purge(db, cutoff).hosts ::
      Purge(db, cutoff).hosts[id] == db.hosts[id].(data := db.hosts[id].data.(parent := Cut(db.hosts[id].data.parent, db.log, HostEntity, cutoff)))
  {
    hide Lapsed;
    LapsedGo(db.hosts, db.log, HostEntity, cutoff);
    Hosts.ParentsExist(db.hosts);
  }

  lemma HostsCut(db: Db, cutoff: int)
    requires Linked(db.hosts, db.services, db.routes) && Tells(db.hosts, db.log, HostEntity)
    ensures forall id <- Purge(db, cutoff).services ::
      Purge(db, cutoff).services[id] == db.services[id].(data := db.services[id].data.(host := Cut(db.services[id].data.host, db.log, HostEntity, cutoff)))
  {
    hide Lapsed;
    LapsedGo(db.hosts, db.log, HostEntity, cutoff);
  }

  lemma ServicesCut(db: Db, cutoff: int)
    requires Linked(db.hosts, db.services, db.routes) && Tells(db.services, db.log, ServiceEntity)
    ensures forall id <- Purge(db, cutoff).routes ::
      var d := db.routes[id].data;
      Purge(db, cutoff).routes[id]
      == db.routes[id].(data := d.(payload := d.payload.(service := Cut(d.payload.service, db.log, ServiceEntity, cutoff))))
  {
    hide Lapsed;
    LapsedGo(db.services, db.log, ServiceEntity, cutoff);
  }

  lemma PurgeKeepsAnchors(db: Db, cutoff: int)
    requires AllAnchored(db.hosts, db.services, db.ports)
    ensures AllAnchored(Purge(db, cutoff).hosts, Purge(db, cutoff).services, db.ports)
  {
    forall id <- db.ports ensures Anchored(Purge(db, cutoff).hosts, Purge(db, cutoff).services, db.ports[id]) {
      assert Anchored(db.hosts, db.services, db.ports[id]);
    }
  }

  lemma PurgeKeepsTie(db: Db, after: Services.Rows, c: int)
    requires Ports.Tied(db.ports, c, KeyOf(db.services, c))
    requires after.Keys <= db.services.Keys
    requires forall id <- after :: after[id].key == db.services[id].key && after[id].connector == db.services[id].connector
    requires forall id <- db.ports :: db.ports[id].service in after
    ensures Ports.Tied(db.ports, c, KeyOf(after, c))
  {
    var was, now := KeyOf(db.services, c), KeyOf(after, c);
    forall i, j | i in now && j in now && now[i] == now[j] ensures i == j {
      assert i in was && j in was && was[i] == was[j];
    }
  }

  lemma PurgeKeepsTies(db: Db, cutoff: int)
    requires AllTied(db.services, db.ports) && AllAnchored(db.hosts, db.services, db.ports)
    ensures AllTied(Purge(db, cutoff).services, db.ports)
  {
    var after := Purge(db, cutoff).services;
    forall id <- db.ports ensures db.ports[id].service in after {
      assert Anchored(db.hosts, db.services, db.ports[id]);
    }
    forall c: int ensures Ports.Tied(db.ports, c, KeyOf(after, c)) {
      assert Ports.Tied(db.ports, c, KeyOf(db.services, c));
      PurgeKeepsTie(db, after, c);
    }
  }

  lemma PurgeKeepsKeyed(db: Db, cutoff: int)
    requires Keyed(db)
    ensures Keyed(Purge(db, cutoff))
  {
  }

  lemma SameStates<D>(a: map<int, Row<D>>, b: map<int, Row<D>>, log: seq<Change>, e: Entity)
    requires a.Keys == b.Keys && forall id <- a :: a[id].state == b[id].state && a[id].updatedAt == b[id].updatedAt
    ensures Tells(a, log, e) ==> Tells(b, log, e)
  {
  }

  lemma PurgeKeepsTold(db: Db, cutoff: int)
    requires Told(db)
    ensures Told(Purge(db, cutoff).(ports := db.ports))
  {
    var after := Purge(db, cutoff);
    SameStates(PurgedRows(db.hosts, cutoff), after.hosts, db.log, HostEntity);
    SameStates(PurgedRows(db.services, cutoff), after.services, db.log, ServiceEntity);
    SameStates(PurgedRows(db.routes, cutoff), after.routes, db.log, RouteEntity);
    PurgeTells(db.hosts, db.log, HostEntity, cutoff);
    PurgeTells(db.services, db.log, ServiceEntity, cutoff);
    PurgeTells(db.routes, db.log, RouteEntity, cutoff);
    PurgeTells(db.certs, db.log, CertEntity, cutoff);
    PurgeTells(db.domains, db.log, DomainEntity, cutoff);
  }

  lemma PurgeKeepsLinks(db: Db, cutoff: int)
    ensures Linked(Purge(db, cutoff).hosts, Purge(db, cutoff).services, Purge(db, cutoff).routes)
  {
  }

  lemma PurgeKeepsForm(db: Db, cutoff: int)
    requires Formed(db.services, db.routes)
    ensures Formed(Purge(db, cutoff).services, Purge(db, cutoff).routes)
  {
    var after := Purge(db, cutoff);
    forall id <- after.routes ensures RouteColumns(after.routes[id]) {
      assert RouteColumns(db.routes[id]);
    }
  }

  lemma PurgeKeepsValid(db: Db, cutoff: int)
    requires Valid(db)
    ensures Valid(Purge(db, cutoff))
  {
    hide Keyed, Linked, Formed, Told, Hosts.Acyclic, AllTied, AllAnchored, PurgedRoutes;
    PurgeTakesNoPort(db, cutoff);
    PurgeKeepsKeyed(db, cutoff);
    PurgeKeepsAnchors(db, cutoff);
    PurgeKeepsTies(db, cutoff);
    PurgeKeepsTold(db, cutoff);
    PurgeKeepsLinks(db, cutoff);
    PurgeKeepsForm(db, cutoff);
    Hosts.PurgeKeepsAcyclic(db.hosts, cutoff);
  }

  // ---------------------------------------------------------------------------
  // Whole runs

  datatype Event = Scanned(scan: Scan, snapshot: Snapshot) | Purged(cutoff: int)

  /** The store after one event: a scan that fails is rolled back. */
  ghost function After(order: RowOrder, db: Db, e: Event): Db
    requires Lists(order)
  {
    match e
    case Scanned(scan, s) => (match Apply(order, db, scan, s) case Ok(next) => next case Err(_) => db)
    case Purged(cutoff) => Purge(db, cutoff)
  }

  ghost function Run(order: RowOrder, es: seq<Event>): Db
    requires Lists(order)
  {
    if |es| == 0 then EMPTY else After(order, Run(order, es[..|es| - 1]), es[|es| - 1])
  }

  lemma EmptyIsValid()
    ensures Valid(EMPTY)
  {
    assert Hosts.Ranked(EMPTY.hosts, map[]);
    forall c: int ensures Ports.Tied(EMPTY.ports, c, KeyOf(EMPTY.services, c)) {
    }
  }

  /**
   After any run of scans by any connectors and purges: keys are unique, the parent links have
   no cycle, every port's key is its service's key and its own tuple, no port hangs off anything
   gone, and the feed's last entry about a row is a removal exactly when the row is gone.
   */
  lemma {:induction false} EveryRunIsValid(order: RowOrder, es: seq<Event>)
    requires Lists(order) && forall i | 0 <= i < |es| :: es[i].Scanned? ==> WellFormed(es[i].snapshot)
    ensures Valid(Run(order, es))
  {
    if |es| == 0 {
      EmptyIsValid();
    } else {
      var db, e := Run(order, es[..|es| - 1]), es[|es| - 1];
      EveryRunIsValid(order, es[..|es| - 1]);
      match e
      case Scanned(scan, s) =>
        if Apply(order, db, scan, s).Ok? {
          ScanKeepsValid(order, db, scan, s);
        }
      case Purged(cutoff) => PurgeKeepsValid(db, cutoff);
    }
  }

  // ---------------------------------------------------------------------------
  // Applying a snapshot twice

  /** The same store, give or take the times rows were last written. */
  ghost predicate SameStore(a: Db, b: Db) {
    && SameRows(a.hosts, b.hosts)
    && SameRows(a.services, b.services)
    && a.ports == b.ports
    && SameRows(a.routes, b.routes)
    && SameRows(a.certs, b.certs)
    && SameRows(a.domains, b.domains)
    && a.log == b.log
  }

  lemma TwiceHostsAndServices(order: RowOrder, db: Db, scan: Scan, s: Snapshot, scan2: Scan, db1: Db)
    requires Lists(order) && Valid(db) && WellFormed(s) && scan2.connector == scan.connector
    requires db1.hosts == HostsOf(order, db, scan, s).rows && db1.services == ServicesOf(order, db, scan, s).rows
    ensures
      var h2, v2 := HostsOf(order, db1, scan2, s), ServicesOf(order, db1, scan2, s);
      h2.ids == HostsOf(order, db, scan, s).ids && SameRows(db1.hosts, h2.rows) &&
      v2.ids == ServicesOf(order, db, scan, s).ids && v2.log == db1.log && SameRows(db1.services, v2.rows)
  {
    var h := HostsOf(order, db, scan, s);
    Hosts.HostsRescan(Hosts.Context(scan, order), Hosts.Context(scan2, order), db.hosts, db.log, s.hosts, db1.log);
    Services.ServicesRescan(ServiceContext(order, scan, h.ids, s.services), ServiceContext(order, scan2, h.ids, s.services),
                            db.services, h.log, s.services, db1.log);
  }

  lemma SameRouteItems(connector: int, a: Services.Rows, b: Services.Rows, ids: map<string, int>, rs: seq<Route>)
    requires SameRows(a, b)
    ensures RouteItems(connector, a, ids, rs) == RouteItems(connector, b, ids, rs)
  {
    forall i | 0 <= i < |rs| ensures RouteItem(connector, a, ids, rs[i]) == RouteItem(connector, b, ids, rs[i]) {
      var ref := rs[i].resolved;
      SameRowsFind(a, b, if ref.connector == 0 then connector else ref.connector, ref.key);
    }
  }

  lemma TwicePorts(order: RowOrder, db: Db, scan: Scan, s: Snapshot, scan2: Scan, db1: Db)
    requires Lists(order) && Valid(db) && WellFormed(s) && scan2.connector == scan.connector
    requires db1.hosts == HostsOf(order, db, scan, s).rows && db1.services == ServicesOf(order, db, scan, s).rows
    requires Unique(db1.services)
    requires Ports.Resolvable(PortContext(order, db, scan, s), s.ports)
    requires db1.ports == Ports.Applied(PortContext(order, db, scan, s), db.ports, ServicesOf(order, db, scan, s).log, s.ports).rows
    ensures Ports.Resolvable(PortContext(order, db1, scan2, s), s.ports)
    ensures Ports.Applied(PortContext(order, db1, scan2, s), db1.ports, db1.log, s.ports) == Ports.Outcome(db1.ports, db1.log)
  {
    TwiceHostsAndServices(order, db, scan, s, scan2, db1);
    RekeyedHolds(order, db, scan, s);
    KeysAfterHold(order, db, scan, s);
    RekeyedHolds(order, db1, scan2, s);
    assert Ports.Tied(db.ports, scan.connector, KeyOf(db.services, scan.connector));
    Ports.PortsRescan(PortContext(order, db, scan, s), PortContext(order, db1, scan2, s), db.ports,
                      ServicesOf(order, db, scan, s).log, KeyOf(db.services, scan.connector), s.ports,
                      KeyOf(db1.services, scan.connector), db1.log);
  }

  /**
   Applying a snapshot a second time files nothing and leaves every row, id and tracked column as
   the first application left it, from every store a run can reach.
   */
  lemma ApplyTwice(order: RowOrder, db: Db, scan: Scan, s: Snapshot, scan2: Scan)
    requires Lists(order) && Valid(db) && WellFormed(s) && scan2.connector == scan.connector
    requires Apply(order, db, scan, s).Ok?
    ensures
      var once := Apply(order, db, scan, s).value;
      var twice := Apply(order, once, scan2, s);
      twice.Ok? && SameStore(once, twice.value)
  {
    var db1 := Apply(order, db, scan, s).value;
    ApplyPieces(order, db, scan, s, db1);
    TwiceHostsAndServices(order, db, scan, s, scan2, db1);
    TwicePorts(order, db, scan, s, scan2, db1);
    TwiceObserved(order, db, scan, s, scan2, db1);
    OkAgain(order, db, scan, s, scan2, db1);
    ApplyIs(order, db1, scan2, s);
  }

  lemma ApplyPieces(order: RowOrder, db: Db, scan: Scan, s: Snapshot, db1: Db)
    requires Lists(order) && Valid(db) && WellFormed(s) && Apply(order, db, scan, s) == Ok(db1)
    ensures db1.hosts == HostsOf(order, db, scan, s).rows && db1.services == ServicesOf(order, db, scan, s).rows
    ensures Unique(db1.services) && Ports.Resolvable(PortContext(order, db, scan, s), s.ports)
    ensures db1.ports == Ports.Applied(PortContext(order, db, scan, s), db.ports, ServicesOf(order, db, scan, s).log, s.ports).rows
  {
    ApplyIs(order, db, scan, s);
    ScanKeys(order, db, scan, s);
  }

  lemma OkAgain(order: RowOrder, db: Db, scan: Scan, s: Snapshot, scan2: Scan, db1: Db)
    requires Lists(order) && Apply(order, db, scan, s).Ok?
    requires Ports.Resolvable(PortContext(order, db1, scan2, s), s.ports)
    ensures Apply(order, db1, scan2, s).Ok?
  {
  }

  lemma TwiceObserved(order: RowOrder, db: Db, scan: Scan, s: Snapshot, scan2: Scan, db1: Db)
    requires Lists(order) && Keyed(db) && WellFormed(s) && scan2.connector == scan.connector
    requires Apply(order, db, scan, s) == Ok(db1)
    requires
      var v2 := ServicesOf(order, db1, scan2, s);
      v2.ids == ServicesOf(order, db, scan, s).ids && SameRows(db1.services, v2.rows)
    ensures
      var v2 := ServicesOf(order, db1, scan2, s);
      var r := Observed.Applied(Observed.Context(RouteEntity, scan2, order), db1.routes, db1.log,
                                RouteItems(scan2.connector, v2.rows, v2.ids, s.routes));
      var c := Observed.Applied(Observed.Context(CertEntity, scan2, order), db1.certs, db1.log, CertItems(s.certs));
      var d := Observed.Applied(Observed.Context(DomainEntity, scan2, order), db1.domains, db1.log, DomainItems(s.domains));
      r.log == c.log == d.log == db1.log && SameRows(db1.routes, r.rows) &&
      SameRows(db1.certs, c.rows) && SameRows(db1.domains, d.rows)
  {
    ApplyIs(order, db, scan, s);
    var v, v2 := ServicesOf(order, db, scan, s), ServicesOf(order, db1, scan2, s);
    ItemsDistinct(s, scan.connector, v.rows, v.ids);
    SameRouteItems(scan.connector, db1.services, v2.rows, v.ids, s.routes);
    var p := Ports.Applied(PortContext(order, db, scan, s), db.ports, v.log, s.ports);
    var items := RouteItems(scan.connector, v.rows, v.ids, s.routes);
    Observed.ObservedRescan(Observed.Context(RouteEntity, scan, order), Observed.Context(RouteEntity, scan2, order),
                            db.routes, p.log, items, db1.log);
    var r := Observed.Applied(Observed.Context(RouteEntity, scan, order), db.routes, p.log, items);
    Observed.ObservedRescan(Observed.Context(CertEntity, scan, order), Observed.Context(CertEntity, scan2, order),
                            db.certs, r.log, CertItems(s.certs), db1.log);
    var c := Observed.Applied(Observed.Context(CertEntity, scan, order), db.certs, r.log, CertItems(s.certs));
    Observed.ObservedRescan(Observed.Context(DomainEntity, scan, order), Observed.Context(DomainEntity, scan2, order),
                            db.domains, c.log, DomainItems(s.domains), db1.log);
  }
}
