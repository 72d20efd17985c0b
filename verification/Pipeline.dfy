/**
 A scan from end to end (internal/engine/runner.go, Scan; internal/resolve/resolve.go,
 LoadInventory and ReconcileStore): its routes are settled against the stored inventory, the snapshot is
 applied, and every stored route is settled again against what is stored now.
 */
module Pipeline {
  import opened Results
  import opened Store
  import opened Domain
  import opened Resolve
  import Strings
  import Links
  import ParentsFirst
  import Hosts
  import Services
  import Ports
  import Observed
  import Engine

  /** A proxies row, kept under its connector: the host it runs on, if known, and its endpoint's host name. */
  datatype Proxy = Proxy(host: Option<int>, hostname: string)

  /** The tables, with the networks of each service row and the proxies. */
  datatype World = World(db: Engine.Db, networks: map<int, seq<Network>>, proxies: map<int, Proxy>)

  /** What a source reports: a snapshot, its services' networks, and if it is a proxy its endpoint's host name. */
  datatype Report = Report(snapshot: Engine.Snapshot, networks: map<string, seq<Network>>, hostname: Option<string>)

  /** The proxies row its routes belong to. */
  function ProxyOf(connector: int, report: Report): Option<int> {
    if report.hostname.Some? then Some(connector) else None
  }

  // ---------------------------------------------------------------------------
  // The inventory as it is loaded

  function HostRef(hosts: Hosts.Rows, id: Option<int>): EntityRef {
    if id.Some? && id.value in hosts then EntityRef(hosts[id.value].connector, hosts[id.value].key) else NOWHERE
  }

  function HostFactOf(hosts: Hosts.Rows, id: int): HostFact
    requires id in hosts
  {
    var d := hosts[id].data;
    HostFact(id, EntityRef(hosts[id].connector, hosts[id].key), d.kind, d.name, d.address, SetOf(d.aliases))
  }

  function HostFacts(hosts: Hosts.Rows): set<HostFact> {
    set id | id in hosts && hosts[id].state == ACTIVE :: HostFactOf(hosts, id)
  }

  function ServiceFactOf(db: Engine.Db, networks: map<int, seq<Network>>, id: int): ServiceFact
    requires id in db.services
  {
    var row := db.services[id];
    ServiceFact(EntityRef(row.connector, row.key), HostRef(db.hosts, row.data.host), row.data.name,
                if id in networks then NetworksOf(networks[id]) else {})
  }

  function ServiceFacts(db: Engine.Db, networks: map<int, seq<Network>>): set<ServiceFact> {
    set id | id in db.services && db.services[id].state != GONE :: ServiceFactOf(db, networks, id)
  }

  function PortFactOf(db: Engine.Db, id: int): Port
    requires id in db.ports && db.ports[id].service in db.services
  {
    var p := db.ports[id];
    var s := db.services[p.service];
    Port(EntityRef(s.connector, s.key), HostRef(db.hosts, p.host), p.tuple.number, p.tuple.containerPort, p.published, p.tuple.hostIP)
  }

  function PortFacts(db: Engine.Db): set<Port> {
    set id | id in db.ports && db.ports[id].service in db.services :: PortFactOf(db, id)
  }

  function FactsIn(db: Engine.Db, networks: map<int, seq<Network>>): Facts {
    Facts(HostFacts(db.hosts), ServiceFacts(db, networks), PortFacts(db))
  }

  lemma HostsDistinct(hosts: Hosts.Rows)
    requires Unique(hosts)
    ensures Links.DistinctFacts(HostFacts(hosts))
  {
    forall v, w | v in HostFacts(hosts) && w in HostFacts(hosts) && v.ref == w.ref ensures v == w {
      assert hosts[v.id].connector == hosts[w.id].connector && hosts[v.id].key == hosts[w.id].key;
    }
  }

  // ---------------------------------------------------------------------------
  // Settling routes

  ghost function Judged(nm: Names, f: Facts, r: Route): Verdict
    requires Links.DistinctFacts(f.hosts)
  {
    VerdictOf(nm, f, Links.LinksFor(nm, f.hosts), r)
  }

  /** The one machine a proxy's host name refers to. */
  ghost function ProxyHost(nm: Names, hosts: set<HostFact>, hostname: string): Option<int> {
    if nm.normalize(hostname) != "" && hostname != "" &&
       exists id :: Links.RefersTo(nm, hosts, nm.normalize(hostname), id) &&
                    forall other :: Links.RefersTo(nm, hosts, nm.normalize(hostname), other) ==> other == id
    then
      var id :| Links.RefersTo(nm, hosts, nm.normalize(hostname), id) &&
                forall other :: Links.RefersTo(nm, hosts, nm.normalize(hostname), other) ==> other == id;
      Some(id)
    else None
  }

  ghost function ProxyNetworksOf(nm: Names, services: set<ServiceFact>, host: EntityRef, hostname: string): seq<string> {
    Strings.SortedOf(set s, n | s in services && n in s.networks && ProxyNetwork(nm, services, host, hostname, n.name) :: n.name)
  }

  /** A route with its proxy's scope. */
  ghost function Scoped(nm: Names, w: World, proxy: Option<int>, r: Route): Route {
    if proxy.Some? && proxy.value in w.proxies then
      var p := w.proxies[proxy.value];
      var host := HostRef(w.db.hosts, p.host);
      r.(proxy := proxy, proxyHost := host,
         proxyNetworks := ProxyNetworksOf(nm, ServiceFacts(w.db, w.networks), host, p.hostname))
    else r.(proxy := proxy, proxyHost := NOWHERE, proxyNetworks := [])
  }

  ghost function SettledRoute(nm: Names, w: World, proxy: Option<int>, r: Route): Route
    requires Unique(w.db.hosts)
  {
    HostsDistinct(w.db.hosts);
    var scoped := Scoped(nm, w, proxy, r);
    Settle(scoped, Judged(nm, FactsIn(w.db, w.networks), scoped))
  }

  ghost function SettledRoutes(nm: Names, w: World, proxy: Option<int>, rs: seq<Route>): (out: seq<Route>)
    requires Unique(w.db.hosts)
    ensures |out| == |rs| && forall i | 0 <= i < |rs| :: out[i] == SettledRoute(nm, w, proxy, rs[i])
  {
    seq(|rs|, i requires 0 <= i < |rs| => SettledRoute(nm, w, proxy, rs[i]))
  }

  // ---------------------------------------------------------------------------
  // A scan

  /** A proxy's row is written before anything else, by the hosts known so far. */
  ghost function WithProxy(nm: Names, w: World, connector: int, hostname: Option<string>): World {
    if hostname.None? then w
    else w.(proxies := w.proxies[connector := Proxy(ProxyHost(nm, HostFacts(w.db.hosts), hostname.value), hostname.value)])
  }

  /** What is applied: the snapshot with its routes settled. */
  ghost function Prepared(nm: Names, w: World, proxy: Option<int>, s: Engine.Snapshot): Engine.Snapshot
    requires Unique(w.db.hosts)
  {
    s.(routes := SettledRoutes(nm, w, proxy, s.routes))
  }

  /** A reported service's networks replace those of its row. */
  ghost function WithNetworks(networks: map<int, seq<Network>>, ids: map<string, int>, reported: map<string, seq<Network>>)
    : map<int, seq<Network>>
  {
    map id | id in networks.Keys + ids.Values ::
      if exists k :: k in ids && ids[k] == id then
        var k :| k in ids && ids[k] == id;
        if k in reported then reported[k] else []
      else networks[id]
  }

  /** A stored route, read back. */
  function StoredRoute(row: Row<Observed.Stored<RouteData>>): Route {
    var d := row.data.payload;
    Route(row.key, d.proxy, NOWHERE, [], d.domain, d.pathPrefix, d.upstreamHost, d.upstreamPort, NOWHERE, "", d.tls, "")
  }

  /** A stored route settled again; a gone one is left alone. */
  ghost function Rejudged(nm: Names, w: World, row: Row<Observed.Stored<RouteData>>): Row<Observed.Stored<RouteData>>
    requires Unique(w.db.hosts)
  {
    if row.state != ACTIVE then row
    else
      var r := SettledRoute(nm, w, row.data.payload.proxy, StoredRoute(row));
      var service := if r.resolved.key == "" then None else FindKey(w.db.services, r.resolved.connector, r.resolved.key);
      row.(data := Observed.Stored(row.data.tracked["status" := r.status],
                                   row.data.payload.(service := service, confidence := r.confidence)))
  }

  /** Every active stored route settled again (ReconcileStore). */
  ghost function Reconciled(nm: Names, w: World): World
    requires Unique(w.db.hosts)
  {
    w.(db := w.db.(routes := map id | id in w.db.routes :: Rejudged(nm, w, w.db.routes[id])))
  }

  lemma PreparedWellFormed(nm: Names, w: World, proxy: Option<int>, s: Engine.Snapshot)
    requires Unique(w.db.hosts) && Engine.WellFormed(s)
    ensures Engine.WellFormed(Prepared(nm, w, proxy, s))
  {
    hide SettledRoute;
    assert forall i | 0 <= i < |s.routes| :: SettledRoute(nm, w, proxy, s.routes[i]).key == s.routes[i].key by {
      forall i | 0 <= i < |s.routes| ensures SettledRoute(nm, w, proxy, s.routes[i]).key == s.routes[i].key {
        SettledKeeps(nm, w, proxy, s.routes[i]);
      }
    }
  }

  lemma PreparedServices(nm: Names, w: World, proxy: Option<int>, s: Engine.Snapshot)
    requires Unique(w.db.hosts)
    ensures Prepared(nm, w, proxy, s).services == s.services
  {
  }

  /** Settling changes only the verdict; scoping, only the scope. */
  lemma SettledKeeps(nm: Names, w: World, proxy: Option<int>, r: Route)
    requires Unique(w.db.hosts)
    ensures
      var s := SettledRoute(nm, w, proxy, r);
      s.key == r.key && s.proxy == proxy && s.domain == r.domain && s.pathPrefix == r.pathPrefix &&
      s.upstreamHost == r.upstreamHost && s.upstreamPort == r.upstreamPort && s.tls == r.tls &&
      s.status in {"ok", "broken"}
  {
  }

  lemma ReconciledRow(nm: Names, w: World, id: int)
    requires Engine.Valid(w.db) && id in w.db.routes
    ensures
      var was, row := w.db.routes[id], Reconciled(nm, w).db.routes[id];
      && row.connector == was.connector && row.key == was.key && row.state == was.state && row.updatedAt == was.updatedAt
      && (row.data.payload.service.Some? ==> row.data.payload.service.value in w.db.services)
      && RouteColumns(row)
  {
    hide Rejudged;
    assert RouteColumns(w.db.routes[id]);
    RejudgedKeeps(nm, w, w.db.routes[id]);
    RejudgedLinks(nm, w, w.db.routes[id]);
  }

  lemma ReconcileKeepsValid(nm: Names, w: World)
    requires Engine.Valid(w.db)
    ensures Engine.Valid(Reconciled(nm, w).db)
  {
    hide Rejudged, RouteColumns, Hosts.Acyclic, Engine.AllTied, Engine.AllAnchored;
    var after := Reconciled(nm, w).db;
    forall id <- after.routes {
      ReconciledRow(nm, w, id);
    }
    Engine.SameStates(w.db.routes, after.routes, w.db.log, RouteEntity);
  }

  lemma RejudgedKeeps(nm: Names, w: World, row: Row<Observed.Stored<RouteData>>)
    requires Unique(w.db.hosts)
    ensures
      var r := Rejudged(nm, w, row);
      r.connector == row.connector && r.key == row.key && r.state == row.state && r.updatedAt == row.updatedAt &&
      (RouteColumns(row) ==> RouteColumns(r))
  {
    hide SettledRoute, PortText;
  }

  lemma RejudgedLinks(nm: Names, w: World, row: Row<Observed.Stored<RouteData>>)
    requires Unique(w.db.hosts)
    requires row.data.payload.service.Some? ==> row.data.payload.service.value in w.db.services
    ensures
      var service := Rejudged(nm, w, row).data.payload.service;
      service.Some? ==> service.value in w.db.services
  {
    hide SettledRoute;
  }

  /** The scan up to and including Apply, or the error that rolls it back. */
  ghost function Applied(nm: Names, order: RowOrder, w: World, scan: Scan, report: Report): (r: Result<World, Engine.Error>)
    requires Lists(order) && Engine.Valid(w.db) && Engine.WellFormed(report.snapshot)
    ensures r.Ok? ==> Engine.Valid(r.value.db)
  {
    var w0 := WithProxy(nm, w, scan.connector, report.hostname);
    var s := Prepared(nm, w0, ProxyOf(scan.connector, report), report.snapshot);
    PreparedWellFormed(nm, w0, ProxyOf(scan.connector, report), report.snapshot);
    match Engine.Apply(order, w0.db, scan, s)
    case Err(e) => Err(e)
    case Ok(db) =>
      Engine.ScanKeepsValid(order, w0.db, scan, s);
      Ok(World(db, WithNetworks(w.networks, Engine.ServicesOf(order, w0.db, scan, s).ids, report.networks), w0.proxies))
  }

  /** The whole scan. */
  ghost function ScanOnce(nm: Names, order: RowOrder, w: World, scan: Scan, report: Report): (r: Result<World, Engine.Error>)
    requires Lists(order) && Engine.Valid(w.db) && Engine.WellFormed(report.snapshot)
    ensures r.Ok? ==> Engine.Valid(r.value.db)
  {
    match Applied(nm, order, w, scan, report)
    case Err(e) => Err(e)
    case Ok(w1) =>
      ReconcileKeepsValid(nm, w1);
      Ok(Reconciled(nm, w1))
  }

  // ---------------------------------------------------------------------------
  // The inventory is what the tables say

  /** Stored ports are ports: the table admits no others. */
  predicate InRange(t: Ports.Tuple) {
    1 <= t.number <= 65535 && 1 <= t.containerPort <= 65535
  }

  predicate AllInRange(ports: Ports.Rows) {
    forall id <- ports :: InRange(ports[id].tuple)
  }

  predicate ReportsInRange(items: seq<Ports.Port>) {
    forall i | 0 <= i < |items| :: InRange(items[i].tuple)
  }

  lemma {:induction false} DedupedInRange(items: seq<Ports.Port>)
    requires ReportsInRange(items)
    ensures ReportsInRange(Ports.Deduped(items))
  {
    if |items| > 0 {
      DedupedInRange(items[..|items| - 1]);
    }
  }

  lemma ScanKeepsRange(order: RowOrder, db: Engine.Db, scan: Scan, s: Engine.Snapshot)
    requires Lists(order) && Engine.Valid(db) && Engine.WellFormed(s) && Engine.Apply(order, db, scan, s).Ok?
    requires AllInRange(db.ports) && ReportsInRange(s.ports)
    ensures AllInRange(Engine.Apply(order, db, scan, s).value.ports)
  {
    var after, items := Engine.Apply(order, db, scan, s).value, Ports.Deduped(s.ports);
    var cx := Engine.PortContext(order, db, scan, s);
    var keyOf := Engine.KeyOf(db.services, scan.connector);
    Engine.ApplyIs(order, db, scan, s);
    Engine.ScanKeepsValid(order, db, scan, s);
    Engine.RekeyedHolds(order, db, scan, s);
    assert Ports.Tied(db.ports, scan.connector, keyOf);
    Ports.AppliedLeaves(cx, db.ports, Engine.ServicesOf(order, db, scan, s).log, keyOf, s.ports);
    DedupedInRange(s.ports);
    assert Ports.Tied(after.ports, scan.connector, Engine.KeyOf(after.services, scan.connector));
    RangeAfter(cx, db.ports, items, after.ports, Engine.KeyOf(after.services, scan.connector));
  }

  lemma RangeAfter(cx: Ports.Context, stored: Ports.Rows, items: seq<Ports.Port>, rows: Ports.Rows, keyOf: map<int, string>)
    requires Ports.After(cx, stored, items, rows) && Ports.Tied(rows, cx.scan.connector, keyOf)
    requires AllInRange(stored) && ReportsInRange(items)
    ensures AllInRange(rows)
  {
    forall id <- rows ensures InRange(rows[id].tuple) {
      if rows[id].connector == cx.scan.connector {
        var i := Ports.ItemOfKey(items, rows[id].key);
        assert InRange(items[i].tuple);
      }
    }
  }

  lemma FactsInRange(db: Engine.Db, networks: map<int, seq<Network>>)
    requires AllInRange(db.ports)
    ensures forall p <- FactsIn(db, networks).ports :: 1 <= p.number <= 65535 && 1 <= p.containerPort <= 65535
  {
    forall p <- PortFacts(db) ensures 1 <= p.number <= 65535 && 1 <= p.containerPort <= 65535 {
      var id :| id in db.ports && db.ports[id].service in db.services && p == PortFactOf(db, id);
      assert InRange(db.ports[id].tuple);
    }
  }

  lemma SameHostFacts(a: Hosts.Rows, b: Hosts.Rows)
    requires SameRows(a, b)
    ensures HostFacts(a) == HostFacts(b) && forall id :: HostRef(a, id) == HostRef(b, id)
  {
    forall id <- a ensures HostFactOf(a, id) == HostFactOf(b, id) && a[id].state == b[id].state {
      assert SameRow(a[id], b[id]);
    }
    forall id ensures HostRef(a, id) == HostRef(b, id) {
      if id.Some? && id.value in a {
        SameRowAt(a, b, id.value);
      }
    }
  }

  /** Rows that agree but for the time of writing load as the same inventory. */
  lemma SameFacts(a: Engine.Db, b: Engine.Db, networks: map<int, seq<Network>>)
    requires SameRows(a.hosts, b.hosts) && SameRows(a.services, b.services) && a.ports == b.ports
    ensures FactsIn(a, networks) == FactsIn(b, networks)
  {
    SameHostFacts(a.hosts, b.hosts);
    forall id <- a.services
      ensures ServiceFactOf(a, networks, id) == ServiceFactOf(b, networks, id) && a.services[id].state == b.services[id].state
      ensures a.services[id].connector == b.services[id].connector && a.services[id].key == b.services[id].key
    {
      assert SameRow(a.services[id], b.services[id]);
    }
    assert ServiceFacts(a, networks) == ServiceFacts(b, networks);
    forall id | id in a.ports && a.ports[id].service in a.services ensures PortFactOf(a, id) == PortFactOf(b, id) {
    }
    assert PortFacts(a) == PortFacts(b);
  }

  // ---------------------------------------------------------------------------
  // A second application, with other verdicts on the routes

  lemma AgainInventory(order: RowOrder, db: Engine.Db, scan: Scan, s: Engine.Snapshot, db1: Engine.Db,
                       scan2: Scan, db2: Engine.Db, s2: Engine.Snapshot)
    requires Lists(order) && Engine.Valid(db) && Engine.WellFormed(s) && scan2.connector == scan.connector
    requires Engine.Apply(order, db, scan, s) == Ok(db1)
    requires db2 == db1.(routes := db2.routes) && s2 == s.(routes := s2.routes)
    ensures
      var h, v := Engine.HostsOf(order, db2, scan2, s2), Engine.ServicesOf(order, db2, scan2, s2);
      && SameRows(db2.hosts, h.rows) && SameRows(db2.services, v.rows) && v.log == db2.log
      && v.ids == Engine.ServicesOf(order, db, scan, s).ids
      && Ports.Resolvable(Engine.PortContext(order, db2, scan2, s2), s2.ports)
      && Ports.Applied(Engine.PortContext(order, db2, scan2, s2), db2.ports, v.log, s2.ports) == Ports.Outcome(db2.ports, db2.log)
  {
    hide Hosts.Applied, Services.Applied, Ports.Applied, Ports.Resolvable;
    Engine.ApplyPieces(order, db, scan, s, db1);
    Engine.TwiceHostsAndServices(order, db, scan, s, scan2, db2);
    Engine.TwicePorts(order, db, scan, s, scan2, db2);
    assert Engine.HostsOf(order, db2, scan2, s2) == Engine.HostsOf(order, db2, scan2, s);
    assert Engine.ServicesOf(order, db2, scan2, s2) == Engine.ServicesOf(order, db2, scan2, s);
  }

  /** The route table and feed of that second application. */
  ghost function RoutesAgain(order: RowOrder, scan2: Scan, db2: Engine.Db, s2: Engine.Snapshot): Observed.Progress<RouteData>
    requires Lists(order)
  {
    var v := Engine.ServicesOf(order, db2, scan2, s2);
    Observed.Applied(Observed.Context(RouteEntity, scan2, order), db2.routes, db2.log,
                     RouteItems(scan2.connector, v.rows, v.ids, s2.routes))
  }

  /** It goes through, leaves everything but the routes as it was, and files what it files about routes. */
  lemma ApplyAgain(order: RowOrder, db: Engine.Db, scan: Scan, s: Engine.Snapshot, db1: Engine.Db,
                   scan2: Scan, db2: Engine.Db, s2: Engine.Snapshot)
    requires Lists(order) && Engine.Valid(db) && Engine.WellFormed(s) && scan2.connector == scan.connector
    requires Engine.Apply(order, db, scan, s) == Ok(db1)
    requires db2 == db1.(routes := db2.routes) && s2 == s.(routes := s2.routes) && Engine.RoutesOk(s2)
    ensures Engine.Apply(order, db2, scan2, s2).Ok?
    ensures
      var out := Engine.Apply(order, db2, scan2, s2).value;
      && SameRows(db2.hosts, out.hosts) && SameRows(db2.services, out.services) && out.ports == db2.ports
      && out.routes == RoutesAgain(order, scan2, db2, s2).rows && out.log == RoutesAgain(order, scan2, db2, s2).log
  {
    hide Hosts.Applied, Services.Applied, Ports.Applied, Observed.Applied, Ports.Resolvable, Engine.Valid;
    AgainInventory(order, db, scan, s, db1, scan2, db2, s2);
    CertsAndDomainsAgain(order, db, scan, s, db1, scan2, RoutesAgain(order, scan2, db2, s2).log);
  }

  lemma CertsAndDomainsAgain(order: RowOrder, db: Engine.Db, scan: Scan, s: Engine.Snapshot, db1: Engine.Db, scan2: Scan, log2: seq<Change>)
    requires Lists(order) && Engine.Valid(db) && Engine.WellFormed(s) && scan2.connector == scan.connector
    requires Engine.Apply(order, db, scan, s) == Ok(db1)
    ensures Observed.Applied(Observed.Context(CertEntity, scan2, order), db1.certs, log2, CertItems(s.certs)).log == log2
    ensures Observed.Applied(Observed.Context(DomainEntity, scan2, order), db1.domains, log2, DomainItems(s.domains)).log == log2
  {
    hide Hosts.Applied, Services.Applied, Ports.Applied, Observed.Applied, Ports.Resolvable;
    Engine.ApplyIs(order, db, scan, s);
    var v := Engine.ServicesOf(order, db, scan, s);
    Engine.ItemsDistinct(s, scan.connector, v.rows, v.ids);
    var p := Ports.Applied(Engine.PortContext(order, db, scan, s), db.ports, v.log, s.ports);
    var r := Observed.Applied(Observed.Context(RouteEntity, scan, order), db.routes, p.log,
                              RouteItems(scan.connector, v.rows, v.ids, s.routes));
    Observed.ObservedRescan(Observed.Context(CertEntity, scan, order), Observed.Context(CertEntity, scan2, order),
                            db.certs, r.log, CertItems(s.certs), log2);
    var c := Observed.Applied(Observed.Context(CertEntity, scan, order), db.certs, r.log, CertItems(s.certs));
    Observed.ObservedRescan(Observed.Context(DomainEntity, scan, order), Observed.Context(DomainEntity, scan2, order),
                            db.domains, c.log, DomainItems(s.domains), log2);
  }

  // ---------------------------------------------------------------------------
  // Scanning a proxy again

  /** Read back from its row, a route is settled as it is when reported: out-of-range ports included. */
  lemma SameVerdict(nm: Names, f: Facts, r: Route, t: Route)
    requires Links.DistinctFacts(f.hosts)
    requires forall p <- f.ports :: 1 <= p.number <= 65535 && 1 <= p.containerPort <= 65535
    requires t.upstreamHost == r.upstreamHost && t.upstreamPort == StoredPort(r.upstreamPort)
    requires t.proxyHost == r.proxyHost && t.proxyNetworks == r.proxyNetworks
    ensures Judged(nm, f, r) == Judged(nm, f, t)
  {
    hide Judges, VerdictOf;
    var links, v := Links.LinksFor(nm, f.hosts), Judged(nm, f, r);
    StoredPortSettlesAlike(nm, f, links, r, v);
    SameScopeSameVerdict(nm, f, links, r.(upstreamPort := StoredPort(r.upstreamPort)), t, v);
    OneVerdict(nm, f, links, t, v, Judged(nm, f, t));
  }

  /** A world as a finished scan leaves it: the proxy's row, and for each reported route a row with its verdict. */
  ghost predicate Settled(nm: Names, w: World, connector: int, report: Report)
    requires Unique(w.db.hosts)
  {
    && (report.hostname.Some? ==> connector in w.proxies && w.proxies[connector].hostname == report.hostname.value)
    && Unique(w.db.routes)
    && (forall i | 0 <= i < |report.snapshot.routes| :: RouteHolds(nm, w, connector, ProxyOf(connector, report), report.snapshot.routes[i]))
    && OnlyReported(w, connector, report.snapshot.routes)
  }

  /** The connector has no other live route. */
  ghost predicate OnlyReported(w: World, connector: int, rs: seq<Route>) {
    forall id <- w.db.routes :: w.db.routes[id].connector == connector && w.db.routes[id].state != GONE ==>
      exists i :: 0 <= i < |rs| && rs[i].key == w.db.routes[id].key
  }

  ghost predicate RouteHolds(nm: Names, w: World, connector: int, proxy: Option<int>, r: Route)
    requires Unique(w.db.hosts)
  {
    var at := FindKey(w.db.routes, connector, r.key);
    at.Some? &&
    var row := w.db.routes[at.value];
    row.state == ACTIVE &&
    row.data.tracked == map["upstream" := Upstream(r.upstreamHost, StoredPort(r.upstreamPort)),
                            "status" := SettledRoute(nm, w, proxy, r).status]
  }

  /** Right after Apply, before the stored routes are settled again. */
  ghost predicate RouteLands(w: World, connector: int, proxy: Option<int>, r: Route) {
    var at := FindKey(w.db.routes, connector, r.key);
    at.Some? &&
    var row := w.db.routes[at.value];
    && row.state == ACTIVE && row.connector == connector && row.key == r.key
    && row.data.tracked.Keys == {"upstream", "status"}
    && row.data.tracked["upstream"] == Upstream(r.upstreamHost, StoredPort(r.upstreamPort))
    && row.data.payload.proxy == proxy && row.data.payload.upstreamHost == r.upstreamHost
    && row.data.payload.upstreamPort == StoredPort(r.upstreamPort)
  }

  lemma ReconciledFacts(nm: Names, w: World)
    requires Unique(w.db.hosts)
    ensures
      var after := Reconciled(nm, w);
      FactsIn(after.db, after.networks) == FactsIn(w.db, w.networks) && after.db.hosts == w.db.hosts && after.proxies == w.proxies &&
      forall proxy, r :: SettledRoute(nm, after, proxy, r) == SettledRoute(nm, w, proxy, r)
  {
    var after := Reconciled(nm, w);
    assert HostFacts(after.db.hosts) == HostFacts(w.db.hosts);
    forall id | id in w.db.services ensures ServiceFactOf(after.db, after.networks, id) == ServiceFactOf(w.db, w.networks, id) {
    }
    assert ServiceFacts(after.db, after.networks) == ServiceFacts(w.db, w.networks);
    forall id | id in w.db.ports && w.db.ports[id].service in w.db.services ensures PortFactOf(after.db, id) == PortFactOf(w.db, id) {
    }
    assert PortFacts(after.db) == PortFacts(w.db);
  }

  lemma RejudgedTwice(nm: Names, w: World, row: Row<Observed.Stored<RouteData>>)
    requires Unique(w.db.hosts)
    ensures Rejudged(nm, w, Rejudged(nm, w, row)) == Rejudged(nm, w, row)
  {
    hide SettledRoute;
    var once := Rejudged(nm, w, row);
    var again := Rejudged(nm, w, once);
    assert once.data.payload.proxy == row.data.payload.proxy && StoredRoute(once) == StoredRoute(row);
    assert again.data.tracked == once.data.tracked;
  }

  /** Settling the stored routes twice is settling them once. */
  lemma ReconcileTwice(nm: Names, w: World)
    requires Unique(w.db.hosts)
    ensures Reconciled(nm, w).db.hosts == w.db.hosts && Reconciled(nm, Reconciled(nm, w)) == Reconciled(nm, w)
  {
    hide SettledRoute;
    var once := Reconciled(nm, w);
    ReconciledFacts(nm, w);
    forall id <- once.db.routes ensures Rejudged(nm, once, once.db.routes[id]) == once.db.routes[id] {
      RejudgedTwice(nm, w, w.db.routes[id]);
      assert Rejudged(nm, once, once.db.routes[id]) == Rejudged(nm, w, once.db.routes[id]);
    }
    assert Reconciled(nm, once).db.routes == once.db.routes;
  }

  lemma StatusReadBack(nm: Names, w: World, proxy: Option<int>, r: Route, row: Row<Observed.Stored<RouteData>>)
    requires Unique(w.db.hosts) && AllInRange(w.db.ports)
    requires row.data.payload.upstreamHost == r.upstreamHost && row.data.payload.upstreamPort == StoredPort(r.upstreamPort)
    ensures SettledRoute(nm, w, proxy, r).status == SettledRoute(nm, w, proxy, StoredRoute(row)).status
  {
    hide Judged, FactsIn;
    FactsInRange(w.db, w.networks);
    HostsDistinct(w.db.hosts);
    assert FactsIn(w.db, w.networks).hosts == HostFacts(w.db.hosts) by { FactHosts(w.db, w.networks); }
    SameVerdict(nm, FactsIn(w.db, w.networks), Scoped(nm, w, proxy, r), Scoped(nm, w, proxy, StoredRoute(row)));
  }

  lemma FactHosts(db: Engine.Db, networks: map<int, seq<Network>>)
    ensures FactsIn(db, networks).hosts == HostFacts(db.hosts)
  {
  }

  lemma RouteIsSettled(nm: Names, w: World, connector: int, proxy: Option<int>, r: Route)
    requires Unique(w.db.hosts) && Unique(w.db.routes) && AllInRange(w.db.ports)
    requires RouteLands(w, connector, proxy, r)
    ensures RouteHolds(nm, Reconciled(nm, w), connector, proxy, r)
  {
    hide SettledRoute, Reconciled;
    var id := FindKey(w.db.routes, connector, r.key).value;
    var row := w.db.routes[id];
    ReconciledFacts(nm, w);
    ReconciledFind(nm, w, id);
    StatusReadBack(nm, w, proxy, r, row);
    assert Rejudged(nm, w, row).data.tracked == row.data.tracked["status" := SettledRoute(nm, w, proxy, r).status];
  }

  lemma ReconciledFind(nm: Names, w: World, id: int)
    requires Unique(w.db.hosts) && Unique(w.db.routes) && id in w.db.routes
    ensures
      var after := Reconciled(nm, w).db.routes;
      Unique(after) && FindKey(after, w.db.routes[id].connector, w.db.routes[id].key) == Some(id) &&
      after[id] == Rejudged(nm, w, w.db.routes[id])
  {
    hide Rejudged;
    var after := Reconciled(nm, w).db.routes;
    forall i <- after ensures after[i].connector == w.db.routes[i].connector && after[i].key == w.db.routes[i].key {
      RejudgedKeeps(nm, w, w.db.routes[i]);
    }
    FindKeyIs(after, id);
  }

  lemma RoutesLand(order: RowOrder, db: Engine.Db, scan: Scan, s: Engine.Snapshot, w: World, proxy: Option<int>)
    requires Lists(order) && Engine.Valid(db) && Engine.WellFormed(s) && Engine.Apply(order, db, scan, s) == Ok(w.db)
    requires forall i | 0 <= i < |s.routes| :: s.routes[i].proxy == proxy
    ensures Unique(w.db.routes) && OnlyReported(w, scan.connector, s.routes)
    ensures forall i | 0 <= i < |s.routes| :: RouteLands(w, scan.connector, proxy, s.routes[i])
  {
    hide Hosts.Applied, Services.Applied, Ports.Applied, Observed.Applied, Engine.Valid, Engine.WellFormed;
    Engine.ApplyIs(order, db, scan, s);
    var v := Engine.ServicesOf(order, db, scan, s);
    Engine.ItemsDistinct(s, scan.connector, v.rows, v.ids);
    var p := Ports.Applied(Engine.PortContext(order, db, scan, s), db.ports, v.log, s.ports);
    var items, cx := RouteItems(scan.connector, v.rows, v.ids, s.routes), Observed.Context(RouteEntity, scan, order);
    assert Unique(db.routes) by { Keyed(db); }
    Observed.AppliedLeaves(cx, db.routes, p.log, items);
    AfterLands(cx, db.routes, items, w, proxy, s.routes, v.rows, v.ids);
  }

  lemma Keyed(db: Engine.Db)
    requires Engine.Valid(db)
    ensures Unique(db.routes) && Unique(db.hosts) && Unique(db.services)
  {
  }

  lemma AfterLands(cx: Observed.Context, before: Observed.Rows<RouteData>, items: seq<Observed.Item<RouteData>>, w: World,
                   proxy: Option<int>, rs: seq<Route>, services: Services.Rows, ids: map<string, int>)
    requires Observed.After(cx, before, items, w.db.routes) && items == RouteItems(cx.scan.connector, services, ids, rs)
    requires forall i | 0 <= i < |rs| :: rs[i].proxy == proxy
    ensures Unique(w.db.routes) && OnlyReported(w, cx.scan.connector, rs)
    ensures forall i | 0 <= i < |rs| :: RouteLands(w, cx.scan.connector, proxy, rs[i])
  {
    forall i | 0 <= i < |rs| ensures RouteLands(w, cx.scan.connector, proxy, rs[i]) {
      assert Observed.Landed(cx, before, w.db.routes, items[i]);
      assert items[i] == RouteItem(cx.scan.connector, services, ids, rs[i]);
    }
    forall id | id in w.db.routes && w.db.routes[id].connector == cx.scan.connector && w.db.routes[id].state != GONE
      ensures exists i :: 0 <= i < |rs| && rs[i].key == w.db.routes[id].key
    {
      var i := Observed.ItemOfKey(items, w.db.routes[id].key);
      assert items[i] == RouteItem(cx.scan.connector, services, ids, rs[i]);
    }
  }

  ghost predicate Admissible(order: RowOrder, w: World, report: Report) {
    Lists(order) && Engine.Valid(w.db) && Engine.WellFormed(report.snapshot) &&
    AllInRange(w.db.ports) && ReportsInRange(report.snapshot.ports)
  }

  lemma LandsAsReported(nm: Names, w0: World, w: World, connector: int, proxy: Option<int>, rs: seq<Route>, i: nat)
    requires Unique(w0.db.hosts) && i < |rs|
    requires RouteLands(w, connector, proxy, SettledRoutes(nm, w0, proxy, rs)[i])
    ensures RouteLands(w, connector, proxy, rs[i])
  {
    SettledKeeps(nm, w0, proxy, rs[i]);
  }

  lemma ReportedUnderSameKeys(nm: Names, w0: World, w: World, connector: int, proxy: Option<int>, rs: seq<Route>)
    requires Unique(w0.db.hosts) && OnlyReported(w, connector, SettledRoutes(nm, w0, proxy, rs))
    ensures OnlyReported(w, connector, rs)
  {
    hide SettledRoute;
    forall i | 0 <= i < |rs| ensures SettledRoutes(nm, w0, proxy, rs)[i].key == rs[i].key {
      SettledKeeps(nm, w0, proxy, rs[i]);
    }
  }

  lemma ReconciledReported(nm: Names, w: World, connector: int, rs: seq<Route>)
    requires Unique(w.db.hosts) && OnlyReported(w, connector, rs)
    ensures OnlyReported(Reconciled(nm, w), connector, rs)
  {
    hide Rejudged;
    forall id <- w.db.routes {
      RejudgedKeeps(nm, w, w.db.routes[id]);
    }
  }

  lemma AppliedLands(nm: Names, order: RowOrder, w: World, scan: Scan, report: Report)
    requires Admissible(order, w, report) && Applied(nm, order, w, scan, report).Ok?
    ensures
      var c, rs, w1 := scan.connector, report.snapshot.routes, Applied(nm, order, w, scan, report).value;
      && Unique(w1.db.hosts) && Unique(w1.db.routes) && AllInRange(w1.db.ports) && OnlyReported(w1, c, rs)
      && (forall i | 0 <= i < |rs| :: RouteLands(w1, c, ProxyOf(c, report), rs[i]))
      && (report.hostname.Some? ==> c in w1.proxies && w1.proxies[c].hostname == report.hostname.value)
  {
    hide RouteLands, OnlyReported, Engine.Apply, Engine.WellFormed, WithNetworks, ProxyHost, SettledRoute;
    var c, proxy, rs := scan.connector, ProxyOf(scan.connector, report), report.snapshot.routes;
    var w0, w1 := WithProxy(nm, w, c, report.hostname), Applied(nm, order, w, scan, report).value;
    var s := Prepared(nm, w0, proxy, report.snapshot);
    PreparedWellFormed(nm, w0, proxy, report.snapshot);
    AllProxied(nm, w0, proxy, rs);
    RoutesLand(order, w.db, scan, s, w1, proxy);
    ScanKeepsRange(order, w.db, scan, s);
    forall i | 0 <= i < |rs| ensures RouteLands(w1, c, ProxyOf(c, report), rs[i]) {
      LandsAsReported(nm, w0, w1, c, proxy, rs, i);
    }
    ReportedUnderSameKeys(nm, w0, w1, c, proxy, rs);
  }

  lemma AllProxied(nm: Names, w: World, proxy: Option<int>, rs: seq<Route>)
    requires Unique(w.db.hosts)
    ensures forall i | 0 <= i < |rs| :: SettledRoutes(nm, w, proxy, rs)[i].proxy == proxy
  {
    hide SettledRoute;
    forall i | 0 <= i < |rs| ensures SettledRoutes(nm, w, proxy, rs)[i].proxy == proxy {
      SettledKeeps(nm, w, proxy, rs[i]);
    }
  }

  /** A scan leaves every reported route with the verdict the new inventory gives it. */
  lemma ScanSettles(nm: Names, order: RowOrder, w: World, scan: Scan, report: Report)
    requires Admissible(order, w, report) && ScanOnce(nm, order, w, scan, report).Ok?
    ensures Settled(nm, ScanOnce(nm, order, w, scan, report).value, scan.connector, report)
    ensures AllInRange(ScanOnce(nm, order, w, scan, report).value.db.ports)
  {
    hide RouteLands, RouteHolds, OnlyReported, Applied, Reconciled, Engine.Valid, Engine.WellFormed;
    var c, rs, w1 := scan.connector, report.snapshot.routes, Applied(nm, order, w, scan, report).value;
    AppliedLands(nm, order, w, scan, report);
    ReconciledOnlyRoutes(nm, w1);
    forall i | 0 <= i < |rs| ensures RouteHolds(nm, Reconciled(nm, w1), c, ProxyOf(c, report), rs[i]) {
      RouteIsSettled(nm, w1, c, ProxyOf(c, report), rs[i]);
    }
    ReconciledReported(nm, w1, c, rs);
    ReconciledUnique(nm, w1);
  }

  lemma ReconciledUnique(nm: Names, w: World)
    requires Unique(w.db.hosts) && Unique(w.db.routes)
    ensures Unique(Reconciled(nm, w).db.routes)
  {
    if id :| id in w.db.routes {
      ReconciledFind(nm, w, id);
    }
  }

  lemma ItemStands(nm: Names, w: World, scan: Scan, report: Report, services: Services.Rows, ids: map<string, int>, cx: Observed.Context, i: nat)
    requires Unique(w.db.hosts) && Settled(nm, w, scan.connector, report) && i < |report.snapshot.routes|
    requires cx.scan.connector == scan.connector
    ensures
      var items := RouteItems(scan.connector, services, ids, SettledRoutes(nm, w, ProxyOf(scan.connector, report), report.snapshot.routes));
      Observed.Still(cx, w.db.routes, items[i])
  {
    var r := report.snapshot.routes[i];
    assert RouteHolds(nm, w, scan.connector, ProxyOf(scan.connector, report), r);
    SettledKeeps(nm, w, ProxyOf(scan.connector, report), r);
    hide SettledRoute;
    var row := w.db.routes[FindKey(w.db.routes, scan.connector, r.key).value];
    var t := RouteItem(scan.connector, services, ids, SettledRoute(nm, w, ProxyOf(scan.connector, report), r));
    assert Observed.Tracked(row) == Observed.Tracked(Observed.NewRow(cx, t));
  }

  /** With the verdicts already stored, applying the routes again files nothing. */
  lemma RoutesStand(nm: Names, w: World, scan: Scan, report: Report, services: Services.Rows, ids: map<string, int>, order: RowOrder)
    requires Lists(order) && Unique(w.db.hosts) && Settled(nm, w, scan.connector, report)
    ensures
      var items := RouteItems(scan.connector, services, ids, SettledRoutes(nm, w, ProxyOf(scan.connector, report), report.snapshot.routes));
      Observed.Applied(Observed.Context(RouteEntity, scan, order), w.db.routes, w.db.log, items).log == w.db.log
  {
    var rs := report.snapshot.routes;
    var cx := Observed.Context(RouteEntity, scan, order);
    var items := RouteItems(scan.connector, services, ids, SettledRoutes(nm, w, ProxyOf(scan.connector, report), rs));
    forall i | 0 <= i < |items| ensures Observed.Still(cx, w.db.routes, items[i]) {
      ItemStands(nm, w, scan, report, services, ids, cx, i);
    }
    forall id <- w.db.routes ensures id !in Absent(w.db.routes, scan.connector, Observed.KeysOf(items)) {
      if w.db.routes[id].connector == scan.connector && w.db.routes[id].state != GONE {
        var i :| 0 <= i < |rs| && rs[i].key == w.db.routes[id].key;
        SettledKeeps(nm, w, ProxyOf(scan.connector, report), rs[i]);
        assert items[i].key == rs[i].key;
        Observed.KeyOfItem(items, i);
      }
    }
    assert Absent(w.db.routes, scan.connector, Observed.KeysOf(items)) == {};
    Observed.SettledIsSilent(cx, w.db.routes, w.db.log, items);
  }

  lemma NetworksAgain(networks: map<int, seq<Network>>, ids: map<string, int>, reported: map<string, seq<Network>>)
    ensures WithNetworks(WithNetworks(networks, ids, reported), ids, reported) == WithNetworks(networks, ids, reported)
  {
    var once := WithNetworks(networks, ids, reported);
    var twice := WithNetworks(once, ids, reported);
    assert once.Keys == networks.Keys + ids.Values;
    assert twice.Keys == once.Keys;
  }

  lemma StillNamed(nm: Names, w0: World, w1: World, proxy: Option<int>, s: Engine.Snapshot)
    requires Unique(w0.db.hosts) && Unique(w1.db.hosts)
    ensures Engine.RoutesOk(Prepared(nm, w0, proxy, s)) == Engine.RoutesOk(Prepared(nm, w1, proxy, s))
    ensures Prepared(nm, w1, proxy, s) == Prepared(nm, w0, proxy, s).(routes := Prepared(nm, w1, proxy, s).routes)
  {
    hide SettledRoute;
    forall i | 0 <= i < |s.routes|
      ensures Prepared(nm, w0, proxy, s).routes[i].key == Prepared(nm, w1, proxy, s).routes[i].key
    {
      SettledKeeps(nm, w0, proxy, s.routes[i]);
      SettledKeeps(nm, w1, proxy, s.routes[i]);
    }
  }

  lemma AppliedAgain(nm: Names, order: RowOrder, w: World, scan: Scan, report: Report, scan2: Scan)
    requires Admissible(order, w, report) && scan2.connector == scan.connector
    requires ScanOnce(nm, order, w, scan, report).Ok?
    ensures
      var w1 := ScanOnce(nm, order, w, scan, report).value;
      var again := Applied(nm, order, w1, scan2, report);
      again.Ok? && SameRows(w1.db.hosts, again.value.db.hosts) && SameRows(w1.db.services, again.value.db.services)
      && again.value.db.ports == w1.db.ports && again.value.networks == w1.networks
      && again.value.db.log
         == RoutesAgain(order, scan2, w1.db,
                        Prepared(nm, WithProxy(nm, w1, scan.connector, report.hostname), ProxyOf(scan.connector, report), report.snapshot)).log
  {
    hide Engine.Apply, Engine.Valid, Engine.WellFormed, Reconciled, RoutesAgain, Prepared, Engine.ServicesOf, WithNetworks;
    var c, proxy, s := scan.connector, ProxyOf(scan.connector, report), report.snapshot;
    var w0, mid := WithProxy(nm, w, c, report.hostname), Applied(nm, order, w, scan, report).value;
    var w1 := ScanOnce(nm, order, w, scan, report).value;
    Keyed(w.db);
    Keyed(w1.db);
    Keyed(mid.db);
    var s1, s2 := Prepared(nm, w0, proxy, s), Prepared(nm, WithProxy(nm, w1, c, report.hostname), proxy, s);
    PreparedWellFormed(nm, w0, proxy, s);
    PreparedWellFormed(nm, WithProxy(nm, w1, c, report.hostname), proxy, s);
    StillNamed(nm, w0, WithProxy(nm, w1, c, report.hostname), proxy, s);
    OkMeansNamed(order, w0.db, scan, s1);
    ReconciledOnlyRoutes(nm, mid);
    ApplyAgain(order, w0.db, scan, s1, mid.db, scan2, w1.db, s2);
    AgainInventory(order, w0.db, scan, s1, mid.db, scan2, w1.db, s2);
    NetworksAgain(w.networks, Engine.ServicesOf(order, w0.db, scan, s1).ids, report.networks);
  }

  lemma OkMeansNamed(order: RowOrder, db: Engine.Db, scan: Scan, s: Engine.Snapshot)
    requires Lists(order) && Engine.Apply(order, db, scan, s).Ok?
    ensures Engine.RoutesOk(s)
  {
  }

  lemma ReconciledOnlyRoutes(nm: Names, w: World)
    requires Unique(w.db.hosts)
    ensures
      var after := Reconciled(nm, w);
      after.db == w.db.(routes := after.db.routes) && after.networks == w.networks && after.proxies == w.proxies
  {
  }

  /** The proxy would be placed on the same host now as it was then. */
  ghost predicate SameProxyHost(nm: Names, a: World, b: World, hostname: Option<string>) {
    hostname.Some? ==> ProxyHost(nm, HostFacts(a.db.hosts), hostname.value) == ProxyHost(nm, HostFacts(b.db.hosts), hostname.value)
  }

  /** The second scan of an unchanged source: it goes through, and reads and leaves the same inventory. */
  lemma RescanKeepsInventory(nm: Names, order: RowOrder, w: World, scan: Scan, report: Report, scan2: Scan)
    requires Admissible(order, w, report) && scan2.connector == scan.connector
    requires ScanOnce(nm, order, w, scan, report).Ok?
    ensures
      var w1 := ScanOnce(nm, order, w, scan, report).value;
      var again := ScanOnce(nm, order, w1, scan2, report);
      again.Ok? && FactsIn(again.value.db, again.value.networks) == FactsIn(w1.db, w1.networks)
  {
    hide Applied, Reconciled;
    var w1 := ScanOnce(nm, order, w, scan, report).value;
    AppliedAgain(nm, order, w, scan, report, scan2);
    var mid := Applied(nm, order, w1, scan2, report).value;
    SameFacts(w1.db, mid.db, w1.networks);
    Keyed(mid.db);
    ReconciledFacts(nm, mid);
  }

  lemma SameProxy(nm: Names, order: RowOrder, w: World, scan: Scan, report: Report)
    requires Admissible(order, w, report) && ScanOnce(nm, order, w, scan, report).Ok?
    requires SameProxyHost(nm, w, ScanOnce(nm, order, w, scan, report).value, report.hostname)
    ensures
      var w1 := ScanOnce(nm, order, w, scan, report).value;
      WithProxy(nm, w1, scan.connector, report.hostname) == w1
  {
    hide Engine.Apply, Engine.Valid, Engine.WellFormed, Prepared, ProxyHost, WithNetworks;
  }

  lemma RoutesAgainStand(nm: Names, order: RowOrder, w1: World, scan2: Scan, report: Report)
    requires Lists(order) && Unique(w1.db.hosts) && Settled(nm, w1, scan2.connector, report)
    ensures RoutesAgain(order, scan2, w1.db, Prepared(nm, w1, ProxyOf(scan2.connector, report), report.snapshot)).log == w1.db.log
  {
    hide Settled;
    var v := Engine.ServicesOf(order, w1.db, scan2, Prepared(nm, w1, ProxyOf(scan2.connector, report), report.snapshot));
    RoutesStand(nm, w1, scan2, report, v.rows, v.ids, order);
  }

  // ---------------------------------------------------------------------------
  // Networks

  /** What a row gets when only one key leads to it. */
  lemma NetworksAt(networks: map<int, seq<Network>>, ids: map<string, int>, reported: map<string, seq<Network>>, key: string)
    requires key in ids && forall k <- ids :: ids[k] == ids[key] ==> k == key
    ensures ids[key] in WithNetworks(networks, ids, reported)
    ensures WithNetworks(networks, ids, reported)[ids[key]] == if key in reported then reported[key] else []
  {
    assert ids[key] in ids.Values;
  }

  /** The ids the scan gave its services are those their keys lead to afterwards. */
  lemma IdsFound(order: RowOrder, db: Engine.Db, scan: Scan, s: Engine.Snapshot, after: Engine.Db)
    requires Lists(order) && Engine.Valid(db) && Engine.WellFormed(s) && Engine.Apply(order, db, scan, s) == Ok(after)
    ensures
      var ids := Engine.ServicesOf(order, db, scan, s).ids;
      ids.Keys == Services.KeysOf(s.services) && forall k <- ids :: FindKey(after.services, scan.connector, k) == Some(ids[k])
  {
    var v, h := Engine.ServicesOf(order, db, scan, s), Engine.HostsOf(order, db, scan, s);
    Engine.ApplyPieces(order, db, scan, s, after);
    Engine.ServicesLeave(order, db, scan, s);
    var cx := Engine.ServiceContext(order, scan, h.ids, s.services);
    forall k <- v.ids ensures FindKey(after.services, scan.connector, k) == Some(v.ids[k]) {
      Engine.IdHasKey(cx, db.services, s.services, v, k);
      FindKeyIs(after.services, v.ids[k]);
    }
  }

  /** After a scan a reported service's row has the networks it was reported with, or none; no other row's change. */
  lemma ScanReplacesNetworks(nm: Names, order: RowOrder, w: World, scan: Scan, report: Report, key: string, id: int)
    requires Lists(order) && Engine.Valid(w.db) && Engine.WellFormed(report.snapshot) && ScanOnce(nm, order, w, scan, report).Ok?
    ensures
      var out := ScanOnce(nm, order, w, scan, report).value;
      var at := FindKey(out.db.services, scan.connector, key);
      && (key in Services.KeysOf(report.snapshot.services) ==>
            at.Some? && at.value in out.networks && out.networks[at.value] == if key in report.networks then report.networks[key] else [])
      && ((forall k <- Services.KeysOf(report.snapshot.services) :: FindKey(out.db.services, scan.connector, k) != Some(id)) ==>
            (id in out.networks <==> id in w.networks) && (id in w.networks ==> out.networks[id] == w.networks[id]))
  {
    hide Engine.Apply, Engine.Valid, Engine.WellFormed, Reconciled, Prepared, ProxyHost, FindKey;
    var w0, w1 := WithProxy(nm, w, scan.connector, report.hostname), Applied(nm, order, w, scan, report).value;
    Keyed(w0.db);
    Keyed(w1.db);
    ReconciledOnlyRoutes(nm, w1);
    PreparedWellFormed(nm, w0, ProxyOf(scan.connector, report), report.snapshot);
    PreparedServices(nm, w0, ProxyOf(scan.connector, report), report.snapshot);
    var s := Prepared(nm, w0, ProxyOf(scan.connector, report), report.snapshot);
    var ids := Engine.ServicesOf(order, w0.db, scan, s).ids;
    IdsFound(order, w0.db, scan, s, w1.db);
    NetworksAre(w.networks, ids, report.networks, w1.db.services, scan.connector, key, id);
  }

  lemma NetworksAre(networks: map<int, seq<Network>>, ids: map<string, int>, reported: map<string, seq<Network>>,
                    services: Services.Rows, connector: int, key: string, id: int)
    requires forall k <- ids :: FindKey(services, connector, k) == Some(ids[k])
    ensures
      var after := WithNetworks(networks, ids, reported);
      && (key in ids ==> ids[key] in after && after[ids[key]] == if key in reported then reported[key] else [])
      && (id !in ids.Values ==> (id in after <==> id in networks) && (id in networks ==> after[id] == networks[id]))
      && ((forall k <- ids :: FindKey(services, connector, k) != Some(id)) ==> id !in ids.Values)
  {
    forall k, m | k in ids && m in ids && ids[k] == ids[m] ensures k == m {
      assert services[ids[k]].key == k && services[ids[m]].key == m;
    }
    hide FindKey;
    if key in ids {
      NetworksAt(networks, ids, reported, key);
    }
    if id !in ids.Values {
      forall k <- ids ensures ids[k] != id {
      }
    }
  }

  // ---------------------------------------------------------------------------
  // What the columns of a settled route say

  /** The row's proxy scope as it is now. */
  ghost function RouteNow(nm: Names, w: World, row: Row<Observed.Stored<RouteData>>): Route {
    Scoped(nm, w, row.data.payload.proxy, StoredRoute(row))
  }

  /**
   A stored route's columns tell the truth: "ok", the row of the one service the strongest evidence points at and
   how sure that is, or "broken", no service and "none".
   */
  ghost predicate RouteTells(nm: Names, w: World, row: Row<Observed.Stored<RouteData>>)
    requires Unique(w.db.hosts)
  {
    HostsDistinct(w.db.hosts);
    var f, r, d := FactsIn(w.db, w.networks), RouteNow(nm, w, row), row.data.payload;
    var links := Links.LinksFor(nm, f.hosts);
    && "status" in row.data.tracked
    && (forall ref | Decides(nm, f, links, r, ref) ::
          && row.data.tracked["status"] == "ok"
          && (forall id :: d.service == Some(id) <==>
                id in w.db.services && w.db.services[id].connector == ref.connector && w.db.services[id].key == ref.key)
          && d.service.Some?
          && d.confidence == (if (AnyAddress(nm, f, r) || AnyName(nm, f, r)) && exists p <- f.ports :: Serving(p, ref, d.upstreamPort)
                              then "high" else "medium"))
    && ((forall ref :: !Decides(nm, f, links, r, ref)) ==>
          row.data.tracked["status"] == "broken" && d.service == None && d.confidence == "none")
  }

  /** A decided service has a row, and only one. */
  lemma DecidedRow(nm: Names, w: World, r: Route, links: map<EntityRef, EntityRef>, ref: EntityRef)
    requires Engine.Valid(w.db) && Decides(nm, FactsIn(w.db, w.networks), links, r, ref)
    ensures ref.key != "" && FindKey(w.db.services, ref.connector, ref.key).Some?
    ensures forall id :: FindKey(w.db.services, ref.connector, ref.key) == Some(id) <==>
      id in w.db.services && w.db.services[id].connector == ref.connector && w.db.services[id].key == ref.key
  {
    var f := FactsIn(w.db, w.networks);
    DecidedIsKnown(nm, f, links, r, ref);
    hide Decides;
    var at := RowOfRef(w.db, w.networks, ref);
    forall id | id in w.db.services && w.db.services[id].connector == ref.connector && w.db.services[id].key == ref.key
      ensures FindKey(w.db.services, ref.connector, ref.key) == Some(id)
    {
      FindKeyIs(w.db.services, id);
    }
  }

  lemma RowOfRef(db: Engine.Db, networks: map<int, seq<Network>>, ref: EntityRef) returns (id: int)
    requires
      var f := FactsIn(db, networks);
      (exists s <- f.services :: s.ref == ref) || (exists p <- f.ports :: p.serviceRef == ref)
    ensures id in db.services && db.services[id].connector == ref.connector && db.services[id].key == ref.key
  {
    if s :| s in ServiceFacts(db, networks) && s.ref == ref {
      id :| id in db.services && db.services[id].state != GONE && s == ServiceFactOf(db, networks, id);
    } else {
      var p :| p in PortFacts(db) && p.serviceRef == ref;
      var at :| at in db.ports && db.ports[at].service in db.services && p == PortFactOf(db, at);
      id := db.ports[at].service;
    }
  }

  /** What a stored route is judged by: its own upstream, its proxy's host, and the networks of the service its proxy runs as. */
  lemma RouteNowIs(nm: Names, w: World, row: Row<Observed.Stored<RouteData>>)
    ensures
      var r, d := RouteNow(nm, w, row), row.data.payload;
      && r.upstreamHost == d.upstreamHost && r.upstreamPort == d.upstreamPort
      && if d.proxy.Some? && d.proxy.value in w.proxies then
           var p := w.proxies[d.proxy.value];
           && r.proxyHost == (if p.host.Some? && p.host.value in w.db.hosts
                              then EntityRef(w.db.hosts[p.host.value].connector, w.db.hosts[p.host.value].key) else EntityRef(0, ""))
           && Strings.Increasing(r.proxyNetworks)
           && forall n :: n in r.proxyNetworks <==> ProxyNetwork(nm, FactsIn(w.db, w.networks).services, r.proxyHost, p.hostname, n)
         else r.proxyHost == EntityRef(0, "") && r.proxyNetworks == []
  {
    var r, d := RouteNow(nm, w, row), row.data.payload;
    if d.proxy.Some? && d.proxy.value in w.proxies {
      var p, services := w.proxies[d.proxy.value], ServiceFacts(w.db, w.networks);
      forall n ensures n in r.proxyNetworks <==> ProxyNetwork(nm, services, r.proxyHost, p.hostname, n) {
        if ProxyNetwork(nm, services, r.proxyHost, p.hostname, n) {
          var s :| IsProxy(nm, services, r.proxyHost, nm.normalize(p.hostname), s) && exists k <- s.networks :: k.name == n;
          var k :| k in s.networks && k.name == n;
          assert s in services && k in s.networks && k.name == n;
        }
      }
    }
  }

  /** The host facts are the active rows, column by column. */
  lemma HostFactsAreStored(db: Engine.Db, networks: map<int, seq<Network>>, h: HostFact)
    ensures h in FactsIn(db, networks).hosts <==>
      && h.id in db.hosts && db.hosts[h.id].state == "active"
      && h.ref == EntityRef(db.hosts[h.id].connector, db.hosts[h.id].key)
      && h.kind == db.hosts[h.id].data.kind && h.name == db.hosts[h.id].data.name && h.address == db.hosts[h.id].data.address
      && forall a :: a in h.aliases <==> a in db.hosts[h.id].data.aliases
  {
    if h.id in db.hosts {
      assert (forall a :: a in h.aliases <==> a in db.hosts[h.id].data.aliases) <==> h.aliases == SetOf(db.hosts[h.id].data.aliases);
    }
  }

  ghost predicate ServiceStored(db: Engine.Db, networks: map<int, seq<Network>>, s: ServiceFact, id: int) {
    && id in db.services && db.services[id].state != "gone" && s.name == db.services[id].data.name
    && s.ref == EntityRef(db.services[id].connector, db.services[id].key)
    && s.hostRef == (match db.services[id].data.host
                     case Some(h) => (if h in db.hosts then EntityRef(db.hosts[h].connector, db.hosts[h].key) else EntityRef(0, ""))
                     case None => EntityRef(0, ""))
    && (forall n :: n in s.networks <==>
          id in networks && exists k <- networks[id] :: n.name == k.name && n.ip == k.ip && forall a :: a in n.aliases <==> a in k.aliases)
  }

  /** The service facts are the live rows with their networks. */
  lemma ServiceFactsAreStored(db: Engine.Db, networks: map<int, seq<Network>>, s: ServiceFact)
    ensures s in FactsIn(db, networks).services <==> exists id :: ServiceStored(db, networks, s, id)
  {
    if id :| id in db.services && db.services[id].state != GONE && s == ServiceFactOf(db, networks, id) {
      NetworksStored(networks, id);
      assert ServiceStored(db, networks, s, id);
    }
    if id :| ServiceStored(db, networks, s, id) {
      NetworksStored(networks, id);
      assert s.networks == if id in networks then NetworksOf(networks[id]) else {};
      assert s == ServiceFactOf(db, networks, id);
    }
  }

  lemma NetworksStored(networks: map<int, seq<Network>>, id: int)
    ensures forall n :: n in (if id in networks then NetworksOf(networks[id]) else {}) <==>
      id in networks && exists k <- networks[id] :: n.name == k.name && n.ip == k.ip && forall a :: a in n.aliases <==> a in k.aliases
  {
    if id in networks {
      forall n ensures n in NetworksOf(networks[id]) <==>
        exists k <- networks[id] :: n.name == k.name && n.ip == k.ip && forall a :: a in n.aliases <==> a in k.aliases
      {
        if k :| k in networks[id] && n.name == k.name && n.ip == k.ip && forall a :: a in n.aliases <==> a in k.aliases {
          assert n.aliases == SetOf(k.aliases);
          assert n == NetworkOf(k);
        }
      }
    }
  }

  ghost predicate PortStored(db: Engine.Db, p: Port, id: int) {
    && id in db.ports && db.ports[id].service in db.services
    && p.serviceRef == EntityRef(db.services[db.ports[id].service].connector, db.services[db.ports[id].service].key)
    && p.hostRef == (match db.ports[id].host
                     case Some(h) => (if h in db.hosts then EntityRef(db.hosts[h].connector, db.hosts[h].key) else EntityRef(0, ""))
                     case None => EntityRef(0, ""))
    && p.number == db.ports[id].tuple.number && p.containerPort == db.ports[id].tuple.containerPort
    && p.hostIP == db.ports[id].tuple.hostIP && p.published == db.ports[id].published
  }

  /** The port facts are the port rows, under their service's reference. */
  lemma PortFactsAreStored(db: Engine.Db, networks: map<int, seq<Network>>, p: Port)
    ensures p in FactsIn(db, networks).ports <==> exists id :: PortStored(db, p, id)
  {
    if id :| PortStored(db, p, id) {
      assert p == PortFactOf(db, id);
    }
    if p in PortFacts(db) {
      var id :| id in db.ports && db.ports[id].service in db.services && p == PortFactOf(db, id);
      assert PortStored(db, p, id);
    }
  }

  /** Settling a stored route makes its columns tell the truth. */
  lemma RejudgedTells(nm: Names, w: World, row: Row<Observed.Stored<RouteData>>)
    requires Engine.Valid(w.db) && row.state == ACTIVE
    ensures Unique(w.db.hosts) && RouteTells(nm, w, Rejudged(nm, w, row))
    ensures
      var out := Rejudged(nm, w, row);
      out == row.(data := Observed.Stored(row.data.tracked["status" := out.data.tracked["status"]],
                                          row.data.payload.(service := out.data.payload.service, confidence := out.data.payload.confidence)))
  {
    hide Decides, AnyAddress, AnyName, Judged, FactsIn, Engine.Valid, Judges, Serving, Scoped;
    Keyed(w.db);
    HostsDistinct(w.db.hosts);
    var f := FactsIn(w.db, w.networks);
    FactHosts(w.db, w.networks);
    var links, r, out := Links.LinksFor(nm, f.hosts), RouteNow(nm, w, row), Rejudged(nm, w, row);
    RejudgedIs(nm, w, row);
    VerdictIsWritten(nm, f, links, r, Judged(nm, f, r));
    forall ref | Decides(nm, f, links, r, ref) {
      DecidedRow(nm, w, r, links, ref);
    }
  }

  lemma RejudgedIs(nm: Names, w: World, row: Row<Observed.Stored<RouteData>>)
    requires Unique(w.db.hosts) && Links.DistinctFacts(FactsIn(w.db, w.networks).hosts) && row.state == ACTIVE
    ensures
      var f, r, out := FactsIn(w.db, w.networks), RouteNow(nm, w, row), Rejudged(nm, w, row);
      var s := Settle(r, Judged(nm, f, r));
      && RouteNow(nm, w, out) == r && r.upstreamPort == out.data.payload.upstreamPort
      && Judges(nm, f, Links.LinksFor(nm, f.hosts), r, Judged(nm, f, r))
      && out == row.(data := Observed.Stored(
           row.data.tracked["status" := s.status],
           row.data.payload.(confidence := s.confidence,
                             service := if s.resolved.key == "" then None else FindKey(w.db.services, s.resolved.connector, s.resolved.key))))
  {
    hide FactsIn, Judges, VerdictOf;
    var out := Rejudged(nm, w, row);
    assert out.data.payload.proxy == row.data.payload.proxy && StoredRoute(out) == StoredRoute(row);
  }

  /** After a settling of the stored routes every active one tells the truth about what is stored. */
  lemma ReconciledTells(nm: Names, w: World, id: int)
    requires Engine.Valid(w.db) && id in w.db.routes && w.db.routes[id].state == ACTIVE
    ensures
      var after := Reconciled(nm, w);
      Unique(after.db.hosts) && id in after.db.routes && RouteTells(nm, after, after.db.routes[id])
  {
    hide Rejudged;
    var after := Reconciled(nm, w);
    Keyed(w.db);
    ReconciledOnlyRoutes(nm, w);
    ReconciledFacts(nm, w);
    RejudgedTells(nm, w, w.db.routes[id]);
    SameTale(nm, w, after, after.db.routes[id]);
  }

  lemma SameTale(nm: Names, a: World, b: World, row: Row<Observed.Stored<RouteData>>)
    requires b.db == a.db.(routes := b.db.routes) && b.networks == a.networks && b.proxies == a.proxies && Unique(a.db.hosts)
    requires FactsIn(b.db, b.networks) == FactsIn(a.db, a.networks)
    ensures RouteTells(nm, a, row) ==> RouteTells(nm, b, row)
  {
    SameServices(a, b);
    assert RouteNow(nm, b, row) == RouteNow(nm, a, row);
    hide Decides, AnyAddress, AnyName, FactsIn, RouteNow;
  }

  lemma SameServices(a: World, b: World)
    requires b.db == a.db.(routes := b.db.routes) && b.networks == a.networks
    ensures ServiceFacts(b.db, b.networks) == ServiceFacts(a.db, a.networks)
  {
    forall id | id in a.db.services ensures ServiceFactOf(b.db, b.networks, id) == ServiceFactOf(a.db, a.networks, id) {
    }
  }

  /** And so after every scan that goes through, whoever's routes they are. */
  lemma ScanTellsRoutes(nm: Names, order: RowOrder, w: World, scan: Scan, report: Report, id: int)
    requires Lists(order) && Engine.Valid(w.db) && Engine.WellFormed(report.snapshot)
    requires ScanOnce(nm, order, w, scan, report).Ok?
    requires
      var out := ScanOnce(nm, order, w, scan, report).value;
      id in out.db.routes && out.db.routes[id].state == ACTIVE
    ensures
      var out := ScanOnce(nm, order, w, scan, report).value;
      Unique(out.db.hosts) && RouteTells(nm, out, out.db.routes[id])
  {
    hide Applied, Rejudged, RouteTells, Engine.Valid, Engine.WellFormed;
    var w1 := Applied(nm, order, w, scan, report).value;
    Keyed(w1.db);
    RejudgedKeeps(nm, w1, w1.db.routes[id]);
    ReconciledTells(nm, w1, id);
  }

  /** With the proxy in its place, the verdicts computed before the second Apply are those the first scan stored. */
  lemma SilentWhereProxyStays(nm: Names, order: RowOrder, w: World, scan: Scan, report: Report, scan2: Scan)
    requires Admissible(order, w, report) && scan2.connector == scan.connector
    requires ScanOnce(nm, order, w, scan, report).Ok?
    requires SameProxyHost(nm, w, ScanOnce(nm, order, w, scan, report).value, report.hostname)
    ensures
      var w1 := ScanOnce(nm, order, w, scan, report).value;
      var again := ScanOnce(nm, order, w1, scan2, report);
      again.Ok? && again.value.db.log == w1.db.log
  {
    hide Applied, Reconciled, RoutesAgain, Prepared, Settled, Engine.Valid, Engine.WellFormed, ProxyHost;
    var w1 := ScanOnce(nm, order, w, scan, report).value;
    AppliedAgain(nm, order, w, scan, report, scan2);
    var mid := Applied(nm, order, w1, scan2, report).value;
    ScanSettles(nm, order, w, scan, report);
    Keyed(w1.db);
    Keyed(mid.db);
    SameProxy(nm, order, w, scan, report);
    RoutesAgainStand(nm, order, w1, scan2, report);
    ReconciledOnlyRoutes(nm, mid);
  }

  /** From the third scan on nothing is filed, whatever the first one reported. */
  lemma ThirdScanIsSilent(nm: Names, order: RowOrder, w: World, scan: Scan, report: Report, scan2: Scan, scan3: Scan)
    requires Admissible(order, w, report) && scan2.connector == scan.connector && scan3.connector == scan.connector
    requires ScanOnce(nm, order, w, scan, report).Ok?
    ensures
      var w1 := ScanOnce(nm, order, w, scan, report).value;
      var w2 := ScanOnce(nm, order, w1, scan2, report);
      w2.Ok? &&
      var w3 := ScanOnce(nm, order, w2.value, scan3, report);
      w3.Ok? && w3.value.db.log == w2.value.db.log
  {
    var w1 := ScanOnce(nm, order, w, scan, report).value;
    RescanKeepsInventory(nm, order, w, scan, report, scan2);
    ScanSettles(nm, order, w, scan, report);
    SilentWhereProxyStays(nm, order, w1, scan2, report, scan3);
  }

  predicate NotAmong<D>(rows: map<int, Row<D>>, connector: int) {
    forall id <- rows :: rows[id].connector != connector
  }

  /** A proxy source reports no hosts, and none are stored under it. */
  predicate HostlessProxy(hosts: Hosts.Rows, connector: int, report: Report) {
    report.hostname.Some? ==> report.snapshot.hosts == [] && NotAmong(hosts, connector)
  }

  /** So it never moves its own proxy. */
  lemma RoutesOnlySourceStays(nm: Names, order: RowOrder, w: World, scan: Scan, report: Report)
    requires Admissible(order, w, report) && ScanOnce(nm, order, w, scan, report).Ok?
    requires HostlessProxy(w.db.hosts, scan.connector, report)
    ensures SameProxyHost(nm, w, ScanOnce(nm, order, w, scan, report).value, report.hostname)
  {
    if report.hostname.Some? {
      NoHostsMoved(nm, order, w, scan, report);
    }
  }

  lemma NoHostsMoved(nm: Names, order: RowOrder, w: World, scan: Scan, report: Report)
    requires Admissible(order, w, report) && ScanOnce(nm, order, w, scan, report).Ok?
    requires report.snapshot.hosts == [] && NotAmong(w.db.hosts, scan.connector)
    ensures ScanOnce(nm, order, w, scan, report).value.db.hosts == w.db.hosts
  {
    hide Engine.Valid, Engine.WellFormed, Engine.Apply, Reconciled, ProxyHost, WithNetworks;
    var w0, w1 := WithProxy(nm, w, scan.connector, report.hostname), Applied(nm, order, w, scan, report).value;
    Keyed(w1.db);
    ReconciledOnlyRoutes(nm, w1);
    Keyed(w.db);
    HostsKept(order, w.db, scan, Prepared(nm, w0, ProxyOf(scan.connector, report), report.snapshot));
  }

  lemma HostsKept(order: RowOrder, db: Engine.Db, scan: Scan, s: Engine.Snapshot)
    requires Lists(order) && Engine.Apply(order, db, scan, s).Ok?
    requires s.hosts == [] && NotAmong(db.hosts, scan.connector)
    ensures Engine.Apply(order, db, scan, s).value.hosts == db.hosts
  {
    hide Services.Applied, Ports.Applied, Observed.Applied, Hosts.Applied, Ports.Resolvable;
    Engine.ApplyIs(order, db, scan, s);
    NoHostsNoChange(Hosts.Context(scan, order), db.hosts, db.log);
  }

  lemma NoHostsNoChange(cx: Hosts.Context, rows: Hosts.Rows, log: seq<Change>)
    requires NotAmong(rows, cx.scan.connector)
    ensures Hosts.Applied(cx, rows, log, []).rows == rows
  {
    assert ParentsFirst.Ordered([]) == [];
    forall id: int ensures id !in Absent(rows, cx.scan.connector, {}) {
      assert id in rows ==> rows[id].connector != cx.scan.connector;
    }
    assert Ended(rows, {}, cx.scan.now) == rows;
  }

  /**
   Scanning a source again with nothing changed files nothing: the verdicts computed before the second
   Apply are those the first scan stored.
   */
  lemma SecondScanIsSilent(nm: Names, order: RowOrder, w: World, scan: Scan, report: Report, scan2: Scan)
    requires Admissible(order, w, report) && scan2.connector == scan.connector
    requires HostlessProxy(w.db.hosts, scan.connector, report) && ScanOnce(nm, order, w, scan, report).Ok?
    ensures
      var w1 := ScanOnce(nm, order, w, scan, report).value;
      var again := ScanOnce(nm, order, w1, scan2, report);
      again.Ok? && again.value.db.log == w1.db.log
  {
    hide Admissible, ScanOnce, SameProxyHost;
    RoutesOnlySourceStays(nm, order, w, scan, report);
    SilentWhereProxyStays(nm, order, w, scan, report, scan2);
  }

  // ---------------------------------------------------------------------------
  // Whole runs of scans and purges

  datatype Event = Scanned(scan: Scan, report: Report) | Purged(cutoff: int)

  /** What connectors promise; `proxies` are the sources of a proxy kind. */
  ghost predicate Honest(proxies: set<int>, e: Event) {
    e.Scanned? ==>
      && Engine.WellFormed(e.report.snapshot) && ReportsInRange(e.report.snapshot.ports)
      && (e.report.hostname.Some? <==> e.scan.connector in proxies)
      && (e.scan.connector in proxies ==> e.report.snapshot.hosts == [])
  }

  ghost predicate AllHonest(proxies: set<int>, es: seq<Event>) {
    forall i | 0 <= i < |es| :: Honest(proxies, es[i])
  }

  /** A purge takes a deleted service's networks along and cuts a proxy's link to a deleted host. */
  function PurgedWorld(w: World, cutoff: int): World {
    var db := Engine.Purge(w.db, cutoff);
    World(db,
          map id | id in w.networks && id in db.services :: w.networks[id],
          map c | c in w.proxies ::
            if w.proxies[c].host.Some? && w.proxies[c].host.value !in db.hosts then w.proxies[c].(host := None) else w.proxies[c])
  }

  /** A scan that fails has still written its proxy's row. */
  ghost function AfterEvent(nm: Names, order: RowOrder, w: World, e: Event): (w': World)
    requires Lists(order) && Engine.Valid(w.db) && (e.Scanned? ==> Engine.WellFormed(e.report.snapshot))
    ensures Engine.Valid(w'.db)
  {
    match e
    case Scanned(scan, report) =>
      (match ScanOnce(nm, order, w, scan, report)
       case Ok(next) => next
       case Err(_) => WithProxy(nm, w, scan.connector, report.hostname))
    case Purged(cutoff) =>
      Engine.PurgeKeepsValid(w.db, cutoff);
      PurgedWorld(w, cutoff)
  }

  ghost function NewWorld(): (w: World)
    ensures Engine.Valid(w.db)
  {
    Engine.EmptyIsValid();
    World(Engine.EMPTY, map[], map[])
  }

  lemma HonestMeansFormed(proxies: set<int>, es: seq<Event>)
    requires AllHonest(proxies, es)
    ensures |es| > 0 && es[|es| - 1].Scanned? ==> Engine.WellFormed(es[|es| - 1].report.snapshot)
    ensures |es| > 0 ==> AllHonest(proxies, es[..|es| - 1])
  {
  }

  ghost function Run(nm: Names, order: RowOrder, proxies: set<int>, es: seq<Event>): (w: World)
    requires Lists(order) && AllHonest(proxies, es)
    ensures Engine.Valid(w.db)
  {
    hide Engine.Valid, Engine.WellFormed, AfterEvent;
    HonestMeansFormed(proxies, es);
    if |es| == 0 then NewWorld() else AfterEvent(nm, order, Run(nm, order, proxies, es[..|es| - 1]), es[|es| - 1])
  }

  /** What every run keeps beyond validity: ports in range, and no hosts of proxy sources. */
  ghost predicate Kept(proxies: set<int>, w: World) {
    AllInRange(w.db.ports) && forall c <- proxies :: NotAmong(w.db.hosts, c)
  }

  lemma ScanKeepsKept(nm: Names, order: RowOrder, proxies: set<int>, w: World, scan: Scan, report: Report)
    requires Lists(order) && Engine.Valid(w.db) && Kept(proxies, w) && Honest(proxies, Scanned(scan, report))
    requires ScanOnce(nm, order, w, scan, report).Ok?
    ensures Kept(proxies, ScanOnce(nm, order, w, scan, report).value)
  {
    hide Engine.Valid, Engine.WellFormed, Engine.Apply, Reconciled, Prepared, WithNetworks, ProxyHost, Settled;
    var w0, w1 := WithProxy(nm, w, scan.connector, report.hostname), Applied(nm, order, w, scan, report).value;
    Keyed(w0.db);
    var s := Prepared(nm, w0, ProxyOf(scan.connector, report), report.snapshot);
    var out := ScanOnce(nm, order, w, scan, report).value;
    ScanSettles(nm, order, w, scan, report);
    Keyed(w1.db);
    ReconciledOnlyRoutes(nm, w1);
    PreparedWellFormed(nm, w0, ProxyOf(scan.connector, report), report.snapshot);
    Engine.ScanKeepsOthers(order, w0.db, scan, s);
    forall c <- proxies ensures NotAmong(out.db.hosts, c) {
      assert NotAmong(w.db.hosts, c);
      if c == scan.connector {
        NoHostsMoved(nm, order, w, scan, report);
      }
    }
  }

  lemma PurgeKeepsKept(proxies: set<int>, w: World, cutoff: int)
    requires Engine.Valid(w.db) && Kept(proxies, w)
    ensures Kept(proxies, PurgedWorld(w, cutoff))
  {
    Engine.PurgeTakesNoPort(w.db, cutoff);
    hide Engine.Valid;
    forall c <- proxies ensures NotAmong(PurgedWorld(w, cutoff).db.hosts, c) {
      assert NotAmong(w.db.hosts, c);
    }
  }

  lemma {:induction false} RunKeepsKept(nm: Names, order: RowOrder, proxies: set<int>, es: seq<Event>)
    requires Lists(order) && AllHonest(proxies, es)
    ensures Kept(proxies, Run(nm, order, proxies, es))
  {
    if |es| > 0 {
      hide Kept, Honest, ScanOnce, PurgedWorld, WithProxy;
      var w, e := Run(nm, order, proxies, es[..|es| - 1]), es[|es| - 1];
      RunKeepsKept(nm, order, proxies, es[..|es| - 1]);
      match e
      case Scanned(scan, report) => ScannedKept(nm, order, proxies, w, scan, report);
      case Purged(cutoff) => PurgeKeepsKept(proxies, w, cutoff);
    } else {
      assert Kept(proxies, NewWorld());
    }
  }

  lemma ScannedKept(nm: Names, order: RowOrder, proxies: set<int>, w: World, scan: Scan, report: Report)
    requires Lists(order) && Engine.Valid(w.db) && Kept(proxies, w) && Honest(proxies, Scanned(scan, report))
    ensures Kept(proxies, AfterEvent(nm, order, w, Scanned(scan, report)))
  {
    hide Engine.Valid, Engine.WellFormed;
    if ScanOnce(nm, order, w, scan, report).Ok? {
      ScanKeepsKept(nm, order, proxies, w, scan, report);
    }
  }

  /**
   Whatever was scanned and purged before, by whatever sources: the second of two scans of a source that
   reports the same files nothing at all.
   */
  lemma RescanIsSilentAfterAnyRun(nm: Names, order: RowOrder, proxies: set<int>, es: seq<Event>, scan: Scan, report: Report, scan2: Scan)
    requires Lists(order) && AllHonest(proxies, es)
    requires Honest(proxies, Scanned(scan, report)) && scan2.connector == scan.connector
    requires ScanOnce(nm, order, Run(nm, order, proxies, es), scan, report).Ok?
    ensures
      var w1 := ScanOnce(nm, order, Run(nm, order, proxies, es), scan, report).value;
      var again := ScanOnce(nm, order, w1, scan2, report);
      again.Ok? && again.value.db.log == w1.db.log
  {
    hide Run, ScanOnce, Engine.Valid, Engine.WellFormed;
    RunKeepsKept(nm, order, proxies, es);
    SecondScanIsSilent(nm, order, Run(nm, order, proxies, es), scan, report, scan2);
  }
}
