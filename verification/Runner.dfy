/**
 The runner (internal/engine/runner.go, Scan, ensureProxy; internal/resolve/resolve.go, LoadHosts,
 LoadInventory, ReconcileStore): one object that loads the inventory row by row, settles a proxy's routes,
 applies the snapshot and settles what is stored. Each scan is proved to be `Pipeline.ScanOnce`.
 */
module Runner {
  import opened Results
  import opened Store
  import opened Domain
  import opened Resolve
  import Strings
  import Links
  import Hosts
  import Services
  import Ports
  import Observed
  import Engine
  import Applier
  import opened Pipeline

  // ---------------------------------------------------------------------------
  // Rows as the queries hand them over

  function LoadedHost(hosts: Hosts.Rows, id: int): (h: Host)
    requires id in hosts
    ensures HostOf(h) == HostFactOf(hosts, id)
  {
    var d := hosts[id].data;
    Host(id, EntityRef(hosts[id].connector, hosts[id].key), d.kind, d.name, d.address, d.aliases)
  }

  function LoadedService(db: Engine.Db, networks: map<int, seq<Network>>, id: int): (s: Service)
    requires id in db.services
    ensures ServiceOf(s) == ServiceFactOf(db, networks, id)
  {
    var row := db.services[id];
    Service(EntityRef(row.connector, row.key), HostRef(db.hosts, row.data.host), row.data.name,
            if id in networks then networks[id] else [])
  }

  function ActiveHosts(hosts: Hosts.Rows): set<int> {
    set id | id in hosts && hosts[id].state == ACTIVE
  }

  function LiveServices(services: Services.Rows): set<int> {
    set id | id in services && services[id].state != GONE
  }

  function JoinedPorts(ports: Ports.Rows, services: Services.Rows): set<int> {
    set id | id in ports && ports[id].service in services
  }

  function ActiveRoutes(routes: Observed.Rows<RouteData>): set<int> {
    set id | id in routes && routes[id].state == ACTIVE
  }

  datatype Outcome = Busy | Failed(error: Engine.Error) | Done(changes: nat)

  /** What a scan does to the world, and what it says of it. */
  ghost predicate Effect(nm: Names, order: RowOrder, before: World, scan: Scan, report: Report, after: World, r: Outcome)
    requires Lists(order) && Engine.Valid(before.db) && Engine.WellFormed(report.snapshot)
  {
    match ScanOnce(nm, order, before, scan, report)
    case Ok(w) => after == w && r.Done? && r.changes == |after.db.log| - |before.db.log|
    case Err(e) => after == WithProxy(nm, before, scan.connector, report.hostname) && r == Failed(e)
  }

  class Runner {
    const nm: Names
    const applier: Applier.Applier
    var networks: map<int, seq<Network>>
    var proxies: map<int, Proxy>
    var running: set<int>

    ghost function Contents(): World
      reads this, applier
    {
      World(applier.Contents(), networks, proxies)
    }

    ghost predicate Valid()
      reads this, applier
    {
      applier.Valid()
    }

    constructor (nm: Names, applier: Applier.Applier)
      requires applier.Valid()
      ensures Valid() && this.nm == nm && this.applier == applier && running == {}
      ensures Contents() == World(applier.Contents(), map[], map[])
    {
      this.nm, this.applier := nm, applier;
      networks, proxies, running := map[], map[], {};
    }

    // -------------------------------------------------------------------------
    // Loading

    method LoadHosts() returns (hosts: seq<Host>)
      requires Valid()
      ensures HostsOf(hosts) == HostFacts(applier.hosts) && Links.DistinctRefs(hosts)
    {
      var ids := applier.order(ActiveHosts(applier.hosts));
      ghost var all := ActiveHosts(applier.hosts);
      assert ListOf(ids, all);
      hosts := [];
      for i := 0 to |ids|
        invariant |hosts| == i && forall j | 0 <= j < i :: ids[j] in applier.hosts && hosts[j] == LoadedHost(applier.hosts, ids[j])
      {
        assert ids[i] in all;
        hosts := hosts + [LoadedHost(applier.hosts, ids[i])];
      }
      HostsLoaded(applier.hosts, ids, hosts);
    }

    method LoadServices() returns (services: seq<Service>)
      requires Valid()
      ensures ServicesOf(services) == ServiceFacts(applier.Contents(), networks) && DistinctServices(services)
    {
      var ids := applier.order(LiveServices(applier.services));
      ghost var all, db := LiveServices(applier.services), applier.Contents();
      assert ListOf(ids, all);
      services := [];
      for i := 0 to |ids|
        invariant |services| == i
        invariant forall j | 0 <= j < i :: ids[j] in db.services && services[j] == LoadedService(db, networks, ids[j])
      {
        assert ids[i] in all;
        var row := applier.services[ids[i]];
        services := services + [Service(EntityRef(row.connector, row.key), HostRef(applier.hosts, row.data.host), row.data.name,
                                        if ids[i] in networks then networks[ids[i]] else [])];
      }
      ServicesLoaded(db, networks, ids, services);
    }

    method LoadPorts() returns (ports: seq<Port>)
      requires Valid()
      ensures SetOf(ports) == PortFacts(applier.Contents())
    {
      var ids := applier.order(JoinedPorts(applier.ports, applier.services));
      ghost var all, db := JoinedPorts(applier.ports, applier.services), applier.Contents();
      assert ListOf(ids, all);
      ports := [];
      for i := 0 to |ids|
        invariant |ports| == i
        invariant forall j | 0 <= j < i ::
          ids[j] in db.ports && db.ports[ids[j]].service in db.services && ports[j] == PortFactOf(db, ids[j])
      {
        assert ids[i] in all;
        var p := applier.ports[ids[i]];
        var s := applier.services[p.service];
        ports := ports + [Port(EntityRef(s.connector, s.key), HostRef(applier.hosts, p.host), p.tuple.number,
                               p.tuple.containerPort, p.published, p.tuple.hostIP)];
      }
      PortsLoaded(db, ids, ports);
    }

    /** The inventory, in whatever order the database hands it over. */
    method LoadInventory() returns (inv: Inventory)
      requires Valid()
      ensures FactsOf(inv) == FactsIn(applier.Contents(), networks)
      ensures Links.DistinctRefs(inv.hosts) && DistinctServices(inv.services)
    {
      hide HostFacts, ServiceFacts, PortFacts, HostsOf, ServicesOf, SetOf;
      var hosts := LoadHosts();
      var services := LoadServices();
      var ports := LoadPorts();
      inv := Inventory(hosts, services, ports);
      Assembled(inv, applier.Contents(), networks);
    }

    // -------------------------------------------------------------------------
    // Settling

    /** The machine the proxy runs on, by the hosts known now. */
    method EnsureProxy(connector: int, hostname: string)
      requires Valid()
      modifies `proxies
      ensures Contents() == WithProxy(nm, old(Contents()), connector, Some(hostname))
    {
      var host := None;
      if hostname != "" {
        var hosts := LoadHosts();
        var ids := Links.MachineHostIds(nm, hosts, hostname);
        host := Only(ids);
        OnlyMachine(nm, HostFacts(applier.hosts), hostname, ids, host);
      }
      proxies := proxies[connector := Proxy(host, hostname)];
    }

    method Only(ids: set<int>) returns (r: Option<int>)
      ensures r == if |ids| == 1 then Some(MaxOf(ids)) else None
    {
      r := None;
      if |ids| == 1 {
        r := Some(MaxOf(ids));
      }
    }

    /** A route under its proxy's scope, settled. */
    method SettleOne(inv: Inventory, links: map<EntityRef, EntityRef>, proxy: Option<int>, r: Route) returns (out: Route)
      requires Valid() && FactsOf(inv) == FactsIn(applier.Contents(), networks)
      requires DistinctServices(inv.services) && Links.LinksOf(nm, HostsOf(inv.hosts), links)
      ensures out == SettledRoute(nm, Contents(), proxy, r)
    {
      var scoped := r.(proxy := proxy, proxyHost := NOWHERE, proxyNetworks := []);
      if proxy.Some? && proxy.value in proxies {
        var p := proxies[proxy.value];
        var host := HostRef(applier.hosts, p.host);
        var scope := ProxyNetworks(nm, inv, host, p.hostname);
        SameScope(nm, ServicesOf(inv.services), host, p.hostname, scope);
        scoped := r.(proxy := proxy, proxyHost := host, proxyNetworks := scope);
      }
      assert scoped == Pipeline.Scoped(nm, Contents(), proxy, r);
      out := Resolve.Resolve(nm, scoped, inv, links);
      ghost var v :| Judges(nm, FactsOf(inv), links, scoped, v) && out == Settle(scoped, v);
      HostsDistinct(applier.hosts);
      Links.LinksAreFixed(nm, HostsOf(inv.hosts), links, Links.LinksFor(nm, HostsOf(inv.hosts)));
      OneVerdict(nm, FactsOf(inv), links, scoped, v, Judged(nm, FactsOf(inv), scoped));
    }

    method SettleAll(inv: Inventory, links: map<EntityRef, EntityRef>, proxy: Option<int>, rs: seq<Route>) returns (out: seq<Route>)
      requires Valid() && FactsOf(inv) == FactsIn(applier.Contents(), networks)
      requires DistinctServices(inv.services) && Links.LinksOf(nm, HostsOf(inv.hosts), links)
      ensures out == SettledRoutes(nm, Contents(), proxy, rs)
    {
      hide Links.LinksOf, FactsOf, FactsIn;
      out := [];
      for i := 0 to |rs|
        invariant |out| == i && forall j | 0 <= j < i :: out[j] == SettledRoute(nm, Contents(), proxy, rs[j])
      {
        var r := SettleOne(inv, links, proxy, rs[i]);
        out := out + [r];
      }
    }

    /** Every active stored route settled against what is stored now. */
    method ReconcileRoutes()
      requires Valid()
      modifies applier`routes
      ensures Valid() && Contents() == Reconciled(nm, old(Contents()))
    {
      ghost var w := Contents();
      ReconcileKeepsValid(nm, w);
      var inv := LoadInventory();
      var links := Links.LinkMachines(nm, inv.hosts);
      var ids, stored := applier.order(ActiveRoutes(applier.routes)), applier.routes;
      assert ListOf(ids, ActiveRoutes(stored));
      var settled := SettleRows(inv, links, stored, ids);
      RowsSettled(nm, w, ids, settled);
      applier.routes := settled;
    }

    method SettleRows(inv: Inventory, links: map<EntityRef, EntityRef>, stored: Observed.Rows<RouteData>, ids: seq<int>)
      returns (rows: Observed.Rows<RouteData>)
      requires Valid() && FactsOf(inv) == FactsIn(applier.Contents(), networks)
      requires DistinctServices(inv.services) && Links.LinksOf(nm, HostsOf(inv.hosts), links)
      requires ListOf(ids, ActiveRoutes(stored))
      ensures rows.Keys == stored.Keys
      ensures forall id <- rows :: rows[id] == if id in ids then Rejudged(nm, Contents(), stored[id]) else stored[id]
    {
      hide Links.LinksOf, FactsOf, FactsIn, SettledRoute;
      rows := stored;
      for i := 0 to |ids|
        invariant rows.Keys == stored.Keys
        invariant forall id <- rows :: rows[id] == if id in ids[..i] then Rejudged(nm, Contents(), stored[id]) else stored[id]
      {
        assert ids[i] in ActiveRoutes(stored);
        assert forall id: int :: id in ids[..i + 1] <==> id in ids[..i] || id == ids[i];
        var row := stored[ids[i]];
        var r := SettleOne(inv, links, row.data.payload.proxy, StoredRoute(row));
        var service := None;
        if r.resolved.key != "" {
          service := FindKey(applier.services, r.resolved.connector, r.resolved.key);
        }
        rows := rows[ids[i] := row.(data := Observed.Stored(row.data.tracked["status" := r.status],
                                                            row.data.payload.(service := service, confidence := r.confidence)))];
      }
      assert ids[..|ids|] == ids;
    }

    /** Every reported service's networks replace those stored for its row, unless they are the same. */
    method ApplyNetworks(connector: int, items: seq<Services.Service>, reported: map<string, seq<Network>>, ghost ids: map<string, int>)
      requires ids.Keys == Services.KeysOf(items)
      requires forall k <- ids :: FindKey(applier.services, connector, k) == Some(ids[k])
      modifies `networks
      ensures networks == WithNetworks(old(networks), ids, reported)
    {
      hide WithNetworks, Restricted;
      ghost var was := networks;
      NoNetworks(was, ids, reported);
      assert items[..0] == [];
      for i := 0 to |items|
        invariant networks == WithNetworks(was, Restricted(ids, Services.KeysOf(items[..i])), reported)
      {
        assert items[..i + 1][..i] == items[..i];
        Services.KeyOfItem(items, i);
        var key := items[i].key;
        var id := FindKey(applier.services, connector, key).value;
        var incoming := if key in reported then reported[key] else [];
        MoreNetworks(was, ids, Services.KeysOf(items[..i]), key, reported, applier.services, connector);
        if id !in networks || networks[id] != incoming {
          networks := networks[id := incoming];
        }
      }
      assert items[..|items|] == items;
      AllOfThem(ids);
    }

    /** A proxy's row, and the snapshot with its routes settled. */
    method Prepare(scan: Scan, report: Report) returns (s: Engine.Snapshot)
      requires Valid()
      modifies `proxies
      ensures Valid() && Contents() == WithProxy(nm, old(Contents()), scan.connector, report.hostname)
      ensures s == Prepared(nm, Contents(), ProxyOf(scan.connector, report), report.snapshot)
    {
      hide SettledRoutes, Links.LinksOf, FactsOf, FactsIn, Links.DistinctRefs, DistinctServices;
      if report.hostname.Some? {
        EnsureProxy(scan.connector, report.hostname.value);
      }
      var inv := LoadInventory();
      var links := Links.LinkMachines(nm, inv.hosts);
      InventoryHosts(inv, applier.Contents(), networks);
      var routes := SettleAll(inv, links, ProxyOf(scan.connector, report), report.snapshot.routes);
      s := report.snapshot.(routes := routes);
    }

    /** The snapshot applied with its networks, or nothing at all. */
    method ApplySnapshot(scan: Scan, s: Engine.Snapshot, report: Report) returns (r: Result<nat, Engine.Error>)
      requires Valid() && Engine.WellFormed(s) && s.services == report.snapshot.services
      modifies `networks, applier
      ensures Valid() && proxies == old(proxies)
      ensures r.Ok? ==>
        Engine.Apply(applier.order, old(applier.Contents()), scan, s) == Ok(applier.Contents()) &&
        networks == WithNetworks(old(networks), Engine.ServicesOf(applier.order, old(applier.Contents()), scan, s).ids, report.networks) &&
        r.value == |applier.log| - |old(applier.log)|
      ensures r.Err? ==>
        Engine.Apply(applier.order, old(applier.Contents()), scan, s) == Err(r.error) &&
        applier.Contents() == old(applier.Contents()) && networks == old(networks)
    {
      hide Engine.Apply, Engine.Valid, Engine.WellFormed, WithNetworks;
      ghost var db := applier.Contents();
      r := applier.Apply(scan, s);
      if r.Ok? {
        ghost var ids := Engine.ServicesOf(applier.order, db, scan, s).ids;
        IdsFound(applier.order, db, scan, s, applier.Contents());
        ApplyNetworks(scan.connector, s.services, report.networks, ids);
      }
    }

    method ScanNow(scan: Scan, report: Report) returns (r: Outcome)
      requires Valid() && Engine.WellFormed(report.snapshot)
      modifies `networks, `proxies, applier
      ensures Valid() && !r.Busy? && Effect(nm, applier.order, old(Contents()), scan, report, Contents(), r)
    {
      hide Engine.Apply, Engine.Valid, Engine.WellFormed, WithNetworks, Prepared, WithProxy, Reconciled;
      ghost var w := Contents();
      var s := Prepare(scan, report);
      ghost var w0 := Contents();
      Keyed(w0.db);
      PreparedWellFormed(nm, w0, ProxyOf(scan.connector, report), report.snapshot);
      PreparedServices(nm, w0, ProxyOf(scan.connector, report), report.snapshot);
      var applied := ApplySnapshot(scan, s, report);
      if applied.Err? {
        r := Failed(applied.error);
      } else {
        ReconcileRoutes();
        r := Done(applied.value);
      }
    }

    /** The gate: a source is let in only if no scan of it is under way. */
    method Enter(connector: int) returns (ok: bool)
      modifies `running
      ensures ok <==> connector !in old(running)
      ensures running == old(running) + {connector}
    {
      ok := connector !in running;
      running := running + {connector};
    }

    method Leave(connector: int)
      modifies `running
      ensures running == old(running) - {connector}
    {
      running := running - {connector};
    }

    /** One scan of a source, refused while another one is between `Enter` and `Leave`. */
    method Scan(scan: Scan, report: Report) returns (r: Outcome)
      requires Valid() && Engine.WellFormed(report.snapshot)
      modifies this, applier
      ensures Valid() && running == old(running)
      ensures if scan.connector in old(running) then r.Busy? && Contents() == old(Contents())
              else !r.Busy? && Effect(nm, applier.order, old(Contents()), scan, report, Contents(), r)
    {
      hide Effect, Engine.Valid, Engine.WellFormed;
      r := Busy;
      var ok := Enter(scan.connector);
      if ok {
        r := ScanNow(scan, report);
        Leave(scan.connector);
      }
    }
  }

  lemma ServicesLoaded(db: Engine.Db, networks: map<int, seq<Network>>, ids: seq<int>, services: seq<Service>)
    requires Unique(db.services) && ListOf(ids, LiveServices(db.services)) && |services| == |ids|
    requires forall j | 0 <= j < |ids| :: ids[j] in db.services && services[j] == LoadedService(db, networks, ids[j])
    ensures ServicesOf(services) == ServiceFacts(db, networks) && DistinctServices(services)
  {
    forall f | f in ServiceFacts(db, networks) ensures f in ServicesOf(services) {
      var id :| id in db.services && db.services[id].state != GONE && f == ServiceFactOf(db, networks, id);
      assert id in LiveServices(db.services);
      var j :| 0 <= j < |ids| && ids[j] == id;
      assert services[j] in services && ServiceOf(services[j]) == f;
    }
    forall f | f in ServicesOf(services) ensures f in ServiceFacts(db, networks) {
      var j :| 0 <= j < |services| && ServiceOf(services[j]) == f;
      assert ids[j] in LiveServices(db.services);
    }
  }

  lemma PortsLoaded(db: Engine.Db, ids: seq<int>, ports: seq<Port>)
    requires ListOf(ids, JoinedPorts(db.ports, db.services)) && |ports| == |ids|
    requires forall j | 0 <= j < |ids| ::
      ids[j] in db.ports && db.ports[ids[j]].service in db.services && ports[j] == PortFactOf(db, ids[j])
    ensures SetOf(ports) == PortFacts(db)
  {
    forall f | f in PortFacts(db) ensures f in SetOf(ports) {
      var id :| id in db.ports && db.ports[id].service in db.services && f == PortFactOf(db, id);
      assert id in JoinedPorts(db.ports, db.services);
      var j :| 0 <= j < |ids| && ids[j] == id;
      assert ports[j] == f;
    }
  }

  lemma Assembled(inv: Inventory, db: Engine.Db, networks: map<int, seq<Network>>)
    requires HostsOf(inv.hosts) == HostFacts(db.hosts) && ServicesOf(inv.services) == ServiceFacts(db, networks)
    requires SetOf(inv.ports) == PortFacts(db)
    ensures FactsOf(inv) == FactsIn(db, networks)
  {
  }

  lemma OneIsOnly(nm: Names, hosts: set<HostFact>, hostname: string, ids: set<int>)
    requires hostname != "" && |ids| == 1 && nm.normalize(hostname) != ""
    requires forall id :: id in ids <==> Links.RefersTo(nm, hosts, nm.normalize(hostname), id)
    ensures ProxyHost(nm, hosts, hostname).Some?
  {
    hide Links.RefersTo;
    var id := MaxOf(ids);
    OneMember(ids, id);
    assert Links.RefersTo(nm, hosts, nm.normalize(hostname), id);
    forall other | Links.RefersTo(nm, hosts, nm.normalize(hostname), other) ensures other == id {
      assert other in ids;
    }
  }

  lemma OnlyIsOne(nm: Names, hosts: set<HostFact>, hostname: string, ids: set<int>)
    requires ProxyHost(nm, hosts, hostname).Some?
    requires forall id :: id in ids <==> Links.RefersTo(nm, hosts, nm.normalize(hostname), id)
    ensures |ids| == 1 && ProxyHost(nm, hosts, hostname) == Some(MaxOf(ids))
  {
    hide Links.RefersTo;
    var id := ProxyHost(nm, hosts, hostname).value;
    assert Links.RefersTo(nm, hosts, nm.normalize(hostname), id);
    forall x: int ensures x in ids <==> x == id {
      assert Links.RefersTo(nm, hosts, nm.normalize(hostname), x) ==> x == id;
    }
    assert ids == {id};
  }

  lemma OnlyMachine(nm: Names, hosts: set<HostFact>, hostname: string, ids: set<int>, host: Option<int>)
    requires hostname != "" && host == if |ids| == 1 then Some(MaxOf(ids)) else None
    requires forall id :: id in ids <==> nm.normalize(hostname) != "" && Links.RefersTo(nm, hosts, nm.normalize(hostname), id)
    ensures host == ProxyHost(nm, hosts, hostname)
  {
    hide Links.RefersTo;
    if nm.normalize(hostname) == "" {
    } else {
      if |ids| == 1 {
        OneIsOnly(nm, hosts, hostname, ids);
      }
      if ProxyHost(nm, hosts, hostname).Some? {
        OnlyIsOne(nm, hosts, hostname, ids);
      }
    }
  }

  lemma SameScope(nm: Names, services: set<ServiceFact>, host: EntityRef, hostname: string, scope: seq<string>)
    requires Strings.Increasing(scope) && forall n :: n in scope <==> ProxyNetwork(nm, services, host, hostname, n)
    ensures scope == ProxyNetworksOf(nm, services, host, hostname)
  {
    var other := ProxyNetworksOf(nm, services, host, hostname);
    forall n ensures n in scope <==> n in other {
      if ProxyNetwork(nm, services, host, hostname, n) {
        var s :| IsProxy(nm, services, host, nm.normalize(hostname), s) && exists k <- s.networks :: k.name == n;
        var k :| k in s.networks && k.name == n;
      }
    }
    Strings.IncreasingUnique(scope, other);
  }

  lemma HostsLoaded(rows: Hosts.Rows, ids: seq<int>, hosts: seq<Host>)
    requires Unique(rows) && ListOf(ids, ActiveHosts(rows)) && |hosts| == |ids|
    requires forall j | 0 <= j < |ids| :: ids[j] in rows && hosts[j] == LoadedHost(rows, ids[j])
    ensures HostsOf(hosts) == HostFacts(rows) && Links.DistinctRefs(hosts)
  {
    forall f | f in HostFacts(rows) ensures f in HostsOf(hosts) {
      var id :| id in rows && rows[id].state == ACTIVE && f == HostFactOf(rows, id);
      assert id in ActiveHosts(rows);
      var j :| 0 <= j < |ids| && ids[j] == id;
      assert hosts[j] in hosts && HostOf(hosts[j]) == f;
    }
    forall f | f in HostsOf(hosts) ensures f in HostFacts(rows) {
      var j :| 0 <= j < |hosts| && HostOf(hosts[j]) == f;
      assert ids[j] in ActiveHosts(rows);
    }
  }

  lemma RowsSettled(nm: Names, w: World, ids: seq<int>, rows: Observed.Rows<RouteData>)
    requires Unique(w.db.hosts) && ListOf(ids, ActiveRoutes(w.db.routes)) && rows.Keys == w.db.routes.Keys
    requires forall id <- rows :: rows[id] == if id in ids then Rejudged(nm, w, w.db.routes[id]) else w.db.routes[id]
    ensures rows == Reconciled(nm, w).db.routes
  {
    hide SettledRoute;
    forall id <- rows ensures rows[id] == Rejudged(nm, w, w.db.routes[id]) {
      assert id in ActiveRoutes(w.db.routes) ==> id in ids;
    }
  }

  lemma InventoryHosts(inv: Inventory, db: Engine.Db, networks: map<int, seq<Network>>)
    requires FactsOf(inv) == FactsIn(db, networks)
    ensures HostsOf(inv.hosts) == HostFacts(db.hosts)
  {
  }

  ghost function Restricted(ids: map<string, int>, keys: set<string>): map<string, int> {
    map k | k in ids && k in keys :: ids[k]
  }

  lemma AllOfThem(ids: map<string, int>)
    ensures Restricted(ids, ids.Keys) == ids
  {
  }

  lemma NoNetworks(networks: map<int, seq<Network>>, ids: map<string, int>, reported: map<string, seq<Network>>)
    ensures WithNetworks(networks, Restricted(ids, {}), reported) == networks
  {
    assert Restricted(ids, {}) == map[];
    assert Restricted(ids, {}).Values == {};
  }

  lemma ValuesAnd(a: map<string, int>, key: string, id: int)
    requires key in a ==> a[key] == id
    ensures a[key := id].Values == a.Values + {id}
  {
    var b := a[key := id];
    assert b[key] == id;
    forall v: int ensures v in b.Values <==> v in a.Values || v == id {
      if k :| k in a && a[k] == v {
        assert b[k] == v;
      }
      if k :| k in b && b[k] == v {
        assert k == key || a[k] == v;
      }
    }
  }

  lemma NetworksElsewhere(networks: map<int, seq<Network>>, a: map<string, int>, key: string, id: int, reported: map<string, seq<Network>>, at: int)
    requires (key in a ==> a[key] == id) && at != id
    requires forall k, m | k in a && m in a && a[k] == a[m] :: k == m
    requires forall k <- a :: a[k] == id ==> k == key
    ensures at in WithNetworks(networks, a, reported) <==> at in WithNetworks(networks, a[key := id], reported)
    ensures at in WithNetworks(networks, a, reported) ==>
      WithNetworks(networks, a, reported)[at] == WithNetworks(networks, a[key := id], reported)[at]
  {
    ValuesAnd(a, key, id);
    var b := a[key := id];
    if k :| k in a && a[k] == at {
      NetworksAt(networks, a, reported, k);
      NetworksAt(networks, b, reported, k);
    } else {
      assert forall k <- b :: b[k] != at;
    }
  }

  /** One more service: its row's networks, whichever rows the others have. */
  lemma MoreNetworks(networks: map<int, seq<Network>>, ids: map<string, int>, keys: set<string>, key: string,
                     reported: map<string, seq<Network>>, services: Services.Rows, connector: int)
    requires key in ids && forall k <- ids :: FindKey(services, connector, k) == Some(ids[k])
    ensures WithNetworks(networks, Restricted(ids, keys + {key}), reported)
         == WithNetworks(networks, Restricted(ids, keys), reported)[ids[key] := if key in reported then reported[key] else []]
  {
    hide WithNetworks, FindKey;
    var a, id := Restricted(ids, keys), ids[key];
    assert Restricted(ids, keys + {key}) == a[key := id];
    forall k, m | k in ids && m in ids && ids[k] == ids[m] ensures k == m {
      assert services[ids[k]].key == k && services[ids[m]].key == m;
    }
    var x, y := WithNetworks(networks, a, reported), WithNetworks(networks, a[key := id], reported);
    NetworksAt(networks, a[key := id], reported, key);
    forall at: int | at != id ensures (at in x <==> at in y) && (at in x ==> x[at] == y[at]) {
      NetworksElsewhere(networks, a, key, id, reported, at);
    }
    assert y == x[id := if key in reported then reported[key] else []];
  }
}
