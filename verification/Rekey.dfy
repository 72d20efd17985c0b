/**
 What a change of key scheme does to the store (internal/engine/apply.go, applyServices and applyPorts
 together): nothing that anyone can see.
 */
module Rekey {
  import opened Results
  import opened Store
  import ParentsFirst
  import Hosts
  import Services
  import Ports
  import Engine

  /** The rows a snapshot's hosts are stored as already. */
  function KnownHosts(hosts: Hosts.Rows, connector: int, items: seq<ParentsFirst.Host>): map<string, int> {
    map k | k in ParentsFirst.KeysOf(items) && FindKey(hosts, connector, k).Some? :: FindKey(hosts, connector, k).value
  }

  function Known(order: RowOrder, db: Engine.Db, scan: Scan, s: Engine.Snapshot): Services.Context {
    Engine.ServiceContext(order, scan, KnownHosts(db.hosts, scan.connector, s.hosts), s.services)
  }

  ghost predicate StoredAs(rows: Ports.Rows, connector: int, home: map<string, int>, p: Ports.Port) {
    p.serviceKey in home && exists id ::
      id in rows && rows[id].connector == connector && rows[id].service == home[p.serviceKey] && rows[id].tuple == p.tuple
      && rows[id].published == p.published && rows[id].source == p.source
  }

  ghost predicate ReportedIn(items: seq<Ports.Port>, home: map<string, int>, row: Ports.PortRow) {
    exists i :: 0 <= i < |items| && items[i].serviceKey in home && home[items[i].serviceKey] == row.service && items[i].tuple == row.tuple
  }

  /** Every reported service names a host that is stored already, or none of the snapshot's. */
  ghost predicate HostsKnown(db: Engine.Db, scan: Scan, s: Engine.Snapshot) {
    forall i | 0 <= i < |s.services| && s.services[i].hostKey in ParentsFirst.KeysOf(s.hosts) ::
      s.services[i].hostKey in KnownHosts(db.hosts, scan.connector, s.hosts)
  }

  /**
   The connector reports what is stored, each service under its stored key or a new one: `home` says which
   row a reported service must be (the one under its key, or else its one live namesake on the same host
   whose key is not reported). Every live service is among them, with the same tracked columns, and the
   ports are the stored ports of those rows.
   */
  ghost predicate SameUnderNewKeys(order: RowOrder, db: Engine.Db, scan: Scan, s: Engine.Snapshot, home: map<string, int>) {
    && HostsKnown(db, scan, s)
    && home.Keys == Services.KeysOf(s.services)
    && Services.Recognised(Known(order, db, scan, s), db.services, s.services, home)
    && Services.Unchanged(Known(order, db, scan, s), db.services, s.services, home)
    && (forall id <- db.services :: db.services[id].connector == scan.connector && db.services[id].state != GONE ==> id in home.Values)
    && (forall i | 0 <= i < |Ports.Deduped(s.ports)| :: StoredAs(db.ports, scan.connector, home, Ports.Deduped(s.ports)[i]))
    && (forall id <- db.ports :: db.ports[id].connector == scan.connector ==> ReportedIn(Ports.Deduped(s.ports), home, db.ports[id]))
  }

  // ---------------------------------------------------------------------------
  // Services

  /** The hosts pass gives a stored host the id it has. */
  lemma SameHosts(order: RowOrder, db: Engine.Db, scan: Scan, s: Engine.Snapshot, i: nat)
    requires Unique(db.hosts) && ParentsFirst.Distinct(s.hosts) && HostsKnown(db, scan, s) && i < |s.services|
    ensures
      var cx := Engine.ServiceContext(order, scan, Engine.HostsOf(order, db, scan, s).ids, s.services);
      Services.HostOf(cx, s.services[i]) == Services.HostOf(Known(order, db, scan, s), s.services[i])
  {
    var hs, h, k := ParentsFirst.Ordered(s.hosts), Engine.HostsOf(order, db, scan, s), s.services[i].hostKey;
    Engine.HostsLeave(order, db, scan, s);
    ParentsFirst.OrderDistinct(s.hosts);
    if k in h.ids {
      var j := ParentsFirst.HostOfKey(hs, k);
      assert Hosts.Landed(Hosts.Context(scan, order), db.hosts, hs, h, j);
    }
  }

  lemma SameService(cx: Services.Context, known: Services.Context, before: Services.Rows, s: Services.Service, id: int)
    requires known.(hosts := cx.hosts) == cx && Services.HostOf(cx, s) == Services.HostOf(known, s)
    ensures Services.Recognises(known, before, s, id) ==> Services.Recognises(cx, before, s, id)
    ensures Services.RowOf(known, s) == Services.RowOf(cx, s)
  {
    assert cx.scan == known.scan && cx.incoming == known.incoming;
    assert Services.Namesakes(cx, before, s) == Services.Namesakes(known, before, s);
    assert Services.Adoptable(cx, before, s) == Services.Adoptable(known, before, s);
  }

  lemma StillRecognised(order: RowOrder, db: Engine.Db, scan: Scan, s: Engine.Snapshot, home: map<string, int>)
    requires Unique(db.hosts) && ParentsFirst.Distinct(s.hosts) && SameUnderNewKeys(order, db, scan, s, home)
    ensures
      var cx := Engine.ServiceContext(order, scan, Engine.HostsOf(order, db, scan, s).ids, s.services);
      Services.Recognised(cx, db.services, s.services, home) && Services.Unchanged(cx, db.services, s.services, home)
  {
    var cx := Engine.ServiceContext(order, scan, Engine.HostsOf(order, db, scan, s).ids, s.services);
    forall i | 0 <= i < |s.services|
      ensures Services.Recognises(cx, db.services, s.services[i], home[s.services[i].key])
      ensures Services.RowOf(cx, s.services[i]) == Services.RowOf(Known(order, db, scan, s), s.services[i])
    {
      SameHosts(order, db, scan, s, i);
      SameService(cx, Known(order, db, scan, s), db.services, s.services[i], home[s.services[i].key]);
    }
  }

  lemma ServicesStay(order: RowOrder, db: Engine.Db, scan: Scan, s: Engine.Snapshot, home: map<string, int>)
    requires Lists(order) && Engine.Keyed(db) && Engine.WellFormed(s) && SameUnderNewKeys(order, db, scan, s, home)
    ensures
      var v := Engine.ServicesOf(order, db, scan, s);
      && v.ids == home && v.rows.Keys == db.services.Keys && v.log == Engine.HostsOf(order, db, scan, s).log
      && forall k <- home :: home[k] in v.rows && v.rows[home[k]].key == k
  {
    hide Services.Recognised, Services.Unchanged;
    var h := Engine.HostsOf(order, db, scan, s);
    var cx := Engine.ServiceContext(order, scan, h.ids, s.services);
    StillRecognised(order, db, scan, s, home);
    Services.RekeyKeepsRows(cx, db.services, h.log, s.services, home);
    Services.RekeyIsSilent(cx, db.services, h.log, s.services, home);
  }

  // ---------------------------------------------------------------------------
  // Ports

  lemma StoredIsSeen(cx: Ports.Context, stored: Ports.Rows, keyOf: map<int, string>, p: Ports.Port)
    requires Ports.Unique(stored) && Ports.Tied(stored, cx.scan.connector, keyOf)
    requires StoredAs(stored, cx.scan.connector, cx.services, p)
    ensures Ports.Seen(cx, stored, p)
  {
    var id :| id in stored && stored[id].connector == cx.scan.connector && stored[id].service == cx.services[p.serviceKey]
      && stored[id].tuple == p.tuple && stored[id].published == p.published && stored[id].source == p.source;
    Ports.IdentityIs(stored, cx.scan.connector, keyOf, id);
  }

  lemma PortsStay(cx: Ports.Context, stored: Ports.Rows, log: seq<Change>, keyOf: map<int, string>, items: seq<Ports.Port>)
    requires Lists(cx.order)
    requires Ports.Unique(stored) && Ports.Tied(stored, cx.scan.connector, keyOf) && Ports.Rekeyed(cx, keyOf)
    requires Ports.Resolvable(cx, items) && Ports.Protocols(items)
    requires forall i | 0 <= i < |Ports.Deduped(items)| :: StoredAs(stored, cx.scan.connector, cx.services, Ports.Deduped(items)[i])
    requires forall id <- stored :: stored[id].connector == cx.scan.connector ==> ReportedIn(Ports.Deduped(items), cx.services, stored[id])
    ensures
      var o := Ports.Applied(cx, stored, log, items);
      o.log == log && o.rows.Keys == stored.Keys &&
      forall id <- stored :: stored[id].connector == cx.scan.connector ==>
        o.rows[id].connector == cx.scan.connector && o.rows[id].service == stored[id].service && o.rows[id].tuple == stored[id].tuple
  {
    var ports, rows := Ports.Deduped(items), Ports.Applied(cx, stored, log, items).rows;
    Ports.DedupedResolvable(cx, items);
    forall i | 0 <= i < |ports| ensures Ports.Seen(cx, stored, ports[i]) {
      StoredIsSeen(cx, stored, keyOf, ports[i]);
    }
    forall id <- stored | stored[id].connector == cx.scan.connector
      ensures exists i :: 0 <= i < |ports| && Ports.Claim(cx, stored, ports[i]) == Some(id)
      ensures id in rows && rows[id].connector == cx.scan.connector && rows[id].service == stored[id].service && rows[id].tuple == stored[id].tuple
    {
      var i :| 0 <= i < |ports| && ports[i].serviceKey in cx.services && cx.services[ports[i].serviceKey] == stored[id].service
        && ports[i].tuple == stored[id].tuple;
      Ports.IdentityIs(stored, cx.scan.connector, keyOf, id);
      Ports.PortKeepsRow(cx, stored, log, keyOf, items, i, id);
    }
    Ports.RekeyIsSilent(cx, stored, log, keyOf, items);
  }

  // ---------------------------------------------------------------------------
  // The whole scan

  lemma PortKeys(out: Engine.Db, connector: int, id: int)
    requires Engine.AllTied(out.services, out.ports) && id in out.ports && out.ports[id].connector == connector
    ensures out.ports[id].service in out.services
    ensures out.ports[id].key == Ports.PortKey(out.services[out.ports[id].service].key, out.ports[id].tuple)
  {
    assert Ports.Tied(out.ports, connector, Engine.KeyOf(out.services, connector));
  }

  lemma TablesStay(order: RowOrder, db: Engine.Db, scan: Scan, s: Engine.Snapshot, home: map<string, int>)
    requires Lists(order) && Engine.Keyed(db) && Engine.AllTied(db.services, db.ports) && Engine.WellFormed(s)
    requires Ports.Resolvable(Engine.PortContext(order, db, scan, s), s.ports)
    requires SameUnderNewKeys(order, db, scan, s, home)
    ensures
      var h, v := Engine.HostsOf(order, db, scan, s), Engine.ServicesOf(order, db, scan, s);
      var o := Ports.Applied(Engine.PortContext(order, db, scan, s), db.ports, v.log, s.ports);
      && v.log == h.log && v.rows.Keys == db.services.Keys && (forall k <- home :: home[k] in v.rows && v.rows[home[k]].key == k)
      && o.log == h.log && o.rows.Keys == db.ports.Keys
      && forall id <- db.ports :: db.ports[id].connector == scan.connector ==>
           o.rows[id].connector == scan.connector && o.rows[id].service == db.ports[id].service && o.rows[id].tuple == db.ports[id].tuple
  {
    hide Hosts.Applied, Services.Applied, Ports.Applied, Services.Recognised, Services.Unchanged;
    var keyOf := Engine.KeyOf(db.services, scan.connector);
    ServicesStay(order, db, scan, s, home);
    Engine.RekeyedHolds(order, db, scan, s);
    assert Ports.Tied(db.ports, scan.connector, keyOf);
    PortsStay(Engine.PortContext(order, db, scan, s), db.ports, Engine.ServicesOf(order, db, scan, s).log, keyOf, s.ports);
  }

  /**
   A change of key scheme is bookkeeping: every service and every port keeps its row, under its new key,
   and the scan files nothing about services or ports.
   */
  lemma RekeyChangesNothing(order: RowOrder, db: Engine.Db, scan: Scan, s: Engine.Snapshot, home: map<string, int>)
    requires Lists(order) && Engine.Valid(db) && Engine.WellFormed(s) && Engine.Apply(order, db, scan, s).Ok?
    requires SameUnderNewKeys(order, db, scan, s, home)
    ensures
      var out := Engine.Apply(order, db, scan, s).value;
      && out.services.Keys == db.services.Keys && out.ports.Keys == db.ports.Keys
      && (forall k <- home :: home[k] in out.services && out.services[home[k]].key == k)
      && (forall id <- db.ports :: db.ports[id].connector == scan.connector ==>
            && out.ports[id].service == db.ports[id].service && out.ports[id].tuple == db.ports[id].tuple
            && out.ports[id].service in out.services
            && out.ports[id].key == Ports.PortKey(out.services[out.ports[id].service].key, out.ports[id].tuple))
      && SameStory(db.log, out.log, ServiceEntity) && SameStory(db.log, out.log, PortEntity)
  {
    hide Hosts.Applied, Services.Applied, Ports.Applied, SameUnderNewKeys, Engine.Told, Engine.AllTied, Engine.WellFormed;
    var out := Engine.Apply(order, db, scan, s).value;
    Engine.ApplyIs(order, db, scan, s);
    Engine.ScanKeepsValid(order, db, scan, s);
    ScanTells(order, db, scan, s);
    TablesStay(order, db, scan, s, home);
    forall id <- db.ports | db.ports[id].connector == scan.connector
      ensures out.ports[id].service in out.services
      ensures out.ports[id].key == Ports.PortKey(out.services[out.ports[id].service].key, out.ports[id].tuple)
    {
      PortKeys(out, scan.connector, id);
    }
    assert SameStory(db.log, Engine.HostsOf(order, db, scan, s).log, ServiceEntity);
    assert SameStory(db.log, Engine.HostsOf(order, db, scan, s).log, PortEntity);
  }

  lemma ScanTells(order: RowOrder, db: Engine.Db, scan: Scan, s: Engine.Snapshot)
    requires Lists(order) && Engine.Valid(db) && Engine.WellFormed(s) && Engine.Apply(order, db, scan, s).Ok?
    ensures Ports.Resolvable(Engine.PortContext(order, db, scan, s), s.ports)
    ensures forall o | o == ServiceEntity || o == PortEntity ::
      SameStory(db.log, Engine.HostsOf(order, db, scan, s).log, o) &&
      SameStory(Ports.Applied(Engine.PortContext(order, db, scan, s), db.ports, Engine.ServicesOf(order, db, scan, s).log, s.ports).log,
                Engine.Apply(order, db, scan, s).value.log, o)
  {
    Engine.ScanTells(order, db, scan, s);
  }
}
