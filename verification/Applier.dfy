/**
 The applier itself (internal/engine/apply.go): one object whose methods rewrite the tables and the
 change feed row by row. Each is proved to leave what Engine.dfy says, and the object to stay valid.
 */
module Applier {
  import opened Results
  import opened Store
  import opened Domain
  import opened Strings
  import ParentsFirst
  import Hosts
  import Services
  import Ports
  import Observed
  import Engine

  class Applier {
    const order: RowOrder
    var hosts: Hosts.Rows
    var services: Services.Rows
    var ports: Ports.Rows
    var routes: Observed.Rows<RouteData>
    var certs: Observed.Rows<CertData>
    var domains: Observed.Rows<DomainData>
    var log: seq<Change>

    ghost function Contents(): Engine.Db
      reads this
    {
      Engine.Db(hosts, services, ports, routes, certs, domains, log)
    }

    ghost predicate Valid()
      reads this
    {
      Lists(order) && Engine.Valid(Contents())
    }

    constructor (order: RowOrder)
      requires Lists(order)
      ensures Valid() && Contents() == Engine.EMPTY && this.order == order
    {
      this.order := order;
      hosts, services, ports, routes, certs, domains, log := map[], map[], map[], map[], map[], map[], [];
      Engine.EmptyIsValid();
    }

    method AddChange(scan: Scan, e: Entity, id: int, kind: Kind, diff: Diff)
      modifies `log
      ensures log == old(log) + [Entry(scan, e, id, kind, diff)]
    {
      log := log + [Entry(scan, e, id, kind, diff)];
    }

    /** Ends the connector's rows that the scan did not see. */
    method MarkGone<D>(e: Entity, scan: Scan, rows: map<int, Row<D>>, seen: set<string>) returns (out: map<int, Row<D>>, n: nat)
      requires Lists(order)
      modifies `log
      ensures
        var absent := Absent(rows, scan.connector, seen);
        out == Ended(rows, absent, scan.now) && log == old(log) + RemovedEntries(e, scan, order(absent)) &&
        n == |log| - |old(log)|
    {
      var absent := Absent(rows, scan.connector, seen);
      assert ListOf(order(absent), absent);
      SetOfList(order(absent), absent);
      out, n := EndRows(e, scan, rows, order(absent));
    }

    /** Ends these rows one by one, with a removal each. */
    method EndRows<D>(e: Entity, scan: Scan, rows: map<int, Row<D>>, absent: seq<int>) returns (out: map<int, Row<D>>, n: nat)
      requires forall i | 0 <= i < |absent| :: absent[i] in rows
      modifies `log
      ensures out == Ended(rows, SetOf(absent), scan.now)
      ensures log == old(log) + RemovedEntries(e, scan, absent) && n == |log| - |old(log)|
    {
      out, n := rows, 0;
      assert Ended(rows, SetOf(absent[..0]), scan.now) == rows;
      NoneRemoved(e, scan, absent);
      hide Ended, RemovedEntries;
      for i := 0 to |absent|
        invariant out == Ended(rows, SetOf(absent[..i]), scan.now)
        invariant log == old(log) + RemovedEntries(e, scan, absent[..i]) && n == i
      {
        var id := absent[i];
        EndedOne(rows, absent, i, scan.now);
        RemovedOne(e, scan, absent, i);
        out := out[id := rows[id].(state := GONE, updatedAt := scan.now)];
        AddChange(scan, e, id, Removed, map["state" := (ACTIVE, GONE)]);
        n := n + 1;
      }
      assert absent[..|absent|] == absent;
      RemovedEntriesLength(e, scan, absent);
    }

    /** One reported host: updated in place, or inserted. */
    method ApplyHost(scan: Scan, h: ParentsFirst.Host, parent: Option<int>, parentName: string)
      returns (id: int, name: string, n: nat)
      requires parentName == Hosts.NameAt(hosts, parent)
      modifies `hosts, `log
      ensures
        var cx := Hosts.Context(scan, order);
        var row := Hosts.NewRow(cx, Hosts.PrevRow(cx, old(hosts), h), parent, h);
        id == Hosts.IdFor(cx, old(hosts), h) && hosts == old(hosts)[id := row] && name == row.data.name &&
        log == old(log) + Hosts.EntryFor(cx, old(hosts), id, row) && n == |log| - |old(log)|
    {
      ghost var cx := Hosts.Context(scan, order);
      var aliases := Normalize(h.aliases);
      n := 0;
      var found := FindKey(hosts, scan.connector, h.key);
      if found.None? {
        id := NextId(hosts);
        name := h.name;
        hosts := hosts[id := Row(scan.connector, h.key, ACTIVE, scan.now,
                                 Hosts.Stored(h.name, h.kind, h.address, h.os, h.arch, aliases, h.power, parent))];
        AddChange(scan, HostEntity, id, Added, map[]);
        n := 1;
      } else {
        id := found.value;
        var prev := hosts[id];
        var address := h.address;
        name := h.name;
        if h.nameUnread {
          name := prev.data.name;
        }
        if h.addressesUnread {
          address, aliases := prev.data.address, Normalize(prev.data.aliases);
        }
        var row := Row(scan.connector, h.key, ACTIVE, scan.now,
                       Hosts.Stored(name, h.kind, address, h.os, h.arch, aliases, h.power, parent));
        var oldParentName := Hosts.NameAt(hosts, prev.data.parent);
        var diff := FieldsDiff(
          map["name" := prev.data.name, "kind" := prev.data.kind, "address" := prev.data.address, "os" := prev.data.os,
              "arch" := prev.data.arch, "state" := prev.state, "aliases" := Join(Normalize(prev.data.aliases)),
              "power" := prev.data.power, "parent" := oldParentName],
          map["name" := name, "kind" := h.kind, "address" := address, "os" := h.os, "arch" := h.arch, "state" := ACTIVE,
              "aliases" := Join(aliases), "power" := h.power, "parent" := parentName]);
        assert row == Hosts.NewRow(cx, Some(prev), parent, h);
        assert diff == FieldsDiff(Hosts.Tracked(hosts, prev, Normalize(prev.data.aliases)), Hosts.Tracked(hosts, row, aliases));
        hosts := hosts[id := row];
        if diff != map[] {
          AddChange(scan, HostEntity, id, Modified, diff);
          n := 1;
        }
      }
    }

    /** `names` holds the name stored this scan for every host already written. */
    ghost predicate NamesStored(ids: map<string, int>, names: map<string, string>)
      reads this
    {
      forall k <- ids :: ids[k] in hosts && hosts[ids[k]].key == k && k in names && names[k] == hosts[ids[k]].data.name
    }

    /** The next host in line, under the parent its key names if that one is already written. */
    method WriteHost(scan: Scan, hs: seq<ParentsFirst.Host>, i: nat, ids0: map<string, int>, names0: map<string, string>,
                     ghost before: Hosts.Rows, ghost log0: seq<Change>)
      returns (ids: map<string, int>, names: map<string, string>, n: nat)
      requires NamesStored(ids0, names0) && i < |hs|
      requires Hosts.Progress(hosts, log, ids0) == Hosts.Fold(Hosts.Context(scan, order), before, log0, hs[..i])
      modifies `hosts, `log
      ensures NamesStored(ids, names)
      ensures Hosts.Progress(hosts, log, ids) == Hosts.Fold(Hosts.Context(scan, order), before, log0, hs[..i + 1])
      ensures n == |log| - |old(log)|
    {
      hide Hosts.Fold, Hosts.EntryFor, Normalize;
      OneMoreHost(Hosts.Context(scan, order), before, log0, hs, i);
      var h := hs[i];
      var parent: Option<int>, parentName := None, "";
      if h.parentKey in ids0 && h.parentKey != "" {
        parent, parentName := Some(ids0[h.parentKey]), names0[h.parentKey];
      }
      var id, name;
      id, name, n := ApplyHost(scan, h, parent, parentName);
      ids, names := ids0[h.key := id], names0[h.key := name];
    }

    /** The reported hosts one by one, as long as each has a key and a name. */
    method WriteHosts(scan: Scan, hs: seq<ParentsFirst.Host>) returns (ok: bool, ids: map<string, int>, seen: set<string>, n: nat)
      modifies `hosts, `log
      ensures ok <==> AllReportable(hs)
      ensures ok ==> Hosts.Progress(hosts, log, ids) == Hosts.Fold(Hosts.Context(scan, order), old(hosts), old(log), hs)
      ensures ok ==> seen == ParentsFirst.KeysOf(hs) && n == |log| - |old(log)|
    {
      hide Hosts.Step, Hosts.Fold;
      ghost var cx := Hosts.Context(scan, order);
      var names: map<string, string>, i := map[], 0;
      ids, seen, n := map[], {}, 0;
      NoneYet(cx, hosts, log, hs[..0]);
      while i < |hs| && hs[i].key != "" && hs[i].name != ""
        invariant 0 <= i <= |hs| && AllReportable(hs[..i])
        invariant Hosts.Progress(hosts, log, ids) == Hosts.Fold(cx, old(hosts), old(log), hs[..i])
        invariant NamesStored(ids, names)
        invariant seen == ParentsFirst.KeysOf(hs[..i]) && n == |log| - |old(log)|
      {
        assert hs[..i + 1][..i] == hs[..i];
        OneMoreReportable(hs, i);
        var filed;
        seen := seen + {hs[i].key};
        ids, names, filed := WriteHost(scan, hs, i, ids, names, old(hosts), old(log));
        n, i := n + filed, i + 1;
      }
      ok := i == |hs|;
      assert ok ==> hs[..i] == hs;
    }

    /** Every reported host, parents first, then the ones no longer there. */
    method ApplyHosts(scan: Scan, items: seq<ParentsFirst.Host>) returns (r: Option<map<string, int>>, n: nat)
      requires Lists(order)
      modifies `hosts, `log
      ensures r.Some? <==> AllReportable(items)
      ensures r.Some? ==>
        Hosts.Progress(hosts, log, r.value) == Hosts.Applied(Hosts.Context(scan, order), old(hosts), old(log), items)
      ensures r.Some? ==> n == |log| - |old(log)|
    {
      var hs := ParentsFirst.Order(items);
      OrderReportable(items, hs);
      var ok, ids, seen;
      ok, ids, seen, n := WriteHosts(scan, hs);
      r := None;
      if ok {
        var gone;
        hosts, gone := MarkGone(HostEntity, scan, hosts, seen);
        r, n := Some(ids), n + gone;
      }
    }

    /** The first candidate row whose own key the scan does not report. */
    method FirstMoved(candidates: seq<int>, incoming: set<string>) returns (r: Option<int>)
      requires forall i | 0 <= i < |candidates| :: candidates[i] in services
      ensures r == Services.FirstMoved(services, candidates, incoming)
    {
      r := None;
      var i := 0;
      while i < |candidates| && r.None?
        invariant 0 <= i <= |candidates|
        invariant r.None? ==>
          Services.FirstMoved(services, candidates, incoming) == Services.FirstMoved(services, candidates[i..], incoming)
        invariant r.Some? ==> r == Services.FirstMoved(services, candidates, incoming)
        decreases |candidates| - i, r.None?
      {
        if services[candidates[i]].key in incoming {
          i := i + 1;
        } else {
          r := Some(candidates[i]);
        }
      }
    }

    /** The row a service with a new key takes over, if there is one. */
    method TakenOver(scan: Scan, hostIds: map<string, int>, incoming: set<string>, s: Services.Service) returns (moved: Option<int>)
      requires Lists(order)
      ensures moved == Services.Moved(Services.Context(scan, hostIds, incoming, order), services, s)
      ensures moved.Some? ==> moved.value in services && services[moved.value].connector == scan.connector
    {
      var namesakes := Services.Namesakes(Services.Context(scan, hostIds, incoming, order), services, s);
      assert ListOf(order(namesakes), namesakes);
      moved := FirstMoved(order(namesakes), incoming);
    }

    /** One reported service: updated in place, or on the row it takes over, or inserted. */
    method ApplyService(scan: Scan, hostIds: map<string, int>, incoming: set<string>, s: Services.Service) returns (id: int, n: nat)
      requires Lists(order)
      modifies `services, `log
      ensures
        var cx := Services.Context(scan, hostIds, incoming, order);
        id == Services.IdFor(cx, old(services), s) && services == old(services)[id := Services.RowOf(cx, s)] &&
        log == old(log) + Services.EntryFor(cx, old(services), s, id) && n == |log| - |old(log)|
    {
      hide Services.Adoptable, Services.Namesakes, Services.FirstMoved, Services.Moved;
      var host := if s.hostKey in hostIds then Some(hostIds[s.hostKey]) else None;
      var state := DefaultString(s.state, "unknown");
      var row := Row(scan.connector, s.key, state, scan.now,
                     Services.Stored(host, s.name, DefaultString(s.kind, "container"), s.stack, s.image, s.tag, s.digest, s.health));
      var after := map["name" := s.name, "stack" := s.stack, "image" := s.image, "tag" := s.tag, "digest" := s.digest,
                       "state" := state];
      n := 0;
      var found := FindKey(services, scan.connector, s.key);
      if found.Some? {
        id := found.value;
        var diff := FieldsDiff(Services.Tracked(services[id]), after);
        services := services[id := row];
        if diff != map[] {
          AddChange(scan, ServiceEntity, id, Modified, diff);
          n := 1;
        }
      } else {
        var moved := TakenOver(scan, hostIds, incoming, s);
        if moved.Some? {
          id := moved.value;
          var oldKey := services[id].key;
          var diff := FieldsDiff(Services.Tracked(services[id]), after);
          services := services[id := row];
          if diff != map[] {
            AddChange(scan, ServiceEntity, id, Modified, diff["natural_key" := (oldKey, s.key)]);
            n := 1;
          }
        } else {
          id := NextId(services);
          services := services[id := row];
          AddChange(scan, ServiceEntity, id, Added, map[]);
          n := 1;
        }
      }
    }

    /** The next reported service in line. */
    method WriteService(scan: Scan, hostIds: map<string, int>, incoming: set<string>, items: seq<Services.Service>, i: nat,
                        ids0: map<string, int>, ghost before: Services.Rows, ghost log0: seq<Change>)
      returns (ids: map<string, int>, n: nat)
      requires Lists(order) && i < |items|
      requires Services.Progress(services, log, ids0)
            == Services.Fold(Services.Context(scan, hostIds, incoming, order), before, log0, items[..i])
      modifies `services, `log
      ensures Services.Progress(services, log, ids)
           == Services.Fold(Services.Context(scan, hostIds, incoming, order), before, log0, items[..i + 1])
      ensures n == |log| - |old(log)|
    {
      hide Services.RowOf, Services.EntryFor, Services.IdFor;
      assert items[..i + 1][..i] == items[..i];
      var id;
      id, n := ApplyService(scan, hostIds, incoming, items[i]);
      ids := ids0[items[i].key := id];
    }

    method Incoming(items: seq<Services.Service>) returns (incoming: set<string>)
      ensures incoming == Services.KeysOf(items)
    {
      incoming := {};
      for i := 0 to |items|
        invariant incoming == Services.KeysOf(items[..i])
      {
        assert items[..i + 1][..i] == items[..i];
        incoming := incoming + {items[i].key};
      }
      assert items[..|items|] == items;
    }

    method WriteServices(scan: Scan, hostIds: map<string, int>, items: seq<Services.Service>)
      returns (ok: bool, ids: map<string, int>, seen: set<string>, n: nat)
      requires Lists(order)
      modifies `services, `log
      ensures ok <==> ServicesReportable(items)
      ensures ok ==>
        Services.Progress(services, log, ids)
        == Services.Fold(Services.Context(scan, hostIds, Services.KeysOf(items), order), old(services), old(log), items)
      ensures ok ==> seen == Services.KeysOf(items) && n == |log| - |old(log)|
    {
      hide Services.Step, Services.Fold;
      var incoming := Incoming(items);
      var i := 0;
      ghost var cx := Services.Context(scan, hostIds, incoming, order);
      ids, seen, n := map[], {}, 0;
      NoServiceYet(cx, services, log, items[..0]);
      while i < |items| && items[i].key != "" && items[i].name != ""
        invariant 0 <= i <= |items| && ServicesReportable(items[..i])
        invariant Services.Progress(services, log, ids) == Services.Fold(cx, old(services), old(log), items[..i])
        invariant seen == Services.KeysOf(items[..i]) && n == |log| - |old(log)|
      {
        assert items[..i + 1][..i] == items[..i];
        OneMoreService(items, i);
        var filed;
        seen := seen + {items[i].key};
        ids, filed := WriteService(scan, hostIds, incoming, items, i, ids, old(services), old(log));
        n, i := n + filed, i + 1;
      }
      ok := i == |items|;
      assert ok ==> items[..i] == items;
    }

    method ApplyServices(scan: Scan, hostIds: map<string, int>, items: seq<Services.Service>)
      returns (r: Option<map<string, int>>, n: nat)
      requires Lists(order)
      modifies `services, `log
      ensures r.Some? <==> ServicesReportable(items)
      ensures r.Some? ==>
        Services.Progress(services, log, r.value)
        == Services.Applied(Engine.ServiceContext(order, scan, hostIds, items), old(services), old(log), items)
      ensures r.Some? ==> n == |log| - |old(log)|
    {
      var ok, ids, seen;
      ok, ids, seen, n := WriteServices(scan, hostIds, items);
      r := None;
      if ok {
        var gone;
        services, gone := MarkGone(ServiceEntity, scan, services, seen);
        r, n := Some(ids), n + gone;
      }
    }

    /** The connector's stored ports by natural key. */
    method PortsByKey(connector: int, ids: seq<int>) returns (byKey: map<Ports.PortKey, int>)
      requires Ports.Unique(ports) && ListOf(ids, PortIds(ports, connector))
      ensures forall key: Ports.PortKey :: Lookup(byKey, key) == Ports.ByKey(ports, connector, key)
    {
      byKey := map[];
      for i := 0 to |ids|
        invariant forall j | 0 <= j < i :: ports[ids[j]].key in byKey
        invariant forall key <- byKey :: byKey[key] in ports && ports[byKey[key]].connector == connector && ports[byKey[key]].key == key
      {
        byKey := byKey[ports[ids[i]].key := ids[i]];
      }
      forall key: Ports.PortKey ensures Lookup(byKey, key) == Ports.ByKey(ports, connector, key) {
        var at := Ports.ByKey(ports, connector, key);
        if at.Some? {
          assert at.value in PortIds(ports, connector);
          assert at.value in ids;
        }
        if key in byKey {
          Ports.ByKeyIs(ports, byKey[key]);
        }
      }
    }

    /** The same ports by what a re-key does not move; the first of several keeps the place. */
    method PortsByIdentity(connector: int, ids: seq<int>, ghost keyOf: map<int, string>)
      returns (byIdentity: map<(int, Ports.Tuple), int>)
      requires Ports.Unique(ports) && Ports.Tied(ports, connector, keyOf) && ListOf(ids, PortIds(ports, connector))
      ensures forall service: int, tuple: Ports.Tuple ::
        Lookup(byIdentity, (service, tuple)) == Ports.ByIdentity(ports, connector, service, tuple)
    {
      byIdentity := map[];
      for i := 0 to |ids|
        invariant forall j | 0 <= j < i :: (ports[ids[j]].service, ports[ids[j]].tuple) in byIdentity
        invariant forall t <- byIdentity ::
          byIdentity[t] in ports && ports[byIdentity[t]].connector == connector &&
          (ports[byIdentity[t]].service, ports[byIdentity[t]].tuple) == t
      {
        var identity := (ports[ids[i]].service, ports[ids[i]].tuple);
        if identity !in byIdentity {
          byIdentity := byIdentity[identity := ids[i]];
        }
      }
      forall service: int, tuple: Ports.Tuple
        ensures Lookup(byIdentity, (service, tuple)) == Ports.ByIdentity(ports, connector, service, tuple)
      {
        var at := Ports.ByIdentity(ports, connector, service, tuple);
        if at.Some? {
          assert at.value in PortIds(ports, connector);
          assert at.value in ids;
        }
        if (service, tuple) in byIdentity {
          Ports.IdentityIs(ports, connector, keyOf, byIdentity[(service, tuple)]);
        }
      }
    }

    /** The stored row a reported port claims, by key or by identity. */
    method ClaimFor(scan: Scan, hostIds: map<string, int>, serviceIds: map<string, int>, stored: Ports.Rows,
                    byKey: map<Ports.PortKey, int>, byIdentity: map<(int, Ports.Tuple), int>, used: set<int>, p: Ports.Port)
      returns (claim: Option<int>)
      requires p.serviceKey in serviceIds
      requires forall key: Ports.PortKey :: Lookup(byKey, key) == Ports.ByKey(stored, scan.connector, key)
      requires forall service: int, tuple: Ports.Tuple ::
        Lookup(byIdentity, (service, tuple)) == Ports.ByIdentity(stored, scan.connector, service, tuple)
      ensures claim == Ports.ClaimFor(Ports.Context(scan, hostIds, serviceIds, order), stored, used, p)
    {
      var tuple := p.tuple.(protocol := DefaultString(p.tuple.protocol, "tcp"));
      claim := Lookup(byKey, p.Key());
      if claim.None? {
        claim := Lookup(byIdentity, (serviceIds[p.serviceKey], tuple));
        if claim.Some? && claim.value in used {
          claim := None;
        }
      }
    }

    /** One reported port: on the row it claims, or inserted. `stored` is what the table held before the scan. */
    method ApplyPort(scan: Scan, hostIds: map<string, int>, serviceIds: map<string, int>, stored: Ports.Rows,
                     used0: set<int>, claim: Option<int>, p: Ports.Port)
      returns (used: set<int>, n: nat)
      requires p.serviceKey in serviceIds && stored.Keys <= ports.Keys
      requires claim == Ports.ClaimFor(Ports.Context(scan, hostIds, serviceIds, order), stored, used0, p)
      requires forall id <- stored :: id !in used0 ==> ports[id] == stored[id]
      modifies `ports, `log
      ensures
        Ports.Progress(ports, log, used) ==
        Ports.Step(Ports.Context(scan, hostIds, serviceIds, order), stored, Ports.Progress(old(ports), old(log), used0), p)
      ensures stored.Keys <= ports.Keys && forall id <- stored :: id !in used ==> ports[id] == stored[id]
      ensures n == |log| - |old(log)|
    {
      hide Ports.ClaimFor;
      var service := serviceIds[p.serviceKey];
      var host := if p.hostKey in hostIds then Some(hostIds[p.hostKey]) else None;
      var tuple := p.tuple.(protocol := DefaultString(p.tuple.protocol, "tcp"));
      used, n := used0, 0;
      if claim.Some? {
        var id, prev := claim.value, stored[claim.value];
        used := used + {id};
        var row := prev.(key := p.Key());
        PortDiff(prev.published, prev.source, p.published, p.source);
        var diff := FieldsDiff(
          map["published" := Ports.Flag(prev.published), "source" := prev.source],
          map["published" := Ports.Flag(p.published), "source" := p.source]);
        if diff != map[] || prev.service != service || prev.host != host {
          row := row.(service := service, host := host, tuple := tuple, published := p.published, source := p.source);
        }
        ports := ports[id := row];
        if diff != map[] {
          AddChange(scan, PortEntity, id, Modified, diff);
          n := 1;
        }
      } else {
        var id := NextId(ports);
        ports := ports[id := Ports.PortRow(scan.connector, p.Key(), service, host, tuple, p.published, p.source)];
        AddChange(scan, PortEntity, id, Added, map[]);
        n := 1;
      }
    }

    /** The next port in line, unless its natural key has come up before. */
    method WritePort(scan: Scan, hostIds: map<string, int>, serviceIds: map<string, int>, stored: Ports.Rows,
                     byKey: map<Ports.PortKey, int>, byIdentity: map<(int, Ports.Tuple), int>, used0: set<int>,
                     items: seq<Ports.Port>, i: nat, seen: set<Ports.PortKey>, ghost log0: seq<Change>)
      returns (used: set<int>, n: nat)
      requires i < |items| && items[i].serviceKey in serviceIds && seen == Ports.KeysOf(items[..i])
      requires stored.Keys <= ports.Keys && forall id <- stored :: id !in used0 ==> ports[id] == stored[id]
      requires forall key: Ports.PortKey :: Lookup(byKey, key) == Ports.ByKey(stored, scan.connector, key)
      requires forall service: int, tuple: Ports.Tuple ::
        Lookup(byIdentity, (service, tuple)) == Ports.ByIdentity(stored, scan.connector, service, tuple)
      requires
        var cx := Ports.Context(scan, hostIds, serviceIds, order);
        Ports.Resolvable(cx, Ports.Deduped(items[..i])) &&
        Ports.Progress(ports, log, used0) == Ports.Fold(cx, stored, log0, Ports.Deduped(items[..i]))
      modifies `ports, `log
      ensures stored.Keys <= ports.Keys && forall id <- stored :: id !in used ==> ports[id] == stored[id]
      ensures
        var cx := Ports.Context(scan, hostIds, serviceIds, order);
        Ports.Resolvable(cx, Ports.Deduped(items[..i + 1])) &&
        Ports.Progress(ports, log, used) == Ports.Fold(cx, stored, log0, Ports.Deduped(items[..i + 1]))
      ensures n == |log| - |old(log)|
    {
      hide Ports.Step, Ports.Fold, Ports.ClaimFor, Ports.Deduped, Ports.KeysOf;
      OneMorePort(Ports.Context(scan, hostIds, serviceIds, order), stored, log0, items, i);
      used, n := used0, 0;
      if items[i].Key() !in seen {
        var claim := ClaimFor(scan, hostIds, serviceIds, stored, byKey, byIdentity, used0, items[i]);
        used, n := ApplyPort(scan, hostIds, serviceIds, stored, used0, claim, items[i]);
      }
    }

    method WritePorts(scan: Scan, hostIds: map<string, int>, serviceIds: map<string, int>, items: seq<Ports.Port>,
                      byKey: map<Ports.PortKey, int>, byIdentity: map<(int, Ports.Tuple), int>)
      returns (ok: bool, used: set<int>, n: nat)
      requires forall key: Ports.PortKey :: Lookup(byKey, key) == Ports.ByKey(ports, scan.connector, key)
      requires forall service: int, tuple: Ports.Tuple ::
        Lookup(byIdentity, (service, tuple)) == Ports.ByIdentity(ports, scan.connector, service, tuple)
      modifies `ports, `log
      ensures ok <==> Ports.Resolvable(Ports.Context(scan, hostIds, serviceIds, order), items)
      ensures ok ==>
        var cx := Ports.Context(scan, hostIds, serviceIds, order);
        Ports.Resolvable(cx, Ports.Deduped(items)) &&
        Ports.Progress(ports, log, used) == Ports.Fold(cx, old(ports), old(log), Ports.Deduped(items))
      ensures ok ==> n == |log| - |old(log)|
    {
      hide Ports.Step, Ports.Fold;
      ghost var cx := Ports.Context(scan, hostIds, serviceIds, order);
      var stored, seen: set<Ports.PortKey>, i := ports, {}, 0;
      used, n := {}, 0;
      NoPortYet(cx, stored, log, Ports.Deduped(items[..0]));
      while i < |items| && (items[i].Key() in seen || items[i].serviceKey in serviceIds)
        invariant 0 <= i <= |items| && seen == Ports.KeysOf(items[..i])
        invariant Ports.Resolvable(cx, items[..i]) && Ports.Resolvable(cx, Ports.Deduped(items[..i]))
        invariant Ports.Progress(ports, log, used) == Ports.Fold(cx, stored, old(log), Ports.Deduped(items[..i]))
        invariant stored.Keys <= ports.Keys && forall id <- stored :: id !in used ==> ports[id] == stored[id]
        invariant n == |log| - |old(log)|
      {
        SeenResolvable(cx, items, i);
        var filed;
        used, filed := WritePort(scan, hostIds, serviceIds, stored, byKey, byIdentity, used, items, i, seen, old(log));
        assert items[..i + 1][..i] == items[..i];
        seen := seen + {items[i].Key()};
        n, i := n + filed, i + 1;
      }
      ok := i == |items|;
      assert ok ==> items[..i] == items;
    }

    /** Deletes the stored ports no reported one has claimed. */
    method DeletePorts(scan: Scan, absent: seq<int>) returns (n: nat)
      requires forall i | 0 <= i < |absent| :: absent[i] in ports
      modifies `ports, `log
      ensures ports == Ports.Without(old(ports), SetOf(absent))
      ensures log == old(log) + Ports.DeletedEntries(scan, absent) && n == |log| - |old(log)|
    {
      n := 0;
      assert Ports.Without(ports, SetOf(absent[..0])) == ports;
      for i := 0 to |absent|
        invariant ports == Ports.Without(old(ports), SetOf(absent[..i]))
        invariant log == old(log) + Ports.DeletedEntries(scan, absent[..i]) && n == |log| - |old(log)|
      {
        assert absent[..i + 1][..i] == absent[..i];
        DeleteOne(old(ports), absent, i);
        AddChange(scan, PortEntity, absent[i], Removed, map[]);
        ports := ports - {absent[i]};
        n := n + 1;
      }
      assert absent[..|absent|] == absent;
    }

    /** Every reported port by key or else by identity, then the ones nobody claimed. */
    method ApplyPorts(scan: Scan, hostIds: map<string, int>, serviceIds: map<string, int>, items: seq<Ports.Port>,
                      ghost keyOf: map<int, string>)
      returns (ok: bool, n: nat)
      requires Lists(order) && Ports.Unique(ports) && Ports.Tied(ports, scan.connector, keyOf)
      modifies `ports, `log
      ensures ok <==> Ports.Resolvable(Ports.Context(scan, hostIds, serviceIds, order), items)
      ensures ok ==>
        Ports.Outcome(ports, log)
        == Ports.Applied(Ports.Context(scan, hostIds, serviceIds, order), old(ports), old(log), items)
      ensures ok ==> n == |log| - |old(log)|
    {
      var mine, stored := PortIds(ports, scan.connector), ports;
      assert ListOf(order(mine), mine);
      var byKey := PortsByKey(scan.connector, order(mine));
      var byIdentity := PortsByIdentity(scan.connector, order(mine), keyOf);
      var used;
      ok, used, n := WritePorts(scan, hostIds, serviceIds, items, byKey, byIdentity);
      if ok {
        var absent := Ports.Unclaimed(stored, scan.connector, used);
        assert ListOf(order(absent), absent);
        SetOfList(order(absent), absent);
        var gone := DeletePorts(scan, order(absent));
        n := n + gone;
      }
    }

    /** One reported route, certificate or domain: its row's columns overwritten, or a row inserted. */
    method Upsert<P>(e: Entity, scan: Scan, rows: Observed.Rows<P>, t: Observed.Item<P>) returns (out: Observed.Rows<P>, n: nat)
      modifies `log
      ensures Observed.Progress(out, log) == Observed.Step(Observed.Context(e, scan, order), Observed.Progress(rows, old(log)), t)
      ensures n == |log| - |old(log)|
    {
      var row := Row(scan.connector, t.key, ACTIVE, scan.now, Observed.Stored(t.tracked, t.payload));
      var found := FindKey(rows, scan.connector, t.key);
      n := 0;
      if found.None? {
        var id := NextId(rows);
        out := rows[id := row];
        AddChange(scan, e, id, Added, map[]);
        n := 1;
      } else {
        var id := found.value;
        var diff := FieldsDiff(Observed.Tracked(rows[id]), t.tracked["state" := ACTIVE]);
        out := rows[id := row];
        if diff != map[] {
          AddChange(scan, e, id, Modified, diff);
          n := 1;
        }
      }
    }

    method WriteItem<P>(e: Entity, scan: Scan, items: seq<Observed.Item<P>>, i: nat, rows: Observed.Rows<P>,
                        ghost before: Observed.Rows<P>, ghost log0: seq<Change>)
      returns (out: Observed.Rows<P>, n: nat)
      requires i < |items|
      requires Observed.Progress(rows, log) == Observed.Fold(Observed.Context(e, scan, order), before, log0, items[..i])
      modifies `log
      ensures Observed.Progress(out, log) == Observed.Fold(Observed.Context(e, scan, order), before, log0, items[..i + 1])
      ensures n == |log| - |old(log)|
    {
      hide Observed.Step;
      assert items[..i + 1][..i] == items[..i];
      out, n := Upsert(e, scan, rows, items[i]);
    }

    method WriteItems<P>(e: Entity, scan: Scan, rows: Observed.Rows<P>, items: seq<Observed.Item<P>>)
      returns (ok: bool, out: Observed.Rows<P>, seen: set<string>, n: nat)
      modifies `log
      ensures ok <==> Keyed(items)
      ensures ok ==>
        Observed.Progress(out, log) == Observed.Fold(Observed.Context(e, scan, order), rows, old(log), items) &&
        seen == Observed.KeysOf(items) && n == |log| - |old(log)|
    {
      hide Observed.Step, Observed.Fold;
      ghost var cx := Observed.Context(e, scan, order);
      var i := 0;
      out, seen, n := rows, {}, 0;
      NoItemYet(cx, rows, log, items[..0]);
      while i < |items| && items[i].key != ""
        invariant 0 <= i <= |items| && Keyed(items[..i])
        invariant Observed.Progress(out, log) == Observed.Fold(cx, rows, old(log), items[..i])
        invariant seen == Observed.KeysOf(items[..i]) && n == |log| - |old(log)|
      {
        assert items[..i + 1][..i] == items[..i];
        OneMoreKeyed(items, i);
        var filed;
        seen := seen + {items[i].key};
        out, filed := WriteItem(e, scan, items, i, out, rows, old(log));
        n, i := n + filed, i + 1;
      }
      ok := i == |items|;
      assert ok ==> items[..i] == items;
    }

    /** Every reported item of one kind, then the ones no longer there. */
    method ApplyItems<P>(e: Entity, scan: Scan, rows: Observed.Rows<P>, items: seq<Observed.Item<P>>)
      returns (ok: bool, out: Observed.Rows<P>, n: nat)
      requires Lists(order)
      modifies `log
      ensures ok <==> Keyed(items)
      ensures ok ==>
        Observed.Progress(out, log) == Observed.Applied(Observed.Context(e, scan, order), rows, old(log), items) &&
        n == |log| - |old(log)|
    {
      var seen;
      ok, out, seen, n := WriteItems(e, scan, rows, items);
      if ok {
        var gone;
        out, gone := MarkGone(e, scan, out, seen);
        n := n + gone;
      }
    }

    /** Hosts, services and ports. */
    method ApplyInventory(scan: Scan, s: Engine.Snapshot) returns (err: Option<Engine.Error>, ids: map<string, int>, n: nat)
      requires Valid()
      modifies `hosts, `services, `ports, `log
      ensures err.Some? ==> Engine.Apply(order, old(Contents()), scan, s) == Err(err.value)
      ensures err.None? ==>
        && Engine.HostsOk(s) && Engine.ServicesOk(s)
        && hosts == Engine.HostsOf(order, old(Contents()), scan, s).rows
        && services == Engine.ServicesOf(order, old(Contents()), scan, s).rows
        && ids == Engine.ServicesOf(order, old(Contents()), scan, s).ids
        && Ports.Resolvable(Engine.PortContext(order, old(Contents()), scan, s), s.ports)
        && Ports.Outcome(ports, log) == Ports.Applied(Engine.PortContext(order, old(Contents()), scan, s), old(ports),
                                                     Engine.ServicesOf(order, old(Contents()), scan, s).log, s.ports)
        && n == |log| - |old(log)|
    {
      hide Hosts.Applied, Services.Applied, Ports.Applied;
      ghost var keyOf := Engine.KeyOf(services, scan.connector);
      assert Ports.Tied(ports, scan.connector, keyOf);
      err, ids := Some(Engine.HostUnnamed), map[];
      var hostIds;
      hostIds, n := ApplyHosts(scan, s.hosts);
      if hostIds.Some? {
        var serviceIds, more;
        serviceIds, more := ApplyServices(scan, hostIds.value, s.services);
        err, n := Some(Engine.ServiceUnnamed), n + more;
        if serviceIds.Some? {
          var ok;
          ok, more := ApplyPorts(scan, hostIds.value, serviceIds.value, s.ports, keyOf);
          err, ids, n := if ok then None else Some(Engine.PortUnknownService), serviceIds.value, n + more;
        }
      }
    }

    /** Routes, certificates and domains. */
    method ApplyObserved(scan: Scan, s: Engine.Snapshot, ids: map<string, int>) returns (err: Option<Engine.Error>, n: nat)
      requires Lists(order)
      modifies `routes, `certs, `domains, `log
      ensures err == if !Engine.RoutesOk(s) then Some(Engine.RouteUnnamed)
                     else if !Engine.CertsOk(s) then Some(Engine.CertUnnamed)
                     else if !Engine.DomainsOk(s) then Some(Engine.DomainUnnamed) else None
      ensures err.None? ==>
        var r := Observed.Applied(Observed.Context(RouteEntity, scan, order), old(routes), old(log),
                                  RouteItems(scan.connector, services, ids, s.routes));
        var c := Observed.Applied(Observed.Context(CertEntity, scan, order), old(certs), r.log, CertItems(s.certs));
        var d := Observed.Applied(Observed.Context(DomainEntity, scan, order), old(domains), c.log, DomainItems(s.domains));
        routes == r.rows && certs == c.rows && domains == d.rows && log == d.log && n == |log| - |old(log)|
    {
      hide Observed.Applied;
      var ok;
      ok, routes, n := ApplyItems(RouteEntity, scan, routes, RouteItems(scan.connector, services, ids, s.routes));
      err := Some(Engine.RouteUnnamed);
      if ok {
        var more;
        ok, certs, more := ApplyItems(CertEntity, scan, certs, CertItems(s.certs));
        err, n := Some(Engine.CertUnnamed), n + more;
        if ok {
          ok, domains, more := ApplyItems(DomainEntity, scan, domains, DomainItems(s.domains));
          err, n := if ok then None else Some(Engine.DomainUnnamed), n + more;
        }
      }
    }

    /** All six kinds in turn; an error leaves the tables half written. */
    method Reconcile(scan: Scan, s: Engine.Snapshot) returns (err: Option<Engine.Error>, n: nat)
      requires Valid()
      modifies this
      ensures Engine.Apply(order, old(Contents()), scan, s) == if err.Some? then Err(err.value) else Ok(Contents())
      ensures err.None? ==> n == |log| - |old(log)|
    {
      hide Hosts.Applied, Services.Applied, Ports.Applied, Observed.Applied, Engine.Valid;
      var ids;
      err, ids, n := ApplyInventory(scan, s);
      if err.None? {
        var more;
        err, more := ApplyObserved(scan, s, ids);
        n := n + more;
      }
    }

    /** One scan. It goes through as a whole, and says how many entries it filed, or leaves no trace. */
    method Apply(scan: Scan, s: Engine.Snapshot) returns (r: Result<nat, Engine.Error>)
      requires Valid() && Engine.WellFormed(s)
      modifies this
      ensures Valid()
      ensures Engine.Apply(order, old(Contents()), scan, s) == if r.Ok? then Ok(Contents()) else Err(r.error)
      ensures if r.Ok? then r.value == |log| - |old(log)| else Contents() == old(Contents())
    {
      hide Engine.Apply, Engine.Valid, Engine.WellFormed;
      ghost var before := Contents();
      var hosts0, services0, ports0, routes0, certs0, domains0, log0 := hosts, services, ports, routes, certs, domains, log;
      var err, n := Reconcile(scan, s);
      if err.None? {
        Engine.ScanKeepsValid(order, before, scan, s);
        r := Ok(n);
      } else {
        hosts, services, ports, routes, certs, domains, log := hosts0, services0, ports0, routes0, certs0, domains0, log0;
        r := Err(err.value);
      }
    }

    /**
     Deletes the rows gone for longer than the retention, table by table. Ports go with their service or
     host; routes, services and child hosts only lose the link. Without a retention nothing is deleted.
     */
    method PurgeGone(now: int, retention: int) returns (ok: bool)
      requires Valid()
      modifies this
      ensures Valid() && (ok <==> retention > 0)
      ensures Contents() == if ok then Engine.Purge(old(Contents()), now - retention) else old(Contents())
    {
      hide Engine.Valid, Engine.Purge;
      ok := retention > 0;
      if ok {
        DeleteGone(now - retention);
      }
    }

    method DeleteGone(cutoff: int)
      requires Valid()
      modifies this
      ensures Valid() && Contents() == Engine.Purge(old(Contents()), cutoff)
    {
      hide Engine.Valid, Engine.Purge, OnServices, OnHosts, WithoutService, WithoutHost, WithoutParent;
      Engine.PurgeKeepsValid(Contents(), cutoff);
      PurgeInSteps(Contents(), cutoff);
      routes, certs, domains := PurgedRows(routes, cutoff), PurgedRows(certs, cutoff), PurgedRows(domains, cutoff);
      services := PurgedRows(services, cutoff);
      ports, routes := OnServices(ports, services), WithoutService(routes, services);
      hosts := PurgedRows(hosts, cutoff);
      ports, services, hosts := OnHosts(ports, hosts), WithoutHost(services, hosts), WithoutParent(hosts);
    }
  }

  // What the foreign keys do when the rows they point at are deleted.

  function OnServices(ports: Ports.Rows, services: Services.Rows): Ports.Rows {
    map id | id in ports && ports[id].service in services :: ports[id]
  }

  function OnHosts(ports: Ports.Rows, hosts: Hosts.Rows): Ports.Rows {
    map id | id in ports && (ports[id].host.Some? ==> ports[id].host.value in hosts) :: ports[id]
  }

  function WithoutService(routes: Observed.Rows<RouteData>, services: Services.Rows): Observed.Rows<RouteData> {
    map id | id in routes ::
      if routes[id].data.payload.service.Some? && routes[id].data.payload.service.value !in services
      then routes[id].(data := routes[id].data.(payload := routes[id].data.payload.(service := None))) else routes[id]
  }

  function WithoutHost(services: Services.Rows, hosts: Hosts.Rows): Services.Rows {
    map id | id in services ::
      if services[id].data.host.Some? && services[id].data.host.value !in hosts
      then services[id].(data := services[id].data.(host := None)) else services[id]
  }

  function WithoutParent(hosts: Hosts.Rows): Hosts.Rows {
    map id | id in hosts ::
      if hosts[id].data.parent.Some? && hosts[id].data.parent.value !in hosts
      then hosts[id].(data := hosts[id].data.(parent := None)) else hosts[id]
  }

  lemma PurgeInSteps(db: Engine.Db, cutoff: int)
    ensures
      var services, hosts := PurgedRows(db.services, cutoff), PurgedRows(db.hosts, cutoff);
      Engine.Purge(db, cutoff) == Engine.Db(
        WithoutParent(hosts), WithoutHost(services, hosts), OnHosts(OnServices(db.ports, services), hosts),
        WithoutService(PurgedRows(db.routes, cutoff), services), PurgedRows(db.certs, cutoff), PurgedRows(db.domains, cutoff), db.log)
  {
    var services, hosts, after := PurgedRows(db.services, cutoff), PurgedRows(db.hosts, cutoff), Engine.Purge(db, cutoff);
    assert after.hosts == WithoutParent(hosts);
    assert after.services == WithoutHost(services, hosts);
    assert after.ports == OnHosts(OnServices(db.ports, services), hosts);
    assert after.routes == WithoutService(PurgedRows(db.routes, cutoff), services);
  }

  predicate AllReportable(hs: seq<ParentsFirst.Host>) {
    forall i | 0 <= i < |hs| :: Hosts.Reportable(hs[i])
  }

  lemma OneMoreHost(cx: Hosts.Context, rows: Hosts.Rows, log: seq<Change>, hs: seq<ParentsFirst.Host>, i: nat)
    requires i < |hs|
    ensures Hosts.Fold(cx, rows, log, hs[..i + 1]) == Hosts.Step(cx, Hosts.Fold(cx, rows, log, hs[..i]), hs[i])
  {
    hide Hosts.Step;
    assert hs[..i + 1][..i] == hs[..i];
  }

  lemma NoneYet(cx: Hosts.Context, rows: Hosts.Rows, log: seq<Change>, hs: seq<ParentsFirst.Host>)
    requires hs == []
    ensures Hosts.Fold(cx, rows, log, hs) == Hosts.Progress(rows, log, map[])
  {
  }

  lemma OneMoreReportable(hs: seq<ParentsFirst.Host>, i: nat)
    requires i < |hs| && AllReportable(hs[..i]) && Hosts.Reportable(hs[i])
    ensures AllReportable(hs[..i + 1])
  {
  }

  lemma OrderReportable(items: seq<ParentsFirst.Host>, hs: seq<ParentsFirst.Host>)
    requires hs == ParentsFirst.Ordered(items)
    ensures AllReportable(items) <==> AllReportable(hs)
  {
    ParentsFirst.SameHosts(items);
    forall i | 0 <= i < |items| ensures items[i] in hs {
      assert items[i] in items;
    }
    forall i | 0 <= i < |hs| ensures hs[i] in items {
      assert hs[i] in hs;
    }
  }

  predicate ServicesReportable(items: seq<Services.Service>) {
    forall i | 0 <= i < |items| :: Services.Reportable(items[i])
  }

  lemma OneMoreService(items: seq<Services.Service>, i: nat)
    requires i < |items| && ServicesReportable(items[..i]) && Services.Reportable(items[i])
    ensures ServicesReportable(items[..i + 1])
  {
  }

  lemma NoServiceYet(cx: Services.Context, rows: Services.Rows, log: seq<Change>, items: seq<Services.Service>)
    requires Lists(cx.order) && items == []
    ensures Services.Fold(cx, rows, log, items) == Services.Progress(rows, log, map[])
  {
  }

  lemma PortDiff(published0: bool, source0: string, published: bool, source: string)
    ensures
      FieldsDiff(map["published" := Ports.Flag(published0), "source" := source0],
                 map["published" := Ports.Flag(published), "source" := source]) == map[]
      <==> published0 == published && source0 == source
  {
    var was := map["published" := Ports.Flag(published0), "source" := source0];
    var now := map["published" := Ports.Flag(published), "source" := source];
    assert Before(was, "published") == Ports.Flag(published0) && Before(was, "source") == source0;
    assert now["published"] == Ports.Flag(published) && now["source"] == source;
    assert "true"[0] != "false"[0];
  }

  predicate Keyed<P>(items: seq<Observed.Item<P>>) {
    forall i | 0 <= i < |items| :: items[i].key != ""
  }

  lemma OneMoreKeyed<P>(items: seq<Observed.Item<P>>, i: nat)
    requires i < |items| && Keyed(items[..i]) && items[i].key != ""
    ensures Keyed(items[..i + 1])
  {
  }

  lemma NoItemYet<P>(cx: Observed.Context, rows: Observed.Rows<P>, log: seq<Change>, items: seq<Observed.Item<P>>)
    requires items == []
    ensures Observed.Fold(cx, rows, log, items) == Observed.Progress(rows, log)
  {
  }

  lemma NoPortYet(cx: Ports.Context, stored: Ports.Rows, log: seq<Change>, items: seq<Ports.Port>)
    requires items == []
    ensures Ports.Fold(cx, stored, log, items) == Ports.Progress(stored, log, {})
  {
  }

  lemma OneMorePort(cx: Ports.Context, stored: Ports.Rows, log: seq<Change>, items: seq<Ports.Port>, i: nat)
    requires i < |items| && items[i].serviceKey in cx.services && Ports.Resolvable(cx, Ports.Deduped(items[..i]))
    ensures Ports.Resolvable(cx, Ports.Deduped(items[..i + 1]))
    ensures
      var g := Ports.Fold(cx, stored, log, Ports.Deduped(items[..i]));
      Ports.Fold(cx, stored, log, Ports.Deduped(items[..i + 1])) ==
      if items[i].Key() in Ports.KeysOf(items[..i]) then g else Ports.Step(cx, stored, g, items[i])
  {
    hide Ports.Step;
    assert items[..i + 1][..i] == items[..i];
    var kept := Ports.Deduped(items[..i]);
    assert (kept + [items[i]])[..|kept|] == kept;
  }

  lemma SeenResolvable(cx: Ports.Context, items: seq<Ports.Port>, i: nat)
    requires i < |items| && Ports.Resolvable(cx, items[..i])
    requires items[i].Key() in Ports.KeysOf(items[..i]) || items[i].serviceKey in cx.services
    ensures items[i].serviceKey in cx.services && Ports.Resolvable(cx, items[..i + 1])
  {
    if items[i].Key() in Ports.KeysOf(items[..i]) {
      var j := Ports.ItemOfKey(items[..i], items[i].Key());
    }
  }

  lemma DeleteOne(rows: Ports.Rows, ids: seq<int>, i: nat)
    requires i < |ids|
    ensures Ports.Without(rows, SetOf(ids[..i + 1])) == Ports.Without(rows, SetOf(ids[..i])) - {ids[i]}
  {
    assert ids[..i + 1] == ids[..i] + [ids[i]];
    assert SetOf(ids[..i + 1]) == SetOf(ids[..i]) + {ids[i]};
  }

  function PortIds(rows: Ports.Rows, connector: int): set<int> {
    set id | id in rows && rows[id].connector == connector
  }

  function Lookup<K, V>(m: map<K, V>, k: K): Option<V> {
    if k in m then Some(m[k]) else None
  }

  lemma SetOfList(ids: seq<int>, s: set<int>)
    requires ListOf(ids, s)
    ensures SetOf(ids) == s
  {
    forall x <- SetOf(ids) ensures x in s {
      var i :| 0 <= i < |ids| && ids[i] == x;
    }
  }

  lemma NoneRemoved(e: Entity, scan: Scan, ids: seq<int>)
    ensures RemovedEntries(e, scan, ids[..0]) == []
  {
  }

  lemma RemovedOne(e: Entity, scan: Scan, ids: seq<int>, i: nat)
    requires i < |ids|
    ensures RemovedEntries(e, scan, ids[..i + 1])
         == RemovedEntries(e, scan, ids[..i]) + [Entry(scan, e, ids[i], Removed, map["state" := (ACTIVE, GONE)])]
  {
    assert ids[..i + 1][..i] == ids[..i];
  }

  lemma EndedOne<D>(rows: map<int, Row<D>>, ids: seq<int>, i: nat, now: int)
    requires i < |ids| && ids[i] in rows
    ensures Ended(rows, SetOf(ids[..i + 1]), now)
         == Ended(rows, SetOf(ids[..i]), now)[ids[i] := rows[ids[i]].(state := GONE, updatedAt := now)]
  {
    assert ids[..i + 1] == ids[..i] + [ids[i]];
    assert SetOf(ids[..i + 1]) == SetOf(ids[..i]) + {ids[i]};
  }
}
