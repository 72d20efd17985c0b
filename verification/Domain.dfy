/** What the engine stores about routes, certificates and domains (internal/domain, applyRoutes, applyCerts, applyDomains). */
module Domain {
  import opened Results
  import opened Store
  import Services
  import Observed

  datatype EntityRef = EntityRef(connector: int, key: string)

  datatype Route = Route(
    key: string, proxy: Option<int>, proxyHost: EntityRef, proxyNetworks: seq<string>, domain: string, pathPrefix: string,
    upstreamHost: string, upstreamPort: int, resolved: EntityRef, confidence: string, tls: bool, status: string)

  datatype RouteData = RouteData(
    proxy: Option<int>, domain: string, pathPrefix: string, upstreamHost: string, upstreamPort: int,
    service: Option<int>, confidence: string, tls: bool)

  datatype Cert = Cert(key: string, endpoint: string, subject: string, sans: seq<string>, issuer: string, notAfter: string)

  datatype CertData = CertData(endpoint: string, subject: string, sans: seq<string>, issuer: string)

  datatype DomainName = DomainName(key: string, name: string, registrar: string, expiresAt: string)

  datatype DomainData = DomainData(name: string, registrar: string)

  /** Ports a connector cannot name, and those outside the column's range, are stored as none. */
  function StoredPort(port: int): int {
    if port < 1 || port > 65535 then 0 else port
  }

  function Digits(n: nat): string {
    if n < 10 then [(n as char + '0')] else Digits(n / 10) + [((n % 10) as char + '0')]
  }

  function PortText(port: int): string {
    if port < 0 then "-" + Digits(-port) else Digits(port)
  }

  function Upstream(host: string, port: int): string {
    host + ":" + PortText(port)
  }

  /** The service row a resolved route points at: by the ids of this scan, else by the stored key. */
  function ServiceRow(connector: int, services: Services.Rows, ids: map<string, int>, ref: EntityRef): Option<int> {
    var owner := if ref.connector == 0 then connector else ref.connector;
    if ref.key in ids && owner == connector then Some(ids[ref.key])
    else if ref.key != "" then FindKey(services, owner, ref.key)
    else None
  }

  function RouteItem(connector: int, services: Services.Rows, ids: map<string, int>, r: Route): Observed.Item<RouteData> {
    var port := StoredPort(r.upstreamPort);
    Observed.Item(
      r.key,
      map["upstream" := Upstream(r.upstreamHost, port), "status" := DefaultString(r.status, "unknown")],
      RouteData(r.proxy, r.domain, r.pathPrefix, r.upstreamHost, port, ServiceRow(connector, services, ids, r.resolved),
                DefaultString(r.confidence, "none"), r.tls))
  }

  function CertItem(c: Cert): Observed.Item<CertData> {
    Observed.Item(DefaultString(c.key, c.endpoint), map["not_after" := c.notAfter], CertData(c.endpoint, c.subject, c.sans, c.issuer))
  }

  function DomainItem(d: DomainName): Observed.Item<DomainData> {
    Observed.Item(DefaultString(d.key, d.name), map["expires_at" := d.expiresAt], DomainData(d.name, d.registrar))
  }

  function RouteItems(connector: int, services: Services.Rows, ids: map<string, int>, rs: seq<Route>)
    : (ts: seq<Observed.Item<RouteData>>)
    ensures |ts| == |rs| && forall i | 0 <= i < |rs| :: ts[i] == RouteItem(connector, services, ids, rs[i])
  {
    seq(|rs|, i requires 0 <= i < |rs| => RouteItem(connector, services, ids, rs[i]))
  }

  function CertItems(cs: seq<Cert>): (ts: seq<Observed.Item<CertData>>)
    ensures |ts| == |cs| && forall i | 0 <= i < |cs| :: ts[i] == CertItem(cs[i])
  {
    seq(|cs|, i requires 0 <= i < |cs| => CertItem(cs[i]))
  }

  function DomainItems(ds: seq<DomainName>): (ts: seq<Observed.Item<DomainData>>)
    ensures |ts| == |ds| && forall i | 0 <= i < |ds| :: ts[i] == DomainItem(ds[i])
  {
    seq(|ds|, i requires 0 <= i < |ds| => DomainItem(ds[i]))
  }

  // ---------------------------------------------------------------------------
  // What exactly is stored and filed, kind by kind

  /** A stored route's compared columns: where it leads, and its status. */
  predicate RouteColumns(row: Row<Observed.Stored<RouteData>>) {
    && row.data.tracked.Keys == {"upstream", "status"}
    && row.data.tracked["upstream"] == row.data.payload.upstreamHost + ":" + PortText(row.data.payload.upstreamPort)
  }

  /**
   A reported route, column by column: what its row holds after the scan, and what is filed. An entry names
   exactly what moved of upstream, status and state; ports outside the column's range count and are stored as 0.
   */
  lemma RouteIsTold(order: RowOrder, scan: Scan, before: Observed.Rows<RouteData>, log: seq<Change>,
                    services: Services.Rows, ids: map<string, int>, rs: seq<Route>, i: nat)
    requires Lists(order) && Unique(before) && Observed.Distinct(RouteItems(scan.connector, services, ids, rs)) && i < |rs|
    requires forall id <- before :: RouteColumns(before[id])
    ensures
      var p := Observed.Applied(Observed.Context(RouteEntity, scan, order), before, log, RouteItems(scan.connector, services, ids, rs));
      var r, at := rs[i], FindKey(p.rows, scan.connector, rs[i].key);
      var port := if 1 <= r.upstreamPort <= 65535 then r.upstreamPort else 0;
      var status, upstream := if r.status == "" then "unknown" else r.status, r.upstreamHost + ":" + PortText(port);
      at.Some? &&
      var id, row := at.value, p.rows[at.value];
      var d := row.data.payload;
      && row.state == "active" && row.updatedAt == scan.now
      && row.data.tracked == map["upstream" := upstream, "status" := status]
      && d.proxy == r.proxy && d.domain == r.domain && d.pathPrefix == r.pathPrefix && d.upstreamHost == r.upstreamHost
      && d.upstreamPort == port && d.tls == r.tls && d.confidence == (if r.confidence == "" then "none" else r.confidence)
      && Filed(log, p.log, RouteEntity, id,
           if id !in before then [Change(scan.run, scan.now, RouteEntity, id, Added, map[])]
           else
             var was := before[id];
             var moved := Changed(map["upstream" := (was.data.payload.upstreamHost + ":" + PortText(was.data.payload.upstreamPort), upstream),
                                      "status" := (Before(was.data.tracked, "status"), status), "state" := (was.state, "active")]);
             if moved == map[] then [] else [Change(scan.run, scan.now, RouteEntity, id, Modified, moved)])
  {
    var cx, items := Observed.Context(RouteEntity, scan, order), RouteItems(scan.connector, services, ids, rs);
    Observed.ReportedFiles(cx, before, log, items, i);
    hide Observed.Applied, Observed.Tracked, Changed, Filed, FindKey, PortText;
    var id := FindKey(Observed.Applied(cx, before, log, items).rows, scan.connector, rs[i].key).value;
    var row := Observed.NewRow(cx, items[i]);
    if id in before {
      assert RouteColumns(before[id]);
      RouteMoved(cx, before[id], items[i]);
    }
  }

  lemma RouteMoved(cx: Observed.Context, was: Row<Observed.Stored<RouteData>>, t: Observed.Item<RouteData>)
    requires RouteColumns(was) && t.tracked.Keys == {"upstream", "status"}
    ensures
      FieldsDiff(Observed.Tracked(was), Observed.Tracked(Observed.NewRow(cx, t)))
      == Changed(map["upstream" := (was.data.payload.upstreamHost + ":" + PortText(was.data.payload.upstreamPort), t.tracked["upstream"]),
                     "status" := (Before(was.data.tracked, "status"), t.tracked["status"]), "state" := (was.state, "active")])
  {
    DiffIsChanged(Observed.Tracked(was), Observed.Tracked(Observed.NewRow(cx, t)),
                  map["upstream" := (was.data.payload.upstreamHost + ":" + PortText(was.data.payload.upstreamPort), t.tracked["upstream"]),
                      "status" := (Before(was.data.tracked, "status"), t.tracked["status"]), "state" := (was.state, "active")]);
  }

  /** Where one column is compared besides the state. */
  lemma OneColumnMoved<P>(cx: Observed.Context, was: Row<Observed.Stored<P>>, t: Observed.Item<P>, column: string)
    requires t.tracked.Keys == {column} && column != "state"
    ensures
      FieldsDiff(Observed.Tracked(was), Observed.Tracked(Observed.NewRow(cx, t)))
      == Changed(map[column := (Before(was.data.tracked, column), t.tracked[column]), "state" := (was.state, "active")])
  {
    DiffIsChanged(Observed.Tracked(was), Observed.Tracked(Observed.NewRow(cx, t)),
                  map[column := (Before(was.data.tracked, column), t.tracked[column]), "state" := (was.state, "active")]);
  }

  /** The service a stored route points at: this scan's row of the reference if it is the connector's own, else the stored one's. */
  lemma RouteLinkIs(connector: int, services: Services.Rows, ids: map<string, int>, r: Route)
    requires Unique(services)
    requires forall k <- ids :: ids[k] in services && services[ids[k]].connector == connector && services[ids[k]].key == k
    requires r.resolved.key != ""
    ensures
      var link := RouteItem(connector, services, ids, r).payload.service;
      var owner := if r.resolved.connector == 0 then connector else r.resolved.connector;
      forall id :: link == Some(id) <==> id in services && services[id].connector == owner && services[id].key == r.resolved.key
  {
    var owner := if r.resolved.connector == 0 then connector else r.resolved.connector;
    forall id | id in services && services[id].connector == owner && services[id].key == r.resolved.key
      ensures RouteItem(connector, services, ids, r).payload.service == Some(id)
    {
      FindKeyIs(services, id);
      if r.resolved.key in ids && owner == connector {
        FindKeyIs(services, ids[r.resolved.key]);
      }
    }
  }

  /** A reported certificate, found by its key or else its endpoint; an entry names what moved of expiry and state. */
  lemma CertIsTold(order: RowOrder, scan: Scan, before: Observed.Rows<CertData>, log: seq<Change>, cs: seq<Cert>, i: nat)
    requires Lists(order) && Unique(before) && Observed.Distinct(CertItems(cs)) && i < |cs|
    ensures
      var p := Observed.Applied(Observed.Context(CertEntity, scan, order), before, log, CertItems(cs));
      var c, at := cs[i], FindKey(p.rows, scan.connector, if cs[i].key == "" then cs[i].endpoint else cs[i].key);
      at.Some? &&
      var id, row := at.value, p.rows[at.value];
      && row.state == "active" && row.updatedAt == scan.now && row.data.tracked == map["not_after" := c.notAfter]
      && row.data.payload.endpoint == c.endpoint && row.data.payload.subject == c.subject
      && row.data.payload.sans == c.sans && row.data.payload.issuer == c.issuer
      && Filed(log, p.log, CertEntity, id,
           if id !in before then [Change(scan.run, scan.now, CertEntity, id, Added, map[])]
           else
             var moved := Changed(map["not_after" := (Before(before[id].data.tracked, "not_after"), c.notAfter), "state" := (before[id].state, "active")]);
             if moved == map[] then [] else [Change(scan.run, scan.now, CertEntity, id, Modified, moved)])
  {
    var cx, items := Observed.Context(CertEntity, scan, order), CertItems(cs);
    Observed.ReportedFiles(cx, before, log, items, i);
    hide Observed.Applied, Observed.Tracked, Changed, Filed, FindKey;
    var id := FindKey(Observed.Applied(cx, before, log, items).rows, scan.connector, items[i].key).value;
    if id in before {
      OneColumnMoved(cx, before[id], items[i], "not_after");
    }
  }


  /** A reported domain, found by its key or else its name; an entry names what moved of expiry and state. */
  lemma DomainIsTold(order: RowOrder, scan: Scan, before: Observed.Rows<DomainData>, log: seq<Change>, ds: seq<DomainName>, i: nat)
    requires Lists(order) && Unique(before) && Observed.Distinct(DomainItems(ds)) && i < |ds|
    ensures
      var p := Observed.Applied(Observed.Context(DomainEntity, scan, order), before, log, DomainItems(ds));
      var d, at := ds[i], FindKey(p.rows, scan.connector, if ds[i].key == "" then ds[i].name else ds[i].key);
      at.Some? &&
      var id, row := at.value, p.rows[at.value];
      && row.state == "active" && row.updatedAt == scan.now && row.data.tracked == map["expires_at" := d.expiresAt]
      && row.data.payload.name == d.name && row.data.payload.registrar == d.registrar
      && Filed(log, p.log, DomainEntity, id,
           if id !in before then [Change(scan.run, scan.now, DomainEntity, id, Added, map[])]
           else
             var moved := Changed(map["expires_at" := (Before(before[id].data.tracked, "expires_at"), d.expiresAt), "state" := (before[id].state, "active")]);
             if moved == map[] then [] else [Change(scan.run, scan.now, DomainEntity, id, Modified, moved)])
  {
    var cx, items := Observed.Context(DomainEntity, scan, order), DomainItems(ds);
    Observed.ReportedFiles(cx, before, log, items, i);
    hide Observed.Applied, Observed.Tracked, Changed, Filed, FindKey;
    var id := FindKey(Observed.Applied(cx, before, log, items).rows, scan.connector, items[i].key).value;
    if id in before {
      OneColumnMoved(cx, before[id], items[i], "expires_at");
    }
  }

}
