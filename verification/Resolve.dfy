/**
 Joining a proxy route to the one service it reaches (internal/resolve/resolve.go, Routes and resolve).

 The inventory is loaded in whatever order the database likes. `Verdict` is stated over the set of
 facts in it; the loops below are proved to compute it, so the order never shows.
 */
module Resolve {
  import opened Results
  import opened Domain
  import Strings

  datatype Network = Network(name: string, ip: string, aliases: seq<string>)

  datatype Host = Host(id: int, ref: EntityRef, kind: string, name: string, address: string, aliases: seq<string>)

  datatype Service = Service(ref: EntityRef, hostRef: EntityRef, name: string, networks: seq<Network>)

  datatype Port = Port(serviceRef: EntityRef, hostRef: EntityRef, number: int, containerPort: int, published: bool, hostIP: string)

  datatype Inventory = Inventory(hosts: seq<Host>, services: seq<Service>, ports: seq<Port>)

  /**
   How names and addresses are read: trimming and lower case, one spelling per IP, the first DNS
   label, loopback names, and the IP a DNS record names a machine by.
   */
  datatype Names = Names(
    normalize: string -> string, canonical: string -> string, short: string -> string, loopback: string -> bool,
    record: string -> Option<string>)

  // ---------------------------------------------------------------------------
  // Facts: the inventory with every order forgotten

  datatype NetworkFact = NetworkFact(name: string, ip: string, aliases: set<string>)

  datatype HostFact = HostFact(id: int, ref: EntityRef, kind: string, name: string, address: string, aliases: set<string>)

  datatype ServiceFact = ServiceFact(ref: EntityRef, hostRef: EntityRef, name: string, networks: set<NetworkFact>)

  datatype Facts = Facts(hosts: set<HostFact>, services: set<ServiceFact>, ports: set<Port>)

  function NetworkOf(n: Network): NetworkFact {
    NetworkFact(n.name, n.ip, SetOf(n.aliases))
  }

  function NetworksOf(ns: seq<Network>): set<NetworkFact> {
    set n | n in ns :: NetworkOf(n)
  }

  function ServiceOf(s: Service): ServiceFact {
    ServiceFact(s.ref, s.hostRef, s.name, NetworksOf(s.networks))
  }

  function ServicesOf(ss: seq<Service>): set<ServiceFact> {
    set s | s in ss :: ServiceOf(s)
  }

  function HostOf(h: Host): HostFact {
    HostFact(h.id, h.ref, h.kind, h.name, h.address, SetOf(h.aliases))
  }

  function HostsOf(hs: seq<Host>): set<HostFact> {
    set h | h in hs :: HostOf(h)
  }

  function FactsOf(inv: Inventory): Facts {
    Facts(HostsOf(inv.hosts), ServicesOf(inv.services), SetOf(inv.ports))
  }

  // ---------------------------------------------------------------------------
  // The three kinds of evidence

  const NOWHERE := EntityRef(0, "")

  predicate ValidRef(ref: EntityRef) {
    ref.connector != 0 || ref.key != ""
  }

  /** A known port of the service is the one asked for. */
  predicate Verified(ports: set<Port>, ref: EntityRef, port: int) {
    exists p <- ports :: Serving(p, ref, port)
  }

  predicate Serving(p: Port, ref: EntityRef, port: int) {
    p.serviceRef == ref && (p.containerPort == port || (!p.published && p.number == port))
  }

  /** A service none of whose ports is known may serve any. */
  predicate Serves(ports: set<Port>, ref: EntityRef, port: int) {
    Verified(ports, ref, port) || forall p <- ports :: p.serviceRef != ref
  }

  /** One reason to think the upstream is a service: which one, on which host, over which network. */
  datatype Candidate = Candidate(ref: EntityRef, hostRef: EntityRef, network: string)

  predicate HasAddress(nm: Names, host: string, n: NetworkFact) {
    n.ip != "" && nm.normalize(n.ip) == host
  }

  predicate HasAlias(nm: Names, host: string, n: NetworkFact) {
    exists a <- n.aliases :: nm.normalize(a) == host
  }

  /** The service has the upstream's IP on that network. */
  predicate AddressOn(nm: Names, host: string, s: ServiceFact, network: string) {
    exists n <- s.networks :: HasAddress(nm, host, n) && n.name == network
  }

  /** The service goes by the upstream's name on that network; one without networks goes by its own name on "". */
  predicate NameOn(nm: Names, host: string, s: ServiceFact, network: string) {
    if s.networks == {} then nm.normalize(s.name) == host && network == ""
    else exists n <- s.networks :: (nm.normalize(s.name) == host || HasAlias(nm, host, n)) && n.name == network
  }

  /** The service may serve the route's port and has its upstream's IP on the candidate's network. */
  predicate OffersAddress(nm: Names, ports: set<Port>, r: Route, s: ServiceFact, c: Candidate) {
    s.ref == c.ref && s.hostRef == c.hostRef && Serves(ports, s.ref, r.upstreamPort) &&
    AddressOn(nm, nm.normalize(r.upstreamHost), s, c.network)
  }

  predicate OffersName(nm: Names, ports: set<Port>, r: Route, s: ServiceFact, c: Candidate) {
    s.ref == c.ref && s.hostRef == c.hostRef && Serves(ports, s.ref, r.upstreamPort) &&
    NameOn(nm, nm.normalize(r.upstreamHost), s, c.network)
  }

  predicate ByAddress(nm: Names, f: Facts, r: Route, c: Candidate) {
    exists s <- f.services :: OffersAddress(nm, f.ports, r, s, c)
  }

  predicate ByName(nm: Names, f: Facts, r: Route, c: Candidate) {
    exists s <- f.services :: OffersName(nm, f.ports, r, s, c)
  }

  /** The proxy can reach the candidate: on its own host, if that is known, and over one of its networks, if any. */
  predicate InScope(nm: Names, r: Route, c: Candidate) {
    && (ValidRef(r.proxyHost) ==> c.hostRef == r.proxyHost)
    && (r.proxyNetworks != [] ==> exists n <- r.proxyNetworks :: nm.normalize(n) == nm.normalize(c.network))
  }

  predicate Local(host: string) {
    host in {"localhost", "127.0.0.1", "::1", "host.docker.internal", "gateway.docker.internal"}
  }

  /** The upstream host names this host, by its address or an alias. */
  predicate Addressed(nm: Names, h: HostFact, host: string) {
    nm.normalize(h.address) == host ||
    (nm.canonical(host) != "" &&
     (nm.canonical(h.address) == nm.canonical(host) || exists a <- h.aliases :: nm.canonical(a) == nm.canonical(host)))
  }

  /** The upstream host names this host, or a view of it. */
  predicate NamesHost(nm: Names, hosts: set<HostFact>, links: map<EntityRef, EntityRef>, host: string, ref: EntityRef) {
    exists h <- hosts :: Addressed(nm, h, host) && (h.ref == ref || (h.ref in links && links[h.ref] == ref))
  }

  /** The port answers on the upstream's host: published there, or listening on the proxy's own loopback. */
  predicate Answers(nm: Names, f: Facts, links: map<EntityRef, EntityRef>, r: Route, p: Port) {
    var host := nm.normalize(r.upstreamHost);
    p.number == r.upstreamPort &&
    if p.published then
      (Local(host) && (!ValidRef(r.proxyHost) || r.proxyHost == p.hostRef)) || NamesHost(nm, f.hosts, links, host, p.hostRef)
    else
      ValidRef(r.proxyHost) && nm.loopback(host) && p.hostRef == r.proxyHost && nm.loopback(p.hostIP)
  }

  predicate ByPort(nm: Names, f: Facts, links: map<EntityRef, EntityRef>, r: Route, ref: EntityRef) {
    exists p <- f.ports :: Answers(nm, f, links, r, p) && p.serviceRef == ref
  }

  // ---------------------------------------------------------------------------
  // The verdict

  datatype Verdict = Matched(ref: EntityRef, confidence: string) | Broken

  /** `ref` is the one service the evidence in scope points at. */
  ghost predicate SoleAddress(nm: Names, f: Facts, r: Route, ref: EntityRef) {
    && (exists c :: ByAddress(nm, f, r, c) && InScope(nm, r, c) && c.ref == ref)
    && (forall c :: ByAddress(nm, f, r, c) && InScope(nm, r, c) ==> c.ref == ref)
  }

  ghost predicate SoleName(nm: Names, f: Facts, r: Route, ref: EntityRef) {
    && (exists c :: ByName(nm, f, r, c) && InScope(nm, r, c) && c.ref == ref)
    && (forall c :: ByName(nm, f, r, c) && InScope(nm, r, c) ==> c.ref == ref)
  }

  ghost predicate SolePort(nm: Names, f: Facts, links: map<EntityRef, EntityRef>, r: Route, ref: EntityRef) {
    ByPort(nm, f, links, r, ref) && forall other :: ByPort(nm, f, links, r, other) ==> other == ref
  }

  ghost predicate AnyAddress(nm: Names, f: Facts, r: Route) {
    exists c :: ByAddress(nm, f, r, c)
  }

  ghost predicate AnyName(nm: Names, f: Facts, r: Route) {
    exists c :: ByName(nm, f, r, c)
  }

  function Confidence(verified: bool): string {
    if verified then "high" else "medium"
  }

  /**
   What a verdict has to be: the strongest evidence there is decides alone, and decides only if it
   points, in the proxy's scope, at one service.
   */
  ghost predicate Judges(nm: Names, f: Facts, links: map<EntityRef, EntityRef>, r: Route, v: Verdict) {
    if AnyAddress(nm, f, r) then
      match v
      case Matched(ref, confidence) =>
        SoleAddress(nm, f, r, ref) && confidence == Confidence(Verified(f.ports, ref, r.upstreamPort))
      case Broken => forall ref :: !SoleAddress(nm, f, r, ref)
    else if AnyName(nm, f, r) then
      match v
      case Matched(ref, confidence) =>
        SoleName(nm, f, r, ref) && confidence == Confidence(Verified(f.ports, ref, r.upstreamPort))
      case Broken => forall ref :: !SoleName(nm, f, r, ref)
    else
      match v
      case Matched(ref, confidence) => SolePort(nm, f, links, r, ref) && confidence == "medium"
      case Broken => forall ref :: !SolePort(nm, f, links, r, ref)
  }

  /** The strongest evidence there is points, in the proxy's scope, at this service alone. */
  ghost predicate Decides(nm: Names, f: Facts, links: map<EntityRef, EntityRef>, r: Route, ref: EntityRef) {
    if AnyAddress(nm, f, r) then SoleAddress(nm, f, r, ref)
    else if AnyName(nm, f, r) then SoleName(nm, f, r, ref)
    else SolePort(nm, f, links, r, ref)
  }

  function Settle(r: Route, v: Verdict): Route {
    match v
    case Matched(ref, confidence) => r.(resolved := ref, confidence := confidence, status := "ok")
    case Broken => r.(resolved := NOWHERE, confidence := "none", status := "broken")
  }

  // ---------------------------------------------------------------------------
  // The loops

  method Listens(ref: EntityRef, port: int, ports: seq<Port>) returns (serves: bool, verified: bool)
    ensures serves == Serves(SetOf(ports), ref, port) && verified == Verified(SetOf(ports), ref, port)
  {
    var known, i := false, 0;
    while i < |ports| && !(ports[i].serviceRef == ref && (ports[i].containerPort == port || (!ports[i].published && ports[i].number == port)))
      invariant 0 <= i <= |ports|
      invariant known <==> exists j :: 0 <= j < i && ports[j].serviceRef == ref
      invariant forall j | 0 <= j < i :: !Serving(ports[j], ref, port)
    {
      known := known || ports[i].serviceRef == ref;
      i := i + 1;
    }
    verified := i < |ports|;
    serves := verified || !known;
    assert verified ==> Serving(ports[i], ref, port) && ports[i] in SetOf(ports);
    assert known ==> exists p :: p in SetOf(ports) && p.serviceRef == ref;
  }

  method HasName(nm: Names, host: string, n: Network) returns (found: bool)
    ensures found == HasAlias(nm, host, NetworkOf(n))
  {
    var i := 0;
    while i < |n.aliases| && nm.normalize(n.aliases[i]) != host
      invariant 0 <= i <= |n.aliases| && forall j | 0 <= j < i :: nm.normalize(n.aliases[j]) != host
    {
      i := i + 1;
    }
    found := i < |n.aliases|;
    assert found ==> n.aliases[i] in SetOf(n.aliases);
  }

  /** The networks on which the service has the upstream's IP. */
  method AddressNetworks(nm: Names, host: string, s: Service) returns (networks: seq<string>)
    ensures forall n :: n in networks <==> AddressOn(nm, host, ServiceOf(s), n)
  {
    networks := [];
    for i := 0 to |s.networks|
      invariant forall n :: n in networks <==>
        exists j :: 0 <= j < i && HasAddress(nm, host, NetworkOf(s.networks[j])) && s.networks[j].name == n
    {
      var n := s.networks[i];
      if n.ip != "" && host == nm.normalize(n.ip) {
        networks := networks + [n.name];
      }
    }
    forall n ensures n in networks <==> AddressOn(nm, host, ServiceOf(s), n) {
      if n in networks {
        var j :| 0 <= j < |s.networks| && HasAddress(nm, host, NetworkOf(s.networks[j])) && s.networks[j].name == n;
        assert NetworkOf(s.networks[j]) in ServiceOf(s).networks;
      }
    }
  }

  /** The networks on which the service goes by the upstream's name. */
  method MatchingNetworks(nm: Names, host: string, s: Service) returns (networks: seq<string>)
    ensures forall n :: n in networks <==> NameOn(nm, host, ServiceOf(s), n)
  {
    networks := [];
    var named := host == nm.normalize(s.name);
    if |s.networks| == 0 {
      assert ServiceOf(s).networks == {};
      if named {
        networks := [""];
      }
    } else {
      assert NetworkOf(s.networks[0]) in ServiceOf(s).networks;
      for i := 0 to |s.networks|
        invariant forall n :: n in networks <==>
          exists j :: 0 <= j < i && (named || HasAlias(nm, host, NetworkOf(s.networks[j]))) && s.networks[j].name == n
      {
        var matches := named;
        if !matches {
          matches := HasName(nm, host, s.networks[i]);
        }
        if matches {
          networks := networks + [s.networks[i].name];
        }
      }
      forall n ensures n in networks <==> NameOn(nm, host, ServiceOf(s), n) {
        if n in networks {
          var j :| 0 <= j < |s.networks| && (named || HasAlias(nm, host, NetworkOf(s.networks[j]))) && s.networks[j].name == n;
          assert NetworkOf(s.networks[j]) in ServiceOf(s).networks;
        }
      }
    }
  }

  /** A service as a candidate over each of the networks. */
  method Candidates(s: Service, networks: seq<string>) returns (cs: seq<Candidate>)
    ensures forall c :: c in cs <==> c.ref == s.ref && c.hostRef == s.hostRef && c.network in networks
  {
    cs := [];
    for i := 0 to |networks|
      invariant forall c :: c in cs <==> c.ref == s.ref && c.hostRef == s.hostRef && c.network in networks[..i]
    {
      cs := cs + [Candidate(s.ref, s.hostRef, networks[i])];
    }
    assert networks[..|networks|] == networks;
  }

  method AddressCandidates(nm: Names, r: Route, inv: Inventory) returns (cs: seq<Candidate>)
    ensures forall c :: c in cs <==> ByAddress(nm, FactsOf(inv), r, c)
  {
    cs := [];
    for i := 0 to |inv.services|
      invariant forall c :: c in cs <==>
        exists j :: 0 <= j < i && OffersAddress(nm, SetOf(inv.ports), r, ServiceOf(inv.services[j]), c)
    {
      var s := inv.services[i];
      var networks := AddressNetworks(nm, nm.normalize(r.upstreamHost), s);
      var serves, _ := Listens(s.ref, r.upstreamPort, inv.ports);
      if serves {
        var more := Candidates(s, networks);
        cs := cs + more;
      }
    }
    forall c ensures c in cs <==> ByAddress(nm, FactsOf(inv), r, c) {
      if c in cs {
        var j :| 0 <= j < |inv.services| && OffersAddress(nm, SetOf(inv.ports), r, ServiceOf(inv.services[j]), c);
        assert ServiceOf(inv.services[j]) in FactsOf(inv).services;
      }
    }
  }

  method NamedCandidates(nm: Names, r: Route, inv: Inventory) returns (cs: seq<Candidate>)
    ensures forall c :: c in cs <==> ByName(nm, FactsOf(inv), r, c)
  {
    cs := [];
    for i := 0 to |inv.services|
      invariant forall c :: c in cs <==>
        exists j :: 0 <= j < i && OffersName(nm, SetOf(inv.ports), r, ServiceOf(inv.services[j]), c)
    {
      var s := inv.services[i];
      var networks := MatchingNetworks(nm, nm.normalize(r.upstreamHost), s);
      var serves, _ := Listens(s.ref, r.upstreamPort, inv.ports);
      if serves {
        var more := Candidates(s, networks);
        cs := cs + more;
      }
    }
    forall c ensures c in cs <==> ByName(nm, FactsOf(inv), r, c) {
      if c in cs {
        var j :| 0 <= j < |inv.services| && OffersName(nm, SetOf(inv.ports), r, ServiceOf(inv.services[j]), c);
        assert ServiceOf(inv.services[j]) in FactsOf(inv).services;
      }
    }
  }

  method NormalizedAll(nm: Names, names: seq<string>) returns (out: set<string>)
    ensures forall n :: n in out <==> exists m <- names :: nm.normalize(m) == n
  {
    out := {};
    for i := 0 to |names|
      invariant forall n :: n in out <==> exists j :: 0 <= j < i && nm.normalize(names[j]) == n
    {
      out := out + {nm.normalize(names[i])};
    }
  }

  /** The candidates the proxy can reach. */
  method Scoped(nm: Names, r: Route, cs: seq<Candidate>) returns (out: seq<Candidate>)
    ensures forall c :: c in out <==> c in cs && InScope(nm, r, c)
  {
    var networks := NormalizedAll(nm, r.proxyNetworks);
    out := [];
    for i := 0 to |cs|
      invariant forall c :: c in out <==> c in cs[..i] && InScope(nm, r, c)
    {
      var c := cs[i];
      if (ValidRef(r.proxyHost) ==> c.hostRef == r.proxyHost) &&
         (|r.proxyNetworks| > 0 ==> nm.normalize(c.network) in networks) {
        out := out + [c];
      }
    }
    assert cs[..|cs|] == cs;
  }

  /** The one service all candidates are. */
  method UniqueCandidate(cs: seq<Candidate>) returns (r: Option<EntityRef>)
    ensures forall ref :: r == Some(ref) <==> (exists c <- cs :: c.ref == ref) && (forall c <- cs :: c.ref == ref)
  {
    var refs: set<EntityRef> := {};
    for i := 0 to |cs|
      invariant forall ref :: ref in refs <==> exists j :: 0 <= j < i && cs[j].ref == ref
    {
      refs := refs + {cs[i].ref};
    }
    r := Sole(refs);
    forall ref ensures r == Some(ref) <==> (exists c <- cs :: c.ref == ref) && (forall c <- cs :: c.ref == ref) {
      if r == Some(ref) {
        assert ref in refs;
        forall c <- cs ensures c.ref == ref {
          assert c.ref in refs;
        }
      } else if exists c <- cs :: c.ref == ref {
        var j :| 0 <= j < |cs| && cs[j].ref == ref;
        assert ref in refs;
      }
    }
  }

  method Sole(refs: set<EntityRef>) returns (r: Option<EntityRef>)
    ensures r.Some? <==> |refs| == 1
    ensures r.Some? ==> refs == {r.value}
    ensures forall ref <- refs :: (forall other <- refs :: other == ref) ==> r == Some(ref)
  {
    r := None;
    if |refs| == 1 {
      var ref :| ref in refs;
      OneMember(refs, ref);
      r := Some(ref);
    }
    forall ref | ref in refs && (forall other <- refs :: other == ref) ensures |refs| == 1 {
      assert refs == {ref};
    }
  }

  lemma OneMember<T>(s: set<T>, x: T)
    requires |s| == 1 && x in s
    ensures s == {x}
  {
    assert |s - {x}| == 0;
  }

  method AddressedBy(nm: Names, h: Host, host: string) returns (found: bool)
    ensures found == Addressed(nm, HostOf(h), host)
  {
    var want := nm.canonical(host);
    found := nm.normalize(h.address) == host || (want != "" && nm.canonical(h.address) == want);
    if !found && want != "" {
      var i := 0;
      while i < |h.aliases| && nm.canonical(h.aliases[i]) != want
        invariant 0 <= i <= |h.aliases| && forall j | 0 <= j < i :: nm.canonical(h.aliases[j]) != want
      {
        i := i + 1;
      }
      found := i < |h.aliases|;
      assert found ==> h.aliases[i] in SetOf(h.aliases);
    }
  }

  /** The hosts the upstream names, and the machines behind the views it names. */
  method NamedHosts(nm: Names, host: string, hosts: seq<Host>, links: map<EntityRef, EntityRef>) returns (refs: set<EntityRef>)
    ensures forall ref :: ref in refs <==> NamesHost(nm, HostsOf(hosts), links, host, ref)
  {
    refs := {};
    for i := 0 to |hosts|
      invariant forall ref :: ref in refs <==>
        exists j :: 0 <= j < i && Addressed(nm, HostOf(hosts[j]), host) &&
                    (hosts[j].ref == ref || (hosts[j].ref in links && links[hosts[j].ref] == ref))
    {
      var addressed := AddressedBy(nm, hosts[i], host);
      if addressed {
        refs := refs + {hosts[i].ref};
        if hosts[i].ref in links {
          refs := refs + {links[hosts[i].ref]};
        }
      }
    }
    forall ref ensures ref in refs <==> NamesHost(nm, HostsOf(hosts), links, host, ref) {
      if ref in refs {
        var j :| 0 <= j < |hosts| && Addressed(nm, HostOf(hosts[j]), host) &&
                 (hosts[j].ref == ref || (hosts[j].ref in links && links[hosts[j].ref] == ref));
        assert HostOf(hosts[j]) in HostsOf(hosts);
      }
    }
  }

  /** The services with a port that answers on the upstream's host. */
  method PortCandidates(nm: Names, r: Route, inv: Inventory, links: map<EntityRef, EntityRef>) returns (refs: set<EntityRef>)
    ensures forall ref :: ref in refs <==> ByPort(nm, FactsOf(inv), links, r, ref)
  {
    var host := nm.normalize(r.upstreamHost);
    var hostRefs := NamedHosts(nm, host, inv.hosts, links);
    var loopbackUpstream := ValidRef(r.proxyHost) && nm.loopback(host);
    refs := {};
    for i := 0 to |inv.ports|
      invariant forall ref :: ref in refs <==>
        exists j :: 0 <= j < i && Answers(nm, FactsOf(inv), links, r, inv.ports[j]) && inv.ports[j].serviceRef == ref
    {
      var p := inv.ports[i];
      if p.number == r.upstreamPort {
        var local := Local(host) && (!ValidRef(r.proxyHost) || r.proxyHost == p.hostRef);
        var loop := loopbackUpstream && !p.published && p.hostRef == r.proxyHost && nm.loopback(p.hostIP);
        if (p.published && (local || p.hostRef in hostRefs)) || loop {
          refs := refs + {p.serviceRef};
        }
      }
    }
    forall ref ensures ref in refs <==> ByPort(nm, FactsOf(inv), links, r, ref) {
      if ref in refs {
        var j :| 0 <= j < |inv.ports| && Answers(nm, FactsOf(inv), links, r, inv.ports[j]) && inv.ports[j].serviceRef == ref;
        assert inv.ports[j] in FactsOf(inv).ports;
      }
    }
  }

  /** What the upstream's IP says. */
  method JudgeAddress(nm: Names, r: Route, inv: Inventory) returns (any: bool, sole: Option<EntityRef>)
    ensures any == AnyAddress(nm, FactsOf(inv), r)
    ensures forall ref :: sole == Some(ref) <==> SoleAddress(nm, FactsOf(inv), r, ref)
  {
    ghost var f := FactsOf(inv);
    var cs := AddressCandidates(nm, r, inv);
    var scoped := Scoped(nm, r, cs);
    any := |cs| > 0;
    sole := UniqueCandidate(scoped);
    assert any ==> ByAddress(nm, f, r, cs[0]);
    forall ref | SoleAddress(nm, f, r, ref) ensures sole == Some(ref) {
      var c :| ByAddress(nm, f, r, c) && InScope(nm, r, c) && c.ref == ref;
      assert c in scoped;
      assert forall d <- scoped :: ByAddress(nm, f, r, d) && InScope(nm, r, d);
    }
    if sole.Some? {
      var c :| c in scoped && c.ref == sole.value;
      assert ByAddress(nm, f, r, c);
    }
  }

  /** What the upstream's name says. */
  method JudgeName(nm: Names, r: Route, inv: Inventory) returns (any: bool, sole: Option<EntityRef>)
    ensures any == AnyName(nm, FactsOf(inv), r)
    ensures forall ref :: sole == Some(ref) <==> SoleName(nm, FactsOf(inv), r, ref)
  {
    ghost var f := FactsOf(inv);
    var cs := NamedCandidates(nm, r, inv);
    var scoped := Scoped(nm, r, cs);
    any := |cs| > 0;
    sole := UniqueCandidate(scoped);
    assert any ==> ByName(nm, f, r, cs[0]);
    forall ref | SoleName(nm, f, r, ref) ensures sole == Some(ref) {
      var c :| ByName(nm, f, r, c) && InScope(nm, r, c) && c.ref == ref;
      assert c in scoped;
      assert forall d <- scoped :: ByName(nm, f, r, d) && InScope(nm, r, d);
    }
    if sole.Some? {
      var c :| c in scoped && c.ref == sole.value;
      assert ByName(nm, f, r, c);
    }
  }

  /** One route, settled by the strongest evidence there is for it. */
  method Resolve(nm: Names, r: Route, inv: Inventory, links: map<EntityRef, EntityRef>) returns (out: Route)
    ensures exists v :: Judges(nm, FactsOf(inv), links, r, v) && out == Settle(r, v)
    ensures out == r.(resolved := out.resolved, confidence := out.confidence, status := out.status)
    ensures forall ref | Decides(nm, FactsOf(inv), links, r, ref) ::
      && out.status == "ok" && out.resolved == ref
      && out.confidence == (if (AnyAddress(nm, FactsOf(inv), r) || AnyName(nm, FactsOf(inv), r)) &&
                               exists p <- inv.ports :: Serving(p, ref, r.upstreamPort) then "high" else "medium")
    ensures (forall ref :: !Decides(nm, FactsOf(inv), links, r, ref)) ==>
      out.status == "broken" && out.confidence == "none" && out.resolved == EntityRef(0, "")
  {
    var any, sole := JudgeAddress(nm, r, inv);
    if !any {
      any, sole := JudgeName(nm, r, inv);
    }
    var verdict := Broken;
    if any && sole.Some? {
      var _, verified := Listens(sole.value, r.upstreamPort, inv.ports);
      verdict := Matched(sole.value, Confidence(verified));
    } else if !any {
      var refs := PortCandidates(nm, r, inv, links);
      sole := Sole(refs);
      if sole.Some? {
        verdict := Matched(sole.value, "medium");
      }
    }
    assert Judges(nm, FactsOf(inv), links, r, verdict);
    out := Settle(r, verdict);
    VerdictIsWritten(nm, FactsOf(inv), links, r, verdict);
    hide Judges, Decides, AnyAddress, AnyName, Serving;
    assert forall p :: p in FactsOf(inv).ports <==> p in inv.ports;
  }

  // ---------------------------------------------------------------------------
  // What a verdict rests on

  /** There is always a verdict. */
  ghost function VerdictOf(nm: Names, f: Facts, links: map<EntityRef, EntityRef>, r: Route): (v: Verdict)
    ensures Judges(nm, f, links, r, v)
  {
    if AnyAddress(nm, f, r) then
      if exists ref :: SoleAddress(nm, f, r, ref) then
        var ref :| SoleAddress(nm, f, r, ref);
        Matched(ref, Confidence(Verified(f.ports, ref, r.upstreamPort)))
      else Broken
    else if AnyName(nm, f, r) then
      if exists ref :: SoleName(nm, f, r, ref) then
        var ref :| SoleName(nm, f, r, ref);
        Matched(ref, Confidence(Verified(f.ports, ref, r.upstreamPort)))
      else Broken
    else if exists ref :: SolePort(nm, f, links, r, ref) then
      var ref :| SolePort(nm, f, links, r, ref);
      Matched(ref, "medium")
    else Broken
  }

  /** What a verdict means for a route's columns. */
  lemma VerdictIsWritten(nm: Names, f: Facts, links: map<EntityRef, EntityRef>, r: Route, v: Verdict)
    requires Judges(nm, f, links, r, v)
    ensures
      var out := Settle(r, v);
      && out == r.(resolved := out.resolved, confidence := out.confidence, status := out.status)
      && (forall ref | Decides(nm, f, links, r, ref) ::
            && out.status == "ok" && out.resolved == ref
            && out.confidence == (if (AnyAddress(nm, f, r) || AnyName(nm, f, r)) && exists p <- f.ports :: Serving(p, ref, r.upstreamPort)
                                  then "high" else "medium"))
      && ((forall ref :: !Decides(nm, f, links, r, ref)) ==>
            out.status == "broken" && out.confidence == "none" && out.resolved == EntityRef(0, ""))
  {
    hide AnyAddress, AnyName, SoleAddress, SoleName, SolePort;
    if v.Matched? {
      assert Decides(nm, f, links, r, v.ref);
      forall ref | Decides(nm, f, links, r, ref) ensures ref == v.ref {
        DecidesOne(nm, f, links, r, ref, v.ref);
      }
    }
  }

  /** No two services are decided on. */
  lemma DecidesOne(nm: Names, f: Facts, links: map<EntityRef, EntityRef>, r: Route, a: EntityRef, b: EntityRef)
    requires Decides(nm, f, links, r, a) && Decides(nm, f, links, r, b)
    ensures a == b
  {
  }

  /** The service has a known port that answers on this number, or no known port at all. */
  predicate MayServe(f: Facts, ref: EntityRef, port: int) {
    (exists p <- f.ports :: p.serviceRef == ref && (p.containerPort == port || (!p.published && p.number == port)))
    || forall p <- f.ports :: p.serviceRef != ref
  }

  /** On the proxy's host, if that is known, and on one of its networks, if it has any. */
  predicate Reachable(nm: Names, r: Route, hostRef: EntityRef, network: string) {
    && (r.proxyHost == EntityRef(0, "") || hostRef == r.proxyHost)
    && (r.proxyNetworks == [] || exists k <- r.proxyNetworks :: nm.normalize(k) == nm.normalize(network))
  }

  /** The only service with the upstream's IP, within the proxy's reach, is where the route leads. */
  lemma OneAddressIsReached(nm: Names, f: Facts, links: map<EntityRef, EntityRef>, r: Route, s: ServiceFact, n: NetworkFact)
    requires s in f.services && n in s.networks && n.ip != "" && nm.normalize(n.ip) == nm.normalize(r.upstreamHost)
    requires MayServe(f, s.ref, r.upstreamPort) && Reachable(nm, r, s.hostRef, n.name)
    requires forall t <- f.services :: t.ref != s.ref ==>
      forall k <- t.networks :: k.ip == "" || nm.normalize(k.ip) != nm.normalize(r.upstreamHost)
    ensures Decides(nm, f, links, r, s.ref)
  {
    var c := Candidate(s.ref, s.hostRef, n.name);
    assert AddressOn(nm, nm.normalize(r.upstreamHost), s, c.network);
    ServesIs(f, s.ref, r.upstreamPort);
    assert OffersAddress(nm, f.ports, r, s, c);
    assert ByAddress(nm, f, r, c) && InScope(nm, r, c);
    forall d | ByAddress(nm, f, r, d) ensures d.ref == s.ref {
      var t :| t in f.services && OffersAddress(nm, f.ports, r, t, d);
    }
  }

  lemma ServesIs(f: Facts, ref: EntityRef, port: int)
    ensures Serves(f.ports, ref, port) <==> MayServe(f, ref, port)
  {
    assert (exists p <- f.ports :: p.serviceRef == ref && (p.containerPort == port || (!p.published && p.number == port)))
      <==> exists p <- f.ports :: Serving(p, ref, port);
  }

  /** Where no service has the upstream's IP, the only one that goes by its name or an alias, within reach, is where it leads. */
  lemma OneNameIsReached(nm: Names, f: Facts, links: map<EntityRef, EntityRef>, r: Route, s: ServiceFact, n: NetworkFact)
    requires s in f.services && n in s.networks
    requires nm.normalize(s.name) == nm.normalize(r.upstreamHost) || exists a <- n.aliases :: nm.normalize(a) == nm.normalize(r.upstreamHost)
    requires MayServe(f, s.ref, r.upstreamPort) && Reachable(nm, r, s.hostRef, n.name)
    requires forall t <- f.services :: forall k <- t.networks :: k.ip == "" || nm.normalize(k.ip) != nm.normalize(r.upstreamHost)
    requires forall t <- f.services :: t.ref != s.ref ==>
      && nm.normalize(t.name) != nm.normalize(r.upstreamHost)
      && forall k <- t.networks :: forall a <- k.aliases :: nm.normalize(a) != nm.normalize(r.upstreamHost)
    ensures Decides(nm, f, links, r, s.ref)
  {
    var c := Candidate(s.ref, s.hostRef, n.name);
    assert nm.normalize(s.name) == nm.normalize(r.upstreamHost) || HasAlias(nm, nm.normalize(r.upstreamHost), n);
    assert NameOn(nm, nm.normalize(r.upstreamHost), s, c.network);
    ServesIs(f, s.ref, r.upstreamPort);
    assert OffersName(nm, f.ports, r, s, c);
    assert ByName(nm, f, r, c) && InScope(nm, r, c);
    NoAddress(nm, f, r);
    forall d | ByName(nm, f, r, d) ensures d.ref == s.ref {
      var t :| t in f.services && OffersName(nm, f.ports, r, t, d);
    }
  }

  lemma NoAddress(nm: Names, f: Facts, r: Route)
    requires forall t <- f.services :: forall k <- t.networks :: k.ip == "" || nm.normalize(k.ip) != nm.normalize(r.upstreamHost)
    ensures !AnyAddress(nm, f, r)
  {
    forall c ensures !ByAddress(nm, f, r, c) {
      forall t <- f.services ensures !OffersAddress(nm, f.ports, r, t, c) {
      }
    }
  }

  /**
   Where no service has the upstream's IP or goes by its name: the only service published on its port number is where
   it leads, if the upstream is one of the names for the proxy's own host, or a host with the port's by address or alias.
   */
  lemma PublishedPortIsReached(nm: Names, f: Facts, links: map<EntityRef, EntityRef>, r: Route, p: Port)
    requires p in f.ports && p.number == r.upstreamPort && p.published
    requires !AnyAddress(nm, f, r) && !AnyName(nm, f, r)
    requires forall q <- f.ports :: q.number == r.upstreamPort ==> q.serviceRef == p.serviceRef
    requires
      var host := nm.normalize(r.upstreamHost);
      || ((host == "localhost" || host == "127.0.0.1" || host == "::1" || host == "host.docker.internal" || host == "gateway.docker.internal")
          && (r.proxyHost == EntityRef(0, "") || r.proxyHost == p.hostRef))
      || (exists h <- f.hosts :: (h.ref == p.hostRef || (h.ref in links && links[h.ref] == p.hostRef)) &&
            (nm.normalize(h.address) == host ||
             (nm.canonical(host) != "" && (nm.canonical(h.address) == nm.canonical(host) ||
                                           exists a <- h.aliases :: nm.canonical(a) == nm.canonical(host)))))
    ensures Decides(nm, f, links, r, p.serviceRef)
  {
    var host := nm.normalize(r.upstreamHost);
    if h :| h in f.hosts && (h.ref == p.hostRef || (h.ref in links && links[h.ref] == p.hostRef)) &&
            (nm.normalize(h.address) == host ||
             (nm.canonical(host) != "" && (nm.canonical(h.address) == nm.canonical(host) ||
                                           exists a <- h.aliases :: nm.canonical(a) == nm.canonical(host))))
    {
      assert Addressed(nm, h, host);
      assert NamesHost(nm, f.hosts, links, host, p.hostRef);
    }
    assert Answers(nm, f, links, r, p);
    assert ByPort(nm, f, links, r, p.serviceRef);
  }

  /** Nothing is decided without evidence: the upstream's IP or name on a reachable network, or an answering port. */
  lemma DecidedHasEvidence(nm: Names, f: Facts, links: map<EntityRef, EntityRef>, r: Route, ref: EntityRef)
    requires Decides(nm, f, links, r, ref)
    ensures
      var host := nm.normalize(r.upstreamHost);
      || (exists s <- f.services :: s.ref == ref && MayServe(f, ref, r.upstreamPort) &&
            ((exists n <- s.networks :: Reachable(nm, r, s.hostRef, n.name) &&
                ((n.ip != "" && nm.normalize(n.ip) == host) || nm.normalize(s.name) == host || exists a <- n.aliases :: nm.normalize(a) == host))
             || (s.networks == {} && Reachable(nm, r, s.hostRef, "") && nm.normalize(s.name) == host)))
      || (exists p <- f.ports :: p.serviceRef == ref && p.number == r.upstreamPort &&
            (p.published || (r.proxyHost != EntityRef(0, "") && p.hostRef == r.proxyHost && nm.loopback(host) && nm.loopback(p.hostIP))))
  {
    var host := nm.normalize(r.upstreamHost);
    if AnyAddress(nm, f, r) {
      var c :| ByAddress(nm, f, r, c) && InScope(nm, r, c) && c.ref == ref;
      var s :| s in f.services && OffersAddress(nm, f.ports, r, s, c);
      ServesIs(f, ref, r.upstreamPort);
      var n :| n in s.networks && HasAddress(nm, host, n) && n.name == c.network;
      assert Reachable(nm, r, s.hostRef, n.name);
    } else if AnyName(nm, f, r) {
      var c :| ByName(nm, f, r, c) && InScope(nm, r, c) && c.ref == ref;
      var s :| s in f.services && OffersName(nm, f.ports, r, s, c);
      ServesIs(f, ref, r.upstreamPort);
      assert Reachable(nm, r, s.hostRef, c.network);
      if s.networks != {} {
        var n :| n in s.networks && (nm.normalize(s.name) == host || HasAlias(nm, host, n)) && n.name == c.network;
      }
    } else {
      assert ByPort(nm, f, links, r, ref);
      var p :| p in f.ports && Answers(nm, f, links, r, p) && p.serviceRef == ref;
    }
  }

  /** Whatever is decided on is one of the services, or one a known port belongs to. */
  lemma DecidedIsKnown(nm: Names, f: Facts, links: map<EntityRef, EntityRef>, r: Route, ref: EntityRef)
    requires Decides(nm, f, links, r, ref)
    ensures (exists s <- f.services :: s.ref == ref) || (exists p <- f.ports :: p.serviceRef == ref)
  {
    if AnyAddress(nm, f, r) {
      var c :| ByAddress(nm, f, r, c) && InScope(nm, r, c) && c.ref == ref;
    } else if AnyName(nm, f, r) {
      var c :| ByName(nm, f, r, c) && InScope(nm, r, c) && c.ref == ref;
    } else {
      assert ByPort(nm, f, links, r, ref);
    }
  }

  /** The facts leave no choice: whatever order the inventory was loaded in, the verdict is the same. */
  lemma OneVerdict(nm: Names, f: Facts, links: map<EntityRef, EntityRef>, r: Route, v: Verdict, w: Verdict)
    requires Judges(nm, f, links, r, v) && Judges(nm, f, links, r, w)
    ensures v == w
  {
  }

  /** A weaker kind of evidence counts only where the stronger kinds are silent: an ambiguous one never falls through. */
  lemma NothingFallsThrough(nm: Names, f: Facts, links: map<EntityRef, EntityRef>, r: Route, v: Verdict)
    requires Judges(nm, f, links, r, v) && v.Matched?
    ensures SoleAddress(nm, f, r, v.ref)
         || (SoleName(nm, f, r, v.ref) && !AnyAddress(nm, f, r))
         || (SolePort(nm, f, links, r, v.ref) && !AnyAddress(nm, f, r) && !AnyName(nm, f, r))
  {
  }

  /** Two services in scope on the strongest evidence: the route is broken, whatever the rest says. */
  lemma AmbiguousIsBroken(nm: Names, f: Facts, links: map<EntityRef, EntityRef>, r: Route, v: Verdict, c: Candidate, d: Candidate)
    requires Judges(nm, f, links, r, v) && InScope(nm, r, c) && InScope(nm, r, d) && c.ref != d.ref
    requires (ByAddress(nm, f, r, c) && ByAddress(nm, f, r, d))
          || (ByName(nm, f, r, c) && ByName(nm, f, r, d) && !AnyAddress(nm, f, r))
    ensures v == Broken
  {
  }

  /** High confidence is only ever given on a port row of that very service, and on its IP or name. */
  lemma HighMeansPort(nm: Names, f: Facts, links: map<EntityRef, EntityRef>, r: Route, v: Verdict)
    requires Judges(nm, f, links, r, v) && v.Matched? && v.confidence == "high"
    ensures exists p <- f.ports :: Serving(p, v.ref, r.upstreamPort)
    ensures exists c: Candidate :: c.ref == v.ref && InScope(nm, r, c) && (ByAddress(nm, f, r, c) || ByName(nm, f, r, c))
  {
    assert "high"[0] != "medium"[0];
    assert Verified(f.ports, v.ref, r.upstreamPort);
    if AnyAddress(nm, f, r) {
      var c :| ByAddress(nm, f, r, c) && InScope(nm, r, c) && c.ref == v.ref;
    } else {
      var c :| ByName(nm, f, r, c) && InScope(nm, r, c) && c.ref == v.ref;
    }
  }

  /** The route counts only for its upstream and its proxy's scope. */
  lemma SameScopeSameVerdict(nm: Names, f: Facts, links: map<EntityRef, EntityRef>, r: Route, s: Route, v: Verdict)
    requires r.upstreamHost == s.upstreamHost && r.upstreamPort == s.upstreamPort
    requires r.proxyHost == s.proxyHost && r.proxyNetworks == s.proxyNetworks
    ensures Judges(nm, f, links, r, v) <==> Judges(nm, f, links, s, v)
  {
    forall c
      ensures ByAddress(nm, f, r, c) == ByAddress(nm, f, s, c) && ByName(nm, f, r, c) == ByName(nm, f, s, c)
      ensures InScope(nm, r, c) == InScope(nm, s, c)
    {
    }
    forall ref
      ensures SoleAddress(nm, f, r, ref) == SoleAddress(nm, f, s, ref)
      ensures SoleName(nm, f, r, ref) == SoleName(nm, f, s, ref)
    {
      hide ByAddress, ByName, InScope;
    }
    forall ref ensures ByPort(nm, f, links, r, ref) == ByPort(nm, f, links, s, ref) {
      assert forall p <- f.ports :: Answers(nm, f, links, r, p) == Answers(nm, f, links, s, p);
    }
    assert AnyAddress(nm, f, r) == AnyAddress(nm, f, s) && AnyName(nm, f, r) == AnyName(nm, f, s);
    assert forall ref :: SolePort(nm, f, links, r, ref) == SolePort(nm, f, links, s, ref);
    hide SoleAddress, SoleName, SolePort, AnyAddress, AnyName;
  }

  /** A port out of range reads as none: stored as 0, it is settled the same, since no port row has either number. */
  lemma StoredPortSettlesAlike(nm: Names, f: Facts, links: map<EntityRef, EntityRef>, r: Route, v: Verdict)
    requires forall p <- f.ports :: 1 <= p.number <= 65535 && 1 <= p.containerPort <= 65535
    requires Judges(nm, f, links, r, v)
    ensures Judges(nm, f, links, r.(upstreamPort := StoredPort(r.upstreamPort)), v)
  {
    var s := r.(upstreamPort := StoredPort(r.upstreamPort));
    forall ref ensures Verified(f.ports, ref, r.upstreamPort) == Verified(f.ports, ref, s.upstreamPort) {
      SameServing(f.ports, ref, r.upstreamPort);
    }
    forall c ensures ByAddress(nm, f, r, c) == ByAddress(nm, f, s, c) && ByName(nm, f, r, c) == ByName(nm, f, s, c)
      ensures InScope(nm, r, c) == InScope(nm, s, c)
    {
      SameOffers(nm, f, r, s, c);
    }
    forall ref
      ensures SoleAddress(nm, f, r, ref) == SoleAddress(nm, f, s, ref)
      ensures SoleName(nm, f, r, ref) == SoleName(nm, f, s, ref)
    {
      hide ByAddress, ByName, InScope;
    }
    SamePorts(nm, f, links, r);
    assert AnyAddress(nm, f, r) == AnyAddress(nm, f, s) && AnyName(nm, f, r) == AnyName(nm, f, s);
    hide SoleAddress, SoleName, SolePort, AnyAddress, AnyName;
  }

  lemma SamePorts(nm: Names, f: Facts, links: map<EntityRef, EntityRef>, r: Route)
    requires forall p <- f.ports :: 1 <= p.number <= 65535 && 1 <= p.containerPort <= 65535
    ensures forall ref :: SolePort(nm, f, links, r, ref) == SolePort(nm, f, links, r.(upstreamPort := StoredPort(r.upstreamPort)), ref)
  {
    var s := r.(upstreamPort := StoredPort(r.upstreamPort));
    forall p <- f.ports ensures Answers(nm, f, links, r, p) == Answers(nm, f, links, s, p) {
    }
    forall ref ensures ByPort(nm, f, links, r, ref) == ByPort(nm, f, links, s, ref) {
    }
  }

  lemma SameServing(ports: set<Port>, ref: EntityRef, port: int)
    requires forall p <- ports :: 1 <= p.number <= 65535 && 1 <= p.containerPort <= 65535
    ensures Verified(ports, ref, port) == Verified(ports, ref, StoredPort(port))
    ensures Serves(ports, ref, port) == Serves(ports, ref, StoredPort(port))
  {
    forall p <- ports ensures Serving(p, ref, port) == Serving(p, ref, StoredPort(port)) {
    }
  }

  lemma SameOffers(nm: Names, f: Facts, r: Route, s: Route, c: Candidate)
    requires forall ref :: Serves(f.ports, ref, r.upstreamPort) == Serves(f.ports, ref, s.upstreamPort)
    requires s == r.(upstreamPort := s.upstreamPort)
    ensures ByAddress(nm, f, r, c) == ByAddress(nm, f, s, c) && ByName(nm, f, r, c) == ByName(nm, f, s, c)
    ensures InScope(nm, r, c) == InScope(nm, s, c)
  {
    forall t <- f.services
      ensures OffersAddress(nm, f.ports, r, t, c) == OffersAddress(nm, f.ports, s, t, c)
      ensures OffersName(nm, f.ports, r, t, c) == OffersName(nm, f.ports, s, t, c)
    {
    }
  }

  // ---------------------------------------------------------------------------
  // The proxy's own networks (proxyNetworks)

  predicate Claimant(nm: Names, services: set<ServiceFact>, proxyHost: EntityRef, host: string, ref: EntityRef) {
    exists s <- services :: s.ref == ref && Stands(nm, proxyHost, host, s)
  }

  predicate Stands(nm: Names, proxyHost: EntityRef, host: string, s: ServiceFact) {
    (ValidRef(proxyHost) ==> s.hostRef == proxyHost) &&
    (nm.normalize(s.name) == host || exists n <- s.networks :: HasAlias(nm, host, n))
  }

  /** The only service that may be the proxy. */
  ghost predicate IsProxy(nm: Names, services: set<ServiceFact>, proxyHost: EntityRef, host: string, s: ServiceFact) {
    s in services && Stands(nm, proxyHost, host, s) && forall ref :: Claimant(nm, services, proxyHost, host, ref) ==> ref == s.ref
  }

  ghost predicate ProxyNetwork(nm: Names, services: set<ServiceFact>, proxyHost: EntityRef, hostname: string, network: string) {
    hostname != "" &&
    exists s :: IsProxy(nm, services, proxyHost, nm.normalize(hostname), s) && exists n <- s.networks :: n.name == network
  }

  predicate DistinctServices(services: seq<Service>) {
    forall i, j | 0 <= i < j < |services| :: services[i].ref != services[j].ref
  }

  lemma SomeNetworkStands(nm: Names, host: string, s: ServiceFact)
    ensures (exists n :: NameOn(nm, host, s, n)) <==> nm.normalize(s.name) == host || exists n <- s.networks :: HasAlias(nm, host, n)
  {
    if s.networks == {} {
      assert nm.normalize(s.name) == host ==> NameOn(nm, host, s, "");
    } else {
      forall n | n in s.networks && (nm.normalize(s.name) == host || HasAlias(nm, host, n)) ensures NameOn(nm, host, s, n.name) {
      }
    }
  }

  method ServiceNetworks(s: Service) returns (names: seq<string>)
    ensures Strings.Increasing(names) && forall n :: n in names <==> exists k <- ServiceOf(s).networks :: k.name == n
  {
    names := [];
    for i := 0 to |s.networks|
      invariant forall n :: n in names <==> exists j :: 0 <= j < i && s.networks[j].name == n
    {
      names := names + [s.networks[i].name];
    }
    Strings.SortedSetIs(names);
    names := Strings.SortedSet(names);
    forall n ensures n in names <==> exists k <- ServiceOf(s).networks :: k.name == n {
      if n in names {
        var j :| 0 <= j < |s.networks| && s.networks[j].name == n;
        assert NetworkOf(s.networks[j]) in ServiceOf(s).networks;
      }
    }
  }

  /** The services that may be the proxy, and where the last of them is. */
  method Claimants(nm: Names, inv: Inventory, proxyHost: EntityRef, host: string) returns (found: set<EntityRef>, at: nat)
    ensures forall ref :: ref in found <==> Claimant(nm, ServicesOf(inv.services), proxyHost, host, ref)
    ensures found != {} ==> at < |inv.services| && Stands(nm, proxyHost, host, ServiceOf(inv.services[at]))
  {
    hide Stands, NameOn;
    found, at := {}, 0;
    for i := 0 to |inv.services|
      invariant forall ref :: ref in found <==>
        exists j :: 0 <= j < i && inv.services[j].ref == ref && Stands(nm, proxyHost, host, ServiceOf(inv.services[j]))
      invariant found != {} ==> at < i && Stands(nm, proxyHost, host, ServiceOf(inv.services[at]))
    {
      var stands := MayBeProxy(nm, inv.services[i], proxyHost, host);
      if stands {
        found, at := found + {inv.services[i].ref}, i;
      }
    }
    forall ref ensures ref in found <==> Claimant(nm, ServicesOf(inv.services), proxyHost, host, ref) {
      if ref in found {
        var j :| 0 <= j < |inv.services| && inv.services[j].ref == ref && Stands(nm, proxyHost, host, ServiceOf(inv.services[j]));
        assert ServiceOf(inv.services[j]) in ServicesOf(inv.services);
      }
    }
  }

  method MayBeProxy(nm: Names, s: Service, proxyHost: EntityRef, host: string) returns (stands: bool)
    ensures stands == Stands(nm, proxyHost, host, ServiceOf(s))
  {
    stands := false;
    if ValidRef(proxyHost) ==> s.hostRef == proxyHost {
      var matching := MatchingNetworks(nm, host, s);
      SomeNetworkStands(nm, host, ServiceOf(s));
      stands := |matching| > 0;
      assert stands ==> NameOn(nm, host, ServiceOf(s), matching[0]);
    }
  }

  lemma SameService(services: seq<Service>, i: nat, s: ServiceFact)
    requires DistinctServices(services) && i < |services| && s in ServicesOf(services) && s.ref == services[i].ref
    ensures s == ServiceOf(services[i])
  {
    var j :| 0 <= j < |services| && s == ServiceOf(services[j]);
  }

  /** The one service that may be the proxy. */
  method ProxyService(nm: Names, inv: Inventory, proxyHost: EntityRef, host: string) returns (r: Option<Service>)
    requires DistinctServices(inv.services)
    ensures forall s :: IsProxy(nm, ServicesOf(inv.services), proxyHost, host, s) <==> r.Some? && s == ServiceOf(r.value)
  {
    hide Stands;
    var found, at := Claimants(nm, inv, proxyHost, host);
    var sole := Sole(found);
    r := if sole.Some? then Some(inv.services[at]) else None;
    forall s | IsProxy(nm, ServicesOf(inv.services), proxyHost, host, s) ensures r.Some? && s == ServiceOf(r.value) {
      assert s.ref in found;
      assert ServiceOf(inv.services[at]) in ServicesOf(inv.services);
      assert Claimant(nm, ServicesOf(inv.services), proxyHost, host, inv.services[at].ref);
      SameService(inv.services, at, s);
    }
    if r.Some? {
      assert ServiceOf(r.value) in ServicesOf(inv.services);
      assert Claimant(nm, ServicesOf(inv.services), proxyHost, host, r.value.ref);
    }
  }

  /** The networks the proxy sits on: those of the one service its endpoint's host name can mean. */
  method ProxyNetworks(nm: Names, inv: Inventory, proxyHost: EntityRef, hostname: string) returns (networks: seq<string>)
    requires DistinctServices(inv.services)
    ensures Strings.Increasing(networks)
    ensures forall n :: n in networks <==> ProxyNetwork(nm, ServicesOf(inv.services), proxyHost, hostname, n)
  {
    hide IsProxy;
    networks := [];
    if hostname != "" {
      var service := ProxyService(nm, inv, proxyHost, nm.normalize(hostname));
      if service.Some? {
        networks := ServiceNetworks(service.value);
      }
    }
  }
}
