/**
 Pairing views with machines (internal/resolve/resolve.go, linkMachines, candidateMachines, MachineHostIDs):
 a tailnet device, a DNS name or a Proxmox guest stands for the machine another source reports.
 */
module Links {
  import opened Results
  import opened Domain
  import opened Resolve

  /** The family of views a host belongs to, or "" for a machine. */
  function Family(kind: string): string {
    if kind == "tailscale" then "tailnet"
    else if kind == "dns" then "dns"
    else if kind in {"vm", "lxc", "proxmox-node"} then "proxmox"
    else ""
  }

  // ---------------------------------------------------------------------------
  // The rule, over the set of hosts

  predicate MachineAt(nm: Names, h: HostFact, key: string) {
    Family(h.kind) == "" && key != "" && nm.canonical(h.address) == key
  }

  predicate MachineNamed(nm: Names, h: HostFact, key: string) {
    Family(h.kind) == "" && key != "" && nm.short(h.name) == key
  }

  /** The addresses a view may be known by: one IP for a DNS name, any address or alias for the others. */
  predicate AddressKey(nm: Names, v: HostFact, key: string) {
    if Family(v.kind) == "dns" then nm.record(v.address).Some? && key == nm.canonical(nm.record(v.address).value)
    else key == nm.canonical(v.address) || exists a <- v.aliases :: key == nm.canonical(a)
  }

  predicate NameKey(nm: Names, v: HostFact, key: string) {
    key == nm.short(v.name) || exists a <- v.aliases :: key == nm.short(a)
  }

  predicate ByAddress(nm: Names, hosts: set<HostFact>, v: HostFact, m: EntityRef) {
    exists h <- hosts :: h.ref == m && Family(h.kind) == "" && nm.canonical(h.address) != "" && AddressKey(nm, v, nm.canonical(h.address))
  }

  predicate ByName(nm: Names, hosts: set<HostFact>, v: HostFact, m: EntityRef) {
    exists h <- hosts :: h.ref == m && Family(h.kind) == "" && nm.short(h.name) != "" && NameKey(nm, v, nm.short(h.name))
  }

  /** Names count for a view only when its addresses lead to no machine, and never for a DNS view. */
  ghost predicate Points(nm: Names, hosts: set<HostFact>, v: HostFact, m: EntityRef, viaAddress: bool) {
    if viaAddress then ByAddress(nm, hosts, v, m)
    else Family(v.kind) != "dns" && ByName(nm, hosts, v, m) && forall other :: !ByAddress(nm, hosts, v, other)
  }

  datatype Claim = Claim(family: string, machine: EntityRef, viaAddress: bool)

  /** The view's evidence names this machine and no other. */
  ghost predicate Claims(nm: Names, hosts: set<HostFact>, v: HostFact, c: Claim) {
    && c.family == Family(v.kind) != ""
    && Points(nm, hosts, v, c.machine, c.viaAddress)
    && forall other :: Points(nm, hosts, v, other, c.viaAddress) ==> other == c.machine
  }

  /**
   A view stands for a machine: it claims it, no other view of its family does on equal evidence,
   and a claim by name yields to any claim by address.
   */
  ghost predicate StandsFor(nm: Names, hosts: set<HostFact>, v: HostFact, m: EntityRef) {
    exists via: bool ::
      && Claims(nm, hosts, v, Claim(Family(v.kind), m, via))
      && (forall w <- hosts :: Claims(nm, hosts, w, Claim(Family(v.kind), m, via)) ==> w.ref == v.ref)
      && (!via ==> forall w <- hosts :: !Claims(nm, hosts, w, Claim(Family(v.kind), m, true)))
  }

  /** The links a set of hosts has. */
  ghost predicate LinksOf(nm: Names, hosts: set<HostFact>, links: map<EntityRef, EntityRef>) {
    && (forall ref <- links :: exists v <- hosts :: v.ref == ref && StandsFor(nm, hosts, v, links[ref]))
    && (forall v <- hosts :: forall m :: StandsFor(nm, hosts, v, m) ==> v.ref in links && links[v.ref] == m)
  }

  lemma SameWay(nm: Names, hosts: set<HostFact>, v: HostFact, c: Claim, d: Claim)
    requires Claims(nm, hosts, v, c) && Claims(nm, hosts, v, d)
    ensures c.viaAddress ==> d.viaAddress
  {
    assert Points(nm, hosts, v, c.machine, c.viaAddress) && Points(nm, hosts, v, d.machine, d.viaAddress);
  }

  lemma OneClaim(nm: Names, hosts: set<HostFact>, v: HostFact, c: Claim, d: Claim)
    requires Claims(nm, hosts, v, c) && Claims(nm, hosts, v, d)
    ensures c == d
  {
    SameWay(nm, hosts, v, c, d);
    SameWay(nm, hosts, v, d, c);
  }

  lemma StandsForOne(nm: Names, hosts: set<HostFact>, v: HostFact, m: EntityRef, n: EntityRef)
    requires StandsFor(nm, hosts, v, m) && StandsFor(nm, hosts, v, n)
    ensures m == n
  {
    var a: bool :| Claims(nm, hosts, v, Claim(Family(v.kind), m, a));
    var b: bool :| Claims(nm, hosts, v, Claim(Family(v.kind), n, b));
    OneClaim(nm, hosts, v, Claim(Family(v.kind), m, a), Claim(Family(v.kind), n, b));
  }

  /** What a view stands for is a machine, never another view; and it is itself a view. */
  lemma ViewsStandForMachines(nm: Names, hosts: set<HostFact>, v: HostFact, m: EntityRef)
    requires StandsFor(nm, hosts, v, m)
    ensures Family(v.kind) != "" && exists h <- hosts :: h.ref == m && Family(h.kind) == ""
  {
    var via: bool :| Claims(nm, hosts, v, Claim(Family(v.kind), m, via));
    if via {
      assert ByAddress(nm, hosts, v, m);
    } else {
      assert ByName(nm, hosts, v, m);
    }
  }

  /** A machine is what is none of the view kinds. */
  predicate IsMachine(kind: string) {
    kind != "tailscale" && kind != "dns" && kind != "vm" && kind != "lxc" && kind != "proxmox-node"
  }

  /** A tailnet device or Proxmox guest at the address of one machine, and alone at it in its family, stands for that machine. */
  lemma SharedAddressLinks(nm: Names, hosts: set<HostFact>, v: HostFact, m: HostFact)
    requires v in hosts && m in hosts && v.kind in {"tailscale", "vm", "lxc", "proxmox-node"} && IsMachine(m.kind)
    requires nm.canonical(m.address) != "" && nm.canonical(v.address) == nm.canonical(m.address)
    requires forall h <- hosts :: IsMachine(h.kind) && h.ref != m.ref ==>
      nm.canonical(h.address) != nm.canonical(v.address) && forall a <- v.aliases :: nm.canonical(h.address) != nm.canonical(a)
    requires forall w <- hosts :: !IsMachine(w.kind) && w.ref != v.ref && (w.kind == "tailscale" <==> v.kind == "tailscale") && w.kind != "dns" ==>
      nm.canonical(w.address) != nm.canonical(m.address) && forall a <- w.aliases :: nm.canonical(a) != nm.canonical(m.address)
    requires forall h <- hosts :: h.ref == m.ref ==> h == m
    ensures StandsFor(nm, hosts, v, m.ref)
  {
    assert AddressKey(nm, v, nm.canonical(m.address));
    assert ByAddress(nm, hosts, v, m.ref);
    forall other | ByAddress(nm, hosts, v, other) ensures other == m.ref {
      var h :| h in hosts && h.ref == other && Family(h.kind) == "" && nm.canonical(h.address) != "" && AddressKey(nm, v, nm.canonical(h.address));
      assert IsMachine(h.kind);
    }
    var c := Claim(Family(v.kind), m.ref, true);
    assert Points(nm, hosts, v, m.ref, true);
    assert forall other :: Points(nm, hosts, v, other, true) <==> ByAddress(nm, hosts, v, other);
    assert Claims(nm, hosts, v, c);
    forall w | w in hosts && Claims(nm, hosts, w, c) ensures w.ref == v.ref {
      assert Points(nm, hosts, w, m.ref, true);
      var h :| h in hosts && h.ref == m.ref && Family(h.kind) == "" && nm.canonical(h.address) != "" && AddressKey(nm, w, nm.canonical(h.address));
    }
  }

  /** Within one family a machine has at most one view. */
  lemma OneViewPerFamily(nm: Names, hosts: set<HostFact>, v: HostFact, w: HostFact, m: EntityRef)
    requires v in hosts && w in hosts && Family(v.kind) == Family(w.kind)
    requires StandsFor(nm, hosts, v, m) && StandsFor(nm, hosts, w, m)
    ensures v.ref == w.ref
  {
    var f := Family(v.kind);
    var a: bool :| Claims(nm, hosts, v, Claim(f, m, a))
      && (forall x <- hosts :: Claims(nm, hosts, x, Claim(f, m, a)) ==> x.ref == v.ref)
      && (!a ==> forall x <- hosts :: !Claims(nm, hosts, x, Claim(f, m, true)));
    var b: bool :| Claims(nm, hosts, w, Claim(f, m, b))
      && (forall x <- hosts :: Claims(nm, hosts, x, Claim(f, m, b)) ==> x.ref == w.ref)
      && (!b ==> forall x <- hosts :: !Claims(nm, hosts, x, Claim(f, m, true)));
    assert a == b;
    assert Claims(nm, hosts, w, Claim(f, m, a));
  }

  lemma LinksAgree(nm: Names, hosts: set<HostFact>, a: map<EntityRef, EntityRef>, b: map<EntityRef, EntityRef>)
    requires LinksOf(nm, hosts, a) && LinksOf(nm, hosts, b)
    ensures forall ref <- a :: ref in b && b[ref] == a[ref]
  {
    forall ref <- a ensures ref in b && b[ref] == a[ref] {
      var v :| v in hosts && v.ref == ref && StandsFor(nm, hosts, v, a[ref]);
    }
  }

  /** The rule fixes the links: whatever order the hosts come in, they are the same. */
  lemma LinksAreFixed(nm: Names, hosts: set<HostFact>, a: map<EntityRef, EntityRef>, b: map<EntityRef, EntityRef>)
    requires LinksOf(nm, hosts, a) && LinksOf(nm, hosts, b)
    ensures a == b
  {
    LinksAgree(nm, hosts, a, b);
    LinksAgree(nm, hosts, b, a);
    assert a.Keys == b.Keys;
  }

  predicate DistinctFacts(hosts: set<HostFact>) {
    forall v, w | v in hosts && w in hosts && v.ref == w.ref :: v == w
  }

  function RefsOf(hosts: set<HostFact>): set<EntityRef> {
    set v | v in hosts :: v.ref
  }

  /** There are always links that follow the rule. */
  ghost function LinksFor(nm: Names, hosts: set<HostFact>): (links: map<EntityRef, EntityRef>)
    requires DistinctFacts(hosts)
    ensures LinksOf(nm, hosts, links)
  {
    var linked := set v | v in hosts && exists m :: StandsFor(nm, hosts, v, m);
    var links := map ref | ref in RefsOf(linked) ::
      (var m :| exists v <- linked :: v.ref == ref && StandsFor(nm, hosts, v, m); m);
    LinksForIs(nm, hosts, linked, links);
    links
  }

  lemma LinksForIs(nm: Names, hosts: set<HostFact>, linked: set<HostFact>, links: map<EntityRef, EntityRef>)
    requires DistinctFacts(hosts)
    requires forall v :: v in linked <==> v in hosts && exists m :: StandsFor(nm, hosts, v, m)
    requires forall ref :: ref in links <==> exists v <- linked :: v.ref == ref
    requires forall ref <- links :: exists v <- linked :: v.ref == ref && StandsFor(nm, hosts, v, links[ref])
    ensures LinksOf(nm, hosts, links)
  {
    hide StandsFor;
    forall v, m | v in hosts && StandsFor(nm, hosts, v, m) ensures v.ref in links && links[v.ref] == m {
      assert v in linked;
      var w :| w in linked && w.ref == v.ref && StandsFor(nm, hosts, w, links[v.ref]);
      StandsForOne(nm, hosts, v, m, links[v.ref]);
    }
  }

  // ---------------------------------------------------------------------------
  // The indexes and the count

  type Index = map<string, seq<EntityRef>>

  predicate Has(index: Index, key: string, m: EntityRef) {
    key in index && m in index[key]
  }

  function Put(index: Index, key: string, m: EntityRef): (r: Index)
    ensures forall k, n :: Has(r, k, n) <==> Has(index, k, n) || (k == key && n == m)
  {
    index[key := (if key in index then index[key] else []) + [m]]
  }

  ghost predicate IndexesAddresses(nm: Names, hosts: set<HostFact>, index: Index) {
    forall k, m :: Has(index, k, m) <==> exists h <- hosts :: MachineAt(nm, h, k) && h.ref == m
  }

  ghost predicate IndexesNames(nm: Names, hosts: set<HostFact>, index: Index) {
    forall k, m :: Has(index, k, m) <==> exists h <- hosts :: MachineNamed(nm, h, k) && h.ref == m
  }

  lemma OneMoreHost(hosts: seq<Host>, i: nat)
    requires i < |hosts|
    ensures HostsOf(hosts[..i + 1]) == HostsOf(hosts[..i]) + {HostOf(hosts[i])}
  {
    assert hosts[..i + 1] == hosts[..i] + [hosts[i]];
  }

  method Indexes(nm: Names, hosts: seq<Host>) returns (byAddress: Index, byName: Index)
    ensures IndexesAddresses(nm, HostsOf(hosts), byAddress) && IndexesNames(nm, HostsOf(hosts), byName)
  {
    byAddress, byName := map[], map[];
    for i := 0 to |hosts|
      invariant IndexesAddresses(nm, HostsOf(hosts[..i]), byAddress) && IndexesNames(nm, HostsOf(hosts[..i]), byName)
    {
      OneMoreHost(hosts, i);
      var h := hosts[i];
      if Family(h.kind) == "" {
        var address, name := nm.canonical(h.address), nm.short(h.name);
        if address != "" {
          byAddress := Put(byAddress, address, h.ref);
        }
        if name != "" {
          byName := Put(byName, name, h.ref);
        }
      }
    }
    assert hosts[..|hosts|] == hosts;
  }

  /** The machines an index lists under the key of any of the ids. */
  method CandidateMachines(ids: seq<string>, index: Index, key: string -> string) returns (matches: set<EntityRef>)
    ensures forall m :: m in matches <==> exists id <- ids :: key(id) != "" && Has(index, key(id), m)
  {
    matches := {};
    for i := 0 to |ids|
      invariant forall m :: m in matches <==> exists j :: 0 <= j < i && key(ids[j]) != "" && Has(index, key(ids[j]), m)
    {
      var k := key(ids[i]);
      if k != "" && k in index {
        matches := matches + SetOf(index[k]);
      }
    }
  }

  /** The machines at a view's addresses. */
  method AddressMatches(nm: Names, ghost hosts: set<HostFact>, v: Host, byAddress: Index) returns (matches: set<EntityRef>)
    requires IndexesAddresses(nm, hosts, byAddress)
    ensures forall m :: m in matches <==> ByAddress(nm, hosts, HostOf(v), m)
  {
    matches := {};
    if Family(v.kind) == "dns" {
      var record := nm.record(v.address);
      if record.Some? {
        matches := CandidateMachines([record.value], byAddress, nm.canonical);
      }
    } else {
      matches := CandidateMachines([v.address] + v.aliases, byAddress, nm.canonical);
    }
    forall m ensures m in matches <==> ByAddress(nm, hosts, HostOf(v), m) {
      forall h | h in hosts && h.ref == m && Family(h.kind) == "" && nm.canonical(h.address) != ""
        ensures MachineAt(nm, h, nm.canonical(h.address)) && Has(byAddress, nm.canonical(h.address), m)
      {
      }
    }
  }

  method NameMatches(nm: Names, ghost hosts: set<HostFact>, v: Host, byName: Index) returns (matches: set<EntityRef>)
    requires IndexesNames(nm, hosts, byName)
    ensures forall m :: m in matches <==> ByName(nm, hosts, HostOf(v), m)
  {
    matches := CandidateMachines([v.name] + v.aliases, byName, nm.short);
    forall m ensures m in matches <==> ByName(nm, hosts, HostOf(v), m) {
      forall h | h in hosts && h.ref == m && Family(h.kind) == "" && nm.short(h.name) != ""
        ensures MachineNamed(nm, h, nm.short(h.name)) && Has(byName, nm.short(h.name), m)
      {
      }
    }
  }

  /** The machines a view's strongest evidence names. */
  method Evidence(nm: Names, ghost hosts: set<HostFact>, v: Host, byAddress: Index, byName: Index)
    returns (matches: set<EntityRef>, viaAddress: bool)
    requires IndexesAddresses(nm, hosts, byAddress) && IndexesNames(nm, hosts, byName)
    ensures forall m :: m in matches <==> Points(nm, hosts, HostOf(v), m, viaAddress)
    ensures forall m, via :: Points(nm, hosts, HostOf(v), m, via) ==> via == viaAddress
  {
    hide ByAddress, ByName, IndexesAddresses, IndexesNames;
    matches := AddressMatches(nm, hosts, v, byAddress);
    viaAddress := true;
    if matches == {} && Family(v.kind) != "dns" {
      viaAddress := false;
      matches := NameMatches(nm, hosts, v, byName);
    }
  }

  /** What a host claims, if it is a view whose evidence names one machine. */
  method ClaimOf(nm: Names, ghost hosts: set<HostFact>, v: Host, byAddress: Index, byName: Index) returns (r: Option<Claim>)
    requires IndexesAddresses(nm, hosts, byAddress) && IndexesNames(nm, hosts, byName)
    ensures forall c :: r == Some(c) <==> Claims(nm, hosts, HostOf(v), c)
  {
    hide Points, IndexesAddresses, IndexesNames;
    r := None;
    var family := Family(v.kind);
    if family != "" {
      var matches, viaAddress := Evidence(nm, hosts, v, byAddress, byName);
      var sole := Sole(matches);
      if sole.Some? {
        r := Some(Claim(family, sole.value, viaAddress));
      }
    }
  }

  predicate DistinctRefs(hosts: seq<Host>) {
    forall i, j | 0 <= i < j < |hosts| :: hosts[i].ref != hosts[j].ref
  }

  /** `views` holds the claims of the first n hosts, by host. */
  ghost predicate Viewed(nm: Names, all: set<HostFact>, hosts: seq<Host>, n: nat, views: map<EntityRef, Claim>)
    requires n <= |hosts|
  {
    && (forall i, c | 0 <= i < n :: Claims(nm, all, HostOf(hosts[i]), c) <==> hosts[i].ref in views && views[hosts[i].ref] == c)
    && (forall ref <- views :: exists i :: 0 <= i < n && hosts[i].ref == ref)
  }

  ghost predicate Once(nm: Names, all: set<HostFact>, hosts: seq<Host>, n: nat, c: Claim)
    requires n <= |hosts|
  {
    exists i :: 0 <= i < n && Claims(nm, all, HostOf(hosts[i]), c)
  }

  ghost predicate Twice(nm: Names, all: set<HostFact>, hosts: seq<Host>, n: nat, c: Claim)
    requires n <= |hosts|
  {
    exists i, j :: 0 <= i < j < n && Claims(nm, all, HostOf(hosts[i]), c) && Claims(nm, all, HostOf(hosts[j]), c)
  }

  function Count(claims: map<Claim, nat>, c: Claim): nat {
    if c in claims then claims[c] else 0
  }

  /** `claims` says of each claim whether one of the first n hosts makes it, and whether two do. */
  ghost predicate Counted(nm: Names, all: set<HostFact>, hosts: seq<Host>, n: nat, claims: map<Claim, nat>)
    requires n <= |hosts|
  {
    forall c :: (Count(claims, c) > 0 <==> Once(nm, all, hosts, n, c)) && (Count(claims, c) > 1 <==> Twice(nm, all, hosts, n, c))
  }

  lemma ViewedOne(nm: Names, all: set<HostFact>, hosts: seq<Host>, n: nat, views: map<EntityRef, Claim>, claim: Option<Claim>)
    requires n < |hosts| && DistinctRefs(hosts) && Viewed(nm, all, hosts, n, views)
    requires forall c :: claim == Some(c) <==> Claims(nm, all, HostOf(hosts[n]), c)
    ensures Viewed(nm, all, hosts, n + 1, if claim.Some? then views[hosts[n].ref := claim.value] else views)
  {
    hide Claims;
  }

  lemma OnceMore(nm: Names, all: set<HostFact>, hosts: seq<Host>, n: nat, c: Claim)
    requires n < |hosts|
    ensures Once(nm, all, hosts, n + 1, c) <==> Once(nm, all, hosts, n, c) || Claims(nm, all, HostOf(hosts[n]), c)
  {
    hide Claims;
  }

  lemma TwiceMore(nm: Names, all: set<HostFact>, hosts: seq<Host>, n: nat, c: Claim)
    requires n < |hosts|
    ensures Twice(nm, all, hosts, n + 1, c) <==>
      Twice(nm, all, hosts, n, c) || (Once(nm, all, hosts, n, c) && Claims(nm, all, HostOf(hosts[n]), c))
  {
    hide Claims;
  }

  lemma CountedOne(nm: Names, all: set<HostFact>, hosts: seq<Host>, n: nat, claims: map<Claim, nat>, claim: Option<Claim>)
    requires n < |hosts| && Counted(nm, all, hosts, n, claims)
    requires forall c :: claim == Some(c) <==> Claims(nm, all, HostOf(hosts[n]), c)
    ensures Counted(nm, all, hosts, n + 1,
                    if claim.Some? then claims[claim.value := Count(claims, claim.value) + 1] else claims)
  {
    hide Claims;
    var next := if claim.Some? then claims[claim.value := Count(claims, claim.value) + 1] else claims;
    forall c: Claim
      ensures Count(next, c) > 0 <==> Once(nm, all, hosts, n + 1, c)
      ensures Count(next, c) > 1 <==> Twice(nm, all, hosts, n + 1, c)
    {
      hide Once, Twice;
      OnceMore(nm, all, hosts, n, c);
      TwiceMore(nm, all, hosts, n, c);
    }
  }

  /** Every host's claim, with the number of hosts that make it. */
  method CountClaims(nm: Names, hosts: seq<Host>) returns (views: map<EntityRef, Claim>, claims: map<Claim, nat>)
    requires DistinctRefs(hosts)
    ensures Viewed(nm, HostsOf(hosts), hosts, |hosts|, views) && Counted(nm, HostsOf(hosts), hosts, |hosts|, claims)
  {
    hide Claims, IndexesAddresses, IndexesNames;
    ghost var all := HostsOf(hosts);
    var byAddress, byName := Indexes(nm, hosts);
    views, claims := map[], map[];
    for i := 0 to |hosts|
      invariant Viewed(nm, all, hosts, i, views) && Counted(nm, all, hosts, i, claims)
    {
      var claim := ClaimOf(nm, all, hosts[i], byAddress, byName);
      ViewedOne(nm, all, hosts, i, views, claim);
      CountedOne(nm, all, hosts, i, claims, claim);
      if claim.Some? {
        var c := claim.value;
        views, claims := views[hosts[i].ref := c], claims[c := Count(claims, c) + 1];
      }
    }
  }

  /** The links: every claim that no equal one and, by name, no claim by address contests. */
  method LinkMachines(nm: Names, hosts: seq<Host>) returns (links: map<EntityRef, EntityRef>)
    requires DistinctRefs(hosts)
    ensures LinksOf(nm, HostsOf(hosts), links)
  {
    hide Claims;
    var views, claims := CountClaims(nm, hosts);
    links := map[];
    var todo := views.Keys;
    while todo != {}
      invariant todo <= views.Keys
      invariant forall ref <- views :: ref !in todo ==>
        (ref in links <==> Uncontested(claims, views[ref])) && (ref in links ==> links[ref] == views[ref].machine)
      invariant forall ref <- links :: ref in views && ref !in todo
      decreases todo
    {
      var view :| view in todo;
      todo := todo - {view};
      if Uncontested(claims, views[view]) {
        links := links[view := views[view].machine];
      }
    }
    CountsLink(nm, hosts, views, claims, links);
  }

  predicate Uncontested(claims: map<Claim, nat>, c: Claim) {
    Count(claims, c) <= 1 && (c.viaAddress || Count(claims, c.(viaAddress := true)) == 0)
  }

  lemma CountsLink(nm: Names, hosts: seq<Host>, views: map<EntityRef, Claim>, claims: map<Claim, nat>, links: map<EntityRef, EntityRef>)
    requires DistinctRefs(hosts)
    requires Viewed(nm, HostsOf(hosts), hosts, |hosts|, views) && Counted(nm, HostsOf(hosts), hosts, |hosts|, claims)
    requires forall ref <- views ::
      (ref in links <==> Uncontested(claims, views[ref])) && (ref in links ==> links[ref] == views[ref].machine)
    requires links.Keys <= views.Keys
    ensures LinksOf(nm, HostsOf(hosts), links)
  {
    hide Claims, StandsFor;
    var all := HostsOf(hosts);
    forall ref <- links ensures exists v <- all :: v.ref == ref && StandsFor(nm, all, v, links[ref]) {
      var i :| 0 <= i < |hosts| && hosts[i].ref == ref;
      assert HostOf(hosts[i]) in all;
      UncontestedStands(nm, hosts, claims, i, views[ref]);
    }
    forall v, m | v in all && StandsFor(nm, all, v, m) ensures v.ref in links && links[v.ref] == m {
      var i :| 0 <= i < |hosts| && HostOf(hosts[i]) == v;
      var c := ClaimBehind(nm, all, v, m);
      assert v.ref in views && views[v.ref] == c;
      UncontestedStands(nm, hosts, claims, i, c);
    }
  }

  lemma ClaimBehind(nm: Names, all: set<HostFact>, v: HostFact, m: EntityRef) returns (c: Claim)
    requires StandsFor(nm, all, v, m)
    ensures Claims(nm, all, v, c) && c.machine == m
  {
    hide Claims;
    var via: bool :| Claims(nm, all, v, Claim(Family(v.kind), m, via));
    c := Claim(Family(v.kind), m, via);
  }

  /** Two hosts of a list make the same claim, or the claim is one host's alone. */
  lemma OnlyClaimant(nm: Names, hosts: seq<Host>, i: nat, c: Claim)
    requires DistinctRefs(hosts) && i < |hosts| && Claims(nm, HostsOf(hosts), HostOf(hosts[i]), c)
    ensures !Twice(nm, HostsOf(hosts), hosts, |hosts|, c) <==>
      forall w <- HostsOf(hosts) :: Claims(nm, HostsOf(hosts), w, c) ==> w.ref == hosts[i].ref
  {
    hide Claims;
    var all := HostsOf(hosts);
    forall j | 0 <= j < |hosts| ensures HostOf(hosts[j]) in all {
    }
    if !Twice(nm, all, hosts, |hosts|, c) {
      forall w <- all | Claims(nm, all, w, c) ensures w.ref == hosts[i].ref {
        var j :| 0 <= j < |hosts| && HostOf(hosts[j]) == w;
      }
    } else {
      var j, k :| 0 <= j < k < |hosts| && Claims(nm, all, HostOf(hosts[j]), c) && Claims(nm, all, HostOf(hosts[k]), c);
      assert hosts[j].ref != hosts[k].ref;
      var other := HostOf(hosts[if j == i then k else j]);
      assert other in all && Claims(nm, all, other, c) && other.ref != hosts[i].ref;
    }
  }

  lemma NoClaimant(nm: Names, hosts: seq<Host>, c: Claim)
    ensures !Once(nm, HostsOf(hosts), hosts, |hosts|, c) <==> forall w <- HostsOf(hosts) :: !Claims(nm, HostsOf(hosts), w, c)
  {
    hide Claims;
    forall j | 0 <= j < |hosts| ensures HostOf(hosts[j]) in HostsOf(hosts) {
    }
  }

  lemma UncontestedStands(nm: Names, hosts: seq<Host>, claims: map<Claim, nat>, i: nat, c: Claim)
    requires DistinctRefs(hosts) && i < |hosts| && Counted(nm, HostsOf(hosts), hosts, |hosts|, claims)
    requires Claims(nm, HostsOf(hosts), HostOf(hosts[i]), c)
    ensures Uncontested(claims, c) <==> StandsFor(nm, HostsOf(hosts), HostOf(hosts[i]), c.machine)
  {
    var all, v := HostsOf(hosts), HostOf(hosts[i]);
    OnlyClaimant(nm, hosts, i, c);
    NoClaimant(nm, hosts, c.(viaAddress := true));
    assert c.(viaAddress := true) == Claim(Family(v.kind), c.machine, true);
    assert c == Claim(Family(v.kind), c.machine, c.viaAddress);
    if StandsFor(nm, all, v, c.machine) {
      var d := ClaimBehind(nm, all, v, c.machine);
      OneClaim(nm, all, v, c, d);
    }
  }

  // ---------------------------------------------------------------------------
  // The machines a proxy's own URL refers to

  predicate Called(nm: Names, h: HostFact, name: string) {
    nm.normalize(h.name) == name || Addressed(nm, h, name)
  }

  /** The name is the machine's, or that of a view standing for it. */
  ghost predicate RefersTo(nm: Names, hosts: set<HostFact>, name: string, id: int) {
    exists h <- hosts :: Called(nm, h, name) && Behind(nm, hosts, h, id)
  }

  ghost predicate Behind(nm: Names, hosts: set<HostFact>, h: HostFact, id: int) {
    if Family(h.kind) == "" then h.id == id
    else exists m <- hosts :: m.id == id && StandsFor(nm, hosts, h, m.ref)
  }

  lemma BehindView(nm: Names, hosts: seq<Host>, links: map<EntityRef, EntityRef>, byRef: map<EntityRef, int>, i: nat, id: int)
    requires DistinctRefs(hosts) && i < |hosts| && Family(hosts[i].kind) != "" && LinksOf(nm, HostsOf(hosts), links)
    requires forall j | 0 <= j < |hosts| :: hosts[j].ref in byRef && byRef[hosts[j].ref] == hosts[j].id
    ensures Behind(nm, HostsOf(hosts), HostOf(hosts[i]), id) <==>
      hosts[i].ref in links && links[hosts[i].ref] in byRef && byRef[links[hosts[i].ref]] == id
    ensures hosts[i].ref in links ==> links[hosts[i].ref] in byRef
  {
    hide StandsFor;
    var all, v := HostsOf(hosts), HostOf(hosts[i]);
    assert v in all;
    if v.ref in links {
      var w :| w in all && w.ref == v.ref && StandsFor(nm, all, w, links[v.ref]);
      var j :| 0 <= j < |hosts| && HostOf(hosts[j]) == w;
      assert i == j;
      ViewsStandForMachines(nm, all, v, links[v.ref]);
      var m :| m in all && m.ref == links[v.ref];
      var k :| 0 <= k < |hosts| && HostOf(hosts[k]) == m;
      assert byRef[m.ref] == m.id;
    }
    forall m | m in all && m.id == id && StandsFor(nm, all, v, m.ref) ensures v.ref in links && links[v.ref] == m.ref && byRef[m.ref] == id {
      var k :| 0 <= k < |hosts| && HostOf(hosts[k]) == m;
    }
  }

  method IdsByRef(hosts: seq<Host>) returns (byRef: map<EntityRef, int>)
    requires DistinctRefs(hosts)
    ensures forall j | 0 <= j < |hosts| :: hosts[j].ref in byRef && byRef[hosts[j].ref] == hosts[j].id
  {
    byRef := map[];
    for i := 0 to |hosts|
      invariant forall j | 0 <= j < i :: hosts[j].ref in byRef && byRef[hosts[j].ref] == hosts[j].id
    {
      byRef := byRef[hosts[i].ref := hosts[i].id];
    }
  }

  /** The ids of the machines a host name refers to; an unlinked view refers to none. */
  method MachineHostIds(nm: Names, hosts: seq<Host>, hostname: string) returns (ids: set<int>)
    requires DistinctRefs(hosts)
    ensures forall id :: id in ids <==>
      nm.normalize(hostname) != "" && RefersTo(nm, HostsOf(hosts), nm.normalize(hostname), id)
  {
    hide Behind, LinksOf;
    ids := {};
    var name := nm.normalize(hostname);
    if name != "" {
      var links := LinkMachines(nm, hosts);
      var byRef := IdsByRef(hosts);
      for i := 0 to |hosts|
        invariant forall id :: id in ids <==>
          exists j :: 0 <= j < i && Called(nm, HostOf(hosts[j]), name) && Behind(nm, HostsOf(hosts), HostOf(hosts[j]), id)
      {
        var more := Machines(nm, hosts, links, byRef, i, name);
        ids := ids + more;
      }
      forall id ensures id in ids <==> RefersTo(nm, HostsOf(hosts), name, id) {
        if id in ids {
          var j :| 0 <= j < |hosts| && Called(nm, HostOf(hosts[j]), name) && Behind(nm, HostsOf(hosts), HostOf(hosts[j]), id);
          assert HostOf(hosts[j]) in HostsOf(hosts);
        }
      }
    }
  }

  method Machines(nm: Names, hosts: seq<Host>, links: map<EntityRef, EntityRef>, byRef: map<EntityRef, int>, i: nat, name: string)
    returns (ids: set<int>)
    requires DistinctRefs(hosts) && i < |hosts| && LinksOf(nm, HostsOf(hosts), links)
    requires forall j | 0 <= j < |hosts| :: hosts[j].ref in byRef && byRef[hosts[j].ref] == hosts[j].id
    ensures forall id :: id in ids <==> Called(nm, HostOf(hosts[i]), name) && Behind(nm, HostsOf(hosts), HostOf(hosts[i]), id)
  {
    hide LinksOf, StandsFor;
    ids := {};
    var addressed := AddressedBy(nm, hosts[i], name);
    if nm.normalize(hosts[i].name) == name || addressed {
      if Family(hosts[i].kind) == "" {
        ids := {hosts[i].id};
      } else {
        forall id: int
          ensures Behind(nm, HostsOf(hosts), HostOf(hosts[i]), id) <==>
            hosts[i].ref in links && links[hosts[i].ref] in byRef && byRef[links[hosts[i].ref]] == id
        {
          BehindView(nm, hosts, links, byRef, i, id);
        }
        BehindView(nm, hosts, links, byRef, i, hosts[i].id);
        if hosts[i].ref in links {
          ids := {byRef[links[hosts[i].ref]]};
        }
      }
    }
  }
}
