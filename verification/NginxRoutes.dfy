/**
 Keyed routes from server blocks (internal/connectors/nginx/extract.go, display, portSig, routes).
 A route's key names its server_name and location only; twins are told apart by their ports.
 */
module NginxRoutes {
  import opened Results
  import opened NginxKept
  import Domain
  import Sorting
  import Strings

  /** A server block; its ordinal is its place in the files. */
  datatype Server = Server(names: seq<string>, ports: seq<nat>, tls: bool, locs: seq<Loc>)

  datatype Route = Route(key: string, domain: string, pathPrefix: string, upstreamHost: string, upstreamPort: int, tls: bool)

  datatype Error = TooMany | Collision

  /** The domain a route is shown under: the base domain stands for "_" and for the star of "name.*". */
  function Display(name: string, base: string): Option<string> {
    if name == "_" then (if base == "" then None else Some(base))
    else if base != "" && |name| >= 2 && name[|name| - 2..] == ".*" then Some(name[..|name| - 1] + base)
    else Some(name)
  }

  function JoinPorts(ports: seq<nat>): string
    requires |ports| > 0
  {
    if |ports| == 1 then Domain.Digits(ports[0])
    else JoinPorts(ports[..|ports| - 1]) + "+" + Domain.Digits(ports[|ports| - 1])
  }

  function PortSig(s: Server): string {
    if |s.ports| == 0 then "unix" else JoinPorts(s.ports)
  }

  /** One server_name with one location, before twins are told apart. */
  datatype Emit = Emit(tls: bool, sig: string, ordinal: nat, domain: string, loc: Loc, key: string)

  // ---------------------------------------------------------------------------
  // What a configuration emits

  datatype Found = Found(emits: seq<Emit>, seen: set<(string, string)>)

  function AddLoc(s: Server, ordinal: nat, name: string, domain: string, f: Found, l: Loc): Found {
    if (domain, l.text) in f.seen then f
    else Found(f.emits + [Emit(s.tls, PortSig(s), ordinal, domain, l, "nginx:" + name + ":" + l.text)],
               f.seen + {(domain, l.text)})
  }

  function AddLocs(s: Server, ordinal: nat, name: string, domain: string, f: Found, locs: seq<Loc>): Found {
    if |locs| == 0 then f
    else AddLoc(s, ordinal, name, domain, AddLocs(s, ordinal, name, domain, f, locs[..|locs| - 1]), locs[|locs| - 1])
  }

  function AddNames(s: Server, ordinal: nat, base: string, names: seq<string>): Found {
    if |names| == 0 then Found([], {})
    else
      var f, name := AddNames(s, ordinal, base, names[..|names| - 1]), names[|names| - 1];
      match Display(name, base)
      case None => f
      case Some(domain) => AddLocs(s, ordinal, name, domain, f, KeptOf(s.locs))
  }

  function ServerEmits(s: Server, ordinal: nat, base: string): seq<Emit> {
    AddNames(s, ordinal, base, s.names).emits
  }

  function Emits(servers: seq<Server>, base: string): seq<Emit> {
    if |servers| == 0 then []
    else Emits(servers[..|servers| - 1], base) + ServerEmits(servers[|servers| - 1], |servers| - 1, base)
  }

  function Members(e: Emit): seq<Member> {
    if e.loc.target.Some? then e.loc.target.value.members else []
  }

  function Total(es: seq<Emit>): nat {
    if |es| == 0 then 0 else Total(es[..|es| - 1]) + |Members(es[|es| - 1])|
  }

  // ---------------------------------------------------------------------------
  // Telling twins apart

  /** The order of twins: TLS first, then by ports, then by place in the files. */
  predicate Before(a: Emit, b: Emit) {
    if a.tls != b.tls then a.tls
    else if a.sig != b.sig then Strings.Less(a.sig, b.sig)
    else a.ordinal < b.ordinal
  }

  /** Where in the emitted list a base key occurs. */
  function GroupUpTo(es: seq<Emit>, key: string, n: nat): (g: seq<nat>)
    requires n <= |es|
    ensures forall i: nat :: i in g <==> i < n && es[i].key == key
    ensures forall a, b | 0 <= a < b < |g| :: g[a] < g[b]
  {
    if n == 0 then []
    else
      var g := GroupUpTo(es, key, n - 1);
      assert forall a | 0 <= a < |g| :: g[a] in g;
      g + if es[n - 1].key == key then [n - 1] else []
  }

  function ByTwin(es: seq<Emit>): (nat, nat) -> bool {
    (a: nat, b: nat) => if a < |es| && b < |es| then Before(es[a], es[b]) else a < |es| <= b
  }

  /** The twins of a base key, in their order. */
  function Group(es: seq<Emit>, key: string): seq<nat> {
    Sorting.Sorted(ByTwin(es), GroupUpTo(es, key, |es|))
  }

  function Numbered(k: string, n: nat): string {
    k + ":" + Domain.Digits(n)
  }

  /** The candidates from the n-th on may still be taken by these. */
  ghost function Left(k: string, used: set<string>, n: nat): set<string> {
    set x | x in used && forall m: nat | 2 <= m < n :: x != Numbered(k, m)
  }

  function FirstFree(k: string, used: set<string>, n: nat): (r: string)
    requires n >= 2
    ensures r !in used
    decreases Left(k, used, n)
  {
    if Numbered(k, n) !in used then Numbered(k, n)
    else
      LeftShrinks(k, used, n);
      FirstFree(k, used, n + 1)
  }

  /** The key of one more twin: its ports after the base key, then a number if that is taken. */
  function TwinKey(key: string, sig: string, used: set<string>): (r: string)
    ensures r !in used
  {
    if key + ":" + sig !in used then key + ":" + sig else FirstFree(key + ":" + sig, used, 2)
  }

  function KeySet(ks: seq<string>): set<string> {
    set k | k in ks
  }

  /** The keys of twins with these ports, in order; the first keeps the plain key. */
  function TwinKeys(key: string, sigs: seq<string>): (ks: seq<string>)
    ensures |ks| == |sigs|
    ensures forall i, j | 0 <= i < j < |ks| :: ks[i] != ks[j]
  {
    if |sigs| == 0 then []
    else if |sigs| == 1 then [key]
    else
      var ks := TwinKeys(key, sigs[..|sigs| - 1]);
      ks + [TwinKey(key, sigs[|sigs| - 1], KeySet(ks))]
  }

  lemma {:induction false} DigitsDiffer(a: nat, b: nat)
    requires a != b
    ensures Domain.Digits(a) != Domain.Digits(b)
  {
    if a >= 10 && b >= 10 {
      var x, y := Domain.Digits(a), Domain.Digits(b);
      if a / 10 != b / 10 {
        DigitsDiffer(a / 10, b / 10);
        assert x[..|x| - 1] == Domain.Digits(a / 10) && y[..|y| - 1] == Domain.Digits(b / 10);
      } else {
        assert x[|x| - 1] != y[|y| - 1];
      }
    }
  }

  lemma LeftShrinks(k: string, used: set<string>, n: nat)
    requires n >= 2 && Numbered(k, n) in used
    ensures Left(k, used, n + 1) < Left(k, used, n)
  {
    forall m: nat | 2 <= m < n ensures Numbered(k, m) != Numbered(k, n) {
      DigitsDiffer(m, n);
      var a, b := Numbered(k, m), Numbered(k, n);
      assert a[|k| + 1..] == Domain.Digits(m) && b[|k| + 1..] == Domain.Digits(n);
    }
    assert Numbered(k, n) in Left(k, used, n) && Numbered(k, n) !in Left(k, used, n + 1);
  }

  // ---------------------------------------------------------------------------
  // The routes

  lemma SameElements(less: (nat, nat) -> bool, g: seq<nat>, i: nat)
    ensures i in Sorting.Sorted(less, g) <==> i in g
  {
    Sorting.SortedPermutes(less, g);
    Sorting.InMultiset(Sorting.Sorted(less, g), i);
    Sorting.InMultiset(g, i);
  }

  lemma NoRepeats(less: (nat, nat) -> bool, g: seq<nat>, a: nat, b: nat)
    requires forall a, b | 0 <= a < b < |g| :: g[a] < g[b]
    requires a < b < |Sorting.Sorted(less, g)|
    ensures Sorting.Sorted(less, g)[a] != Sorting.Sorted(less, g)[b]
  {
    var s := Sorting.Sorted(less, g);
    Sorting.SortedPermutes(less, g);
    Once(g, s[a]);
    if s[a] == s[b] {
      Twice(s, a, b);
    }
  }

  lemma GroupHolds(es: seq<Emit>, key: string)
    ensures forall i: nat :: i in Group(es, key) <==> i < |es| && es[i].key == key
    ensures forall a, b | 0 <= a < b < |Group(es, key)| :: Group(es, key)[a] != Group(es, key)[b]
  {
    var g := GroupUpTo(es, key, |es|);
    forall i: nat ensures i in Group(es, key) <==> i in g {
      SameElements(ByTwin(es), g, i);
    }
    forall a, b | 0 <= a < b < |Group(es, key)| ensures Group(es, key)[a] != Group(es, key)[b] {
      NoRepeats(ByTwin(es), g, a, b);
    }
  }

  lemma {:induction false} Once(g: seq<nat>, x: nat)
    requires forall a, b | 0 <= a < b < |g| :: g[a] < g[b]
    ensures multiset(g)[x] <= 1
  {
    if |g| > 0 {
      assert g == g[..|g| - 1] + [g[|g| - 1]];
      Once(g[..|g| - 1], x);
      Sorting.InMultiset(g[..|g| - 1], g[|g| - 1]);
    }
  }

  lemma Twice<T>(s: seq<T>, a: nat, b: nat)
    requires a < b < |s| && s[a] == s[b]
    ensures multiset(s)[s[a]] >= 2
  {
    assert s == s[..b] + [s[b]] + s[b + 1..];
    Sorting.InMultiset(s[..b], s[a]);
    assert s[..b][a] == s[a];
  }

  function SigsOf(es: seq<Emit>, g: seq<nat>): seq<string>
    requires forall i | 0 <= i < |g| :: g[i] < |es|
  {
    seq(|g|, i requires 0 <= i < |g| => es[g[i]].sig)
  }

  function GroupKeys(es: seq<Emit>, key: string): (ks: seq<string>)
    ensures |ks| == |Group(es, key)|
  {
    GroupHolds(es, key);
    assert forall i | 0 <= i < |Group(es, key)| :: Group(es, key)[i] in Group(es, key);
    TwinKeys(key, SigsOf(es, Group(es, key)))
  }

  function IndexOf(g: seq<nat>, i: nat): (k: nat)
    requires i in g
    ensures k < |g| && g[k] == i
  {
    if g[0] == i then 0 else 1 + IndexOf(g[1..], i)
  }

  /** The key of the i-th emitted: its place among its twins decides. */
  function FinalKey(es: seq<Emit>, i: nat): string
    requires i < |es|
  {
    GroupHolds(es, es[i].key);
    GroupKeys(es, es[i].key)[IndexOf(Group(es, es[i].key), i)]
  }

  function Rekeyed(es: seq<Emit>): seq<Emit> {
    seq(|es|, i requires 0 <= i < |es| => es[i].(key := FinalKey(es, i)))
  }

  /** A route per member of the upstream, numbered if there are several. */
  function RoutesOf(e: Emit): seq<Route> {
    var ms := Members(e);
    seq(|ms|, i requires 0 <= i < |ms| =>
      Route(if |ms| > 1 then e.key + "#" + Domain.Digits(i) else e.key, e.domain, e.loc.text, ms[i].host, ms[i].port, e.tls))
  }

  function ByKey(): (Route, Route) -> bool {
    (a: Route, b: Route) => Strings.Less(a.key, b.key)
  }

  predicate DistinctNeighbours(rs: seq<Route>) {
    forall i | 0 < i < |rs| :: rs[i - 1].key != rs[i].key
  }

  /** What `routes` returns. */
  function Outcome(servers: seq<Server>, base: string, limit: nat): Result<seq<Route>, Error> {
    var es := Emits(servers, base);
    if Total(es) > limit then Err(TooMany)
    else
      var rs := Sorting.Sorted(ByKey(), Sorting.FlatMap(RoutesOf, Rekeyed(es)));
      if DistinctNeighbours(rs) then Ok(rs) else Err(Collision)
  }

  // ---------------------------------------------------------------------------
  // The loops

  /** What has been emitted, where each base key occurs in it, and the base keys in order of appearance. */
  datatype State = State(es: seq<Emit>, byBase: map<string, seq<nat>>, order: seq<string>)

  ghost predicate Indexed(st: State) {
    && (forall i | 0 <= i < |st.es| :: st.es[i].key in st.byBase)
    && (forall key <- st.byBase :: key in st.order && st.byBase[key] == GroupUpTo(st.es, key, |st.es|))
    && (forall key <- st.order :: key in st.byBase)
    && (forall i, j | 0 <= i < j < |st.order| :: st.order[i] != st.order[j])
  }

  function Append(st: State, e: Emit): State {
    State(st.es + [e],
          st.byBase[e.key := (if e.key in st.byBase then st.byBase[e.key] else []) + [|st.es|]],
          if e.key in st.byBase then st.order else st.order + [e.key])
  }

  lemma {:induction false} GroupOfPrefix(es: seq<Emit>, e: Emit, key: string, n: nat)
    requires n <= |es|
    ensures GroupUpTo(es + [e], key, n) == GroupUpTo(es, key, n)
  {
    if n > 0 {
      GroupOfPrefix(es, e, key, n - 1);
    }
  }

  lemma {:induction false} NoGroup(es: seq<Emit>, key: string, n: nat)
    requires n <= |es| && forall i | 0 <= i < n :: es[i].key != key
    ensures GroupUpTo(es, key, n) == []
  {
    if n > 0 {
      NoGroup(es, key, n - 1);
    }
  }

  lemma AppendGroup(st: State, e: Emit, key: string)
    requires Indexed(st) && (key in st.byBase || key == e.key)
    ensures Append(st, e).byBase[key] == GroupUpTo(st.es + [e], key, |st.es| + 1)
  {
    GroupOfPrefix(st.es, e, key, |st.es|);
    if key !in st.byBase {
      NoGroup(st.es, key, |st.es|);
    }
  }

  lemma AppendOrder(st: State, e: Emit)
    requires Indexed(st)
    ensures
      var after := Append(st, e);
      (forall key <- after.byBase :: key in after.order) && (forall key <- after.order :: key in after.byBase) &&
      forall i, j | 0 <= i < j < |after.order| :: after.order[i] != after.order[j]
  {
    hide GroupUpTo;
    assert e.key !in st.byBase ==> e.key !in st.order;
  }

  lemma AppendIndexed(st: State, e: Emit)
    requires Indexed(st)
    ensures Indexed(Append(st, e))
  {
    hide GroupUpTo;
    var after := Append(st, e);
    AppendOrder(st, e);
    forall key | key in after.byBase ensures after.byBase[key] == GroupUpTo(after.es, key, |after.es|) {
      AppendGroup(st, e, key);
    }
  }

  lemma {:induction false} TotalGrows(a: seq<Emit>, b: seq<Emit>)
    ensures Total(a) <= Total(a + b)
  {
    if |b| == 0 {
      assert a + b == a;
    } else {
      assert (a + b)[..|a + b| - 1] == a + b[..|b| - 1];
      TotalGrows(a, b[..|b| - 1]);
    }
  }

  lemma {:induction false} LocsExtend(s: Server, ordinal: nat, name: string, domain: string, f: Found, locs: seq<Loc>, n: nat)
    requires n <= |locs|
    ensures AddLocs(s, ordinal, name, domain, f, locs[..n]).emits <= AddLocs(s, ordinal, name, domain, f, locs).emits
    decreases |locs|
  {
    if n < |locs| {
      assert locs[..|locs| - 1][..n] == locs[..n];
      LocsExtend(s, ordinal, name, domain, f, locs[..|locs| - 1], n);
    } else {
      assert locs[..n] == locs;
    }
  }

  lemma {:induction false} NamesExtend(s: Server, ordinal: nat, base: string, names: seq<string>, n: nat)
    requires n <= |names|
    ensures AddNames(s, ordinal, base, names[..n]).emits <= AddNames(s, ordinal, base, names).emits
    decreases |names|
  {
    if n < |names| {
      var init := names[..|names| - 1];
      assert init[..n] == names[..n];
      NamesExtend(s, ordinal, base, init, n);
      var f, locs := AddNames(s, ordinal, base, init), KeptOf(s.locs);
      match Display(names[|names| - 1], base) {
        case None =>
        case Some(domain) =>
          assert locs[..0] == [];
          LocsExtend(s, ordinal, names[|names| - 1], domain, f, locs, 0);
      }
    } else {
      assert names[..n] == names;
    }
  }

  lemma {:induction false} ServersExtend(servers: seq<Server>, base: string, n: nat)
    requires n <= |servers|
    ensures Emits(servers[..n], base) <= Emits(servers, base)
    decreases |servers|
  {
    if n < |servers| {
      assert servers[..|servers| - 1][..n] == servers[..n];
      ServersExtend(servers[..|servers| - 1], base, n);
    } else {
      assert servers[..n] == servers;
    }
  }

  lemma PrefixTotal(a: seq<Emit>, b: seq<Emit>)
    requires a <= b
    ensures Total(a) <= Total(b)
  {
    TotalGrows(a, b[|a|..]);
    assert b == a + b[|a|..];
  }

  /** One name of a server with one location. */
  method EmitLoc(s: Server, ordinal: nat, name: string, domain: string, l: Loc, st0: State, seen0: set<(string, string)>,
                 total0: nat, ghost before: seq<Emit>, ghost f: Found)
    returns (st: State, seen: set<(string, string)>, total: nat)
    requires Indexed(st0) && st0.es == before + f.emits && seen0 == f.seen && total0 == Total(st0.es)
    ensures
      var after := AddLoc(s, ordinal, name, domain, f, l);
      Indexed(st) && st.es == before + after.emits && seen == after.seen && total == Total(st.es)
  {
    hide Indexed;
    st, seen, total := st0, seen0, total0;
    if (domain, l.text) !in seen {
      var e := Emit(s.tls, PortSig(s), ordinal, domain, l, "nginx:" + name + ":" + l.text);
      AppendIndexed(st, e);
      assert (st.es + [e])[..|st.es|] == st.es;
      total := total + |Members(e)|;
      seen := seen + {(domain, l.text)};
      st := Append(st, e);
    }
  }

  /** One name of a server with each kept location. Stops once there are too many routes. */
  method EmitLocs(s: Server, ordinal: nat, name: string, domain: string, locs: seq<Loc>, limit: nat,
                  st0: State, seen0: set<(string, string)>, total0: nat, ghost before: seq<Emit>, ghost f: Found)
    returns (st: State, seen: set<(string, string)>, total: nat)
    requires Indexed(st0) && st0.es == before + f.emits && seen0 == f.seen && total0 == Total(st0.es) <= limit
    ensures
      var after := AddLocs(s, ordinal, name, domain, f, locs);
      if total <= limit then Indexed(st) && st.es == before + after.emits && seen == after.seen && total == Total(st.es)
      else Total(before + after.emits) > limit
  {
    hide Indexed, AddLoc;
    st, seen, total := st0, seen0, total0;
    var i := 0;
    ghost var g := f;
    assert locs[..0] == [];
    while i < |locs| && total <= limit
      invariant 0 <= i <= |locs| && g == AddLocs(s, ordinal, name, domain, f, locs[..i])
      invariant Indexed(st) && st.es == before + g.emits && seen == g.seen && total == Total(st.es)
    {
      assert locs[..i + 1][..i] == locs[..i];
      st, seen, total := EmitLoc(s, ordinal, name, domain, locs[i], st, seen, total, before, g);
      g := AddLoc(s, ordinal, name, domain, g, locs[i]);
      i := i + 1;
    }
    LocsExtend(s, ordinal, name, domain, f, locs, i);
    PrefixTotal(st.es, before + AddLocs(s, ordinal, name, domain, f, locs).emits);
    assert locs[..|locs|] == locs;
  }

  /** A server's names. */
  method EmitNames(s: Server, ordinal: nat, base: string, limit: nat, st0: State, total0: nat)
    returns (st: State, total: nat)
    requires Indexed(st0) && total0 == Total(st0.es) <= limit
    ensures
      var after := ServerEmits(s, ordinal, base);
      if total <= limit then Indexed(st) && st.es == st0.es + after && total == Total(st.es)
      else Total(st0.es + after) > limit
  {
    hide Indexed, AddLocs, Total, ServerEmits;
    var locs := Kept(s.locs);
    var seen: set<(string, string)>, i := {}, 0;
    st, total := st0, total0;
    ghost var g := Found([], {});
    assert s.names[..0] == [];
    while i < |s.names| && total <= limit
      invariant 0 <= i <= |s.names| && g == AddNames(s, ordinal, base, s.names[..i])
      invariant if total <= limit then Indexed(st) && st.es == st0.es + g.emits && seen == g.seen && total == Total(st.es)
                else Total(st0.es + g.emits) > limit
    {
      assert s.names[..i + 1][..i] == s.names[..i];
      var domain := Display(s.names[i], base);
      if domain.Some? {
        st, seen, total := EmitLocs(s, ordinal, s.names[i], domain.value, locs, limit, st, seen, total, st0.es, g);
        g := AddLocs(s, ordinal, s.names[i], domain.value, g, locs);
      }
      i := i + 1;
    }
    SoFar(s, ordinal, base, i, st0.es);
  }

  lemma SoFar(s: Server, ordinal: nat, base: string, i: nat, before: seq<Emit>)
    requires i <= |s.names|
    ensures
      var g := AddNames(s, ordinal, base, s.names[..i]);
      Total(before + g.emits) <= Total(before + ServerEmits(s, ordinal, base)) &&
      (i == |s.names| ==> g.emits == ServerEmits(s, ordinal, base))
  {
    NamesExtend(s, ordinal, base, s.names, i);
    PrefixTotal(before + AddNames(s, ordinal, base, s.names[..i]).emits, before + ServerEmits(s, ordinal, base));
    assert s.names[..|s.names|] == s.names;
  }

  method EmitAll(servers: seq<Server>, base: string, limit: nat) returns (st: State, total: nat)
    ensures
      if total <= limit then Indexed(st) && st.es == Emits(servers, base) && total == Total(st.es)
      else Total(Emits(servers, base)) > limit
  {
    hide ServerEmits;
    st, total := State([], map[], []), 0;
    var i := 0;
    ghost var g: seq<Emit> := [];
    assert servers[..0] == [];
    while i < |servers| && total <= limit
      invariant 0 <= i <= |servers| && g == Emits(servers[..i], base)
      invariant if total <= limit then Indexed(st) && st.es == g && total == Total(st.es) else Total(g) > limit
    {
      assert servers[..i + 1][..i] == servers[..i];
      st, total := EmitNames(servers[i], i, base, limit, st, total);
      g := g + ServerEmits(servers[i], i, base);
      i := i + 1;
    }
    EmittedSoFar(servers, base, i);
  }

  lemma EmittedSoFar(servers: seq<Server>, base: string, i: nat)
    requires i <= |servers|
    ensures Total(Emits(servers[..i], base)) <= Total(Emits(servers, base))
    ensures i == |servers| ==> Emits(servers[..i], base) == Emits(servers, base)
  {
    ServersExtend(servers, base, i);
    PrefixTotal(Emits(servers[..i], base), Emits(servers, base));
    assert servers[..|servers|] == servers;
  }

  /** The first key for one more twin that no other has. */
  method FreeKey(key: string, sig: string, used: set<string>) returns (k: string)
    ensures k == TwinKey(key, sig, used)
  {
    var plain := key + ":" + sig;
    k := plain;
    var n: nat := 2;
    while k in used
      invariant n >= 2
      invariant n == 2 ==> k == plain
      invariant n > 2 ==> k == Numbered(plain, n - 1) && plain in used && FirstFree(plain, used, 2) == FirstFree(plain, used, n - 1)
      decreases n == 2, Left(plain, used, n - 1)
    {
      if n > 2 {
        LeftShrinks(plain, used, n - 1);
      }
      k := Numbered(plain, n);
      n := n + 1;
    }
  }

  /** The first m twins have their keys. */
  ghost predicate Tagged(before: seq<Emit>, out: seq<Emit>, g: seq<nat>, ks: seq<string>, m: nat)
    requires m <= |g| == |ks|
  {
    && |out| == |before|
    && (forall a | 0 <= a < |g| :: g[a] < |out|)
    && (forall a | 0 <= a < m :: out[g[a]] == before[g[a]].(key := ks[a]))
    && (forall i: nat | i < |out| && i !in g[..m] :: out[i] == before[i])
  }

  lemma TagOne(before: seq<Emit>, out: seq<Emit>, g: seq<nat>, ks: seq<string>, m: nat)
    requires m < |g| == |ks| && Tagged(before, out, g, ks, m)
    requires forall a, b | 0 <= a < b < |g| :: g[a] != g[b]
    ensures Tagged(before, out[g[m] := out[g[m]].(key := ks[m])], g, ks, m + 1)
  {
    var next := out[g[m] := out[g[m]].(key := ks[m])];
    assert g[m] !in g[..m];
    forall i: nat | i < |out| && i !in g[..m + 1] ensures next[i] == before[i] {
      assert g[m] in g[..m + 1];
      forall x | x in g[..m] ensures x in g[..m + 1] {
      }
    }
  }

  lemma {:induction false} TwinKeysExtend(key: string, sigs: seq<string>, m: nat)
    requires 1 <= m <= |sigs|
    ensures TwinKeys(key, sigs[..m]) == TwinKeys(key, sigs)[..m]
    decreases |sigs|
  {
    if m < |sigs| {
      var init := sigs[..|sigs| - 1];
      assert init[..m] == sigs[..m];
      TwinKeysExtend(key, init, m);
    } else {
      assert sigs[..m] == sigs;
    }
  }

  lemma NextTwinKey(key: string, sigs: seq<string>, m: nat)
    requires 1 <= m < |sigs|
    ensures TwinKeys(key, sigs)[m] == TwinKey(key, sigs[m], KeySet(TwinKeys(key, sigs)[..m]))
  {
    hide TwinKey;
    TwinKeysExtend(key, sigs, m);
    TwinKeysExtend(key, sigs, m + 1);
    var next := sigs[..m + 1];
    assert next[..m] == sigs[..m] && |next| == m + 1;
    LastTwinKey(key, next);
    assert TwinKeys(key, next)[m] == TwinKeys(key, sigs)[..m + 1][m];
  }

  lemma LastTwinKey(key: string, sigs: seq<string>)
    requires |sigs| >= 2
    ensures
      var m := |sigs| - 1;
      TwinKeys(key, sigs)[m] == TwinKey(key, sigs[m], KeySet(TwinKeys(key, sigs[..m])))
  {
    hide TwinKey;
  }

  /** The next twin's key. */
  method TagNext(key: string, sig: string, g: seq<nat>, m: nat, before: seq<Emit>, out0: seq<Emit>, used0: set<string>,
                 ghost sigs: seq<string>)
    returns (out: seq<Emit>, used: set<string>)
    requires 1 <= m < |g| == |sigs| && sig == sigs[m] && used0 == KeySet(TwinKeys(key, sigs)[..m])
    requires forall a, b | 0 <= a < b < |g| :: g[a] != g[b]
    requires Tagged(before, out0, g, TwinKeys(key, sigs), m)
    ensures used == KeySet(TwinKeys(key, sigs)[..m + 1])
    ensures Tagged(before, out, g, TwinKeys(key, sigs), m + 1)
  {
    NextTwinKey(key, sigs, m);
    ghost var ks := TwinKeys(key, sigs);
    TagOne(before, out0, g, ks, m);
    hide TwinKeys, TwinKey, Tagged;
    var k := FreeKey(key, sig, used0);
    assert ks[..m + 1] == ks[..m] + [k];
    out, used := out0[g[m] := out0[g[m]].(key := k)], used0 + {k};
  }

  lemma FirstTag(es: seq<Emit>, key: string, before: seq<Emit>)
    requires |before| == |es| && |Group(es, key)| > 0
    requires forall i | 0 <= i < |es| && es[i].key == key :: before[i].key == key
    ensures
      var g, ks := Group(es, key), GroupKeys(es, key);
      Tagged(before, before, g, ks, 1) && KeySet(ks[..1]) == {key} && forall a, b | 0 <= a < b < |g| :: g[a] != g[b]
  {
    var g, ks := Group(es, key), GroupKeys(es, key);
    GroupHolds(es, key);
    assert forall m | 0 <= m < |g| :: g[m] in g;
    TwinKeysExtend(key, SigsOf(es, g), 1);
    assert ks[..1][0] == key;
    assert ks[..1] == [key];
  }

  lemma GroupKeysAre(es: seq<Emit>, key: string)
    ensures forall i | 0 <= i < |Group(es, key)| :: Group(es, key)[i] < |es|
    ensures GroupKeys(es, key) == TwinKeys(key, SigsOf(es, Group(es, key)))
  {
    GroupHolds(es, key);
    assert forall i | 0 <= i < |Group(es, key)| :: Group(es, key)[i] in Group(es, key);
  }

  /** The keys of a base key's twins, in place. */
  method Retag(es: seq<Emit>, key: string, g: seq<nat>, before: seq<Emit>) returns (out: seq<Emit>)
    requires g == Group(es, key) && |g| >= 2 && |before| == |es|
    requires forall i | 0 <= i < |es| && es[i].key == key :: before[i].key == key
    ensures Tagged(before, out, g, GroupKeys(es, key), |g|)
  {
    hide Group, TwinKeys, GroupKeys, Tagged;
    FirstTag(es, key, before);
    GroupKeysAre(es, key);
    ghost var sigs := SigsOf(es, g);
    var used := {key};
    out := before;
    for m := 1 to |g|
      invariant used == KeySet(TwinKeys(key, sigs)[..m])
      invariant Tagged(before, out, g, TwinKeys(key, sigs), m)
    {
      out, used := TagNext(key, es[g[m]].sig, g, m, before, out, used, sigs);
    }
  }

  lemma TaggedGroup(es: seq<Emit>, key: string, before: seq<Emit>, out: seq<Emit>, i: nat)
    requires |before| == |es| && i < |es| && Tagged(before, out, Group(es, key), GroupKeys(es, key), |Group(es, key)|)
    ensures out[i] == if es[i].key == key then before[i].(key := FinalKey(es, i)) else before[i]
  {
    var g := Group(es, key);
    GroupHolds(es, key);
    assert g[..|g|] == g;
    if es[i].key == key {
      assert g[IndexOf(g, i)] == i;
    }
  }

  lemma LonelyKey(es: seq<Emit>, i: nat)
    requires i < |es| && |Group(es, es[i].key)| < 2
    ensures FinalKey(es, i) == es[i].key
  {
    GroupHolds(es, es[i].key);
    assert i in Group(es, es[i].key);
  }

  /** Every twin gets its key. */
  method Suffix(st: State) returns (out: seq<Emit>)
    requires Indexed(st)
    ensures out == Rekeyed(st.es)
  {
    var es := st.es;
    out := es;
    for n := 0 to |st.order|
      invariant |out| == |es|
      invariant forall i | 0 <= i < |es| :: out[i] == if es[i].key in st.order[..n] then es[i].(key := FinalKey(es, i)) else es[i]
    {
      var key := st.order[n];
      assert forall k :: k in st.order[..n + 1] <==> k in st.order[..n] || k == key;
      assert key !in st.order[..n];
      var g := Sorting.Sorted(ByTwin(es), st.byBase[key]);
      assert g == Group(es, key);
      if |g| >= 2 {
        var before := out;
        out := Retag(es, key, g, before);
        forall i: nat | i < |es| ensures out[i] == if es[i].key == key then before[i].(key := FinalKey(es, i)) else before[i] {
          TaggedGroup(es, key, before, out, i);
        }
      } else {
        forall i | 0 <= i < |es| && es[i].key == key ensures FinalKey(es, i) == key {
          LonelyKey(es, i);
        }
      }
    }
    assert st.order[..|st.order|] == st.order;
  }

  method Distinct(rs: seq<Route>) returns (distinct: bool)
    ensures distinct == DistinctNeighbours(rs)
  {
    var i := 1;
    while i < |rs| && rs[i - 1].key != rs[i].key
      invariant 1 <= i && forall j | 0 < j < i && j < |rs| :: rs[j - 1].key != rs[j].key
    {
      i := i + 1;
    }
    distinct := i >= |rs|;
  }

  method AllRoutes(es: seq<Emit>) returns (out: seq<Route>)
    ensures out == Sorting.FlatMap(RoutesOf, es)
  {
    out := [];
    for i := 0 to |es|
      invariant out == Sorting.FlatMap(RoutesOf, es[..i])
    {
      assert es[..i + 1][..i] == es[..i];
      out := out + RoutesOf(es[i]);
    }
    assert es[..|es|] == es;
  }

  /** The routes of a configuration, or why there are none. */
  method Routes(servers: seq<Server>, base: string, limit: nat) returns (r: Result<seq<Route>, Error>)
    ensures r == Outcome(servers, base, limit)
    ensures r.Ok? ==> EveryMemberRouted(servers, base, r.value) && EveryRouteIsMember(servers, base, r.value)
  {
    hide Indexed, Emits, Total, Rekeyed, RoutesOf, DistinctNeighbours, EveryMemberRouted, EveryRouteIsMember;
    r := Err(TooMany);
    var st, total := EmitAll(servers, base, limit);
    if total <= limit {
      var es := Suffix(st);
      var out := AllRoutes(es);
      out := Sorting.Sorted(ByKey(), out);
      var distinct := Distinct(out);
      r := if distinct then Ok(out) else Err(Collision);
      if distinct {
        RoutesAreMembers(servers, base, limit);
      }
    }
  }

  // ---------------------------------------------------------------------------
  // Moving server blocks

  /** What the order of twins looks at before their place in the files. */
  type Twin = (bool, string)

  function TwinOf(e: Emit): Twin {
    (e.tls, e.sig)
  }

  predicate TwinLess(a: Twin, b: Twin) {
    if a.0 != b.0 then a.0 else Strings.Less(a.1, b.1)
  }

  function ByRank(): (Twin, Twin) -> bool {
    (a: Twin, b: Twin) => TwinLess(a, b)
  }

  lemma LessStrict(a: string, b: string, c: string)
    ensures Strings.Less(a, b) ==> !Strings.Less(b, a)
    ensures Strings.Less(a, c) ==> Strings.Less(a, b) || Strings.Less(b, c)
  {
    Strings.LessTotal(a, b);
    Strings.LessTotal(b, c);
    if Strings.Less(a, c) && Strings.Less(b, a) {
      Strings.LessTrans(b, a, c);
    }
  }

  lemma BeforeStrict(a: Emit, b: Emit, c: Emit)
    ensures Before(a, b) ==> !Before(b, a)
    ensures Before(a, c) ==> Before(a, b) || Before(b, c)
  {
    LessStrict(a.sig, b.sig, c.sig);
    Strings.LessTotal(a.sig, b.sig);
    Strings.LessTotal(b.sig, c.sig);
    Strings.LessTotal(a.sig, c.sig);
  }

  lemma ByTwinStrict(es: seq<Emit>)
    ensures Sorting.StrictWeak(ByTwin(es))
  {
    var less := ByTwin(es);
    forall a: nat, b: nat | less(a, b) ensures !less(b, a) {
      if a < |es| && b < |es| {
        BeforeStrict(es[a], es[b], es[b]);
      }
    }
    forall a: nat, b: nat, c: nat | less(a, c) ensures less(a, b) || less(b, c) {
      if a < |es| && b < |es| && c < |es| {
        BeforeStrict(es[a], es[b], es[c]);
      }
    }
  }

  /** Two twins of a base key differ in TLS or ports. */
  predicate Distinguished(es: seq<Emit>) {
    forall i, j | 0 <= i < j < |es| && es[i].key == es[j].key :: TwinOf(es[i]) != TwinOf(es[j])
  }

  function Plain(e: Emit): Emit {
    e.(ordinal := 0)
  }

  function Plains(es: seq<Emit>): (r: seq<Emit>)
    ensures |r| == |es| && forall i | 0 <= i < |es| :: r[i] == Plain(es[i])
  {
    seq(|es|, i requires 0 <= i < |es| => Plain(es[i]))
  }

  function TwinIf(key: string): Emit -> seq<Twin> {
    (e: Emit) => if e.key == key then [TwinOf(e)] else []
  }

  function TwinAt(es: seq<Emit>): nat -> seq<Twin> {
    (i: nat) => if i < |es| then [TwinOf(es[i])] else []
  }

  /** The twins of a base key, in their order. */
  function Ranks(es: seq<Emit>, key: string): seq<Twin> {
    Sorting.FlatMap(TwinAt(es), Group(es, key))
  }

  lemma {:induction false} FlatMapOfOnes(es: seq<Emit>, g: seq<nat>)
    requires forall i | 0 <= i < |g| :: g[i] < |es|
    ensures
      var r := Sorting.FlatMap(TwinAt(es), g);
      |r| == |g| && forall i | 0 <= i < |g| :: r[i] == TwinOf(es[g[i]])
  {
    if |g| > 0 {
      FlatMapOfOnes(es, g[..|g| - 1]);
    }
  }

  lemma FlatMapNext<T, U>(f: T -> seq<U>, s: seq<T>, n: nat)
    requires n < |s|
    ensures Sorting.FlatMap(f, s[..n + 1]) == Sorting.FlatMap(f, s[..n]) + f(s[n])
  {
    assert s[..n + 1][..n] == s[..n];
  }

  lemma FlatMapAppend<T, U>(f: T -> seq<U>, s: seq<T>, x: T)
    ensures Sorting.FlatMap(f, s + [x]) == Sorting.FlatMap(f, s) + f(x)
  {
    assert (s + [x])[..|s|] == s;
  }

  lemma {:induction false} GroupTwins(es: seq<Emit>, key: string, n: nat)
    requires n <= |es|
    ensures Sorting.FlatMap(TwinAt(es), GroupUpTo(es, key, n)) == Sorting.FlatMap(TwinIf(key), es[..n])
  {
    if n > 0 {
      var m: nat := n - 1;
      var g := GroupUpTo(es, key, m);
      GroupTwins(es, key, m);
      FlatMapNext(TwinIf(key), es, m);
      FlatMapAppend<nat, Twin>(TwinAt(es), g, m);
      hide Sorting.FlatMap;
      if es[m].key != key {
        assert GroupUpTo(es, key, n) == g;
      }
    }
  }

  lemma {:induction false} TwinsOfPlains(es: seq<Emit>, key: string)
    ensures Sorting.FlatMap(TwinIf(key), es) == Sorting.FlatMap(TwinIf(key), Plains(es))
  {
    if |es| > 0 {
      assert Plains(es)[..|es| - 1] == Plains(es[..|es| - 1]);
      TwinsOfPlains(es[..|es| - 1], key);
    }
  }

  lemma RanksOrdered(es: seq<Emit>, key: string)
    ensures Sorting.Ordered(ByRank(), Ranks(es, key))
    ensures multiset(Ranks(es, key)) == multiset(Sorting.FlatMap(TwinIf(key), Plains(es)))
  {
    var g, r := Group(es, key), Ranks(es, key);
    GroupHolds(es, key);
    assert forall i | 0 <= i < |g| :: g[i] in g;
    FlatMapOfOnes(es, g);
    ByTwinStrict(es);
    Sorting.SortedIsOrdered(ByTwin(es), GroupUpTo(es, key, |es|));
    forall i, j | 0 <= i < j < |r| ensures !TwinLess(r[j], r[i]) {
      assert !ByTwin(es)(g[j], g[i]);
      Strings.LessTotal(es[g[i]].sig, es[g[j]].sig);
    }
    Sorting.SortedPermutes(ByTwin(es), GroupUpTo(es, key, |es|));
    Sorting.FlatMapPermutes(TwinAt(es), g, GroupUpTo(es, key, |es|));
    GroupTwins(es, key, |es|);
    assert es[..|es|] == es;
    TwinsOfPlains(es, key);
  }

  /** The twins of a key and their order are the same however the blocks are arranged. */
  lemma SameRanks(es: seq<Emit>, fs: seq<Emit>, key: string)
    requires multiset(Plains(es)) == multiset(Plains(fs))
    ensures Ranks(es, key) == Ranks(fs, key)
  {
    RanksOrdered(es, key);
    RanksOrdered(fs, key);
    Sorting.FlatMapPermutes(TwinIf(key), Plains(es), Plains(fs));
    forall a: Twin, b: Twin ensures a == b || TwinLess(a, b) || TwinLess(b, a) {
      Strings.LessTotal(a.1, b.1);
    }
    Sorting.OneOrder(ByRank(), Ranks(es, key), Ranks(fs, key));
  }

  function Place(r: seq<Twin>, t: Twin): (k: nat)
    ensures k <= |r| && (t in r ==> k < |r| && r[k] == t)
  {
    if |r| == 0 || r[0] == t then 0 else 1 + Place(r[1..], t)
  }

  function Seconds(r: seq<Twin>): (sigs: seq<string>)
    ensures |sigs| == |r| && forall i | 0 <= i < |r| :: sigs[i] == r[i].1
  {
    seq(|r|, i requires 0 <= i < |r| => r[i].1)
  }

  /** The key of a twin by its rank alone. */
  function RankKey(ranks: seq<Twin>, e: Emit): string {
    var k := Place(ranks, TwinOf(e));
    if k < |ranks| then TwinKeys(e.key, Seconds(ranks))[k] else e.key
  }

  lemma RanksAt(es: seq<Emit>, key: string)
    ensures
      var g, r := Group(es, key), Ranks(es, key);
      |r| == |g| && (forall a | 0 <= a < |g| :: g[a] < |es| && es[g[a]].key == key && r[a] == TwinOf(es[g[a]])) &&
      TwinKeys(key, Seconds(r)) == GroupKeys(es, key)
  {
    var g, r := Group(es, key), Ranks(es, key);
    GroupHolds(es, key);
    assert forall a | 0 <= a < |g| :: g[a] in g;
    FlatMapOfOnes(es, g);
    assert Seconds(r) == SigsOf(es, g);
  }

  /** With twins that differ in TLS or ports, the rank decides the key. */
  lemma KeyIsRankKey(es: seq<Emit>, i: nat)
    requires Distinguished(es) && i < |es|
    ensures FinalKey(es, i) == RankKey(Ranks(es, es[i].key), es[i])
  {
    hide Group, Ranks, GroupKeys, TwinKeys;
    var key := es[i].key;
    var g, r := Group(es, key), Ranks(es, key);
    GroupHolds(es, key);
    RanksAt(es, key);
    var a, b := IndexOf(g, i), Place(r, TwinOf(es[i]));
    assert r[a] == TwinOf(es[i]);
    assert TwinOf(es[g[b]]) == TwinOf(es[i]);
    assert g[b] == i;
  }

  /** An emitted route with its final key, wherever its block stands. */
  ghost function Keyed(es: seq<Emit>): Emit -> seq<Emit> {
    (e: Emit) => [e.(ordinal := 0, key := RankKey(Ranks(es, e.key), e))]
  }

  lemma {:induction false} FlatMapOne<T, U>(f: T -> seq<U>, s: seq<T>, r: seq<U>)
    requires |r| == |s| && forall i | 0 <= i < |s| :: f(s[i]) == [r[i]]
    ensures Sorting.FlatMap(f, s) == r
  {
    if |s| > 0 {
      var n := |s| - 1;
      FlatMapOne(f, s[..n], r[..n]);
      assert r == r[..n] + [r[n]];
    }
  }

  lemma RekeyedPlains(es: seq<Emit>, fs: seq<Emit>)
    requires Distinguished(fs) && forall key :: Ranks(fs, key) == Ranks(es, key)
    ensures Plains(Rekeyed(fs)) == Sorting.FlatMap(Keyed(es), Plains(fs))
  {
    forall i | 0 <= i < |fs| ensures Keyed(es)(Plains(fs)[i]) == [Plains(Rekeyed(fs))[i]] {
      KeyIsRankKey(fs, i);
    }
    FlatMapOne(Keyed(es), Plains(fs), Plains(Rekeyed(fs)));
  }

  lemma {:induction false} RoutesOfPlains(es: seq<Emit>)
    ensures Sorting.FlatMap(RoutesOf, Plains(es)) == Sorting.FlatMap(RoutesOf, es)
  {
    if |es| > 0 {
      assert Plains(es)[..|es| - 1] == Plains(es[..|es| - 1]);
      RoutesOfPlains(es[..|es| - 1]);
      assert RoutesOf(Plain(es[|es| - 1])) == RoutesOf(es[|es| - 1]);
    }
  }

  predicate AllRanksDistinct(es: seq<Emit>, key: string) {
    forall i, j | 0 <= i < j < |Ranks(es, key)| :: Ranks(es, key)[i] != Ranks(es, key)[j]
  }

  /** Whether twins differ does not depend on the arrangement either. */
  lemma StillDistinguished(es: seq<Emit>, fs: seq<Emit>)
    requires Distinguished(es) && forall key :: Ranks(fs, key) == Ranks(es, key)
    ensures Distinguished(fs)
  {
    forall i, j | 0 <= i < j < |fs| && fs[i].key == fs[j].key ensures TwinOf(fs[i]) != TwinOf(fs[j]) {
      RanksDistinct(es, fs[i].key);
      TwoPlaces(fs, i, j);
    }
  }

  lemma RanksDistinct(es: seq<Emit>, key: string)
    requires Distinguished(es)
    ensures AllRanksDistinct(es, key)
  {
    hide Group, Ranks;
    GroupHolds(es, key);
    RanksAt(es, key);
  }

  lemma TwoPlaces(es: seq<Emit>, i: nat, j: nat)
    requires i < j < |es| && es[i].key == es[j].key && AllRanksDistinct(es, es[i].key)
    ensures TwinOf(es[i]) != TwinOf(es[j])
  {
    hide Group, Ranks;
    var g := Group(es, es[i].key);
    GroupHolds(es, es[i].key);
    RanksAt(es, es[i].key);
    var a, b := IndexOf(g, i), IndexOf(g, j);
    assert Ranks(es, es[i].key)[a] == TwinOf(es[i]) && Ranks(es, es[i].key)[b] == TwinOf(es[j]);
  }

  lemma SameRoutes(es: seq<Emit>, fs: seq<Emit>)
    requires multiset(Plains(es)) == multiset(Plains(fs)) && Distinguished(es)
    ensures multiset(Sorting.FlatMap(RoutesOf, Rekeyed(es))) == multiset(Sorting.FlatMap(RoutesOf, Rekeyed(fs)))
  {
    forall key ensures Ranks(fs, key) == Ranks(es, key) {
      SameRanks(es, fs, key);
    }
    StillDistinguished(es, fs);
    RekeyedPlains(es, es);
    RekeyedPlains(es, fs);
    Sorting.FlatMapPermutes(Keyed(es), Plains(es), Plains(fs));
    Sorting.FlatMapPermutes(RoutesOf, Plains(Rekeyed(es)), Plains(Rekeyed(fs)));
    RoutesOfPlains(Rekeyed(es));
    RoutesOfPlains(Rekeyed(fs));
  }

  // ---------------------------------------------------------------------------
  // From blocks to emitted routes

  function PlainFound(f: Found): Found {
    Found(Plains(f.emits), f.seen)
  }

  lemma PlainsJoin(a: seq<Emit>, b: seq<Emit>)
    ensures Plains(a + b) == Plains(a) + Plains(b)
  {
  }

  lemma {:induction false} LocsPlain(s: Server, n: nat, name: string, domain: string, f: Found, locs: seq<Loc>)
    ensures PlainFound(AddLocs(s, n, name, domain, f, locs)) == AddLocs(s, 0, name, domain, PlainFound(f), locs)
  {
    if |locs| > 0 {
      LocsPlain(s, n, name, domain, f, locs[..|locs| - 1]);
      var g, l := AddLocs(s, n, name, domain, f, locs[..|locs| - 1]), locs[|locs| - 1];
      var e := Emit(s.tls, PortSig(s), n, domain, l, "nginx:" + name + ":" + l.text);
      PlainsJoin(g.emits, [e]);
      assert Plains([e]) == [Plain(e)];
    }
  }

  lemma {:induction false} NamesPlain(s: Server, n: nat, base: string, names: seq<string>)
    ensures PlainFound(AddNames(s, n, base, names)) == AddNames(s, 0, base, names)
  {
    if |names| > 0 {
      var init, name := names[..|names| - 1], names[|names| - 1];
      NamesPlain(s, n, base, init);
      match Display(name, base) {
        case None =>
        case Some(domain) => LocsPlain(s, n, name, domain, AddNames(s, n, base, init), KeptOf(s.locs));
      }
    }
  }

  function PlainEmits(base: string): Server -> seq<Emit> {
    (s: Server) => ServerEmits(s, 0, base)
  }

  lemma {:induction false} EmitsPlain(servers: seq<Server>, base: string)
    ensures Plains(Emits(servers, base)) == Sorting.FlatMap(PlainEmits(base), servers)
  {
    if |servers| > 0 {
      var init, n := servers[..|servers| - 1], |servers| - 1;
      EmitsPlain(init, base);
      NamesPlain(servers[n], n, base, servers[n].names);
      PlainsJoin(Emits(init, base), ServerEmits(servers[n], n, base));
    }
  }

  function MembersOf(): Emit -> seq<Member> {
    (e: Emit) => Members(e)
  }

  lemma {:induction false} TotalIsSize(es: seq<Emit>)
    ensures Total(es) == |Sorting.FlatMap(MembersOf(), Plains(es))|
  {
    if |es| > 0 {
      assert Plains(es)[..|es| - 1] == Plains(es[..|es| - 1]);
      TotalIsSize(es[..|es| - 1]);
    }
  }

  lemma SameTotal(es: seq<Emit>, fs: seq<Emit>)
    requires multiset(Plains(es)) == multiset(Plains(fs))
    ensures Total(es) == Total(fs)
  {
    TotalIsSize(es);
    TotalIsSize(fs);
    Sorting.FlatMapPermutes(MembersOf(), Plains(es), Plains(fs));
    SizeOfMultiset(Sorting.FlatMap(MembersOf(), Plains(es)));
    SizeOfMultiset(Sorting.FlatMap(MembersOf(), Plains(fs)));
  }

  lemma SizeOfMultiset<T>(s: seq<T>)
    ensures |multiset(s)| == |s|
  {
  }

  // ---------------------------------------------------------------------------
  // The result

  lemma ByKeyStrict()
    ensures Sorting.StrictWeak(ByKey())
  {
    forall a: Route, b: Route, c: Route
      ensures ByKey()(a, b) ==> !ByKey()(b, a)
      ensures ByKey()(a, c) ==> ByKey()(a, b) || ByKey()(b, c)
    {
      LessStrict(a.key, b.key, c.key);
    }
  }

  predicate Increasing(rs: seq<Route>) {
    forall i, j | 0 <= i < j < |rs| :: Strings.Less(rs[i].key, rs[j].key)
  }

  lemma {:induction false} NeighboursIncrease(rs: seq<Route>)
    requires Sorting.Ordered(ByKey(), rs) && DistinctNeighbours(rs)
    ensures Increasing(rs)
  {
    if |rs| > 0 {
      var init, n := rs[..|rs| - 1], |rs| - 1;
      NeighboursIncrease(init);
      forall i | 0 <= i < n ensures Strings.Less(rs[i].key, rs[n].key) {
        assert !ByKey()(rs[n], rs[n - 1]);
        Strings.LessTotal(rs[n].key, rs[n - 1].key);
        if i < n - 1 {
          assert Strings.Less(init[i].key, init[n - 1].key);
          Strings.LessTrans(rs[i].key, rs[n - 1].key, rs[n].key);
        }
      }
    }
  }

  /** The routes come in order of their keys, no key twice, and no more of them than allowed. */
  lemma RoutesAreKeyed(servers: seq<Server>, base: string, limit: nat)
    requires Outcome(servers, base, limit).Ok?
    ensures
      var rs := Outcome(servers, base, limit).value;
      Increasing(rs) && |rs| == Total(Emits(servers, base)) <= limit
  {
    var es := Emits(servers, base);
    var out := Sorting.FlatMap(RoutesOf, Rekeyed(es));
    ByKeyStrict();
    Sorting.SortedIsOrdered(ByKey(), out);
    NeighboursIncrease(Sorting.Sorted(ByKey(), out));
    Sorting.SortedPermutes(ByKey(), out);
    RouteCount(Rekeyed(es));
    RekeyedTotal(es, Rekeyed(es));
  }

  lemma {:induction false} RouteCount(es: seq<Emit>)
    ensures |Sorting.FlatMap(RoutesOf, es)| == Total(es)
  {
    if |es| > 0 {
      RouteCount(es[..|es| - 1]);
    }
  }

  lemma {:induction false} RekeyedTotal(es: seq<Emit>, fs: seq<Emit>)
    requires |es| == |fs| && forall i | 0 <= i < |es| :: fs[i].loc == es[i].loc
    ensures Total(fs) == Total(es)
  {
    if |es| > 0 {
      RekeyedTotal(es[..|es| - 1], fs[..|fs| - 1]);
    }
  }

  lemma IncreasingIsUntied(rs: seq<Route>)
    requires Increasing(rs)
    ensures Sorting.Untied(ByKey(), multiset(rs))
  {
    forall x, y | x in multiset(rs) && y in multiset(rs) ensures x == y || ByKey()(x, y) || ByKey()(y, x) {
      var i :| 0 <= i < |rs| && rs[i] == x;
      var j :| 0 <= j < |rs| && rs[j] == y;
    }
  }

  /** Lists of the same routes sort to the same list, or both collide. */
  lemma SameSorted(a: seq<Route>, b: seq<Route>)
    requires multiset(a) == multiset(b) && DistinctNeighbours(Sorting.Sorted(ByKey(), a))
    ensures Sorting.Sorted(ByKey(), a) == Sorting.Sorted(ByKey(), b)
  {
    ByKeyStrict();
    Sorting.SortedIsOrdered(ByKey(), a);
    Sorting.SortedPermutes(ByKey(), a);
    NeighboursIncrease(Sorting.Sorted(ByKey(), a));
    IncreasingIsUntied(Sorting.Sorted(ByKey(), a));
    Sorting.SortedForgets(ByKey(), a, b);
  }

  /**
   Moving server blocks about keeps every route and its key, as long as blocks that share a name and a
   location differ in TLS or ports.
   */
  lemma MovingBlocksKeepsRoutes(servers: seq<Server>, moved: seq<Server>, base: string, limit: nat)
    requires multiset(servers) == multiset(moved) && Distinguished(Emits(servers, base))
    ensures Outcome(servers, base, limit) == Outcome(moved, base, limit)
  {
    var es, fs := Emits(servers, base), Emits(moved, base);
    SameEmits(servers, moved, base);
    SameTotal(es, fs);
    SameRoutes(es, fs);
    hide Emits, Rekeyed, DistinctNeighbours, Distinguished, Total;
    SameOrCollide(Sorting.FlatMap(RoutesOf, Rekeyed(es)), Sorting.FlatMap(RoutesOf, Rekeyed(fs)));
  }

  lemma SameEmits(servers: seq<Server>, moved: seq<Server>, base: string)
    requires multiset(servers) == multiset(moved)
    ensures multiset(Plains(Emits(servers, base))) == multiset(Plains(Emits(moved, base)))
  {
    EmitsPlain(servers, base);
    EmitsPlain(moved, base);
    Sorting.FlatMapPermutes(PlainEmits(base), servers, moved);
  }

  lemma SameOrCollide(a: seq<Route>, b: seq<Route>)
    requires multiset(a) == multiset(b)
    ensures
      var s, t := Sorting.Sorted(ByKey(), a), Sorting.Sorted(ByKey(), b);
      DistinctNeighbours(s) == DistinctNeighbours(t) && (DistinctNeighbours(s) ==> s == t)
  {
    hide DistinctNeighbours;
    if DistinctNeighbours(Sorting.Sorted(ByKey(), a)) {
      SameSorted(a, b);
    } else if DistinctNeighbours(Sorting.Sorted(ByKey(), b)) {
      SameSorted(b, a);
    }
  }

  /** A route without twins is keyed by name and location alone, whatever its ports, TLS or place. */
  lemma AloneKeepsPlainKey(es: seq<Emit>, i: nat)
    requires i < |es| && forall j | 0 <= j < |es| && j != i :: es[j].key != es[i].key
    ensures FinalKey(es, i) == es[i].key
  {
    var g := Group(es, es[i].key);
    GroupHolds(es, es[i].key);
    assert i in g && g[0] in g;
    FirstTwinKeepsPlainKey(es, i);
  }

  /** Of the twins of a base key exactly the first in their order keeps the plain key. */
  lemma FirstTwinKeepsPlainKey(es: seq<Emit>, i: nat)
    requires i < |es|
    ensures FinalKey(es, i) == es[i].key <==> Group(es, es[i].key)[0] == i
  {
    var key := es[i].key;
    var g, ks := Group(es, key), GroupKeys(es, key);
    GroupHolds(es, key);
    assert i in g && |g| > 0;
    TwinKeysExtend(key, SigsOf(es, g), 1);
    assert ks[..1][0] == key;
  }

  // ---------------------------------------------------------------------------
  // Which routes there are

  predicate Earlier(a: int, k: int, na: int, nk: int) {
    a < na || (a == na && k < nk)
  }

  /** The a-th name of a server has a domain, and its k-th kept location was not emitted under that domain before. */
  ghost predicate IsFirst(s: Server, base: string, a: int, k: int) {
    && 0 <= a < |s.names| && 0 <= k < |KeptOf(s.locs)| && Display(s.names[a], base).Some?
    && forall b, j | 0 <= b < |s.names| && 0 <= j < |KeptOf(s.locs)| && Earlier(b, j, a, k) :: !SameSpot(s, base, a, k, b, j)
  }

  predicate SameSpot(s: Server, base: string, a: int, k: int, b: int, j: int)
    requires 0 <= a < |s.names| && 0 <= b < |s.names| && 0 <= k < |KeptOf(s.locs)| && 0 <= j < |KeptOf(s.locs)|
  {
    Display(s.names[b], base) == Display(s.names[a], base) && KeptOf(s.locs)[j].text == KeptOf(s.locs)[k].text
  }

  function SpotEmit(s: Server, ordinal: nat, base: string, a: int, k: int): Emit
    requires 0 <= a < |s.names| && 0 <= k < |KeptOf(s.locs)| && Display(s.names[a], base).Some?
  {
    var l := KeptOf(s.locs)[k];
    Emit(s.tls, PortSig(s), ordinal, Display(s.names[a], base).value, l, "nginx:" + s.names[a] + ":" + l.text)
  }

  predicate Spot(s: Server, base: string, a: int, k: int, domain: string, text: string) {
    0 <= a < |s.names| && 0 <= k < |KeptOf(s.locs)| && Display(s.names[a], base) == Some(domain) && KeptOf(s.locs)[k].text == text
  }

  /** What has been emitted up to the nk-th location of the na-th name. */
  ghost predicate Tracks(s: Server, ordinal: nat, base: string, f: Found, na: int, nk: int) {
    && (forall domain, text :: (domain, text) in f.seen <==> exists a, k :: Earlier(a, k, na, nk) && Spot(s, base, a, k, domain, text))
    && (forall a, k | IsFirst(s, base, a, k) && Earlier(a, k, na, nk) :: SpotEmit(s, ordinal, base, a, k) in f.emits)
    && (forall e <- f.emits :: exists a, k :: IsFirst(s, base, a, k) && Earlier(a, k, na, nk) && e == SpotEmit(s, ordinal, base, a, k))
  }

  /** The next location is emitted exactly if it is the first at its spot. */
  lemma NextIsFirst(s: Server, ordinal: nat, base: string, f: Found, na: int, nk: int)
    requires 0 <= na < |s.names| && 0 <= nk < |KeptOf(s.locs)| && Display(s.names[na], base).Some?
    requires Tracks(s, ordinal, base, f, na, nk)
    ensures IsFirst(s, base, na, nk) <==> (Display(s.names[na], base).value, KeptOf(s.locs)[nk].text) !in f.seen
  {
    var domain, text := Display(s.names[na], base).value, KeptOf(s.locs)[nk].text;
    if (domain, text) in f.seen {
      var a, k :| Earlier(a, k, na, nk) && Spot(s, base, a, k, domain, text);
      assert SameSpot(s, base, na, nk, a, k);
    } else {
      forall b, j | 0 <= b < |s.names| && 0 <= j < |KeptOf(s.locs)| && Earlier(b, j, na, nk) ensures !SameSpot(s, base, na, nk, b, j) {
        assert !Spot(s, base, b, j, domain, text);
      }
    }
  }

  lemma LocTracks(s: Server, ordinal: nat, base: string, f: Found, na: int, nk: int)
    requires 0 <= na < |s.names| && 0 <= nk < |KeptOf(s.locs)| && Display(s.names[na], base).Some?
    requires Tracks(s, ordinal, base, f, na, nk)
    ensures Tracks(s, ordinal, base, AddLoc(s, ordinal, s.names[na], Display(s.names[na], base).value, f, KeptOf(s.locs)[nk]), na, nk + 1)
  {
    var domain, l := Display(s.names[na], base).value, KeptOf(s.locs)[nk];
    var g := AddLoc(s, ordinal, s.names[na], domain, f, l);
    NextIsFirst(s, ordinal, base, f, na, nk);
    SeenTracks(s, ordinal, base, f, na, nk);
    hide IsFirst, PortSig, KeptOf, Display;
    forall a, k | IsFirst(s, base, a, k) && Earlier(a, k, na, nk + 1) ensures SpotEmit(s, ordinal, base, a, k) in g.emits {
      if Earlier(a, k, na, nk) {
        assert SpotEmit(s, ordinal, base, a, k) in f.emits;
      }
    }
    forall e <- g.emits ensures exists a, k :: IsFirst(s, base, a, k) && Earlier(a, k, na, nk + 1) && e == SpotEmit(s, ordinal, base, a, k) {
      if e in f.emits {
        var a, k :| IsFirst(s, base, a, k) && Earlier(a, k, na, nk) && e == SpotEmit(s, ordinal, base, a, k);
        assert Earlier(a, k, na, nk + 1);
      } else {
        assert Earlier(na, nk, na, nk + 1) && e == SpotEmit(s, ordinal, base, na, nk);
      }
    }
  }

  lemma SeenTracks(s: Server, ordinal: nat, base: string, f: Found, na: int, nk: int)
    requires 0 <= na < |s.names| && 0 <= nk < |KeptOf(s.locs)| && Display(s.names[na], base).Some?
    requires Tracks(s, ordinal, base, f, na, nk)
    ensures
      var domain, l := Display(s.names[na], base).value, KeptOf(s.locs)[nk];
      var g := AddLoc(s, ordinal, s.names[na], domain, f, l);
      forall d, text :: (d, text) in g.seen <==> exists a, k :: Earlier(a, k, na, nk + 1) && Spot(s, base, a, k, d, text)
  {
    var domain, l := Display(s.names[na], base).value, KeptOf(s.locs)[nk];
    var g := AddLoc(s, ordinal, s.names[na], domain, f, l);
    assert g.seen == f.seen + {(domain, l.text)};
    assert Spot(s, base, na, nk, domain, l.text) && Earlier(na, nk, na, nk + 1);
    hide PortSig, KeptOf, Display, AddLoc;
    forall d, text ensures (d, text) in g.seen <==> exists a, k :: Earlier(a, k, na, nk + 1) && Spot(s, base, a, k, d, text) {
      if a, k :| Earlier(a, k, na, nk + 1) && Spot(s, base, a, k, d, text) {
        assert Earlier(a, k, na, nk) || (a == na && k == nk);
      }
      if (d, text) in f.seen {
        var a, k :| Earlier(a, k, na, nk) && Spot(s, base, a, k, d, text);
        assert Earlier(a, k, na, nk + 1);
      }
    }
  }

  lemma {:induction false} LocsTrack(s: Server, ordinal: nat, base: string, f: Found, na: int, nk: nat)
    requires 0 <= na < |s.names| && nk <= |KeptOf(s.locs)| && Display(s.names[na], base).Some?
    requires Tracks(s, ordinal, base, f, na, 0)
    ensures Tracks(s, ordinal, base, AddLocs(s, ordinal, s.names[na], Display(s.names[na], base).value, f, KeptOf(s.locs)[..nk]), na, nk)
  {
    if nk > 0 {
      hide Tracks, AddLoc, KeptOf, Display;
      var locs := KeptOf(s.locs);
      assert locs[..nk][..nk - 1] == locs[..nk - 1];
      LocsTrack(s, ordinal, base, f, na, nk - 1);
      LocTracks(s, ordinal, base, AddLocs(s, ordinal, s.names[na], Display(s.names[na], base).value, f, locs[..nk - 1]), na, nk - 1);
    }
  }

  /** Done with a name is before the next one. */
  lemma NameTracks(s: Server, ordinal: nat, base: string, f: Found, na: int)
    requires 0 <= na < |s.names|
    requires Tracks(s, ordinal, base, f, na, if Display(s.names[na], base).Some? then |KeptOf(s.locs)| else 0)
    ensures Tracks(s, ordinal, base, f, na + 1, 0)
  {
    var n := if Display(s.names[na], base).Some? then |KeptOf(s.locs)| else 0;
    forall a, k ensures IsFirst(s, base, a, k) ==> (Earlier(a, k, na + 1, 0) <==> Earlier(a, k, na, n)) {
    }
    forall a, k, domain, text ensures Spot(s, base, a, k, domain, text) ==> (Earlier(a, k, na + 1, 0) <==> Earlier(a, k, na, n)) {
    }
    hide IsFirst, SpotEmit, KeptOf, Display;
    forall domain, text ensures (domain, text) in f.seen <==> exists a, k :: Earlier(a, k, na + 1, 0) && Spot(s, base, a, k, domain, text) {
      if a, k :| Earlier(a, k, na + 1, 0) && Spot(s, base, a, k, domain, text) {
        assert Earlier(a, k, na, n);
      }
      if a, k :| Earlier(a, k, na, n) && Spot(s, base, a, k, domain, text) {
        assert Earlier(a, k, na + 1, 0);
      }
    }
    forall e <- f.emits ensures exists a, k :: IsFirst(s, base, a, k) && Earlier(a, k, na + 1, 0) && e == SpotEmit(s, ordinal, base, a, k) {
      var a, k :| IsFirst(s, base, a, k) && Earlier(a, k, na, n) && e == SpotEmit(s, ordinal, base, a, k);
      assert Earlier(a, k, na + 1, 0);
    }
  }

  lemma {:induction false} NamesTrack(s: Server, ordinal: nat, base: string, na: nat)
    requires na <= |s.names|
    ensures Tracks(s, ordinal, base, AddNames(s, ordinal, base, s.names[..na]), na, 0)
  {
    if na > 0 {
      hide Tracks, AddLocs, KeptOf, Display;
      assert s.names[..na][..na - 1] == s.names[..na - 1];
      NamesTrack(s, ordinal, base, na - 1);
      var f, locs := AddNames(s, ordinal, base, s.names[..na - 1]), KeptOf(s.locs);
      if Display(s.names[na - 1], base).Some? {
        LocsTrack(s, ordinal, base, f, na - 1, |locs|);
        assert locs[..|locs|] == locs;
      }
      NameTracks(s, ordinal, base, AddNames(s, ordinal, base, s.names[..na]), na - 1);
    }
  }

  /** A server emits exactly its first spots. */
  lemma ServerEmitsAre(s: Server, ordinal: nat, base: string, e: Emit)
    ensures e in ServerEmits(s, ordinal, base) <==> exists a, k :: IsFirst(s, base, a, k) && e == SpotEmit(s, ordinal, base, a, k)
  {
    NamesTrack(s, ordinal, base, |s.names|);
    assert s.names[..|s.names|] == s.names;
    hide SpotEmit;
    forall a, k | IsFirst(s, base, a, k) ensures Earlier(a, k, |s.names|, 0) {
    }
  }

  lemma {:induction false} EmitsAre(servers: seq<Server>, base: string, e: Emit)
    ensures e in Emits(servers, base) <==> exists i :: EmittedBy(servers, base, i, e)
  {
    if |servers| > 0 {
      hide ServerEmits;
      var n := |servers| - 1;
      EmitsAre(servers[..n], base, e);
      if i :| EmittedBy(servers[..n], base, i, e) {
        assert EmittedBy(servers, base, i, e);
      }
      if i :| EmittedBy(servers, base, i, e) {
        assert i == n || EmittedBy(servers[..n], base, i, e);
      }
      assert EmittedBy(servers, base, n, e) <==> e in ServerEmits(servers[n], n, base);
    }
  }

  predicate EmittedBy(servers: seq<Server>, base: string, i: int, e: Emit) {
    0 <= i < |servers| && e in ServerEmits(servers[i], i, base)
  }

  lemma {:induction false} FlatMapHas<T, U>(f: T -> seq<U>, s: seq<T>, y: U)
    ensures y in Sorting.FlatMap(f, s) <==> exists i :: 0 <= i < |s| && y in f(s[i])
  {
    if |s| > 0 {
      var n := |s| - 1;
      FlatMapHas(f, s[..n], y);
      assert forall i | 0 <= i < n :: s[..n][i] == s[i];
    }
  }

  /** The route of one member of one kept location, under one name, of one server. */
  predicate RouteFor(s: Server, base: string, a: int, k: int, m: int, r: Route) {
    && 0 <= a < |s.names| && 0 <= k < |KeptOf(s.locs)| && Display(s.names[a], base) == Some(r.domain)
    && var l := KeptOf(s.locs)[k];
       l.target.Some? && 0 <= m < |l.target.value.members| && r.pathPrefix == l.text
       && r.upstreamHost == l.target.value.members[m].host && r.upstreamPort == l.target.value.members[m].port && r.tls == s.tls
  }

  /** Every member of every kept location has a route, under every name's domain, unless that spot was taken before. */
  ghost predicate EveryMemberRouted(servers: seq<Server>, base: string, rs: seq<Route>) {
    forall i, a, k, m | Due(servers, base, i, a, k, m) :: exists r <- rs :: Routed(servers, base, i, a, k, m, r)
  }

  ghost predicate Due(servers: seq<Server>, base: string, i: int, a: int, k: int, m: int) {
    0 <= i < |servers| && IsFirst(servers[i], base, a, k) && 0 <= m < |MembersAt(servers[i], k)|
  }

  ghost predicate Routed(servers: seq<Server>, base: string, i: int, a: int, k: int, m: int, r: Route) {
    Due(servers, base, i, a, k, m) && RouteFor(servers[i], base, a, k, m, r)
  }

  function MembersAt(s: Server, k: int): seq<Member> {
    if 0 <= k < |KeptOf(s.locs)| && KeptOf(s.locs)[k].target.Some? then KeptOf(s.locs)[k].target.value.members else []
  }

  /** And there are no other routes. */
  ghost predicate EveryRouteIsMember(servers: seq<Server>, base: string, rs: seq<Route>) {
    forall r <- rs :: exists i, a, k, m :: Routed(servers, base, i, a, k, m, r)
  }

  lemma SortedHas(rs: seq<Route>, r: Route)
    ensures r in Sorting.Sorted(ByKey(), rs) <==> r in rs
  {
    Sorting.SortedPermutes(ByKey(), rs);
    Sorting.InMultiset(rs, r);
    Sorting.InMultiset(Sorting.Sorted(ByKey(), rs), r);
  }

  lemma MemberHasRoute(servers: seq<Server>, base: string, i: int, a: int, k: int, m: int)
    requires Due(servers, base, i, a, k, m)
    ensures exists r :: r in Sorting.FlatMap(RoutesOf, Rekeyed(Emits(servers, base))) && Routed(servers, base, i, a, k, m, r)
  {
    var es, e := Emits(servers, base), SpotEmit(servers[i], i, base, a, k);
    ServerEmitsAre(servers[i], i, base, e);
    assert EmittedBy(servers, base, i, e);
    EmitsAre(servers, base, e);
    var n :| 0 <= n < |es| && es[n] == e;
    hide IsFirst, FinalKey, Emits, ServerEmits, EmittedBy, KeptOf, Display, PortSig;
    var r := RoutesOf(Rekeyed(es)[n])[m];
    assert r in RoutesOf(Rekeyed(es)[n]);
    FlatMapHas(RoutesOf, Rekeyed(es), r);
    assert RouteFor(servers[i], base, a, k, m, r);
  }

  lemma RouteHasMember(servers: seq<Server>, base: string, r: Route)
    requires r in Sorting.FlatMap(RoutesOf, Rekeyed(Emits(servers, base)))
    ensures exists i, a, k, m :: Routed(servers, base, i, a, k, m, r)
  {
    hide IsFirst, Emits, FinalKey, EmittedBy, Routed, Sorting.FlatMap;
    var es := Emits(servers, base);
    FlatMapHas(RoutesOf, Rekeyed(es), r);
    var n :| 0 <= n < |es| && r in RoutesOf(Rekeyed(es)[n]);
    assert es[n] in es;
    EmitsAre(servers, base, es[n]);
    var i :| EmittedBy(servers, base, i, es[n]);
    EmittedIsRouted(servers, base, i, es[n], Rekeyed(es)[n], r);
  }

  lemma EmittedIsRouted(servers: seq<Server>, base: string, i: int, e: Emit, f: Emit, r: Route)
    requires EmittedBy(servers, base, i, e) && f == e.(key := f.key) && r in RoutesOf(f)
    ensures exists i, a, k, m :: Routed(servers, base, i, a, k, m, r)
  {
    hide ServerEmits, KeptOf, Display;
    var m :| 0 <= m < |RoutesOf(f)| && RoutesOf(f)[m] == r;
    ServerEmitsAre(servers[i], i, base, e);
    var a, k :| IsFirst(servers[i], base, a, k) && e == SpotEmit(servers[i], i, base, a, k);
    assert RouteFor(servers[i], base, a, k, m, r);
    assert Routed(servers, base, i, a, k, m, r);
  }

  lemma RoutesAreMembers(servers: seq<Server>, base: string, limit: nat)
    requires Outcome(servers, base, limit).Ok?
    ensures EveryMemberRouted(servers, base, Outcome(servers, base, limit).value)
    ensures EveryRouteIsMember(servers, base, Outcome(servers, base, limit).value)
  {
    hide Emits, Rekeyed, RoutesOf, Routed, DistinctNeighbours, Total, Due;
    var out, rs := Sorting.FlatMap(RoutesOf, Rekeyed(Emits(servers, base))), Outcome(servers, base, limit).value;
    forall i, a, k, m | Due(servers, base, i, a, k, m) ensures exists r <- rs :: Routed(servers, base, i, a, k, m, r) {
      MemberHasRoute(servers, base, i, a, k, m);
      var r :| r in out && Routed(servers, base, i, a, k, m, r);
      SortedHas(out, r);
    }
    forall r <- rs
      ensures exists i, a, k, m :: Routed(servers, base, i, a, k, m, r)
    {
      SortedHas(out, r);
      RouteHasMember(servers, base, r);
    }
  }

  /** Among the twins of a base key the plain key is a TLS block's, if there is one. */
  lemma TlsKeepsPlainKey(es: seq<Emit>, i: nat, j: nat)
    requires i < |es| && j < |es| && es[i].key == es[j].key && es[i].tls && FinalKey(es, j) == es[j].key
    ensures es[j].tls
  {
    var key := es[i].key;
    var g := Group(es, key);
    FirstTwinKeepsPlainKey(es, j);
    GroupHolds(es, key);
    ByTwinStrict(es);
    Sorting.SortedIsOrdered(ByTwin(es), GroupUpTo(es, key, |es|));
    assert i in g && j in g;
    var n :| 0 <= n < |g| && g[n] == i;
    if n > 0 {
      assert !ByTwin(es)(g[n], g[0]);
    }
  }

  /** Any other twin is told apart by its block's ports, and a number from 2 on where that is taken. */
  lemma OtherTwinsNamePorts(es: seq<Emit>, i: nat)
    requires i < |es| && FinalKey(es, i) != es[i].key
    ensures
      var plain := es[i].key + ":" + es[i].sig;
      FinalKey(es, i) == plain || exists n: nat :: n >= 2 && FinalKey(es, i) == plain + ":" + Domain.Digits(n)
  {
    var key := es[i].key;
    var g := Group(es, key);
    GroupHolds(es, key);
    GroupKeysAre(es, key);
    assert i in g;
    var a, sigs := IndexOf(g, i), SigsOf(es, g);
    FirstTwinKeepsPlainKey(es, i);
    hide TwinKeys, Group, TwinKey;
    NextTwinKey(key, sigs, a);
    TwinKeyNamesPorts(key, sigs[a], KeySet(TwinKeys(key, sigs)[..a]));
  }

  lemma TwinKeyNamesPorts(key: string, sig: string, used: set<string>)
    ensures
      var plain := key + ":" + sig;
      TwinKey(key, sig, used) == plain || exists n: nat :: n >= 2 && TwinKey(key, sig, used) == plain + ":" + Domain.Digits(n)
  {
    if key + ":" + sig in used {
      var n := FreeIsNumbered(key + ":" + sig, used, 2);
      var plain := key + ":" + sig;
      assert TwinKey(key, sig, used) == plain + ":" + Domain.Digits(n);
    }
  }

  lemma {:induction false} FreeIsNumbered(k: string, used: set<string>, from: nat) returns (n: nat)
    requires from >= 2
    ensures n >= 2 && FirstFree(k, used, from) == Numbered(k, n)
    decreases Left(k, used, from)
  {
    if Numbered(k, from) !in used {
      n := from;
    } else {
      LeftShrinks(k, used, from);
      n := FreeIsNumbered(k, used, from + 1);
    }
  }

  predicate Digital(s: string) {
    |s| > 0 && forall c <- s :: '0' <= c <= '9'
  }

  lemma {:induction false} DigitsAreDigital(n: nat)
    ensures Digital(Domain.Digits(n))
  {
    if n >= 10 {
      DigitsAreDigital(n / 10);
    }
  }

  lemma NoPlusIn(x: string)
    requires Digital(x)
    ensures forall i | 0 <= i < |x| :: x[i] != '+'
  {
    forall i | 0 <= i < |x| ensures x[i] != '+' {
      assert x[i] in x;
    }
  }

  /** What precedes the last '+' and what follows it are determined. */
  lemma LastPlus(a: string, x: string, b: string, y: string)
    requires Digital(x) && Digital(y) && a + "+" + x == b + "+" + y
    ensures a == b && x == y
  {
    var s, t := a + "+" + x, b + "+" + y;
    NoPlusIn(x);
    NoPlusIn(y);
    assert s[|a|] == '+' && t[|b|] == '+';
    assert forall i | |a| < i < |s| :: s[i] == x[i - |a| - 1];
    assert forall i | |b| < i < |t| :: t[i] == y[i - |b| - 1];
    assert a == s[..|a|] && b == t[..|b|] && x == s[|a| + 1..] && y == t[|b| + 1..];
  }

  lemma NoPlus(a: string, x: string, y: string)
    requires Digital(y)
    ensures a + "+" + x != y
  {
    NoPlusIn(y);
    assert (a + "+" + x)[|a|] == '+';
  }

  lemma {:induction false} JoinedPortsDiffer(a: seq<nat>, b: seq<nat>)
    requires |a| > 0 && |b| > 0 && JoinPorts(a) == JoinPorts(b)
    ensures a == b
  {
    var x, y := Domain.Digits(a[|a| - 1]), Domain.Digits(b[|b| - 1]);
    DigitsAreDigital(a[|a| - 1]);
    DigitsAreDigital(b[|b| - 1]);
    if |a| == 1 && |b| == 1 {
    } else if |a| == 1 {
      NoPlus(JoinPorts(b[..|b| - 1]), y, x);
    } else if |b| == 1 {
      NoPlus(JoinPorts(a[..|a| - 1]), x, y);
    } else {
      LastPlus(JoinPorts(a[..|a| - 1]), x, JoinPorts(b[..|b| - 1]), y);
      JoinedPortsDiffer(a[..|a| - 1], b[..|b| - 1]);
    }
    if a[|a| - 1] != b[|b| - 1] {
      DigitsDiffer(a[|a| - 1], b[|b| - 1]);
    }
    assert a == a[..|a| - 1] + [a[|a| - 1]] && b == b[..|b| - 1] + [b[|b| - 1]];
  }

  lemma {:induction false} FirstIsDigit(ports: seq<nat>)
    requires |ports| > 0
    ensures |JoinPorts(ports)| > 0 && '0' <= JoinPorts(ports)[0] <= '9'
  {
    DigitsAreDigital(ports[|ports| - 1]);
    if |ports| == 1 {
      assert JoinPorts(ports)[0] in JoinPorts(ports);
    } else {
      FirstIsDigit(ports[..|ports| - 1]);
    }
  }

  /** Blocks are told apart by their ports whenever those differ. */
  lemma PortSigTells(a: Server, b: Server)
    ensures PortSig(a) == PortSig(b) <==> a.ports == b.ports
  {
    if |a.ports| > 0 {
      FirstIsDigit(a.ports);
    }
    if |b.ports| > 0 {
      FirstIsDigit(b.ports);
    }
    if |a.ports| > 0 && |b.ports| > 0 && PortSig(a) == PortSig(b) {
      JoinedPortsDiffer(a.ports, b.ports);
    }
  }

  /** Every location that makes routes leads somewhere. */
  predicate Leads(servers: seq<Server>) {
    forall i, k | 0 <= i < |servers| && 0 <= k < |KeptOf(servers[i].locs)| :: |MembersAt(servers[i], k)| > 0
  }

  /** So a name and location served by a TLS block has a TLS route under the plain key, numbered if the upstream has several members. */
  lemma TlsRouteHasPlainKey(servers: seq<Server>, base: string, limit: nat, i: int, a: int, k: int)
    requires Outcome(servers, base, limit).Ok? && Leads(servers)
    requires 0 <= i < |servers| && IsFirst(servers[i], base, a, k) && servers[i].tls
    ensures
      var key := "nginx:" + servers[i].names[a] + ":" + KeptOf(servers[i].locs)[k].text;
      exists r <- Outcome(servers, base, limit).value :: r.tls && (r.key == key || r.key == key + "#0")
  {
    var es, e := Emits(servers, base), SpotEmit(servers[i], i, base, a, k);
    ServerEmitsAre(servers[i], i, base, e);
    assert EmittedBy(servers, base, i, e);
    EmitsAre(servers, base, e);
    var n :| 0 <= n < |es| && es[n] == e;
    var first := PlainTwin(es, n);
    EmitLeads(servers, base, es[first]);
    hide Emits, IsFirst, SpotEmit, KeptOf, Outcome, EmittedBy;
    PlainRoute(servers, base, limit, first);
  }

  /** The twin with the plain key, and that it has TLS if any has. */
  lemma PlainTwin(es: seq<Emit>, n: nat) returns (first: nat)
    requires n < |es| && es[n].tls
    ensures first < |es| && es[first].key == es[n].key && FinalKey(es, first) == es[n].key && es[first].tls
  {
    var g := Group(es, es[n].key);
    GroupHolds(es, es[n].key);
    assert n in g;
    first := g[0];
    assert first in g;
    FirstTwinKeepsPlainKey(es, first);
    TlsKeepsPlainKey(es, n, first);
  }

  lemma PlainRoute(servers: seq<Server>, base: string, limit: nat, n: nat)
    requires Outcome(servers, base, limit).Ok? && n < |Emits(servers, base)| && |Members(Emits(servers, base)[n])| > 0
    requires FinalKey(Emits(servers, base), n) == Emits(servers, base)[n].key
    ensures
      var e := Emits(servers, base)[n];
      exists r <- Outcome(servers, base, limit).value :: r.tls == e.tls && (r.key == e.key || r.key == e.key + "#0")
  {
    var es := Emits(servers, base);
    hide FinalKey, Emits, DistinctNeighbours, Total;
    var r := RoutesOf(Rekeyed(es)[n])[0];
    assert Domain.Digits(0) == "0";
    assert r in RoutesOf(Rekeyed(es)[n]);
    FlatMapHas(RoutesOf, Rekeyed(es), r);
    SortedHas(Sorting.FlatMap(RoutesOf, Rekeyed(es)), r);
  }

  lemma EmitLeads(servers: seq<Server>, base: string, e: Emit)
    requires Leads(servers) && e in Emits(servers, base)
    ensures |Members(e)| > 0
  {
    EmitsAre(servers, base, e);
    var i :| EmittedBy(servers, base, i, e);
    ServerEmitsAre(servers[i], i, base, e);
    var a, k :| IsFirst(servers[i], base, a, k) && e == SpotEmit(servers[i], i, base, a, k);
    assert |MembersAt(servers[i], k)| > 0;
  }

  /** A name "stem.*" is shown under the base domain, as is "_"; without a base domain, and otherwise, a name is its own domain. */
  lemma NamesAreShown(stem: string, base: string)
    ensures base != "" ==> Display(stem + ".*", base) == Some(stem + "." + base) && Display("_", base) == Some(base)
    ensures Display("_", "") == None
    ensures stem != "_" && (|stem| < 2 || stem[|stem| - 2..] != ".*") ==> Display(stem, base) == Some(stem)
    ensures stem != "_" ==> Display(stem, "") == Some(stem)
  {
    var n := stem + ".*";
    assert n[|n| - 2..] == ".*" && n[..|n| - 1] == stem + ".";
    assert n != "_";
  }
}
