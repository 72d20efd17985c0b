/**
 Which locations of a server make routes (internal/connectors/nginx/extract.go, kept): those that only
 restate another route of the server are dropped.
 */
module NginxKept {
  import opened Results

  datatype Kind = Prefix | Exact | Regex | Named

  datatype Member = Member(host: string, port: int)

  datatype Target = Target(id: string, members: seq<Member>)

  datatype Loc = Loc(kind: Kind, hidden: bool, path: string, text: string, target: Option<Target>)

  predicate Primary(l: Loc) {
    (l.kind == Prefix || l.kind == Exact) && !l.hidden
  }

  /** A location whose upstream can be reached by its path alone. */
  predicate Reaches(l: Loc, id: string) {
    l.target.Some? && l.target.value.id == id && Primary(l)
  }

  /** `p` makes `l` a restatement: any plain location does for one that is not, a shorter prefix for one that is. */
  predicate Restates(l: Loc, p: Loc) {
    l.target.Some? && Reaches(p, l.target.value.id) && (!Primary(l) || (p.kind == Prefix && p.path <= l.path))
  }

  predicate Dropped(locs: seq<Loc>, i: nat)
    requires i < |locs|
  {
    exists j :: 0 <= j < |locs| && j != i && Restates(locs[i], locs[j])
  }

  predicate IsKept(locs: seq<Loc>, i: nat)
    requires i < |locs|
  {
    locs[i].target.Some? && !Dropped(locs, i)
  }

  /** The kept locations among the first n, in order. */
  function KeptUpTo(locs: seq<Loc>, n: nat): seq<Loc>
    requires n <= |locs|
  {
    if n == 0 then []
    else KeptUpTo(locs, n - 1) + if IsKept(locs, n - 1) then [locs[n - 1]] else []
  }

  function KeptOf(locs: seq<Loc>): seq<Loc> {
    KeptUpTo(locs, |locs|)
  }

  type Index = map<string, seq<nat>>

  predicate Listed(primaries: Index, id: string, j: nat) {
    id in primaries && j in primaries[id]
  }

  function Put(index: Index, id: string, j: nat): (r: Index)
    ensures forall k, n :: Listed(r, k, n) <==> Listed(index, k, n) || (k == id && n == j)
  {
    var was := if id in index then index[id] else [];
    assert forall n: nat :: n in was + [j] <==> n in was || n == j;
    index[id := was + [j]]
  }

  /** The plain locations by upstream. */
  method Primaries(locs: seq<Loc>) returns (primaries: Index)
    ensures forall id, j: nat :: Listed(primaries, id, j) <==> j < |locs| && Reaches(locs[j], id)
  {
    primaries := map[];
    for i := 0 to |locs|
      invariant forall id, j: nat :: Listed(primaries, id, j) <==> j < i && Reaches(locs[j], id)
    {
      if locs[i].target.Some? && Primary(locs[i]) {
        primaries := Put(primaries, locs[i].target.value.id, i);
      }
    }
  }

  method Restated(locs: seq<Loc>, i: nat, primaries: Index) returns (drop: bool)
    requires i < |locs| && locs[i].target.Some?
    requires forall id, j: nat :: Listed(primaries, id, j) <==> j < |locs| && Reaches(locs[j], id)
    ensures drop == Dropped(locs, i)
  {
    var l, id := locs[i], locs[i].target.value.id;
    var js := if id in primaries then primaries[id] else [];
    assert forall j: nat :: j in js <==> Listed(primaries, id, j);
    assert forall n: nat | n < |js| :: js[n] in js && js[n] < |locs|;
    var n := 0;
    while n < |js| && !(js[n] != i && (!Primary(l) || (locs[js[n]].kind == Prefix && locs[js[n]].path <= l.path)))
      invariant 0 <= n <= |js|
      invariant forall m: nat | m < n :: js[m] == i || !Restates(l, locs[js[m]])
    {
      n := n + 1;
    }
    drop := n < |js|;
    if drop {
      assert Restates(l, locs[js[n]]);
    } else {
      forall j: nat | j < |locs| && j != i ensures !Restates(l, locs[j]) {
        if Reaches(locs[j], id) {
          assert j in js;
        }
      }
    }
  }

  method Kept(locs: seq<Loc>) returns (out: seq<Loc>)
    ensures out == KeptOf(locs)
  {
    var primaries := Primaries(locs);
    out := [];
    for i := 0 to |locs|
      invariant out == KeptUpTo(locs, i)
    {
      if locs[i].target.Some? {
        var drop := Restated(locs, i, primaries);
        if !drop {
          out := out + [locs[i]];
        }
      }
    }
  }

  // ---------------------------------------------------------------------------
  // What dropping loses

  /** A kept plain location reaches the dropped one's upstream; a dropped plain one, under its own path. */
  ghost predicate Covered(locs: seq<Loc>, i: nat)
    requires i < |locs|
  {
    exists j :: 0 <= j < |locs| && IsKept(locs, j) && Restates(locs[i], locs[j])
  }

  ghost predicate AllCovered(locs: seq<Loc>) {
    forall i | 0 <= i < |locs| && Dropped(locs, i) :: Covered(locs, i)
  }

  predicate PrefixTo(l: Loc, id: string) {
    Reaches(l, id) && l.kind == Prefix
  }

  /** The two restate each other: same path, same upstream. */
  predicate Twins(a: Loc, b: Loc) {
    a.target.Some? && PrefixTo(a, a.target.value.id) && PrefixTo(b, a.target.value.id) && a.path == b.path
  }

  /** A strictly shorter prefix location with the same upstream. */
  predicate Shadowed(locs: seq<Loc>, l: Loc) {
    l.target.Some? && exists k :: 0 <= k < |locs| && PrefixTo(locs[k], l.target.value.id) && locs[k].path <= l.path && locs[k].path != l.path
  }

  /** Two prefix locations with one path and one upstream, and nothing shorter above them: each drops the other. */
  ghost predicate MutualLoss(locs: seq<Loc>, i: nat, j: nat)
    requires i < |locs| && j < |locs|
  {
    i != j && Twins(locs[i], locs[j]) && !Shadowed(locs, locs[i])
  }

  /** Of the prefix locations with the upstream over a path, one with the shortest path. */
  lemma {:induction false} Shortest(locs: seq<Loc>, id: string, path: string, n: nat) returns (k: nat)
    requires n < |locs| && PrefixTo(locs[n], id) && locs[n].path <= path
    ensures k < |locs| && PrefixTo(locs[k], id) && locs[k].path <= path
    ensures forall j | 0 <= j < |locs| && PrefixTo(locs[j], id) && locs[j].path <= path :: |locs[k].path| <= |locs[j].path|
    decreases |locs[n].path|
  {
    if j :| 0 <= j < |locs| && PrefixTo(locs[j], id) && locs[j].path <= path && |locs[j].path| < |locs[n].path| {
      k := Shortest(locs, id, path, j);
    } else {
      k := n;
    }
  }

  /** Without a mutual loss the shortest prefix location over a path is kept. */
  lemma ShortestIsKept(locs: seq<Loc>, id: string, path: string, k: nat)
    requires k < |locs| && PrefixTo(locs[k], id) && locs[k].path <= path
    requires forall j | 0 <= j < |locs| && PrefixTo(locs[j], id) && locs[j].path <= path :: |locs[k].path| <= |locs[j].path|
    requires forall i, j | 0 <= i < |locs| && 0 <= j < |locs| :: !MutualLoss(locs, i, j)
    ensures IsKept(locs, k)
  {
    if j :| 0 <= j < |locs| && j != k && Restates(locs[k], locs[j]) {
      assert locs[j].path <= path;
      assert Twins(locs[k], locs[j]);
      assert MutualLoss(locs, k, j);
    }
  }

  lemma CoveredBelow(locs: seq<Loc>, i: nat, j: nat)
    requires i < |locs| && j < |locs| && locs[i].target.Some? && PrefixTo(locs[j], locs[i].target.value.id)
    requires !Primary(locs[i]) || locs[j].path <= locs[i].path
    requires forall i, j | 0 <= i < |locs| && 0 <= j < |locs| :: !MutualLoss(locs, i, j)
    ensures Covered(locs, i)
  {
    var id := locs[i].target.value.id;
    var path := if Primary(locs[i]) then locs[i].path else locs[j].path;
    var k := Shortest(locs, id, path, j);
    ShortestIsKept(locs, id, path, k);
    assert Restates(locs[i], locs[k]);
  }

  /**
   Dropping loses no upstream exactly when no two prefix locations share both path and upstream with
   nothing shorter above them.
   */
  lemma KeptCovers(locs: seq<Loc>)
    ensures AllCovered(locs) <==> forall i, j | 0 <= i < |locs| && 0 <= j < |locs| :: !MutualLoss(locs, i, j)
  {
    if forall i, j | 0 <= i < |locs| && 0 <= j < |locs| :: !MutualLoss(locs, i, j) {
      forall i | 0 <= i < |locs| && Dropped(locs, i) ensures Covered(locs, i) {
        DroppedIsCovered(locs, i);
      }
    }
    forall i, j | 0 <= i < |locs| && 0 <= j < |locs| && MutualLoss(locs, i, j) ensures !AllCovered(locs) {
      LostIsNotCovered(locs, i, j);
    }
  }

  lemma DroppedIsCovered(locs: seq<Loc>, i: nat)
    requires i < |locs| && Dropped(locs, i)
    requires forall i, j | 0 <= i < |locs| && 0 <= j < |locs| :: !MutualLoss(locs, i, j)
    ensures Covered(locs, i)
  {
    var j :| 0 <= j < |locs| && j != i && Restates(locs[i], locs[j]);
    if locs[j].kind == Prefix {
      CoveredBelow(locs, i, j);
    } else if Dropped(locs, j) {
      var k :| 0 <= k < |locs| && k != j && Restates(locs[j], locs[k]);
      CoveredBelow(locs, i, k);
    } else {
      assert IsKept(locs, j);
    }
  }

  lemma LostIsNotCovered(locs: seq<Loc>, i: nat, j: nat)
    requires i < |locs| && j < |locs| && MutualLoss(locs, i, j)
    ensures Dropped(locs, i) && !Covered(locs, i)
  {
    assert Restates(locs[i], locs[j]) && Restates(locs[j], locs[i]);
    forall k | 0 <= k < |locs| && Restates(locs[i], locs[k]) ensures Dropped(locs, k) {
      assert Restates(locs[k], locs[i]) && Restates(locs[k], locs[j]);
    }
  }

  /** Such a pair: the same prefix location twice. Each drops the other, and nothing is left of the upstream. */
  lemma IdenticalPrefixesAreLost(host: string, port: int)
    ensures
      var l := Loc(Prefix, false, "/app", "/app", Some(Target("up", [Member(host, port)])));
      KeptOf([l, l]) == [] && !AllCovered([l, l])
  {
    var l := Loc(Prefix, false, "/app", "/app", Some(Target("up", [Member(host, port)])));
    var locs := [l, l];
    assert Restates(locs[0], locs[1]) && Restates(locs[1], locs[0]);
    assert MutualLoss(locs, 0, 1);
    KeptCovers(locs);
    assert KeptUpTo(locs, 1) == KeptUpTo(locs, 0) == [];
  }

  /** Written out: a location is dropped for one with its upstream that is plain, and over it by a prefix if it is plain itself. */
  lemma DroppedMeans(locs: seq<Loc>, i: nat)
    requires i < |locs|
    ensures Dropped(locs, i) <==> exists j ::
      && 0 <= j < |locs| && j != i && locs[i].target.Some? && locs[j].target.Some? && locs[j].target.value.id == locs[i].target.value.id
      && (locs[j].kind == Prefix || locs[j].kind == Exact) && !locs[j].hidden
      && (locs[i].kind == Regex || locs[i].kind == Named || locs[i].hidden || (locs[j].kind == Prefix && locs[j].path <= locs[i].path))
  {
    forall j | 0 <= j < |locs|
      ensures Restates(locs[i], locs[j]) <==>
        && locs[i].target.Some? && locs[j].target.Some? && locs[j].target.value.id == locs[i].target.value.id
        && (locs[j].kind == Prefix || locs[j].kind == Exact) && !locs[j].hidden
        && (locs[i].kind == Regex || locs[i].kind == Named || locs[i].hidden || (locs[j].kind == Prefix && locs[j].path <= locs[i].path))
    {
    }
  }

  /** What is kept is what leads somewhere and is not dropped, in the order of the file. */
  lemma {:induction false} KeptAre(locs: seq<Loc>, n: nat)
    requires n <= |locs|
    ensures forall l :: l in KeptUpTo(locs, n) <==> exists i :: 0 <= i < n && locs[i] == l && l.target.Some? && !Dropped(locs, i)
  {
    if n > 0 {
      KeptAre(locs, n - 1);
    }
  }
}
