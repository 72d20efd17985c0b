/**
 Which file a configured path really is (internal/connectors/nginx/load.go, candidate, resolve, mapPath,
 within). Paths are absolute and kept as their components; the root is the empty list.
 */
module NginxPaths {
  import opened Results

  type Path = seq<string>

  /** A link's target as written: absolute or not, split at the slashes. */
  datatype Target = Target(absolute: bool, parts: seq<string>)

  /** What lstat says of a path; `Denied` is any error but absence. */
  datatype Stat = Missing | Denied | Directory | Regular | Special | Link(target: Target)

  datatype Error = NotFound | Loops | Outside | NotFile | Unreadable

  /** nginx-side prefixes and where they are mounted, longest prefix first. */
  datatype Mapping = Mapping(from: Path, to: Path)

  datatype Mount = Mount(lstat: Path -> Stat, roots: seq<Path>, maps: seq<Mapping>, hops: nat)

  /** A path lies under a root if the root's components lead it; nothing but itself lies under "/". */
  predicate Under(root: Path, p: Path) {
    p == root || (root != [] && root <= p)
  }

  predicate Inside(m: Mount, p: Path) {
    exists i :: 0 <= i < |m.roots| && Under(m.roots[i], p)
  }

  function Parent(p: Path): Path {
    if |p| == 0 then [] else p[..|p| - 1]
  }

  /** The lexical clean-up of an absolute path. */
  function Clean(parts: seq<string>): Path {
    if |parts| == 0 then []
    else
      var before, c := Clean(parts[..|parts| - 1]), parts[|parts| - 1];
      if c == "" || c == "." then before else if c == ".." then Parent(before) else before + [c]
  }

  function Mapped(maps: seq<Mapping>, p: Path): Path {
    if |maps| == 0 then p
    else if maps[0].from <= p then maps[0].to + p[|maps[0].from|..]
    else Mapped(maps[1..], p)
  }

  /** Where a link's target starts from, and its components: an absolute one is an nginx-side path. */
  function Redirect(m: Mount, cur: Path, t: Target): (Path, seq<string>) {
    if t.absolute then ([], Mapped(m.maps, Clean(t.parts))) else (cur, t.parts)
  }

  // ---------------------------------------------------------------------------
  // What a path means, one component at a time

  datatype Walked = Walked(at: Path, hops: nat)

  /**
   The path reached from `cur` by these components: a link is followed to its end before the next
   component is looked at. `hops` links may still be followed.
   */
  function Walk(m: Mount, cur: Path, parts: seq<string>, hops: nat): (r: Result<Walked, Error>)
    ensures r.Ok? ==> r.value.hops <= hops
    decreases hops, |parts|
  {
    if |parts| == 0 then Ok(Walked(cur, hops))
    else
      var c, rest := parts[0], parts[1..];
      if c == "" || c == "." then Walk(m, cur, rest, hops)
      else if c == ".." then Walk(m, Parent(cur), rest, hops)
      else match m.lstat(cur + [c])
        case Missing => Err(if Inside(m, cur) then NotFound else Outside)
        case Denied => Err(if Inside(m, cur) then Unreadable else Outside)
        case Link(t) =>
          if hops == 0 then Err(Loops)
          else
            var (start, target) := Redirect(m, cur, t);
            (match Walk(m, start, target, hops - 1)
             case Err(e) => Err(e)
             case Ok(w) => Walk(m, w.at, rest, w.hops))
        case _ => Walk(m, cur + [c], rest, hops)
  }

  /** Components may be taken in two goes. */
  lemma {:induction false} WalkOn(m: Mount, cur: Path, a: seq<string>, b: seq<string>, hops: nat)
    ensures Walk(m, cur, a + b, hops) ==
      match Walk(m, cur, a, hops)
      case Err(e) => Err(e)
      case Ok(w) => Walk(m, w.at, b, w.hops)
    decreases hops, |a|
  {
    if |a| == 0 {
      assert a + b == b;
    } else {
      var c, rest := a[0], a[1..];
      assert (a + b)[0] == c && (a + b)[1..] == rest + b;
      if c == "" || c == "." {
        WalkOn(m, cur, rest, b, hops);
      } else if c == ".." {
        WalkOn(m, Parent(cur), rest, b, hops);
      } else {
        match m.lstat(cur + [c]) {
          case Missing =>
          case Denied =>
          case Link(t) =>
            if hops > 0 {
              var (start, target) := Redirect(m, cur, t);
              var w := Walk(m, start, target, hops - 1);
              if w.Ok? {
                WalkOn(m, w.value.at, rest, b, w.value.hops);
              }
            }
          case _ => WalkOn(m, cur + [c], rest, b, hops);
        }
      }
    }
  }

  /** No prefix of the path is a link, nor missing. */
  predicate Physical(m: Mount, p: Path) {
    forall k | 0 < k <= |p| :: !m.lstat(p[..k]).Link? && !m.lstat(p[..k]).Missing? && !m.lstat(p[..k]).Denied?
  }

  lemma PhysicalParent(m: Mount, p: Path)
    requires Physical(m, p)
    ensures Physical(m, Parent(p))
  {
    forall k | 0 < k <= |Parent(p)| ensures Parent(p)[..k] == p[..k] {
    }
  }

  lemma PhysicalChild(m: Mount, p: Path, c: string)
    requires Physical(m, p) && !m.lstat(p + [c]).Link? && !m.lstat(p + [c]).Missing? && !m.lstat(p + [c]).Denied?
    ensures Physical(m, p + [c])
  {
    forall k | 0 < k <= |p| + 1 ensures (p + [c])[..k] == if k <= |p| then p[..k] else p + [c] {
    }
  }

  /** Follows every link on the way, in one loop over the components still to come. */
  method ResolvePath(m: Mount, parts: seq<string>) returns (r: Result<Path, Error>)
    ensures r == match Walk(m, [], parts, m.hops) case Ok(w) => Ok(w.at) case Err(e) => Err(e)
    ensures r.Ok? ==> Physical(m, r.value)
  {
    var rest, cur, hops := parts, [], 0;
    r := Ok([]);
    while |rest| > 0 && r.Ok?
      invariant hops <= m.hops && Physical(m, cur)
      invariant r.Ok? ==> Walk(m, [], parts, m.hops) == Walk(m, cur, rest, m.hops - hops)
      invariant r.Err? ==> Walk(m, [], parts, m.hops) == Err(r.error)
      decreases r.Ok?, m.hops - hops, |rest|
    {
      var c := rest[0];
      rest := rest[1..];
      if c == "" || c == "." {
      } else if c == ".." {
        PhysicalParent(m, cur);
        cur := Parent(cur);
      } else {
        var stat := m.lstat(cur + [c]);
        if stat.Missing? || stat.Denied? {
          r := Err(if !Inside(m, cur) then Outside else if stat.Missing? then NotFound else Unreadable);
        } else if !stat.Link? {
          PhysicalChild(m, cur, c);
          cur := cur + [c];
        } else if hops + 1 > m.hops {
          r := Err(Loops);
        } else {
          hops := hops + 1;
          var target := stat.target.parts;
          if stat.target.absolute {
            target := Mapped(m.maps, Clean(target));
            cur := [];
          }
          WalkOn(m, cur, target, rest, m.hops - hops);
          rest := target + rest;
        }
      }
    }
    if r.Ok? {
      r := Ok(cur);
    }
  }

  /** A configured path is admitted only as a regular file whose real place is inside the mounted roots. */
  method Candidate(m: Mount, parts: seq<string>) returns (r: Result<Path, Error>)
    ensures r.Ok? ==>
      Physical(m, r.value) && Inside(m, r.value) && m.lstat(r.value).Regular? &&
      exists hops :: Walk(m, [], parts, m.hops) == Ok(Walked(r.value, hops))
    ensures r.Err? ==>
      match Walk(m, [], parts, m.hops)
      case Err(e) => r.error == e
      case Ok(w) => if Inside(m, w.at) then !m.lstat(w.at).Regular? else r.error == Outside
  {
    r := ResolvePath(m, parts);
    if r.Ok? {
      var inside := Within(m, r.value);
      var stat := m.lstat(r.value);
      if !inside {
        r := Err(Outside);
      } else if stat.Missing? || stat.Denied? {
        r := Err(Unreadable);
      } else if !stat.Regular? {
        r := Err(NotFile);
      }
    }
  }

  method Within(m: Mount, p: Path) returns (inside: bool)
    ensures inside == Inside(m, p)
  {
    var i := 0;
    while i < |m.roots| && !Under(m.roots[i], p)
      invariant 0 <= i <= |m.roots| && forall j | 0 <= j < i :: !Under(m.roots[j], p)
    {
      i := i + 1;
    }
    inside := i < |m.roots|;
  }

  // ---------------------------------------------------------------------------
  // What walking and mapping come to

  predicate PlainName(c: string) {
    c != "" && c != "." && c != ".."
  }

  /** The clean-up leaves plain names alone, and takes away a name with the ".." after it. */
  lemma {:induction false} CleanIs(parts: seq<string>, c: string)
    ensures forall x <- Clean(parts) :: PlainName(x)
    ensures PlainName(c) ==> Clean(parts + [c]) == Clean(parts) + [c] && Clean(parts + [c, ".."]) == Clean(parts)
    ensures Clean(parts + [""]) == Clean(parts) && Clean(parts + ["."]) == Clean(parts)
    ensures Clean([".."] + parts) == Clean(parts)
  {
    assert (parts + [c])[..|parts|] == parts && (parts + [c, ".."])[..|parts| + 1] == parts + [c];
    assert (parts + [""])[..|parts|] == parts && (parts + ["."])[..|parts|] == parts;
    if |parts| > 0 {
      CleanIs(parts[..|parts| - 1], c);
      assert ([".."] + parts)[..|parts|] == [".."] + parts[..|parts| - 1];
    } else {
      assert [".."] + parts == [".."];
      assert [".."][..0] == [];
    }
  }

  /** Where nothing is a link or missing, walking is the lexical clean-up. */
  lemma {:induction false} WithoutLinksWalkCleans(m: Mount, parts: seq<string>, hops: nat)
    requires forall p :: m.lstat(p).Directory? || m.lstat(p).Regular?
    ensures Walk(m, [], parts, hops) == Ok(Walked(Clean(parts), hops))
  {
    if |parts| > 0 {
      var init, c := parts[..|parts| - 1], parts[|parts| - 1];
      assert parts == init + [c];
      WithoutLinksWalkCleans(m, init, hops);
      WalkOn(m, [], init, [c], hops);
      assert m.lstat(Clean(init) + [c]).Directory? || m.lstat(Clean(init) + [c]).Regular?;
      assert [c][1..] == [];
    }
  }

  /** A link is replaced by its target: where it stands, or at the mapped place if the target is absolute. */
  lemma LinkIsFollowed(m: Mount, cur: Path, c: string, rest: seq<string>, hops: nat)
    requires PlainName(c) && m.lstat(cur + [c]).Link? && hops > 0
    ensures
      var t := m.lstat(cur + [c]).target;
      Walk(m, cur, [c] + rest, hops)
      == if t.absolute then Walk(m, [], Mapped(m.maps, Clean(t.parts)) + rest, hops - 1) else Walk(m, cur, t.parts + rest, hops - 1)
  {
    var t := m.lstat(cur + [c]).target;
    assert ([c] + rest)[1..] == rest;
    if t.absolute {
      WalkOn(m, [], Mapped(m.maps, Clean(t.parts)), rest, hops - 1);
    } else {
      WalkOn(m, cur, t.parts, rest, hops - 1);
    }
  }

  /** The first mapping whose prefix leads the path decides where it goes. */
  lemma {:induction false} FirstMappingDecides(maps: seq<Mapping>, p: Path, i: nat)
    requires i < |maps| && maps[i].from <= p && forall j | 0 <= j < i :: !(maps[j].from <= p)
    ensures Mapped(maps, p) == maps[i].to + p[|maps[i].from|..]
  {
    if i > 0 {
      assert forall j | 0 <= j < |maps| - 1 :: maps[1..][j] == maps[j + 1];
      FirstMappingDecides(maps[1..], p, i - 1);
    }
  }

  /** Without one it stays. */
  lemma {:induction false} UnmappedStays(maps: seq<Mapping>, p: Path)
    requires forall i | 0 <= i < |maps| :: !(maps[i].from <= p)
    ensures Mapped(maps, p) == p
  {
    if |maps| > 0 {
      UnmappedStays(maps[1..], p);
    }
  }
}
