/**
 Include expansion (internal/connectors/nginx/load.go, loader.read and loader.expand).

 The loader shares the nodes of a parsed file among all its includes, so nodes live on the heap here:
 the loader may change itself and allocate, and nothing else. `Splice` says on values what comes out.
 */
module NginxLoad {
  import opened Results
  import NginxParse

  type Directive = NginxParse.Directive

  datatype Limits = Limits(
    fileBytes: nat, totalBytes: nat, files: nat, includes: nat, directives: nat, includeDepth: nat, parse: NginxParse.Limits)

  /** The mounted files: what can be read under a path, how a path is shown, which files an include's arguments name. */
  datatype Disk = Disk(text: string -> Option<string>, shown: string -> string, targets: seq<string> -> Option<seq<string>>)

  // ---------------------------------------------------------------------------
  // What expansion means

  function Size(disk: Disk, f: string): nat {
    if disk.text(f).Some? then |disk.text(f).value| else 0
  }

  /** A file's directives, if it can be read, is not too large and parses. */
  function Parsed(disk: Disk, lim: Limits, f: string): Option<seq<Directive>> {
    if disk.text(f).None? || Size(disk, f) > lim.fileBytes then None
    else match NginxParse.Parse(disk.text(f).value, disk.shown(f), lim.parse)
      case Ok(ds) => Some(ds)
      case Err(_) => None
  }

  /** What comes out, how many directives and includes were gone through on the way, and which files. */
  datatype Out = Out(ds: seq<Directive>, visits: nat, includes: nat, files: set<string>)

  const NOTHING := Out([], 0, 0, {})

  function Join(a: Option<Out>, b: Option<Out>): Option<Out> {
    if a.None? || b.None? then None
    else Some(Out(a.value.ds + b.value.ds, a.value.visits + b.value.visits, a.value.includes + b.value.includes,
                  a.value.files + b.value.files))
  }

  /** How much deeper includes may nest. */
  function Room(lim: Limits, stack: seq<string>): nat {
    if |stack| >= lim.includeDepth then 0 else lim.includeDepth - |stack|
  }

  /** The directives with every include replaced by what its files splice to; `stack` is the chain of open files. */
  function Splice(disk: Disk, lim: Limits, ds: seq<Directive>, stack: seq<string>): Option<Out>
    decreases 2 * Room(lim, stack) + 1, ds, 0
  {
    if |ds| == 0 then Some(NOTHING)
    else
      var last := ds[|ds| - 1];
      assert last in ds;
      Join(Splice(disk, lim, ds[..|ds| - 1], stack), SpliceOne(disk, lim, last, stack))
  }

  function SpliceOne(disk: Disk, lim: Limits, d: Directive, stack: seq<string>): Option<Out>
    decreases 2 * Room(lim, stack) + 1, d, 1
  {
    if d.name == "include" then
      if disk.targets(d.args).None? then None
      else Join(Some(Out([], 1, 0, {})), SpliceFiles(disk, lim, disk.targets(d.args).value, stack))
    else if d.block == [] then Some(Out([d], 1, 0, {}))
    else match Splice(disk, lim, d.block, stack)
      case None => None
      case Some(o) => Some(o.(ds := [d.(block := o.ds)], visits := o.visits + 1))
  }

  function SpliceFiles(disk: Disk, lim: Limits, fs: seq<string>, stack: seq<string>): Option<Out>
    decreases 2 * Room(lim, stack), |fs|
  {
    if |fs| == 0 then Some(NOTHING)
    else Join(SpliceFiles(disk, lim, fs[..|fs| - 1], stack), SpliceFile(disk, lim, fs[|fs| - 1], stack))
  }

  /** One included file: not one that is open already, and not too deep. */
  function SpliceFile(disk: Disk, lim: Limits, f: string, stack: seq<string>): Option<Out>
    decreases 2 * Room(lim, stack), 0
  {
    if f in stack || |stack| >= lim.includeDepth || Parsed(disk, lim, f).None? then None
    else Join(Some(Out([], 0, 1, {f})), Splice(disk, lim, Parsed(disk, lim, f).value, stack + [f]))
  }

  // ---------------------------------------------------------------------------
  // Nodes on the heap

  /** A directive as the parser allocates it. Nodes may be shared, but never lie under themselves. */
  class Node {
    var name: string
    var args: seq<string>
    var file: string
    var line: nat
    var isBlock: bool
    var block: seq<Node>
    ghost var repr: set<Node>

    ghost predicate Valid()
      reads this, repr
      decreases repr
    {
      this in repr &&
      forall i | 0 <= i < |block| :: block[i] in repr && block[i].repr <= repr && this !in block[i].repr && block[i].Valid()
    }

    /** The tree below the node, as a value. */
    ghost function Tree(): (d: Directive)
      requires Valid()
      reads this, repr
      decreases repr
      ensures d.name == name && d.args == args && |d.block| == |block|
    {
      NginxParse.Directive(name, args, file, line, isBlock,
        seq(|block|, i requires Valid() && 0 <= i < |block| reads this, repr => block[i].Tree()))
    }

    constructor (name: string, args: seq<string>, file: string, line: nat, isBlock: bool, block: seq<Node>)
      requires AllValid(block)
      ensures Valid() && Tree() == NginxParse.Directive(name, args, file, line, isBlock, Trees(block))
      ensures this.name == name && this.args == args && this.block == block
    {
      this.name, this.args, this.file, this.line, this.isBlock, this.block := name, args, file, line, isBlock, block;
      repr := {this} + Footprint(block);
    }
  }

  ghost function Footprint(ns: seq<Node>): set<Node>
    reads ns
  {
    set i, n | 0 <= i < |ns| && n in ns[i].repr :: n
  }

  ghost predicate AllValid(ns: seq<Node>)
    reads ns, Footprint(ns)
  {
    forall i | 0 <= i < |ns| :: ns[i].Valid()
  }

  ghost function Trees(ns: seq<Node>): (ds: seq<Directive>)
    requires AllValid(ns)
    reads ns, Footprint(ns)
    ensures |ds| == |ns| && forall i | 0 <= i < |ns| :: ds[i] == ns[i].Tree()
  {
    seq(|ns|, i requires AllValid(ns) && 0 <= i < |ns| reads ns, Footprint(ns) => ns[i].Tree())
  }

  lemma TreesJoin(a: seq<Node>, b: seq<Node>)
    requires AllValid(a) && AllValid(b)
    ensures AllValid(a + b) && Trees(a + b) == Trees(a) + Trees(b)
  {
    forall i | 0 <= i < |a + b| ensures (a + b)[i].Valid() {
    }
  }

  /** The parser's result, allocated. */
  method Build(ds: seq<Directive>) returns (ns: seq<Node>)
    ensures AllValid(ns) && Trees(ns) == ds
    decreases ds
  {
    ns := [];
    for i := 0 to |ds|
      invariant AllValid(ns) && Trees(ns) == ds[..i]
    {
      var d := ds[i];
      assert d in ds;
      var children := Build(d.block);
      var n := new Node(d.name, d.args, d.file, d.line, d.isBlock, children);
      assert n.Tree() == d;
      assert Trees([n]) == [d];
      TreesJoin(ns, [n]);
      assert ds[..i + 1] == ds[..i] + [d];
      ns := ns + [n];
    }
    assert ds[..|ds|] == ds;
  }

  method ParseNodes(disk: Disk, lim: Limits, f: string, text: string) returns (r: Option<seq<Node>>)
    requires disk.text(f) == Some(text) && |text| <= lim.fileBytes
    ensures r.Some? <==> Parsed(disk, lim, f).Some?
    ensures r.Some? ==> AllValid(r.value) && Parsed(disk, lim, f) == Some(Trees(r.value))
  {
    var parsed := NginxParse.ParseFile(text, disk.shown(f), lim.parse);
    hide NginxParse.Parse;
    r := None;
    if parsed.Ok? {
      var ns := Build(parsed.value);
      r := Some(ns);
    }
  }

  lemma Roots(ns: seq<Node>)
    requires AllValid(ns)
    ensures forall i | 0 <= i < |ns| :: ns[i] in Footprint(ns) && ns[i].repr <= Footprint(ns)
  {
  }

  // ---------------------------------------------------------------------------
  // The limits over a whole scan

  ghost function TotalSize(disk: Disk, fs: set<string>): nat {
    if fs == {} then 0
    else
      var f :| f in fs;
      Size(disk, f) + TotalSize(disk, fs - {f})
  }

  lemma {:induction false} SizeOfOne(disk: Disk, fs: set<string>, f: string)
    requires f in fs
    ensures TotalSize(disk, fs) == Size(disk, f) + TotalSize(disk, fs - {f})
  {
    var g :| g in fs && TotalSize(disk, fs) == Size(disk, g) + TotalSize(disk, fs - {g});
    if g != f {
      SizeOfOne(disk, fs - {g}, f);
      SizeOfOne(disk, fs - {f}, g);
      assert fs - {g} - {f} == fs - {f} - {g};
    }
  }

  lemma {:induction false} SizeGrows(disk: Disk, a: set<string>, b: set<string>)
    requires a <= b
    ensures TotalSize(disk, a) <= TotalSize(disk, b)
  {
    if a != b {
      var f :| f in b && f !in a;
      SizeGrows(disk, a, b - {f});
      SizeOfOne(disk, b, f);
    }
  }

  /** What a scan has used up so far. */
  datatype Tally = Tally(count: nat, includes: nat, files: set<string>)

  function After(t: Tally, o: Out): Tally {
    Tally(t.count + o.visits, t.includes + o.includes, t.files + o.files)
  }

  ghost predicate Within(disk: Disk, lim: Limits, t: Tally) {
    t.count <= lim.directives && t.includes <= lim.includes && |t.files| <= lim.files && TotalSize(disk, t.files) <= lim.totalBytes
  }

  /** It splices, and what that takes is still to be had. */
  ghost predicate Fits(disk: Disk, lim: Limits, t: Tally, o: Option<Out>) {
    o.Some? && Within(disk, lim, After(t, o.value))
  }

  lemma SmallerFits(disk: Disk, lim: Limits, t: Tally, u: Tally)
    requires Within(disk, lim, u) && t.count <= u.count && t.includes <= u.includes && t.files <= u.files
    ensures Within(disk, lim, t)
  {
    SizeGrows(disk, t.files, u.files);
    Fewer(t.files, u.files);
  }

  /** Two parts fit together exactly if the first fits and the second fits after it. */
  lemma FitsJoin(disk: Disk, lim: Limits, t: Tally, a: Option<Out>, b: Option<Out>)
    ensures Fits(disk, lim, t, Join(a, b)) <==> Fits(disk, lim, t, a) && Fits(disk, lim, After(t, a.value), b)
  {
    if a.Some? && b.Some? {
      var u := After(After(t, a.value), b.value);
      assert After(t, Join(a, b).value) == u;
      if Within(disk, lim, u) {
        SmallerFits(disk, lim, After(t, a.value), u);
      }
    }
  }

  // ---------------------------------------------------------------------------
  // The loader

  /** The nodes, all among the loader's own, are the file's directives. */
  ghost predicate Holds(disk: Disk, lim: Limits, f: string, ns: seq<Node>, nodes: set<Node>)
    reads nodes
  {
    && (forall i | 0 <= i < |ns| :: ns[i] in nodes && ns[i].repr <= nodes)
    && AllValid(ns) && Parsed(disk, lim, f) == Some(Trees(ns))
  }

  lemma HoldsMore(disk: Disk, lim: Limits, f: string, ns: seq<Node>, nodes: set<Node>, more: set<Node>)
    requires Holds(disk, lim, f, ns, nodes)
    ensures Holds(disk, lim, f, ns, nodes + more)
  {
  }

  lemma HoldsNew(disk: Disk, lim: Limits, f: string, ns: seq<Node>, nodes: set<Node>)
    requires AllValid(ns) && Parsed(disk, lim, f) == Some(Trees(ns))
    ensures Holds(disk, lim, f, ns, nodes + Footprint(ns))
  {
    Roots(ns);
  }

  /** The nodes are these directives. */
  ghost predicate Yields(out: seq<Node>, ds: seq<Directive>)
    reads out, Footprint(out)
  {
    AllValid(out) && Trees(out) == ds
  }

  lemma YieldsJoin(a: seq<Node>, b: seq<Node>, x: seq<Directive>, y: seq<Directive>)
    requires Yields(a, x) && Yields(b, y)
    ensures Yields(a + b, x + y)
  {
    TreesJoin(a, b);
  }

  lemma NothingYields()
    ensures Yields([], [])
  {
  }

  lemma OneYields(n: Node)
    requires n.Valid()
    ensures Yields([n], [n.Tree()])
  {
  }

  class Loader {
    const disk: Disk
    const lim: Limits
    var cache: map<string, seq<Node>>
    var bytes: nat
    var files: nat
    var includes: nat
    var count: nat
    ghost var nodes: set<Node>

    /** Every cached file holds what parsing it gave, however often it has been included since. */
    ghost predicate Valid()
      reads this, nodes
    {
      && files == |cache.Keys|
      && bytes == TotalSize(disk, cache.Keys)
      && Within(disk, lim, Used())
      && (forall f <- cache :: Holds(disk, lim, f, cache[f], nodes))
    }

    ghost function Used(): Tally
      reads this
    {
      Tally(count, includes, cache.Keys)
    }

    constructor (disk: Disk, lim: Limits)
      ensures Valid() && this.disk == disk && this.lim == lim && Used() == Tally(0, 0, {})
    {
      this.disk, this.lim := disk, lim;
      cache, bytes, files, includes, count, nodes := map[], 0, 0, 0, 0, {};
    }

    /** Keeps a file's nodes for the next include of it. */
    method Keep(f: string, ns: seq<Node>)
      requires Valid() && f !in cache && AllValid(ns) && Parsed(disk, lim, f) == Some(Trees(ns))
      requires Within(disk, lim, Used().(files := cache.Keys + {f}))
      modifies this
      ensures Valid() && Used() == old(Used()).(files := old(cache).Keys + {f})
      ensures cache == old(cache)[f := ns] && nodes == old(nodes) + Footprint(ns)
    {
      hide Holds, Parsed, Within, Node.Valid, Node.Tree, Footprint;
      SizeOfOne(disk, cache.Keys + {f}, f);
      assert cache.Keys + {f} - {f} == cache.Keys;
      forall g <- cache ensures Holds(disk, lim, g, cache[g], nodes + Footprint(ns)) {
        HoldsMore(disk, lim, g, cache[g], nodes, Footprint(ns));
      }
      HoldsNew(disk, lim, f, ns, nodes);
      files, bytes := files + 1, bytes + Size(disk, f);
      nodes := nodes + Footprint(ns);
      cache := cache[f := ns];
      assert cache.Keys == old(cache).Keys + {f};
    }

    /** One file, parsed once per scan. */
    method Read(f: string) returns (r: Option<seq<Node>>)
      requires Valid()
      modifies this
      ensures r.Some? <==> Parsed(disk, lim, f).Some? && Within(disk, lim, old(Used()).(files := old(cache).Keys + {f}))
      ensures r.Some? ==>
        && Valid() && Used() == old(Used()).(files := old(cache).Keys + {f})
        && AllValid(r.value) && Some(Trees(r.value)) == Parsed(disk, lim, f)
        && (forall g <- old(cache) :: g in cache && cache[g] == old(cache[g]))
    {
      r := None;
      if f in cache {
        assert cache.Keys + {f} == cache.Keys;
        r := Some(cache[f]);
      } else {
        var text := disk.text(f);
        SizeOfOne(disk, cache.Keys + {f}, f);
        assert cache.Keys + {f} - {f} == cache.Keys;
        if text.Some? && |text.value| <= lim.fileBytes && files + 1 <= lim.files && bytes + |text.value| <= lim.totalBytes {
          r := ParseNodes(disk, lim, f, text.value);
          if r.Some? {
            Keep(f, r.value);
          }
        }
      }
    }

    /** A step went through: what it used up is counted, and every cached file is as it was. */
    ghost predicate Went(t: Tally, kept: map<string, seq<Node>>, o: Out)
      reads this, nodes
    {
      Valid() && Used() == After(t, o) && forall f <- kept :: f in cache && cache[f] == kept[f]
    }

    /** One included file. */
    method ExpandFile(f: string, stack: seq<string>) returns (r: Option<seq<Node>>)
      requires Valid()
      modifies this
      decreases 2 * Room(lim, stack), 0
      ensures r.Some? <==> Fits(disk, lim, old(Used()), SpliceFile(disk, lim, f, stack))
      ensures r.Some? ==>
        var o := SpliceFile(disk, lim, f, stack).value;
        Went(old(Used()), old(cache), o) && Yields(r.value, o.ds)
    {
      hide Splice, SpliceFile, Holds, Parsed, Within, Yields, Node.Valid, Node.Tree, Footprint;
      ghost var t := Used();
      FileFits(disk, lim, t, f, stack);
      r := None;
      includes := includes + 1;
      if includes <= lim.includes && f !in stack && |stack| < lim.includeDepth {
        OneInclude(disk, lim, t);
        var sub := Read(f);
        if sub.Some? {
          assert Used() == Opening(t, f);
          r := Expand(sub.value, stack + [f]);
        }
      }
    }

    /** The files one include names. */
    method ExpandFiles(fs: seq<string>, stack: seq<string>) returns (r: Option<seq<Node>>)
      requires Valid()
      modifies this
      decreases 2 * Room(lim, stack), |fs| + 1
      ensures r.Some? <==> Fits(disk, lim, old(Used()), SpliceFiles(disk, lim, fs, stack))
      ensures r.Some? ==>
        var o := SpliceFiles(disk, lim, fs, stack).value;
        Went(old(Used()), old(cache), o) && Yields(r.value, o.ds)
    {
      hide SpliceFile, SpliceFiles, Within, Holds, Node.Valid, Node.Tree, Footprint;
      ghost var t, kept := Used(), cache;
      NoFiles(disk, lim, t, fs[..0], stack);
      NothingYields();
      r := Some([]);
      var i := 0;
      while i < |fs| && r.Some?
        invariant 0 <= i <= |fs|
        invariant r.Some? <==> Fits(disk, lim, t, SpliceFiles(disk, lim, fs[..i], stack))
        invariant r.Some? ==> Went(t, kept, SpliceFiles(disk, lim, fs[..i], stack).value) && Yields(r.value, SpliceFiles(disk, lim, fs[..i], stack).value.ds)
      {
        NextFile(disk, lim, t, fs, i, stack);
        var before := r.value;
        r := ExpandFile(fs[i], stack);
        if r.Some? {
          YieldsJoin(before, r.value, SpliceFiles(disk, lim, fs[..i], stack).value.ds, SpliceFile(disk, lim, fs[i], stack).value.ds);
          r := Some(before + r.value);
        }
        i := i + 1;
      }
      FirstFiles(disk, lim, t, fs, i, stack);
      assert fs[..|fs|] == fs;
    }

    /** One directive. */
    method ExpandOne(d: Node, stack: seq<string>) returns (r: Option<seq<Node>>)
      requires Valid() && d.Valid()
      modifies this
      decreases 2 * Room(lim, stack) + 1, d.Tree(), 1
      ensures r.Some? <==> Fits(disk, lim, old(Used()), SpliceOne(disk, lim, old(d.Tree()), stack))
      ensures r.Some? ==>
        var o := SpliceOne(disk, lim, old(d.Tree()), stack).value;
        Went(old(Used()), old(cache), o) && Yields(r.value, o.ds)
    {
      hide SpliceFiles, Splice, SpliceOne, Within, Holds, Node.Valid, Node.Tree;
      ghost var t, tree := Used(), d.Tree();
      OneFits(disk, lim, t, tree, stack);
      r := None;
      count := count + 1;
      if count <= lim.directives {
        OneMore(disk, lim, t);
        if d.name == "include" {
          var targets := disk.targets(d.args);
          if targets.Some? {
            r := ExpandFiles(targets.value, stack);
          }
        } else if |d.block| > 0 {
          r := ExpandBlock(d, stack);
        } else {
          r := Some([d]);
          OneYields(d);
        }
      }
    }

    /** A block's children, under a copy of its head. */
    method ExpandBlock(d: Node, stack: seq<string>) returns (r: Option<seq<Node>>)
      requires Valid() && d.Valid()
      modifies this
      decreases 2 * Room(lim, stack) + 1, d.Tree(), 0
      ensures r.Some? <==> Fits(disk, lim, old(Used()), Splice(disk, lim, old(d.Tree()).block, stack))
      ensures r.Some? ==>
        var o := Splice(disk, lim, old(d.Tree()).block, stack).value;
        Went(old(Used()), old(cache), o) && Yields(r.value, [old(d.Tree()).(block := o.ds)])
    {
      hide Splice, Holds, Node.Valid, Node.Tree;
      ghost var tree := d.Tree();
      Children(d);
      var children := Expand(d.block, stack);
      r := None;
      if children.Some? {
        var nd := new Node(d.name, d.args, d.file, d.line, d.isBlock, children.value);
        OneYields(nd);
        assert Trees(children.value) == Splice(disk, lim, tree.block, stack).value.ds;
        assert nd.Tree() == tree.(block := Trees(children.value));
        r := Some([nd]);
      }
    }

    /** Splices included files in place of their includes. */
    method Expand(ds: seq<Node>, stack: seq<string>) returns (r: Option<seq<Node>>)
      requires Valid() && AllValid(ds)
      modifies this
      decreases 2 * Room(lim, stack) + 1, Trees(ds), 0
      ensures r.Some? <==> Fits(disk, lim, old(Used()), Splice(disk, lim, old(Trees(ds)), stack))
      ensures r.Some? ==>
        var o := Splice(disk, lim, old(Trees(ds)), stack).value;
        Went(old(Used()), old(cache), o) && Yields(r.value, o.ds)
    {
      hide Splice, SpliceOne, Within, Holds, Node.Valid, Node.Tree, Footprint;
      ghost var t, kept, trees := Used(), cache, Trees(ds);
      NoDirectives(disk, lim, t, trees[..0], stack);
      NothingYields();
      hide Fits, Join, After;
      r := Some([]);
      var i := 0;
      while i < |ds| && r.Some?
        invariant 0 <= i <= |ds|
        invariant AllValid(ds) && Trees(ds) == trees
        invariant r.Some? <==> Fits(disk, lim, t, Splice(disk, lim, trees[..i], stack))
        invariant r.Some? ==> Went(t, kept, Splice(disk, lim, trees[..i], stack).value) && Yields(r.value, Splice(disk, lim, trees[..i], stack).value.ds)
      {
        NextDirective(disk, lim, t, trees, i, stack);
        assert trees[i] in trees;
        var before := r.value;
        r := ExpandOne(ds[i], stack);
        if r.Some? {
          YieldsJoin(before, r.value, Splice(disk, lim, trees[..i], stack).value.ds, SpliceOne(disk, lim, trees[i], stack).value.ds);
          r := Some(before + r.value);
        }
        i := i + 1;
      }
      FirstDirectives(disk, lim, t, trees, i, stack);
      assert trees[..|trees|] == trees;
    }
  }

  lemma Children(d: Node)
    requires d.Valid()
    ensures AllValid(d.block)
    ensures d.Tree() == NginxParse.Directive(d.name, d.args, d.file, d.line, d.isBlock, Trees(d.block))
  {
  }

  lemma OneFits(disk: Disk, lim: Limits, t: Tally, d: Directive, stack: seq<string>)
    requires Within(disk, lim, t)
    ensures
      var u := t.(count := t.count + 1);
      var o := SpliceOne(disk, lim, d, stack);
      if d.name == "include" then
        (Fits(disk, lim, t, o) <==>
          (u.count <= lim.directives && disk.targets(d.args).Some? &&
           Fits(disk, lim, u, SpliceFiles(disk, lim, disk.targets(d.args).value, stack)))) &&
        (o.Some? ==>
          var p := SpliceFiles(disk, lim, disk.targets(d.args).value, stack);
          p.Some? && o.value.ds == p.value.ds && After(t, o.value) == After(u, p.value))
      else if d.block == [] then
        o.Some? && o.value.ds == [d] && After(t, o.value) == u && (Fits(disk, lim, t, o) <==> u.count <= lim.directives)
      else
        var p := Splice(disk, lim, d.block, stack);
        (Fits(disk, lim, t, o) <==> u.count <= lim.directives && Fits(disk, lim, u, p)) &&
        (o.Some? ==> p.Some? && o.value.ds == [d.(block := p.value.ds)] && After(t, o.value) == After(u, p.value))
  {
    hide SpliceFiles, Splice;
    var u, first := t.(count := t.count + 1), Some(Out([], 1, 0, {}));
    assert After(t, first.value) == u;
    if d.name == "include" && disk.targets(d.args).Some? {
      var p := SpliceFiles(disk, lim, disk.targets(d.args).value, stack);
      FitsJoin(disk, lim, t, first, p);
      JoinAfter(t, first, p);
    } else if d.name != "include" && d.block != [] {
      var p := Splice(disk, lim, d.block, stack);
      FitsJoin(disk, lim, t, first, p);
      JoinAfter(t, first, p);
      if p.Some? {
        assert After(t, SpliceOne(disk, lim, d, stack).value) == After(u, p.value);
      }
    }
  }

  lemma NoDirectives(disk: Disk, lim: Limits, t: Tally, ds: seq<Directive>, stack: seq<string>)
    requires Within(disk, lim, t) && ds == []
    ensures Splice(disk, lim, ds, stack) == Some(NOTHING) && After(t, NOTHING) == t
    ensures Fits(disk, lim, t, Splice(disk, lim, ds, stack))
  {
    assert t.files + {} == t.files;
  }

  lemma NextDirective(disk: Disk, lim: Limits, t: Tally, ds: seq<Directive>, i: nat, stack: seq<string>)
    requires i < |ds|
    ensures
      var a, b := Splice(disk, lim, ds[..i], stack), SpliceOne(disk, lim, ds[i], stack);
      Splice(disk, lim, ds[..i + 1], stack) == Join(a, b) &&
      (Fits(disk, lim, t, Join(a, b)) <==> Fits(disk, lim, t, a) && Fits(disk, lim, After(t, a.value), b)) &&
      (a.Some? && b.Some? ==> After(t, Join(a, b).value) == After(After(t, a.value), b.value))
  {
    hide SpliceOne;
    assert ds[..i + 1][..i] == ds[..i];
    var a, b := Splice(disk, lim, ds[..i], stack), SpliceOne(disk, lim, ds[i], stack);
    FitsJoin(disk, lim, t, a, b);
    JoinAfter(t, a, b);
  }

  lemma {:induction false} FirstDirectives(disk: Disk, lim: Limits, t: Tally, ds: seq<Directive>, i: nat, stack: seq<string>)
    requires i <= |ds|
    ensures Fits(disk, lim, t, Splice(disk, lim, ds, stack)) ==> Fits(disk, lim, t, Splice(disk, lim, ds[..i], stack))
    decreases |ds|
  {
    if i < |ds| {
      var n := |ds| - 1;
      assert ds[..n + 1] == ds && ds[..n][..i] == ds[..i];
      NextDirective(disk, lim, t, ds, n, stack);
      FirstDirectives(disk, lim, t, ds[..n], i, stack);
    } else {
      assert ds[..i] == ds;
    }
  }

  lemma OneMore(disk: Disk, lim: Limits, t: Tally)
    requires Within(disk, lim, t) && t.count + 1 <= lim.directives
    ensures Within(disk, lim, t.(count := t.count + 1))
  {
  }

  lemma OneInclude(disk: Disk, lim: Limits, t: Tally)
    requires Within(disk, lim, t) && t.includes + 1 <= lim.includes
    ensures Within(disk, lim, t.(includes := t.includes + 1))
  {
  }

  /** The tally once a file is about to be spliced. */
  function Opening(t: Tally, f: string): Tally {
    t.(includes := t.includes + 1, files := t.files + {f})
  }

  lemma FileFits(disk: Disk, lim: Limits, t: Tally, f: string, stack: seq<string>)
    requires Within(disk, lim, t)
    ensures Fits(disk, lim, t, SpliceFile(disk, lim, f, stack)) <==>
      && f !in stack && |stack| < lim.includeDepth && t.includes + 1 <= lim.includes && Parsed(disk, lim, f).Some?
      && Within(disk, lim, Opening(t, f)) && Fits(disk, lim, Opening(t, f), Splice(disk, lim, Parsed(disk, lim, f).value, stack + [f]))
    ensures SpliceFile(disk, lim, f, stack).Some? ==>
      var o, all := Splice(disk, lim, Parsed(disk, lim, f).value, stack + [f]).value, SpliceFile(disk, lim, f, stack).value;
      all.ds == o.ds && After(t, all) == After(Opening(t, f), o)
  {
    hide Splice, Parsed;
    if f !in stack && |stack| < lim.includeDepth && Parsed(disk, lim, f).Some? {
      var first, rest := Some(Out([], 0, 1, {f})), Splice(disk, lim, Parsed(disk, lim, f).value, stack + [f]);
      assert After(t, first.value) == Opening(t, f);
      assert Within(disk, lim, Opening(t, f)) ==> t.includes + 1 <= lim.includes;
      FitsJoin(disk, lim, t, first, rest);
      JoinAfter(t, first, rest);
      assert SpliceFile(disk, lim, f, stack) == Join(first, rest);
      hide SpliceFile, Within, After;
    }
  }

  lemma NoFiles(disk: Disk, lim: Limits, t: Tally, fs: seq<string>, stack: seq<string>)
    requires Within(disk, lim, t) && fs == []
    ensures SpliceFiles(disk, lim, fs, stack) == Some(NOTHING) && After(t, NOTHING) == t
    ensures Fits(disk, lim, t, SpliceFiles(disk, lim, fs, stack))
  {
    assert t.files + {} == t.files;
  }

  lemma NextFile(disk: Disk, lim: Limits, t: Tally, fs: seq<string>, i: nat, stack: seq<string>)
    requires i < |fs|
    ensures
      var a, b := SpliceFiles(disk, lim, fs[..i], stack), SpliceFile(disk, lim, fs[i], stack);
      SpliceFiles(disk, lim, fs[..i + 1], stack) == Join(a, b) &&
      (Fits(disk, lim, t, Join(a, b)) <==> Fits(disk, lim, t, a) && Fits(disk, lim, After(t, a.value), b)) &&
      (a.Some? && b.Some? ==> After(t, Join(a, b).value) == After(After(t, a.value), b.value))
  {
    assert fs[..i + 1][..i] == fs[..i];
    var a, b := SpliceFiles(disk, lim, fs[..i], stack), SpliceFile(disk, lim, fs[i], stack);
    FitsJoin(disk, lim, t, a, b);
    JoinAfter(t, a, b);
  }

  lemma JoinAfter(t: Tally, a: Option<Out>, b: Option<Out>)
    ensures a.Some? && b.Some? ==> After(t, Join(a, b).value) == After(After(t, a.value), b.value)
  {
  }

  lemma {:induction false} FirstFiles(disk: Disk, lim: Limits, t: Tally, fs: seq<string>, i: nat, stack: seq<string>)
    requires i <= |fs|
    ensures Fits(disk, lim, t, SpliceFiles(disk, lim, fs, stack)) ==> Fits(disk, lim, t, SpliceFiles(disk, lim, fs[..i], stack))
    decreases |fs|
  {
    if i < |fs| {
      var n := |fs| - 1;
      assert fs[..n + 1] == fs && fs[..n][..i] == fs[..i];
      NextFile(disk, lim, t, fs, n, stack);
      FirstFiles(disk, lim, t, fs[..n], i, stack);
    } else {
      assert fs[..i] == fs;
    }
  }

  // ---------------------------------------------------------------------------
  // What splicing means

  /** No include anywhere in the tree. */
  predicate Included(ds: seq<Directive>) {
    forall i | 0 <= i < |ds| :: IncludedOne(ds[i])
  }

  predicate IncludedOne(d: Directive) {
    d.name != "include" && Included(d.block)
  }

  lemma IncludedJoin(a: seq<Directive>, b: seq<Directive>)
    requires Included(a) && Included(b)
    ensures Included(a + b)
  {
  }

  /** Whatever goes through is free of includes, at every depth. */
  lemma {:induction false} NoIncludeLeft(disk: Disk, lim: Limits, ds: seq<Directive>, stack: seq<string>)
    requires Splice(disk, lim, ds, stack).Some?
    ensures Included(Splice(disk, lim, ds, stack).value.ds)
    decreases 2 * Room(lim, stack) + 1, ds, 0
  {
    if |ds| > 0 {
      var last := ds[|ds| - 1];
      assert last in ds;
      NoIncludeLeft(disk, lim, ds[..|ds| - 1], stack);
      NoIncludeInOne(disk, lim, last, stack);
      IncludedJoin(Splice(disk, lim, ds[..|ds| - 1], stack).value.ds, SpliceOne(disk, lim, last, stack).value.ds);
    }
  }

  lemma {:induction false} NoIncludeInOne(disk: Disk, lim: Limits, d: Directive, stack: seq<string>)
    requires SpliceOne(disk, lim, d, stack).Some?
    ensures Included(SpliceOne(disk, lim, d, stack).value.ds)
    decreases 2 * Room(lim, stack) + 1, d, 1
  {
    if d.name == "include" {
      NoIncludeInFiles(disk, lim, disk.targets(d.args).value, stack);
      IncludedJoin([], SpliceFiles(disk, lim, disk.targets(d.args).value, stack).value.ds);
    } else if d.block != [] {
      NoIncludeLeft(disk, lim, d.block, stack);
      assert IncludedOne(d.(block := Splice(disk, lim, d.block, stack).value.ds));
    } else {
      assert IncludedOne(d);
    }
  }

  lemma {:induction false} NoIncludeInFiles(disk: Disk, lim: Limits, fs: seq<string>, stack: seq<string>)
    requires SpliceFiles(disk, lim, fs, stack).Some?
    ensures Included(SpliceFiles(disk, lim, fs, stack).value.ds)
    decreases 2 * Room(lim, stack), |fs| + 1
  {
    if |fs| > 0 {
      var f := fs[|fs| - 1];
      NoIncludeInFiles(disk, lim, fs[..|fs| - 1], stack);
      var parsed := Parsed(disk, lim, f).value;
      NoIncludeLeft(disk, lim, parsed, stack + [f]);
      IncludedJoin([], Splice(disk, lim, parsed, stack + [f]).value.ds);
      IncludedJoin(SpliceFiles(disk, lim, fs[..|fs| - 1], stack).value.ds, SpliceFile(disk, lim, f, stack).value.ds);
    }
  }

  // ---------------------------------------------------------------------------
  // What splicing leaves alone

  /** Every directive at every depth. */
  function Nodes(ds: seq<Directive>): nat {
    if |ds| == 0 then 0
    else
      var last := ds[|ds| - 1];
      assert last in ds;
      Nodes(ds[..|ds| - 1]) + 1 + Nodes(last.block)
  }

  predicate IncludeFree(ds: seq<Directive>) {
    forall d <- ds :: d.name != "include" && IncludeFree(d.block)
  }

  lemma OneStays(disk: Disk, lim: Limits, d: Directive, stack: seq<string>)
    requires d.name != "include" && Splice(disk, lim, d.block, stack) == Some(Out(d.block, Nodes(d.block), 0, {}))
    ensures SpliceOne(disk, lim, d, stack) == Some(Out([d], Nodes(d.block) + 1, 0, {}))
  {
  }

  lemma JoinedWhole(ds: seq<Directive>)
    requires |ds| > 0
    ensures
      var init, last := ds[..|ds| - 1], ds[|ds| - 1];
      Join(Some(Out(init, Nodes(init), 0, {})), Some(Out([last], Nodes(last.block) + 1, 0, {}))) == Some(Out(ds, Nodes(ds), 0, {}))
  {
    var init, last, none: set<string> := ds[..|ds| - 1], ds[|ds| - 1], {};
    assert init + [last] == ds && none + none == none;
    assert Nodes(ds) == Nodes(init) + 1 + Nodes(last.block);
  }

  lemma SpliceUnfolds(disk: Disk, lim: Limits, ds: seq<Directive>, stack: seq<string>)
    requires |ds| > 0
    ensures Splice(disk, lim, ds, stack)
         == Join(Splice(disk, lim, ds[..|ds| - 1], stack), SpliceOne(disk, lim, ds[|ds| - 1], stack))
  {
  }

  /** Directives without an include come out as they are, each looked at once, and no file is opened. */
  lemma {:induction false} NothingToSplice(disk: Disk, lim: Limits, ds: seq<Directive>, stack: seq<string>)
    requires IncludeFree(ds)
    ensures Splice(disk, lim, ds, stack) == Some(Out(ds, Nodes(ds), 0, {}))
    decreases ds
  {
    if |ds| > 0 {
      hide Splice, SpliceOne, Nodes, Join;
      var init, last := ds[..|ds| - 1], ds[|ds| - 1];
      assert last in ds;
      NothingToSplice(disk, lim, init, stack);
      NothingToSplice(disk, lim, last.block, stack);
      OneStays(disk, lim, last, stack);
      JoinedWhole(ds);
      SpliceUnfolds(disk, lim, ds, stack);
    }
  }

  lemma {:induction false} SpliceJoins(disk: Disk, lim: Limits, a: seq<Directive>, b: seq<Directive>, stack: seq<string>)
    ensures Splice(disk, lim, a + b, stack) == Join(Splice(disk, lim, a, stack), Splice(disk, lim, b, stack))
    decreases |b|
  {
    if |b| == 0 {
      assert a + b == a;
      JoinNothing(Splice(disk, lim, a, stack));
    } else {
      var init, last := b[..|b| - 1], b[|b| - 1];
      assert (a + b)[..|a + b| - 1] == a + init && (a + b)[|a + b| - 1] == last;
      SpliceJoins(disk, lim, a, init, stack);
      JoinsInAnyGrouping(Splice(disk, lim, a, stack), Splice(disk, lim, init, stack), SpliceOne(disk, lim, last, stack));
    }
  }

  lemma JoinsInAnyGrouping(a: Option<Out>, b: Option<Out>, c: Option<Out>)
    ensures Join(Join(a, b), c) == Join(a, Join(b, c))
  {
    if a.Some? && b.Some? && c.Some? {
      assert a.value.ds + b.value.ds + c.value.ds == a.value.ds + (b.value.ds + c.value.ds);
      assert a.value.files + b.value.files + c.value.files == a.value.files + (b.value.files + c.value.files);
    }
  }

  lemma JoinNothing(a: Option<Out>)
    ensures Join(a, Some(NOTHING)) == a
  {
    if a.Some? {
      assert a.value.ds + [] == a.value.ds && a.value.files + {} == a.value.files;
    }
  }

  /** An include of one file stands for that file's directives, spliced, between what comes before and after it. */
  lemma IncludeIsReplaced(disk: Disk, lim: Limits, a: seq<Directive>, d: Directive, b: seq<Directive>, stack: seq<string>, f: string)
    requires d.name == "include" && disk.targets(d.args) == Some([f])
    ensures
      var whole := Splice(disk, lim, a + [d] + b, stack);
      var before, after := Splice(disk, lim, a, stack), Splice(disk, lim, b, stack);
      if f in stack || |stack| >= lim.includeDepth || Parsed(disk, lim, f).None? || before.None? || after.None? then whole.None?
      else
        var inner := Splice(disk, lim, Parsed(disk, lim, f).value, stack + [f]);
        if inner.None? then whole.None?
        else
          whole.Some? && whole.value.ds == before.value.ds + inner.value.ds + after.value.ds
          && whole.value.files == before.value.files + {f} + inner.value.files + after.value.files
  {
    SpliceJoins(disk, lim, a + [d], b, stack);
    SpliceJoins(disk, lim, a, [d], stack);
    assert [d][..0] == [] && [f][..0] == [];
    assert Splice(disk, lim, [d], stack) == Join(Some(NOTHING), SpliceOne(disk, lim, d, stack));
    assert SpliceFiles(disk, lim, [f], stack) == Join(Some(NOTHING), SpliceFile(disk, lim, f, stack));
  }
}
