/** The order a scan's hosts are written in (internal/engine/apply.go, parentsFirst). */
module ParentsFirst {
  datatype Host = Host(
    key: string, name: string, kind: string, address: string, os: string, arch: string, aliases: seq<string>,
    parentKey: string, power: string, nameUnread: bool, addressesUnread: bool)

  function KeysOf(hs: seq<Host>): set<string> {
    if |hs| == 0 then {} else KeysOf(hs[..|hs| - 1]) + {hs[|hs| - 1].key}
  }

  predicate Distinct(hs: seq<Host>) {
    |hs| == 0 || (Distinct(hs[..|hs| - 1]) && hs[|hs| - 1].key !in KeysOf(hs[..|hs| - 1]))
  }

  /** No parent to wait for: none named, itself, or one the snapshot lacks. */
  predicate IsRoot(h: Host, present: set<string>) {
    h.parentKey == "" || h.parentKey == h.key || h.parentKey !in present
  }

  predicate Free(h: Host, present: set<string>, placed: set<string>) {
    IsRoot(h, present) || h.parentKey in placed
  }

  datatype Round = Round(out: seq<Host>, next: seq<Host>)

  /** One pass over the hosts still pending; a host placed earlier in the pass frees later ones. */
  function Sweep(pending: seq<Host>, present: set<string>, placed: set<string>): (r: Round)
    ensures |r.out| + |r.next| == |pending|
  {
    if |pending| == 0 then Round([], [])
    else
      var r, h := Sweep(pending[..|pending| - 1], present, placed), pending[|pending| - 1];
      if Free(h, present, placed + KeysOf(r.out)) then Round(r.out + [h], r.next) else Round(r.out, r.next + [h])
  }

  /** The hosts passes place, and those no pass can. */
  function Rounds(pending: seq<Host>, present: set<string>, placed: set<string>): (r: Round)
    decreases |pending|
  {
    var r := Sweep(pending, present, placed);
    if |r.out| == 0 then Round([], pending)
    else
      var more := Rounds(r.next, present, placed + KeysOf(r.out));
      Round(r.out + more.out, more.next)
  }

  function Ordered(items: seq<Host>): seq<Host> {
    var r := Rounds(items, KeysOf(items), {});
    r.out + r.next
  }

  method PresentKeys(items: seq<Host>) returns (present: set<string>)
    ensures present == KeysOf(items)
  {
    present := {};
    for i := 0 to |items|
      invariant present == KeysOf(items[..i])
    {
      assert items[..i + 1][..i] == items[..i];
      present := present + {items[i].key};
    }
    assert items[..|items|] == items;
  }

  method Pass(pending: seq<Host>, present: set<string>, placed0: set<string>)
    returns (out: seq<Host>, placed: set<string>, next: seq<Host>)
    ensures
      var r := Sweep(pending, present, placed0);
      out == r.out && next == r.next && placed == placed0 + KeysOf(r.out)
  {
    out, placed, next := [], placed0, [];
    for i := 0 to |pending|
      invariant Sweep(pending[..i], present, placed0) == Round(out, next)
      invariant placed == placed0 + KeysOf(out)
    {
      assert pending[..i + 1][..i] == pending[..i];
      var h := pending[i];
      assert (out + [h])[..|out|] == out;
      if h.parentKey == "" || h.parentKey == h.key || h.parentKey !in present || h.parentKey in placed {
        out := out + [h];
        placed := placed + {h.key};
      } else {
        next := next + [h];
      }
    }
    assert pending[..|pending|] == pending;
  }

  method Order(items: seq<Host>) returns (out: seq<Host>)
    ensures out == Ordered(items)
  {
    var present := PresentKeys(items);
    out := [];
    var placed: set<string> := {};
    var pending := items;
    ghost var whole := Rounds(items, present, {});
    while |pending| > 0
      invariant
        var r := Rounds(pending, present, placed);
        out + r.out == whole.out && r.next == whole.next
      decreases |pending|
    {
      var more, next;
      ghost var held := placed;
      more, placed, next := Pass(pending, present, placed);
      RoundsUnfold(pending, present, held, out);
      if |next| == |pending| {
        return out + next;
      }
      out := out + more;
      pending := next;
    }
  }

  lemma {:induction false} SweepOfNothing(pending: seq<Host>, present: set<string>, placed: set<string>)
    requires |Sweep(pending, present, placed).out| == 0
    ensures Sweep(pending, present, placed).next == pending
  {
    if |pending| > 0 {
      SweepOfNothing(pending[..|pending| - 1], present, placed);
    }
  }

  lemma RoundsUnfold(pending: seq<Host>, present: set<string>, placed: set<string>, before: seq<Host>)
    ensures
      var s, r := Sweep(pending, present, placed), Rounds(pending, present, placed);
      if |s.next| == |pending| then s.next == pending && r == Round([], pending) && before + r.out == before
      else
        var more := Rounds(s.next, present, placed + KeysOf(s.out));
        before + r.out == before + s.out + more.out && r.next == more.next
  {
    var s := Sweep(pending, present, placed);
    if |s.out| == 0 {
      SweepOfNothing(pending, present, placed);
      Regroup(before, [], []);
    } else {
      Regroup(before, s.out, Rounds(s.next, present, placed + KeysOf(s.out)).out);
    }
  }

  lemma Regroup(a: seq<Host>, b: seq<Host>, c: seq<Host>)
    ensures a + (b + c) == a + b + c && a + [] == a
  {
  }

  // ---------------------------------------------------------------------------
  // A permutation

  lemma {:induction false} SweepPermutes(pending: seq<Host>, present: set<string>, placed: set<string>)
    ensures
      var r := Sweep(pending, present, placed);
      multiset(r.out) + multiset(r.next) == multiset(pending)
  {
    if |pending| > 0 {
      var init := pending[..|pending| - 1];
      assert pending == init + [pending[|pending| - 1]];
      SweepPermutes(init, present, placed);
    }
  }

  lemma {:induction false} RoundsPermute(pending: seq<Host>, present: set<string>, placed: set<string>)
    ensures
      var r := Rounds(pending, present, placed);
      multiset(r.out) + multiset(r.next) == multiset(pending)
    decreases |pending|
  {
    var r := Sweep(pending, present, placed);
    if |r.out| > 0 {
      SweepPermutes(pending, present, placed);
      RoundsPermute(r.next, present, placed + KeysOf(r.out));
    }
  }

  lemma OrderPermutes(items: seq<Host>)
    ensures multiset(Ordered(items)) == multiset(items)
  {
    RoundsPermute(items, KeysOf(items), {});
  }

  // ---------------------------------------------------------------------------
  // Parents first

  /** Every host follows the parent it waits for. */
  ghost predicate InOrder(hs: seq<Host>, present: set<string>, placed: set<string>) {
    forall i | 0 <= i < |hs| :: Free(hs[i], present, placed + KeysOf(hs[..i]))
  }

  lemma InOrderAppend(a: seq<Host>, b: seq<Host>, present: set<string>, placed: set<string>)
    requires InOrder(a, present, placed) && InOrder(b, present, placed + KeysOf(a))
    ensures InOrder(a + b, present, placed) && KeysOf(a + b) == KeysOf(a) + KeysOf(b)
  {
    KeysAppend(a, b);
    forall i | 0 <= i < |a + b| ensures Free((a + b)[i], present, placed + KeysOf((a + b)[..i])) {
      if i < |a| {
        assert (a + b)[..i] == a[..i];
      } else {
        assert (a + b)[..i] == a + b[..i - |a|];
        KeysAppend(a, b[..i - |a|]);
        assert placed + KeysOf(a) + KeysOf(b[..i - |a|]) == placed + (KeysOf(a) + KeysOf(b[..i - |a|]));
      }
    }
  }

  lemma {:induction false} KeysAppend(a: seq<Host>, b: seq<Host>)
    ensures KeysOf(a + b) == KeysOf(a) + KeysOf(b)
  {
    if |b| == 0 {
      assert a + b == a;
    } else {
      assert (a + b)[..|a + b| - 1] == a + b[..|b| - 1];
      KeysAppend(a, b[..|b| - 1]);
    }
  }

  lemma {:induction false} SweepInOrder(pending: seq<Host>, present: set<string>, placed: set<string>)
    ensures InOrder(Sweep(pending, present, placed).out, present, placed)
  {
    if |pending| > 0 {
      var init, h := pending[..|pending| - 1], pending[|pending| - 1];
      var r := Sweep(init, present, placed);
      SweepInOrder(init, present, placed);
      if Free(h, present, placed + KeysOf(r.out)) {
        assert InOrder([h], present, placed + KeysOf(r.out)) by {
          assert [h][..0] == [];
        }
        InOrderAppend(r.out, [h], present, placed);
      }
    }
  }

  lemma {:induction false} RoundsInOrder(pending: seq<Host>, present: set<string>, placed: set<string>)
    ensures InOrder(Rounds(pending, present, placed).out, present, placed)
    decreases |pending|
  {
    var r := Sweep(pending, present, placed);
    if |r.out| > 0 {
      SweepInOrder(pending, present, placed);
      RoundsInOrder(r.next, present, placed + KeysOf(r.out));
      InOrderAppend(r.out, Rounds(r.next, present, placed + KeysOf(r.out)).out, present, placed);
    }
  }

  /** The first pass takes an ordered input as it is. */
  lemma {:induction false} SweepTakesOrdered(items: seq<Host>, present: set<string>, n: nat)
    requires InOrder(items, present, {}) && n <= |items|
    ensures Sweep(items[..n], present, {}) == Round(items[..n], [])
  {
    if n > 0 {
      var init, h := items[..n - 1], items[n - 1];
      assert items[..n][..n - 1] == init && items[..n] == init + [h];
      assert Free(h, present, {} + KeysOf(init));
      SweepTakesOrdered(items, present, n - 1);
    }
  }

  /** An input that already has its parents first is left alone. */
  lemma OrderedStays(items: seq<Host>)
    requires InOrder(items, KeysOf(items), {})
    ensures Ordered(items) == items
  {
    SweepTakesOrdered(items, KeysOf(items), |items|);
    assert items[..|items|] == items;
    assert Rounds([], KeysOf(items), {} + KeysOf(items)) == Round([], []);
  }

  // ---------------------------------------------------------------------------
  // The tail: hosts whose parent chain never reaches a root

  /** Within `n` steps the parent chain that starts at `key` reaches a host with no parent to wait for. */
  ghost predicate Reaches(items: seq<Host>, n: nat, key: string) {
    exists i :: 0 <= i < |items| && items[i].key == key &&
      (IsRoot(items[i], KeysOf(items)) || (n > 0 && Reaches(items, n - 1, items[i].parentKey)))
  }

  ghost predicate Grounded(items: seq<Host>, key: string) {
    exists n: nat :: Reaches(items, n, key)
  }

  ghost predicate AllGrounded(items: seq<Host>, keys: set<string>) {
    forall k <- keys :: Grounded(items, k)
  }

  lemma GroundedStep(items: seq<Host>, i: nat, keys: set<string>)
    requires i < |items| && AllGrounded(items, keys) && Free(items[i], KeysOf(items), keys)
    ensures Grounded(items, items[i].key)
  {
    if IsRoot(items[i], KeysOf(items)) {
      assert Reaches(items, 0, items[i].key);
    } else {
      var n: nat :| Reaches(items, n, items[i].parentKey);
      assert Reaches(items, n + 1, items[i].key);
    }
  }

  ghost predicate Within(hs: seq<Host>, items: seq<Host>) {
    forall i | 0 <= i < |hs| :: hs[i] in items
  }

  lemma {:induction false} OrderGrounds(items: seq<Host>, hs: seq<Host>)
    requires Within(hs, items) && InOrder(hs, KeysOf(items), {})
    ensures AllGrounded(items, KeysOf(hs))
  {
    if |hs| > 0 {
      var init, h := hs[..|hs| - 1], hs[|hs| - 1];
      forall i | 0 <= i < |init| ensures Free(init[i], KeysOf(items), {} + KeysOf(init[..i])) {
        assert init[..i] == hs[..i];
      }
      OrderGrounds(items, init);
      assert Free(h, KeysOf(items), {} + KeysOf(init)) && {} + KeysOf(init) == KeysOf(init);
      assert h in items;
      var i :| 0 <= i < |items| && items[i] == h;
      GroundedStep(items, i, KeysOf(init));
    }
  }

  predicate NoneFree(hs: seq<Host>, present: set<string>, placed: set<string>) {
    forall i | 0 <= i < |hs| :: !Free(hs[i], present, placed)
  }

  lemma {:induction false} SweepStuck(pending: seq<Host>, present: set<string>, placed: set<string>)
    requires |Sweep(pending, present, placed).out| == 0
    ensures NoneFree(pending, present, placed)
  {
    if |pending| > 0 {
      var init, h := pending[..|pending| - 1], pending[|pending| - 1];
      SweepStuck(init, present, placed);
      assert Sweep(init, present, placed).out == [];
      assert placed + KeysOf([]) == placed;
      assert forall i | 0 <= i < |init| :: init[i] == pending[i];
    }
  }

  /** What is left over waits for parents that are left over too. */
  lemma {:induction false} RoundsStuck(pending: seq<Host>, present: set<string>, placed: set<string>)
    ensures
      var r := Rounds(pending, present, placed);
      NoneFree(r.next, present, placed + KeysOf(r.out))
    decreases |pending|
  {
    var r := Sweep(pending, present, placed);
    if |r.out| == 0 {
      SweepStuck(pending, present, placed);
      assert placed + KeysOf([]) == placed;
    } else {
      var more := Rounds(r.next, present, placed + KeysOf(r.out));
      RoundsStuck(r.next, present, placed + KeysOf(r.out));
      KeysAppend(r.out, more.out);
      assert placed + KeysOf(r.out) + KeysOf(more.out) == placed + KeysOf(r.out + more.out);
    }
  }

  lemma {:induction false} KeyIn(hs: seq<Host>, i: nat)
    requires i < |hs|
    ensures hs[i].key in KeysOf(hs)
  {
    if i < |hs| - 1 {
      KeyIn(hs[..|hs| - 1], i);
    }
  }

  lemma {:induction false} HostOfKey(hs: seq<Host>, key: string) returns (i: nat)
    requires key in KeysOf(hs)
    ensures i < |hs| && hs[i].key == key
  {
    if hs[|hs| - 1].key == key {
      i := |hs| - 1;
    } else {
      i := HostOfKey(hs[..|hs| - 1], key);
    }
  }

  lemma {:induction false} SameKeySameHost(hs: seq<Host>, i: nat, j: nat)
    requires Distinct(hs) && i < |hs| && j < |hs| && hs[i].key == hs[j].key
    ensures i == j
  {
    var n := |hs| - 1;
    if i < n && j < n {
      SameKeySameHost(hs[..n], i, j);
    } else if i < n {
      KeyIn(hs[..n], i);
    } else if j < n {
      KeyIn(hs[..n], j);
    }
  }

  /** A stuck set: none of its hosts is a root, and the parents they wait for are in it. */
  ghost predicate Stuck(items: seq<Host>, keys: set<string>) {
    forall i | 0 <= i < |items| :: items[i].key in keys ==>
      !IsRoot(items[i], KeysOf(items)) && items[i].parentKey in keys
  }

  lemma {:induction false} StuckNeverReaches(items: seq<Host>, keys: set<string>, n: nat, key: string)
    requires Stuck(items, keys) && key in keys
    ensures !Reaches(items, n, key)
  {
    if Reaches(items, n, key) {
      var i :| 0 <= i < |items| && items[i].key == key &&
        (IsRoot(items[i], KeysOf(items)) || (n > 0 && Reaches(items, n - 1, items[i].parentKey)));
      StuckNeverReaches(items, keys, n - 1, items[i].parentKey);
    }
  }

  lemma Members(items: seq<Host>)
    ensures
      var r := Rounds(items, KeysOf(items), {});
      Within(r.out, items) && Within(r.next, items) && forall i | 0 <= i < |items| :: items[i] in r.out || items[i] in r.next
  {
    var r := Rounds(items, KeysOf(items), {});
    RoundsPermute(items, KeysOf(items), {});
    forall h: Host ensures h in items <==> h in r.out || h in r.next {
      assert multiset(items)[h] == multiset(r.out)[h] + multiset(r.next)[h];
      assert h in items <==> multiset(items)[h] > 0;
      assert h in r.out <==> multiset(r.out)[h] > 0;
      assert h in r.next <==> multiset(r.next)[h] > 0;
    }
  }

  lemma TailIsStuck(items: seq<Host>)
    requires Distinct(items)
    ensures Stuck(items, KeysOf(Rounds(items, KeysOf(items), {}).next))
  {
    var r := Rounds(items, KeysOf(items), {});
    Members(items);
    RoundsStuck(items, KeysOf(items), {});
    assert {} + KeysOf(r.out) == KeysOf(r.out);
    forall i | 0 <= i < |items| && items[i].key in KeysOf(r.next)
      ensures !IsRoot(items[i], KeysOf(items)) && items[i].parentKey in KeysOf(r.next)
    {
      var j := HostOfKey(r.next, items[i].key);
      assert r.next[j] in items;
      var k :| 0 <= k < |items| && items[k] == r.next[j];
      SameKeySameHost(items, i, k);
      assert !Free(items[i], KeysOf(items), KeysOf(r.out));
      var m := HostOfKey(items, items[i].parentKey);
      if items[m] in r.out {
        var o :| 0 <= o < |r.out| && r.out[o] == items[m];
        KeyIn(r.out, o);
      } else {
        var o :| 0 <= o < |r.next| && r.next[o] == items[m];
        KeyIn(r.next, o);
      }
    }
  }

  /**
   The order puts every host whose parent chain reaches a root after the parent it waits for, and
   after all of them exactly the hosts whose chain never does.
   */
  lemma TailIsUngrounded(items: seq<Host>)
    requires Distinct(items)
    ensures
      var r := Rounds(items, KeysOf(items), {});
      Ordered(items) == r.out + r.next &&
      InOrder(r.out, KeysOf(items), {}) &&
      (forall i | 0 <= i < |r.out| :: Grounded(items, r.out[i].key)) &&
      (forall i | 0 <= i < |r.next| :: !Grounded(items, r.next[i].key))
  {
    var r := Rounds(items, KeysOf(items), {});
    RoundsInOrder(items, KeysOf(items), {});
    Members(items);
    OrderGrounds(items, r.out);
    TailIsStuck(items);
    forall i | 0 <= i < |r.out| ensures Grounded(items, r.out[i].key) {
      KeyIn(r.out, i);
    }
    forall i | 0 <= i < |r.next| ensures !Grounded(items, r.next[i].key) {
      KeyIn(r.next, i);
      forall n: nat ensures !Reaches(items, n, r.next[i].key) {
        StuckNeverReaches(items, KeysOf(r.next), n, r.next[i].key);
      }
    }
  }

  // ---------------------------------------------------------------------------
  // Keys

  lemma {:induction false} DistinctAppend(a: seq<Host>, b: seq<Host>)
    requires Distinct(a) && Distinct(b) && KeysOf(a) !! KeysOf(b)
    ensures Distinct(a + b) && KeysOf(a + b) == KeysOf(a) + KeysOf(b)
  {
    KeysAppend(a, b);
    if |b| == 0 {
      assert a + b == a;
    } else {
      var init := b[..|b| - 1];
      assert (a + b)[..|a + b| - 1] == a + init;
      DistinctAppend(a, init);
    }
  }

  /** Two lists share out a set of keys. */
  predicate Share(a: seq<Host>, b: seq<Host>, keys: set<string>) {
    Distinct(a) && Distinct(b) && KeysOf(a) !! KeysOf(b) && KeysOf(a) + KeysOf(b) == keys
  }

  lemma ShareSnoc(a: seq<Host>, b: seq<Host>, keys: set<string>, h: Host)
    requires Share(a, b, keys) && h.key !in keys
    ensures Share(a + [h], b, keys + {h.key}) && Share(a, b + [h], keys + {h.key})
  {
    DistinctSnoc(a, h);
    DistinctSnoc(b, h);
  }

  lemma {:induction false} SweepKeys(pending: seq<Host>, present: set<string>, placed: set<string>)
    requires Distinct(pending)
    ensures Share(Sweep(pending, present, placed).out, Sweep(pending, present, placed).next, KeysOf(pending))
  {
    if |pending| > 0 {
      var init, h := pending[..|pending| - 1], pending[|pending| - 1];
      var r := Sweep(init, present, placed);
      SweepKeys(init, present, placed);
      ShareSnoc(r.out, r.next, KeysOf(init), h);
    }
  }

  lemma DistinctSnoc(hs: seq<Host>, h: Host)
    requires Distinct(hs) && h.key !in KeysOf(hs)
    ensures Distinct(hs + [h]) && KeysOf(hs + [h]) == KeysOf(hs) + {h.key}
  {
    assert (hs + [h])[..|hs|] == hs;
  }

  lemma {:induction false} RoundsKeys(pending: seq<Host>, present: set<string>, placed: set<string>)
    requires Distinct(pending)
    ensures Share(Rounds(pending, present, placed).out, Rounds(pending, present, placed).next, KeysOf(pending))
    decreases |pending|
  {
    var r := Sweep(pending, present, placed);
    SweepKeys(pending, present, placed);
    if |r.out| > 0 {
      var more := Rounds(r.next, present, placed + KeysOf(r.out));
      RoundsKeys(r.next, present, placed + KeysOf(r.out));
      DistinctAppend(r.out, more.out);
    }
  }

  lemma OrderDistinct(items: seq<Host>)
    requires Distinct(items)
    ensures Distinct(Ordered(items)) && KeysOf(Ordered(items)) == KeysOf(items)
  {
    var r := Rounds(items, KeysOf(items), {});
    RoundsKeys(items, KeysOf(items), {});
    DistinctAppend(r.out, r.next);
  }

  /** Where a host with a parent to wait for is placed: after it. */
  lemma GroundedPlace(items: seq<Host>, h: Host) returns (i: nat)
    requires Distinct(items) && h in items && Grounded(items, h.key) && !IsRoot(h, KeysOf(items))
    ensures i < |Ordered(items)| && Ordered(items)[i] == h && h.parentKey in KeysOf(Ordered(items)[..i])
  {
    var r := Rounds(items, KeysOf(items), {});
    Members(items);
    NotInTail(items, h);
    i :| 0 <= i < |r.out| && r.out[i] == h;
    RoundsInOrder(items, KeysOf(items), {});
    assert (r.out + r.next)[..i] == r.out[..i];
    assert Free(r.out[i], KeysOf(items), {} + KeysOf(r.out[..i]));
  }

  lemma NotInTail(items: seq<Host>, h: Host)
    requires Distinct(items) && Grounded(items, h.key)
    ensures h !in Rounds(items, KeysOf(items), {}).next
  {
    var r := Rounds(items, KeysOf(items), {});
    TailIsUngrounded(items);
    forall j | 0 <= j < |r.next| ensures r.next[j] != h {
      assert !Grounded(items, r.next[j].key);
    }
  }

  lemma SameHosts(items: seq<Host>)
    ensures forall h :: h in items <==> h in Ordered(items)
  {
    OrderPermutes(items);
    forall h: Host ensures h in items <==> h in Ordered(items) {
      assert h in items <==> multiset(items)[h] > 0;
      assert h in Ordered(items) <==> multiset(Ordered(items))[h] > 0;
    }
  }
}
