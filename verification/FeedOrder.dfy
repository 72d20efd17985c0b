/**
 The order registry lookups start in (internal/connectors/registry/registry.go, feedOrder): interleaved by
 registry, each registry's list rotated a step further every day.
 */
module FeedOrder {
  import Strings

  // ---------------------------------------------------------------------------
  // Remainders

  lemma AtLeast(n: nat, d: int)
    requires d >= 1
    ensures n * d >= n
  {
  }

  lemma Distributes(n: int, p: int, q: int)
    ensures n * (p - q) == n * p - n * q
  {
  }

  lemma SameQuotient(n: nat, p: int, q: int, r: nat, s: nat)
    requires r < n && s < n && n * q + r == n * p + s
    ensures r == s
  {
    Distributes(n, p, q);
    Distributes(n, q, p);
    if p > q {
      AtLeast(n, p - q);
    } else if q > p {
      AtLeast(n, q - p);
    }
  }

  lemma Remainder(x: int, q: int, n: nat, r: nat)
    requires n > 0 && r < n && x == n * q + r
    ensures x % n == r
  {
    SameQuotient(n, x / n, q, r, x % n);
  }

  /** The remainder as the source's language has it: toward zero. */
  function Truncated(x: int, n: nat): int
    requires n > 0
  {
    if x >= 0 then x % n else -((-x) % n)
  }

  lemma TruncatedIs(x: int, n: nat)
    requires n > 0 && x < 0
    ensures if Truncated(x, n) == 0 then x % n == 0 else x % n == n + Truncated(x, n)
  {
    var q, r := (-x) / n, (-x) % n;
    assert -x == n * q + r;
    if r == 0 {
      Remainder(x, -q, n, 0);
    } else {
      assert x == n * (-q - 1) + (n - r);
      Remainder(x, -q - 1, n, n - r);
    }
  }

  /** Where a list of n starts: a negative remainder is brought up by n, which makes it the mathematical one. */
  function Start(day: int, n: nat): (s: nat)
    requires n > 0
    ensures s < n && s == day % n
  {
    var start := Truncated(day, n);
    if day < 0 then TruncatedIs(day, n); (if start < 0 then start + n else start) else start
  }

  // ---------------------------------------------------------------------------
  // One registry's list

  function Rotated(list: seq<string>, start: nat): (r: seq<string>)
    requires start <= |list|
  {
    list[start..] + list[..start]
  }

  function OnDay(list: seq<string>, day: int): (r: seq<string>)
    ensures |r| == |list|
  {
    if |list| <= 1 then list else Rotated(list, Start(day, |list|))
  }

  lemma OnDayPermutes(list: seq<string>, day: int)
    ensures multiset(OnDay(list, day)) == multiset(list)
  {
    if |list| > 1 {
      var start := Start(day, |list|);
      assert list == list[..start] + list[start..];
    }
  }

  /** The keys of one registry, in the order they came. */
  function Of(keys: seq<string>, domain: string -> string, d: string): seq<string> {
    if |keys| == 0 then []
    else Of(keys[..|keys| - 1], domain, d) + if domain(keys[|keys| - 1]) == d then [keys[|keys| - 1]] else []
  }

  lemma {:induction false} OfIs(keys: seq<string>, domain: string -> string, d: string)
    ensures forall x <- Of(keys, domain, d) :: domain(x) == d
  {
    if |keys| > 0 {
      OfIs(keys[..|keys| - 1], domain, d);
    }
  }

  lemma OnThatDay(list: seq<string>, day: int, i: nat) returns (on: int)
    requires i < |list|
    ensures day <= on < day + |list| && Start(on, |list|) == i && OnDay(list, on)[0] == list[i]
  {
    var n := |list|;
    var k, q := (i - day) % n, (i - day) / n;
    on := day + k;
    Distributes(n, 0, q);
    assert on == n * (-q) + i;
    Remainder(on, -q, n, i);
  }

  lemma NotTwice(n: nat, a: int, b: int)
    requires n > 0 && a < b < a + n
    ensures Start(a, n) != Start(b, n)
  {
    var p, q := a / n, b / n;
    if Start(a, n) == Start(b, n) {
      Distributes(n, q, p);
      if q > p {
        AtLeast(n, q - p);
      } else {
        Distributes(n, p, q);
        if p > q {
          AtLeast(n, p - q);
        }
      }
    }
  }

  /** Over as many days as a registry has tags, each of them leads the registry's list exactly once. */
  lemma EveryTagLeadsOnce(list: seq<string>, day: int, i: nat)
    requires i < |list|
    ensures exists on :: day <= on < day + |list| && OnDay(list, on)[0] == list[i] && Start(on, |list|) == i
    ensures forall a, b | day <= a < b < day + |list| :: Start(a, |list|) != Start(b, |list|)
  {
    var on := OnThatDay(list, day, i);
    forall a, b | day <= a < b < day + |list| ensures Start(a, |list|) != Start(b, |list|) {
      NotTwice(|list|, a, b);
    }
  }

  // ---------------------------------------------------------------------------
  // Interleaving

  type Lists = map<string, seq<string>>

  function At(lists: Lists, d: string): seq<string> {
    if d in lists then lists[d] else []
  }

  /** The i-th key of every registry that has one. */
  function Round(ds: seq<string>, lists: Lists, i: nat): seq<string> {
    if |ds| == 0 then []
    else
      var list := At(lists, ds[|ds| - 1]);
      Round(ds[..|ds| - 1], lists, i) + if i < |list| then [list[i]] else []
  }

  function Rounds(ds: seq<string>, lists: Lists, n: nat): seq<string> {
    if n == 0 then [] else Rounds(ds, lists, n - 1) + Round(ds, lists, n - 1)
  }

  function Longest(ds: seq<string>, lists: Lists): (n: nat)
    ensures forall d <- ds :: |At(lists, d)| <= n
  {
    if |ds| == 0 then 0
    else
      var before, last := Longest(ds[..|ds| - 1], lists), |At(lists, ds[|ds| - 1])|;
      if last > before then last else before
  }

  function Domains(keys: seq<string>, domain: string -> string): (ds: seq<string>)
    ensures forall d :: d in ds <==> exists k <- keys :: domain(k) == d
  {
    if |keys| == 0 then []
    else
      var ds, d := Domains(keys[..|keys| - 1], domain), domain(keys[|keys| - 1]);
      if d in ds then ds else ds + [d]
  }

  /** Every list turned to the day's start. */
  function Turned(lists: Lists, day: int): Lists {
    map d | d in lists :: OnDay(lists[d], day)
  }

  function Grouped(keys: seq<string>, domain: string -> string): (lists: Lists)
    ensures forall d :: d in lists <==> d in Domains(keys, domain)
    ensures forall d <- lists :: lists[d] == Of(keys, domain, d)
  {
    map d | d in Domains(keys, domain) :: Of(keys, domain, d)
  }

  function Order(keys: seq<string>, domain: string -> string, day: int): seq<string> {
    var ds, lists := Strings.SortedSet(Domains(keys, domain)), Turned(Grouped(keys, domain), day);
    Rounds(ds, lists, Longest(ds, lists))
  }

  method Group(keys: seq<string>, domain: string -> string) returns (byDomain: Lists, domains: seq<string>)
    ensures domains == Domains(keys, domain)
    ensures forall d :: d in byDomain <==> d in domains
    ensures forall d <- byDomain :: byDomain[d] == Of(keys, domain, d)
  {
    byDomain, domains := map[], [];
    for i := 0 to |keys|
      invariant domains == Domains(keys[..i], domain)
      invariant forall d :: d in byDomain <==> d in domains
      invariant forall d :: At(byDomain, d) == Of(keys[..i], domain, d)
    {
      assert keys[..i + 1][..i] == keys[..i];
      var d := domain(keys[i]);
      if d !in byDomain {
        domains := domains + [d];
      }
      byDomain := byDomain[d := At(byDomain, d) + [keys[i]]];
    }
    assert keys[..|keys|] == keys;
  }

  lemma NoDomain(ds: seq<string>, lists: Lists)
    requires ds == []
    ensures Longest(ds, lists) == 0
  {
  }

  lemma NextDomain(ds: seq<string>, lists: Lists, i: nat)
    requires i < |ds|
    ensures forall d :: d in ds[..i + 1] <==> d in ds[..i] || d == ds[i]
    ensures Longest(ds[..i + 1], lists)
         == if |At(lists, ds[i])| > Longest(ds[..i], lists) then |At(lists, ds[i])| else Longest(ds[..i], lists)
  {
    assert ds[..i + 1] == ds[..i] + [ds[i]];
    assert ds[..i + 1][..i] == ds[..i];
  }

  /** Turns every list, and measures the longest. */
  method TurnAll(day: int, domains: seq<string>, lists: Lists) returns (turned: Lists, longest: nat)
    requires Strings.Increasing(domains) && forall d :: d in lists <==> d in domains
    ensures turned == Turned(lists, day) && longest == Longest(domains, turned)
  {
    hide Strings.Increasing, OnDay, Longest;
    turned, longest := lists, 0;
    ghost var goal := Turned(lists, day);
    NoDomain(domains[..0], goal);
    for i := 0 to |domains|
      invariant longest == Longest(domains[..i], goal)
      invariant turned.Keys == lists.Keys
      invariant forall d <- turned :: turned[d] == if d in domains[..i] then goal[d] else lists[d]
    {
      NextDomain(domains, goal, i);
      Strings.IncreasingDistinct(domains, i);
      var list := turned[domains[i]];
      var today := Today(list, day);
      turned := turned[domains[i] := today];
      if |list| > longest {
        longest := |list|;
      }
    }
    assert domains[..|domains|] == domains;
  }

  method Today(list: seq<string>, day: int) returns (today: seq<string>)
    ensures today == OnDay(list, day)
  {
    today := list;
    if |list| > 1 {
      today := Rotated(list, Start(day, |list|));
    }
  }

  method Interleave(domains: seq<string>, lists: Lists, longest: nat) returns (out: seq<string>)
    requires forall d <- domains :: d in lists
    ensures out == Rounds(domains, lists, longest)
  {
    out := [];
    for i := 0 to longest
      invariant out == Rounds(domains, lists, i)
    {
      ghost var done := out;
      for j := 0 to |domains|
        invariant out == done + Round(domains[..j], lists, i)
      {
        assert domains[..j + 1][..j] == domains[..j];
        var list := lists[domains[j]];
        if i < |list| {
          out := out + [list[i]];
        }
      }
      assert domains[..|domains|] == domains;
    }
  }

  method Feed(keys: seq<string>, domain: string -> string, day: int) returns (out: seq<string>)
    ensures out == Order(keys, domain, day)
  {
    var byDomain, domains := Group(keys, domain);
    Strings.SortedSetIs(domains);
    domains := Strings.SortedSet(domains);
    assert byDomain == Grouped(keys, domain);
    var lists, longest := TurnAll(day, domains, byDomain);
    out := Interleave(domains, lists, longest);
  }

  // ---------------------------------------------------------------------------
  // Nothing lost, nothing favoured

  /** How often a registry comes up. */
  function CountOf(s: seq<string>, domain: string -> string, d: string): nat {
    |Of(s, domain, d)|
  }

  lemma {:induction false} OfJoins(a: seq<string>, b: seq<string>, domain: string -> string, d: string)
    ensures Of(a + b, domain, d) == Of(a, domain, d) + Of(b, domain, d)
  {
    if |b| == 0 {
      assert a + b == a;
    } else {
      assert (a + b)[..|a + b| - 1] == a + b[..|b| - 1];
      OfJoins(a, b[..|b| - 1], domain, d);
    }
  }

  /** The lists hold their registries' keys. */
  ghost predicate ByRegistry(ds: seq<string>, lists: Lists, domain: string -> string) {
    && (forall i, j | 0 <= i < j < |ds| :: ds[i] != ds[j])
    && (forall d <- lists :: forall x <- lists[d] :: domain(x) == d)
  }

  function Upto(list: seq<string>, n: nat): seq<string> {
    list[..if n < |list| then n else |list|]
  }

  lemma UptoNext(list: seq<string>, n: nat)
    ensures Upto(list, n + 1) == Upto(list, n) + if n < |list| then [list[n]] else []
  {
  }

  lemma OfOne(x: string, domain: string -> string, d: string)
    ensures Of([x], domain, d) == if domain(x) == d then [x] else []
  {
    assert [x][..0] == [];
  }

  lemma {:induction false} RoundOf(ds: seq<string>, lists: Lists, domain: string -> string, i: nat, d: string)
    requires ByRegistry(ds, lists, domain)
    ensures Of(Round(ds, lists, i), domain, d) == if d in ds && i < |At(lists, d)| then [At(lists, d)[i]] else []
  {
    if |ds| > 0 {
      hide Of;
      var init, last := ds[..|ds| - 1], ds[|ds| - 1];
      var list := At(lists, last);
      RoundOf(init, lists, domain, i, d);
      if i < |list| {
        OfJoins(Round(init, lists, i), [list[i]], domain, d);
        OfOne(list[i], domain, d);
        assert list[i] in list;
      } else {
        assert Round(ds, lists, i) == Round(init, lists, i);
      }
    }
  }

  lemma NextRound(ds: seq<string>, lists: Lists, domain: string -> string, n: nat, d: string)
    requires ByRegistry(ds, lists, domain)
    ensures Of(Rounds(ds, lists, n + 1), domain, d)
         == Of(Rounds(ds, lists, n), domain, d) + if d in ds && n < |At(lists, d)| then [At(lists, d)[n]] else []
  {
    hide Of, Round, ByRegistry, At;
    RoundOf(ds, lists, domain, n, d);
    OfJoins(Rounds(ds, lists, n), Round(ds, lists, n), domain, d);
  }

  lemma NoRounds(ds: seq<string>, lists: Lists, domain: string -> string, d: string)
    ensures Of(Rounds(ds, lists, 0), domain, d) == [] && Upto(At(lists, d), 0) == []
  {
  }

  /** In the order of the feed, a registry's keys come in the order of its list. */
  lemma {:induction false} RoundsOf(ds: seq<string>, lists: Lists, domain: string -> string, n: nat, d: string)
    requires ByRegistry(ds, lists, domain)
    ensures Of(Rounds(ds, lists, n), domain, d) == if d in ds then Upto(At(lists, d), n) else []
  {
    hide Of, Rounds, ByRegistry, At, Upto;
    if n == 0 {
      NoRounds(ds, lists, domain, d);
    } else {
      RoundsOf(ds, lists, domain, n - 1, d);
      NextRound(ds, lists, domain, n - 1, d);
      UptoNext(At(lists, d), n - 1);
    }
  }

  lemma {:induction false} OwnCount(s: seq<string>, domain: string -> string, x: string)
    ensures multiset(Of(s, domain, domain(x)))[x] == multiset(s)[x]
  {
    if |s| > 0 {
      assert s == s[..|s| - 1] + [s[|s| - 1]];
      OwnCount(s[..|s| - 1], domain, x);
    }
  }

  lemma OrderIsByRegistry(keys: seq<string>, domain: string -> string, day: int)
    ensures ByRegistry(Strings.SortedSet(Domains(keys, domain)), Turned(Grouped(keys, domain), day), domain)
    ensures forall d :: d in Strings.SortedSet(Domains(keys, domain)) <==> d in Domains(keys, domain)
  {
    var ds, lists := Strings.SortedSet(Domains(keys, domain)), Turned(Grouped(keys, domain), day);
    Strings.SortedSetIs(Domains(keys, domain));
    forall i, j | 0 <= i < j < |ds| ensures ds[i] != ds[j] {
      Strings.IncreasingDistinct(ds, j);
      assert ds[i] in ds[..j];
    }
    forall d, x | d in lists && x in lists[d] ensures domain(x) == d {
      SameMembers(Of(keys, domain, d), day, x);
      OfIs(keys, domain, d);
    }
  }

  lemma SameMembers(list: seq<string>, day: int, x: string)
    ensures x in OnDay(list, day) <==> x in list
  {
    OnDayPermutes(list, day);
    assert x in OnDay(list, day) <==> x in multiset(OnDay(list, day));
    assert x in list <==> x in multiset(list);
  }

  /** Each registry's share of the feed is its list, turned to the day. */
  lemma OrderOf(keys: seq<string>, domain: string -> string, day: int, d: string)
    ensures Of(Order(keys, domain, day), domain, d) == OnDay(Of(keys, domain, d), day)
  {
    var ds, lists := Strings.SortedSet(Domains(keys, domain)), Turned(Grouped(keys, domain), day);
    OrderIsByRegistry(keys, domain, day);
    RoundsOf(ds, lists, domain, Longest(ds, lists), d);
    if d !in ds {
      NoneOf(keys, domain, d);
    }
  }

  lemma {:induction false} NoneOf(keys: seq<string>, domain: string -> string, d: string)
    requires d !in Domains(keys, domain)
    ensures Of(keys, domain, d) == []
  {
    if |keys| > 0 {
      assert domain(keys[|keys| - 1]) in Domains(keys, domain);
      NoneOf(keys[..|keys| - 1], domain, d);
    }
  }

  /** Nothing is lost and nothing looked up twice. */
  lemma FeedPermutes(keys: seq<string>, domain: string -> string, day: int)
    ensures multiset(Order(keys, domain, day)) == multiset(keys)
  {
    var out := Order(keys, domain, day);
    forall x: string ensures multiset(out)[x] == multiset(keys)[x] {
      OwnCount(out, domain, x);
      OwnCount(keys, domain, x);
      OrderOf(keys, domain, day, domain(x));
      OnDayPermutes(Of(keys, domain, domain(x)), day);
    }
  }

  lemma {:induction false} RoundsExtend(ds: seq<string>, lists: Lists, m: nat, n: nat)
    requires m <= n
    ensures Rounds(ds, lists, m) <= Rounds(ds, lists, n)
  {
    if m < n {
      RoundsExtend(ds, lists, m, n - 1);
    }
  }

  lemma {:induction false} WhichRound(ds: seq<string>, lists: Lists, n: nat, m: nat) returns (i: nat)
    requires m <= |Rounds(ds, lists, n)| && n > 0
    ensures i < n && |Rounds(ds, lists, i)| <= m <= |Rounds(ds, lists, i + 1)|
  {
    if n == 1 || |Rounds(ds, lists, n - 1)| <= m {
      i := n - 1;
    } else {
      i := WhichRound(ds, lists, n - 1, m);
    }
  }

  lemma PrefixCounts(a: seq<string>, b: seq<string>, domain: string -> string, d: string)
    requires a <= b
    ensures CountOf(a, domain, d) <= CountOf(b, domain, d)
  {
    assert b == a + b[|a|..];
    OfJoins(a, b[|a|..], domain, d);
  }

  lemma PrefixOf(a: seq<string>, b: seq<string>, c: seq<string>, m: nat)
    requires a <= c && b <= c && |a| <= m <= |b|
    ensures a <= c[..m] <= b
  {
    assert a == c[..m][..|a|];
    assert c[..m] == b[..m];
  }

  /** Between two rounds: those counts bracket a registry's. */
  lemma Bracket(ds: seq<string>, lists: Lists, domain: string -> string, n: nat, m: nat, i: nat, d: string)
    requires ByRegistry(ds, lists, domain) && d in ds && i < n
    requires |Rounds(ds, lists, i)| <= m <= |Rounds(ds, lists, i + 1)| <= |Rounds(ds, lists, n)|
    ensures |Upto(At(lists, d), i)| <= CountOf(Rounds(ds, lists, n)[..m], domain, d) <= |Upto(At(lists, d), i + 1)|
  {
    hide ByRegistry, Rounds, At, Upto, Of;
    RoundsExtend(ds, lists, i, n);
    RoundsExtend(ds, lists, i + 1, n);
    PrefixOf(Rounds(ds, lists, i), Rounds(ds, lists, i + 1), Rounds(ds, lists, n), m);
    PrefixCounts(Rounds(ds, lists, i), Rounds(ds, lists, n)[..m], domain, d);
    PrefixCounts(Rounds(ds, lists, n)[..m], Rounds(ds, lists, i + 1), domain, d);
    RoundsOf(ds, lists, domain, i, d);
    RoundsOf(ds, lists, domain, i + 1, d);
  }

  lemma RoundBound(ds: seq<string>, lists: Lists, n: nat, m: nat) returns (i: nat)
    requires m <= |Rounds(ds, lists, n)| && n > 0
    ensures i < n && |Rounds(ds, lists, i)| <= m <= |Rounds(ds, lists, i + 1)| <= |Rounds(ds, lists, n)|
  {
    i := WhichRound(ds, lists, n, m);
    RoundsExtend(ds, lists, i + 1, n);
  }

  /** At any point of the feed no registry is more than one lookup ahead of another that still has tags to check. */
  lemma FeedIsFair(keys: seq<string>, domain: string -> string, day: int, m: nat, a: string, b: string)
    requires m <= |Order(keys, domain, day)| && a in Domains(keys, domain) && b in Domains(keys, domain)
    requires CountOf(Order(keys, domain, day)[..m], domain, b) < CountOf(keys, domain, b)
    ensures CountOf(Order(keys, domain, day)[..m], domain, a) <= CountOf(Order(keys, domain, day)[..m], domain, b) + 1
  {
    var ds, lists := Strings.SortedSet(Domains(keys, domain)), Turned(Grouped(keys, domain), day);
    var n := Longest(ds, lists);
    OrderIsByRegistry(keys, domain, day);
    hide Of, Rounds, ByRegistry, Domains, OnDay, Strings.SortedSet;
    assert |At(lists, b)| == CountOf(keys, domain, b) && n > 0;
    var i := RoundBound(ds, lists, n, m);
    Bracket(ds, lists, domain, n, m, i, a);
    Bracket(ds, lists, domain, n, m, i, b);
  }
}
