/** Stable sorting by a comparison, and when its result does not depend on the order of its input. */
module Sorting {
  /** Before the first element it is less than: after all its equals. */
  function Insert<T>(less: (T, T) -> bool, x: T, s: seq<T>): seq<T> {
    if |s| == 0 || less(x, s[0]) then [x] + s else [s[0]] + Insert(less, x, s[1..])
  }

  function Sorted<T>(less: (T, T) -> bool, s: seq<T>): seq<T> {
    if |s| == 0 then [] else Insert(less, s[|s| - 1], Sorted(less, s[..|s| - 1]))
  }

  /** A strict order in which being incomparable is an equivalence. */
  ghost predicate StrictWeak<T(!new)>(less: (T, T) -> bool) {
    && (forall x, y :: less(x, y) ==> !less(y, x))
    && (forall x, y, z :: less(x, z) ==> less(x, y) || less(y, z))
  }

  ghost predicate Ordered<T>(less: (T, T) -> bool, s: seq<T>) {
    forall i, j | 0 <= i < j < |s| :: !less(s[j], s[i])
  }

  lemma {:induction false} InsertPermutes<T>(less: (T, T) -> bool, x: T, s: seq<T>)
    ensures multiset(Insert(less, x, s)) == multiset(s) + multiset{x}
  {
    if |s| > 0 && !less(x, s[0]) {
      InsertPermutes(less, x, s[1..]);
      assert s == [s[0]] + s[1..];
    }
  }

  lemma {:induction false} SortedPermutes<T>(less: (T, T) -> bool, s: seq<T>)
    ensures multiset(Sorted(less, s)) == multiset(s)
    ensures |Sorted(less, s)| == |s|
  {
    if |s| > 0 {
      assert s == s[..|s| - 1] + [s[|s| - 1]];
      SortedPermutes(less, s[..|s| - 1]);
      InsertPermutes(less, s[|s| - 1], Sorted(less, s[..|s| - 1]));
    }
    assert |multiset(Sorted(less, s))| == |multiset(s)|;
  }

  lemma InMultiset<T>(s: seq<T>, x: T)
    ensures x in s <==> x in multiset(s)
  {
  }

  lemma {:induction false} InsertOrders<T(!new)>(less: (T, T) -> bool, x: T, s: seq<T>)
    requires StrictWeak(less) && Ordered(less, s)
    ensures Ordered(less, Insert(less, x, s))
  {
    if |s| > 0 {
      if less(x, s[0]) {
        forall j | 0 <= j < |s| ensures !less(s[j], x) {
          assert j == 0 || !less(s[j], s[0]);
        }
      } else {
        var t := Insert(less, x, s[1..]);
        InsertOrders(less, x, s[1..]);
        InsertPermutes(less, x, s[1..]);
        forall j | 0 <= j < |t| ensures !less(t[j], s[0]) {
          InMultiset(t, t[j]);
          InMultiset(s[1..], t[j]);
        }
      }
    }
  }

  lemma {:induction false} SortedIsOrdered<T(!new)>(less: (T, T) -> bool, s: seq<T>)
    requires StrictWeak(less)
    ensures Ordered(less, Sorted(less, s))
  {
    if |s| > 0 {
      SortedIsOrdered(less, s[..|s| - 1]);
      InsertOrders(less, s[|s| - 1], Sorted(less, s[..|s| - 1]));
    }
  }

  /** No two different elements are tied. */
  ghost predicate Untied<T>(less: (T, T) -> bool, s: multiset<T>) {
    forall x, y | x in s && y in s :: x == y || less(x, y) || less(y, x)
  }

  lemma SameHead<T>(less: (T, T) -> bool, s: seq<T>, t: seq<T>)
    requires Ordered(less, s) && Ordered(less, t) && multiset(s) == multiset(t) && Untied(less, multiset(s))
    requires |s| > 0 && |t| > 0
    ensures s[0] == t[0]
  {
    InMultiset(s, s[0]);
    InMultiset(t, s[0]);
    var k :| 0 <= k < |t| && t[k] == s[0];
    InMultiset(t, t[0]);
    InMultiset(s, t[0]);
    var m :| 0 <= m < |s| && s[m] == t[0];
  }

  lemma WithoutHead<T>(s: seq<T>)
    requires |s| > 0
    ensures multiset(s[1..]) == multiset(s) - multiset{s[0]}
  {
    assert s == [s[0]] + s[1..];
  }

  lemma TailOf<T>(less: (T, T) -> bool, s: seq<T>)
    requires |s| > 0 && Ordered(less, s) && Untied(less, multiset(s))
    ensures Ordered(less, s[1..]) && Untied(less, multiset(s[1..]))
  {
    WithoutHead(s);
  }

  lemma {:induction false} OneOrder<T>(less: (T, T) -> bool, s: seq<T>, t: seq<T>)
    requires Ordered(less, s) && Ordered(less, t) && multiset(s) == multiset(t) && Untied(less, multiset(s))
    ensures s == t
  {
    hide Ordered, Untied;
    assert |multiset(t)| == |t| && |multiset(s)| == |s|;
    if |s| > 0 {
      assert s == [s[0]] + s[1..] && t == [t[0]] + t[1..];
      SameHead(less, s, t);
      WithoutHead(s);
      WithoutHead(t);
      TailOf(less, s);
      TailOf(less, t);
      OneOrder(less, s[1..], t[1..]);
    }
  }

  /** Without ties between different elements, sorting forgets the order it was given. */
  lemma SortedForgets<T(!new)>(less: (T, T) -> bool, s: seq<T>, t: seq<T>)
    requires StrictWeak(less) && multiset(s) == multiset(t) && Untied(less, multiset(s))
    ensures Sorted(less, s) == Sorted(less, t)
  {
    SortedPermutes(less, s);
    SortedPermutes(less, t);
    SortedIsOrdered(less, s);
    SortedIsOrdered(less, t);
    OneOrder(less, Sorted(less, s), Sorted(less, t));
  }

  /** The results of `f` one after the other. */
  function FlatMap<T, U>(f: T -> seq<U>, s: seq<T>): seq<U> {
    if |s| == 0 then [] else FlatMap(f, s[..|s| - 1]) + f(s[|s| - 1])
  }

  lemma {:induction false} FlatMapJoins<T, U>(f: T -> seq<U>, s: seq<T>, t: seq<T>)
    ensures FlatMap(f, s + t) == FlatMap(f, s) + FlatMap(f, t)
  {
    if |t| == 0 {
      assert s + t == s;
    } else {
      assert (s + t)[..|s + t| - 1] == s + t[..|t| - 1];
      FlatMapJoins(f, s, t[..|t| - 1]);
    }
  }

  /** Rearranging the input only rearranges the output. */
  lemma {:induction false} FlatMapPermutes<T, U>(f: T -> seq<U>, s: seq<T>, t: seq<T>)
    requires multiset(s) == multiset(t)
    ensures multiset(FlatMap(f, s)) == multiset(FlatMap(f, t))
    decreases |s|
  {
    if |s| > 0 {
      var n := |s| - 1;
      assert s == s[..n] + [s[n]];
      InMultiset(s, s[n]);
      InMultiset(t, s[n]);
      var k :| 0 <= k < |t| && t[k] == s[n];
      var rest := t[..k] + t[k + 1..];
      assert t == t[..k] + [t[k]] + t[k + 1..];
      assert multiset(rest) == multiset(t) - multiset{s[n]};
      assert multiset(s[..n]) == multiset(s) - multiset{s[n]};
      FlatMapPermutes(f, s[..n], rest);
      FlatMapJoins(f, t[..k], t[k + 1..]);
      FlatMapJoins(f, t[..k] + [t[k]], t[k + 1..]);
      assert (t[..k] + [t[k]])[..k] == t[..k];
    } else {
      assert |multiset(t)| == 0;
    }
  }
}
