/** String order, sorting and the alias normal form (internal/engine/apply.go, normalizeAliases). */
module Strings {
  predicate Less(a: string, b: string) {
    |b| > 0 && (|a| == 0 || a[0] < b[0] || (a[0] == b[0] && Less(a[1..], b[1..])))
  }

  lemma {:induction false} LessTotal(a: string, b: string)
    ensures Less(a, b) || Less(b, a) || a == b
    ensures !(Less(a, b) && Less(b, a)) && !Less(a, a)
  {
    if |a| > 0 && |b| > 0 && a[0] == b[0] {
      LessTotal(a[1..], b[1..]);
      assert a == [a[0]] + a[1..] && b == [b[0]] + b[1..];
    }
    if |a| > 0 {
      LessTotal(a[1..], a[1..]);
    }
  }

  lemma {:induction false} LessTrans(a: string, b: string, c: string)
    requires Less(a, b) && Less(b, c)
    ensures Less(a, c)
  {
    if |a| > 0 && a[0] == b[0] && b[0] == c[0] {
      LessTrans(a[1..], b[1..], c[1..]);
    }
  }

  /** Strictly increasing, so also without repeats. */
  predicate Increasing(s: seq<string>) {
    forall i | 0 < i < |s| :: Less(s[i - 1], s[i])
  }

  function Insert(x: string, s: seq<string>): seq<string> {
    if |s| == 0 || Less(x, s[0]) then [x] + s
    else if x == s[0] then s
    else [s[0]] + Insert(x, s[1..])
  }

  /** The distinct strings of `s` in increasing order. */
  function SortedSet(s: seq<string>): seq<string> {
    if |s| == 0 then [] else Insert(s[0], SortedSet(s[1..]))
  }

  lemma {:induction false} InsertIncreasing(x: string, s: seq<string>)
    requires Increasing(s)
    ensures Increasing(Insert(x, s))
    ensures forall y :: y in Insert(x, s) <==> y == x || y in s
    ensures |Insert(x, s)| > 0 && (Insert(x, s)[0] == x || (|s| > 0 && Insert(x, s)[0] == s[0]))
  {
    if |s| > 0 && !Less(x, s[0]) && x != s[0] {
      LessTotal(x, s[0]);
      var t := Insert(x, s[1..]);
      InsertIncreasing(x, s[1..]);
      assert s == [s[0]] + s[1..];
      forall i | 0 < i <= |t| ensures Less(([s[0]] + t)[i - 1], ([s[0]] + t)[i]) {
      }
    }
  }

  lemma {:induction false} SortedSetIs(s: seq<string>)
    ensures Increasing(SortedSet(s))
    ensures forall y :: y in SortedSet(s) <==> y in s
  {
    if |s| > 0 {
      SortedSetIs(s[1..]);
      InsertIncreasing(s[0], SortedSet(s[1..]));
      assert s == [s[0]] + s[1..];
    }
  }

  lemma {:induction false} HeadIsLeast(s: seq<string>, i: nat)
    requires Increasing(s) && 0 < i < |s|
    ensures Less(s[0], s[i])
  {
    if i > 1 {
      HeadIsLeast(s, i - 1);
      LessTrans(s[0], s[i - 1], s[i]);
    }
  }

  /** Two increasing sequences with the same elements are the same. */
  lemma IncreasingDistinct(s: seq<string>, i: nat)
    requires Increasing(s) && i < |s|
    ensures s[i] !in s[..i]
  {
    forall j | 0 <= j < i ensures s[j] != s[i] {
      HeadIsLeast(s[j..], i - j);
      LessTotal(s[j], s[i]);
    }
  }

  lemma {:induction false} IncreasingUnique(s: seq<string>, t: seq<string>)
    requires Increasing(s) && Increasing(t)
    requires forall y :: y in s <==> y in t
    ensures s == t
  {
    assert |s| > 0 ==> s[0] in s;
    assert |t| > 0 ==> t[0] in t;
    if |s| > 0 && |t| > 0 {
      assert s[0] == t[0] by {
        if s[0] != t[0] {
          assert s[0] in t && t[0] in s;
          var i :| 0 <= i < |t| && t[i] == s[0];
          var j :| 0 <= j < |s| && s[j] == t[0];
          HeadIsLeast(t, i);
          HeadIsLeast(s, j);
          LessTotal(s[0], t[0]);
        }
      }
      TailsAgree(s, t);
      IncreasingUnique(s[1..], t[1..]);
      assert s == [s[0]] + s[1..] && t == [t[0]] + t[1..];
    }
  }

  lemma TailsAgree(s: seq<string>, t: seq<string>)
    requires Increasing(s) && Increasing(t) && |s| > 0 && |t| > 0 && s[0] == t[0]
    requires forall y :: y in s <==> y in t
    ensures forall y :: y in s[1..] <==> y in t[1..]
  {
    forall y ensures y in s[1..] <==> y in t[1..] {
      if y in s[1..] {
        var i :| 0 < i < |s| && s[i] == y;
        HeadIsLeast(s, i);
        LessTotal(s[0], y);
        assert y in s && y in t && y != t[0];
      }
      if y in t[1..] {
        var i :| 0 < i < |t| && t[i] == y;
        HeadIsLeast(t, i);
        LessTotal(t[0], y);
        assert y in t && y in s && y != s[0];
      }
    }
  }

  // ---------------------------------------------------------------------------
  // Aliases

  /** The strings of a set in increasing order. */
  ghost function SortedOf(s: set<string>): (r: seq<string>)
    ensures Increasing(r) && forall x :: x in r <==> x in s
  {
    if s == {} then []
    else
      var x :| x in s;
      InsertIncreasing(x, SortedOf(s - {x}));
      Insert(x, SortedOf(s - {x}))
  }

  predicate Blank(c: char) {
    c == ' ' || c == '\t' || c == '\n' || c == '\r' || c == 0x0b as char || c == 0x0c as char
  }

  function Trim(s: string): string {
    if |s| > 0 && Blank(s[0]) then Trim(s[1..])
    else if |s| > 0 && Blank(s[|s| - 1]) then Trim(s[..|s| - 1])
    else s
  }

  lemma TrimTwice(s: string)
    ensures Trim(Trim(s)) == Trim(s)
  {
  }

  function Trimmed(s: seq<string>): seq<string> {
    if |s| == 0 then []
    else (if Trim(s[0]) == "" then [] else [Trim(s[0])]) + Trimmed(s[1..])
  }

  /** Trimmed, without empties or repeats, in order. */
  function Normalize(aliases: seq<string>): seq<string> {
    SortedSet(Trimmed(aliases))
  }

  lemma {:induction false} TrimmedElements(s: seq<string>)
    ensures forall y <- Trimmed(s) :: y != "" && Trim(y) == y
  {
    if |s| > 0 {
      TrimmedElements(s[1..]);
      TrimTwice(s[0]);
    }
  }

  lemma {:induction false} TrimmedIsIdentity(s: seq<string>)
    requires forall y <- s :: y != "" && Trim(y) == y
    ensures Trimmed(s) == s
  {
    if |s| > 0 {
      assert s == [s[0]] + s[1..];
      assert forall y <- s[1..] :: y in s;
      TrimmedIsIdentity(s[1..]);
    }
  }

  /** The normal form does not depend on order or repeats, and is its own normal form. */
  lemma NormalizeTwice(aliases: seq<string>)
    ensures Normalize(Normalize(aliases)) == Normalize(aliases)
  {
    var t, n := Trimmed(aliases), Normalize(aliases);
    TrimmedElements(aliases);
    SortedSetIs(t);
    TrimmedIsIdentity(n);
    SortedSetIs(n);
    IncreasingUnique(SortedSet(n), n);
  }

  lemma {:induction false} TrimmedAre(s: seq<string>)
    ensures forall y :: y in Trimmed(s) <==> y != "" && exists i :: 0 <= i < |s| && Trim(s[i]) == y
  {
    if |s| > 0 {
      TrimmedAre(s[1..]);
      forall y ensures y in Trimmed(s) <==> y != "" && exists i :: 0 <= i < |s| && Trim(s[i]) == y {
        if y in Trimmed(s[1..]) {
          var i :| 0 <= i < |s[1..]| && Trim(s[1..][i]) == y;
          assert Trim(s[i + 1]) == y;
        }
        if y != "" && exists i :: 0 <= i < |s| && Trim(s[i]) == y {
          var i :| 0 <= i < |s| && Trim(s[i]) == y;
          assert i > 0 ==> s[i] == s[1..][i - 1];
        }
      }
    }
  }

  /** The normal form holds exactly what is left of the aliases trimmed, each once, in increasing order. */
  lemma NormalizeIs(aliases: seq<string>)
    ensures Increasing(Normalize(aliases))
    ensures forall y :: y in Normalize(aliases) <==> y != "" && exists i :: 0 <= i < |aliases| && Trim(aliases[i]) == y
  {
    TrimmedAre(aliases);
    SortedSetIs(Trimmed(aliases));
  }

  predicate AllBlank(s: string) {
    forall c <- s :: Blank(c)
  }

  /** Trimming takes blanks off both ends and nothing else. */
  lemma {:induction false} TrimIs(s: string) returns (pre: string, post: string)
    ensures s == pre + Trim(s) + post && AllBlank(pre) && AllBlank(post)
    ensures Trim(s) == "" || (!Blank(Trim(s)[0]) && !Blank(Trim(s)[|Trim(s)| - 1]))
  {
    pre, post := "", "";
    if |s| > 0 && Blank(s[0]) {
      pre, post := TrimIs(s[1..]);
      assert s == [s[0]] + pre + Trim(s) + post;
      pre := [s[0]] + pre;
    } else if |s| > 0 && Blank(s[|s| - 1]) {
      pre, post := TrimIs(s[..|s| - 1]);
      assert s == s[..|s| - 1] + [s[|s| - 1]];
      assert s == pre + Trim(s) + (post + [s[|s| - 1]]);
      post := post + [s[|s| - 1]];
    }
  }

  /** What the change feed compares: the aliases joined with ", ". */
  function Join(aliases: seq<string>): string {
    if |aliases| == 0 then ""
    else if |aliases| == 1 then aliases[0]
    else aliases[0] + ", " + Join(aliases[1..])
  }
}
