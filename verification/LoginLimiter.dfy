/**
 The sliding-window login limiter (internal/server/server.go, loginLimiter): at most so many attempts per
 client and window, in a table that never grows past its bound.
 */
module LoginLimiter {
  import opened Results

  const OVERFLOW := "__overflow__"

  datatype Config = Config(window: nat, cleanupInterval: nat, maxAttempts: nat, maxBuckets: nat)

  type Buckets = map<string, seq<int>>

  // ---------------------------------------------------------------------------
  // Attempts still in the window

  function Active(attempts: seq<int>, cutoff: int): (r: seq<int>)
    ensures |r| <= |attempts|
  {
    if |attempts| == 0 then []
    else
      var before, last := Active(attempts[..|attempts| - 1], cutoff), attempts[|attempts| - 1];
      if last > cutoff then before + [last] else before
  }

  /** Drops the attempts up to the cutoff, in place; the first `kept` cells hold the rest. */
  method ActiveAttempts(attempts: array<int>, cutoff: int) returns (kept: nat)
    modifies attempts
    ensures kept <= attempts.Length && attempts[..kept] == Active(old(attempts[..]), cutoff)
  {
    kept := 0;
    ghost var was := attempts[..];
    for i := 0 to attempts.Length
      invariant kept <= i && attempts[..kept] == Active(was[..i], cutoff)
      invariant forall j | i <= j < attempts.Length :: attempts[j] == was[j]
    {
      assert was[..i + 1][..i] == was[..i];
      if attempts[i] > cutoff {
        attempts[kept] := attempts[i];
        kept := kept + 1;
        assert attempts[..kept] == attempts[..kept - 1] + [was[i]];
      }
    }
    assert was[..attempts.Length] == was;
  }

  // ---------------------------------------------------------------------------
  // One call, on values

  datatype State = State(buckets: Buckets, lastCleanup: Option<int>)

  function AttemptsOf(b: Buckets, key: string): seq<int> {
    if key in b then b[key] else []
  }

  /** Every bucket cut down to its active attempts; the empty ones go. */
  function Cleaned(b: Buckets, cutoff: int): Buckets {
    map key | key in b && Active(b[key], cutoff) != [] :: Active(b[key], cutoff)
  }

  function Swept(c: Config, s: State, now: int): State {
    if s.lastCleanup.None? || now < s.lastCleanup.value || now - s.lastCleanup.value >= c.cleanupInterval
    then State(Cleaned(s.buckets, now - c.window), Some(now))
    else s
  }

  /** The bucket an attempt counts in: the client's own, or the common one when the table is full. */
  function BucketFor(c: Config, b: Buckets, client: string): string {
    if client !in b && |b| >= c.maxBuckets - 1 then OVERFLOW else client
  }

  datatype Step = Step(state: State, bucket: string, allowed: bool)

  function Allowed(c: Config, s: State, client: string, now: int): Step {
    var swept := Swept(c, s, now);
    var key := BucketFor(c, swept.buckets, client);
    var active := Active(AttemptsOf(swept.buckets, key), now - c.window);
    if |active| >= c.maxAttempts then Step(swept.(buckets := swept.buckets[key := active]), key, false)
    else Step(swept.(buckets := swept.buckets[key := active + [now]]), key, true)
  }

  // ---------------------------------------------------------------------------
  // The limiter

  class Limiter {
    const config: Config
    var buckets: Buckets
    var lastCleanup: Option<int>

    ghost function Contents(): State
      reads this
    {
      State(buckets, lastCleanup)
    }

    constructor (config: Config)
      ensures this.config == config && Contents() == State(map[], None)
    {
      this.config, buckets, lastCleanup := config, map[], None;
    }

    method Filtered(attempts: seq<int>, cutoff: int) returns (r: seq<int>)
      ensures r == Active(attempts, cutoff)
    {
      var cells := new int[|attempts|](i requires 0 <= i < |attempts| => attempts[i]);
      assert cells[..] == attempts;
      var kept := ActiveAttempts(cells, cutoff);
      r := cells[..kept];
    }

    method Cleanup(now: int)
      modifies this
      ensures Contents() == State(Cleaned(old(buckets), now - config.window), Some(now))
    {
      hide Active;
      var cutoff, todo := now - config.window, buckets.Keys;
      ghost var was := buckets;
      while todo != {}
        invariant todo <= was.Keys
        invariant forall key | key in todo :: key in buckets && buckets[key] == was[key]
        invariant forall key | key in was && key !in todo ::
          if Active(was[key], cutoff) == [] then key !in buckets
          else key in buckets && buckets[key] == Active(was[key], cutoff)
        invariant buckets.Keys <= was.Keys
        decreases todo
      {
        var client :| client in todo;
        todo := todo - {client};
        var active := Filtered(buckets[client], cutoff);
        if |active| == 0 {
          buckets := buckets - {client};
        } else {
          buckets := buckets[client := active];
        }
      }
      lastCleanup := Some(now);
      assert buckets == Cleaned(was, cutoff);
    }

    method Allow(client0: string, now: int) returns (allowed: bool)
      modifies this
      ensures
        var step := Allowed(config, old(Contents()), client0, now);
        Contents() == step.state && allowed == step.allowed
    {
      if lastCleanup.None? || now < lastCleanup.value || now - lastCleanup.value >= config.cleanupInterval {
        Cleanup(now);
      }
      var client := client0;
      if client !in buckets && |buckets| >= config.maxBuckets - 1 {
        client := OVERFLOW;
      }
      var active := Filtered(if client in buckets then buckets[client] else [], now - config.window);
      allowed := |active| < config.maxAttempts;
      buckets := buckets[client := if allowed then active + [now] else active];
    }
  }

  // ---------------------------------------------------------------------------
  // Whole runs

  datatype Call = Call(client: string, now: int)

  datatype Admission = Admission(bucket: string, at: int)

  datatype History = History(state: State, admitted: seq<Admission>)

  /** The limiter and everything it let through, after these calls. */
  function Run(c: Config, calls: seq<Call>): History {
    if |calls| == 0 then History(State(map[], None), [])
    else Next(c, Run(c, calls[..|calls| - 1]), calls[|calls| - 1])
  }

  predicate Nondecreasing(calls: seq<Call>) {
    forall i, j | 0 <= i < j < |calls| :: calls[i].now <= calls[j].now
  }

  /** The times a bucket admitted an attempt after the cutoff. */
  function Times(a: seq<Admission>, bucket: string, cutoff: int): seq<int> {
    if |a| == 0 then []
    else
      var before, last := Times(a[..|a| - 1], bucket, cutoff), a[|a| - 1];
      if last.bucket == bucket && last.at > cutoff then before + [last.at] else before
  }

  /** Admissions of one bucket after `lo` and no later than `hi`. */
  function InWindow(a: seq<Admission>, bucket: string, lo: int, hi: int): nat {
    if |a| == 0 then 0
    else InWindow(a[..|a| - 1], bucket, lo, hi) + if a[|a| - 1].bucket == bucket && lo < a[|a| - 1].at <= hi then 1 else 0
  }

  /** Admissions of all buckets after `lo` and no later than `hi`. */
  function AllInWindow(a: seq<Admission>, lo: int, hi: int): nat {
    if |a| == 0 then 0
    else AllInWindow(a[..|a| - 1], lo, hi) + if lo < a[|a| - 1].at <= hi then 1 else 0
  }

  lemma {:induction false} ActiveTwice(s: seq<int>, c1: int, c2: int)
    requires c1 <= c2
    ensures Active(Active(s, c1), c2) == Active(s, c2)
  {
    if |s| > 0 {
      var init, last := Active(s[..|s| - 1], c1), s[|s| - 1];
      ActiveTwice(s[..|s| - 1], c1, c2);
      if last > c1 {
        assert (init + [last])[..|init|] == init;
      }
    }
  }

  lemma {:induction false} TimesActive(a: seq<Admission>, bucket: string, c1: int, c2: int)
    requires c1 <= c2
    ensures Active(Times(a, bucket, c1), c2) == Times(a, bucket, c2)
  {
    if |a| > 0 {
      var init, last := Times(a[..|a| - 1], bucket, c1), a[|a| - 1];
      TimesActive(a[..|a| - 1], bucket, c1, c2);
      if last.bucket == bucket && last.at > c1 {
        assert (init + [last.at])[..|init|] == init;
      }
    }
  }

  /** What the table knows: each bucket's attempts still in the window are exactly the ones it admitted there. */
  ghost predicate Knows(c: Config, h: History, now: int) {
    forall key: string :: KnowsOne(c, h, key, now)
  }

  predicate KnowsOne(c: Config, h: History, key: string, now: int) {
    var active := Active(AttemptsOf(h.state.buckets, key), now - c.window);
    active == Times(h.admitted, key, now - c.window) && |active| <= c.maxAttempts
  }

  /** All buckets but the common one leave it a place. */
  predicate Bounded(c: Config, keys: set<string>) {
    |keys - {OVERFLOW}| <= (if c.maxBuckets == 0 then 0 else c.maxBuckets - 1)
  }

  lemma KnowsLater(c: Config, h: History, now: int, later: int)
    requires Knows(c, h, now) && now <= later
    ensures Knows(c, h, later)
  {
    forall key: string ensures KnowsOne(c, h, key, later) {
      assert KnowsOne(c, h, key, now);
      ActiveTwice(AttemptsOf(h.state.buckets, key), now - c.window, later - c.window);
      TimesActive(h.admitted, key, now - c.window, later - c.window);
    }
  }

  lemma SweptActive(c: Config, s: State, now: int, key: string)
    ensures Active(AttemptsOf(Swept(c, s, now).buckets, key), now - c.window) == Active(AttemptsOf(s.buckets, key), now - c.window)
    ensures Swept(c, s, now).buckets.Keys <= s.buckets.Keys
  {
    ActiveTwice(AttemptsOf(s.buckets, key), now - c.window, now - c.window);
  }

  lemma SweepBounded(c: Config, s: State, now: int)
    requires Bounded(c, s.buckets.Keys)
    ensures Bounded(c, Swept(c, s, now).buckets.Keys)
  {
    hide Swept, Active, AttemptsOf;
    SweptActive(c, s, now, "");
    Fewer(Swept(c, s, now).buckets.Keys - {OVERFLOW}, s.buckets.Keys - {OVERFLOW});
  }

  lemma SweepKnows(c: Config, h: History, now: int)
    requires Knows(c, h, now) && Bounded(c, h.state.buckets.Keys)
    ensures Knows(c, h.(state := Swept(c, h.state, now)), now) && Bounded(c, Swept(c, h.state, now).buckets.Keys)
  {
    hide Swept, Active, Times, AttemptsOf, Bounded;
    forall key: string ensures KnowsOne(c, h.(state := Swept(c, h.state, now)), key, now) {
      assert KnowsOne(c, h, key, now);
      SweptActive(c, h.state, now, key);
    }
    SweepBounded(c, h.state, now);
  }

  /** A refused attempt leaves its bucket's active attempts. */
  function Refused(c: Config, h: History, key: string, now: int): History {
    h.(state := h.state.(buckets := h.state.buckets[key := Active(AttemptsOf(h.state.buckets, key), now - c.window)]))
  }

  /** An admitted one joins them. */
  function Admitted(c: Config, h: History, key: string, now: int): History {
    var active := Active(AttemptsOf(h.state.buckets, key), now - c.window);
    History(h.state.(buckets := h.state.buckets[key := active + [now]]), h.admitted + [Admission(key, now)])
  }

  lemma RefusedKnows(c: Config, h: History, key: string, now: int)
    requires Knows(c, h, now)
    ensures Knows(c, Refused(c, h, key, now), now)
  {
    hide Active, Times;
    var after := Refused(c, h, key, now);
    forall k: string ensures KnowsOne(c, after, k, now) {
      assert KnowsOne(c, h, k, now);
      ActiveTwice(AttemptsOf(h.state.buckets, key), now - c.window, now - c.window);
    }
  }

  lemma ActiveJoins(s: seq<int>, now: int, cutoff: int)
    ensures Active(Active(s, cutoff) + [now], cutoff) == Active(s, cutoff) + (if now > cutoff then [now] else [])
  {
    ActiveTwice(s, cutoff, cutoff);
    assert (Active(s, cutoff) + [now])[..|Active(s, cutoff)|] == Active(s, cutoff);
  }

  lemma TimesJoin(a: seq<Admission>, x: Admission, key: string, cutoff: int)
    ensures Times(a + [x], key, cutoff) == Times(a, key, cutoff) + (if x.bucket == key && x.at > cutoff then [x.at] else [])
  {
    assert (a + [x])[..|a|] == a;
  }

  /** There is room for an admitted one. */
  lemma AdmittedKnows(c: Config, h: History, key: string, now: int)
    requires Knows(c, h, now) && |Active(AttemptsOf(h.state.buckets, key), now - c.window)| < c.maxAttempts
    ensures Knows(c, Admitted(c, h, key, now), now)
  {
    var cutoff := now - c.window;
    var after := Admitted(c, h, key, now);
    ActiveJoins(AttemptsOf(h.state.buckets, key), now, cutoff);
    forall k: string ensures KnowsOne(c, after, k, now) {
      assert KnowsOne(c, h, k, now);
      TimesJoin(h.admitted, Admission(key, now), k, cutoff);
      hide Active, Times;
    }
  }

  lemma OneMore(keys: set<string>, key: string)
    ensures key in keys || key == OVERFLOW ==> keys + {key} - {OVERFLOW} == keys - {OVERFLOW}
    ensures |keys + {key} - {OVERFLOW}| <= |keys| + 1
  {
    assert keys + {key} - {OVERFLOW} <= keys + {key};
    Fewer(keys + {key} - {OVERFLOW}, keys + {key});
    assert |keys + {key}| <= |keys| + 1;
  }

  lemma BucketBounded(c: Config, b: Buckets, client: string)
    requires Bounded(c, b.Keys)
    ensures Bounded(c, b.Keys + {BucketFor(c, b, client)})
  {
    OneMore(b.Keys, BucketFor(c, b, client));
  }

  /** The history after one more call. */
  function Next(c: Config, h: History, call: Call): History {
    var step := Allowed(c, h.state, call.client, call.now);
    History(step.state, if step.allowed then h.admitted + [Admission(step.bucket, call.now)] else h.admitted)
  }

  lemma NextIs(c: Config, h: History, call: Call)
    ensures
      var h1, next := h.(state := Swept(c, h.state, call.now)), Next(c, h, call);
      var key := BucketFor(c, h1.state.buckets, call.client);
      next.state.buckets.Keys == h1.state.buckets.Keys + {key} &&
      next == if |Active(AttemptsOf(h1.state.buckets, key), call.now - c.window)| >= c.maxAttempts
              then Refused(c, h1, key, call.now) else Admitted(c, h1, key, call.now)
  {
    hide Swept, Active, BucketFor;
  }

  lemma StepKnows(c: Config, h: History, call: Call)
    requires Knows(c, h, call.now) && Bounded(c, h.state.buckets.Keys)
    ensures Knows(c, Next(c, h, call), call.now) && Bounded(c, Next(c, h, call).state.buckets.Keys)
  {
    hide Swept, Active, Knows, Bounded, Next, BucketFor, AttemptsOf, Refused, Admitted;
    var h1 := h.(state := Swept(c, h.state, call.now));
    var key := BucketFor(c, h1.state.buckets, call.client);
    SweepKnows(c, h, call.now);
    BucketBounded(c, h1.state.buckets, call.client);
    NextIs(c, h, call);
    if |Active(AttemptsOf(h1.state.buckets, key), call.now - c.window)| >= c.maxAttempts {
      RefusedKnows(c, h1, key, call.now);
    } else {
      AdmittedKnows(c, h1, key, call.now);
    }
  }

  lemma {:induction false} RunKnows(c: Config, calls: seq<Call>)
    requires Nondecreasing(calls)
    ensures Bounded(c, Run(c, calls).state.buckets.Keys)
    ensures forall now | |calls| > 0 ==> calls[|calls| - 1].now <= now :: Knows(c, Run(c, calls), now)
  {
    if |calls| > 0 {
      var init, call := calls[..|calls| - 1], calls[|calls| - 1];
      RunKnows(c, init);
      StepKnows(c, Run(c, init), call);
      forall now | call.now <= now ensures Knows(c, Run(c, calls), now) {
        KnowsLater(c, Run(c, calls), call.now, now);
      }
    } else {
      assert forall now: int, key: string :: KnowsOne(c, Run(c, calls), key, now);
    }
  }

  // ---------------------------------------------------------------------------
  // The promises

  lemma {:induction false} RunBounded(c: Config, calls: seq<Call>)
    ensures Bounded(c, Run(c, calls).state.buckets.Keys)
  {
    if |calls| > 0 {
      hide Swept, Active, Next, BucketFor, AttemptsOf, Bounded;
      var h, call := Run(c, calls[..|calls| - 1]), calls[|calls| - 1];
      RunBounded(c, calls[..|calls| - 1]);
      SweepBounded(c, h.state, call.now);
      BucketBounded(c, Swept(c, h.state, call.now).buckets, call.client);
      NextIs(c, h, call);
    }
  }

  /** The table never grows past its bound, whatever the clock does. */
  lemma TableIsBounded(c: Config, calls: seq<Call>)
    requires c.maxBuckets > 0
    ensures |Run(c, calls).state.buckets| <= c.maxBuckets
  {
    var keys := Run(c, calls).state.buckets.Keys;
    RunBounded(c, calls);
    Fewer(keys, (keys - {OVERFLOW}) + {OVERFLOW});
    assert |(keys - {OVERFLOW}) + {OVERFLOW}| == |keys - {OVERFLOW}| + 1;
  }

  /** One more call admits at most one attempt, at its own time. */
  lemma NextAdmits(c: Config, h: History, call: Call)
    ensures Next(c, h, call).admitted == h.admitted || exists key :: Next(c, h, call).admitted == h.admitted + [Admission(key, call.now)]
  {
    hide Swept, Active, BucketFor;
  }

  lemma {:induction false} LatestLast(c: Config, calls: seq<Call>)
    requires Nondecreasing(calls)
    ensures forall a <- Run(c, calls).admitted :: |calls| > 0 && a.at <= calls[|calls| - 1].now
  {
    hide Next;
    if |calls| > 0 {
      LatestLast(c, calls[..|calls| - 1]);
      NextAdmits(c, Run(c, calls[..|calls| - 1]), calls[|calls| - 1]);
    }
  }

  lemma {:induction false} WindowTimes(a: seq<Admission>, bucket: string, lo: int, hi: int)
    requires forall x <- a :: x.at <= hi
    ensures InWindow(a, bucket, lo, hi) == |Times(a, bucket, lo)|
  {
    if |a| > 0 {
      assert a[|a| - 1] in a;
      WindowTimes(a[..|a| - 1], bucket, lo, hi);
    }
  }

  /** A later admission is outside an earlier window. */
  lemma LaterIsOutside(c: Config, h: History, call: Call, bucket: string, lo: int, hi: int)
    requires hi < call.now
    ensures InWindow(Next(c, h, call).admitted, bucket, lo, hi) == InWindow(h.admitted, bucket, lo, hi)
    ensures AllInWindow(Next(c, h, call).admitted, lo, hi) == AllInWindow(h.admitted, lo, hi)
  {
    hide Next;
    NextAdmits(c, h, call);
    if Next(c, h, call).admitted != h.admitted {
      var key :| Next(c, h, call).admitted == h.admitted + [Admission(key, call.now)];
      assert (h.admitted + [Admission(key, call.now)])[..|h.admitted|] == h.admitted;
    }
  }

  /** No bucket admits more than its share in any window (t - window, t]. */
  lemma {:induction false} BucketIsLimited(c: Config, calls: seq<Call>, bucket: string, t: int)
    requires Nondecreasing(calls)
    ensures InWindow(Run(c, calls).admitted, bucket, t - c.window, t) <= c.maxAttempts
  {
    hide Next, Knows;
    if |calls| > 0 {
      if t < calls[|calls| - 1].now {
        BucketIsLimited(c, calls[..|calls| - 1], bucket, t);
        LaterIsOutside(c, Run(c, calls[..|calls| - 1]), calls[|calls| - 1], bucket, t - c.window, t);
      } else {
        CurrentIsLimited(c, calls, bucket, t);
      }
    }
  }

  lemma CurrentIsLimited(c: Config, calls: seq<Call>, bucket: string, t: int)
    requires Nondecreasing(calls) && |calls| > 0 && calls[|calls| - 1].now <= t
    ensures InWindow(Run(c, calls).admitted, bucket, t - c.window, t) <= c.maxAttempts
    ensures InWindow(Run(c, calls).admitted, bucket, t - c.window, t)
         == |Active(AttemptsOf(Run(c, calls).state.buckets, bucket), t - c.window)|
  {
    hide Run;
    var h := Run(c, calls);
    RunKnows(c, calls);
    LatestLast(c, calls);
    WindowTimes(h.admitted, bucket, t - c.window, t);
    assert Knows(c, h, t);
    assert KnowsOne(c, h, bucket, t);
  }

  /** Admissions of these buckets after `lo` and no later than `hi`. */
  function InWindowOf(a: seq<Admission>, keys: set<string>, lo: int, hi: int): nat {
    if |a| == 0 then 0
    else InWindowOf(a[..|a| - 1], keys, lo, hi) + if a[|a| - 1].bucket in keys && lo < a[|a| - 1].at <= hi then 1 else 0
  }

  lemma {:induction false} OneBucketLess(a: seq<Admission>, keys: set<string>, key: string, lo: int, hi: int)
    requires key in keys
    ensures InWindowOf(a, keys, lo, hi) == InWindowOf(a, keys - {key}, lo, hi) + InWindow(a, key, lo, hi)
  {
    if |a| > 0 {
      OneBucketLess(a[..|a| - 1], keys, key, lo, hi);
    }
  }

  lemma {:induction false} NoBuckets(a: seq<Admission>, lo: int, hi: int)
    ensures InWindowOf(a, {}, lo, hi) == 0
  {
    if |a| > 0 {
      NoBuckets(a[..|a| - 1], lo, hi);
    }
  }

  lemma OneShareMore(n: nat, share: nat)
    ensures (n + 1) * share == n * share + share
  {
  }

  lemma {:induction false} ShareEach(a: seq<Admission>, keys: set<string>, lo: int, hi: int, share: nat)
    requires forall key <- keys :: InWindow(a, key, lo, hi) <= share
    ensures InWindowOf(a, keys, lo, hi) <= |keys| * share
  {
    if keys == {} {
      NoBuckets(a, lo, hi);
    } else {
      var key :| key in keys;
      var rest := keys - {key};
      ShareEach(a, rest, lo, hi, share);
      OneBucketLess(a, keys, key, lo, hi);
      assert |keys| == |rest| + 1;
      OneShareMore(|rest|, share);
    }
  }

  lemma {:induction false} CountsItself(a: seq<Admission>, i: nat, lo: int, hi: int)
    requires i < |a| && lo < a[i].at <= hi
    ensures InWindow(a, a[i].bucket, lo, hi) > 0
  {
    if i < |a| - 1 {
      CountsItself(a[..|a| - 1], i, lo, hi);
    }
  }

  lemma {:induction false} AllAreOf(a: seq<Admission>, keys: set<string>, lo: int, hi: int)
    requires forall x <- a :: lo < x.at <= hi ==> x.bucket in keys
    ensures AllInWindow(a, lo, hi) == InWindowOf(a, keys, lo, hi)
  {
    if |a| > 0 {
      assert a[|a| - 1] in a;
      AllAreOf(a[..|a| - 1], keys, lo, hi);
    }
  }

  lemma CurrentTotal(c: Config, calls: seq<Call>, t: int)
    requires Nondecreasing(calls) && |calls| > 0 && calls[|calls| - 1].now <= t
    ensures AllInWindow(Run(c, calls).admitted, t - c.window, t) <= |Run(c, calls).state.buckets| * c.maxAttempts
  {
    hide Run;
    var h, lo := Run(c, calls), t - c.window;
    var keys := h.state.buckets.Keys;
    forall key ensures InWindow(h.admitted, key, lo, t) <= c.maxAttempts && (InWindow(h.admitted, key, lo, t) > 0 ==> key in keys) {
      CurrentIsLimited(c, calls, key, t);
    }
    forall x | x in h.admitted && lo < x.at <= t ensures x.bucket in keys {
      var i :| 0 <= i < |h.admitted| && h.admitted[i] == x;
      CountsItself(h.admitted, i, lo, t);
    }
    AllAreOf(h.admitted, keys, lo, t);
    ShareEach(h.admitted, keys, lo, t, c.maxAttempts);
  }

  /** Whoever asks, and from however many addresses: in any window all admissions together stay bounded. */
  lemma {:induction false} TotalIsLimited(c: Config, calls: seq<Call>, t: int)
    requires Nondecreasing(calls) && c.maxBuckets > 0
    ensures AllInWindow(Run(c, calls).admitted, t - c.window, t) <= c.maxBuckets * c.maxAttempts
  {
    hide Next;
    if |calls| > 0 {
      if t < calls[|calls| - 1].now {
        TotalIsLimited(c, calls[..|calls| - 1], t);
        LaterIsOutside(c, Run(c, calls[..|calls| - 1]), calls[|calls| - 1], "", t - c.window, t);
      } else {
        CurrentTotal(c, calls, t);
        TableIsBounded(c, calls);
        Scales(|Run(c, calls).state.buckets|, c.maxBuckets, c.maxAttempts);
      }
    }
  }

  lemma Scales(a: nat, b: nat, n: nat)
    requires a <= b
    ensures a * n <= b * n
  {
  }

  // ---------------------------------------------------------------------------
  // Nobody is shut out by others

  /** Exactly the attempts after the cutoff are still counted, each as often as it was made. */
  lemma {:induction false} ActiveAreLater(s: seq<int>, cutoff: int, x: int)
    ensures multiset(Active(s, cutoff))[x] == if x > cutoff then multiset(s)[x] else 0
  {
    if |s| > 0 {
      ActiveAreLater(s[..|s| - 1], cutoff, x);
      assert s == s[..|s| - 1] + [s[|s| - 1]];
    }
  }

  lemma {:induction false} SomeActive(s: seq<int>, cutoff: int)
    ensures Active(s, cutoff) != [] <==> exists x <- s :: x > cutoff
  {
    if |s| > 0 {
      var init, last := s[..|s| - 1], s[|s| - 1];
      SomeActive(init, cutoff);
      if x :| x in s && x > cutoff {
        assert x == last || x in init;
      }
      assert last in s && forall x <- init :: x in s;
    }
  }

  /** When the interval is over, or the clock went back, exactly the buckets with an attempt in the window stay. */
  lemma SweepKeepsBusy(c: Config, s: State, now: int, key: string)
    ensures
      var due := s.lastCleanup.None? || now < s.lastCleanup.value || now - s.lastCleanup.value >= c.cleanupInterval;
      var t := Swept(c, s, now);
      && t.lastCleanup == (if due then Some(now) else s.lastCleanup)
      && (key in t.buckets <==> key in s.buckets && (due ==> exists x <- s.buckets[key] :: x > now - c.window))
      && (!due ==> t.buckets == s.buckets)
  {
    hide Active;
    if key in s.buckets {
      SomeActive(s.buckets[key], now - c.window);
    }
  }

  lemma {:induction false} AdmissionsAreOld(c: Config, calls: seq<Call>, call: Call)
    requires Nondecreasing(calls + [call])
    ensures Nondecreasing(calls) && forall a <- Run(c, calls).admitted :: a.at <= call.now
  {
    var all := calls + [call];
    assert forall i | 0 <= i < |calls| :: all[i] == calls[i];
    LatestLast(c, calls);
    if |calls| > 0 {
      assert all[|calls| - 1].now <= all[|calls|].now;
    }
  }

  lemma NothingCounted(c: Config, key: string, lo: int, hi: int)
    ensures Active(AttemptsOf(Run(c, []).state.buckets, key), lo) == [] && InWindow(Run(c, []).admitted, key, lo, hi) == 0
  {
  }

  /** A bucket's count before a call is the number of its own admissions in the window. */
  lemma CountIsOwn(c: Config, calls: seq<Call>, call: Call, key: string)
    requires Nondecreasing(calls + [call])
    ensures |Active(AttemptsOf(Swept(c, Run(c, calls).state, call.now).buckets, key), call.now - c.window)|
         == InWindow(Run(c, calls).admitted, key, call.now - c.window, call.now)
  {
    hide Active, Times, InWindow, Swept, AttemptsOf, Next;
    AdmissionsAreOld(c, calls, call);
    SweptActive(c, Run(c, calls).state, call.now, key);
    if |calls| == 0 {
      NothingCounted(c, key, call.now - c.window, call.now);
    } else {
      assert (calls + [call])[|calls| - 1].now <= (calls + [call])[|calls|].now;
      CurrentIsLimited(c, calls, key, call.now);
    }
  }

  /** The call is let through, and recorded under this name, exactly if fewer admissions under it lie in the window. */
  ghost predicate CountsUnder(c: Config, calls: seq<Call>, call: Call, bucket: string) {
    var before, after := Run(c, calls).admitted, Run(c, calls + [call]).admitted;
    if InWindow(before, bucket, call.now - c.window, call.now) < c.maxAttempts
    then after == before + [Admission(bucket, call.now)] else after == before
  }

  lemma NextRecords(c: Config, h: History, call: Call)
    ensures
      var table := Swept(c, h.state, call.now).buckets;
      var key := if call.client in table || |table| < c.maxBuckets - 1 then call.client else "__overflow__";
      Next(c, h, call).admitted
      == if |Active(AttemptsOf(table, key), call.now - c.window)| < c.maxAttempts then h.admitted + [Admission(key, call.now)] else h.admitted
  {
    hide Swept, Active, AttemptsOf;
  }

  /**
   While its bucket is in the table, or there is room for one, a client is judged by its own admissions alone, whatever
   other clients did; otherwise it shares the common bucket.
   */
  lemma OwnBucketDecides(c: Config, calls: seq<Call>, call: Call)
    requires Nondecreasing(calls + [call])
    ensures
      var table := Swept(c, Run(c, calls).state, call.now).buckets;
      CountsUnder(c, calls, call, if call.client in table || |table| < c.maxBuckets - 1 then call.client else "__overflow__")
  {
    var h := Run(c, calls);
    var table := Swept(c, h.state, call.now).buckets;
    var key := if call.client in table || |table| < c.maxBuckets - 1 then call.client else "__overflow__";
    hide Swept, Active, AttemptsOf, InWindow, Next;
    assert (calls + [call])[..|calls|] == calls;
    CountIsOwn(c, calls, call, key);
    NextRecords(c, h, call);
  }

  function Clients(calls: seq<Call>): set<string> {
    set call | call in calls :: call.client
  }

  lemma {:induction false} TableIsClients(c: Config, calls: seq<Call>)
    requires Nondecreasing(calls) && |Clients(calls)| < c.maxBuckets
    ensures Run(c, calls).state.buckets.Keys <= Clients(calls)
  {
    if |calls| > 0 {
      var init, call := calls[..|calls| - 1], calls[|calls| - 1];
      assert init + [call] == calls;
      FewerClients(init, call);
      TableIsClients(c, init);
      RoomForClient(c, init, call);
      SweptActive(c, Run(c, init).state, call.now, "");
      hide Swept, Active, AttemptsOf;
    }
  }

  lemma FewerClients(calls: seq<Call>, call: Call)
    ensures Clients(calls + [call]) == Clients(calls) + {call.client} && |Clients(calls)| <= |Clients(calls + [call])|
  {
    Fewer(Clients(calls), Clients(calls + [call]));
  }

  lemma RoomForClient(c: Config, calls: seq<Call>, call: Call)
    requires Run(c, calls).state.buckets.Keys <= Clients(calls) && |Clients(calls + [call])| < c.maxBuckets
    ensures
      var table := Swept(c, Run(c, calls).state, call.now).buckets;
      call.client in table || |table| < c.maxBuckets - 1
  {
    var table := Swept(c, Run(c, calls).state, call.now).buckets;
    SweptActive(c, Run(c, calls).state, call.now, "");
    FewerClients(calls, call);
    if call.client !in table {
      Fewer(table.Keys + {call.client}, Clients(calls + [call]));
      assert |table.Keys + {call.client}| == |table.Keys| + 1;
    }
  }

  /** With fewer clients than buckets no client is ever judged by another's attempts. */
  lemma FewClientsNeverShare(c: Config, calls: seq<Call>, call: Call)
    requires Nondecreasing(calls + [call]) && |Clients(calls + [call])| < c.maxBuckets
    ensures CountsUnder(c, calls, call, call.client)
  {
    AdmissionsAreOld(c, calls, call);
    FewerClients(calls, call);
    TableIsClients(c, calls);
    RoomForClient(c, calls, call);
    OwnBucketDecides(c, calls, call);
  }
}
