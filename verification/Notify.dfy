/**
 Delivering each notification once (internal/notify/notify.go, deliverOnce, maskedDeliveryError). Several
 evaluators may run at a time, each may die at any point, and what it learned may fail to be written.
 */
module Notify {
  import opened Results

  /** A delivery row: the rule, the event's key, the channel's index. */
  datatype Key = Key(rule: int, base: string, channel: nat)

  const PENDING := "pending"
  const SENT := ""

  /** What a failed delivery is recorded as; the target itself is never shown. */
  function Masked(channelLabel: string): string {
    channelLabel + " notification delivery failed"
  }

  /** So a recorded failure is never taken for a success or for one under way. */
  lemma MaskedIsNeither(channelLabel: string)
    ensures Masked(channelLabel) != SENT && Masked(channelLabel) != PENDING
  {
    var m := Masked(channelLabel);
    assert m[|m| - 1] == 'd' && PENDING[|PENDING| - 1] == 'g';
  }

  // ---------------------------------------------------------------------------
  // The steps, in any order

  datatype Phase = Idle | Claimed(key: Key) | Answered(key: Key, ok: bool)

  /** The table, where each evaluator is, and an account of what has happened to each delivery so far. */
  datatype World = World(
    rows: map<Key, string>, phases: map<nat, Phase>,
    claims: multiset<Key>, successes: multiset<Key>, failures: multiset<Key>)

  const START := World(map[], map[], multiset{}, multiset{}, multiset{})

  /** A failed claim changes nothing; a lost record leaves the row pending; a crash forgets the rest. */
  datatype Event =
    | Claim(who: nat, key: Key)
    | Send(who: nat, ok: bool)
    | Record(who: nat)
    | LoseRecord(who: nat)
    | Crash(who: nat)

  function PhaseOf(w: World, who: nat): Phase {
    if who in w.phases then w.phases[who] else Idle
  }

  /** One statement: insert the row, or take it over if it holds a failure. */
  predicate MayClaim(rows: map<Key, string>, k: Key) {
    k !in rows || (rows[k] != SENT && rows[k] != PENDING)
  }

  function After(labels: Key -> string, w: World, e: Event): World {
    match e
    case Claim(who, k) =>
      if PhaseOf(w, who).Idle? && MayClaim(w.rows, k)
      then w.(rows := w.rows[k := PENDING], phases := w.phases[who := Claimed(k)], claims := w.claims + multiset{k})
      else w
    case Send(who, ok) =>
      (match PhaseOf(w, who)
       case Claimed(k) =>
         w.(phases := w.phases[who := Answered(k, ok)], successes := w.successes + (if ok then multiset{k} else multiset{}))
       case _ => w)
    case Record(who) =>
      (match PhaseOf(w, who)
       case Answered(k, ok) =>
         w.(rows := w.rows[k := if ok then SENT else Masked(labels(k))], phases := w.phases[who := Idle],
            failures := w.failures + (if ok then multiset{} else multiset{k}))
       case _ => w)
    case LoseRecord(who) => if PhaseOf(w, who).Answered? then w.(phases := w.phases[who := Idle]) else w
    case Crash(who) => w.(phases := w.phases[who := Idle])
  }

  function Run(labels: Key -> string, es: seq<Event>): World {
    if |es| == 0 then START else After(labels, Run(labels, es[..|es| - 1]), es[|es| - 1])
  }

  predicate Holds(w: World, who: nat, k: Key) {
    PhaseOf(w, who) == Claimed(k) || PhaseOf(w, who) == Answered(k, true) || PhaseOf(w, who) == Answered(k, false)
  }

  /** Only one evaluator is between claim and record, and the row says so. */
  ghost predicate OneHolder(w: World) {
    && (forall a, b, k | Holds(w, a, k) && Holds(w, b, k) :: a == b)
    && (forall who, k | Holds(w, who, k) :: k in w.rows && w.rows[k] == PENDING)
  }

  /** The row is settled or under way: it cannot be claimed. */
  predicate Closed(rows: map<Key, string>, k: Key) {
    k in rows && (rows[k] == SENT || rows[k] == PENDING)
  }

  /** A success is for good: the row stays closed, and whoever holds it knows. */
  ghost predicate SuccessStands(w: World, k: Key) {
    && w.successes[k] <= 1
    && (w.successes[k] == 1 ==> Closed(w.rows, k))
    && (w.successes[k] == 1 ==> forall who | Holds(w, who, k) :: PhaseOf(w, who) == Answered(k, true))
    && (k in w.rows && w.rows[k] == SENT ==> w.successes[k] == 1)
    && (forall who | PhaseOf(w, who) == Answered(k, true) :: w.successes[k] == 1)
  }

  /** Every claim but the one that is still open was answered by a recorded failure. */
  predicate ClaimsAccounted(w: World, k: Key) {
    w.claims[k] == w.failures[k] + (if Closed(w.rows, k) then 1 else 0)
  }

  ghost predicate Inv(w: World) {
    OneHolder(w) && forall k :: SuccessStands(w, k) && ClaimsAccounted(w, k)
  }

  lemma AfterKeeps(labels: Key -> string, w: World, e: Event)
    requires Inv(w)
    ensures Inv(After(labels, w, e))
  {
    match e {
      case Claim(who, k) => ClaimKeeps(labels, w, who, k);
      case Send(who, ok) => SendKeeps(labels, w, who, ok);
      case Record(who) => RecordKeeps(labels, w, who);
      case LoseRecord(who) => ForgetKeeps(w, who);
      case Crash(who) => ForgetKeeps(w, who);
    }
  }

  lemma ClaimKeeps(labels: Key -> string, w: World, who: nat, k: Key)
    requires Inv(w)
    ensures Inv(After(labels, w, Claim(who, k)))
  {
    var v := After(labels, w, Claim(who, k));
    if v != w {
      assert forall other, l | other != who :: Holds(v, other, l) == Holds(w, other, l);
      forall l ensures SuccessStands(v, l) && ClaimsAccounted(v, l) {
        assert SuccessStands(w, l) && ClaimsAccounted(w, l);
        assert forall x: nat | x != who :: PhaseOf(v, x) == PhaseOf(w, x);
      }
    }
  }

  lemma SendKeeps(labels: Key -> string, w: World, who: nat, ok: bool)
    requires Inv(w)
    ensures Inv(After(labels, w, Send(who, ok)))
  {
    var v := After(labels, w, Send(who, ok));
    if PhaseOf(w, who).Claimed? {
      var k := PhaseOf(w, who).key;
      assert Holds(w, who, k);
      assert forall other, l :: Holds(v, other, l) == Holds(w, other, l);
      forall l ensures SuccessStands(v, l) && ClaimsAccounted(v, l) {
        assert SuccessStands(w, l) && ClaimsAccounted(w, l);
        assert forall x: nat | x != who :: PhaseOf(v, x) == PhaseOf(w, x);
      }
    }
  }

  lemma RecordKeeps(labels: Key -> string, w: World, who: nat)
    requires Inv(w)
    ensures Inv(After(labels, w, Record(who)))
  {
    var v := After(labels, w, Record(who));
    if PhaseOf(w, who).Answered? {
      var k := PhaseOf(w, who).key;
      MaskedIsNeither(labels(k));
      assert Holds(w, who, k);
      assert forall other, l :: Holds(v, other, l) ==> other != who && Holds(w, other, l);
      forall l ensures SuccessStands(v, l) && ClaimsAccounted(v, l) {
        assert SuccessStands(w, l) && ClaimsAccounted(w, l);
        assert forall x: nat | x != who :: PhaseOf(v, x) == PhaseOf(w, x);
      }
    }
  }

  lemma ForgetKeeps(w: World, who: nat)
    requires Inv(w)
    ensures Inv(w.(phases := w.phases[who := Idle]))
  {
    var v := w.(phases := w.phases[who := Idle]);
    assert forall other, l :: Holds(v, other, l) ==> other != who && Holds(w, other, l);
    forall l ensures SuccessStands(v, l) && ClaimsAccounted(v, l) {
      assert SuccessStands(w, l) && ClaimsAccounted(w, l);
      assert forall x: nat | x != who :: PhaseOf(v, x) == PhaseOf(w, x);
    }
  }

  lemma {:induction false} RunKeeps(labels: Key -> string, es: seq<Event>)
    ensures Inv(Run(labels, es))
  {
    if |es| > 0 {
      RunKeeps(labels, es[..|es| - 1]);
      AfterKeeps(labels, Run(labels, es[..|es| - 1]), es[|es| - 1]);
    }
  }

  /** Whatever the interleaving: no delivery is ever held twice at a time, nor succeeds twice. */
  lemma DeliveredAtMostOnce(labels: Key -> string, es: seq<Event>, k: Key, a: nat, b: nat)
    ensures Run(labels, es).successes[k] <= 1
    ensures Holds(Run(labels, es), a, k) && Holds(Run(labels, es), b, k) ==> a == b
  {
    RunKeeps(labels, es);
    assert SuccessStands(Run(labels, es), k);
  }

  /** Each claim after the first answers a recorded failure: a crash or a lost record is never retried. */
  lemma OnlyFailuresAreRetried(labels: Key -> string, es: seq<Event>, k: Key)
    ensures
      var w := Run(labels, es);
      w.claims[k] == w.failures[k] || (w.claims[k] == w.failures[k] + 1 && !MayClaim(w.rows, k))
    ensures Run(labels, es).successes[k] == 1 ==> !MayClaim(Run(labels, es).rows, k)
  {
    RunKeeps(labels, es);
    assert ClaimsAccounted(Run(labels, es), k) && SuccessStands(Run(labels, es), k);
  }

  /** A recorded failure is open to any idle evaluator, as is a delivery never tried. */
  lemma FailureMayBeRetried(labels: Key -> string, w: World, who: nat, k: Key)
    requires PhaseOf(w, who).Idle? && (k !in w.rows || w.rows[k] == labels(k) + " notification delivery failed")
    ensures
      var v := After(labels, w, Claim(who, k));
      PhaseOf(v, who) == Claimed(k) && k in v.rows && v.rows[k] == "pending"
  {
    MaskedIsNeither(labels(k));
  }

  // ---------------------------------------------------------------------------
  // One evaluator at work

  /** The table, which channels were sent to and how that went, and the failure that ended it. */
  datatype Outcome = Outcome(rows: map<Key, string>, sent: seq<(nat, bool)>, failed: Option<string>)

  datatype Job = Job(rule: int, base: string, labels: seq<string>)

  /** The first n channels of a job, one after the other, up to the first failure. `answers` is how sending goes. */
  function Deliver(rows: map<Key, string>, job: Job, answers: nat -> bool, n: nat): Outcome
    requires n <= |job.labels|
  {
    if n == 0 then Outcome(rows, [], None)
    else
      var o, k := Deliver(rows, job, answers, n - 1), Key(job.rule, job.base, n - 1);
      if o.failed.Some? || !MayClaim(o.rows, k) then o
      else if answers(n - 1) then Outcome(o.rows[k := SENT], o.sent + [(n - 1, true)], None)
      else Outcome(o.rows[k := Masked(job.labels[n - 1])], o.sent + [(n - 1, false)], Some(Masked(job.labels[n - 1])))
  }

  class Deliveries {
    var rows: map<Key, string>

    constructor ()
      ensures rows == map[]
    {
      rows := map[];
    }

    /** The row becomes pending, unless it is settled or someone else's. */
    method TryClaim(k: Key) returns (claimed: bool)
      modifies this
      ensures claimed == MayClaim(old(rows), k)
      ensures rows == if claimed then old(rows)[k := PENDING] else old(rows)
    {
      claimed := k !in rows || (rows[k] != SENT && rows[k] != PENDING);
      if claimed {
        rows := rows[k := PENDING];
      }
    }

    method DeliverOnce(job: Job, answers: nat -> bool) returns (sent: seq<(nat, bool)>, failed: Option<string>)
      modifies this
      ensures Outcome(rows, sent, failed) == Deliver(old(rows), job, answers, |job.labels|)
    {
      sent, failed := [], None;
      var i := 0;
      while i < |job.labels| && failed.None?
        invariant 0 <= i <= |job.labels|
        invariant Outcome(rows, sent, failed) == Deliver(old(rows), job, answers, i)
      {
        var k := Key(job.rule, job.base, i);
        var claimed := TryClaim(k);
        if claimed {
          var ok, text := answers(i), SENT;
          if !ok {
            text := Masked(job.labels[i]);
            failed := Some(text);
          }
          sent, rows := sent + [(i, ok)], rows[k := text];
        }
        i := i + 1;
      }
      FailureStops(old(rows), job, answers, i, |job.labels|);
    }
  }

  lemma {:induction false} FailureStops(rows: map<Key, string>, job: Job, answers: nat -> bool, i: nat, n: nat)
    requires i <= n <= |job.labels| && (i == n || Deliver(rows, job, answers, i).failed.Some?)
    ensures Deliver(rows, job, answers, n) == Deliver(rows, job, answers, i)
  {
    if i < n {
      FailureStops(rows, job, answers, i, n - 1);
    }
  }

  /** What an evaluator does is a run of the protocol's steps: claim, send, record for each channel it may claim. */
  function Steps(rows: map<Key, string>, job: Job, answers: nat -> bool, who: nat, n: nat): seq<Event>
    requires n <= |job.labels|
  {
    if n == 0 then []
    else
      var o, k := Deliver(rows, job, answers, n - 1), Key(job.rule, job.base, n - 1);
      Steps(rows, job, answers, who, n - 1) +
      if o.failed.Some? || !MayClaim(o.rows, k) then [] else [Claim(who, k), Send(who, answers(n - 1)), Record(who)]
  }

  function Exec(labels: Key -> string, w: World, es: seq<Event>): World {
    if |es| == 0 then w else After(labels, Exec(labels, w, es[..|es| - 1]), es[|es| - 1])
  }

  lemma ExecOne(labels: Key -> string, w: World, es: seq<Event>, e: Event)
    ensures Exec(labels, w, es + [e]) == After(labels, Exec(labels, w, es), e)
  {
    hide After;
    assert (es + [e])[..|es|] == es;
  }

  lemma ExecThree(labels: Key -> string, w: World, es: seq<Event>, a: Event, b: Event, c: Event)
    ensures Exec(labels, w, es + [a, b, c]) == After(labels, After(labels, After(labels, Exec(labels, w, es), a), b), c)
  {
    hide After, Exec;
    ExecOne(labels, w, es, a);
    ExecOne(labels, w, es + [a], b);
    ExecOne(labels, w, es + [a] + [b], c);
    assert es + [a] + [b] + [c] == es + [a, b, c];
  }

  /** Claim, send and record by an idle evaluator settle the row. */
  lemma OneDelivery(labels: Key -> string, w: World, who: nat, k: Key, ok: bool)
    requires PhaseOf(w, who).Idle? && MayClaim(w.rows, k)
    ensures
      var v := After(labels, After(labels, After(labels, w, Claim(who, k)), Send(who, ok)), Record(who));
      PhaseOf(v, who).Idle? && v.rows == w.rows[k := if ok then SENT else Masked(labels(k))]
  {
    var u := After(labels, w, Claim(who, k));
    assert PhaseOf(u, who) == Claimed(k);
    assert PhaseOf(After(labels, u, Send(who, ok)), who) == Answered(k, ok);
  }

  lemma ThreeMore(labels: Key -> string, w: World, es: seq<Event>, who: nat, k: Key, ok: bool)
    requires PhaseOf(Exec(labels, w, es), who).Idle? && MayClaim(Exec(labels, w, es).rows, k)
    ensures
      var v := Exec(labels, w, es + [Claim(who, k), Send(who, ok), Record(who)]);
      PhaseOf(v, who).Idle? && v.rows == Exec(labels, w, es).rows[k := if ok then SENT else Masked(labels(k))]
  {
    hide After, Exec, MayClaim, PhaseOf;
    ExecThree(labels, w, es, Claim(who, k), Send(who, ok), Record(who));
    OneDelivery(labels, Exec(labels, w, es), who, k, ok);
  }

  lemma {:induction false} DeliverIsSteps(labels: Key -> string, w: World, job: Job, answers: nat -> bool, who: nat, n: nat)
    requires PhaseOf(w, who).Idle? && n <= |job.labels|
    requires forall i | 0 <= i < |job.labels| :: labels(Key(job.rule, job.base, i)) == job.labels[i]
    ensures
      var v := Exec(labels, w, Steps(w.rows, job, answers, who, n));
      PhaseOf(v, who).Idle? && v.rows == Deliver(w.rows, job, answers, n).rows
  {
    hide Masked, After, MayClaim, PhaseOf;
    if n > 0 {
      hide Exec;
      var o, k := Deliver(w.rows, job, answers, n - 1), Key(job.rule, job.base, n - 1);
      var es := Steps(w.rows, job, answers, who, n - 1);
      DeliverIsSteps(labels, w, job, answers, who, n - 1);
      if o.failed.Some? || !MayClaim(o.rows, k) {
        assert Steps(w.rows, job, answers, who, n) == es;
      } else {
        assert Steps(w.rows, job, answers, who, n) == es + [Claim(who, k), Send(who, answers(n - 1)), Record(who)];
        ThreeMore(labels, w, es, who, k, answers(n - 1));
      }
    }
  }

  /** Every channel reached is settled by a delivery without failure. */
  lemma {:induction false} NoFailureSettles(rows: map<Key, string>, job: Job, answers: nat -> bool, n: nat)
    requires n <= |job.labels| && Deliver(rows, job, answers, n).failed.None?
    ensures forall i | 0 <= i < n :: Closed(Deliver(rows, job, answers, n).rows, Key(job.rule, job.base, i))
  {
    if n > 0 {
      NoFailureSettles(rows, job, answers, n - 1);
    }
  }

  lemma {:induction false} SettledIsSilent(rows: map<Key, string>, job: Job, answers: nat -> bool, n: nat)
    requires n <= |job.labels| && forall i | 0 <= i < n :: Closed(rows, Key(job.rule, job.base, i))
    ensures Deliver(rows, job, answers, n) == Outcome(rows, [], None)
  {
    if n > 0 {
      SettledIsSilent(rows, job, answers, n - 1);
    }
  }

  /** Once delivered without failure, the same event is never sent anywhere again. */
  lemma DeliveredOnceIsSilent(rows: map<Key, string>, job: Job, answers: nat -> bool, again: nat -> bool)
    requires Deliver(rows, job, answers, |job.labels|).failed.None?
    ensures
      var after := Deliver(rows, job, answers, |job.labels|).rows;
      Deliver(after, job, again, |job.labels|) == Outcome(after, [], None)
  {
    NoFailureSettles(rows, job, answers, |job.labels|);
    SettledIsSilent(Deliver(rows, job, answers, |job.labels|).rows, job, again, |job.labels|);
  }

  lemma {:induction false} OthersUntouched(rows: map<Key, string>, job: Job, answers: nat -> bool, n: nat, k: Key)
    requires n <= |job.labels| && (k.rule != job.rule || k.base != job.base || k.channel >= n)
    ensures
      var after := Deliver(rows, job, answers, n).rows;
      (k in after <==> k in rows) && (k in rows ==> after[k] == rows[k])
  {
    hide Masked;
    if n > 0 {
      OthersUntouched(rows, job, answers, n - 1, k);
    }
  }

  /** A channel is sent to only if nothing is recorded for it, or a failure; and at most once a call. */
  lemma {:induction false} SentOnlyToOpen(rows: map<Key, string>, job: Job, answers: nat -> bool, n: nat)
    requires n <= |job.labels|
    ensures
      var o := Deliver(rows, job, answers, n);
      && (forall i | 0 <= i < |o.sent| :: o.sent[i].0 < n && MayClaim(rows, Key(job.rule, job.base, o.sent[i].0)))
      && (forall i, j | 0 <= i < j < |o.sent| :: o.sent[i].0 < o.sent[j].0)
  {
    hide Masked;
    if n > 0 {
      SentOnlyToOpen(rows, job, answers, n - 1);
      OthersUntouched(rows, job, answers, n - 1, Key(job.rule, job.base, n - 1));
    }
  }

  // ---------------------------------------------------------------------------
  // What exactly a call does

  /** The channel's record is none, or a failure: neither a success nor under way. */
  predicate Open(rows: map<Key, string>, job: Job, i: nat) {
    var k := Key(job.rule, job.base, i);
    k !in rows || (rows[k] != "" && rows[k] != "pending")
  }

  /** The first open channel that fails is where the call ends. */
  predicate EndsAt(rows: map<Key, string>, job: Job, answers: nat -> bool, i: nat) {
    Open(rows, job, i) && !answers(i) && forall j: nat | j < i :: Open(rows, job, j) ==> answers(j)
  }

  predicate Reached(rows: map<Key, string>, job: Job, answers: nat -> bool, i: nat) {
    forall j: nat | j < i :: !EndsAt(rows, job, answers, j)
  }

  /** An open channel is sent to unless one before it failed, and the record says how that went; else nothing happens. */
  ghost predicate ChannelTold(rows: map<Key, string>, job: Job, answers: nat -> bool, o: Outcome, i: nat)
    requires i < |job.labels|
  {
    var k := Key(job.rule, job.base, i);
    if Open(rows, job, i) && Reached(rows, job, answers, i) then
      && (i, answers(i)) in o.sent && k in o.rows
      && o.rows[k] == (if answers(i) then "" else job.labels[i] + " notification delivery failed")
    else
      && (i, true) !in o.sent && (i, false) !in o.sent
      && (k in o.rows <==> k in rows) && (k in rows ==> o.rows[k] == rows[k])
  }

  /** The call fails exactly if a channel ends it, with that channel's label. */
  ghost predicate FailureTold(rows: map<Key, string>, job: Job, answers: nat -> bool, n: nat, o: Outcome)
    requires n <= |job.labels|
  {
    && (o.failed.None? <==> Reached(rows, job, answers, n))
    && (forall i: nat | i < n && EndsAt(rows, job, answers, i) :: o.failed == Some(job.labels[i] + " notification delivery failed"))
    && (forall e <- o.sent :: e.0 < n)
  }

  lemma ChannelStays(rows: map<Key, string>, job: Job, answers: nat -> bool, m: nat, i: nat)
    requires i < m < |job.labels| && ChannelTold(rows, job, answers, Deliver(rows, job, answers, m), i)
    ensures ChannelTold(rows, job, answers, Deliver(rows, job, answers, m + 1), i)
  {
    hide Open, Reached, MayClaim, Masked;
    assert Key(job.rule, job.base, i) != Key(job.rule, job.base, m);
  }

  lemma ChannelNow(rows: map<Key, string>, job: Job, answers: nat -> bool, m: nat)
    requires m < |job.labels| && FailureTold(rows, job, answers, m, Deliver(rows, job, answers, m))
    ensures ChannelTold(rows, job, answers, Deliver(rows, job, answers, m + 1), m)
    ensures FailureTold(rows, job, answers, m + 1, Deliver(rows, job, answers, m + 1))
  {
    var k := Key(job.rule, job.base, m);
    OthersUntouched(rows, job, answers, m, k);
    NextReached(rows, job, answers, m);
    var before := Deliver(rows, job, answers, m);
    assert MayClaim(before.rows, k) <==> Open(rows, job, m);
    assert forall e <- before.sent :: e.0 != m;
    hide Open, EndsAt, Reached, MayClaim;
  }

  /** Channel by channel, what a call does and records, and how it ends; no other record changes. */
  lemma {:induction false} DeliverIsTold(rows: map<Key, string>, job: Job, answers: nat -> bool, n: nat)
    requires n <= |job.labels|
    ensures
      var o := Deliver(rows, job, answers, n);
      && (forall i: nat | i < n :: ChannelTold(rows, job, answers, o, i))
      && FailureTold(rows, job, answers, n, o)
      && forall k | (forall i: nat | i < n :: k != Key(job.rule, job.base, i)) ::
           (k in o.rows <==> k in rows) && (k in rows ==> o.rows[k] == rows[k])
  {
    if n > 0 {
      hide Open, EndsAt, Reached, MayClaim, Masked, ChannelTold, FailureTold;
      var m: nat := n - 1;
      DeliverIsTold(rows, job, answers, m);
      ChannelNow(rows, job, answers, m);
      forall i: nat | i < n ensures ChannelTold(rows, job, answers, Deliver(rows, job, answers, n), i) {
        if i < m {
          ChannelStays(rows, job, answers, m, i);
        }
      }
    } else {
      assert Reached(rows, job, answers, 0);
    }
  }

  lemma NextReached(rows: map<Key, string>, job: Job, answers: nat -> bool, m: nat)
    ensures Reached(rows, job, answers, m + 1) <==> Reached(rows, job, answers, m) && !EndsAt(rows, job, answers, m)
    ensures Reached(rows, job, answers, m) && Open(rows, job, m) ==> (EndsAt(rows, job, answers, m) <==> !answers(m))
    ensures !Open(rows, job, m) ==> !EndsAt(rows, job, answers, m)
    ensures !Reached(rows, job, answers, m) ==> !EndsAt(rows, job, answers, m)
  {
    if Reached(rows, job, answers, m) {
      NoFailureBefore(rows, job, answers, m);
    }
    assert Reached(rows, job, answers, m + 1) ==> !EndsAt(rows, job, answers, m);
  }

  lemma {:induction false} NoFailureBefore(rows: map<Key, string>, job: Job, answers: nat -> bool, m: nat)
    requires Reached(rows, job, answers, m)
    ensures forall j: nat | j < m :: Open(rows, job, j) ==> answers(j)
  {
    if m > 0 {
      NoFailureBefore(rows, job, answers, m - 1);
      assert !EndsAt(rows, job, answers, m - 1);
    }
  }
}
