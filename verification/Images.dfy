/**
 Image update checks (internal/engine/images.go, applyImageUpdates, purgeRetiredImageUpdates): one row per
 image reference, and one feed entry the first time something runs behind a new digest.
 */
module Images {
  import opened Results
  import opened Store
  import Sorting
  import Strings

  datatype Lookup = Resolved | Pinned | Unknown

  /** One registry lookup as it was reported. */
  datatype Update = Update(ref: string, lookup: Lookup, remote: string, reason: string, transient: bool, checkedAt: Option<int>)

  datatype Image = Image(
    connector: int, ref: string, lookup: Lookup, remote: string, reason: string, checkedAt: int, notified: string,
    retiredAt: Option<int>)

  type Table = map<int, Image>

  /** An entry filed about a reference, or its row deleted after retirement. */
  datatype Note = Filed(run: int, ref: string, digest: string) | Dropped(ref: string)

  datatype World = World(images: Table, log: seq<Note>)

  /** The scan; which digests are well formed; how many services run a reference behind a digest. */
  datatype Context = Context(connector: int, run: int, now: int, valid: string -> bool, behind: (string, string) -> nat)

  ghost predicate OnePerRef(images: Table) {
    forall i, j | i in images && j in images && images[i].ref == images[j].ref :: i == j
  }

  function FindRef(images: Table, ref: string): (r: Option<int>)
    ensures r.Some? ==> r.value in images && images[r.value].ref == ref
    ensures r.None? ==> forall id <- images :: images[id].ref != ref
  {
    var hits := set id | id in images && images[id].ref == ref;
    if |hits| == 0 then
      assert forall id <- images :: images[id].ref == ref ==> id in hits;
      None
    else Some(MaxOf(hits))
  }

  // ---------------------------------------------------------------------------
  // One update, on values

  datatype Answer = Answer(lookup: Lookup, remote: string, reason: string)

  /** What a lookup says: a malformed digest or a failed lookup says nothing. */
  function AnswerOf(cx: Context, u: Update): Answer {
    var remote, reason := Strings.Trim(u.remote), Strings.Trim(u.reason);
    match u.lookup
    case Resolved =>
      if cx.valid(remote) then Answer(Resolved, remote, reason)
      else Answer(Unknown, "", "The registry returned a malformed digest.")
    case Pinned => Answer(Pinned, "", reason)
    case Unknown => Answer(Unknown, "", reason)
  }

  /** The row after the lookup. A passing failure keeps the last answer and when it was obtained. */
  function Looked(cx: Context, prev: Option<Image>, u: Update): Image {
    var a := AnswerOf(cx, u);
    var at := if u.checkedAt.Some? then u.checkedAt.value else cx.now;
    if prev.Some? && u.transient && a.lookup.Unknown? && prev.value.lookup.Resolved? then
      Image(cx.connector, prev.value.ref, Resolved, prev.value.remote,
            if a.reason == "" then "" else "Last check failed: " + a.reason, prev.value.checkedAt, prev.value.notified, None)
    else
      Image(cx.connector, Strings.Trim(u.ref), a.lookup, a.remote, a.reason, at,
            if prev.Some? then prev.value.notified else "", None)
  }

  predicate Newsworthy(cx: Context, i: Image) {
    i.lookup.Resolved? && i.remote != i.notified && cx.behind(i.ref, i.remote) > 0
  }

  function PrevOf(images: Table, ref: string): Option<Image> {
    match FindRef(images, ref) case Some(id) => Some(images[id]) case None => None
  }

  function Step(cx: Context, w: World, u: Update): World {
    var ref := Strings.Trim(u.ref);
    var id := match FindRef(w.images, ref) case Some(id) => id case None => NextId(w.images);
    var image := Looked(cx, PrevOf(w.images, ref), u);
    if Newsworthy(cx, image)
    then World(w.images[id := image.(notified := image.remote)], w.log + [Filed(cx.run, ref, image.remote)])
    else World(w.images[id := image], w.log)
  }

  /** References are trimmed; the first update of each counts. */
  function Refs(us: seq<Update>): set<string> {
    if |us| == 0 then {} else Refs(us[..|us| - 1]) + {Strings.Trim(us[|us| - 1].ref)}
  }

  function Fold(cx: Context, w: World, us: seq<Update>): World {
    if |us| == 0 then w
    else
      var before, u := Fold(cx, w, us[..|us| - 1]), us[|us| - 1];
      if Strings.Trim(u.ref) in Refs(us[..|us| - 1]) then before else Step(cx, before, u)
  }

  function ByRef(): (Update, Update) -> bool {
    (a: Update, b: Update) => Strings.Less(a.ref, b.ref)
  }

  /** The connector's references the scan no longer has are retired, not deleted. */
  function Retired(cx: Context, images: Table, seen: set<string>): Table {
    map id | id in images ::
      if images[id].connector == cx.connector && images[id].retiredAt.None? && images[id].ref !in seen
      then images[id].(retiredAt := Some(cx.now)) else images[id]
  }

  predicate Named(us: seq<Update>) {
    forall i | 0 <= i < |us| :: Strings.Trim(us[i].ref) != ""
  }

  /** A scan's updates, or None where one names no image: the scan is rolled back. */
  function Applied(cx: Context, w: World, items: seq<Update>): Option<World> {
    var us := Sorting.Sorted(ByRef(), items);
    if !Named(us) then None
    else
      var after := Fold(cx, w, us);
      Some(World(Retired(cx, after.images, Refs(us)), after.log))
  }

  predicate Expired(i: Image, cutoff: int) {
    i.retiredAt.Some? && i.retiredAt.value < cutoff
  }

  function Drops(images: Table, ids: seq<int>): seq<Note>
    requires forall i | 0 <= i < |ids| :: ids[i] in images
  {
    if |ids| == 0 then [] else Drops(images, ids[..|ids| - 1]) + [Dropped(images[ids[|ids| - 1]].ref)]
  }

  function Without(images: Table, ids: set<int>): Table {
    map id | id in images && id !in ids :: images[id]
  }

  function ExpiredIds(images: Table, cutoff: int): (ids: set<int>)
    ensures forall id <- ids :: id in images
  {
    set id | id in images && Expired(images[id], cutoff)
  }

  /** PurgeGone's share: rows retired before the cutoff are deleted. */
  ghost function Purged(order: RowOrder, w: World, cutoff: int): World
    requires Lists(order)
  {
    var ids := ExpiredIds(w.images, cutoff);
    assert ListOf(order(ids), ids);
    World(Without(w.images, ids), w.log + Drops(w.images, order(ids)))
  }

  // ---------------------------------------------------------------------------
  // The loop over a scan's updates

  class ImageTable {
    var images: Table
    var log: seq<Note>

    ghost function Contents(): World
      reads this
    {
      World(images, log)
    }

    constructor ()
      ensures Contents() == World(map[], [])
    {
      images, log := map[], [];
    }

    method ApplyUpdate(cx: Context, u: Update, ref: string) returns (filed: nat)
      requires ref == Strings.Trim(u.ref)
      modifies this
      ensures Contents() == Step(cx, old(Contents()), u) && filed == |log| - |old(log)|
    {
      hide Looked;
      var id, image := LookUp(cx, u, ref);
      filed := 0;
      if image.lookup.Resolved? && image.remote != image.notified && cx.behind(image.ref, image.remote) > 0 {
        image := image.(notified := image.remote);
        log := log + [Filed(cx.run, ref, image.remote)];
        filed := 1;
      }
      images := images[id := image];
    }

    /** The row of a reference and what the lookup makes of it. */
    method LookUp(cx: Context, u: Update, ref: string) returns (id: int, image: Image)
      requires ref == Strings.Trim(u.ref)
      ensures id == match FindRef(images, ref) case Some(at) => at case None => NextId(images)
      ensures image == Looked(cx, PrevOf(images, ref), u)
    {
      var lookup, remote, reason := u.lookup, Strings.Trim(u.remote), Strings.Trim(u.reason);
      if lookup.Resolved? {
        if !cx.valid(remote) {
          lookup, remote, reason := Unknown, "", "The registry returned a malformed digest.";
        }
      } else {
        remote := "";
      }
      var checked := if u.checkedAt.Some? then u.checkedAt.value else cx.now;
      var found, notified := FindRef(images, ref), "";
      id := NextId(images);
      if found.Some? {
        id := found.value;
        notified := images[id].notified;
        if u.transient && lookup.Unknown? && images[id].lookup.Resolved? {
          lookup, remote, checked := Resolved, images[id].remote, images[id].checkedAt;
          if reason != "" {
            reason := "Last check failed: " + reason;
          }
        }
      }
      image := Image(cx.connector, ref, lookup, remote, reason, checked, notified, None);
    }

    method ApplyImageUpdates(cx: Context, items: seq<Update>) returns (filed: Option<nat>)
      modifies this
      ensures match Applied(cx, old(Contents()), items)
        case None => filed.None?
        case Some(w) => Contents() == w && filed == Some(|log| - |old(log)|)
    {
      hide Step;
      var us := Sorting.Sorted(ByRef(), items);
      var seen: set<string>, n, i := {}, 0, 0;
      while i < |us| && Strings.Trim(us[i].ref) != ""
        invariant 0 <= i <= |us| && Named(us[..i])
        invariant seen == Refs(us[..i]) && n == |log| - |old(log)|
        invariant Contents() == Fold(cx, old(Contents()), us[..i])
      {
        assert us[..i + 1][..i] == us[..i];
        NamedMore(us, i);
        var ref := Strings.Trim(us[i].ref);
        if ref !in seen {
          seen := seen + {ref};
          var more := ApplyUpdate(cx, us[i], ref);
          n := n + more;
        }
        i := i + 1;
      }
      filed := None;
      if i == |us| {
        assert us[..i] == us;
        var after := images;
        images := map id | id in after ::
          if after[id].connector == cx.connector && after[id].retiredAt.None? && after[id].ref !in seen
          then after[id].(retiredAt := Some(cx.now)) else after[id];
        filed := Some(n);
      }
    }
  }

  lemma NamedMore(us: seq<Update>, i: nat)
    requires i < |us| && Named(us[..i]) && Strings.Trim(us[i].ref) != ""
    ensures Named(us[..i + 1])
  {
  }

  // ---------------------------------------------------------------------------
  // What the feed says

  function LastNote(log: seq<Note>, ref: string): Option<Note> {
    if |log| == 0 then None
    else if log[|log| - 1].ref == ref then Some(log[|log| - 1])
    else LastNote(log[..|log| - 1], ref)
  }

  /** The same digest is not reported twice running, unless the row was deleted in between. */
  predicate News(log: seq<Note>) {
    |log| == 0 ||
    (News(log[..|log| - 1]) &&
     (log[|log| - 1].Filed? ==>
        match LastNote(log[..|log| - 1], log[|log| - 1].ref)
        case Some(Filed(_, _, digest)) => digest != log[|log| - 1].digest
        case _ => true))
  }

  /** A row remembers the digest last reported for it; a reference without one has nothing pending. */
  ghost predicate Remembers(w: World, ref: string) {
    match LastNote(w.log, ref)
    case Some(Filed(_, _, digest)) => PrevOf(w.images, ref).Some? && PrevOf(w.images, ref).value.notified == digest
    case _ => PrevOf(w.images, ref).Some? ==> PrevOf(w.images, ref).value.notified == ""
  }

  ghost predicate Told(w: World) {
    OnePerRef(w.images) && News(w.log) && forall ref :: Remembers(w, ref)
  }

  lemma NoteAppended(log: seq<Note>, n: Note)
    ensures LastNote(log + [n], n.ref) == Some(n)
    ensures forall ref | ref != n.ref :: LastNote(log + [n], ref) == LastNote(log, ref)
    ensures News(log + [n]) == (News(log) &&
      (n.Filed? ==> match LastNote(log, n.ref) case Some(Filed(_, _, digest)) => digest != n.digest case _ => true))
  {
    assert (log + [n])[..|log|] == log;
  }

  lemma RowIs(images: Table, id: int)
    requires OnePerRef(images) && id in images
    ensures FindRef(images, images[id].ref) == Some(id)
  {
  }

  lemma PutRow(images: Table, id: int, image: Image)
    requires OnePerRef(images)
    requires match FindRef(images, image.ref) case Some(i) => id == i case None => id !in images
    ensures OnePerRef(images[id := image]) && PrevOf(images[id := image], image.ref) == Some(image)
    ensures forall ref | ref != image.ref :: PrevOf(images[id := image], ref) == PrevOf(images, ref)
  {
    var after := images[id := image];
    forall i | i in images && i != id ensures images[i].ref != image.ref {
      if images[i].ref == image.ref {
        RowIs(images, i);
      }
    }
    RowIs(after, id);
    forall ref | ref != image.ref ensures PrevOf(after, ref) == PrevOf(images, ref) {
      OtherRow(images, id, image, ref);
    }
  }

  lemma OtherRow(images: Table, id: int, image: Image, ref: string)
    requires OnePerRef(images) && OnePerRef(images[id := image]) && ref != image.ref
    requires id in images ==> images[id].ref == image.ref
    ensures PrevOf(images[id := image], ref) == PrevOf(images, ref)
  {
    var a, b := FindRef(images, ref), FindRef(images[id := image], ref);
    if a.Some? {
      RowIs(images[id := image], a.value);
    }
    if b.Some? {
      RowIs(images, b.value);
    }
  }

  lemma StepTold(cx: Context, w: World, u: Update)
    requires Told(w)
    ensures Told(Step(cx, w, u))
  {
    var ref := Strings.Trim(u.ref);
    var id := match FindRef(w.images, ref) case Some(id) => id case None => NextId(w.images);
    var image := Looked(cx, PrevOf(w.images, ref), u);
    assert Remembers(w, ref);
    var row := if Newsworthy(cx, image) then image.(notified := image.remote) else image;
    PutRow(w.images, id, row);
    var note := Filed(cx.run, ref, image.remote);
    NoteAppended(w.log, note);
    forall r: string ensures Remembers(Step(cx, w, u), r) {
      assert Remembers(w, r);
    }
  }

  lemma {:induction false} FoldTold(cx: Context, w: World, us: seq<Update>)
    requires Told(w)
    ensures Told(Fold(cx, w, us))
  {
    hide Step, Told;
    if |us| > 0 {
      FoldTold(cx, w, us[..|us| - 1]);
      StepTold(cx, Fold(cx, w, us[..|us| - 1]), us[|us| - 1]);
    }
  }

  lemma RetiredRow(cx: Context, images: Table, seen: set<string>, ref: string)
    requires OnePerRef(images)
    ensures
      var a, b := PrevOf(images, ref), PrevOf(Retired(cx, images, seen), ref);
      a.Some? == b.Some? && (a.Some? ==> b.value == a.value || b.value == a.value.(retiredAt := Some(cx.now))) &&
      (ref in seen ==> a == b)
  {
    var after := Retired(cx, images, seen);
    var a, b := FindRef(images, ref), FindRef(after, ref);
    if a.Some? {
      RowIs(after, a.value);
    }
    if b.Some? {
      RowIs(images, b.value);
    }
  }

  lemma RetiredTold(cx: Context, w: World, seen: set<string>)
    requires Told(w)
    ensures Told(World(Retired(cx, w.images, seen), w.log))
  {
    forall ref: string ensures Remembers(World(Retired(cx, w.images, seen), w.log), ref) {
      assert Remembers(w, ref);
      RetiredRow(cx, w.images, seen, ref);
    }
  }

  /** A scan keeps the table and the feed in step, whatever is retired, comes back or fails in passing. */
  lemma AppliedTold(cx: Context, w: World, items: seq<Update>)
    requires Told(w) && Applied(cx, w, items).Some?
    ensures Told(Applied(cx, w, items).value)
  {
    var us := Sorting.Sorted(ByRef(), items);
    FoldTold(cx, w, us);
    RetiredTold(cx, Fold(cx, w, us), Refs(us));
  }

  lemma DropRow(images: Table, id: int, ref: string)
    requires OnePerRef(images) && id in images
    ensures OnePerRef(Without(images, {id}))
    ensures PrevOf(Without(images, {id}), ref) == if ref == images[id].ref then None else PrevOf(images, ref)
  {
    var after := Without(images, {id});
    var a, b := FindRef(images, ref), FindRef(after, ref);
    if a.Some? && ref != images[id].ref {
      RowIs(after, a.value);
    }
    if b.Some? {
      RowIs(images, b.value);
    }
  }

  lemma DropTold(w: World, id: int)
    requires Told(w) && id in w.images
    ensures Told(World(Without(w.images, {id}), w.log + [Dropped(w.images[id].ref)]))
  {
    var note := Dropped(w.images[id].ref);
    NoteAppended(w.log, note);
    forall ref: string ensures Remembers(World(Without(w.images, {id}), w.log + [note]), ref) {
      assert Remembers(w, ref);
      DropRow(w.images, id, ref);
    }
    DropRow(w.images, id, "");
  }

  lemma {:induction false} DropsTold(w: World, ids: seq<int>, s: set<int>)
    requires Told(w) && ListOf(ids, s) && forall id <- s :: id in w.images
    requires forall i | 0 <= i < |ids| :: ids[i] in w.images
    ensures Told(World(Without(w.images, s), w.log + Drops(w.images, ids)))
    decreases |ids|
  {
    if |ids| == 0 {
      assert forall id <- w.images :: id !in s;
      assert Without(w.images, s) == w.images && w.log + [] == w.log;
    } else {
      var init, id := ids[..|ids| - 1], ids[|ids| - 1];
      var rest := Drop(s, id);
      DropList(ids, s);
      var note := Dropped(w.images[id].ref);
      assert w.log + Drops(w.images, ids) == w.log + Drops(w.images, init) + [note];
      DropsTold(w, init, rest);
      var mid := World(Without(w.images, rest), w.log + Drops(w.images, init));
      assert Without(w.images, s) == Without(mid.images, {id});
      hide Told;
      DropTold(mid, id);
    }
  }

  lemma PurgedTold(order: RowOrder, w: World, cutoff: int)
    requires Lists(order) && Told(w)
    ensures Told(Purged(order, w, cutoff))
  {
    var ids := ExpiredIds(w.images, cutoff);
    assert ListOf(order(ids), ids);
    DropsTold(w, order(ids), ids);
  }

  /** Exactly the rows retired before the cutoff are deleted. */
  lemma PurgedExactly(order: RowOrder, w: World, cutoff: int, id: int)
    requires Lists(order)
    ensures
      var after := Purged(order, w, cutoff).images;
      && (id in after <==> id in w.images && (w.images[id].retiredAt.Some? ==> w.images[id].retiredAt.value >= cutoff))
      && (id in after ==> after[id] == w.images[id])
  {
  }

  // ---------------------------------------------------------------------------
  // Whole runs

  datatype Event = Scanned(cx: Context, items: seq<Update>) | Purge(cutoff: int)

  ghost function Run(order: RowOrder, es: seq<Event>): World
    requires Lists(order)
  {
    if |es| == 0 then World(map[], [])
    else
      var w := Run(order, es[..|es| - 1]);
      match es[|es| - 1]
      case Scanned(cx, items) => (match Applied(cx, w, items) case Some(next) => next case None => w)
      case Purge(cutoff) => Purged(order, w, cutoff)
  }

  /**
   After any run of scans and purges each row's notified digest is the one of the last entry about its
   reference, and no digest is ever reported twice running while the row lives.
   */
  lemma {:induction false} EveryRunIsTold(order: RowOrder, es: seq<Event>)
    requires Lists(order)
    ensures Told(Run(order, es))
  {
    hide Applied, Purged, Told;
    if |es| == 0 {
      NothingTold();
    } else {
      var w := Run(order, es[..|es| - 1]);
      EveryRunIsTold(order, es[..|es| - 1]);
      match es[|es| - 1] {
        case Scanned(cx, items) =>
          if Applied(cx, w, items).Some? {
            AppliedTold(cx, w, items);
          }
        case Purge(cutoff) => PurgedTold(order, w, cutoff);
      }
    }
  }

  lemma NothingTold()
    ensures Told(World(map[], []))
  {
  }

  // ---------------------------------------------------------------------------
  // Looking again

  /** Looking the reference up again with the same answer changes neither answer nor feed. */
  predicate Quiet(cx: Context, images: Table, u: Update) {
    var r := PrevOf(images, Strings.Trim(u.ref));
    r.Some? &&
    var again := Looked(cx, r, u);
    !Newsworthy(cx, again) && again.lookup == r.value.lookup && again.remote == r.value.remote
  }

  /** The update that counts for its reference. */
  predicate Leads(us: seq<Update>, i: nat)
    requires i < |us|
  {
    Strings.Trim(us[i].ref) !in Refs(us[..i])
  }

  ghost predicate SameSource(a: Context, b: Context) {
    a.connector == b.connector && a.valid == b.valid && a.behind == b.behind
  }

  lemma StepQuiets(cx: Context, cx2: Context, w: World, u: Update)
    requires Told(w) && SameSource(cx, cx2)
    ensures Quiet(cx2, Step(cx, w, u).images, u)
  {
    var ref := Strings.Trim(u.ref);
    var id := match FindRef(w.images, ref) case Some(id) => id case None => NextId(w.images);
    var image := Looked(cx, PrevOf(w.images, ref), u);
    PutRow(w.images, id, if Newsworthy(cx, image) then image.(notified := image.remote) else image);
  }

  lemma StepLeavesOthers(cx: Context, w: World, u: Update, ref: string)
    requires Told(w) && ref != Strings.Trim(u.ref)
    ensures PrevOf(Step(cx, w, u).images, ref) == PrevOf(w.images, ref)
  {
    var r := Strings.Trim(u.ref);
    var id := match FindRef(w.images, r) case Some(id) => id case None => NextId(w.images);
    var image := Looked(cx, PrevOf(w.images, r), u);
    PutRow(w.images, id, if Newsworthy(cx, image) then image.(notified := image.remote) else image);
  }

  lemma {:induction false} RefIn(us: seq<Update>, i: nat)
    requires i < |us|
    ensures Strings.Trim(us[i].ref) in Refs(us)
  {
    if i < |us| - 1 {
      RefIn(us[..|us| - 1], i);
    }
  }

  lemma {:induction false} FoldQuiets(cx: Context, cx2: Context, w: World, us: seq<Update>, i: nat)
    requires Told(w) && SameSource(cx, cx2) && i < |us| && Leads(us, i)
    ensures Quiet(cx2, Fold(cx, w, us).images, us[i])
  {
    hide Step, Told, PrevOf;
    var n := |us| - 1;
    FoldTold(cx, w, us[..n]);
    if i == n {
      StepQuiets(cx, cx2, Fold(cx, w, us[..n]), us[n]);
    } else {
      assert us[..n][..i] == us[..i];
      FoldQuiets(cx, cx2, w, us[..n], i);
      RefIn(us[..n], i);
      if Leads(us, n) {
        StepLeavesOthers(cx, Fold(cx, w, us[..n]), us[n], Strings.Trim(us[i].ref));
      }
    }
  }

  lemma QuietStep(cx: Context, w: World, u: Update)
    requires Told(w) && Quiet(cx, w.images, u)
    ensures Step(cx, w, u).log == w.log
  {
  }

  lemma {:induction false} QuietFold(cx: Context, w: World, us: seq<Update>, n: nat)
    requires Told(w) && n <= |us| && forall i | 0 <= i < |us| && Leads(us, i) :: Quiet(cx, w.images, us[i])
    ensures Fold(cx, w, us[..n]).log == w.log
    ensures forall i | n <= i < |us| && Leads(us, i) :: Quiet(cx, Fold(cx, w, us[..n]).images, us[i])
  {
    hide Step, Told, PrevOf, Refs;
    if n == 0 {
      assert us[..0] == [];
    } else {
      var m := n - 1;
      assert us[..n][..m] == us[..m];
      QuietFold(cx, w, us, m);
      FoldTold(cx, w, us[..m]);
      var before := Fold(cx, w, us[..m]);
      if Leads(us, m) {
        QuietStep(cx, before, us[m]);
        forall i | n <= i < |us| && Leads(us, i) ensures Quiet(cx, Fold(cx, w, us[..n]).images, us[i]) {
          RefIn(us[..i], m);
          StepLeavesOthers(cx, before, us[m], Strings.Trim(us[i].ref));
        }
      }
    }
  }

  /** Scanning again with the same answers files nothing, passing failures and unnoticed digests included. */
  lemma LookingAgainIsSilent(cx: Context, cx2: Context, w: World, items: seq<Update>)
    requires Told(w) && SameSource(cx, cx2) && Applied(cx, w, items).Some?
    ensures
      var once := Applied(cx, w, items).value;
      Applied(cx2, once, items).Some? && Applied(cx2, once, items).value.log == once.log
  {
    var us := Sorting.Sorted(ByRef(), items);
    var mid, once := Fold(cx, w, us), Applied(cx, w, items).value;
    FoldTold(cx, w, us);
    AppliedTold(cx, w, items);
    forall i | 0 <= i < |us| && Leads(us, i) ensures Quiet(cx2, once.images, us[i]) {
      FoldQuiets(cx, cx2, w, us, i);
      RefIn(us, i);
      RetiredRow(cx, mid.images, Refs(us), Strings.Trim(us[i].ref));
    }
    QuietFold(cx2, once, us, |us|);
    assert us[..|us|] == us;
  }

  // ---------------------------------------------------------------------------
  // What exactly is stored and filed

  /** The notes about one reference. */
  function NotesAbout(log: seq<Note>, ref: string): seq<Note> {
    if |log| == 0 then []
    else NotesAbout(log[..|log| - 1], ref) + (if log[|log| - 1].ref == ref then [log[|log| - 1]] else [])
  }

  /** Column by column, what an update leaves of its reference's row, and whether it is news. */
  ghost predicate UpdateSays(cx: Context, was: Option<Image>, u: Update, row: Image, news: bool) {
    var remote, ref := Strings.Trim(u.remote), Strings.Trim(u.ref);
    var good := u.lookup == Resolved && cx.valid(remote);
    var kept := was.Some? && was.value.lookup == Resolved && u.transient && u.lookup != Pinned && !good;
    var reason := if u.lookup == Resolved && !good then "The registry returned a malformed digest." else Strings.Trim(u.reason);
    var notified := if was.Some? then was.value.notified else "";
    && row.connector == cx.connector && row.ref == ref && row.retiredAt == None
    && row.lookup == (if good || kept then Resolved else if u.lookup == Pinned then Pinned else Unknown)
    && row.remote == (if good then remote else if kept then was.value.remote else "")
    && row.checkedAt == (if kept then was.value.checkedAt else if u.checkedAt.Some? then u.checkedAt.value else cx.now)
    && row.reason == (if kept && reason != "" then "Last check failed: " + reason else reason)
    && (news <==> row.lookup == Resolved && row.remote != notified && cx.behind(ref, row.remote) > 0)
    && row.notified == (if news then row.remote else notified)
  }

  /** The update's row is as it says, and an entry with its digest is filed exactly if it is news. */
  ghost predicate UpdateIsTold(cx: Context, w: World, u: Update, now: World) {
    var ref := Strings.Trim(u.ref);
    var row := PrevOf(now.images, ref);
    row.Some? && exists news ::
      UpdateSays(cx, PrevOf(w.images, ref), u, row.value, news) &&
      NotesAbout(now.log, ref) == NotesAbout(w.log, ref) + (if news then [Filed(cx.run, ref, row.value.remote)] else [])
  }

  ghost predicate Unmentioned(w: World, ref: string, now: World) {
    PrevOf(now.images, ref) == PrevOf(w.images, ref) && NotesAbout(now.log, ref) == NotesAbout(w.log, ref)
  }

  lemma NoteAbout(log: seq<Note>, n: Note, ref: string)
    ensures NotesAbout(log + [n], ref) == NotesAbout(log, ref) + (if n.ref == ref then [n] else [])
  {
    assert (log + [n])[..|log|] == log;
  }

  lemma LookedSays(cx: Context, prev: Option<Image>, u: Update)
    requires prev.Some? ==> prev.value.ref == Strings.Trim(u.ref)
    ensures
      var image := Looked(cx, prev, u);
      UpdateSays(cx, prev, u, if Newsworthy(cx, image) then image.(notified := image.remote) else image, Newsworthy(cx, image))
  {
  }

  lemma StepSays(cx: Context, w: World, u: Update)
    requires OnePerRef(w.images)
    ensures UpdateIsTold(cx, w, u, Step(cx, w, u)) && OnePerRef(Step(cx, w, u).images)
    ensures forall ref | ref != Strings.Trim(u.ref) :: Unmentioned(w, ref, Step(cx, w, u))
  {
    var ref := Strings.Trim(u.ref);
    var prev := PrevOf(w.images, ref);
    var id := match FindRef(w.images, ref) case Some(id) => id case None => NextId(w.images);
    var image := Looked(cx, prev, u);
    var row := if Newsworthy(cx, image) then image.(notified := image.remote) else image;
    LookedSays(cx, prev, u);
    PutRow(w.images, id, row);
    hide PrevOf, FindRef, UpdateSays, OnePerRef;
    forall r: string {
      NoteAbout(w.log, Filed(cx.run, ref, image.remote), r);
    }
    assert UpdateSays(cx, prev, u, row, Newsworthy(cx, image));
  }

  ghost predicate FoldSays(cx: Context, w: World, us: seq<Update>, n: nat, now: World)
    requires n <= |us|
  {
    && OnePerRef(now.images)
    && (forall i | 0 <= i < n && Leads(us, i) :: UpdateIsTold(cx, w, us[i], now))
    && (forall ref | ref !in Refs(us[..n]) :: Unmentioned(w, ref, now))
  }

  lemma ToldStill(cx: Context, w: World, mid: World, now: World, u: Update)
    requires UpdateIsTold(cx, w, u, mid) && Unmentioned(mid, Strings.Trim(u.ref), now)
    ensures UpdateIsTold(cx, w, u, now)
  {
    hide PrevOf, NotesAbout, UpdateSays;
  }

  lemma ToldAnew(cx: Context, w: World, mid: World, now: World, u: Update)
    requires Unmentioned(w, Strings.Trim(u.ref), mid) && UpdateIsTold(cx, mid, u, now)
    ensures UpdateIsTold(cx, w, u, now)
  {
    hide PrevOf, NotesAbout, UpdateSays;
  }

  lemma NextSays(cx: Context, w: World, us: seq<Update>, m: nat, mid: World)
    requires m < |us| && Leads(us, m) && FoldSays(cx, w, us, m, mid)
    ensures FoldSays(cx, w, us, m + 1, Step(cx, mid, us[m]))
  {
    hide Step, PrevOf, NotesAbout, UpdateIsTold, OnePerRef, Unmentioned;
    var now := Step(cx, mid, us[m]);
    assert us[..m + 1][..m] == us[..m];
    StepSays(cx, mid, us[m]);
    assert UpdateIsTold(cx, w, us[m], now) by { ToldAnew(cx, w, mid, now, us[m]); }
    forall i | 0 <= i < m && Leads(us, i) ensures UpdateIsTold(cx, w, us[i], now) {
      RefIn(us[..m], i);
      ToldStill(cx, w, mid, now, us[i]);
    }
    forall ref | ref !in Refs(us[..m + 1]) ensures Unmentioned(w, ref, now) {
      UnmentionedStill(w, mid, now, ref);
    }
  }

  lemma UnmentionedStill(w: World, mid: World, now: World, ref: string)
    requires Unmentioned(w, ref, mid) && Unmentioned(mid, ref, now)
    ensures Unmentioned(w, ref, now)
  {
  }

  lemma {:induction false} FoldSaysAll(cx: Context, w: World, us: seq<Update>, n: nat)
    requires OnePerRef(w.images) && n <= |us|
    ensures FoldSays(cx, w, us, n, Fold(cx, w, us[..n]))
  {
    hide Step, PrevOf, NotesAbout, UpdateIsTold, OnePerRef;
    if n == 0 {
      assert us[..0] == [];
    } else {
      var m := n - 1;
      assert us[..n][..m] == us[..m];
      FoldSaysAll(cx, w, us, m);
      var mid := Fold(cx, w, us[..m]);
      if Leads(us, m) {
        NextSays(cx, w, us, m, mid);
      } else {
        assert Refs(us[..n]) == Refs(us[..m]);
      }
    }
  }

  /**
   After a scan each reference's row holds what the first update about it says, a passing failure keeping the last
   answer; an entry is filed exactly if a resolved digest is not the one last reported and something runs behind it.
   */
  lemma ListedIsTold(cx: Context, w: World, items: seq<Update>, i: nat)
    requires OnePerRef(w.images) && Applied(cx, w, items).Some?
    requires i < |Sorting.Sorted(ByRef(), items)| && Leads(Sorting.Sorted(ByRef(), items), i)
    ensures UpdateIsTold(cx, w, Sorting.Sorted(ByRef(), items)[i], Applied(cx, w, items).value)
  {
    var us := Sorting.Sorted(ByRef(), items);
    FoldSaysAll(cx, w, us, |us|);
    assert us[..|us|] == us;
    var mid := Fold(cx, w, us);
    RefIn(us, i);
    RetiredRow(cx, mid.images, Refs(us), Strings.Trim(us[i].ref));
    hide PrevOf, NotesAbout, Fold;
    ToldStill(cx, w, mid, Applied(cx, w, items).value, us[i]);
  }

  /** A reference no update names: the connector's row is retired, any other stays; nothing is filed. */
  lemma UnlistedIsRetired(cx: Context, w: World, items: seq<Update>, ref: string)
    requires OnePerRef(w.images) && Applied(cx, w, items).Some?
    requires forall i | 0 <= i < |items| :: Strings.Trim(items[i].ref) != ref
    ensures
      var out := Applied(cx, w, items).value;
      var was := PrevOf(w.images, ref);
      && NotesAbout(out.log, ref) == NotesAbout(w.log, ref)
      && PrevOf(out.images, ref)
         == if was.Some? && was.value.connector == cx.connector && was.value.retiredAt == None
            then Some(was.value.(retiredAt := Some(cx.now))) else was
  {
    var us := Sorting.Sorted(ByRef(), items);
    Sorting.SortedPermutes(ByRef(), items);
    forall i | 0 <= i < |us| ensures Strings.Trim(us[i].ref) != ref {
      Sorting.InMultiset(items, us[i]);
      Sorting.InMultiset(us, us[i]);
    }
    NotListed(us, ref);
    FoldSaysAll(cx, w, us, |us|);
    assert us[..|us|] == us;
    RetiredExactly(cx, Fold(cx, w, us).images, Refs(us), ref);
  }

  lemma {:induction false} NotListed(us: seq<Update>, ref: string)
    requires forall i | 0 <= i < |us| :: Strings.Trim(us[i].ref) != ref
    ensures ref !in Refs(us)
  {
    if |us| > 0 {
      NotListed(us[..|us| - 1], ref);
    }
  }

  lemma RetiredExactly(cx: Context, images: Table, seen: set<string>, ref: string)
    requires OnePerRef(images) && ref !in seen
    ensures
      var was := PrevOf(images, ref);
      PrevOf(Retired(cx, images, seen), ref)
      == if was.Some? && was.value.connector == cx.connector && was.value.retiredAt == None
         then Some(was.value.(retiredAt := Some(cx.now))) else was
  {
    var after := Retired(cx, images, seen);
    var a, b := FindRef(images, ref), FindRef(after, ref);
    if a.Some? {
      RowIs(after, a.value);
    }
    if b.Some? {
      RowIs(images, b.value);
    }
  }
}
